/**
 * The rescuer dashboard's view of the SOS collection, from
 * `src/pages/Index.tsx`: each stored signal gets the priority
 * 0.7 * physical urgency + 0.3 * vulnerability, the list is sorted from the
 * highest priority down (stably, as `Array.prototype.sort` is), and each
 * priority is shown in one of three bands.
 */
module Ranking {
  import opened Wrappers
  import opened TriageScoring

  datatype Position = Position(latitude: real, longitude: real)

  /** The fields of a stored SOS document. */
  datatype SignalData = SignalData(
    userId: string,
    message: string,
    location: Option<Position>,
    profile: VulnerabilityProfile,
    triage: TriageResult,
    timestamp: int)

  /** One document as a collection snapshot hands it to `forEach`. */
  datatype SnapshotDoc = SnapshotDoc(id: string, data: SignalData)

  /** A signal as the dashboard holds it: the document's id and fields, plus its priority. */
  datatype SOSSignal = SOSSignal(
    id: string,
    userId: string,
    message: string,
    location: Option<Position>,
    profile: VulnerabilityProfile,
    triage: TriageResult,
    timestamp: int,
    priority: real)

  /** `p_score * 0.7 + v_score * 0.3`, in exact arithmetic: ten times the priority is the integer 7p + 3v. */
  function Priority(triage: TriageResult): (r: real)
    ensures 10.0 * r == (7 * triage.pScore + 3 * triage.vScore) as real
  {
    triage.pScore as real * 0.7 + triage.vScore as real * 0.3
  }

  /** For any score the scorer produces, the priority lies between 21 and 97. */
  lemma PriorityRange(message: string, profile: VulnerabilityProfile)
    ensures 21.0 <= Priority(Triage(message, profile)) <= 97.0
  {
    var t := Triage(message, profile);
    assert 10.0 * Priority(t) == (7 * t.pScore + 3 * t.vScore) as real;
  }

  /** The object pushed for one snapshot document: its id, its fields, and its priority. */
  function ToSignal(doc: SnapshotDoc): (r: SOSSignal)
    ensures r.id == doc.id && r.priority == Priority(doc.data.triage)
    ensures r.userId == doc.data.userId && r.message == doc.data.message
    ensures r.location == doc.data.location && r.profile == doc.data.profile
    ensures r.triage == doc.data.triage && r.timestamp == doc.data.timestamp
  {
    var d := doc.data;
    SOSSignal(doc.id, d.userId, d.message, d.location, d.profile, d.triage, d.timestamp,
      Priority(d.triage))
  }

  /** The signals in snapshot iteration order, before sorting. */
  function Signals(docs: seq<SnapshotDoc>): (r: seq<SOSSignal>)
    ensures |r| == |docs|
    ensures forall i :: 0 <= i < |docs| ==> r[i] == ToSignal(docs[i])
  {
    if docs == [] then [] else Signals(docs[..|docs| - 1]) + [ToSignal(docs[|docs| - 1])]
  }

  ghost predicate SortedByPriority(s: seq<SOSSignal>) {
    forall i, j :: 0 <= i < j < |s| ==> s[i].priority >= s[j].priority
  }

  /** The signals of `s` whose priority is exactly `p`, in their order in `s`. */
  function WithPriority(s: seq<SOSSignal>, p: real): seq<SOSSignal> {
    if s == [] then []
    else WithPriority(s[..|s| - 1], p) + (if s[|s| - 1].priority == p then [s[|s| - 1]] else [])
  }

  /** Places `x` after every signal of `sorted` whose priority is at least its own. */
  function Insert(sorted: seq<SOSSignal>, x: SOSSignal): seq<SOSSignal> {
    if sorted == [] || sorted[|sorted| - 1].priority >= x.priority then sorted + [x]
    else Insert(sorted[..|sorted| - 1], x) + [sorted[|sorted| - 1]]
  }

  /**
   * `signals.sort((a, b) => b.priority - a.priority)`: a stable sort from the
   * highest priority down, as a stable insertion sort.
   */
  function SortByPriority(s: seq<SOSSignal>): (r: seq<SOSSignal>)
    ensures |r| == |s|
  {
    if s == [] then []
    else
      InsertPermutation(SortByPriority(s[..|s| - 1]), s[|s| - 1]);
      Insert(SortByPriority(s[..|s| - 1]), s[|s| - 1])
  }

  /** The list the snapshot callback stores: the snapshot's signals, sorted. */
  function RankedView(docs: seq<SnapshotDoc>): (r: seq<SOSSignal>)
    ensures |r| == |docs|
  {
    SortByPriority(Signals(docs))
  }

  // ---------------------------------------------------------------------------
  // The snapshot callback, as the source runs it

  /** The snapshot callback: push one signal per document, then sort the array in place. */
  method RankSnapshot(docs: seq<SnapshotDoc>) returns (ranked: seq<SOSSignal>)
    ensures ranked == RankedView(docs)
  {
    var signals: seq<SOSSignal> := [];
    for i := 0 to |docs|
      invariant signals == Signals(docs[..i])
    {
      assert docs[..i + 1][..i] == docs[..i];
      signals := signals + [ToSignal(docs[i])];
    }
    assert docs[..|docs|] == docs;
    var a := new SOSSignal[|signals|](i requires 0 <= i < |signals| => signals[i]);
    assert a[..] == signals;
    SortInPlace(a);
    ranked := a[..];
  }

  /** The in-place stable sort: each element in turn is moved left past the lower-priority ones before it. */
  method SortInPlace(a: array<SOSSignal>)
    modifies a
    ensures a[..] == SortByPriority(old(a[..]))
  {
    ghost var input := a[..];
    for i := 0 to a.Length
      invariant a[..i] == SortByPriority(input[..i])
      invariant a[i..] == input[i..]
    {
      ghost var before := a[..];
      assert input[..i + 1][..i] == input[..i];
      assert before[i] == input[i] && before[i + 1..] == input[i + 1..];
      assert SortByPriority(input[..i + 1]) == Insert(before[..i], before[i]);
      InsertInPlace(a, i);
    }
    assert input[..a.Length] == input;
  }

  /** One step of the sort: `a[i]` is shifted left past the signals of lower priority in `a[..i]`. */
  method InsertInPlace(a: array<SOSSignal>, i: nat)
    requires i < a.Length
    modifies a
    ensures a[..i + 1] == Insert(old(a[..i]), old(a[i]))
    ensures a[i + 1..] == old(a[i + 1..])
  {
    var x := a[i];
    ghost var sorted := a[..i];
    var j := OpenGap(a, i);
    InsertAt(sorted, x, j);
    a[j] := x;
    ghost var placed := sorted[..j] + [x] + sorted[j..];
    assert forall k :: 0 <= k <= i ==> a[k] == placed[k];
    assert a[..i + 1] == placed;
    ghost var suffix, oldSuffix := a[i + 1..], old(a[i + 1..]);
    assert forall k :: 0 <= k < |suffix| ==> suffix[k] == oldSuffix[k];
  }

  /**
   * The inner loop of the insertion: the signals before position `i` with a
   * lower priority than `a[i]` move one place right, leaving position `j`
   * open.
   */
  method OpenGap(a: array<SOSSignal>, i: nat) returns (j: nat)
    requires i < a.Length
    modifies a
    ensures j <= i
    ensures j == 0 || old(a[j - 1]).priority >= old(a[i]).priority
    ensures forall k :: j <= k < i ==> old(a[k]).priority < old(a[i]).priority
    ensures forall k :: 0 <= k < j ==> a[k] == old(a[k])
    ensures forall k :: j < k <= i ==> a[k] == old(a[k - 1])
    ensures forall k :: i < k < a.Length ==> a[k] == old(a[k])
  {
    var x := a[i];
    j := i;
    while j > 0 && a[j - 1].priority < x.priority
      invariant 0 <= j <= i
      invariant forall k :: 0 <= k < j ==> a[k] == old(a[k])
      invariant forall k :: j < k <= i ==> a[k] == old(a[k - 1])
      invariant forall k :: i < k < a.Length ==> a[k] == old(a[k])
      invariant forall k :: j <= k < i ==> old(a[k]).priority < x.priority
    {
      a[j] := a[j - 1];
      j := j - 1;
    }
  }

  /**
   * `x` lands right after the last signal of at least its priority: every
   * signal after position `j` has a lower priority, the one before it not.
   */
  lemma {:induction false} InsertAt(sorted: seq<SOSSignal>, x: SOSSignal, j: nat)
    requires j <= |sorted|
    requires j == 0 || sorted[j - 1].priority >= x.priority
    requires forall k :: j <= k < |sorted| ==> sorted[k].priority < x.priority
    ensures Insert(sorted, x) == sorted[..j] + [x] + sorted[j..]
    decreases |sorted|
  {
    var n := |sorted|;
    if j == n {
      assert sorted[..j] == sorted;
    } else {
      var init := sorted[..n - 1];
      InsertAt(init, x, j);
      assert init[..j] == sorted[..j];
      assert init[j..] + [sorted[n - 1]] == sorted[j..];
    }
  }

  // ---------------------------------------------------------------------------
  // What the ranking guarantees

  lemma WithPriorityAppend(s: seq<SOSSignal>, t: seq<SOSSignal>, p: real)
    ensures WithPriority(s + t, p) == WithPriority(s, p) + WithPriority(t, p)
  {
    if t != [] {
      assert (s + t)[..|s + t| - 1] == s + t[..|t| - 1];
      WithPriorityAppend(s, t[..|t| - 1], p);
    } else {
      assert s + t == s;
    }
  }

  lemma {:induction false} InsertPermutation(sorted: seq<SOSSignal>, x: SOSSignal)
    ensures multiset(Insert(sorted, x)) == multiset(sorted) + multiset{x}
    ensures |Insert(sorted, x)| == |sorted| + 1
  {
    if sorted != [] && sorted[|sorted| - 1].priority < x.priority {
      var init, last := sorted[..|sorted| - 1], sorted[|sorted| - 1];
      InsertPermutation(init, x);
      assert sorted == init + [last];
    }
  }

  lemma {:induction false} InsertSorted(sorted: seq<SOSSignal>, x: SOSSignal)
    requires SortedByPriority(sorted)
    ensures SortedByPriority(Insert(sorted, x))
  {
    if sorted != [] && sorted[|sorted| - 1].priority < x.priority {
      var init, last := sorted[..|sorted| - 1], sorted[|sorted| - 1];
      InsertSorted(init, x);
      InsertPermutation(init, x);
      var r := Insert(init, x);
      forall k | 0 <= k < |r| ensures r[k].priority >= last.priority {
        assert r[k] in multiset(r);
        if r[k] != x {
          assert r[k] in multiset(init);
          var m :| 0 <= m < |init| && init[m] == r[k];
          assert sorted[m] == init[m];
        }
      }
    }
  }

  /** Inserting keeps, for each priority, the order of the signals with that priority, `x` coming last. */
  lemma {:induction false} InsertStable(sorted: seq<SOSSignal>, x: SOSSignal, p: real)
    ensures WithPriority(Insert(sorted, x), p) == WithPriority(sorted + [x], p)
  {
    if sorted != [] && sorted[|sorted| - 1].priority < x.priority {
      var init, last := sorted[..|sorted| - 1], sorted[|sorted| - 1];
      calc {
        WithPriority(Insert(sorted, x), p);
        WithPriority(Insert(init, x) + [last], p);
        { WithPriorityAppend(Insert(init, x), [last], p); }
        WithPriority(Insert(init, x), p) + WithPriority([last], p);
        { InsertStable(init, x, p); WithPriorityAppend(init, [x], p); }
        WithPriority(init, p) + WithPriority([x], p) + WithPriority([last], p);
        { assert x.priority != last.priority || p != x.priority; }
        WithPriority(init, p) + WithPriority([last], p) + WithPriority([x], p);
        { WithPriorityAppend(init, [last], p); assert init + [last] == sorted; }
        WithPriority(sorted, p) + WithPriority([x], p);
        { WithPriorityAppend(sorted, [x], p); }
        WithPriority(sorted + [x], p);
      }
    }
  }

  /** The sort returns its input reordered, from the highest priority down. */
  lemma {:induction false} SortSortedPermutation(s: seq<SOSSignal>)
    ensures SortedByPriority(SortByPriority(s))
    ensures multiset(SortByPriority(s)) == multiset(s)
  {
    if s != [] {
      var init := s[..|s| - 1];
      SortSortedPermutation(init);
      InsertSorted(SortByPriority(init), s[|s| - 1]);
      InsertPermutation(SortByPriority(init), s[|s| - 1]);
      assert s == init + [s[|s| - 1]];
    }
  }

  /** The sort is stable: signals of equal priority stay in their input order. */
  lemma {:induction false} SortStable(s: seq<SOSSignal>, p: real)
    ensures WithPriority(SortByPriority(s), p) == WithPriority(s, p)
  {
    if s != [] {
      var init, last := s[..|s| - 1], s[|s| - 1];
      var sortedInit := SortByPriority(init);
      calc {
        WithPriority(SortByPriority(s), p);
        WithPriority(Insert(sortedInit, last), p);
        { InsertStable(sortedInit, last, p); }
        WithPriority(sortedInit + [last], p);
        { WithPriorityAppend(sortedInit, [last], p); }
        WithPriority(sortedInit, p) + WithPriority([last], p);
        { SortStable(init, p); }
        WithPriority(init, p) + WithPriority([last], p);
        { WithPriorityAppend(init, [last], p); }
        WithPriority(init + [last], p);
        { assert s == init + [last]; }
        WithPriority(s, p);
      }
    }
  }

  /**
   * The dashboard list holds exactly the snapshot's signals, sorted from the
   * highest priority down, with equal priorities in snapshot order.
   */
  lemma RankedViewCorrect(docs: seq<SnapshotDoc>)
    ensures multiset(RankedView(docs)) == multiset(Signals(docs))
    ensures SortedByPriority(RankedView(docs))
    ensures forall p :: WithPriority(RankedView(docs), p) == WithPriority(Signals(docs), p)
  {
    SortSortedPermutation(Signals(docs));
    forall p ensures WithPriority(RankedView(docs), p) == WithPriority(Signals(docs), p) {
      SortStable(Signals(docs), p);
    }
  }

  /** Every listed signal is one snapshot document, with that document's id and its priority. */
  lemma RankedFromDocs(docs: seq<SnapshotDoc>, s: SOSSignal)
    requires s in RankedView(docs)
    ensures exists i :: (0 <= i < |docs| && s == ToSignal(docs[i]) && s.id == docs[i].id
                         && s.priority == Priority(docs[i].data.triage))
  {
    SortSortedPermutation(Signals(docs));
    assert s in multiset(Signals(docs));
    var i :| 0 <= i < |docs| && Signals(docs)[i] == s;
  }

  /**
   * Scores (45, 0) and (30, 35) have the same exact priority, 31.5, so the
   * dashboard keeps them in snapshot order. In IEEE-754 doubles the first
   * comes out a rounding error below the second.
   */
  lemma ExactTieKeepsSnapshotOrder(d1: SnapshotDoc, d2: SnapshotDoc)
    requires d1.data.triage.pScore == 45 && d1.data.triage.vScore == 0
    requires d2.data.triage.pScore == 30 && d2.data.triage.vScore == 35
    ensures Priority(d1.data.triage) == Priority(d2.data.triage) == 31.5
    ensures RankedView([d1, d2]) == [ToSignal(d1), ToSignal(d2)]
  {
    assert [d1, d2][..1] == [d1];
    assert Signals([d1, d2]) == [ToSignal(d1), ToSignal(d2)];
    assert SortByPriority([ToSignal(d1)]) == [ToSignal(d1)];
    assert [ToSignal(d1), ToSignal(d2)][..1] == [ToSignal(d1)];
  }

  // ---------------------------------------------------------------------------
  // Priority bands

  /** `getPriorityLabel`. */
  function PriorityLabel(priority: real): (name: string)
    ensures name == "CRITICAL" <==> priority >= 70.0
    ensures name == "HIGH" <==> 50.0 <= priority < 70.0
    ensures name == "MEDIUM" <==> priority < 50.0
  {
    if priority >= 70.0 then "CRITICAL"
    else if priority >= 50.0 then "HIGH"
    else "MEDIUM"
  }

  const EmergencyColor := "border-sanctuary-emergency" + " bg-sanctuary-emergency/10"
  const WarningColor := "border-sanctuary-warning" + " bg-sanctuary-warning/10"
  const CalmColor := "border-sanctuary-calm" + " bg-sanctuary-calm/10"

  /** `getPriorityColor`. */
  function PriorityColor(priority: real): (color: string)
    ensures color == EmergencyColor <==> priority >= 70.0
    ensures color == WarningColor <==> 50.0 <= priority < 70.0
    ensures color == CalmColor <==> priority < 50.0
  {
    if priority >= 70.0 then EmergencyColor
    else if priority >= 50.0 then WarningColor
    else CalmColor
  }

  /** Colour and label draw the same band boundaries: two priorities share a colour exactly when they share a label. */
  lemma ColorAndLabelAgree(p: real, q: real)
    ensures PriorityColor(p) == PriorityColor(q) <==> PriorityLabel(p) == PriorityLabel(q)
  {
  }

  /** The worked example's signal has priority 60 and is labelled HIGH. */
  lemma WorkedExamplePriority()
    ensures Priority(Triage(ExampleMessage, ExampleProfile)) == 60.0
    ensures PriorityLabel(Priority(Triage(ExampleMessage, ExampleProfile))) == "HIGH"
  {
    WorkedExample();
  }
}
