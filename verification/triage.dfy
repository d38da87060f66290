/**
 * The emergency triage scorer of `src/lib/gemini.ts`: a message and the
 * sender's vulnerability profile are turned into a physical-urgency score, a
 * vulnerability score and a one-sentence summary, by keyword matching and
 * fixed weights (no model is actually called).
 */
module TriageScoring {
  import opened JsString

  datatype VulnerabilityProfile = VulnerabilityProfile(
    sensoryImpaired: bool,
    nonVerbal: bool,
    mobilityImpaired: bool,
    medicalConditions: string)

  /** `pScore` is the physical urgency, `vScore` the vulnerability amplification. */
  datatype TriageResult = TriageResult(pScore: int, vScore: int, summary: string)

  const BaseScore := 30
  const UrgentBonus := 15
  const CriticalBonus := 25
  const MaxPhysicalScore := 100

  const SensoryWeight := 25
  const NonVerbalWeight := 30
  const MobilityWeight := 20
  const MedicalWeight := 15

  const UrgentKeywords: seq<string> :=
    ["trapped", "injured", "bleeding", "can't move", "help", "emergency", "hurt"]
  const CriticalKeywords: seq<string> :=
    ["dying", "heart attack", "stroke", "severe", "critical"]

  // Each sentence is written as its opening band word followed by the rest of it.
  const StandardSummary := "Standard" + " emergency response required."
  const CriticalSummary := "CRITICAL" + ": Immediate medical intervention needed."
  const HighSummary := "HIGH PRIORITY" + ": Urgent rescue response required."
  const VulnerableAdvisory := " Vulnerable individual - " + "specialized assistance protocols recommended."

  /** How many entries of `keywords` occur in `text`: each entry is tested once, whatever its number of occurrences. */
  function MatchCount(text: string, keywords: seq<string>): (r: nat)
    ensures r <= |keywords|
  {
    if keywords == [] then 0
    else MatchCount(text, keywords[..|keywords| - 1])
         + (if Includes(text, keywords[|keywords| - 1]) then 1 else 0)
  }

  /** The keywords of the list that occur in `text`. */
  ghost function Matched(text: string, keywords: seq<string>): set<string> {
    set k | k in keywords && Includes(text, k)
  }

  ghost predicate Distinct(keywords: seq<string>) {
    forall i, j :: 0 <= i < j < |keywords| ==> keywords[i] != keywords[j]
  }

  /** Physical urgency before the cap: the base plus one bonus per matched keyword. */
  function UncappedPhysicalScore(message: string): int {
    var lower := ToLower(message);
    BaseScore + UrgentBonus * MatchCount(lower, UrgentKeywords)
      + CriticalBonus * MatchCount(lower, CriticalKeywords)
  }

  function PhysicalScore(message: string): (r: int)
    ensures BaseScore <= r <= MaxPhysicalScore
  {
    var raw := UncappedPhysicalScore(message);
    if raw < MaxPhysicalScore then raw else MaxPhysicalScore
  }

  function VulnerabilityScore(profile: VulnerabilityProfile): (r: int)
    ensures 0 <= r <= SensoryWeight + NonVerbalWeight + MobilityWeight + MedicalWeight
  {
    (if profile.sensoryImpaired then SensoryWeight else 0)
    + (if profile.nonVerbal then NonVerbalWeight else 0)
    + (if profile.mobilityImpaired then MobilityWeight else 0)
    + (if Trim(profile.medicalConditions) != "" then MedicalWeight else 0)
  }

  /**
   * The summary: a sentence chosen by the physical-score band, followed by
   * the vulnerability advisory exactly when `vScore > 40`.
   */
  function Summary(pScore: int, vScore: int): (r: string)
    ensures StartsWith(r, "CRITICAL") <==> pScore > 70
    ensures StartsWith(r, "HIGH PRIORITY") <==> 50 < pScore <= 70
    ensures StartsWith(r, "Standard") <==> pScore <= 50
    ensures EndsWith(r, VulnerableAdvisory) <==> vScore > 40
  {
    var band :=
      if pScore > 70 then CriticalSummary
      else if pScore > 50 then HighSummary
      else StandardSummary;
    BandOpenings();
    if vScore > 40 then
      StartsWithAppend(band, VulnerableAdvisory, "CRITICAL");
      StartsWithAppend(band, VulnerableAdvisory, "HIGH PRIORITY");
      StartsWithAppend(band, VulnerableAdvisory, "Standard");
      var full := band + VulnerableAdvisory;
      assert full[|full| - |VulnerableAdvisory|..] == VulnerableAdvisory;
      full
    else
      band
  }

  /** What `performTriage(message, profile)` resolves to. */
  function Triage(message: string, profile: VulnerabilityProfile): (r: TriageResult)
    ensures BaseScore <= r.pScore <= MaxPhysicalScore
    ensures 0 <= r.vScore <= 90
  {
    var p := PhysicalScore(message);
    var v := VulnerabilityScore(profile);
    TriageResult(p, v, Summary(p, v))
  }

  /**
   * `performTriage`, step by step as the source runs it: the score is raised
   * inside one pass over each keyword list, capped, then the profile flags are
   * added and the summary is picked and extended. `Math.round` is the identity
   * on these integer scores.
   */
  method PerformTriage(message: string, profile: VulnerabilityProfile) returns (result: TriageResult)
    ensures result == Triage(message, profile)
  {
    var pScore := BaseScore;
    var vScore := 0;
    var messageLower := ToLower(message);

    pScore := AddKeywordBonuses(messageLower, UrgentKeywords, UrgentBonus, pScore);
    pScore := AddKeywordBonuses(messageLower, CriticalKeywords, CriticalBonus, pScore);

    if pScore > MaxPhysicalScore {
      pScore := MaxPhysicalScore;
    }

    if profile.sensoryImpaired { vScore := vScore + SensoryWeight; }
    if profile.nonVerbal { vScore := vScore + NonVerbalWeight; }
    if profile.mobilityImpaired { vScore := vScore + MobilityWeight; }
    if Trim(profile.medicalConditions) != "" { vScore := vScore + MedicalWeight; }

    var summary := StandardSummary;
    if pScore > 70 {
      summary := CriticalSummary;
    } else if pScore > 50 {
      summary := HighSummary;
    }
    if vScore > 40 {
      summary := summary + VulnerableAdvisory;
    }

    result := TriageResult(pScore, vScore, summary);
  }

  /** One `keywords.forEach(k => { if (text.includes(k)) score += bonus; })` pass. */
  method AddKeywordBonuses(text: string, keywords: seq<string>, bonus: nat, score: int) returns (r: int)
    ensures r == score + bonus * MatchCount(text, keywords)
  {
    r := score;
    for i := 0 to |keywords|
      invariant r == score + bonus * MatchCount(text, keywords[..i])
    {
      assert keywords[..i + 1][..i] == keywords[..i];
      if Includes(text, keywords[i]) {
        r := r + bonus;
      }
    }
    assert keywords[..|keywords|] == keywords;
  }

  /** The canned result `getDemoTriageResult` returns. */
  function DemoTriageResult(): (r: TriageResult)
    ensures r.pScore == 75 && r.vScore == 45
    ensures StartsWith(r.summary, "HIGH PRIORITY")
  {
    TriageResult(75, 45,
      "HIGH PRIORITY" + ": Injured person with mobility constraints - "
      + "immediate rescue response with accessibility support.")
  }

  // ---------------------------------------------------------------------------
  // Properties of the scorer

  lemma {:induction false} MatchCountNone(text: string, keywords: seq<string>)
    requires forall k :: k in keywords ==> !Includes(text, k)
    ensures MatchCount(text, keywords) == 0
  {
    if keywords != [] {
      MatchCountNone(text, keywords[..|keywords| - 1]);
    }
  }

  /** A message containing none of the twelve keywords keeps the base physical score. */
  lemma NoKeywordBaseScore(message: string, profile: VulnerabilityProfile)
    requires forall k :: k in UrgentKeywords + CriticalKeywords ==> !Includes(ToLower(message), k)
    ensures Triage(message, profile).pScore == BaseScore
  {
    MatchCountNone(ToLower(message), UrgentKeywords);
    MatchCountNone(ToLower(message), CriticalKeywords);
  }

  /**
   * Each keyword of a list without repeats adds its bonus at most once: the
   * count is the number of distinct keywords that occur, however often.
   */
  lemma {:induction false} MatchCountIsMatchedKeywords(text: string, keywords: seq<string>)
    requires Distinct(keywords)
    ensures MatchCount(text, keywords) == |Matched(text, keywords)|
  {
    if keywords != [] {
      var init, last := keywords[..|keywords| - 1], keywords[|keywords| - 1];
      assert keywords == init + [last];
      MatchCountIsMatchedKeywords(text, init);
      DistinctLast(keywords);
      MatchedAppend(text, init, last);
    }
  }

  /** The last keyword of a list without repeats is not among the others. */
  lemma DistinctLast(keywords: seq<string>)
    requires keywords != [] && Distinct(keywords)
    ensures keywords[|keywords| - 1] !in keywords[..|keywords| - 1]
  {
    var init := keywords[..|keywords| - 1];
    forall m | 0 <= m < |init| ensures init[m] != keywords[|keywords| - 1] {
      assert keywords[m] == init[m];
    }
  }

  /** Appending a keyword adds it to the matched set exactly when it occurs. */
  lemma MatchedAppend(text: string, init: seq<string>, last: string)
    ensures Matched(text, init + [last]) == Matched(text, init) + (if Includes(text, last) then {last} else {})
  {
  }

  lemma KeywordListsDistinct()
    ensures Distinct(UrgentKeywords) && Distinct(CriticalKeywords)
  {
  }

  /** The uncapped physical score is the base plus one bonus per distinct matched keyword. */
  lemma UncappedScoreCountsEachKeywordOnce(message: string)
    ensures UncappedPhysicalScore(message) ==
      BaseScore + UrgentBonus * |Matched(ToLower(message), UrgentKeywords)|
      + CriticalBonus * |Matched(ToLower(message), CriticalKeywords)|
  {
    KeywordListsDistinct();
    MatchCountIsMatchedKeywords(ToLower(message), UrgentKeywords);
    MatchCountIsMatchedKeywords(ToLower(message), CriticalKeywords);
  }

  lemma {:induction false} MatchCountSameMatches(t1: string, t2: string, keywords: seq<string>)
    requires forall k :: k in keywords ==> (Includes(t1, k) <==> Includes(t2, k))
    ensures MatchCount(t1, keywords) == MatchCount(t2, keywords)
  {
    if keywords != [] {
      MatchCountSameMatches(t1, t2, keywords[..|keywords| - 1]);
    }
  }

  /**
   * The whole triage result depends on the message only through which
   * keywords occur in it: repeating a keyword does not raise the score.
   */
  lemma SameKeywordsSameTriage(m1: string, m2: string, profile: VulnerabilityProfile)
    requires forall k :: k in UrgentKeywords + CriticalKeywords ==>
      (Includes(ToLower(m1), k) <==> Includes(ToLower(m2), k))
    ensures Triage(m1, profile) == Triage(m2, profile)
  {
    MatchCountSameMatches(ToLower(m1), ToLower(m2), UrgentKeywords);
    MatchCountSameMatches(ToLower(m1), ToLower(m2), CriticalKeywords);
  }

  /** Matching ignores case: a message and its lower-cased form score alike. */
  lemma CaseInsensitive(message: string, profile: VulnerabilityProfile)
    ensures Triage(message, profile) == Triage(ToLower(message), profile)
  {
    ToLowerIdempotent(message);
  }

  /** The vulnerability score is the weighted sum of the flags, the medical text counting when it is not blank. */
  lemma VulnerabilityWeightedSum(profile: VulnerabilityProfile)
    ensures VulnerabilityScore(profile) ==
      (if profile.sensoryImpaired then 25 else 0) + (if profile.nonVerbal then 30 else 0)
      + (if profile.mobilityImpaired then 20 else 0)
      + (if (exists i :: 0 <= i < |profile.medicalConditions|
              && !IsWhitespace(profile.medicalConditions[i])) then 15 else 0)
  {
    TrimNonEmptyIff(profile.medicalConditions);
  }

  /**
   * The summary's sentence is chosen by the physical-score band, and the
   * vulnerability advisory is appended exactly when `vScore > 40`.
   */
  lemma SummaryBands(message: string, profile: VulnerabilityProfile)
    ensures var r := Triage(message, profile);
      && (StartsWith(r.summary, "CRITICAL") <==> r.pScore > 70)
      && (StartsWith(r.summary, "HIGH PRIORITY") <==> 50 < r.pScore <= 70)
      && (StartsWith(r.summary, "Standard") <==> r.pScore <= 50)
      && (EndsWith(r.summary, VulnerableAdvisory) <==> r.vScore > 40)
  {
  }

  lemma StartsWithAppend(s: string, t: string, prefix: string)
    requires |prefix| <= |s|
    ensures StartsWith(s + t, prefix) <==> StartsWith(s, prefix)
  {
    assert (s + t)[..|prefix|] == s[..|prefix|];
  }

  /** Which of the three sentences opens with which band word. */
  lemma BandOpenings()
    ensures StartsWith(CriticalSummary, "CRITICAL") && !StartsWith(CriticalSummary, "HIGH PRIORITY")
      && !StartsWith(CriticalSummary, "Standard")
    ensures StartsWith(HighSummary, "HIGH PRIORITY") && !StartsWith(HighSummary, "CRITICAL")
      && !StartsWith(HighSummary, "Standard")
    ensures StartsWith(StandardSummary, "Standard") && !StartsWith(StandardSummary, "CRITICAL")
      && !StartsWith(StandardSummary, "HIGH PRIORITY")
    ensures |VulnerableAdvisory| > |CriticalSummary| && |VulnerableAdvisory| > |HighSummary|
      && |VulnerableAdvisory| > |StandardSummary|
  {
    assert CriticalSummary[..8] == "CRITICAL";
    assert HighSummary[..13] == "HIGH PRIORITY";
    assert StandardSummary[..8] == "Standard";
    assert CriticalSummary[0] == 'C' && HighSummary[0] == 'H' && StandardSummary[0] == 'S';
  }

  /** A worked example: a trapped, injured survivor with sensory and mobility impairments and a medical condition. */
  const ExampleMessage := "Trapped in " + "collapsed " + "building, " + "injured leg"
  const ExampleProfile := VulnerabilityProfile(true, false, true, "Diabetes")

  const ExampleLower := "trapped in " + "collapsed " + "building, " + "injured leg"

  lemma ExampleLowered()
    ensures ToLower(ExampleMessage) == ExampleLower
  {
    ToLowerAppend4("Trapped in ", "collapsed ", "building, ", "injured leg");
    LowerFirstPiece();
    LowerSecondPiece();
    LowerThirdPiece();
    LowerLastPiece();
  }

  lemma LowerFirstPiece()
    ensures ToLower("Trapped in ") == "trapped in "
  {
    assert "Trapped in " == "T" + "rapped in ";
    ToLowerAppend("T", "rapped in ");
    ToLowerNoUpper("rapped in ");
  }

  lemma LowerSecondPiece()
    ensures ToLower("collapsed ") == "collapsed "
  {
    ToLowerNoUpper("collapsed ");
  }

  lemma LowerThirdPiece()
    ensures ToLower("building, ") == "building, "
  {
    ToLowerNoUpper("building, ");
  }

  lemma LowerLastPiece()
    ensures ToLower("injured leg") == "injured leg"
  {
    ToLowerNoUpper("injured leg");
  }

  /** "trapped" and "injured" occur in the lower-cased example. */
  lemma ExampleMatches()
    ensures Includes(ExampleLower, "trapped") && Includes(ExampleLower, "injured")
  {
    var p1, p2, p3, p4 := "trapped in ", "collapsed ", "building, ", "injured leg";
    assert ExampleLower[..7] == p1[..7] == "trapped";
    var at := |p1 + p2 + p3|;
    assert ExampleLower[at..at + 7] == p4[..7] == "injured";
    assert OccursAt(ExampleLower, "injured", at);
    IncludesIff(ExampleLower, "injured");
  }

  /** "critical" and "bleeding" do not occur: their first letter appears once, followed by another letter. */
  lemma ExampleMissesByFirstLetter()
    ensures !Includes(ExampleLower, "critical") && !Includes(ExampleLower, "bleeding")
  {
    var p1, p2, p3, p4 := "trapped in ", "collapsed ", "building, ", "injured leg";
    assert ExampleLower == p1 + (p2 + p3 + p4) == p1 + p2 + (p3 + p4);
    NotIncludesSingleLead(p1, p2 + p3 + p4, "critical");
    NotIncludesSingleLead(p1 + p2, p3 + p4, "bleeding");
  }

  /** A character missing from each of the four pieces is missing from the lower-cased example. */
  lemma NotInExample(c: char)
    requires c !in "trapped in " && c !in "collapsed " && c !in "building, " && c !in "injured leg"
    ensures c !in ExampleLower
  {
  }

  /** The example has no 'h', so "help", "hurt" and "heart attack" do not occur. */
  lemma ExampleMissesH()
    ensures !Includes(ExampleLower, "help") && !Includes(ExampleLower, "hurt")
    ensures !Includes(ExampleLower, "heart attack")
  {
    NotInExample('h');
    NotIncludesMissingChar(ExampleLower, "help", 'h');
    NotIncludesMissingChar(ExampleLower, "hurt", 'h');
    NotIncludesMissingChar(ExampleLower, "heart attack", 'h');
  }

  /** The example has no 'y', so "emergency" and "dying" do not occur. */
  lemma ExampleMissesY()
    ensures !Includes(ExampleLower, "emergency") && !Includes(ExampleLower, "dying")
  {
    NotInExample('y');
    NotIncludesMissingChar(ExampleLower, "emergency", 'y');
    NotIncludesMissingChar(ExampleLower, "dying", 'y');
  }

  /** No apostrophe in the example: "can't move" does not occur. */
  lemma ExampleMissesCantMove()
    ensures !Includes(ExampleLower, "can't move")
  {
    NotInExample('\'');
    NotIncludesMissingChar(ExampleLower, "can't move", '\'');
  }

  /** No 'k' and no 'v' in the example: "stroke" and "severe" do not occur. */
  lemma ExampleMissesStrokeSevere()
    ensures !Includes(ExampleLower, "stroke") && !Includes(ExampleLower, "severe")
  {
    NotInExample('k');
    NotInExample('v');
    NotIncludesMissingChar(ExampleLower, "stroke", 'k');
    NotIncludesMissingChar(ExampleLower, "severe", 'v');
  }

  /** Exactly two urgent keywords, "trapped" and "injured", occur in the lower-cased example. */
  lemma ExampleUrgentCount()
    ensures MatchCount(ExampleLower, UrgentKeywords) == 2
  {
    ExampleMatches();
    ExampleMissesByFirstLetter();
    ExampleMissesH();
    ExampleMissesY();
    ExampleMissesCantMove();
    KeywordListsDistinct();
    MatchCountIsMatchedKeywords(ExampleLower, UrgentKeywords);
    assert Matched(ExampleLower, UrgentKeywords) == {"trapped", "injured"};
  }

  /** No critical keyword occurs in the lower-cased example. */
  lemma ExampleCriticalCount()
    ensures MatchCount(ExampleLower, CriticalKeywords) == 0
  {
    ExampleMissesByFirstLetter();
    ExampleMissesH();
    ExampleMissesY();
    ExampleMissesStrokeSevere();
    MatchCountNone(ExampleLower, CriticalKeywords);
  }

  /** "trapped" and "injured" match and nothing else does, giving 30 + 15 + 15 = 60; the flags give 25 + 20 + 15 = 60. */
  lemma WorkedExample()
    ensures Triage(ExampleMessage, ExampleProfile) == TriageResult(60, 60, HighSummary + VulnerableAdvisory)
  {
    ExampleLowered();
    ExampleUrgentCount();
    ExampleCriticalCount();
    assert PhysicalScore(ExampleMessage) == 60;
    assert Trim("Diabetes") != "";
    assert VulnerabilityScore(ExampleProfile) == 60;
  }

  /** The canned demo result could not have come from the scorer: a physical score of 75 always yields the CRITICAL sentence. */
  lemma DemoResultNotFromScorer(message: string, profile: VulnerabilityProfile)
    ensures Triage(message, profile) != DemoTriageResult()
  {
    var r := Triage(message, profile);
    if r.pScore == 75 {
      SummaryBands(message, profile);
      assert DemoTriageResult().summary[0] == 'H';
      assert r.summary[0] == 'C';
    }
  }
}
