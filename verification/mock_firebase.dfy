/**
 * The in-memory stand-ins for the authentication service and the document
 * store, from `src/lib/mock-firebase.ts`: `MockAuth` keeps the signed-in user
 * and a list of auth-state listeners, `MockFirestore` keeps documents in a
 * dictionary keyed by their slash-separated path.
 */
module MockFirebase {
  import opened Wrappers
  import opened JsString

  datatype MockUser = MockUser(uid: string, isAnonymous: bool)

  const UidPrefix := "demo-user-"
  const DocIdPrefix := "mock-id-"

  /** `list.indexOf(x)`: the first position holding `x`, or -1 when there is none. */
  function IndexOf<T(==)>(list: seq<T>, x: T): (r: int)
    ensures -1 <= r < |list|
    ensures r == -1 <==> x !in list
    ensures r >= 0 ==> list[r] == x && x !in list[..r]
  {
    if list == [] then -1
    else if list[0] == x then 0
    else
      var k := IndexOf(list[1..], x);
      if k == -1 then -1 else k + 1
  }

  /** `indexOf` returns the position of the first occurrence. */
  lemma {:induction false} IndexOfFirst<T>(list: seq<T>, x: T, i: int)
    requires 0 <= i < |list| && list[i] == x && x !in list[..i]
    ensures IndexOf(list, x) == i
  {
    if i > 0 {
      assert list[0] == list[..i][0];
      assert list[1..][..i - 1] == list[1..i];
      assert list[1..][i - 1] == x;
      IndexOfFirst(list[1..], x, i - 1);
    }
  }

  /** What the unsubscribe closure leaves of `list`: the entry `indexOf` finds spliced out, if any. */
  function RemoveFirst<T(==)>(list: seq<T>, x: T): (r: seq<T>)
    ensures |r| == (if x in list then |list| - 1 else |list|)
    ensures forall y :: y in r ==> y in list
  {
    var index := IndexOf(list, x);
    if index > -1 then list[..index] + list[index + 1..] else list
  }

  /** Unsubscribing a callback that is not (or no longer) registered changes nothing. */
  lemma RemoveFirstAbsent<T>(list: seq<T>, x: T)
    requires x !in list
    ensures RemoveFirst(list, x) == list
  {
  }

  /** Unsubscribing removes one registration of `x` and keeps every other one. */
  lemma RemoveFirstMultiset<T>(list: seq<T>, x: T)
    ensures multiset(RemoveFirst(list, x)) == multiset(list) - multiset{x}
    ensures x in list ==> |RemoveFirst(list, x)| == |list| - 1
  {
    var index := IndexOf(list, x);
    if index > -1 {
      assert list == list[..index] + [x] + list[index + 1..];
      assert multiset(list) == multiset(list[..index]) + multiset{x} + multiset(list[index + 1..]);
    } else {
      assert multiset(list)[x] == 0;
    }
  }

  /** Subscribing a new callback and then unsubscribing it restores the listener list. */
  lemma {:induction false} SubscribeThenUnsubscribe<T>(list: seq<T>, x: T)
    requires x !in list
    ensures RemoveFirst(list + [x], x) == list
  {
    assert (list + [x])[..|list|] == list;
    IndexOfFirst(list + [x], x, |list|);
  }

  /**
   * A callback subscribed twice is unsubscribed at its OLDER registration:
   * the newer one, at the end, is the one that stays.
   */
  lemma UnsubscribeDuplicateRemovesOlder<T>(list: seq<T>, x: T)
    requires x in list
    ensures RemoveFirst(list + [x], x) == RemoveFirst(list, x) + [x]
  {
    var index := IndexOf(list, x);
    assert (list + [x])[..index] == list[..index];
    IndexOfFirst(list + [x], x, index);
    assert (list + [x])[index + 1..] == list[index + 1..] + [x];
  }

  /** The calls `listeners.forEach(callback => callback(user))` makes, in order. */
  function Deliveries<C>(listeners: seq<C>, user: Option<MockUser>): (r: seq<(C, Option<MockUser>)>)
    ensures |r| == |listeners|
    ensures forall i :: 0 <= i < |r| ==> r[i] == (listeners[i], user)
  {
    if listeners == [] then []
    else Deliveries(listeners[..|listeners| - 1], user) + [(listeners[|listeners| - 1], user)]
  }

  /**
   * The mock authentication service. Callbacks are compared by identity, as
   * JavaScript compares function objects; every call the service makes to a
   * callback is recorded in `delivered`.
   */
  class MockAuth<Callback(==)> {
    var currentUser: Option<MockUser>
    var listeners: seq<Callback>
    /** Callbacks whose zero-delay "call with the current state" timer has not fired yet. */
    var scheduled: seq<Callback>
    /** Every invocation of a callback so far, oldest first: the callback and the user it was given. */
    var delivered: seq<(Callback, Option<MockUser>)>

    constructor ()
      ensures currentUser == None && listeners == [] && scheduled == [] && delivered == []
    {
      currentUser := None;
      listeners := [];
      scheduled := [];
      delivered := [];
    }

    /**
     * `signInAnonymously`, once its one-second timer fires: the new user is
     * anonymous, its uid is "demo-user-" followed by the random suffix, and
     * every listener is told, in registration order.
     */
    method SignInAnonymously(randomSuffix: string) returns (user: MockUser)
      modifies this
      ensures user.isAnonymous && user.uid == UidPrefix + randomSuffix
      ensures StartsWith(user.uid, UidPrefix)
      ensures currentUser == Some(user)
      ensures listeners == old(listeners) && scheduled == old(scheduled)
      ensures delivered == old(delivered) + Deliveries(listeners, Some(user))
    {
      user := MockUser(UidPrefix + randomSuffix, true);
      assert (UidPrefix + randomSuffix)[..|UidPrefix|] == UidPrefix;
      currentUser := Some(user);
      NotifyListeners();
    }

    /**
     * `onAuthStateChanged(callback)`: appends the callback and schedules one
     * call with whatever user is current when the timer fires. The returned
     * unsubscribe closure is `Unsubscribe(callback)`.
     */
    method OnAuthStateChanged(callback: Callback)
      modifies this
      ensures listeners == old(listeners) + [callback]
      ensures scheduled == old(scheduled) + [callback]
      ensures currentUser == old(currentUser) && delivered == old(delivered)
    {
      listeners := listeners + [callback];
      scheduled := scheduled + [callback];
    }

    /** The unsubscribe closure: splices out the entry `indexOf` finds, if any. */
    method Unsubscribe(callback: Callback)
      modifies this
      ensures listeners == RemoveFirst(old(listeners), callback)
      ensures currentUser == old(currentUser) && scheduled == old(scheduled)
      ensures delivered == old(delivered)
    {
      var index := IndexOf(listeners, callback);
      if index > -1 {
        listeners := listeners[..index] + listeners[index + 1..];
      }
    }

    /** `signOut`: no user, and every listener is told so, in registration order. */
    method SignOut()
      modifies this
      ensures currentUser == None
      ensures listeners == old(listeners) && scheduled == old(scheduled)
      ensures delivered == old(delivered) + Deliveries(listeners, None)
    {
      currentUser := None;
      NotifyListeners();
    }

    /** `notifyListeners`: one call per registered listener, in order, with the current user. */
    method NotifyListeners()
      modifies this`delivered
      ensures delivered == old(delivered) + Deliveries(listeners, currentUser)
    {
      for i := 0 to |listeners|
        invariant delivered == old(delivered) + Deliveries(listeners[..i], currentUser)
      {
        assert listeners[..i + 1][..i] == listeners[..i];
        delivered := delivered + [(listeners[i], currentUser)];
      }
      assert listeners[..|listeners|] == listeners;
    }

    /**
     * The zero-delay timers of `onAuthStateChanged` firing: each pending
     * callback is called with the user current at that moment, even one that
     * has unsubscribed since, since the timer is never cancelled.
     */
    method RunScheduled()
      modifies this
      ensures scheduled == []
      ensures delivered == old(delivered) + Deliveries(old(scheduled), currentUser)
      ensures currentUser == old(currentUser) && listeners == old(listeners)
    {
      var pending := scheduled;
      for i := 0 to |pending|
        invariant delivered == old(delivered) + Deliveries(pending[..i], currentUser)
        invariant currentUser == old(currentUser) && listeners == old(listeners)
      {
        assert pending[..i + 1][..i] == pending[..i];
        delivered := delivered + [(pending[i], currentUser)];
      }
      assert pending[..|pending|] == pending;
      scheduled := [];
    }
  }

  /** A document reference: `doc(path)` only remembers the path. */
  datatype DocRef = DocRef(path: string)

  /** A collection reference: `collection(path)`. */
  datatype CollectionRef = CollectionRef(path: string) {
    /** `collection(path).doc(id)`: the document at `path + "/" + id`. */
    function Doc(id: string): (r: DocRef)
      ensures StartsWith(r.path, path + "/")
      ensures r.path[|path| + 1..] == id
    {
      var full := path + "/" + id;
      assert full[..|path| + 1] == path + "/";
      DocRef(full)
    }
  }

  /** `doc(db, ...pathSegments)`: the segments joined with "/". */
  function DocAt(segments: seq<string>): (r: DocRef)
    ensures segments != [] ==> StartsWith(r.path, segments[0]) && EndsWith(r.path, segments[|segments| - 1])
  {
    DocRef(Join(segments, "/"))
  }

  /** A collection's document and the two-segment `doc` helper address the same slot. */
  lemma CollectionDocIsJoinedPath(collection: string, id: string)
    ensures CollectionRef(collection).Doc(id) == DocAt([collection, id])
  {
    JoinPair(collection, id, "/");
  }

  /** What `get()` resolves to: `exists()` is whether the path holds data, `data()` that data. */
  datatype DocSnapshot<D> = DocSnapshot(data: Option<D>) {
    predicate Exists() {
      data.Some?
    }
  }

  /**
   * The keys a plain JavaScript object answers through `Object.prototype`
   * without having been given them. The source's store is such an object, so
   * a path equal to one of these does not behave as a fresh key there.
   */
  const ObjectPrototypeKeys: set<string> := {
    "__proto__", "constructor", "hasOwnProperty", "isPrototypeOf",
    "propertyIsEnumerable", "toLocaleString", "toString", "valueOf",
    "__defineGetter__", "__defineSetter__", "__lookupGetter__", "__lookupSetter__"}

  /** The mock document store: a dictionary from path to document data. */
  class MockFirestore<D> {
    var data: map<string, D>

    constructor ()
      ensures data == map[]
    {
      data := map[];
    }

    /** `doc(path).get()`. */
    method Get(ref: DocRef) returns (snapshot: DocSnapshot<D>)
      ensures snapshot.Exists() <==> ref.path in data
      ensures ref.path in data ==> snapshot.data == Some(data[ref.path])
    {
      if ref.path in data {
        snapshot := DocSnapshot(Some(data[ref.path]));
      } else {
        snapshot := DocSnapshot(None);
      }
    }

    /** `doc(path).set(d)`: the path now holds `d`; every other path keeps what it held. */
    method Set(ref: DocRef, d: D)
      modifies this
      ensures data == old(data)[ref.path := d]
      ensures forall p :: p != ref.path ==> (p in data <==> p in old(data))
      ensures forall p :: p != ref.path && p in data ==> data[p] == old(data)[p]
    {
      data := data[ref.path := d];
    }
  }

  /** A write followed by a read of the same path sees the written data. */
  method SetThenGet<D>(db: MockFirestore<D>, ref: DocRef, d: D) returns (snapshot: DocSnapshot<D>)
    modifies db
    ensures snapshot.Exists() && snapshot.data == Some(d)
    ensures db.data == old(db.data)[ref.path := d]
  {
    db.Set(ref, d);
    snapshot := db.Get(ref);
  }

  /** A store nobody wrote to reports every document as missing. */
  method GetFromEmptyStore<D>(ref: DocRef) returns (snapshot: DocSnapshot<D>)
    ensures !snapshot.Exists()
  {
    var db := new MockFirestore<D>();
    snapshot := db.Get(ref);
  }

  /**
   * `addDoc(collection, data)`: returns the id "mock-id-" followed by the
   * clock reading in decimal, and stores nothing.
   */
  function AddDoc<D>(collection: CollectionRef, d: D, clockMillis: nat): (id: string)
    ensures StartsWith(id, DocIdPrefix)
    ensures id[|DocIdPrefix|..] == NatToString(clockMillis)
  {
    var id := DocIdPrefix + NatToString(clockMillis);
    assert id[..|DocIdPrefix|] == DocIdPrefix;
    id
  }

  /** Two `addDoc` calls at different clock readings return different ids. */
  lemma AddDocIdsDiffer<D>(collection: CollectionRef, d1: D, d2: D, t1: nat, t2: nat)
    requires t1 != t2
    ensures AddDoc(collection, d1, t1) != AddDoc(collection, d2, t2)
  {
    ParseNatToString(t1);
    ParseNatToString(t2);
  }
}
