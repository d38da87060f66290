/**
 * The screen logic of `src/pages/Index.tsx`: the component's React state,
 * the auth listener that routes a user to onboarding or to the survivor
 * screen, the login, save-profile and send-SOS handlers with their
 * early-return guards, the rescuer dashboard's snapshot callback, and the
 * buttons that move between screens.
 *
 * React state is a value that each handler replaces, so the state is a
 * datatype and each handler's effect on it is a function. The handlers that
 * talk to the mock services are methods over the `MockAuth` and
 * `MockFirestore` objects, proved to produce exactly those functions' states.
 */
module Screens {
  import opened Wrappers
  import opened JsString
  import opened TriageScoring
  import opened MockFirebase
  import opened Ranking

  datatype Screen = Auth | Onboarding | Survivor | Rescuer | Calm

  /** The component's state hooks. */
  datatype AppState = AppState(
    screen: Screen,
    user: Option<MockUser>,
    loading: bool,
    isNewUser: bool,
    profile: VulnerabilityProfile,
    emergencyMessage: string,
    sosSignals: seq<SOSSignal>,
    sendingSOS: bool)

  const BlankProfile := VulnerabilityProfile(false, false, false, "")

  /** The state on first render: the auth screen, nobody signed in, an empty profile. */
  const InitialState := AppState(Auth, None, false, false, BlankProfile, "", [], false)

  const UsersCollection := "artifacts/sanctuary-mesh/users"
  const ProfileDocName := "profile/data"
  const SignalsCollection := "artifacts/sanctuary-mesh/" + "public/data/sos_signals"

  // ---------------------------------------------------------------------------
  // Where a user's profile lives

  /** `doc(null, users, uid, 'profile/data')`. */
  function ProfileRef(uid: string): (ref: DocRef)
    ensures ref.path == UsersCollection + "/" + uid + "/" + ProfileDocName
  {
    JoinTriple(UsersCollection, uid, ProfileDocName, "/");
    DocAt([UsersCollection, uid, ProfileDocName])
  }

  /** Different users' profiles live at different paths. */
  lemma ProfileRefsDistinct(uid1: string, uid2: string)
    requires uid1 != uid2
    ensures ProfileRef(uid1).path != ProfileRef(uid2).path
  {
    var head := UsersCollection + "/";
    var path1, path2 := ProfileRef(uid1).path, ProfileRef(uid2).path;
    assert path1 == head + uid1 + "/" + ProfileDocName;
    assert path2 == head + uid2 + "/" + ProfileDocName;
    if |uid1| == |uid2| {
      var k :| 0 <= k < |uid1| && uid1[k] != uid2[k];
      assert path1[|head| + k] == uid1[k];
      assert path2[|head| + k] == uid2[k];
    } else {
      assert |path1| != |path2|;
    }
  }

  /** What `getDoc` on the user's profile document finds in the store, if there is a user. */
  function StoredProfile(profiles: map<string, VulnerabilityProfile>, user: Option<MockUser>): (stored: Option<VulnerabilityProfile>)
    ensures stored.Some? <==> user.Some? && ProfileRef(user.value.uid).path in profiles
    ensures stored.Some? ==> stored.value == profiles[ProfileRef(user.value.uid).path]
  {
    if user.Some? && ProfileRef(user.value.uid).path in profiles then
      Some(profiles[ProfileRef(user.value.uid).path])
    else
      None
  }

  /** Saving one user's profile leaves what every other user finds unchanged. */
  lemma SaveLeavesOtherUsers(profiles: map<string, VulnerabilityProfile>, saver: MockUser, p: VulnerabilityProfile, other: MockUser)
    requires other.uid != saver.uid
    ensures StoredProfile(profiles[ProfileRef(saver.uid).path := p], Some(other))
      == StoredProfile(profiles, Some(other))
  {
    ProfileRefsDistinct(saver.uid, other.uid);
  }

  /**
   * Every path the page reads or writes lies under "artifacts/", so none of
   * them is a key a plain JavaScript object inherits.
   */
  lemma PagePathsAvoidPrototypeKeys(uid: string, id: string)
    ensures StartsWith(ProfileRef(uid).path, "artifacts/")
    ensures StartsWith(CollectionRef(SignalsCollection).Doc(id).path, "artifacts/")
    ensures ProfileRef(uid).path !in ObjectPrototypeKeys
    ensures CollectionRef(SignalsCollection).Doc(id).path !in ObjectPrototypeKeys
  {
    var profilePath := ProfileRef(uid).path;
    var signalPath := CollectionRef(SignalsCollection).Doc(id).path;
    assert profilePath[..10] == UsersCollection[..10] == "artifacts/";
    assert signalPath[..10] == SignalsCollection[..10] == "artifacts/";
    ArtifactsPathNotPrototypeKey(profilePath);
    ArtifactsPathNotPrototypeKey(signalPath);
  }

  lemma ArtifactsPathNotPrototypeKey(path: string)
    requires StartsWith(path, "artifacts/")
    ensures path !in ObjectPrototypeKeys
  {
    assert path[0] == 'a';
  }

  // ---------------------------------------------------------------------------
  // The auth listener

  /**
   * The auth listener once `getDoc` has answered (`stored` is the profile it
   * found). Without a user it only returns to the auth screen; the React
   * `user` state is left as it was. With one, a stored profile leads to the
   * survivor screen and no stored profile to onboarding. Either way loading
   * ends.
   */
  function AuthStateChanged(s: AppState, user: Option<MockUser>, stored: Option<VulnerabilityProfile>): (t: AppState)
    ensures !t.loading
    ensures t.emergencyMessage == s.emergencyMessage && t.sosSignals == s.sosSignals
    ensures t.sendingSOS == s.sendingSOS
    ensures t.screen == Auth <==> user.None?
    ensures t.screen == Survivor <==> user.Some? && stored.Some?
    ensures t.screen == Onboarding <==> user.Some? && stored.None?
    ensures user.None? ==> t.user == s.user && t.profile == s.profile && t.isNewUser == s.isNewUser
    ensures user.Some? ==> t.user == user
    ensures t.screen == Survivor ==> t.profile == stored.value && !t.isNewUser
    ensures t.screen == Onboarding ==> t.profile == s.profile && t.isNewUser
  {
    match user
    case None => s.(screen := Auth, loading := false)
    case Some(_) =>
      match stored
      case Some(p) => s.(user := user, profile := p, screen := Survivor, isNewUser := false, loading := false)
      case None => s.(user := user, screen := Onboarding, isNewUser := true, loading := false)
  }

  /** The auth listener as it runs: look up the user's profile document, then route. */
  method HandleAuthStateChanged(s: AppState, user: Option<MockUser>, db: MockFirestore<VulnerabilityProfile>)
    returns (t: AppState)
    ensures t == AuthStateChanged(s, user, StoredProfile(db.data, user))
  {
    if user.None? {
      t := AuthStateChanged(s, None, None);
    } else {
      var snapshot := db.Get(ProfileRef(user.value.uid));
      t := AuthStateChanged(s, user, snapshot.data);
    }
  }

  // ---------------------------------------------------------------------------
  // The handlers

  /** `handleLogin` before sign-in answers: the spinner starts. */
  function LoginStarted(s: AppState): (t: AppState)
    ensures t.loading
    ensures t.(loading := s.loading) == s
  {
    s.(loading := true)
  }

  /**
   * `handleLogin`: start loading and sign in anonymously. Signing in calls
   * every registered listener with the new user, among them the
   * component's own listener, whose routing ends the login.
   */
  method HandleLogin<C(==)>(s: AppState, auth: MockAuth<C>, appListener: C, db: MockFirestore<VulnerabilityProfile>, randomSuffix: string)
    returns (t: AppState, user: MockUser)
    requires appListener in auth.listeners
    modifies auth
    ensures user.isAnonymous && StartsWith(user.uid, UidPrefix)
    ensures auth.currentUser == Some(user) && auth.listeners == old(auth.listeners)
    ensures auth.scheduled == old(auth.scheduled)
    ensures auth.delivered == old(auth.delivered) + Deliveries(auth.listeners, Some(user))
    ensures (appListener, Some(user)) in Deliveries(auth.listeners, Some(user))
    ensures t == AuthStateChanged(LoginStarted(s), Some(user), StoredProfile(db.data, Some(user)))
  {
    var started := LoginStarted(s);
    user := auth.SignInAnonymously(randomSuffix);
    var i :| 0 <= i < |auth.listeners| && auth.listeners[i] == appListener;
    assert Deliveries(auth.listeners, Some(user))[i] == (appListener, Some(user));
    t := HandleAuthStateChanged(started, Some(user), db);
  }

  /** `handleSaveProfile`'s effect on the screen: nothing without a user, else the survivor screen. */
  function ProfileSaved(s: AppState): (t: AppState)
    ensures s.user.None? ==> t == s
    ensures s.user.Some? ==> t.screen == Survivor && !t.loading
    ensures t.(screen := s.screen, loading := s.loading) == s
  {
    if s.user.None? then s else s.(screen := Survivor, loading := false)
  }

  /** `handleSaveProfile`: write the profile under the user's path, then show the survivor screen. */
  method HandleSaveProfile(s: AppState, db: MockFirestore<VulnerabilityProfile>) returns (t: AppState)
    modifies db
    ensures t == ProfileSaved(s)
    ensures s.user.None? ==> db.data == old(db.data)
    ensures s.user.Some? ==> db.data == old(db.data)[ProfileRef(s.user.value.uid).path := s.profile]
  {
    if s.user.None? {
      return s;
    }
    var loading := s.(loading := true);
    db.Set(ProfileRef(s.user.value.uid), s.profile);
    t := loading.(screen := Survivor);
    t := t.(loading := false);
  }

  /** A user who saved a profile and signs in again goes straight to the survivor screen with it. */
  method SaveThenReturn(s: AppState, later: AppState, db: MockFirestore<VulnerabilityProfile>) returns (t: AppState)
    requires s.user.Some?
    modifies db
    ensures db.data == old(db.data)[ProfileRef(s.user.value.uid).path := s.profile]
    ensures t.screen == Survivor && t.profile == s.profile && !t.isNewUser && t.user == s.user
  {
    var saved := HandleSaveProfile(s, db);
    t := HandleAuthStateChanged(later, s.user, db);
  }

  /** `handleSendSOS`'s effect on the screen: nothing without a user, else the calm screen. */
  function SOSSent(s: AppState): (t: AppState)
    ensures s.user.None? ==> t == s
    ensures s.user.Some? ==> t.screen == Calm && !t.sendingSOS
    ensures t.(screen := s.screen, sendingSOS := s.sendingSOS) == s
  {
    if s.user.None? then s else s.(screen := Calm, sendingSOS := false)
  }

  /** The document `handleSendSOS` passes to `addDoc`. */
  function SOSRecord(user: MockUser, s: AppState, located: Option<Position>, timestamp: int): (d: SignalData)
    ensures d.userId == user.uid && d.message == s.emergencyMessage && d.location == located
    ensures d.profile == s.profile && d.triage == Triage(s.emergencyMessage, s.profile)
  {
    SignalData(user.uid, s.emergencyMessage, located, s.profile, Triage(s.emergencyMessage, s.profile), timestamp)
  }

  /**
   * `handleSendSOS`: score the message, send the signal with whatever
   * location the device gave (`None` when geolocation failed), and show the
   * calm screen. `sent` is the id `addDoc` returned and the document it was
   * given; without a user nothing is sent.
   */
  method HandleSendSOS(s: AppState, located: Option<Position>, timestamp: int, clockMillis: nat)
    returns (t: AppState, sent: Option<(string, SignalData)>)
    ensures t == SOSSent(s)
    ensures sent.Some? <==> s.user.Some?
    ensures sent.Some? ==> sent.value.1 == SOSRecord(s.user.value, s, located, timestamp)
    ensures sent.Some? ==> StartsWith(sent.value.0, DocIdPrefix)
  {
    if s.user.None? {
      return s, None;
    }
    var sending := s.(sendingSOS := true);
    var triage := PerformTriage(sending.emergencyMessage, sending.profile);
    var record := SignalData(s.user.value.uid, sending.emergencyMessage, located, sending.profile, triage, timestamp);
    var id := AddDoc(CollectionRef(SignalsCollection), record, clockMillis);
    sent := Some((id, record));
    t := sending.(screen := Calm);
    t := t.(sendingSOS := false);
  }

  /** A sent signal, read back by the dashboard, carries the sender and a priority between 21 and 97. */
  lemma SentSignalPriority(id: string, user: MockUser, s: AppState, located: Option<Position>, timestamp: int)
    ensures ToSignal(SnapshotDoc(id, SOSRecord(user, s, located, timestamp))).userId == user.uid
    ensures 21.0 <= ToSignal(SnapshotDoc(id, SOSRecord(user, s, located, timestamp))).priority <= 97.0
  {
    PriorityRange(s.emergencyMessage, s.profile);
  }

  /** The dashboard's snapshot callback: the state now holds the ranked signals. */
  function SnapshotDelivered(s: AppState, docs: seq<SnapshotDoc>): (t: AppState)
    ensures t.(sosSignals := s.sosSignals) == s
    ensures multiset(t.sosSignals) == multiset(Signals(docs)) && SortedByPriority(t.sosSignals)
  {
    RankedViewCorrect(docs);
    s.(sosSignals := RankedView(docs))
  }

  /** The snapshot callback as it runs: build and sort the list, then set it. */
  method HandleSnapshot(s: AppState, docs: seq<SnapshotDoc>) returns (t: AppState)
    ensures t == SnapshotDelivered(s, docs)
  {
    var ranked := RankSnapshot(docs);
    t := s.(sosSignals := ranked);
  }

  // ---------------------------------------------------------------------------
  // Profile editing on the onboarding screen

  datatype ProfileFlag = Sensory | NonVerbal | Mobility

  function Flag(p: VulnerabilityProfile, flag: ProfileFlag): bool {
    match flag
    case Sensory => p.sensoryImpaired
    case NonVerbal => p.nonVerbal
    case Mobility => p.mobilityImpaired
  }

  function FlagWeight(flag: ProfileFlag): int {
    match flag
    case Sensory => SensoryWeight
    case NonVerbal => NonVerbalWeight
    case Mobility => MobilityWeight
  }

  /** A flag card's click: flip that flag and keep the rest of the profile. */
  function Toggle(p: VulnerabilityProfile, flag: ProfileFlag): (q: VulnerabilityProfile)
    ensures Flag(q, flag) == !Flag(p, flag)
    ensures forall g :: g != flag ==> Flag(q, g) == Flag(p, g)
    ensures q.medicalConditions == p.medicalConditions
  {
    match flag
    case Sensory => p.(sensoryImpaired := !p.sensoryImpaired)
    case NonVerbal => p.(nonVerbal := !p.nonVerbal)
    case Mobility => p.(mobilityImpaired := !p.mobilityImpaired)
  }

  /** Clicking a card twice restores the profile. */
  lemma ToggleTwice(p: VulnerabilityProfile, flag: ProfileFlag)
    ensures Toggle(Toggle(p, flag), flag) == p
  {
  }

  /** Flipping a flag moves the vulnerability score by exactly that flag's weight. */
  lemma ToggleMovesScore(p: VulnerabilityProfile, flag: ProfileFlag)
    ensures VulnerabilityScore(Toggle(p, flag))
      == VulnerabilityScore(p) + (if Flag(p, flag) then -FlagWeight(flag) else FlagWeight(flag))
  {
    VulnerabilityWeightedSum(p);
    VulnerabilityWeightedSum(Toggle(p, flag));
  }

  // ---------------------------------------------------------------------------
  // The component as a state machine

  /** Everything that changes the component's state. */
  datatype Event =
    | LoginPressed
    | AuthChanged(user: Option<MockUser>, stored: Option<VulnerabilityProfile>)
    | FlagToggled(flag: ProfileFlag)
    | MedicalConditionsEdited(text: string)
    | SaveProfilePressed
    | MessageEdited(text: string)
    | SOSPressed
    | RescuerButton
    | BackButton
    | SnapshotArrived(docs: seq<SnapshotDoc>)

  /**
   * One event. The rescuer button is drawn only on the survivor screen and
   * the back buttons only on the rescuer and calm screens; the handlers
   * themselves guard only on the user.
   */
  function Step(s: AppState, e: Event): (t: AppState)
    ensures e.RescuerButton? ==> (t.screen == Rescuer <==> s.screen == Survivor || s.screen == Rescuer)
    ensures e.BackButton? && (s.screen == Rescuer || s.screen == Calm) ==> t.screen == Survivor
    ensures e.SOSPressed? && s.user.Some? ==> t.screen == Calm
  {
    match e
    case LoginPressed => LoginStarted(s)
    case AuthChanged(user, stored) => AuthStateChanged(s, user, stored)
    case FlagToggled(flag) => s.(profile := Toggle(s.profile, flag))
    case MedicalConditionsEdited(text) => s.(profile := s.profile.(medicalConditions := text))
    case SaveProfilePressed => ProfileSaved(s)
    case MessageEdited(text) => s.(emergencyMessage := text)
    case SOSPressed => SOSSent(s)
    case RescuerButton => if s.screen == Survivor then s.(screen := Rescuer) else s
    case BackButton => if s.screen == Rescuer || s.screen == Calm then s.(screen := Survivor) else s
    case SnapshotArrived(docs) => SnapshotDelivered(s, docs)
  }

  /** The events applied one after another, oldest first: the last event is applied to the state the others lead to. */
  function Run(s: AppState, events: seq<Event>): (r: AppState)
    ensures events == [] ==> r == s
    ensures events != [] ==> r == Step(Run(s, events[..|events| - 1]), events[|events| - 1])
    decreases |events|
  {
    if events == [] then s
    else
      var rest := events[1..];
      assert rest != [] ==> events[..|events| - 1][1..] == rest[..|rest| - 1];
      Run(Step(s, events[0]), rest)
  }

  /**
   * Between events: every screen but the auth screen has a signed-in user,
   * and the dashboard's list is in priority order.
   */
  ghost predicate Consistent(s: AppState) {
    (s.screen != Auth ==> s.user.Some?) && SortedByPriority(s.sosSignals)
  }

  lemma InitialConsistent()
    ensures Consistent(InitialState)
  {
  }

  /** Every event keeps the state consistent. */
  lemma StepConsistent(s: AppState, e: Event)
    requires Consistent(s)
    ensures Consistent(Step(s, e))
  {
  }

  /** Whatever happens after the first render, the state stays consistent. */
  lemma {:induction false} RunConsistent(s: AppState, events: seq<Event>)
    requires Consistent(s)
    ensures Consistent(Run(s, events))
    decreases |events|
  {
    if events != [] {
      StepConsistent(s, events[0]);
      RunConsistent(Step(s, events[0]), events[1..]);
    }
  }

  /** In particular, from the first render no event sequence reaches another screen without a user. */
  lemma SignedInOffAuthScreen(events: seq<Event>)
    ensures Run(InitialState, events).screen != Auth ==> Run(InitialState, events).user.Some?
  {
    InitialConsistent();
    RunConsistent(InitialState, events);
  }
}
