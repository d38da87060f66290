# Sanctuary Mesh: triage scoring, signal ranking and the mock backend

This Dafny project models the deterministic core of the Sanctuary Mesh
emergency app. The app has three parts, and the model has a module for each.

- **Triage scoring** (`src/lib/gemini.ts`), in module `TriageScoring`. A
  survivor's SOS message and vulnerability profile become a physical-urgency
  score, a vulnerability score and a summary sentence.
  - The physical score starts at 30. It gains 15 for each of seven "urgent"
    keywords and 25 for each of five "critical" keywords that occur as a
    substring of the lower-cased message. It is then capped at 100.
  - The vulnerability score is a weighted sum of three flags plus a
    non-blank medical-conditions text.
  - The summary sentence is picked by score band.
  - `PerformTriage` is the imperative loop the source runs. It is proved equal
    to the function `Triage`, and the properties are proved about `Triage`.
- **The rescuer dashboard** (`src/pages/Index.tsx`), in module `Ranking`.
  Each stored signal gets the priority `0.7 * p_score + 0.3 * v_score`. The
  snapshot callback pushes one signal per document and sorts the array in
  place from the highest priority down. The dashboard shows each priority in
  one of three bands. The in-place sort is a stable insertion sort over an
  `array`, proved equal to `SortByPriority`. Permutation, order and stability
  are proved about that function.
- **The screens of the same page**, in module `Screens`. The component's
  React state is a datatype, and so is each handler's effect on it:
  - the auth listener that routes to onboarding or to the survivor screen;
  - login, save-profile and send-SOS, with their "no user, do nothing"
    guards;
  - the snapshot callback;
  - the profile toggles;
  - the navigation buttons.

  The handlers that call the mock services are methods over the `MockAuth`
  and `MockFirestore` objects. `Step`/`Run` treat the page as a state
  machine with an invariant kept by every event.
- **The mock backend** (`src/lib/mock-firebase.ts`), in module
  `MockFirebase`.
  - `MockAuth` is a class. Its fields are the current user, the listener
    list, the queue of zero-delay "call with current state" timers, and a log
    of every callback invocation.
  - `MockFirestore` is a class whose `data` field is the path-keyed map.
  - Document and collection references are path values. `addDoc` returns an
    id and stores nothing.

`js_string.dfy` (module `JsString`) gives the JavaScript string operations
the source relies on, written out:

- `toLowerCase`;
- `includes`;
- `trim`, with the ECMAScript white-space set;
- `Array.prototype.join`;
- decimal rendering of a non-negative integer.

`wrappers.dfy` holds `Option`.

Three facts about the code are easy to misread:

- The dashboard sorts by priority alone, with a stable sort. Signals of
  equal priority therefore keep their snapshot order (`Ranking.SortStable`).
  There is no tie-break by creation time or id.
  - "Equal" here means equal in exact arithmetic, as the model computes
    priorities.
  - Some exact ties differ once rounded to doubles, and the source then
    orders them by the rounded values. See the `Ranking.Priority` line under
    "## Left out".
- Keywords are found with `includes`, so a keyword also matches inside a
  longer word: "help" matches "helpless".
- The physical score is only capped from above, with `Math.min(p, 100)`.
  Since it starts at 30, it always lies in [30, 100]
  (`TriageScoring.PhysicalScore`).

## Model

| member | source | states |
|---|---|---|
| TriageScoring.MatchCount | src/lib/gemini.ts:51-57 | the number of list entries that occur in the text, each entry counted once, never more than the list length |
| TriageScoring.PhysicalScore | src/lib/gemini.ts:42-60 | the physical score always lies in [30, 100], however many keywords match |
| TriageScoring.VulnerabilityScore | src/lib/gemini.ts:63-66 | the vulnerability score lies between 0 and the sum of the four weights (90) |
| TriageScoring.Triage | src/lib/gemini.ts:15-86 | the triage result: p_score in [30, 100] and v_score in [0, 90] |
| TriageScoring.PerformTriage | src/lib/gemini.ts:42-85 | the step-by-step scorer (two keyword passes, cap, flag additions, summary choice and extension) returns exactly `Triage(message, profile)` |
| TriageScoring.AddKeywordBonuses | src/lib/gemini.ts:51-57 | one `forEach` pass adds `bonus` once per keyword that occurs: the result is `score + bonus * MatchCount` |
| TriageScoring.MatchCountNone | src/lib/gemini.ts:51-57 | when no entry occurs, no bonus is added |
| TriageScoring.NoKeywordBaseScore | src/lib/gemini.ts:42-57 | a message with none of the twelve keywords keeps p_score 30 |
| TriageScoring.MatchCountIsMatchedKeywords | src/lib/gemini.ts:51-57 | for a list without repeats, the count equals the size of the set of keywords found: repeating a word adds nothing |
| TriageScoring.KeywordListsDistinct | src/lib/gemini.ts:46-47 | neither keyword list repeats an entry |
| TriageScoring.UncappedScoreCountsEachKeywordOnce | src/lib/gemini.ts:42-57 | before the cap, the score is 30 + 15 per distinct urgent keyword found + 25 per distinct critical keyword found |
| TriageScoring.MatchCountSameMatches | src/lib/gemini.ts:51-57 | two texts in which the same keywords occur get the same count |
| TriageScoring.SameKeywordsSameTriage | src/lib/gemini.ts:49-85 | two messages whose lower-cased forms contain the same keywords get the same result, so the result depends only on which keywords occur |
| TriageScoring.CaseInsensitive | src/lib/gemini.ts:49 | a message and its lower-cased form get the same triage result |
| TriageScoring.VulnerabilityWeightedSum | src/lib/gemini.ts:63-66 | v_score = 25·sensory + 30·nonVerbal + 20·mobility + 15·(the medical text has a non-white-space character) |
| TriageScoring.SummaryBands | src/lib/gemini.ts:69-79 | lifts `Summary`'s band and advisory iffs to the summary `Triage` returns, stated in terms of the result's own p_score and v_score |
| TriageScoring.BandOpenings | src/lib/gemini.ts:69-78 | the three sentences open with their band words and are each shorter than the advisory |
| TriageScoring.ExampleLowered | src/lib/gemini.ts:49 | "Trapped in collapsed building, injured leg" lower-cases to "trapped in collapsed building, injured leg" |
| TriageScoring.ExampleMatches | src/lib/gemini.ts:46-53 | "trapped" and "injured" occur in the lower-cased example |
| TriageScoring.ExampleMissesByFirstLetter | src/lib/gemini.ts:46-47 | "bleeding" and "critical" do not occur in it |
| TriageScoring.ExampleMissesH | src/lib/gemini.ts:46-47 | "help", "hurt" and "heart attack" do not occur in it |
| TriageScoring.ExampleMissesY | src/lib/gemini.ts:46-47 | "emergency" and "dying" do not occur in it |
| TriageScoring.ExampleMissesCantMove | src/lib/gemini.ts:46 | "can't move" does not occur in it |
| TriageScoring.ExampleMissesStrokeSevere | src/lib/gemini.ts:47 | "stroke" and "severe" do not occur in it |
| TriageScoring.ExampleUrgentCount | src/lib/gemini.ts:46-53 | exactly two urgent keywords match the example |
| TriageScoring.ExampleCriticalCount | src/lib/gemini.ts:47-57 | no critical keyword matches the example |
| TriageScoring.WorkedExample | src/lib/gemini.ts:42-85 | the example with sensory, mobility and "Diabetes" scores p = 60 and v = 60, with the HIGH PRIORITY sentence and the advisory |
| TriageScoring.Summary | src/lib/gemini.ts:69-79 | the summary starts "CRITICAL" iff p > 70, "HIGH PRIORITY" iff 50 < p ≤ 70, "Standard" iff p ≤ 50, and ends with the vulnerability advisory iff v > 40 |
| TriageScoring.DemoTriageResult | src/lib/gemini.ts:89-95 | the canned demo result: p = 75, v = 45, and a summary opening "HIGH PRIORITY" |
| TriageScoring.DemoResultNotFromScorer | src/lib/gemini.ts:89-95 | no message and profile make the scorer return the canned demo result: p = 75 always gives the CRITICAL sentence |
| JsString.LowerChar | src/lib/gemini.ts:49 | a character's lower case: A–Z move to a–z, the Kelvin sign U+212A becomes 'k', every other character is kept; no result lower-cases further |
| JsString.ToLower | src/lib/gemini.ts:49 | `toLowerCase` keeps the length and lower-cases each position |
| JsString.ToLowerIdempotent | src/lib/gemini.ts:49 | lower-casing twice equals lower-casing once |
| JsString.ToLowerNoUpper | src/lib/gemini.ts:49 | a string without upper-case letters is its own lower case |
| JsString.ToLowerAppend | src/lib/gemini.ts:49 | lower-casing distributes over concatenation |
| JsString.Includes | src/lib/gemini.ts:52 | `includes`: the empty word is always included, and an included word is no longer than the text |
| JsString.IncludesIff | src/lib/gemini.ts:51-57 | `includes` holds iff the word occurs at some offset of the text |
| JsString.NotIncludesMissingChar | src/lib/gemini.ts:51-57 | a word containing a character the text lacks is not included |
| JsString.NotIncludesSingleLead | src/lib/gemini.ts:51-57 | a word is not included when its first character occurs only once in the text and is followed there by a different second character |
| JsString.TrimStart | src/lib/gemini.ts:66 | drops exactly the leading white space: the result is a suffix, the dropped part is all white space, and the result does not start with white space |
| JsString.TrimEnd | src/lib/gemini.ts:66 | drops exactly the trailing white space, symmetrically |
| JsString.Trim | src/lib/gemini.ts:66 | `trim()`: neither end of the result is white space, the result is no longer than the text, and a text without white space is kept whole |
| JsString.TrimNonEmptyIff | src/lib/gemini.ts:66 | `trim()` is non-empty (truthy) iff the text has a non-white-space character |
| JsString.Join | src/lib/mock-firebase.ts:106 | `join`: the result starts with the first segment and ends with the last |
| JsString.JoinPair | src/lib/mock-firebase.ts:106 | joining two segments puts one separator between them |
| JsString.JoinTriple | src/lib/mock-firebase.ts:106 | joining three segments puts a separator between each neighbouring pair |
| JsString.NatToString | src/lib/mock-firebase.ts:113 | the decimal form of a number is non-empty and made of digits |
| JsString.ParseNatToString | src/lib/mock-firebase.ts:113 | reading the decimal form back gives the number, so different numbers have different decimal forms |
| MockFirebase.RemoveFirst | src/lib/mock-firebase.ts:39-44 | the unsubscribe closure's list: one shorter when the callback was registered, unchanged in length otherwise, and holding nothing new |
| MockFirebase.IndexOf | src/lib/mock-firebase.ts:40 | `indexOf` returns -1 iff the callback is absent, otherwise a position holding it with no earlier occurrence |
| MockFirebase.IndexOfFirst | src/lib/mock-firebase.ts:40 | `indexOf` returns the first occurrence |
| MockFirebase.RemoveFirstAbsent | src/lib/mock-firebase.ts:39-44 | unsubscribing a callback that is not registered leaves the listener list unchanged |
| MockFirebase.RemoveFirstMultiset | src/lib/mock-firebase.ts:39-44 | unsubscribing removes one registration of the callback and nothing else, and shortens the list by one when it was present |
| MockFirebase.SubscribeThenUnsubscribe | src/lib/mock-firebase.ts:32-44 | subscribing a new callback and then unsubscribing it restores the list |
| MockFirebase.UnsubscribeDuplicateRemovesOlder | src/lib/mock-firebase.ts:32-44 | for a callback registered twice, the closure removes the older registration |
| MockFirebase.Deliveries | src/lib/mock-firebase.ts:56 | the calls `forEach` makes: one per listener, in registration order, each with the given user |
| MockFirebase.MockAuth.constructor | src/lib/mock-firebase.ts:11-13 | no user, no listeners, nothing pending, nothing delivered |
| MockFirebase.MockAuth.SignInAnonymously | src/lib/mock-firebase.ts:15-30 | the new user is anonymous, its uid is "demo-user-" plus the random suffix, it becomes the current user, and every listener is called with it in order; the listener list is unchanged |
| MockFirebase.MockAuth.OnAuthStateChanged | src/lib/mock-firebase.ts:32-37 | the callback is appended after the existing listeners, which are unchanged, and one call with the current state is scheduled |
| MockFirebase.MockAuth.Unsubscribe | src/lib/mock-firebase.ts:39-44 | the listener list loses the first occurrence of the callback, if any, and nothing else changes |
| MockFirebase.MockAuth.SignOut | src/lib/mock-firebase.ts:47-53 | the current user becomes none, and every listener is called once with none, in registration order |
| MockFirebase.MockAuth.NotifyListeners | src/lib/mock-firebase.ts:55-57 | the loop calls each registered listener once, in order, with the current user |
| MockFirebase.MockAuth.RunScheduled | src/lib/mock-firebase.ts:36 | each pending zero-delay timer calls its callback with the user current when it fires, including a callback unsubscribed in between |
| MockFirebase.CollectionRef.Doc | src/lib/mock-firebase.ts:93 | a collection's document lies at the collection path, a "/", and then exactly the id |
| MockFirebase.DocAt | src/lib/mock-firebase.ts:106 | `doc(db, ...segments)` gives a path that starts with the first segment and ends with the last |
| MockFirebase.CollectionDocIsJoinedPath | src/lib/mock-firebase.ts:91-106 | `collection(p).doc(id)` and `doc(db, p, id)` address the same path `p + "/" + id` |
| MockFirebase.MockFirestore.constructor | src/lib/mock-firebase.ts:76 | the store starts empty |
| MockFirebase.MockFirestore.Get | src/lib/mock-firebase.ts:80-83 | `exists()` holds iff the path holds data, and `data()` is that data |
| MockFirebase.MockFirestore.Set | src/lib/mock-firebase.ts:84-87 | the path now holds the data, and every other path keeps what it held |
| MockFirebase.SetThenGet | src/lib/mock-firebase.ts:78-88 | after `set(d)` on a path, `get()` there reports `exists()` and `data() == d` |
| MockFirebase.GetFromEmptyStore | src/lib/mock-firebase.ts:76-83 | `get` on a path that was never set reports `exists() == false` |
| MockFirebase.AddDoc | src/lib/mock-firebase.ts:112-115 | the id is "mock-id-" followed by the clock reading in decimal |
| MockFirebase.AddDocIdsDiffer | src/lib/mock-firebase.ts:112-115 | calls at different clock readings return different ids |
| Ranking.Priority | src/pages/Index.tsx:115 | ten times the priority is the integer 7·p_score + 3·v_score |
| Ranking.PriorityRange | src/pages/Index.tsx:115 | for scores the scorer produces, the priority lies in [21, 97] |
| Ranking.ToSignal | src/pages/Index.tsx:114-121 | the pushed object carries the document's id and every field of its data, and the priority of its triage |
| Ranking.Signals | src/pages/Index.tsx:105-122 | one signal per snapshot document, in snapshot order, carrying the document's id, fields and priority |
| Ranking.SortByPriority | src/pages/Index.tsx:125 | the sorted list is as long as the input (its order, permutation and stability are the lemmas below) |
| Ranking.RankedView | src/pages/Index.tsx:105-126 | the dashboard list has one entry per snapshot document |
| Ranking.RankSnapshot | src/pages/Index.tsx:103-126 | the callback's push loop followed by the in-place sort yields exactly the ranked view of the documents |
| Ranking.SortInPlace | src/pages/Index.tsx:125 | the in-place array sort leaves exactly `SortByPriority` of the original contents |
| Ranking.InsertInPlace | src/pages/Index.tsx:125 | one insertion step: the first i + 1 cells become the sorted prefix with the new signal inserted, and the cells after are untouched |
| Ranking.OpenGap | src/pages/Index.tsx:125 | lower-priority signals before position i move right by one, the gap stops after a signal of at least the inserted priority, and the other cells keep their values |
| Ranking.InsertAt | src/pages/Index.tsx:125 | the inserted signal goes right after the last signal of at least its priority |
| Ranking.WithPriorityAppend | src/pages/Index.tsx:125 | selecting one priority distributes over concatenation |
| Ranking.InsertPermutation | src/pages/Index.tsx:125 | an insertion adds exactly the inserted signal |
| Ranking.InsertSorted | src/pages/Index.tsx:125 | inserting into a list sorted from high to low priority keeps it sorted |
| Ranking.InsertStable | src/pages/Index.tsx:125 | an insertion keeps the relative order of equal-priority signals, with the new one last |
| Ranking.SortSortedPermutation | src/pages/Index.tsx:125 | the sort returns a permutation of its input, ordered from the highest priority down |
| Ranking.SortStable | src/pages/Index.tsx:125 | the sort is stable: for every priority, the signals with that priority keep their input order |
| Ranking.RankedViewCorrect | src/pages/Index.tsx:105-126 | the dashboard list is a permutation of the snapshot's signals, sorted non-increasingly by priority, with equal priorities in snapshot order |
| Ranking.RankedFromDocs | src/pages/Index.tsx:105-122 | every listed signal comes from one snapshot document, with that document's id and its priority |
| Ranking.ExactTieKeepsSnapshotOrder | src/pages/Index.tsx:115-125 | documents scored (45, 0) and (30, 35) have the same exact priority 31.5, and the dashboard lists them in snapshot order |
| Ranking.PriorityLabel | src/pages/Index.tsx:238-242 | CRITICAL iff priority ≥ 70, HIGH iff 50 ≤ priority < 70, MEDIUM iff priority < 50 |
| Ranking.PriorityColor | src/pages/Index.tsx:232-236 | the emergency colour iff priority ≥ 70, the warning colour iff 50 ≤ priority < 70, the calm colour iff priority < 50 |
| Ranking.ColorAndLabelAgree | src/pages/Index.tsx:232-242 | two priorities get the same colour iff they get the same label |
| Ranking.WorkedExamplePriority | src/pages/Index.tsx:238-242 | the worked example's scores (60, 60) give priority 60, labelled HIGH |
| Screens.ProfileRef | src/pages/Index.tsx:80 | a user's profile lives at "artifacts/sanctuary-mesh/users/" + uid + "/profile/data" |
| Screens.ProfileRefsDistinct | src/pages/Index.tsx:156 | different uids give different profile paths |
| Screens.PagePathsAvoidPrototypeKeys | src/pages/Index.tsx:80 | the profile path and every signal path start with "artifacts/", so none is a key a plain JavaScript object inherits |
| Screens.StoredProfile | src/pages/Index.tsx:80-85 | what `getDoc` finds: a profile iff there is a user whose profile path holds one, and then that profile |
| Screens.SaveLeavesOtherUsers | src/pages/Index.tsx:156 | saving one user's profile leaves what every other user finds unchanged |
| Screens.AuthStateChanged | src/pages/Index.tsx:75-93 | no user → auth screen, and the React user, profile and isNewUser stay as they were; a user with a stored profile → survivor, with that profile and isNewUser false; a user without one → onboarding, with isNewUser true; loading ends in every case |
| Screens.HandleAuthStateChanged | src/pages/Index.tsx:75-93 | the listener with its `getDoc` lookup gives the routing above for what the store holds |
| Screens.LoginStarted | src/pages/Index.tsx:135 | the spinner starts and nothing else changes |
| Screens.HandleLogin | src/pages/Index.tsx:134-141 | sign-in yields an anonymous "demo-user-" user, the page's own listener is among those called with it, and the page ends routed for that user with loading off |
| Screens.ProfileSaved | src/pages/Index.tsx:152-171 | without a user nothing changes; with one the survivor screen shows and loading ends; nothing else changes (isNewUser stays as it was) |
| Screens.HandleSaveProfile | src/pages/Index.tsx:152-171 | without a user the store is untouched; with one the profile is written at the user's path and nowhere else |
| Screens.SaveThenReturn | src/pages/Index.tsx:152-171 | a user who saved a profile and whose auth state is reported again lands on the survivor screen with that profile and isNewUser false |
| Screens.SOSSent | src/pages/Index.tsx:173-230 | without a user nothing changes; with one the calm screen shows and sending ends; nothing else changes |
| Screens.SOSRecord | src/pages/Index.tsx:205-212 | the document sent carries the user's uid, the message, the location obtained, the profile and the triage of the message and profile |
| Screens.HandleSendSOS | src/pages/Index.tsx:173-230 | nothing is sent without a user; otherwise the signal is sent with whatever location was obtained (none when geolocation failed) and an id starting "mock-id-", and the calm screen shows |
| Screens.SentSignalPriority | src/pages/Index.tsx:202-212 | a sent signal, read back by the dashboard, carries the sender's uid and a priority in [21, 97] |
| Screens.SnapshotDelivered | src/pages/Index.tsx:100-132 | the stored list becomes a sorted permutation of the snapshot's signals, and nothing else changes |
| Screens.HandleSnapshot | src/pages/Index.tsx:103-128 | the callback as it runs stores exactly the ranked view |
| Screens.Toggle | src/pages/Index.tsx:320-348 | a flag card flips its own flag, keeps the other two flags and keeps the medical text |
| Screens.ToggleTwice | src/pages/Index.tsx:320-348 | clicking a card twice restores the profile |
| Screens.ToggleMovesScore | src/pages/Index.tsx:320-348 | flipping a flag moves the vulnerability score by exactly that flag's weight |
| Screens.Step | src/pages/Index.tsx:401-411 | the rescuer button (line 401) leads to the rescuer screen from the survivor screen; the back buttons (lines 498 and 632) lead from the rescuer and calm screens to the survivor screen; SOS with a user leads to the calm screen |
| Screens.InitialConsistent | src/pages/Index.tsx:58-70 | the first render's state is consistent |
| Screens.Run | src/pages/Index.tsx:74-242 | a sequence of events is applied oldest first: the last event acts on the state the others lead to |
| Screens.StepConsistent | src/pages/Index.tsx:74-242 | every event keeps the state consistent: a user on every screen but auth, the dashboard list in priority order |
| Screens.RunConsistent | src/pages/Index.tsx:74-242 | every sequence of events keeps the state consistent |
| Screens.SignedInOffAuthScreen | src/pages/Index.tsx:74-242 | starting from the first render, no sequence of events reaches another screen without a user |

## Left out

- `praesidium-flow/` is not part of this model. It is float density
  estimation, random prediction, Redis and websocket fan-out, video I/O and
  map rendering.
- `src/lib/firebase.ts` is not part of this model. It only configures a
  library whose code is not visible.
- The JSX rendering in `src/pages/Index.tsx` is not modelled: markup, icons
  and toasts. Only the state changes behind its buttons and inputs are.
  The buttons' `disabled` flags are not modelled either.
- Timers are not modelled as time. This covers the 1.5 s triage delay, the
  1 s sign-in delay and the zero-delay `onAuthStateChanged` call. Each
  operation is modelled at the moment its timer fires, and the zero-delay
  calls wait in the `scheduled` queue until `RunScheduled`.
- Interleaving is not modelled. Promise callbacks may interleave with other
  events, and the React renders between the `await`s of a handler are not
  modelled. Each handler is one step from its start to its settled state.
- Randomness, the clock and the device are parameters:
  - `Math.random()` gives the uid suffix;
  - `Date.now()` gives the `addDoc` id;
  - `new Date()` gives the signal timestamp;
  - the browser's geolocation result is an `Option<Position>`.
- The unused `prompt` string in `performTriage` is not modelled.
- The canned signals `onSnapshot` returns (src/lib/mock-firebase.ts:117-171)
  are not modelled. The model takes any snapshot as input. The no-op
  unsubscribe closure is why `SnapshotDelivered` applies on any screen.
- `serverTimestamp` is only a timestamp parameter.
- The `catch` branches of `handleLogin`, `handleSaveProfile` and
  `handleSendSOS` are not modelled. The mock services never reject.
- Ranking.Priority: computed in exact rational arithmetic. The source
  computes `p_score * 0.7 + v_score * 0.3` in IEEE-754 doubles and sorts by
  `b.priority - a.priority`.
  - For the scores the scorer produces, no priority lands on 50. The three
    that land on 70 (100/0, 85/35 and 70/70) come out as exactly 70.0. So the
    bands agree.
  - What differs is the order of exact ties. (45, 0) gives
    31.499999999999996 in doubles while (30, 35) gives 31.5. The source
    therefore lists (30, 35) first, whatever the snapshot order.
  - The model keeps snapshot order for them
    (`Ranking.ExactTieKeepsSnapshotOrder`).
  - The same happens at 59.5 (85/0 against 55/70 and 70/35), at 63 (90/0
    against 60/70 and 75/35) and at 64 (85/15 against 70/50).
  - "Equal priority" in `Ranking.SortStable`, `Ranking.InsertStable` and
    `Ranking.RankedViewCorrect` means equal in exact arithmetic.
- JsString.LowerChar: maps A–Z and the Kelvin sign U+212A, the characters
  whose lower case is a single ASCII letter. Other capitals such as À or Σ
  are kept as they are. Their lower cases are not ASCII, so they can never
  be part of a keyword match, and `Triage` agrees with the source on them.
  U+0130 is also kept as it is. JavaScript lower-cases it to "i" followed by
  a combining dot above. No keyword contains "i" followed by that dot, so
  the matches still agree.
- JsString.ToLower: keeps the length of the text. JavaScript's
  `toLowerCase` lengthens a text containing U+0130, as above. Only the
  length differs from the source, not which keywords match.
- MockFirebase.MockFirestore.Get: the snapshot holds the data present when
  `get` runs. The source's `exists()` and `data()` read the live dictionary
  when called, and treat any stored object as present. The page only stores
  objects and reads them at once, so the results agree.
- MockFirebase.MockFirestore.Get, MockFirebase.MockFirestore.Set and
  MockFirebase.GetFromEmptyStore: keys a plain object inherits are not
  modelled (`ObjectPrototypeKeys`: `__proto__`, `constructor`, `toString`,
  and the rest).
  - In the source, `get` on such a path reports `exists()` without any
    `set`.
  - `set` at `__proto__` replaces the dictionary's prototype and changes
    what every other path reports.
  - The model treats these as ordinary keys. No path the page builds is
    one of them (`Screens.PagePathsAvoidPrototypeKeys`).
- MockFirebase.MockAuth.NotifyListeners: callbacks are modelled as opaque
  tokens that do not call back into the service.
  - In the source, a listener that unsubscribes itself during the
    `forEach` makes the next listener be skipped.
  - A listener that subscribes is not visited.
  - A listener that signs in or out changes the user later listeners
    receive.
  - The page's own listener does none of these (src/pages/Index.tsx:75-94).
    The same holds for `SignOut` and `SignInAnonymously`, which notify
    through it.
- MockFirebase.AddDoc: the data argument is ignored, as in the source. The
  sent signal is therefore never stored and never reaches the dashboard.
  The model states this rather than adding a store the code lacks.
- MockFirebase.MockAuth.SignInAnonymously: the suffix is any string. The
  source draws at most nine base-36 characters.
- Behaviour the code does not have is not modelled: an id tie-break in the
  ranking, duplicate-id errors, removal of signals, retries, and observer
  queues.
