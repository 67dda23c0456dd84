# Emergency SOS screen — Dafny model

A model of the state machine behind the single screen of the Emergency SOS iOS app
(`ContentView.swift`). The screen keeps a list of emergency contacts typed into two text
fields. An SOS button calls `sendSMS` for every contact, sounds an alarm and raises an
alert. A recording button starts and stops an audio recorder. A location delegate keeps
the latest coordinate the platform reported.

Layout:

- `wrappers.dfy`, module `Wrappers`: the `Option` type used for Swift's optionals.
- `contacts.dfy`, module `Contacts`: how a contact string is formed and checked
  (`ContactEntry`, `Accepts`, `Submit`). It also has a reference model of a run of
  "Add Contact" presses (`SubmitAll` against `Entries`).
- `location.dfy`, module `Location`: the class `LocationDelegate` with its two callbacks,
  and a pure replay of a run of callbacks (`Apply`, `Replay`) with last-writer-wins lemmas.
- `sos_view.dfy`, module `SOSView`: the class `ContentView`. Its fields are the view's
  `@State` variables plus a ghost `smsLog` holding every contact `sendSMS` was called
  with. The methods model the button actions. The module also has the observable recording
  state (`Session`, `ToggleSession`) and lemmas on when the button's flag tells the truth.
  `AudioRecorder` stands for the platform recorder and models only its `isRecording` flag.

Platform outcomes are parameters:

- A start attempt gets a `StartOutcome`. Its `created` field says whether the audio session
  was set up and the recorder created (lines 127-141). Its `started` field is what the
  recorder's `record()` answers (line 142). The code ignores that answer, so a recorder
  can be held that is not capturing.
- `TriggerSOSAlert(assetFound, playerCreated)` gets the alarm's outcome. Its contract
  shows that the outcome does not affect the new state.

Behaviour of the code that the model keeps:

- A contact is one string `"<name> - <number>"`.
- The form check is a plain emptiness test. Nothing is trimmed, so whitespace-only input
  is accepted.
- Adding the same name and number twice stores two equal entries.
- Stopping without a recorder only logs and is not an error.
- `isRecording` is negated even when a start does not begin capturing.
- A successful stop keeps the recorder.
- `triggerSOSAlert` returns nothing and cannot fail. The coordinate it reads is only
  printed and is not passed to `sendSMS`.
- An empty location batch or a location error leaves the stored coordinate as it was.
- The view's own `currentLocation` state variable (line 7) is never written. The screen
  reads the delegate's coordinate instead. The model keeps the field, and no method
  changes it.

## Model

| member | source | states |
|---|---|---|
| `Contacts.ContactEntry` | ContentView.swift:162 | the stored string starts with the name, then has " - ", then ends with the number; its length is the sum of the three |
| `Contacts.Submit` | ContentView.swift:156-166 | one press keeps the old list as a prefix; it grows by one entry, `ContactEntry(name, number)` at the end, exactly when both fields are non-empty, and by none otherwise |
| `Contacts.SubmitAllAppendsEntries` | ContentView.swift:156-166 | over any run of Add presses, the list is the old list followed by the entries of the accepted presses, in order; rejected presses add nothing |
| `Contacts.ListIsAppendOnly` | ContentView.swift:163 | over any run of Add presses, the list never shrinks and every earlier entry keeps its position |
| `Contacts.NoDeduplication` | ContentView.swift:157-163 | adding the same name and number twice stores two equal entries at the end |
| `Contacts.WhitespaceIsAccepted` | ContentView.swift:157-160 | a single-space name and number pass the check and are stored as "  -  " |
| `Contacts.EntryIsAmbiguous` | ContentView.swift:162 | two different name/number pairs can produce the same stored string |
| `Location.Apply` | ContentView.swift:179-189 | a callback carrying a non-empty batch yields its first location; an empty batch or an error yields the stored coordinate |
| `Location.ReplayConcat` | ContentView.swift:179-189 | replaying two runs of callbacks one after the other equals replaying their concatenation |
| `Location.LastWriterWins` | ContentView.swift:179-185 | after any run of callbacks, the coordinate is the first location of the last batch that had one |
| `Location.NoFixKeepsCoordinate` | ContentView.swift:179-189 | a run of only empty batches and errors leaves the coordinate unchanged |
| `Location.FixIsNeverLost` | ContentView.swift:179-185 | once any non-empty batch has arrived, a coordinate stays known |
| `Location.LocationDelegate.constructor` | ContentView.swift:171 | no coordinate is known at first |
| `Location.LocationDelegate.DidUpdateLocations` | ContentView.swift:179-185 | a non-empty batch stores its first element, not its last; an empty one changes nothing |
| `Location.LocationDelegate.DidFailWithError` | ContentView.swift:187-189 | an error never changes the stored coordinate |
| `SOSView.ToggleAllKeepsSound` | ContentView.swift:117-154 | whatever the start outcomes, audio is captured only while `isRecording` is set and a recorder is held |
| `SOSView.ToggleKeepsConsistent` | ContentView.swift:117-146 | from a state where the flag tells the truth, one press keeps it truthful if and only if it stops or the start creates a recorder whose `record()` starts |
| `SOSView.ToggleAllKeepsConsistent` | ContentView.swift:117-146 | while every start begins capturing, the flag stays truthful over any run of presses |
| `SOSView.FailedStartDrifts` | ContentView.swift:117-146 | a start that creates no recorder, or whose `record()` refuses, still sets the flag, so "Stop Recording" shows while nothing is captured |
| `SOSView.TogglePairRestoresFlag` | ContentView.swift:123 | two presses restore `isRecording`, whatever the outcomes |
| `SOSView.ContentView.constructor` | ContentView.swift:6-13 | initial state: no alert, no coordinate, not recording, no contacts, empty fields, no recorder, empty SMS log, a fresh delegate with no coordinate |
| `SOSView.AudioRecorder.Record` | ContentView.swift:142 | `record()` leaves the recorder capturing exactly when the platform starts it, and answers whether it did |
| `SOSView.AudioRecorder.Stop` | ContentView.swift:153 | `stop()` leaves the recorder not capturing |
| `SOSView.ContentView.TriggerPanicAlarm` | ContentView.swift:105-115 | whatever the asset lookup and player creation do, no state of the view changes |
| `SOSView.ContentView.SendSMS` | ContentView.swift:101-103 | exactly one entry, the contact, is appended to the SMS log; nothing else changes |
| `SOSView.ContentView.TriggerSOSAlert` | ContentView.swift:88-99 | the SMS log grows by exactly the contact list, in list order; the list is unchanged; the alert flag is negated, even with no contacts; the alarm outcome does not matter |
| `SOSView.ContentView.StartRecording` | ContentView.swift:126-146 | when a recorder is created, a fresh one replaces the held one and captures exactly when `record()` started it; otherwise the held recorder stays; the replaced recorder is not touched |
| `SOSView.ContentView.StopRecording` | ContentView.swift:148-154 | a held recorder is stopped and stays held; with none, no state changes |
| `SOSView.ContentView.ToggleRecording` | ContentView.swift:117-124 | `isRecording` is always negated; the recorder changes as for stop or start, and a start leaves the replaced recorder untouched; the observable session follows `ToggleSession` |
| `SOSView.ContentView.AddEmergencyContact` | ContentView.swift:156-166 | if a field is empty, the list and both fields are unchanged; otherwise `name - number` is appended at the end and both fields become empty |

## Left out

- SwiftUI layout, buttons, text fields, the contact list display and alert presentation
  (lines 15-86). The fields are public, so typing is modelled by assigning them.
- Dismissing the alert, which writes `showSOSAlert = false` through the binding at
  line 81. Like typing, it is modelled by assigning the field.
- The audio-session category and activation, the recorder settings and the temporary file
  URL (lines 127-142). These are platform I/O, reduced to the `created` outcome.
- The alarm player (lines 105-115). It is a foreign call that keeps no view state, so
  `TriggerPanicAlarm` has an empty body.
- The `CLLocationManager` set-up and the permission request (lines 173-177). This is
  platform plumbing.
- The main-queue hop in `didUpdateLocations` (line 181). This is concurrency; the update
  is modelled as a direct assignment.
- The latitude and longitude doubles. `Coord` is abstract because the view never
  computes with them.
- All `print` logging, including printing the coordinate in `triggerSOSAlert` (lines 93-95).
- The actual SMS delivery. `sendSMS` in the source only prints, so the model records the
  call in the ghost `smsLog`.
- What happens to a replaced recorder object when it is released. `StartRecording` leaves
  the old object as it was, and by `ToggleAllKeepsSound` it is then not capturing.
- Swift's string semantics. Strings are sequences of code points, so grapheme-cluster
  counting and canonical equivalence are not modelled. Emptiness tests and concatenation
  are unaffected.
