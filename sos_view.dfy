/**
 * The SOS screen (ContentView.swift, struct ContentView): its state variables
 * and the three actions behind its buttons, namely sending the SOS alert,
 * toggling the audio recording and adding an emergency contact.
 */
module SOSView {
  import opened Wrappers
  import opened Location
  import opened Contacts

  /**
   * The platform audio recorder the view holds. Only its `isRecording` flag
   * (here `recording`) is modelled: `record()` tries to start capturing and
   * reports whether it did; `stop()` ends capturing.
   */
  class AudioRecorder {
    var recording: bool

    constructor ()
      ensures !recording
    {
      recording := false;
    }

    /** `record()`; `started` is the platform's answer, which the view ignores. */
    method Record(started: bool) returns (ok: bool)
      modifies this
      ensures recording == started
      ensures ok == recording
    {
      recording := started;
      ok := started;
    }

    method Stop()
      modifies this
      ensures !recording
    {
      recording := false;
    }
  }

  /**
   * What a start attempt does on the platform: whether the audio session was set up
   * and a recorder created, and whether that recorder's `record()` then started.
   */
  datatype StartOutcome = StartOutcome(created: bool, started: bool)

  /** The outcome in which a start really begins capturing. */
  predicate Succeeds(o: StartOutcome)
  {
    o.created && o.started
  }

  /**
   * The recording state as the user can observe it: the button's flag, whether the
   * view holds a recorder, and whether that recorder is capturing audio.
   */
  datatype Session = Session(isRecording: bool, held: bool, capturing: bool)

  /** The session after one press of the recording button, given the outcome of a start. */
  function ToggleSession(s: Session, o: StartOutcome): Session
  {
    if s.isRecording then Session(false, s.held, false)
    else if o.created then Session(true, true, o.started)
    else Session(true, s.held, s.capturing)
  }

  /** The session after a run of presses; `outcomes[i]` is what a start would do at press i. */
  function ToggleAll(s: Session, outcomes: seq<StartOutcome>): Session
    decreases |outcomes|
  {
    if outcomes == [] then s else ToggleAll(ToggleSession(s, outcomes[0]), outcomes[1..])
  }

  /** Audio is captured only while the button shows "Stop Recording", and only by a held recorder. */
  predicate Sound(s: Session)
  {
    s.capturing ==> s.isRecording && s.held
  }

  /** The button's flag tells the truth: it is set exactly when audio is being captured. */
  predicate Consistent(s: Session)
  {
    Sound(s) && (s.isRecording <==> s.capturing)
  }

  /** Whatever the start outcomes, no press makes the app capture audio behind an unset flag. */
  lemma {:induction false} ToggleAllKeepsSound(s: Session, outcomes: seq<StartOutcome>)
    requires Sound(s)
    ensures Sound(ToggleAll(s, outcomes))
    decreases |outcomes|
  {
    if outcomes != [] {
      ToggleAllKeepsSound(ToggleSession(s, outcomes[0]), outcomes[1..]);
    }
  }

  /** One press keeps the flag truthful exactly when it stops, or starts capturing. */
  lemma ToggleKeepsConsistent(s: Session, o: StartOutcome)
    requires Consistent(s)
    ensures Consistent(ToggleSession(s, o)) <==> s.isRecording || Succeeds(o)
  {
  }

  /** While every start begins capturing, the flag stays truthful over any run of presses. */
  lemma {:induction false} ToggleAllKeepsConsistent(s: Session, outcomes: seq<StartOutcome>)
    requires Consistent(s)
    requires forall i :: 0 <= i < |outcomes| ==> Succeeds(outcomes[i])
    ensures Consistent(ToggleAll(s, outcomes))
    decreases |outcomes|
  {
    if outcomes != [] {
      ToggleAllKeepsConsistent(ToggleSession(s, outcomes[0]), outcomes[1..]);
    }
  }

  /**
   * A start that does not begin capturing (no recorder, or `record()` refused) still
   * sets the flag: the button says "Stop Recording" while nothing is captured.
   */
  lemma FailedStartDrifts(s: Session, o: StartOutcome)
    requires Consistent(s) && !s.isRecording && !Succeeds(o)
    ensures ToggleSession(s, o).isRecording && !ToggleSession(s, o).capturing
    ensures !Consistent(ToggleSession(s, o))
  {
  }

  /** Two presses restore the button's flag, whatever the outcomes. */
  lemma {:induction false} TogglePairRestoresFlag(s: Session, first: StartOutcome, second: StartOutcome)
    ensures ToggleAll(s, [first, second]).isRecording == s.isRecording
  {
    var mid := ToggleSession(s, first);
    assert [first, second][1..] == [second];
    assert [second][1..] == [];
    assert ToggleAll(s, [first, second]) == ToggleAll(mid, [second]) == ToggleSession(mid, second);
  }

  class ContentView {
    var showSOSAlert: bool
    /** Declared by the view but never written: the screen reads the delegate's coordinate instead. */
    var currentLocation: Option<Coord>
    var isRecording: bool
    var emergencyContacts: seq<string>
    var newContactName: string
    var newContactNumber: string
    var recorder: Option<AudioRecorder>
    const locationManagerDelegate: LocationDelegate
    /** Every contact `sendSMS` was called with, in call order. */
    ghost var smsLog: seq<string>

    /** The recorder object the view currently holds, as a frame. */
    function Held(): set<object>
      reads this
    {
      if recorder.Some? then {recorder.value} else {}
    }

    /** The observable recording state of this view. */
    ghost function SessionOf(): Session
      reads this, Held()
    {
      Session(isRecording, recorder.Some?, recorder.Some? && recorder.value.recording)
    }

    /** The initial state of the screen: nothing recorded, no contacts, no alert, no coordinate. */
    constructor ()
      ensures !showSOSAlert && currentLocation == None && !isRecording
      ensures emergencyContacts == [] && newContactName == "" && newContactNumber == ""
      ensures recorder == None && smsLog == []
      ensures fresh(locationManagerDelegate) && locationManagerDelegate.currentLocation == None
      ensures Consistent(SessionOf())
    {
      showSOSAlert := false;
      currentLocation := None;
      isRecording := false;
      emergencyContacts := [];
      newContactName := "";
      newContactNumber := "";
      recorder := None;
      locationManagerDelegate := new LocationDelegate();
      smsLog := [];
    }

    /** sendSMS: the platform send is out of scope; the call itself is recorded. */
    method SendSMS(contact: string)
      modifies this`smsLog
      ensures smsLog == old(smsLog) + [contact]
    {
      smsLog := smsLog + [contact];
    }

    /**
     * triggerPanicAlarm: plays the bundled alarm when the asset exists and a player
     * can be created; a failure is only logged. No state of the view is touched.
     */
    method TriggerPanicAlarm(assetFound: bool, playerCreated: bool)
      ensures unchanged(this)
    {
    }

    /**
     * triggerSOSAlert: sends one SMS per contact in list order, sounds the alarm and
     * toggles the alert flag. The alarm's outcome has no effect on the new state.
     */
    method TriggerSOSAlert(assetFound: bool, playerCreated: bool)
      modifies this`smsLog, this`showSOSAlert
      ensures smsLog == old(smsLog) + emergencyContacts
      ensures showSOSAlert == !old(showSOSAlert)
    {
      for i := 0 to |emergencyContacts|
        modifies this`smsLog
        invariant smsLog == old(smsLog) + emergencyContacts[..i]
      {
        SendSMS(emergencyContacts[i]);
        assert emergencyContacts[..i + 1] == emergencyContacts[..i] + [emergencyContacts[i]];
      }
      assert emergencyContacts[..|emergencyContacts|] == emergencyContacts;
      TriggerPanicAlarm(assetFound, playerCreated);
      showSOSAlert := !showSOSAlert;
    }

    /**
     * startRecording: when the session can be configured and a recorder created, the
     * new recorder replaces the held one and `record()` is called on it, its answer
     * ignored; otherwise the error is only logged and the held recorder stays.
     */
    method StartRecording(o: StartOutcome)
      modifies this`recorder
      ensures o.created ==> recorder.Some? && fresh(recorder.value) && recorder.value.recording == o.started
      ensures !o.created ==> recorder == old(recorder)
    {
      if o.created {
        var r := new AudioRecorder();
        recorder := Some(r);
        var _ := r.Record(o.started);
      }
    }

    /** stopRecording: stops the held recorder, which stays held; without one it only logs. */
    method StopRecording()
      modifies Held()
      ensures recorder.Some? ==> !recorder.value.recording
      ensures old(recorder).None? ==> SessionOf() == old(SessionOf())
    {
      match recorder
      case None =>
      case Some(r) => r.Stop();
    }

    /**
     * toggleRecording: stops or starts by the flag, then negates the flag unconditionally.
     * A start leaves the recorder it replaces untouched.
     */
    method ToggleRecording(o: StartOutcome)
      modifies this`isRecording, this`recorder, if isRecording then Held() else {}
      ensures isRecording == !old(isRecording)
      ensures old(isRecording) ==> recorder == old(recorder) && (recorder.Some? ==> !recorder.value.recording)
      ensures !old(isRecording) && o.created ==>
                recorder.Some? && fresh(recorder.value) && recorder.value.recording == o.started
      ensures !old(isRecording) && !o.created ==> recorder == old(recorder)
      ensures SessionOf() == ToggleSession(old(SessionOf()), o)
    {
      if isRecording {
        StopRecording();
      } else {
        StartRecording(o);
      }
      isRecording := !isRecording;
    }

    /**
     * addEmergencyContact: with both fields non-empty, appends "<name> - <number>" and
     * clears both fields; otherwise changes nothing.
     */
    method AddEmergencyContact()
      modifies this`emergencyContacts, this`newContactName, this`newContactNumber
      ensures emergencyContacts == Submit(old(emergencyContacts), old(newContactName), old(newContactNumber))
      ensures !Accepts(old(newContactName), old(newContactNumber)) ==>
                emergencyContacts == old(emergencyContacts) &&
                newContactName == old(newContactName) && newContactNumber == old(newContactNumber)
      ensures Accepts(old(newContactName), old(newContactNumber)) ==>
                emergencyContacts == old(emergencyContacts) + [ContactEntry(old(newContactName), old(newContactNumber))] &&
                newContactName == "" && newContactNumber == ""
    {
      if newContactName == "" || newContactNumber == "" {
        return;
      }
      var newContact := ContactEntry(newContactName, newContactNumber);
      emergencyContacts := emergencyContacts + [newContact];
      newContactName := "";
      newContactNumber := "";
    }
  }

  /** A client: add one contact on a fresh screen, then send the alert. */
  method AddThenAlert()
  {
    var view := new ContentView();
    view.newContactName, view.newContactNumber := "Alice", "555-1234";
    view.AddEmergencyContact();
    assert ContactEntry("Alice", "555-1234") == "Alice - 555-1234";
    assert view.emergencyContacts == ["Alice - 555-1234"];
    assert view.newContactName == "" && view.newContactNumber == "";
    view.TriggerSOSAlert(false, false);
    assert view.smsLog == ["Alice - 555-1234"];
    assert view.showSOSAlert;
    view.ToggleRecording(StartOutcome(false, false));
    assert view.isRecording && view.recorder == None;
    view.ToggleRecording(StartOutcome(true, true));
    assert !view.isRecording && view.recorder == None;
    view.ToggleRecording(StartOutcome(true, false));
    assert view.isRecording && view.recorder.Some? && !view.recorder.value.recording;
    var first := view.recorder.value;
    view.ToggleRecording(StartOutcome(false, false));
    view.ToggleRecording(StartOutcome(true, true));
    assert view.recorder.Some? && view.recorder.value != first;
    assert view.recorder.value.recording && !first.recording;
  }
}
