/** Particular sessions, against particular backends: what the session's description does not lead one to expect. */
module MidiRuns {
  import opened Common
  import opened MidiState
  import opened MidiBackend
  import opened MidiDevice
  import opened MidiPanic
  import opened MidiApply
  import opened MidiOrder
  import opened MidiSession
  import opened MidiOutput

  const PORTS: seq<(string, string)> := [("A", "a")]

  /** Nothing ever raises, and the one port is always listed. */
  const PROMPT: Backend := (n: nat) => Answer(false, true, PORTS)

  lemma PortIsListed()
    ensures ResolvePortId(PORTS, "a") == "a" && Listed(PORTS, "a")
  {
    assert PORTS[0].1 in PortIds(PORTS);
  }

  lemma PromptHasNoFault(log: Log)
    requires Grows([], log, PROMPT)
    ensures Faults(log) == 0
  {
    NoFaultWithoutRaising([], log, PROMPT);
  }

  /* ---- panics and publications that overtake ---- */

  /** A state is applied, and sounds, while a panic is outstanding, although nothing raised: the panic is requested
      during the first refresh, and a newer state published after it. */
  method LateApplication(notes: Notes, configuration: Configuration) returns (s: MidiOutputService)
    requires Proper(notes) && configuration.outputPort == "a"
    ensures fresh(s) && s.Valid() && Faults(s.log) == 0
    ensures s.history.applied ==
            [Application(Desired(notes, configuration, 2, 1, 1, 1), [1], 0, 0, 0, [RefreshPicked])]
    ensures s.panicCompleted < s.panicRequested && s.port == Some("a") && s.sent.at.Keys == notes.at.Keys
  {
    s := PanicDuringRefresh();
    var raised := s.PublishState(notes, configuration, 2);
    FinishRefresh(s, Desired(notes, configuration, 2, 1, 1, 1));
  }

  method PanicDuringRefresh() returns (s: MidiOutputService)
    ensures fresh(s) && s.Valid() && s.backend == PROMPT && s.Record() == NOTHING && s.phase == RefreshPicked
    ensures !s.closing && s.watermark == s.panicRequested == 1 && s.panicCompleted == 0 && s.now == 0
    ensures s.history == NO_HISTORY.(requests := [1], phases := [RefreshPicked], starts := [Start(0, 0)])
  {
    s := Refreshing();
    var raised := s.Panic(1);
    assert [] + [1] == [1] && [] + [RefreshPicked] == [RefreshPicked];
  }

  method Refreshing() returns (s: MidiOutputService)
    ensures fresh(s) && s.Valid() && s.backend == PROMPT && s.Record() == NOTHING && s.phase == RefreshPicked
    ensures !s.closing && s.watermark == s.panicRequested == s.panicCompleted == 0 && s.now == 0
    ensures s.history == NO_HISTORY.(starts := [Start(0, 0)])
  {
    s := new MidiOutputService(PROMPT);
    s.PickAction(false);
    assert [] + [Start(0, 0)] == [Start(0, 0)];
  }

  /** A state that a completed panic has made stale is applied, and sounds, although nothing raised: the whole panic
      passes between the state's check and its storing. */
  method OvertakenApplication(notes: Notes, configuration: Configuration) returns (s: MidiOutputService)
    requires Proper(notes) && configuration.outputPort == "a"
    ensures fresh(s) && s.Valid() && Faults(s.log) == 0
    ensures s.history.lastApplied == Some(Desired(notes, configuration, 1, 0, 1, 1))
    ensures s.history.requests == [1] && s.panicCompleted == s.panicRequested == 1
    ensures s.port == Some("a") && s.sent.at.Keys == notes.at.Keys
  {
    s := PanicOvertakes(notes, configuration);
    FinishPanic(s);
    StoreOvertaken(s, Desired(notes, configuration, 1, 0, 0, 0));
    FinishRefresh(s, Desired(notes, configuration, 1, 0, 1, 1));
  }

  /** The state is checked, and then a panic is requested. */
  method PanicOvertakes(notes: Notes, configuration: Configuration) returns (s: MidiOutputService)
    requires Proper(notes)
    ensures fresh(s) && s.Valid() && s.backend == PROMPT && s.Record() == NOTHING && s.phase == Waiting
    ensures !s.closing && s.refreshRequested && s.panicRequested == 1 && s.panicCompleted == 0 && s.now == 0
    ensures s.publishing == [Desired(notes, configuration, 1, 0, 0, 0)] && s.history.requests == [1]
  {
    s := new MidiOutputService(PROMPT);
    var stale := s.CheckState(notes, configuration, 1);
    var raised := s.Panic(1);
  }

  /** The sender's three steps of a panic, with no port open. */
  method FinishPanic(s: MidiOutputService)
    requires s.Valid() && s.Record() == NOTHING && s.phase == Waiting && !s.closing
    requires s.panicCompleted < s.panicRequested
    modifies s
    ensures s.Valid() && s.Record() == NOTHING && s.phase == Waiting && !s.closing && s.log == old(s.log)
    ensures s.panicCompleted == s.panicRequested == old(s.panicRequested) && s.now == old(s.now)
    ensures s.publishing == old(s.publishing) && s.refreshRequested == old(s.refreshRequested)
    ensures s.history.requests == old(s.history.requests)
  {
    PickPanic(s);
    s.SendPanic();
    s.CompletePanic();
  }

  method PickPanic(s: MidiOutputService)
    requires s.Valid() && s.phase == Waiting && !s.closing && s.panicCompleted < s.panicRequested
    modifies s`phase, s`refreshRequested, s`pending, s`history
    ensures s.Valid() && s.phase == PanicPicked(s.panicRequested) && s.history == old(s.history)
    ensures s.refreshRequested == old(s.refreshRequested)
  {
    s.PickAction(false);
  }

  method StoreOvertaken(s: MidiOutputService, d: Desired)
    requires s.Valid() && s.phase == Waiting && !s.closing && s.refreshRequested && s.publishing == [d]
    requires s.panicCompleted == s.panicRequested
    modifies s
    ensures s.Valid() && s.phase == RefreshPicked && s.Record() == old(s.Record()) && s.log == old(s.log)
    ensures s.latest == Some(d.(stored := s.panicRequested, stamp := old(s.now) + 1))
    ensures s.history == Picked(old(s.history), s.panicRequested, s.panicCompleted)
    ensures s.panicCompleted == s.panicRequested == old(s.panicRequested)
  {
    var raised := s.StoreState(0);
    s.PickAction(false);
  }

  /** The rest of a refresh with a state to apply again. */
  method FinishRefresh(s: MidiOutputService, d: Desired)
    requires s.Valid() && s.backend == PROMPT && s.Record() == NOTHING && s.phase == RefreshPicked
    requires s.latest == Some(d) && d.configuration.outputPort == "a"
    modifies s
    ensures s.Valid() && Faults(s.log) == 0 && s.history == AfterApplying(old(s.history), s.panicCompleted, d)
    ensures s.port == Some("a") && s.sent.at.Keys == d.notes.at.Keys
    ensures s.panicCompleted == old(s.panicCompleted) && s.panicRequested == old(s.panicRequested)
  {
    s.ListPorts();
    RefreshGrows(NOTHING, s.entries, s.Record(), old(s.log), s.log, PROMPT);
    ApplyLatest(s, d);
  }

  method ApplyLatest(s: MidiOutputService, d: Desired)
    requires s.Valid() && s.backend == PROMPT && s.Record() == NOTHING && s.phase == PortsListed && s.entries == PORTS
    requires s.latest == Some(d) && d.configuration.outputPort == "a"
    modifies s
    ensures s.Valid() && Faults(s.log) == 0 && s.history == AfterApplying(old(s.history), s.panicCompleted, d)
    ensures s.port == Some("a") && s.sent.at.Keys == d.notes.at.Keys
    ensures s.panicCompleted == old(s.panicCompleted) && s.panicRequested == old(s.panicRequested)
  {
    s.ReadLatest();
    var ok := s.ApplyPicked();
    PromptHasNoFault(old(s.log));
    PromptHasNoFault(s.log);
    PortIsListed();
    OutcomeHolds(NOTHING, "a", true, d.notes, d.configuration, ok, s.Record(), old(s.log), s.log, PROMPT);
  }

  /* ---- a note that stays ---- */

  /** The port is gone when it is listed the second time, and the two messages that follow are lost. */
  const STUCK: Backend := (n: nat) => Answer(n == 5 || n == 6, false, if n == 4 then [] else PORTS)

  const ANY: Configuration := Configuration("a", IgnoreWhileHeld, 0)

  function One(k: Key): Notes { Notes([k], map[k := 100]) }

  lemma OneInTurn(k: Key, c: nat)
    ensures InTurn({k}, {c}, [k], [c])
    ensures forall cs :: InOrder({c}, cs) ==> cs == [c]
  {
    forall cs | InOrder({c}, cs) ensures cs == [c] {
      assert ChannelSet([c]) == {c};
      OneIdOrder(cs, [c]);
    }
  }

  lemma OneMessages(k: Key)
    ensures Proper(One(k)) && Channels(One(k)) == {k.channel}
    ensures NoteOffs(NO_NOTES, One(k), ANY) == [] && NoteOns(NO_NOTES, One(k), ANY) == [k]
    ensures AllOffsTo("a", [k.channel]) == [Delivery("a", AllNotesOff(k.channel))]
    ensures NoteOffsTo("a", [k]) == [Delivery("a", NoteOff(k))]
    ensures NoteOnsTo("a", [k], One(k)) == [Delivery("a", NoteOn(k, 100))]
  {
    assert Lacking([k], map[]) == [k] + Lacking([], map[]);
    assert [k.channel][..0] == [] && [k][..0] == [];
  }

  /** What is sent for one key after opening. */
  function Opening(k: Key): seq<Delivery> { [Delivery("a", AllNotesOff(k.channel)), Delivery("a", NoteOn(k, 100))] }

  function Closing(k: Key): seq<Delivery> { [Delivery("a", NoteOff(k)), Delivery("a", AllNotesOff(k.channel))] }

  lemma OpeningCannotBreak(k: Key, was: Log, now: Log, backend: Backend)
    requires !backend(|was|).raised && !backend(|was| + 1).raised && !backend(|was| + 2).raised
    ensures !GivenUp(NOTHING, "a", true, One(k), ANY, was, now, backend)
  {
    OneInTurn(k, k.channel);
    OneMessages(k);
    forall n: nat ensures !ClearBroke("a", [k.channel], n, was, now, backend) {
      assert n == 0 ==> AllOffsTo("a", [k.channel][..n]) == [];
    }
    forall ready ensures !OpenedAndBroke("a", One(k), ANY, was, ready, now, backend) {
      ReadyCannotBreak(k, was, ready, now, backend);
    }
  }

  lemma ReadyCannotBreak(k: Key, was: Log, ready: Log, now: Log, backend: Backend)
    requires !backend(|was| + 2).raised
    ensures !OpenedAndBroke("a", One(k), ANY, was, ready, now, backend)
  {
    OneInTurn(k, k.channel);
    OneMessages(k);
    if Opened("a", {k.channel}, was, ready, backend) {
      assert |ready| == |was| + 2;
      SentNothing(ready, backend);
      forall n: nat ensures !OnBroke("a", [k], One(k), n, NO_NOTES, {}, ready, now, backend) {
        assert n == 0 ==> NoteOnsTo("a", [k][..n], One(k)) == [];
      }
    }
  }

  /** Applied to a closed port, with no call raising, one key is opened for and struck. */
  lemma OneIsStruck(k: Key, ok: bool, after: Held, was: Log, now: Log, backend: Backend)
    requires Outcome(NOTHING, "a", true, One(k), ANY, ok, after, was, now, backend)
    requires !backend(|was|).raised && !backend(|was| + 1).raised && !backend(|was| + 2).raised
    ensures ok && after.port == Some("a") && after.sent.at.Keys == {k} && after.used == {k.channel}
    ensures now == Sent(Asked(was, backend, Open("a")), backend, Opening(k))
  {
    OneInTurn(k, k.channel);
    OneMessages(k);
    OpeningCannotBreak(k, was, now, backend);
    assert Leaves(NOTHING, "a", "a", was, was, backend);
    assert ok;
    var ready :| OpenedAndReached("a", One(k), ANY, after, was, ready, now, backend);
    var asked := Asked(was, backend, Open("a"));
    assert ready == Sent(asked, backend, [Delivery("a", AllNotesOff(k.channel))]);
    assert [] + [Delivery("a", NoteOn(k, 100))] == [Delivery("a", NoteOn(k, 100))];
    SentInTwo(asked, backend, [Delivery("a", AllNotesOff(k.channel))], [Delivery("a", NoteOn(k, 100))]);
    assert Opening(k) == [Delivery("a", AllNotesOff(k.channel))] + [Delivery("a", NoteOn(k, 100))];
    assert KeyChannels([k]) == {k.channel};
  }

  lemma OneIsTold(k: Key, sent: Notes, used: set<nat>, was: Log, now: Log, backend: Backend)
    requires sent.at.Keys == {k} && used == {k.channel} && Told(Held(Some("a"), sent, used), was, now, backend)
    ensures now == Sent(was, backend, Closing(k))
  {
    OneInTurn(k, k.channel);
    OneMessages(k);
    assert used + Channels(sent) == {k.channel};
    assert PanicMessages("a", [k], [k.channel]) == Closing(k);
  }

  /** What one key's messages do to the device. */
  lemma OneSounds(k: Key, log: Log, backend: Backend)
    requires !backend(|log|).raised && !backend(|log| + 1).raised
    ensures Sounding(Wire(Sent(log, backend, Opening(k))), "a") ==
            Left(Sounding(Wire(log), "a"), {}, {k.channel}) + {k}
  {
    TwoSent(log, backend, Opening(k));
    HeardAsLeft(k, Sounding(Wire(log), "a"));
  }

  lemma OneStops(k: Key, log: Log, backend: Backend)
    requires !backend(|log|).raised && !backend(|log| + 1).raised
    ensures Sounding(Wire(Sent(log, backend, Closing(k))), "a") == Left(Sounding(Wire(log), "a"), {k}, {k.channel})
  {
    TwoSent(log, backend, Closing(k));
    HeardAsLeft(k, Sounding(Wire(log), "a"));
  }

  lemma HeardAsLeft(k: Key, sounding: set<Key>)
    ensures Heard(Heard(sounding, AllNotesOff(k.channel)), NoteOn(k, 100)) == Left(sounding, {}, {k.channel}) + {k}
    ensures Heard(Heard(sounding, NoteOff(k)), AllNotesOff(k.channel)) == Left(sounding, {k}, {k.channel})
  {
  }

  lemma TwoSent(log: Log, backend: Backend, messages: seq<Delivery>)
    requires |messages| == 2 && messages[0].port == messages[1].port == "a"
    ensures !backend(|log|).raised && !backend(|log| + 1).raised ==>
              Sounding(Wire(Sent(log, backend, messages)), "a") ==
              Heard(Heard(Sounding(Wire(log), "a"), messages[0].message), messages[1].message)
    ensures (forall n :: |log| <= n <= |log| + 1 ==> backend(n).raised && !backend(n).arrived) ==>
              Wire(Sent(log, backend, messages)) == Wire(log)
  {
    var first, second := messages[0], messages[1];
    var between := Asked(log, backend, Send(first));
    SentNothing(log, backend);
    SentOneMore(log, backend, [], first);
    SentOneMore(log, backend, [first], second);
    assert [] + [first] == [first] && [first] + [second] == messages;
    AfterCall(log, Attempt(Send(first), backend(|log|)));
    AfterCall(between, Attempt(Send(second), backend(|between|)));
    SoundingAfter(Wire(log), first, "a");
    SoundingAfter(Wire(between), second, "a");
  }

  /** A panic whose sends all succeed leaves a note sounding. Key 60 of channel 0 is struck; the port disappears, and
      the messages that are to silence it raise and are lost; it comes back, and is opened for a state on channel 2
      only, so only that channel is told; and so it is by the panic. */
  method StuckAfterReopening() returns (s: MidiOutputService)
    ensures fresh(s) && s.Valid() && s.panicCompleted == s.panicRequested == 1
            && s.Record() == Held(Some("a"), NO_NOTES, {})
    ensures |s.log| == 13 && s.backend == STUCK && forall i :: 7 <= i < 13 ==> !STUCK(i).raised
    ensures Sounding(Wire(s.log), "a") == {Key(0, 60)}
  {
    s := LostPort(Key(0, 60));
    StrikeOne(s, Key(2, 60));
    FirstStays(Key(0, 60), Key(2, 60));
    PanicOne(s, Key(2, 60));
  }

  lemma FirstStays(first: Key, second: Key)
    requires first.channel != second.channel
    ensures Left({first}, {}, {second.channel}) + {second} == {first, second}
    ensures Left({first, second}, {second}, {second.channel}) == {first}
  {
  }

  /** A key is struck and the port lost. */
  method LostPort(k: Key) returns (s: MidiOutputService)
    ensures fresh(s) && AtEase(s, Waiting) && s.Record() == NOTHING && |s.log| == 7
    ensures Sounding(Wire(s.log), "a") == {k}
  {
    s := new MidiOutputService(STUCK);
    StrikeOne(s, k);
    LosePort(s, k);
  }

  /** No panic and no close has been requested in this session so far. */
  ghost predicate AtEase(s: MidiOutputService, phase: Phase)
    reads s
  {
    && s.Valid() && s.backend == STUCK && s.phase == phase && !s.closing && s.watermark == 0
    && s.panicCompleted == s.panicRequested == 0
  }

  /** A state of one key is published and reaches the port with the next refresh. */
  method StrikeOne(s: MidiOutputService, k: Key)
    requires AtEase(s, Waiting) && s.Record() == NOTHING && (|s.log| == 0 || |s.log| == 7)
    modifies s
    ensures AtEase(s, Waiting) && s.port == Some("a") && s.sent.at.Keys == {k} && s.used == {k.channel}
    ensures |s.log| == |old(s.log)| + 4
    ensures Sounding(Wire(s.log), "a") == Left(Sounding(Wire(old(s.log)), "a"), {}, {k.channel}) + {k}
  {
    OneMessages(k);
    var raised := s.PublishState(One(k), ANY, 0);
    RefreshOne(s, k, s.latest.value);
  }

  method RefreshOne(s: MidiOutputService, k: Key, d: Desired)
    requires AtEase(s, Waiting) && s.Record() == NOTHING && (|s.log| == 0 || |s.log| == 7)
    requires s.latest == Some(d) && d.notes == One(k) && d.configuration == ANY
    modifies s
    ensures AtEase(s, Waiting) && s.port == Some("a") && s.sent.at.Keys == {k} && s.used == {k.channel}
    ensures |s.log| == |old(s.log)| + 4
    ensures Sounding(Wire(s.log), "a") == Left(Sounding(Wire(old(s.log)), "a"), {}, {k.channel}) + {k}
  {
    s.PickAction(true);
    ListOne(s);
    ApplyOne(s, k, d);
  }

  method ListOne(s: MidiOutputService)
    requires AtEase(s, RefreshPicked) && s.Record() == NOTHING && (|s.log| == 0 || |s.log| == 7)
    modifies s
    ensures AtEase(s, PortsListed) && s.Record() == NOTHING && s.entries == PORTS && s.latest == old(s.latest)
    ensures |s.log| == |old(s.log)| + 1 && Wire(s.log) == Wire(old(s.log))
  {
    s.ListPorts();
    RefreshGrows(NOTHING, s.entries, s.Record(), old(s.log), s.log, STUCK);
    OtherCall(old(s.log), STUCK, List);
  }

  method ApplyOne(s: MidiOutputService, k: Key, d: Desired)
    requires AtEase(s, PortsListed) && s.Record() == NOTHING && (|s.log| == 1 || |s.log| == 8) && s.entries == PORTS
    requires s.latest == Some(d) && d.notes == One(k) && d.configuration == ANY
    modifies s
    ensures AtEase(s, Waiting) && s.port == Some("a") && s.sent.at.Keys == {k} && s.used == {k.channel}
    ensures |s.log| == |old(s.log)| + 3
    ensures Sounding(Wire(s.log), "a") == Left(Sounding(Wire(old(s.log)), "a"), {}, {k.channel}) + {k}
  {
    s.ReadLatest();
    var ok := ApplyAtEase(s, d);
    OneApplied(k, d, ok, s.Record(), old(s.log), s.log);
  }

  method ApplyAtEase(s: MidiOutputService, d: Desired) returns (ok: bool)
    requires AtEase(s, StatePicked(d))
    modifies s
    ensures AtEase(s, Waiting)
    ensures Applies(old(s.Record()), old(s.entries), d, ok, s.Record(), old(s.log), s.log, STUCK)
  {
    ok := s.ApplyPicked();
  }

  lemma OneApplied(k: Key, d: Desired, ok: bool, after: Held, was: Log, now: Log)
    requires |was| == 1 || |was| == 8
    requires d.notes == One(k) && d.configuration == ANY
    ensures Applies(NOTHING, PORTS, d, ok, after, was, now, STUCK) ==>
              && after.port == Some("a") && after.sent.at.Keys == {k} && after.used == {k.channel}
              && |now| == |was| + 3
              && Sounding(Wire(now), "a") == Left(Sounding(Wire(was), "a"), {}, {k.channel}) + {k}
  {
    if Applies(NOTHING, PORTS, d, ok, after, was, now, STUCK) {
      PortIsListed();
      OneIsStruck(k, ok, after, was, now, STUCK);
      OtherCall(was, STUCK, Open("a"));
      OneSounds(k, Asked(was, STUCK, Open("a")), STUCK);
    }
  }

  /** The port is no longer listed; what is sent to it raises and is lost. */
  method LosePort(s: MidiOutputService, k: Key)
    requires AtEase(s, Waiting) && |s.log| == 4 && s.port == Some("a") && s.sent.at.Keys == {k} && s.used == {k.channel}
    modifies s
    ensures AtEase(s, Waiting) && s.Record() == NOTHING && |s.log| == 7 && Wire(s.log) == Wire(old(s.log))
  {
    s.PickAction(true);
    ListNothing(s, k);
    ForgetOne(s);
  }

  method ListNothing(s: MidiOutputService, k: Key)
    requires AtEase(s, RefreshPicked) && |s.log| == 4
    requires s.port == Some("a") && s.sent.at.Keys == {k} && s.used == {k.channel}
    modifies s
    ensures AtEase(s, PortsListed) && s.Record() == NOTHING && s.entries == []
    ensures |s.log| == 7 && Wire(s.log) == Wire(old(s.log))
  {
    s.ListPorts();
    OneLost(k, old(s.Record()), s.entries, s.Record(), old(s.log), s.log);
  }

  lemma OneLost(k: Key, held: Held, entries: seq<(string, string)>, after: Held, was: Log, now: Log)
    requires Refreshed(held, entries, after, was, now, STUCK) && |was| == 4
    requires held.port == Some("a") && held.sent.at.Keys == {k} && held.used == {k.channel}
    ensures after == NOTHING && entries == [] && |now| == 7 && Wire(now) == Wire(was)
  {
    var asked := Asked(was, STUCK, List);
    assert Asks(was, asked, STUCK);
    OtherCall(was, STUCK, List);
    OneIsTold(k, held.sent, held.used, asked, now, STUCK);
    TwoSent(asked, STUCK, Closing(k));
  }

  /** Without a port the state a refresh applies again changes nothing. */
  method ForgetOne(s: MidiOutputService)
    requires AtEase(s, PortsListed) && s.Record() == NOTHING && s.entries == []
    modifies s
    ensures AtEase(s, Waiting) && s.Record() == NOTHING && s.log == old(s.log)
  {
    s.ReadLatest();
    if s.phase.StatePicked? {
      ghost var d := s.phase.desired;
      var ok := s.ApplyPicked();
      NothingListed(d, ok, s.Record(), old(s.log), s.log, STUCK);
    }
  }

  lemma NothingListed(d: Desired, ok: bool, after: Held, was: Log, now: Log, backend: Backend)
    requires Applies(NOTHING, [], d, ok, after, was, now, backend)
    ensures after == NOTHING && now == was
  {
    var c := d.configuration;
    assert Leaves(NOTHING, ResolvePortId([], c.outputPort), c.outputPort, was, was, backend);
  }

  /** The panic's two messages both succeed. */
  method PanicOne(s: MidiOutputService, k: Key)
    requires AtEase(s, Waiting) && |s.log| == 11 && s.port == Some("a") && s.sent.at.Keys == {k}
             && s.used == {k.channel}
    modifies s
    ensures s.Valid() && s.panicCompleted == s.panicRequested == 1 && s.Record() == Held(Some("a"), NO_NOTES, {})
    ensures |s.log| == 13 && s.backend == STUCK
    ensures Sounding(Wire(s.log), "a") == Left(Sounding(Wire(old(s.log)), "a"), {k}, {k.channel})
  {
    RequestOne(s);
    SendOne(s, k);
    s.CompletePanic();
  }

  method RequestOne(s: MidiOutputService)
    requires AtEase(s, Waiting)
    modifies s`pending, s`latest, s`watermark, s`panicRequested, s`history, s`phase, s`refreshRequested
    ensures s.Valid() && s.phase == PanicPicked(1) && s.panicRequested == 1
  {
    var raised := s.Panic(0);
    PickPanic(s);
  }

  method SendOne(s: MidiOutputService, k: Key)
    requires s.Valid() && s.backend == STUCK && s.phase == PanicPicked(1) && |s.log| == 11
    requires s.port == Some("a") && s.sent.at.Keys == {k} && s.used == {k.channel}
    modifies s`phase, s`port, s`sent, s`used, s`log
    ensures s.Valid() && s.phase == PanicSent(1) && s.Record() == Held(Some("a"), NO_NOTES, {}) && |s.log| == 13
    ensures Sounding(Wire(s.log), "a") == Left(Sounding(Wire(old(s.log)), "a"), {k}, {k.channel})
  {
    s.SendPanic();
    OneSilenced(k, old(s.Record()), old(s.log), s.log);
  }

  lemma OneSilenced(k: Key, held: Held, was: Log, now: Log)
    requires Told(held, was, now, STUCK) && |was| == 11
    requires held.port == Some("a") && held.sent.at.Keys == {k} && held.used == {k.channel}
    ensures |now| == 13 && Faults(now) == Faults(was)
    ensures Sounding(Wire(now), "a") == Left(Sounding(Wire(was), "a"), {k}, {k.channel})
  {
    OneIsTold(k, held.sent, held.used, was, now, STUCK);
    OneStops(k, was, STUCK);
    TwoWithoutFault(was, STUCK, Closing(k));
  }

  lemma TwoWithoutFault(log: Log, backend: Backend, messages: seq<Delivery>)
    requires |messages| == 2 && !backend(|log|).raised && !backend(|log| + 1).raised
    ensures Faults(Sent(log, backend, messages)) == Faults(log)
  {
    var between := Asked(log, backend, Send(messages[0]));
    SentNothing(log, backend);
    SentOneMore(log, backend, [], messages[0]);
    SentOneMore(log, backend, [messages[0]], messages[1]);
    assert [] + [messages[0]] == [messages[0]] && [messages[0]] + [messages[1]] == messages;
    AfterCall(log, Attempt(Send(messages[0]), backend(|log|)));
    AfterCall(between, Attempt(Send(messages[1]), backend(|between|)));
  }

  /** A tick that lost the race against a panic of its own generation or a later one publishes nothing. */
  method LostRace(s: MidiOutputService, panic: nat, notes: Notes, configuration: Configuration, generation: nat)
    requires s.Valid() && !s.closing && Proper(notes) && 0 < generation <= panic
    modifies s
    ensures s.Valid() && s.pending == None && s.latest == None && s.publishing == old(s.publishing)
  {
    var raised := s.Panic(panic);
    raised := s.PublishState(notes, configuration, generation);
  }
}
