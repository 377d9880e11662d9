/** The MIDI output session (output_service.py): one sender, a one-slot mailbox, panic, refresh, port loss
    and sends that fail without saying whether they were delivered. */
module MidiOutput {
  import opened Common
  import opened MidiState
  import opened MidiBackend
  import opened MidiDevice
  import opened MidiPanic
  import opened MidiApply
  import opened MidiOrder
  import opened MidiSession

  datatype Event =
    | BeginPublish(notes: Notes, configuration: Configuration, generation: nat)
    | EndPublish(index: nat)
    | RequestPanic(panicGeneration: int)
    | RefreshOutputs
    | Close
    | SenderStep(refreshDue: bool)

  class MidiOutputService {
    var pending: Option<Desired>
    var latest: Option<Desired>
    var closing: bool
    var refreshRequested: bool
    var panicRequested: nat
    var panicCompleted: nat
    var dropped: nat
    var watermark: nat
    /** The published states of threads between their check and their storing. */
    var publishing: seq<Desired>

    var phase: Phase
    var port: Option<string>
    var selectedPort: string
    var entries: seq<(string, string)>
    var sent: Notes
    var used: set<nat>

    /** What the backend answers to its n-th call, and the calls made so far. */
    const backend: Backend
    var log: Log

    var now: nat
    ghost var history: History

    ghost predicate Valid()
      reads this
    {
      && Tracked(port, sent, used, log) && Grows([], log, backend)
      && MailboxHolds(Mail(), panicCompleted, now, history)
      && CountersHold(watermark, panicRequested, panicCompleted, history)
      && SenderHolds(phase, port, sent, panicCompleted, history)
    }

    ghost function Mail(): Inbox
      reads this`pending, this`latest, this`publishing
    {
      Inbox(pending, latest, publishing)
    }

    constructor (backend: Backend)
      ensures Valid() && phase == Waiting && Record() == NOTHING && refreshRequested && !closing
      ensures log == [] && history == NO_HISTORY && watermark == 0 && panicRequested == panicCompleted == 0
      ensures this.backend == backend && Mail() == Inbox(None, None, []) && now == 0
    {
      this.backend, log, publishing := backend, [], [];
      pending, latest, closing, refreshRequested := None, None, false, true;
      panicRequested, panicCompleted, dropped, watermark := 0, 0, 0, 0;
      phase, port, selectedPort, entries, sent, used := Waiting, None, "", [], NO_NOTES, {};
      now, history := 0, NO_HISTORY;
    }

    ghost function Record(): Held
      reads this`port, this`sent, this`used
    {
      Held(port, sent, used)
    }

    /** The channels a panic tells. */
    ghost function ToTell(): set<nat>
      reads this`sent, this`used
    {
      used + Channels(sent)
    }

    /* ---- sending ---- */

    /** A send either succeeds, or raises and may nevertheless have been delivered. */
    method Transmit(m: Message) returns (ok: bool)
      requires port.Some?
      modifies this`log
      ensures log == Asked(old(log), backend, Send(Delivery(port.value, m)))
      ensures ok == !backend(|old(log)|).raised
    {
      ok := !backend(|log|).raised;
      log := Asked(log, backend, Send(Delivery(port.value, m)));
    }

    method SendNoteOffs(keys: seq<Key>) returns (failed: bool)
      requires port.Some?
      modifies this`log
      ensures log == Sent(old(log), backend, NoteOffsTo(port.value, keys))
      ensures Faults(old(log)) <= Faults(log) && (failed <==> Faults(log) > Faults(old(log)))
    {
      failed := false;
      SentNothing(log, backend);
      for i := 0 to |keys|
        invariant log == Sent(old(log), backend, NoteOffsTo(port.value, keys[..i]))
        invariant Faults(old(log)) <= Faults(log) && (failed <==> Faults(log) > Faults(old(log)))
      {
        OffsGrow(port.value, NO_NOTES, keys, i);
        SentOneMore(old(log), backend, NoteOffsTo(port.value, keys[..i]), Delivery(port.value, NoteOff(keys[i])));
        AfterCall(log, Attempt(Send(Delivery(port.value, NoteOff(keys[i]))), backend(|log|)));
        var ok := Transmit(NoteOff(keys[i]));
        failed := failed || !ok;
      }
      assert keys[..|keys|] == keys;
    }

    method SendAllOffs(channels: seq<nat>) returns (failed: bool)
      requires port.Some?
      modifies this`log
      ensures log == Sent(old(log), backend, AllOffsTo(port.value, channels))
      ensures Faults(old(log)) <= Faults(log) && (failed <==> Faults(log) > Faults(old(log)))
    {
      failed := false;
      SentNothing(log, backend);
      for i := 0 to |channels|
        invariant log == Sent(old(log), backend, AllOffsTo(port.value, channels[..i]))
        invariant Faults(old(log)) <= Faults(log) && (failed <==> Faults(log) > Faults(old(log)))
      {
        AllOffsGrow(port.value, channels, i);
        SentOneMore(old(log), backend, AllOffsTo(port.value, channels[..i]),
                    Delivery(port.value, AllNotesOff(channels[i])));
        AfterCall(log, Attempt(Send(Delivery(port.value, AllNotesOff(channels[i]))), backend(|log|)));
        var ok := Transmit(AllNotesOff(channels[i]));
        failed := failed || !ok;
      }
      assert channels[..|channels|] == channels;
    }

    /** Silence: individual note-offs, then all notes off on every channel that may be sounding, in order; a send
        that raises stops none of the others. */
    method SilenceDevice(channels: set<nat>) returns (failed: bool)
      requires port.Some?
      modifies this`log
      ensures Panics(port.value, sent.at.Keys, channels, old(log), log, backend)
      ensures Settled(port.value, sent.at.Keys, channels, old(log), log)
      ensures Faults(old(log)) <= Faults(log) && (failed <==> Faults(log) > Faults(old(log)))
    {
      var ks := SortKeys(sent.at.Keys);
      var cs := SortIds(channels);
      failed := SendNoteOffs(ks);
      var more := SendAllOffs(cs);
      failed := failed || more;
      SentInTwo(old(log), backend, NoteOffsTo(port.value, ks), AllOffsTo(port.value, cs));
      assert InTurn(sent.at.Keys, channels, ks, cs);
      PanicsAsListed(port.value, sent.at.Keys, channels, old(log), backend, ks, cs);
      PanicSettles(port.value, sent.at.Keys, channels, old(log), log, backend);
    }

    /** `_panic_current`: nothing is recorded any more and nothing sounds outside doubt. Exactly a panic for all that
        was recorded went out, and of the channels told exactly those whose all-notes-off raised are in doubt. */
    method PanicCurrent(closePort: bool, hadError: bool, additional: set<nat>) returns (failed: bool)
      requires port.None? ==> Record() == NOTHING && Quiet(log)
      requires port.Some? ==> Within(port.value, ToTell() + additional, log)
      modifies this`port, this`sent, this`used, this`log
      ensures Tracked(port, sent, used, log) && Quiet(log) && sent == NO_NOTES && used == {}
      ensures Faults(old(log)) <= Faults(log) && (failed <==> hadError || Faults(log) > Faults(old(log)))
      ensures port == if closePort || failed then None else old(port)
      ensures old(port).None? ==> log == old(log)
      ensures old(port).Some? ==>
                && Panics(old(port).value, old(sent).at.Keys, old(ToTell()) + additional, old(log), log, backend)
                && Settled(old(port).value, old(sent).at.Keys, old(ToTell()) + additional, old(log), log)
    {
      failed := hadError;
      if port.Some? {
        var raised := SilenceDevice(used + Channels(sent) + additional);
        PanicSettles(port.value, sent.at.Keys, used + Channels(sent) + additional, old(log), log, backend);
        failed := failed || raised;
      }
      sent, used := NO_NOTES, {};
      if closePort || failed {
        port := None;
      }
      SilenceIsTracked(port, log);
    }

    /** `_panic_current` without a channel in addition to those recorded. */
    method PanicHeld(closePort: bool, hadError: bool) returns (failed: bool)
      requires Tracked(port, sent, used, log)
      modifies this`port, this`sent, this`used, this`log
      ensures Tracked(port, sent, used, log) && Quiet(log) && sent == NO_NOTES && used == {}
      ensures Faults(old(log)) <= Faults(log) && (failed <==> hadError || Faults(log) > Faults(old(log)))
      ensures port == if closePort || failed then None else old(port)
      ensures Told(old(Record()), old(log), log, backend)
    {
      DeviceConfined(port, sent, used, {}, Wire(log), DoubtOf(log));
      assert used + Channels(sent) + {} == ToTell();
      failed := PanicCurrent(closePort, hadError, {});
    }

    /** What is left of the session once a send has raised. */
    ghost predicate ClosedDown()
      reads this`pending, this`latest, this`port, this`sent, this`used
    {
      pending == None && latest == None && Record() == NOTHING
    }

    /** `_handle_send_failure`: forget the mailbox, tell every channel that may sound, close the port. */
    method HandleSendFailure(channel: nat)
      requires port.Some? && Within(port.value, ToTell() + {channel}, log)
      modifies this`pending, this`latest, this`port, this`sent, this`used, this`log
      ensures ClosedDown() && Tracked(port, sent, used, log) && Quiet(log)
      ensures Panics(old(port).value, old(sent).at.Keys, old(ToTell()) + {channel}, old(log), log, backend)
      ensures Settled(old(port).value, old(sent).at.Keys, old(ToTell()) + {channel}, old(log), log)
    {
      pending, latest := None, None;
      var failed := PanicCurrent(true, true, {channel});
    }

    /* ---- reconciliation ---- */

    /** `_send`: a message that raises, delivered or not, is followed by the recovery. */
    method SendOrFail(m: Message) returns (ok: bool)
      requires port.Some? && Tracked(port, sent, used, log)
      requires m.AllNotesOff? ==> sent == NO_NOTES && used == {}
      modifies this`pending, this`latest, this`port, this`sent, this`used, this`log
      ensures ok == !backend(|old(log)|).raised
      ensures ok ==> log == Asked(old(log), backend, Send(Delivery(old(port).value, m))) && Record() == old(Record())
      ensures ok ==> Faults(log) == Faults(old(log)) && pending == old(pending) && latest == old(latest)
      ensures !ok ==> Failed(old(port).value, m, old(sent), old(used), old(log), log, backend)
      ensures !ok ==> ClosedDown() && Tracked(port, sent, used, log)
    {
      ok := Transmit(m);
      AfterCall(old(log), Attempt(Send(Delivery(port.value, m)), backend(|old(log)|)));
      if !ok {
        SendWithin(port.value, sent, used, old(log), backend, m);
        HandleSendFailure(ChannelOf(m));
      }
    }

    /** A note-off, and the bookkeeping after it. */
    method SendOff(k: Key) returns (ok: bool)
      requires port.Some? && Tracked(port, sent, used, log)
      modifies this`pending, this`latest, this`port, this`sent, this`used, this`log
      ensures Tracked(port, sent, used, log)
      ensures ok ==> log == Asked(old(log), backend, Send(Delivery(old(port).value, NoteOff(k))))
      ensures ok ==> port == old(port) && sent == Popped(old(sent), k) && used == old(used)
      ensures ok ==> Faults(log) == Faults(old(log)) && pending == old(pending) && latest == old(latest)
      ensures !ok ==> Failed(old(port).value, NoteOff(k), old(sent), old(used), old(log), log, backend) && ClosedDown()
    {
      OffTracked(port.value, sent, used, log, backend, k);
      ok := SendOrFail(NoteOff(k));
      if ok {
        sent := Popped(sent, k);
      }
    }

    method SendOn(k: Key, v: nat) returns (ok: bool)
      requires port.Some? && Tracked(port, sent, used, log) && v > 0
      modifies this`pending, this`latest, this`port, this`sent, this`used, this`log
      ensures Tracked(port, sent, used, log)
      ensures ok ==> log == Asked(old(log), backend, Send(Delivery(old(port).value, NoteOn(k, v))))
      ensures ok ==> port == old(port) && sent == Put(old(sent), k, v) && used == old(used) + {k.channel}
      ensures ok ==> Faults(log) == Faults(old(log)) && pending == old(pending) && latest == old(latest)
      ensures !ok ==>
                Failed(old(port).value, NoteOn(k, v), old(sent), old(used), old(log), log, backend) && ClosedDown()
    {
      OnTracked(port.value, sent, used, log, backend, k, v);
      ok := SendOrFail(NoteOn(k, v));
      if ok {
        sent, used := Put(sent, k, v), used + {k.channel};
      }
    }

    method SendOffs(keys: seq<Key>) returns (ok: bool)
      requires port.Some? && Tracked(port, sent, used, log)
      modifies this`pending, this`latest, this`port, this`sent, this`used, this`log
      ensures Tracked(port, sent, used, log)
      ensures ok ==> log == Sent(old(log), backend, NoteOffsTo(old(port).value, keys))
      ensures ok ==> port == old(port) && sent == AllPopped(old(sent), keys) && used == old(used)
      ensures ok ==> Faults(log) == Faults(old(log)) && pending == old(pending) && latest == old(latest)
      ensures !ok ==> OffsBroke(old(port).value, keys, old(sent), old(used), old(log), log, backend) && ClosedDown()
    {
      SentNothing(log, backend);
      for i := 0 to |keys|
        invariant Tracked(port, sent, used, log) && port == old(port) && used == old(used)
        invariant log == Sent(old(log), backend, NoteOffsTo(port.value, keys[..i]))
        invariant sent == AllPopped(old(sent), keys[..i]) && Faults(log) == Faults(old(log))
        invariant pending == old(pending) && latest == old(latest)
      {
        OffsGrow(port.value, old(sent), keys, i);
        SentOneMore(old(log), backend, NoteOffsTo(port.value, keys[..i]), Delivery(port.value, NoteOff(keys[i])));
        ok := SendOff(keys[i]);
        if !ok {
          assert OffBroke(old(port).value, keys, i, old(sent), old(used), old(log), log, backend);
          return;
        }
      }
      assert keys[..|keys|] == keys;
      ok := true;
    }

    method SendOns(keys: seq<Key>, desired: Notes) returns (ok: bool)
      requires port.Some? && Tracked(port, sent, used, log)
      requires Proper(desired) && forall k :: k in keys ==> k in desired.at
      modifies this`pending, this`latest, this`port, this`sent, this`used, this`log
      ensures Tracked(port, sent, used, log)
      ensures ok ==> log == Sent(old(log), backend, NoteOnsTo(old(port).value, keys, desired)) && port == old(port)
      ensures ok ==> sent == AllPut(old(sent), keys, desired) && used == old(used) + KeyChannels(keys)
      ensures ok ==> Faults(log) == Faults(old(log)) && pending == old(pending) && latest == old(latest)
      ensures !ok ==>
                OnsBroke(old(port).value, keys, desired, old(sent), old(used), old(log), log, backend) && ClosedDown()
    {
      SentNothing(log, backend);
      assert old(used) + KeyChannels(keys[..0]) == old(used);
      for i := 0 to |keys|
        invariant Tracked(port, sent, used, log) && port == old(port)
        invariant log == Sent(old(log), backend, NoteOnsTo(port.value, keys[..i], desired))
        invariant sent == AllPut(old(sent), keys[..i], desired) && used == old(used) + KeyChannels(keys[..i])
        invariant Faults(log) == Faults(old(log)) && pending == old(pending) && latest == old(latest)
      {
        OnsGrow(port.value, old(sent), keys, desired, i);
        SentOneMore(old(log), backend, NoteOnsTo(port.value, keys[..i], desired),
                    Delivery(port.value, NoteOn(keys[i], desired.at[keys[i]])));
        assert KeyChannels(keys[..i + 1]) == KeyChannels(keys[..i]) + {keys[i].channel};
        ok := SendOn(keys[i], desired.at[keys[i]]);
        if !ok {
          assert OnBroke(old(port).value, keys, desired, i, old(sent), old(used), old(log), log, backend);
          return;
        }
      }
      assert keys[..|keys|] == keys;
      ok := true;
    }

    /** `_reconcile`: if no send raises, all note-offs and then all note-ons have gone out and the recorded notes are
        the target; at the first that raises the recovery follows, and the port is closed with nothing recorded. */
    method Reconcile(desired: Notes, c: Configuration) returns (ok: bool)
      requires port.Some? && Tracked(port, sent, used, log) && Proper(desired)
      modifies this`pending, this`latest, this`port, this`sent, this`used, this`log
      ensures Tracked(port, sent, used, log)
      ensures ok ==> Reached(old(Record()), desired, c, Record(), old(log), log, backend)
      ensures ok ==> pending == old(pending) && latest == old(latest)
      ensures !ok ==> Broke(old(Record()), desired, c, old(log), log, backend) && ClosedDown()
    {
      var offs, ons := NoteOffs(sent, desired, c), NoteOns(sent, desired, c);
      ScriptMembers(sent, desired, c);
      ok := SendOffs(offs);
      if ok {
        SentInTwo(old(log), backend, NoteOffsTo(port.value, offs), NoteOnsTo(port.value, ons, desired));
        ScriptReachesTarget(old(sent), desired, c);
        ok := SendOns(ons, desired);
      }
    }

    /** `_open_exact_port`: opening may raise; a fresh port first gets all notes off on the desired channels, in
        order, which also settles any doubt about these. */
    method OpenExactPort(name: string, desired: Notes) returns (ok: bool)
      requires port.None? && Tracked(port, sent, used, log)
      modifies this`pending, this`latest, this`port, this`sent, this`used, this`log
      ensures Tracked(port, sent, used, log)
      ensures ok ==> Opened(name, Channels(desired), old(log), log, backend) && Record() == NOTHING.(port := Some(name))
      ensures ok ==> pending == old(pending) && latest == old(latest)
      ensures !ok ==> OpenBroke(name, Channels(desired), old(log), log, backend) && Record() == NOTHING
      ensures backend(|old(log)|).raised ==> !ok && pending == old(pending) && latest == old(latest)
      ensures !backend(|old(log)|).raised && !ok ==> pending == None && latest == None
    {
      ClosedIsQuiet(sent, used, log);
      OtherCall(log, backend, Open(name));
      ok := !backend(|log|).raised;
      log := Asked(log, backend, Open(name));
      SilenceIsTracked(None, log);
      if !ok {
        return;
      }
      port := Some(name);
      var cs := SortIds(Channels(desired));
      assert InOrder(Channels(desired), cs);
      ghost var n;
      ok, n := ClearChannels(cs);
      assert ok ==> OpenedInOrder(name, cs, old(log), log, backend);
      assert !ok ==> ClearBroke(name, cs, n, old(log), log, backend);
    }

    method ClearChannels(channels: seq<nat>) returns (ok: bool, ghost n: nat)
      requires port.Some? && sent == NO_NOTES && used == {} && Quiet(log)
      modifies this`pending, this`latest, this`port, this`sent, this`used, this`log
      ensures Tracked(port, sent, used, log)
      ensures ok ==> log == Sent(old(log), backend, AllOffsTo(old(port).value, channels)) && Record() == old(Record())
      ensures ok ==> Faults(log) == Faults(old(log)) && pending == old(pending) && latest == old(latest)
      ensures !ok ==> n < |channels| && ClosedDown()
      ensures !ok ==>
                var between := Sent(old(log), backend, AllOffsTo(old(port).value, channels[..n]));
                && Faults(between) == Faults(old(log))
                && Failed(old(port).value, AllNotesOff(channels[n]), NO_NOTES, {}, between, log, backend)
    {
      n := 0;
      SentNothing(log, backend);
      SilenceIsTracked(port, log);
      for i := 0 to |channels|
        invariant Record() == old(Record()) && Quiet(log) && Tracked(port, sent, used, log)
        invariant log == Sent(old(log), backend, AllOffsTo(port.value, channels[..i]))
        invariant Faults(log) == Faults(old(log)) && pending == old(pending) && latest == old(latest)
      {
        n := i;
        AllOffsGrow(port.value, channels, i);
        SentOneMore(old(log), backend, AllOffsTo(port.value, channels[..i]),
                    Delivery(port.value, AllNotesOff(channels[i])));
        ClearedStaysQuiet(port.value, log, backend, channels[i]);
        ok := SendOrFail(AllNotesOff(channels[i]));
        if !ok {
          return;
        }
        SilenceIsTracked(port, log);
      }
      assert channels[..|channels|] == channels;
      ok := true;
    }

    /** An open port that is not the selected one, or with none selected, is silenced and closed. */
    method LeaveOtherPort(name: string)
      requires Tracked(port, sent, used, log)
      modifies this`port, this`sent, this`used, this`log
      ensures Tracked(port, sent, used, log)
      ensures Leaves(old(Record()), name, selectedPort, old(log), log, backend)
      ensures Record() == Remaining(old(Record()), name, selectedPort)
    {
      if port.Some? && (port.value != name || selectedPort == "") {
        var failed := PanicHeld(true, false);
      }
    }

    /** `_apply_desired`: the selected port is brought to the target, starting from nothing if it had to be opened,
        or no port is open in the end. */
    method ApplyDesired(d: Desired) returns (ok: bool)
      requires Tracked(port, sent, used, log) && Proper(d.notes)
      modifies this`pending, this`latest, this`port, this`selectedPort, this`sent, this`used, this`log
      ensures Tracked(port, sent, used, log)
      ensures selectedPort == d.configuration.outputPort
      ensures Applies(old(Record()), entries, d, ok, Record(), old(log), log, backend)
      ensures Forgets(old(Record()), entries, d, ok, old(Mail()), Mail(), old(log), backend)
    {
      selectedPort := d.configuration.outputPort;
      LeaveOtherPort(ResolvePortId(entries, selectedPort));
      ghost var remaining, left, mail := Record(), log, Mail();
      ok := BringPort(d);
      AppliesOnceLeft(old(Record()), entries, d, ok, Record(), old(log), remaining, left, log, backend);
      ForgetsOnceLeft(old(Record()), entries, d, ok, mail, Mail(), old(log), remaining, left, backend);
    }

    /** The rest of `_apply_desired`, with any other port left. */
    method BringPort(d: Desired) returns (ok: bool)
      requires Tracked(port, sent, used, log) && Proper(d.notes)
      requires selectedPort == d.configuration.outputPort
      requires Record() == Remaining(Record(), ResolvePortId(entries, selectedPort), selectedPort)
      modifies this`pending, this`latest, this`port, this`sent, this`used, this`log
      ensures Tracked(port, sent, used, log)
      ensures Applies(old(Record()), entries, d, ok, Record(), old(log), log, backend)
      ensures Forgets(old(Record()), entries, d, ok, old(Mail()), Mail(), old(log), backend)
    {
      var name := ResolvePortId(entries, selectedPort);
      if port.Some? {
        ok := Reconcile(d.notes, d.configuration);
      } else if selectedPort == "" || name !in PortIds(entries) {
        ok := false;
      } else {
        ok := OpenAndReconcile(name, d.notes, d.configuration);
      }
      OutcomeAsLeft(old(Record()), name, Listed(entries, selectedPort), d.notes, d.configuration, ok, Record(),
                    old(log), old(log), log, backend);
      ForgetsAsLeft(old(Record()), entries, d, ok, old(Mail()), Mail(), old(log), old(log), backend);
    }

    /** The port of a state that is selected and listed but not open. */
    method OpenAndReconcile(name: string, desired: Notes, c: Configuration) returns (ok: bool)
      requires port.None? && Tracked(port, sent, used, log) && Proper(desired)
      modifies this`pending, this`latest, this`port, this`sent, this`used, this`log
      ensures Tracked(port, sent, used, log)
      ensures ok ==> Brought(NOTHING, name, desired, c, Record(), old(log), log, backend)
      ensures !ok ==> Record() == NOTHING && GivenUp(NOTHING, name, true, desired, c, old(log), log, backend)
      ensures if Lost(false, true, ok, old(log), backend) then pending == None && latest == None
              else pending == old(pending) && latest == old(latest)
    {
      ok := OpenExactPort(name, desired);
      if ok {
        ghost var ready := log;
        ok := Reconcile(desired, c);
        assert ok ==> OpenedAndReached(name, desired, c, Record(), old(log), ready, log, backend);
        assert !ok ==> OpenedAndBroke(name, desired, c, old(log), ready, log, backend);
      }
    }

    /** `_refresh_port_names`: a failed enumeration forgets the mailbox; then, as when the open port is no longer
        listed, what sounds is told to stop and the port closed. */
    method RefreshPortNames()
      requires Tracked(port, sent, used, log)
      modifies this`pending, this`latest, this`port, this`entries, this`sent, this`used, this`log
      ensures Tracked(port, sent, used, log)
      ensures Refreshed(old(Record()), entries, Record(), old(log), log, backend)
      ensures if backend(|old(log)|).raised then pending == None && latest == None
              else pending == old(pending) && latest == old(latest)
    {
      var answer := backend(|log|);
      OtherCall(log, backend, List);
      log := Asked(log, backend, List);
      if answer.raised {
        pending, latest := None, None;
        var failed := PanicHeld(true, true);
        entries := [];
        return;
      }
      entries := answer.ports;
      if port.Some? && port.value !in PortIds(entries) {
        var failed := PanicHeld(true, false);
      }
    }

    /* ---- the callers' steps ---- */

    /** `publish` up to its lock: a state stale for the watermark is ignored. */
    method CheckState(notes: Notes, configuration: Configuration, generation: nat) returns (stale: bool)
      requires Valid() && Proper(notes)
      modifies this`publishing
      ensures Valid() && (stale <==> 0 < generation <= watermark)
      ensures publishing == old(publishing) + if stale then [] else
                [Desired(notes, configuration, generation, panicRequested, panicRequested, 0)]
    {
      stale := IsStale(watermark, generation);
      if !stale {
        var d := Desired(notes, configuration, generation, panicRequested, panicRequested, 0);
        Publishing(Mail(), watermark, panicRequested, panicCompleted, now, history, d);
        publishing := publishing + [d];
      }
    }

    /** The rest of `publish`, whatever happened since the check: a closing service refuses, otherwise both slots
        hold the state and a replaced one counts as dropped. */
    method StoreState(index: nat) returns (raised: bool)
      requires Valid() && index < |publishing|
      modifies this`publishing, this`pending, this`latest, this`dropped, this`now
      ensures Valid() && raised == closing && publishing == old(publishing[..index] + publishing[index + 1..])
      ensures closing ==> pending == old(pending) && latest == old(latest) && dropped == old(dropped) && now == old(now)
      ensures !closing ==>
                && now == old(now) + 1
                && latest == pending == Some(old(publishing[index]).(stored := panicRequested, stamp := now))
                && dropped == old(dropped) + if old(pending).Some? then 1 else 0
    {
      Storing(Mail(), watermark, panicRequested, panicCompleted, now, history, index);
      var checked := publishing[index];
      publishing := publishing[..index] + publishing[index + 1..];
      raised := closing;
      if !closing {
        if pending.Some? {
          dropped := dropped + 1;
        }
        now := now + 1;
        pending := Some(checked.(stored := panicRequested, stamp := now));
        latest := pending;
      }
    }

    /** A `publish` that nothing overtakes. */
    method PublishState(notes: Notes, configuration: Configuration, generation: nat) returns (raised: bool)
      requires Valid() && Proper(notes)
      modifies this`publishing, this`pending, this`latest, this`dropped, this`now
      ensures Valid() && publishing == old(publishing)
      ensures raised <==> closing && !(0 < generation <= watermark)
      ensures 0 < generation <= watermark || closing ==>
                pending == old(pending) && latest == old(latest) && dropped == old(dropped)
      ensures (generation == 0 || generation > watermark) && !closing ==>
                && now == old(now) + 1 && latest == pending
                && latest == Some(Desired(notes, configuration, generation, panicRequested, panicRequested, now))
                && dropped == old(dropped) + if old(pending).Some? then 1 else 0
    {
      var stale := CheckState(notes, configuration, generation);
      raised := false;
      if !stale {
        raised := StoreState(|publishing| - 1);
      }
    }

    /** `request_panic`, and `panic` up to its wait. A negative generation raises after the mailbox was emptied. */
    method Panic(generation: int) returns (raised: bool)
      requires Valid()
      modifies this`pending, this`latest, this`watermark, this`panicRequested, this`history
      ensures Valid() && (raised <==> !closing && generation < 0)
      ensures !closing ==> pending == None && latest == None
      ensures closing ==> Mail() == old(Mail())
      ensures if closing || raised
              then watermark == old(watermark) && panicRequested == old(panicRequested) && history == old(history)
              else watermark == Raised(old(watermark), generation) && panicRequested == old(panicRequested) + 1
                   && history == Requested(old(history), phase, generation)
    {
      raised := false;
      if !closing {
        Emptying(Mail(), panicCompleted, now, history, None, None);
        if generation < 0 {
          pending, latest, raised := None, None, true;
          return;
        }
        PanicRequested(Mail(), watermark, panicRequested, panicCompleted, now, phase, port, sent, history, generation);
        pending, latest := None, None;
        watermark := if watermark < generation then generation else watermark;
        panicRequested := panicRequested + 1;
        history := Requested(history, phase, generation);
      }
    }

    method RequestRefresh() returns (raised: bool)
      requires Valid()
      modifies this`refreshRequested
      ensures Valid() && raised == closing && refreshRequested == (old(refreshRequested) || !closing)
    {
      raised := closing;
      if !closing {
        refreshRequested := true;
      }
    }

    /** `close` up to its wait. */
    method CloseService()
      requires Valid()
      modifies this`closing, this`pending, this`latest
      ensures Valid() && closing && (!old(closing) ==> pending == None && latest == None)
    {
      if !closing {
        Emptying(Mail(), panicCompleted, now, history, None, None);
        closing, pending, latest := true, None, None;
      }
    }

    /* ---- the sender's steps ---- */

    /** Close first, then panic, then refresh, then the mailbox. */
    method PickAction(refreshDue: bool)
      requires Valid() && phase == Waiting
      modifies this`phase, this`refreshRequested, this`pending, this`history
      ensures Valid()
      ensures phase == (if closing then ClosePicked
                        else if panicCompleted < panicRequested then PanicPicked(panicRequested)
                        else if old(refreshRequested) || refreshDue then RefreshPicked
                        else if old(pending).Some? then StatePicked(old(pending).value)
                        else Waiting)
      ensures InFlight(phase) ==> panicCompleted == panicRequested
      ensures refreshRequested == (old(refreshRequested) && phase != RefreshPicked)
      ensures pending == if phase.StatePicked? then None else old(pending)
      ensures history == Stepped(old(history), Waiting, phase, panicRequested, panicCompleted, now)
    {
      Picking(Mail(), watermark, panicRequested, panicCompleted, now, port, sent, history);
      if closing {
        phase := ClosePicked;
      } else if panicCompleted < panicRequested {
        phase := PanicPicked(panicRequested);
      } else if refreshRequested || refreshDue {
        phase, refreshRequested, history := RefreshPicked, false, Picked(history, panicRequested, panicCompleted);
      } else if pending.Some? {
        phase, history := StatePicked(pending.value), Picked(history, panicRequested, panicCompleted);
        pending := None;
      }
    }

    /** A picked panic: outside doubt nothing sounds any more, and exactly what was recorded was told to stop. If none
        of its sends raised the port stays open. */
    method SendPanic()
      requires Valid() && phase.PanicPicked?
      modifies this`phase, this`port, this`sent, this`used, this`log
      ensures Valid() && phase == PanicSent(old(phase).upTo) && sent == NO_NOTES && used == {} && Quiet(log)
      ensures Told(old(Record()), old(log), log, backend) && Grows(old(log), log, backend)
      ensures port == if Faults(log) == Faults(old(log)) then old(port) else None
    {
      var failed := PanicHeld(false, false);
      ToldGrows(old(Record()), old(log), log, backend);
      GrowsFurther([], old(log), log, backend);
      SendingPanic(phase, old(port), old(sent), panicCompleted, history, port);
      phase := PanicSent(phase.upTo);
    }

    /** Completing a panic empties the mailbox: whatever was published meanwhile is forgotten. */
    method CompletePanic()
      requires Valid() && phase.PanicSent?
      modifies this`phase, this`pending, this`latest, this`panicCompleted, this`history
      ensures Valid() && phase == Waiting && pending == None && latest == None && sent == NO_NOTES
      ensures panicCompleted == Raised(old(panicCompleted), old(phase).upTo)
      ensures history == old(history).(lastCompletion := now)
    {
      Completing(Mail(), watermark, panicRequested, panicCompleted, now, phase, port, sent, history);
      pending, latest := None, None;
      panicCompleted := if panicCompleted < phase.upTo then phase.upTo else panicCompleted;
      history := history.(lastCompletion := now);
      phase := Waiting;
    }

    /** The picked state is applied, call by call as `Outcome` says, and the application is remembered. */
    method ApplyPicked() returns (ok: bool)
      requires Valid() && phase.StatePicked?
      modifies this`phase, this`pending, this`latest, this`port, this`selectedPort, this`sent, this`used, this`log,
               this`history
      ensures Valid() && phase == Waiting && Grows(old(log), log, backend)
      ensures history == AfterApplying(old(history), panicCompleted, old(phase).desired)
      ensures Applies(old(Record()), entries, old(phase).desired, ok, Record(), old(log), log, backend)
      ensures Forgets(old(Record()), entries, old(phase).desired, ok, old(Mail()), Mail(), old(log), backend)
    {
      var d := phase.desired;
      Applying(Mail(), watermark, panicRequested, panicCompleted, now, phase, port, sent, history);
      ok := ApplyDesired(d);
      AppliesHolds(old(Record()), entries, d, ok, Record(), old(log), log, backend);
      ForgetsHolds(old(Record()), entries, d, ok, old(Mail()), Mail(), old(log), backend);
      GrowsFurther([], old(log), log, backend);
      phase, history := Waiting, AfterApplying(history, panicCompleted, d);
      Emptying(old(Mail()), panicCompleted, now, history, pending, latest);
    }

    method ListPorts()
      requires Valid() && phase == RefreshPicked
      modifies this`phase, this`pending, this`latest, this`port, this`entries, this`sent, this`used, this`log
      ensures Valid() && phase == PortsListed && Grows(old(log), log, backend)
      ensures Refreshed(old(Record()), entries, Record(), old(log), log, backend)
      ensures if backend(|old(log)|).raised then pending == None && latest == None
              else pending == old(pending) && latest == old(latest)
    {
      RefreshPortNames();
      Listing(old(Mail()), panicCompleted, now, history, old(Record()), entries, Record(), old(log), log, backend);
      Emptying(old(Mail()), panicCompleted, now, history, pending, latest);
      phase := PortsListed;
    }

    /** After a refresh the latest state, if the mailbox still remembers one, is applied again. */
    method ReadLatest()
      requires Valid() && phase == PortsListed
      modifies this`phase
      ensures Valid() && phase == if latest.Some? then StatePicked(latest.value) else Waiting
    {
      Remembering(Mail(), panicCompleted, now, port, sent, history);
      phase := if latest.Some? then StatePicked(latest.value) else Waiting;
    }

    /** The port is closed, exactly what was recorded was told to stop, and outside doubt nothing sounds. */
    method StopSender()
      requires Valid() && phase == ClosePicked
      modifies this`phase, this`port, this`sent, this`used, this`log
      ensures Valid() && phase == Stopped && Record() == NOTHING && Quiet(log)
      ensures Told(old(Record()), old(log), log, backend) && Grows(old(log), log, backend)
    {
      var failed := PanicHeld(true, false);
      ToldGrows(old(Record()), old(log), log, backend);
      GrowsFurther([], old(log), log, backend);
      SendingPanic(phase, old(port), old(sent), panicCompleted, history, None);
      phase := Stopped;
    }

    /** One step of the sender's thread: only a panic's last step completes it, and only a picked state is applied. */
    method Sender(refreshDue: bool)
      requires Valid()
      modifies this
      ensures Valid() && Grows(old(log), log, backend) && now == old(now) && panicRequested == old(panicRequested)
      ensures history == Stepped(old(history), old(phase), phase, panicRequested, old(panicCompleted), now)
      ensures panicCompleted ==
              if old(phase).PanicSent? then Raised(old(panicCompleted), old(phase).upTo) else old(panicCompleted)
    {
      match phase
      case Waiting => PickAction(refreshDue);
      case PanicSent(_) => CompletePanic();
      case PortsListed => ReadLatest();
      case Stopped =>
      case _ => UseDevice();
    }

    /** The sender's steps that send, open or list. */
    method UseDevice()
      requires Valid() && (phase.PanicPicked? || phase.StatePicked? || phase == RefreshPicked || phase == ClosePicked)
      modifies this
      ensures Valid() && Grows(old(log), log, backend)
      ensures now == old(now) && panicRequested == old(panicRequested) && panicCompleted == old(panicCompleted)
      ensures history == Stepped(old(history), old(phase), phase, panicRequested, panicCompleted, now)
    {
      if phase.PanicPicked? {
        SendPanic();
      } else if phase.StatePicked? {
        var ok := ApplyPicked();
      } else if phase == RefreshPicked {
        ListPorts();
      } else {
        StopSender();
      }
    }

    /** Every interleaving of callers and sender keeps the whole invariant, and the log and the history only grow. So
        after any run, whatever raised in it: on every channel not in doubt by the log a device sounds exactly the
        recorded notes if its port is open, and nothing otherwise; whatever is recorded was asked for by the last
        applied state, which was stored after the last completed panic and is stale only for panics requested since
        its check; the same held of every state ever applied when it was applied, and every panic then outstanding
        was requested since the sender's pick; and no state or refresh was picked with a panic outstanding. */
    method Run(events: seq<Event>)
      requires Valid() && forall e :: e in events && e.BeginPublish? ==> Proper(e.notes)
      modifies this
      ensures Valid() && Grows(old(log), log, backend) && Remembers(history, old(history))
      ensures Exact(port, sent, Wire(log), DoubtOf(log))
      ensures var last := history.lastApplied;
              sent.at != map[] ==>
                && last.Some? && sent.at.Keys == last.value.notes.at.Keys
                && Current(last.value, history.requests, panicCompleted, history.lastCompletion)
      ensures AllCurrent(history.applied) && AllIdle(history.starts)
      ensures AllAbove(history.applied)
    {
      CurrentIsAbove(history.applied);
      for i := 0 to |events|
        invariant Valid() && Grows(old(log), log, backend) && Remembers(history, old(history))
        invariant AllAbove(history.applied)
      {
        assert events[i] in events;
        ghost var before := log;
        Handle(events[i]);
        GrowsFurther(old(log), before, log, backend);
        CurrentIsAbove(history.applied);
      }
    }

    /** One step of anybody. The sender's are the only ones that call the backend. */
    method Handle(e: Event)
      requires Valid() && (e.BeginPublish? ==> Proper(e.notes))
      modifies this
      ensures Valid() && Grows(old(log), log, backend) && Remembers(history, old(history))
      ensures !e.SenderStep? ==> log == old(log) && Record() == old(Record()) && panicCompleted == old(panicCompleted)
      ensures history ==
              if e.SenderStep? then Stepped(old(history), old(phase), phase, panicRequested, old(panicCompleted), now)
              else if e.RequestPanic? && !old(closing) && e.panicGeneration >= 0
              then Requested(old(history), phase, e.panicGeneration)
              else old(history)
    {
      if e.SenderStep? {
        Sender(e.refreshDue);
      } else {
        Call(e);
      }
    }

    /** One step of a caller's thread. */
    method Call(e: Event)
      requires Valid() && !e.SenderStep? && (e.BeginPublish? ==> Proper(e.notes))
      modifies this`publishing, this`pending, this`latest, this`dropped, this`now, this`watermark,
               this`panicRequested, this`refreshRequested, this`closing, this`history
      ensures Valid()
      ensures history == if e.RequestPanic? && !old(closing) && e.panicGeneration >= 0
                         then Requested(old(history), phase, e.panicGeneration) else old(history)
    {
      match e
      case BeginPublish(notes, configuration, generation) => var stale := CheckState(notes, configuration, generation);
      case EndPublish(index) =>
        if index < |publishing| {
          var raised := StoreState(index);
        }
      case RequestPanic(generation) => var raised := Panic(generation);
      case RefreshOutputs => var raised := RequestRefresh();
      case Close => CloseService();
    }
  }
}
