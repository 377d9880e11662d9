/** What the session does to its port when it applies a state, call by call: leaving another port, opening the
    selected one, and reconciling; each with what is left behind when a call raises on the way. */
module MidiApply {
  import opened Common
  import opened MidiState
  import opened MidiBackend
  import opened MidiDevice
  import opened MidiPanic

  /** The session's record of its port. */
  datatype Held = Held(port: Option<string>, sent: Notes, used: set<nat>)

  const NOTHING := Held(None, NO_NOTES, {})

  function KeyChannels(keys: seq<Key>): set<nat> { set k | k in keys :: k.channel }

  /** What is recorded is told to stop, if a port is open. */
  ghost predicate Told(before: Held, was: Log, now: Log, backend: Backend) {
    if before.port.None? then now == was
    else
      && Panics(before.port.value, before.sent.at.Keys, before.used + Channels(before.sent), was, now, backend)
      && Settled(before.port.value, before.sent.at.Keys, before.used + Channels(before.sent), was, now)
  }

  function PortIds(entries: seq<(string, string)>): set<string> { set e | e in entries :: e.1 }

  /** The ports were asked for: those listed are known now, or none if that raised. */
  ghost predicate Refreshed(before: Held, entries: seq<(string, string)>, after: Held, was: Log, now: Log,
                            backend: Backend) {
    && entries == (if backend(|was|).raised then [] else backend(|was|).ports)
    && forall asked {:trigger Asks(was, asked, backend)} :: Asks(was, asked, backend) ==>
         KeptIfListed(before, entries, backend(|was|).raised, after, asked, now, backend)
  }

  predicate Asks(was: Log, asked: Log, backend: Backend) { asked == Asked(was, backend, List) }

  /** The open port stays open if it is listed, and is told to be silent and closed otherwise. */
  ghost predicate KeptIfListed(before: Held, entries: seq<(string, string)>, raised: bool, after: Held, asked: Log,
                               now: Log, backend: Backend) {
    if before.port.Some? && (raised || before.port.value !in PortIds(entries))
    then after == NOTHING && Told(before, asked, now, backend)
    else after == before && now == asked
  }

  /* ---- reconciling ---- */

  /** Every note-off and then every note-on went out, none raised, and what is recorded is the target. */
  ghost predicate Reached(before: Held, desired: Notes, c: Configuration, after: Held, was: Log, now: Log,
                          backend: Backend) {
    var offs, ons := NoteOffs(before.sent, desired, c), NoteOns(before.sent, desired, c);
    && before.port.Some? && after.port == before.port
    && after.sent.at == Target(before.sent, desired, c) && after.used == before.used + KeyChannels(ons)
    && (forall k :: k in ons ==> k in desired.at)
    && after.sent == AllPut(AllPopped(before.sent, offs), ons, desired)
    && now == Sent(was, backend, NoteOffsTo(before.port.value, offs) + NoteOnsTo(before.port.value, ons, desired))
    && Faults(now) == Faults(was)
  }

  /** The n-th note-off raised, the first to do so. */
  ghost predicate OffBroke(port: string, keys: seq<Key>, n: nat, sent: Notes, used: set<nat>, was: Log, now: Log,
                           backend: Backend) {
    && n < |keys|
    && var between := Sent(was, backend, NoteOffsTo(port, keys[..n]));
       && Faults(between) == Faults(was)
       && Failed(port, NoteOff(keys[n]), AllPopped(sent, keys[..n]), used, between, now, backend)
  }

  ghost predicate OffsBroke(port: string, keys: seq<Key>, sent: Notes, used: set<nat>, was: Log, now: Log,
                            backend: Backend) {
    exists n: nat :: OffBroke(port, keys, n, sent, used, was, now, backend)
  }

  ghost predicate OnBroke(port: string, keys: seq<Key>, desired: Notes, n: nat, sent: Notes, used: set<nat>, was: Log,
                          now: Log, backend: Backend)
    requires forall k :: k in keys ==> k in desired.at
  {
    && n < |keys|
    && var between := Sent(was, backend, NoteOnsTo(port, keys[..n], desired));
       && Faults(between) == Faults(was)
       && Failed(port, NoteOn(keys[n], desired.at[keys[n]]), AllPut(sent, keys[..n], desired),
                 used + KeyChannels(keys[..n]), between, now, backend)
  }

  ghost predicate OnsBroke(port: string, keys: seq<Key>, desired: Notes, sent: Notes, used: set<nat>, was: Log,
                           now: Log,
                           backend: Backend)
    requires forall k :: k in keys ==> k in desired.at
  {
    exists n: nat :: OnBroke(port, keys, desired, n, sent, used, was, now, backend)
  }

  /** Reconciling ended at the first message that raised, and the recovery followed. */
  ghost predicate Broke(before: Held, desired: Notes, c: Configuration, was: Log, now: Log, backend: Backend) {
    var offs, ons := NoteOffs(before.sent, desired, c), NoteOns(before.sent, desired, c);
    && before.port.Some? && (forall k :: k in ons ==> k in desired.at)
    && var between := Sent(was, backend, NoteOffsTo(before.port.value, offs));
       || OffsBroke(before.port.value, offs, before.sent, before.used, was, now, backend)
       || (Faults(between) == Faults(was)
           && OnsBroke(before.port.value, ons, desired, AllPopped(before.sent, offs), before.used, between, now,
                       backend))
  }

  /* ---- opening ---- */

  ghost predicate InOrder(channels: set<nat>, cs: seq<nat>) { Increasing(cs) && ChannelSet(cs) == channels }

  ghost predicate OpenedInOrder(name: string, cs: seq<nat>, was: Log, now: Log, backend: Backend) {
    now == Sent(Asked(was, backend, Open(name)), backend, AllOffsTo(name, cs))
  }

  /** The port ready and all notes off went out on the channels, and none raised. */
  ghost predicate Opened(name: string, channels: set<nat>, was: Log, now: Log, backend: Backend) {
    && Faults(now) == Faults(was)
    && exists cs :: InOrder(channels, cs) && OpenedInOrder(name, cs, was, now, backend)
  }

  ghost predicate ClearBroke(name: string, cs: seq<nat>, n: nat, was: Log, now: Log, backend: Backend) {
    && n < |cs|
    && var between := Sent(Asked(was, backend, Open(name)), backend, AllOffsTo(name, cs[..n]));
       && Faults(between) == Faults(was)
       && Failed(name, AllNotesOff(cs[n]), NO_NOTES, {}, between, now, backend)
  }

  /** Opening raised, or the first all-notes-off to raise was followed by the recovery. */
  ghost predicate OpenBroke(name: string, channels: set<nat>, was: Log, now: Log, backend: Backend) {
    if backend(|was|).raised then now == Asked(was, backend, Open(name))
    else exists cs, n: nat :: InOrder(channels, cs) && ClearBroke(name, cs, n, was, now, backend)
  }

  /* ---- applying ---- */

  predicate Stays(port: Option<string>, name: string, selected: string) {
    port.None? || (port.value == name && selected != "")
  }

  /** An open port that is not the selected one is told to be silent. */
  ghost predicate Leaves(before: Held, name: string, selected: string, was: Log, left: Log, backend: Backend) {
    if Stays(before.port, name, selected) then left == was else Told(before, was, left, backend)
  }

  function Remaining(before: Held, name: string, selected: string): Held {
    if before.port.Some? && Stays(before.port, name, selected) then before else NOTHING
  }

  ghost predicate OpenedAndReached(name: string, desired: Notes, c: Configuration, after: Held, left: Log, ready: Log,
                                   now: Log, backend: Backend) {
    && Opened(name, Channels(desired), left, ready, backend)
    && Reached(NOTHING.(port := Some(name)), desired, c, after, ready, now, backend)
  }

  /** From what remained of the port, the selected port was brought to the target. */
  ghost predicate Brought(remaining: Held, name: string, desired: Notes, c: Configuration, after: Held, left: Log,
                          now: Log, backend: Backend) {
    if remaining.port.Some? then Reached(remaining, desired, c, after, left, now, backend)
    else exists ready :: OpenedAndReached(name, desired, c, after, left, ready, now, backend)
  }

  ghost predicate OpenedAndBroke(name: string, desired: Notes, c: Configuration, left: Log, ready: Log, now: Log,
                                 backend: Backend) {
    && Opened(name, Channels(desired), left, ready, backend)
    && Broke(NOTHING.(port := Some(name)), desired, c, ready, now, backend)
  }

  /** No port was to be had, or a call raised and the recovery followed. */
  ghost predicate GivenUp(remaining: Held, name: string, listed: bool, desired: Notes, c: Configuration, left: Log,
                          now: Log, backend: Backend) {
    if remaining.port.Some? then Broke(remaining, desired, c, left, now, backend)
    else if !listed then now == left
    else
      || OpenBroke(name, Channels(desired), left, now, backend)
      || exists ready :: OpenedAndBroke(name, desired, c, left, ready, now, backend)
  }

  /** One application of a state, call by call: from wherever leaving another port led, and it leads to one log.
      `name` is the port the configuration selects, and `listed` whether there is one. */
  ghost predicate Outcome(before: Held, name: string, listed: bool, desired: Notes, c: Configuration, ok: bool,
                          after: Held, was: Log, now: Log, backend: Backend) {
    forall left {:trigger Leaves(before, name, c.outputPort, was, left, backend)} ::
      Leaves(before, name, c.outputPort, was, left, backend) ==>
        OutcomeFrom(Remaining(before, name, c.outputPort), name, listed, desired, c, ok, after, left, now, backend)
  }

  ghost predicate OutcomeFrom(remaining: Held, name: string, listed: bool, desired: Notes, c: Configuration, ok: bool,
                              after: Held, left: Log, now: Log, backend: Backend) {
    && (ok ==> (remaining.port.Some? || listed) && Brought(remaining, name, desired, c, after, left, now, backend))
    && (!ok ==> after == NOTHING && GivenUp(remaining, name, listed, desired, c, left, now, backend))
  }

  lemma LeavesOnce(before: Held, name: string, selected: string, was: Log, left: Log, other: Log, backend: Backend)
    requires Leaves(before, name, selected, was, left, backend) && Leaves(before, name, selected, was, other, backend)
    ensures left == other
  {
    if !Stays(before.port, name, selected) {
      var ks := KeysAreListed(before.sent.at.Keys);
      var cs := ChannelsAreListed(before.used + Channels(before.sent));
      assert InTurn(before.sent.at.Keys, before.used + Channels(before.sent), ks, cs);
    }
  }

  lemma LeavesSomewhere(before: Held, name: string, selected: string, was: Log, backend: Backend) returns (left: Log)
    ensures Leaves(before, name, selected, was, left, backend)
  {
    if Stays(before.port, name, selected) {
      left := was;
    } else {
      var keys, channels := before.sent.at.Keys, before.used + Channels(before.sent);
      var ks := KeysAreListed(keys);
      var cs := ChannelsAreListed(channels);
      left := Sent(was, backend, PanicMessages(before.port.value, ks, cs));
      PanicsAsListed(before.port.value, keys, channels, was, backend, ks, cs);
      PanicSettles(before.port.value, keys, channels, was, left, backend);
    }
  }

  lemma OutcomeAsLeft(before: Held, name: string, listed: bool, desired: Notes, c: Configuration, ok: bool, after: Held,
                      was: Log, left: Log, now: Log, backend: Backend)
    ensures Leaves(before, name, c.outputPort, was, left, backend) &&
            OutcomeFrom(Remaining(before, name, c.outputPort), name, listed, desired, c, ok, after, left, now,
                        backend) ==>
              Outcome(before, name, listed, desired, c, ok, after, was, now, backend)
  {
    if Leaves(before, name, c.outputPort, was, left, backend) {
      forall other | Leaves(before, name, c.outputPort, was, other, backend) ensures other == left {
        LeavesOnce(before, name, c.outputPort, was, left, other, backend);
      }
    }
  }

  /* ---- what every outcome keeps ---- */

  lemma ToldGrows(before: Held, was: Log, now: Log, backend: Backend)
    requires Told(before, was, now, backend)
    ensures Grows(was, now, backend) && Faults(was) <= Faults(now)
  {
    if before.port.Some? {
      PanicSettles(before.port.value, before.sent.at.Keys, before.used + Channels(before.sent), was, now, backend);
      GrowingLog(was, now);
    }
  }

  lemma RefreshGrows(before: Held, entries: seq<(string, string)>, after: Held, was: Log, now: Log, backend: Backend)
    requires Refreshed(before, entries, after, was, now, backend)
    ensures Grows(was, now, backend) && (after == before || after == NOTHING)
    ensures before == NOTHING ==> after == NOTHING && now == Asked(was, backend, List)
  {
    var asked := Asked(was, backend, List);
    assert Asks(was, asked, backend);
    AskedGrows(was, backend, List);
    if now != asked {
      ToldGrows(before, asked, now, backend);
      GrowsFurther(was, asked, now, backend);
    }
  }

  /** A failure adds at least the fault that caused it. */
  lemma FailedGrows(port: string, m: Message, sent: Notes, used: set<nat>, was: Log, now: Log, backend: Backend)
    requires Failed(port, m, sent, used, was, now, backend)
    ensures Grows(was, now, backend) && Faults(was) < Faults(now)
  {
    var call := Send(Delivery(port, m));
    var after := Asked(was, backend, call);
    AskedGrows(was, backend, call);
    AfterCall(was, Attempt(call, backend(|was|)));
    PanicSettles(port, sent.at.Keys, used + Channels(sent) + {ChannelOf(m)}, after, now, backend);
    GrowsFurther(was, after, now, backend);
    GrowingLog(after, now);
  }

  lemma ReachedGrows(before: Held, desired: Notes, c: Configuration, after: Held, was: Log, now: Log, backend: Backend)
    requires Reached(before, desired, c, after, was, now, backend)
    ensures Grows(was, now, backend) && Faults(now) == Faults(was) && after.sent.at.Keys == desired.at.Keys
  {
    var offs, ons := NoteOffs(before.sent, desired, c), NoteOns(before.sent, desired, c);
    SentGrows(was, backend, NoteOffsTo(before.port.value, offs) + NoteOnsTo(before.port.value, ons, desired));
  }

  lemma OffsBrokeGrows(port: string, keys: seq<Key>, sent: Notes, used: set<nat>, was: Log, now: Log, backend: Backend)
    requires OffsBroke(port, keys, sent, used, was, now, backend)
    ensures Grows(was, now, backend) && Faults(was) < Faults(now)
  {
    var n: nat :| OffBroke(port, keys, n, sent, used, was, now, backend);
    var between := Sent(was, backend, NoteOffsTo(port, keys[..n]));
    SentGrows(was, backend, NoteOffsTo(port, keys[..n]));
    FailedGrows(port, NoteOff(keys[n]), AllPopped(sent, keys[..n]), used, between, now, backend);
    GrowsFurther(was, between, now, backend);
  }

  lemma OnsBrokeGrows(port: string, keys: seq<Key>, desired: Notes, sent: Notes, used: set<nat>, was: Log, now: Log,
                      backend: Backend)
    requires forall k :: k in keys ==> k in desired.at
    requires OnsBroke(port, keys, desired, sent, used, was, now, backend)
    ensures Grows(was, now, backend) && Faults(was) < Faults(now)
  {
    var n: nat :| OnBroke(port, keys, desired, n, sent, used, was, now, backend);
    var between := Sent(was, backend, NoteOnsTo(port, keys[..n], desired));
    SentGrows(was, backend, NoteOnsTo(port, keys[..n], desired));
    FailedGrows(port, NoteOn(keys[n], desired.at[keys[n]]), AllPut(sent, keys[..n], desired),
                used + KeyChannels(keys[..n]), between, now, backend);
    GrowsFurther(was, between, now, backend);
  }

  lemma BrokeGrows(before: Held, desired: Notes, c: Configuration, was: Log, now: Log, backend: Backend)
    requires Broke(before, desired, c, was, now, backend)
    ensures Grows(was, now, backend) && Faults(was) < Faults(now)
  {
    var offs, ons := NoteOffs(before.sent, desired, c), NoteOns(before.sent, desired, c);
    var port := before.port.value;
    if OffsBroke(port, offs, before.sent, before.used, was, now, backend) {
      OffsBrokeGrows(port, offs, before.sent, before.used, was, now, backend);
    } else {
      var between := Sent(was, backend, NoteOffsTo(port, offs));
      SentGrows(was, backend, NoteOffsTo(port, offs));
      OnsBrokeGrows(port, ons, desired, AllPopped(before.sent, offs), before.used, between, now, backend);
      GrowsFurther(was, between, now, backend);
    }
  }

  lemma OpenedGrows(name: string, channels: set<nat>, was: Log, now: Log, backend: Backend)
    requires Opened(name, channels, was, now, backend)
    ensures Grows(was, now, backend) && Faults(now) == Faults(was)
  {
    var cs :| InOrder(channels, cs) && OpenedInOrder(name, cs, was, now, backend);
    var asked := Asked(was, backend, Open(name));
    AskedGrows(was, backend, Open(name));
    SentGrows(asked, backend, AllOffsTo(name, cs));
    GrowsFurther(was, asked, now, backend);
  }

  lemma OpenBrokeGrows(name: string, channels: set<nat>, was: Log, now: Log, backend: Backend)
    requires OpenBroke(name, channels, was, now, backend)
    ensures Grows(was, now, backend) && Faults(was) < Faults(now)
  {
    var asked := Asked(was, backend, Open(name));
    AskedGrows(was, backend, Open(name));
    OtherCall(was, backend, Open(name));
    if !backend(|was|).raised {
      var cs, n: nat :| InOrder(channels, cs) && ClearBroke(name, cs, n, was, now, backend);
      var between := Sent(asked, backend, AllOffsTo(name, cs[..n]));
      SentGrows(asked, backend, AllOffsTo(name, cs[..n]));
      FailedGrows(name, AllNotesOff(cs[n]), NO_NOTES, {}, between, now, backend);
      GrowsFurther(was, asked, between, backend);
      GrowsFurther(was, between, now, backend);
    }
  }

  lemma BroughtGrows(remaining: Held, name: string, desired: Notes, c: Configuration, after: Held, left: Log, now: Log,
                     backend: Backend)
    requires Brought(remaining, name, desired, c, after, left, now, backend)
    ensures Grows(left, now, backend) && Faults(now) == Faults(left)
    ensures after.sent.at.Keys == desired.at.Keys
    ensures after.port == if remaining.port.Some? then remaining.port else Some(name)
  {
    if remaining.port.Some? {
      ReachedGrows(remaining, desired, c, after, left, now, backend);
    } else {
      var ready :| OpenedAndReached(name, desired, c, after, left, ready, now, backend);
      OpenedGrows(name, Channels(desired), left, ready, backend);
      ReachedGrows(NOTHING.(port := Some(name)), desired, c, after, ready, now, backend);
      GrowsFurther(left, ready, now, backend);
    }
  }

  lemma GivenUpGrows(remaining: Held, name: string, listed: bool, desired: Notes, c: Configuration, left: Log, now: Log,
                     backend: Backend)
    requires GivenUp(remaining, name, listed, desired, c, left, now, backend)
    ensures Grows(left, now, backend) && Faults(left) <= Faults(now)
    ensures remaining.port.Some? || listed ==> Faults(left) < Faults(now)
  {
    if remaining.port.Some? {
      BrokeGrows(remaining, desired, c, left, now, backend);
    } else if listed {
      if OpenBroke(name, Channels(desired), left, now, backend) {
        OpenBrokeGrows(name, Channels(desired), left, now, backend);
      } else {
        var ready :| OpenedAndBroke(name, desired, c, left, ready, now, backend);
        OpenedGrows(name, Channels(desired), left, ready, backend);
        BrokeGrows(NOTHING.(port := Some(name)), desired, c, ready, now, backend);
        GrowsFurther(left, ready, now, backend);
      }
    }
  }

  /** An application only adds to the log. It ends with the selected port holding exactly the desired keys or with no
      port; and if no call raised, with the first exactly if that port was open already or is listed. */
  lemma OutcomeHolds(before: Held, name: string, listed: bool, desired: Notes, c: Configuration, ok: bool, after: Held,
                     was: Log, now: Log, backend: Backend)
    requires Outcome(before, name, listed, desired, c, ok, after, was, now, backend)
    ensures Grows(was, now, backend) && Faults(was) <= Faults(now)
    ensures ok ==> after.port == Some(name) && after.sent.at.Keys == desired.at.Keys
    ensures !ok ==> after == NOTHING
    ensures Faults(now) == Faults(was) ==> (ok <==> Remaining(before, name, c.outputPort).port.Some? || listed)
  {
    var left := LeavesSomewhere(before, name, c.outputPort, was, backend);
    var remaining := Remaining(before, name, c.outputPort);
    if left != was {
      ToldGrows(before, was, left, backend);
    }
    if ok {
      BroughtGrows(remaining, name, desired, c, after, left, now, backend);
    } else {
      GivenUpGrows(remaining, name, listed, desired, c, left, now, backend);
    }
    GrowsFurther(was, left, now, backend);
  }
}
