/** What an application leaves behind when one of its calls raises and every call of the recovery succeeds. */
module MidiRecovery {
  import opened Common
  import opened MidiState
  import opened MidiBackend
  import opened MidiDevice
  import opened MidiPanic
  import opened MidiApply

  /** Outside doubt nothing sounds, no channel has come into doubt, and nothing sounds on the channels in use. */
  ghost predicate Recovered(port: string, used: set<nat>, was: Log, now: Log) {
    && Quiet(now) && DoubtOf(now) <= DoubtOf(was)
    && OnlyOn(Sounding(Wire(now), port), used, {})
    && forall c :: c in used ==> (port, c) !in DoubtOf(now)
  }

  lemma FailureRecovers(port: string, m: Message, sent: Notes, used: set<nat>, was: Log, now: Log, backend: Backend)
    requires Tracked(Some(port), sent, used, was) && (m.AllNotesOff? ==> sent == NO_NOTES && used == {})
    requires Failed(port, m, sent, used, was, now, backend) && Faults(now) == Faults(was) + 1
    ensures Recovered(port, used + {ChannelOf(m)}, was, now)
  {
    FailureIsSettled(port, m, sent, used, was, now, backend);
  }

  lemma RecoveredSince(port: string, used: set<nat>, fewer: set<nat>, was: Log, between: Log, now: Log)
    requires Recovered(port, used, between, now) && DoubtOf(between) <= DoubtOf(was) && fewer <= used
    ensures Recovered(port, fewer, was, now)
  {
  }

  /* ---- messages that do not raise keep the record exact ---- */

  lemma {:induction false} OffsTracked(port: string, sent: Notes, used: set<nat>, was: Log, backend: Backend,
                                       keys: seq<Key>)
    requires Tracked(Some(port), sent, used, was)
    requires Faults(Sent(was, backend, NoteOffsTo(port, keys))) == Faults(was)
    ensures Tracked(Some(port), AllPopped(sent, keys), used, Sent(was, backend, NoteOffsTo(port, keys)))
  {
    if keys == [] {
      SentNothing(was, backend);
    } else {
      var n := |keys| - 1;
      var before := Sent(was, backend, NoteOffsTo(port, keys[..n]));
      var d := Delivery(port, NoteOff(keys[n]));
      SentOneMore(was, backend, NoteOffsTo(port, keys[..n]), d);
      AfterCall(before, Attempt(Send(d), backend(|before|)));
      GrowingLog(was, before);
      OffsTracked(port, sent, used, was, backend, keys[..n]);
      OffTracked(port, AllPopped(sent, keys[..n]), used, before, backend, keys[n]);
    }
  }

  lemma {:induction false} OnsTracked(port: string, sent: Notes, used: set<nat>, desired: Notes, was: Log,
                                      backend: Backend, keys: seq<Key>)
    requires Tracked(Some(port), sent, used, was) && Proper(desired) && forall k :: k in keys ==> k in desired.at
    requires Faults(Sent(was, backend, NoteOnsTo(port, keys, desired))) == Faults(was)
    ensures Tracked(Some(port), AllPut(sent, keys, desired), used + KeyChannels(keys),
                    Sent(was, backend, NoteOnsTo(port, keys, desired)))
  {
    if keys == [] {
      SentNothing(was, backend);
      assert used + KeyChannels(keys) == used;
    } else {
      var n := |keys| - 1;
      var before := Sent(was, backend, NoteOnsTo(port, keys[..n], desired));
      assert keys[n] in keys;
      var d := Delivery(port, NoteOn(keys[n], desired.at[keys[n]]));
      SentOneMore(was, backend, NoteOnsTo(port, keys[..n], desired), d);
      AfterCall(before, Attempt(Send(d), backend(|before|)));
      GrowingLog(was, before);
      OnsTracked(port, sent, used, desired, was, backend, keys[..n]);
      OneMoreOn(port, AllPut(sent, keys[..n], desired), used, keys, desired.at[keys[n]], before, backend);
    }
  }

  lemma OneMoreOn(port: string, sent: Notes, used: set<nat>, keys: seq<Key>, v: nat, log: Log, backend: Backend)
    requires keys != [] && v > 0 && !backend(|log|).raised
    requires Tracked(Some(port), sent, used + KeyChannels(keys[..|keys| - 1]), log)
    ensures var k := keys[|keys| - 1];
            Tracked(Some(port), Put(sent, k, v), used + KeyChannels(keys),
                    Asked(log, backend, Send(Delivery(port, NoteOn(k, v)))))
  {
    var n := |keys| - 1;
    OnTracked(port, sent, used + KeyChannels(keys[..n]), log, backend, keys[n], v);
    MoreChannels(used, keys);
  }

  lemma MoreChannels(used: set<nat>, keys: seq<Key>)
    requires keys != []
    ensures used + KeyChannels(keys) == used + KeyChannels(keys[..|keys| - 1]) + {keys[|keys| - 1].channel}
  {
    assert keys == keys[..|keys| - 1] + [keys[|keys| - 1]];
  }

  lemma {:induction false} ClearingStaysQuiet(port: string, was: Log, backend: Backend, cs: seq<nat>)
    requires Quiet(was)
    ensures Quiet(Sent(was, backend, AllOffsTo(port, cs)))
  {
    if cs == [] {
      SentNothing(was, backend);
    } else {
      var n := |cs| - 1;
      SentOneMore(was, backend, AllOffsTo(port, cs[..n]), Delivery(port, AllNotesOff(cs[n])));
      ClearingStaysQuiet(port, was, backend, cs[..n]);
      ClearedStaysQuiet(port, Sent(was, backend, AllOffsTo(port, cs[..n])), backend, cs[n]);
    }
  }

  /* ---- the ways an application breaks off ---- */

  lemma OffsRecover(port: string, keys: seq<Key>, sent: Notes, used: set<nat>, was: Log, now: Log, backend: Backend)
    requires Tracked(Some(port), sent, used, was) && OffsBroke(port, keys, sent, used, was, now, backend)
    requires Faults(now) == Faults(was) + 1
    ensures Recovered(port, used, was, now)
  {
    var n: nat :| OffBroke(port, keys, n, sent, used, was, now, backend);
    var between := Sent(was, backend, NoteOffsTo(port, keys[..n]));
    OffsTracked(port, sent, used, was, backend, keys[..n]);
    SentWithoutFault(was, backend, NoteOffsTo(port, keys[..n]));
    FailureRecovers(port, NoteOff(keys[n]), AllPopped(sent, keys[..n]), used, between, now, backend);
    RecoveredSince(port, used + {keys[n].channel}, used, was, between, now);
  }

  lemma OnsRecover(port: string, keys: seq<Key>, desired: Notes, sent: Notes, used: set<nat>, was: Log, now: Log,
                   backend: Backend)
    requires Tracked(Some(port), sent, used, was) && Proper(desired) && forall k :: k in keys ==> k in desired.at
    requires OnsBroke(port, keys, desired, sent, used, was, now, backend) && Faults(now) == Faults(was) + 1
    ensures Recovered(port, used, was, now)
  {
    var n: nat :| OnBroke(port, keys, desired, n, sent, used, was, now, backend);
    var between := Sent(was, backend, NoteOnsTo(port, keys[..n], desired));
    var sentBy, usedBy := AllPut(sent, keys[..n], desired), used + KeyChannels(keys[..n]);
    OnsTracked(port, sent, used, desired, was, backend, keys[..n]);
    SentWithoutFault(was, backend, NoteOnsTo(port, keys[..n], desired));
    FailureRecovers(port, NoteOn(keys[n], desired.at[keys[n]]), sentBy, usedBy, between, now, backend);
    RecoveredSince(port, usedBy + {keys[n].channel}, used, was, between, now);
  }

  lemma BreakRecovers(before: Held, desired: Notes, c: Configuration, was: Log, now: Log, backend: Backend)
    requires before.port.Some? && Tracked(before.port, before.sent, before.used, was) && Proper(desired)
    requires Broke(before, desired, c, was, now, backend) && Faults(now) == Faults(was) + 1
    ensures Recovered(before.port.value, before.used, was, now)
  {
    var offs, ons := NoteOffs(before.sent, desired, c), NoteOns(before.sent, desired, c);
    var port := before.port.value;
    if OffsBroke(port, offs, before.sent, before.used, was, now, backend) {
      OffsRecover(port, offs, before.sent, before.used, was, now, backend);
    } else {
      var between := Sent(was, backend, NoteOffsTo(port, offs));
      OffsTracked(port, before.sent, before.used, was, backend, offs);
      SentWithoutFault(was, backend, NoteOffsTo(port, offs));
      OnsRecover(port, ons, desired, AllPopped(before.sent, offs), before.used, between, now, backend);
      RecoveredSince(port, before.used, before.used, was, between, now);
    }
  }

  /** A port just opened is tracked from nothing, and no channel has come into doubt. */
  lemma OpenedIsTracked(name: string, channels: set<nat>, was: Log, now: Log, backend: Backend)
    requires Quiet(was) && Opened(name, channels, was, now, backend)
    ensures Tracked(Some(name), NO_NOTES, {}, now) && DoubtOf(now) <= DoubtOf(was)
  {
    var cs :| InOrder(channels, cs) && OpenedInOrder(name, cs, was, now, backend);
    var asked := Asked(was, backend, Open(name));
    OtherCall(was, backend, Open(name));
    GrowingLog(asked, now);
    SentWithoutFault(asked, backend, AllOffsTo(name, cs));
    ClearingStaysQuiet(name, asked, backend, cs);
    SilenceIsTracked(Some(name), now);
  }

  lemma OpeningRecovers(name: string, channels: set<nat>, was: Log, now: Log, backend: Backend)
    requires Quiet(was) && OpenBroke(name, channels, was, now, backend) && Faults(now) == Faults(was) + 1
    ensures Recovered(name, {}, was, now)
  {
    var asked := Asked(was, backend, Open(name));
    OtherCall(was, backend, Open(name));
    if !backend(|was|).raised {
      var cs, n: nat :| InOrder(channels, cs) && ClearBroke(name, cs, n, was, now, backend);
      var between := Sent(asked, backend, AllOffsTo(name, cs[..n]));
      SentWithoutFault(asked, backend, AllOffsTo(name, cs[..n]));
      ClearingStaysQuiet(name, asked, backend, cs[..n]);
      SilenceIsTracked(Some(name), between);
      FailureRecovers(name, AllNotesOff(cs[n]), NO_NOTES, {}, between, now, backend);
      RecoveredSince(name, {} + {cs[n]}, {}, was, between, now);
    }
  }

  lemma GivingUpRecovers(remaining: Held, name: string, desired: Notes, c: Configuration, left: Log, now: Log,
                         backend: Backend)
    requires Tracked(remaining.port, remaining.sent, remaining.used, left) && Proper(desired)
    requires GivenUp(remaining, name, true, desired, c, left, now, backend) && Faults(now) == Faults(left) + 1
    ensures Recovered(if remaining.port.Some? then remaining.port.value else name, remaining.used, left, now)
  {
    if remaining.port.Some? {
      BreakRecovers(remaining, desired, c, left, now, backend);
    } else {
      ClosedIsQuiet(remaining.sent, remaining.used, left);
      if OpenBroke(name, Channels(desired), left, now, backend) {
        OpeningRecovers(name, Channels(desired), left, now, backend);
      } else {
        var ready :| OpenedAndBroke(name, desired, c, left, ready, now, backend);
        OpenedGrows(name, Channels(desired), left, ready, backend);
        OpenedIsTracked(name, Channels(desired), left, ready, backend);
        BreakRecovers(NOTHING.(port := Some(name)), desired, c, ready, now, backend);
        RecoveredSince(name, {}, {}, left, ready, now);
      }
    }
  }

  /** A state is applied to a port that is open or listed, and of all its calls, those of the recovery included, only
      one raised, whether or not it arrived: if the state is given up for it, nothing sounds outside the doubt that
      there was before, and nothing at all on the channels in use. */
  lemma OneFaultIsRecovered(before: Held, name: string, listed: bool, desired: Notes, c: Configuration, after: Held,
                            was: Log, now: Log, backend: Backend)
    requires Tracked(before.port, before.sent, before.used, was) && Proper(desired)
    requires Outcome(before, name, listed, desired, c, false, after, was, now, backend)
    requires (before.port == Some(name) && c.outputPort != "") || (before.port.None? && listed)
    requires Faults(now) == Faults(was) + 1
    ensures Recovered(name, before.used, was, now)
  {
    assert Leaves(before, name, c.outputPort, was, was, backend);
    GivingUpRecovers(Remaining(before, name, c.outputPort), name, desired, c, was, now, backend);
  }
}
