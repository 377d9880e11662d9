/** A panic as the session sends it, whichever of its sends raise: what it leaves sounding and in doubt. */
module MidiPanic {
  import opened Common
  import opened MidiState
  import opened MidiBackend
  import opened MidiDevice

  /* ---- the state of the device, by the log ---- */

  /** The record is what the device sounds, outside doubt. */
  ghost predicate Tracked(port: Option<string>, sent: Notes, used: set<nat>, log: Log) {
    DeviceOk(port, sent, used, Wire(log), DoubtOf(log))
  }

  ghost predicate Within(port: string, channels: set<nat>, log: Log) {
    Confined(port, channels, Wire(log), DoubtOf(log))
  }

  ghost predicate Quiet(log: Log) { Silent(Wire(log), DoubtOf(log)) }

  lemma SilenceIsTracked(port: Option<string>, log: Log)
    requires Quiet(log)
    ensures Tracked(port, NO_NOTES, {}, log)
  {
    SilentDeviceOk(port, Wire(log), DoubtOf(log));
  }

  lemma ClosedIsQuiet(sent: Notes, used: set<nat>, log: Log)
    requires Tracked(None, sent, used, log)
    ensures Quiet(log)
  {
    DeviceConfined(None, sent, used, {}, Wire(log), DoubtOf(log));
  }

  /** Opening and listing change nothing that sounds. */
  lemma OtherCall(log: Log, backend: Backend, call: Call)
    requires !call.Send?
    ensures Wire(Asked(log, backend, call)) == Wire(log) && DoubtOf(Asked(log, backend, call)) == DoubtOf(log)
    ensures Faults(Asked(log, backend, call)) == Faults(log) + if backend(|log|).raised then 1 else 0
  {
    AfterCall(log, Attempt(call, backend(|log|)));
  }

  lemma OffTracked(port: string, sent: Notes, used: set<nat>, log: Log, backend: Backend, k: Key)
    ensures Tracked(Some(port), sent, used, log) && !backend(|log|).raised ==>
              Tracked(Some(port), Popped(sent, k), used, Asked(log, backend, Send(Delivery(port, NoteOff(k)))))
  {
    AfterCall(log, Attempt(Send(Delivery(port, NoteOff(k))), backend(|log|)));
    if Tracked(Some(port), sent, used, log) {
      OffStep(port, sent, used, Wire(log), DoubtOf(log), k);
    }
  }

  lemma OnTracked(port: string, sent: Notes, used: set<nat>, log: Log, backend: Backend, k: Key, v: nat)
    ensures Tracked(Some(port), sent, used, log) && !backend(|log|).raised && v > 0 ==>
              Tracked(Some(port), Put(sent, k, v), used + {k.channel},
                      Asked(log, backend, Send(Delivery(port, NoteOn(k, v)))))
  {
    AfterCall(log, Attempt(Send(Delivery(port, NoteOn(k, v))), backend(|log|)));
    if Tracked(Some(port), sent, used, log) && v > 0 {
      OnStep(port, sent, used, Wire(log), DoubtOf(log), k, v);
    }
  }

  function ChannelOf(m: Message): nat { if m.AllNotesOff? then m.channel else m.key.channel }

  /** Whatever came of a message to a device, only its own channel joins those that may sound. */
  lemma SendWithin(port: string, sent: Notes, used: set<nat>, log: Log, backend: Backend, m: Message)
    requires Tracked(Some(port), sent, used, log) && (m.AllNotesOff? ==> sent == NO_NOTES && used == {})
    ensures Within(port, used + Channels(sent) + {ChannelOf(m)}, Asked(log, backend, Send(Delivery(port, m))))
  {
    var a := Attempt(Send(Delivery(port, m)), backend(|log|));
    AfterCall(log, a);
    if m.AllNotesOff? {
      DeviceConfined(Some(port), sent, used, {m.channel}, Wire(log), DoubtOf(log));
      AllOffConfined(port, used + Channels(sent) + {m.channel}, Wire(log), DoubtOf(log), m.channel, Wire(log + [a]));
      MoreConfined(port, used + Channels(sent) + {m.channel}, m.channel, Wire(log + [a]), DoubtOf(log + [a]));
    } else {
      DoubtfulStep(port, sent, used, Wire(log), DoubtOf(log), m, Wire(log + [a]));
    }
  }

  lemma MoreConfined(port: string, channels: set<nat>, c: nat, wire: seq<Delivery>, doubt: Doubt)
    requires Confined(port, channels - {c}, wire, doubt)
    ensures Confined(port, channels, wire, doubt)
  {
    forall q, k ensures ConfinedAt(port, channels, wire, doubt, q, k) {
      assert ConfinedAt(port, channels - {c}, wire, doubt, q, k);
    }
  }

  /** All notes off on a fresh port. */
  lemma ClearedStaysQuiet(port: string, log: Log, backend: Backend, c: nat)
    requires Quiet(log)
    ensures Quiet(Asked(log, backend, Send(Delivery(port, AllNotesOff(c)))))
  {
    var a := Attempt(Send(Delivery(port, AllNotesOff(c))), backend(|log|));
    AfterCall(log, a);
    AllOffOnSilence(port, Wire(log), DoubtOf(log), c, Wire(log + [a]));
    if backend(|log|).raised {
      MoreDoubt(Wire(log + [a]), DoubtOf(log), (port, c));
    } else {
      assert Wire(log + [a]) != Wire(log);
    }
  }

  lemma MoreDoubt(wire: seq<Delivery>, doubt: Doubt, pair: (string, nat))
    requires Silent(wire, doubt)
    ensures Silent(wire, doubt + {pair})
  {
    forall q, k ensures SilentAt(wire, doubt + {pair}, q, k) {
      assert SilentAt(wire, doubt, q, k);
    }
  }

  /* ---- a panic ---- */

  predicate KeyBefore(a: Key, b: Key) { a.channel < b.channel || (a.channel == b.channel && a.note < b.note) }

  /** By channel, and on one channel by note. */
  ghost predicate KeysInOrder(keys: seq<Key>) {
    forall i, j :: 0 <= i < j < |keys| ==>
      keys[i].channel < keys[j].channel || (keys[i].channel == keys[j].channel && keys[i].note < keys[j].note)
  }

  method FirstKey(s: set<Key>) returns (k: Key)
    requires s != {}
    ensures k in s && forall x :: x in s && x != k ==> KeyBefore(k, x)
  {
    k :| k in s;
    var rest := s - {k};
    while rest != {}
      invariant k in s && rest <= s && forall x :: x in s && x != k ==> x in rest || KeyBefore(k, x)
      decreases rest
    {
      var x :| x in rest;
      if KeyBefore(x, k) {
        k := x;
      }
      rest := rest - {x};
    }
  }

  /** `sorted(keys)`. */
  method SortKeys(s: set<Key>) returns (r: seq<Key>)
    ensures KeysInOrder(r) && KeySet(r) == s
  {
    r := [];
    var rest := s;
    while rest != {}
      invariant rest <= s && KeysInOrder(r)
      invariant forall x :: x in s <==> x in r || x in rest
      invariant forall i, x :: 0 <= i < |r| && x in rest ==> KeyBefore(r[i], x)
      decreases rest
    {
      var k := FirstKey(rest);
      r := r + [k];
      rest := rest - {k};
    }
  }

  /** Note-offs for the keys and all notes off on the channels, each in order. */
  function PanicMessages(port: string, keys: seq<Key>, channels: seq<nat>): seq<Delivery> {
    NoteOffsTo(port, keys) + AllOffsTo(port, channels)
  }

  /** The keys and channels as they are told, in order; there is exactly one such listing. */
  ghost predicate InTurn(keys: set<Key>, channels: set<nat>, ks: seq<Key>, cs: seq<nat>) {
    KeysInOrder(ks) && KeySet(ks) == keys && Increasing(cs) && ChannelSet(cs) == channels
  }

  /** Exactly a panic for these keys and channels was sent, whatever came of it. */
  ghost predicate Panics(port: string, keys: set<Key>, channels: set<nat>, was: Log, now: Log, backend: Backend) {
    forall ks, cs {:trigger InTurn(keys, channels, ks, cs)} ::
      InTurn(keys, channels, ks, cs) ==> now == Sent(was, backend, PanicMessages(port, ks, cs))
  }

  lemma FirstIsThere(ks: seq<Key>, cs: seq<nat>)
    ensures ks != [] ==> ks[0] in KeySet(ks)
    ensures cs != [] ==> cs[0] in ChannelSet(cs)
  {
  }

  lemma {:induction false} OneKeyOrder(a: seq<Key>, b: seq<Key>)
    requires KeysInOrder(a) && KeysInOrder(b) && KeySet(a) == KeySet(b)
    ensures a == b
  {
    if a == [] || b == [] {
      FirstIsThere(a, []);
      FirstIsThere(b, []);
    } else {
      assert a[0] in KeySet(a) && a[0] in b && b[0] in KeySet(b) && b[0] in a;
      assert a[0] == b[0];
      var restA, restB := a[1..], b[1..];
      forall k ensures k in KeySet(restA) <==> k in KeySet(restB) {
        assert k in restA <==> k in a && k != a[0];
        assert k in restB <==> k in b && k != b[0];
        assert k in a <==> k in KeySet(a);
        assert k in b <==> k in KeySet(b);
      }
      OneKeyOrder(restA, restB);
      assert a == [a[0]] + restA && b == [b[0]] + restB;
    }
  }

  lemma {:induction false} OneIdOrder(a: seq<nat>, b: seq<nat>)
    requires Increasing(a) && Increasing(b) && ChannelSet(a) == ChannelSet(b)
    ensures a == b
  {
    if a == [] || b == [] {
      FirstIsThere([], a);
      FirstIsThere([], b);
    } else {
      assert a[0] in ChannelSet(a) && a[0] in b && b[0] in ChannelSet(b) && b[0] in a;
      assert a[0] == b[0];
      var restA, restB := a[1..], b[1..];
      forall k ensures k in ChannelSet(restA) <==> k in ChannelSet(restB) {
        assert k in restA <==> k in a && k != a[0];
        assert k in restB <==> k in b && k != b[0];
        assert k in a <==> k in ChannelSet(a);
        assert k in b <==> k in ChannelSet(b);
      }
      OneIdOrder(restA, restB);
      assert a == [a[0]] + restA && b == [b[0]] + restB;
    }
  }

  lemma PanicsAsListed(port: string, keys: set<Key>, channels: set<nat>, was: Log, backend: Backend, ks: seq<Key>,
                       cs: seq<nat>)
    requires InTurn(keys, channels, ks, cs)
    ensures Panics(port, keys, channels, was, Sent(was, backend, PanicMessages(port, ks, cs)), backend)
  {
    forall ks', cs' | InTurn(keys, channels, ks', cs') ensures ks' == ks && cs' == cs {
      OneKeyOrder(ks, ks');
      OneIdOrder(cs, cs');
    }
  }

  lemma {:induction false} KeysAreListed(keys: set<Key>) returns (ks: seq<Key>)
    ensures KeysInOrder(ks) && KeySet(ks) == keys
    decreases keys
  {
    if keys == {} {
      ks := [];
    } else {
      var k := FirstKeyOf(keys);
      var rest := KeysAreListed(keys - {k});
      ks := [k] + rest;
      assert forall x :: x in rest <==> x in KeySet(rest);
      forall i | 0 <= i < |rest| ensures KeyBefore(k, rest[i]) { assert rest[i] in KeySet(rest) && rest[i] != k; }
      assert forall x :: x in ks <==> x == k || x in rest;
    }
  }

  lemma {:induction false} FirstKeyOf(keys: set<Key>) returns (k: Key)
    requires keys != {}
    ensures k in keys && forall x :: x in keys && x != k ==> KeyBefore(k, x)
    decreases keys
  {
    var first :| first in keys;
    k := first;
    var rest := keys - {first};
    if rest != {} {
      var least := FirstKeyOf(rest);
      k := if KeyBefore(least, first) then least else first;
    }
    forall x | x in keys && x != k ensures KeyBefore(k, x) {
      assert x == first || x in rest;
    }
  }

  lemma {:induction false} ChannelsAreListed(channels: set<nat>) returns (cs: seq<nat>)
    ensures Increasing(cs) && ChannelSet(cs) == channels
    decreases channels
  {
    if channels == {} {
      cs := [];
    } else {
      var c := FirstChannelOf(channels);
      var rest := ChannelsAreListed(channels - {c});
      cs := [c] + rest;
      assert forall x :: x in rest <==> x in ChannelSet(rest);
      forall i | 0 <= i < |rest| ensures c < rest[i] { assert rest[i] in ChannelSet(rest) && rest[i] != c; }
      assert forall x :: x in cs <==> x == c || x in rest;
    }
  }

  lemma {:induction false} FirstChannelOf(channels: set<nat>) returns (c: nat)
    requires channels != {}
    ensures c in channels && forall x :: x in channels ==> c <= x
    decreases channels
  {
    var first :| first in channels;
    c := first;
    var rest := channels - {first};
    if rest != {} {
      var least := FirstChannelOf(rest);
      c := if least < first then least else first;
    }
    forall x | x in channels ensures c <= x {
      assert x == first || x in rest;
    }
  }

  /** What a panic does, whichever of its sends raise: of the told channels exactly those whose all-notes-off raised
      are in doubt, nothing sounds on the others, and nothing else changed but by stopping. If none raised exactly
      the told keys and channels stopped. */
  ghost predicate Settled(port: string, keys: set<Key>, told: set<nat>, was: Log, now: Log) {
    && DoubtOf(now) == Doubted(DoubtOf(was), port, told, RaisedSince(port, was, now))
    && RaisedSince(port, was, now) <= told
    && Hushed(port, told, RaisedSince(port, was, now), was, now)
    && (Faults(now) == Faults(was) ==>
          && RaisedSince(port, was, now) == {}
          && Sounding(Wire(now), port) == Left(Sounding(Wire(was), port), keys, told))
  }

  /** Nothing sounds that did not, and on the told channels nothing but where it raised. */
  ghost predicate Hushed(port: string, told: set<nat>, raised: set<nat>, was: Log, now: Log) {
    && (forall q {:trigger FewerAt(Wire(was), Wire(now), q)} :: FewerAt(Wire(was), Wire(now), q))
    && OnlyOn(Sounding(Wire(now), port), told, raised)
  }

  predicate FewerAt(was: seq<Delivery>, now: seq<Delivery>, q: string) { Sounding(now, q) <= Sounding(was, q) }

  predicate OnlyOn(sounding: set<Key>, told: set<nat>, raised: set<nat>) {
    forall k :: k in sounding && k.channel in told ==> k.channel in raised
  }

  lemma FewerAfter(wire: seq<Delivery>, d: Delivery, q: string)
    requires !d.message.NoteOn?
    ensures FewerAt(wire, wire + [d], q)
    ensures d.message.AllNotesOff? ==> OnlyOn(Sounding(wire + [d], d.port), {d.message.channel}, {})
  {
    SoundingAfter(wire, d, q);
    SoundingAfter(wire, d, d.port);
  }

  lemma {:induction false} OffsSettle(port: string, channels: set<nat>, was: Log, backend: Backend, ks: seq<Key>)
    ensures var now := Sent(was, backend, NoteOffsTo(port, ks));
            && DoubtOf(now) == DoubtOf(was) && RaisedSince(port, was, now) == {}
            && Hushed(port, {}, {}, was, now)
            && (Within(port, channels, was) ==> Within(port, channels, now))
  {
    if ks == [] {
      SentNothing(was, backend);
    } else {
      var front, last := ks[..|ks| - 1], ks[|ks| - 1];
      var before := Sent(was, backend, NoteOffsTo(port, front));
      var d := Delivery(port, NoteOff(last));
      OffsSettle(port, channels, was, backend, front);
      SentOneMore(was, backend, NoteOffsTo(port, front), d);
      var a := Attempt(Send(d), backend(|before|));
      OffSettles(port, channels, before, a, last);
      RaisedOneMore(port, was, before, a);
      HushedTwice(port, {}, {}, {}, {}, was, before, before + [a]);
    }
  }

  lemma OffSettles(port: string, channels: set<nat>, log: Log, a: Attempt, k: Key)
    requires a.call == Send(Delivery(port, NoteOff(k)))
    ensures DoubtOf(log + [a]) == DoubtOf(log) && Hushed(port, {}, {}, log, log + [a])
    ensures Within(port, channels, log) ==> Within(port, channels, log + [a])
  {
    AfterCall(log, a);
    if Within(port, channels, log) {
      OffConfined(port, channels, Wire(log), DoubtOf(log), k, Wire(log + [a]));
    }
    forall q ensures FewerAt(Wire(log), Wire(log + [a]), q) {
      FewerAfter(Wire(log), a.call.delivery, q);
    }
  }

  lemma AllOffSettles(port: string, channels: set<nat>, log: Log, a: Attempt, c: nat)
    requires a.call == Send(Delivery(port, AllNotesOff(c)))
    ensures DoubtOf(log + [a]) == if a.answer.raised then DoubtOf(log) + {(port, c)} else DoubtOf(log) - {(port, c)}
    ensures Hushed(port, {c}, if a.answer.raised then {c} else {}, log, log + [a])
    ensures Within(port, channels, log) ==> Within(port, channels - {c}, log + [a])
  {
    AfterCall(log, a);
    if Within(port, channels, log) {
      AllOffConfined(port, channels, Wire(log), DoubtOf(log), c, Wire(log + [a]));
    }
    forall q ensures FewerAt(Wire(log), Wire(log + [a]), q) {
      FewerAfter(Wire(log), a.call.delivery, q);
    }
    FewerAfter(Wire(log), a.call.delivery, port);
  }

  /** All notes off went out on the told channels. */
  ghost predicate Cleared(port: string, channels: set<nat>, told: set<nat>, was: Log, now: Log) {
    && was <= now
    && DoubtOf(now) == Doubted(DoubtOf(was), port, told, RaisedSince(port, was, now))
    && RaisedSince(port, was, now) <= told
    && Hushed(port, told, RaisedSince(port, was, now), was, now)
    && (Within(port, channels, was) ==> Within(port, channels - told, now))
  }

  lemma ClearedOneMore(port: string, channels: set<nat>, told: set<nat>, was: Log, now: Log, a: Attempt, c: nat)
    requires Cleared(port, channels, told, was, now) && a.call == Send(Delivery(port, AllNotesOff(c))) && c !in told
    ensures Cleared(port, channels, told + {c}, was, now + [a])
  {
    AllOffSettles(port, channels - told, now, a, c);
    RaisedOneMore(port, was, now, a);
    assert channels - (told + {c}) == channels - told - {c};
    DoubtedOneMore(DoubtOf(was), port, told, RaisedSince(port, was, now), c);
    HushedTwice(port, told, RaisedSince(port, was, now), {c}, if a.answer.raised then {c} else {}, was, now, now + [a]);
  }

  lemma {:induction false} AllOffsSettle(port: string, channels: set<nat>, was: Log, backend: Backend, cs: seq<nat>)
    requires Increasing(cs)
    ensures Cleared(port, channels, ChannelSet(cs), was, Sent(was, backend, AllOffsTo(port, cs)))
  {
    if cs == [] {
      SentNothing(was, backend);
      assert channels - ChannelSet(cs) == channels;
    } else {
      var front, c := cs[..|cs| - 1], cs[|cs| - 1];
      var before := Sent(was, backend, AllOffsTo(port, front));
      AllOffsSettle(port, channels, was, backend, front);
      SentOneMore(was, backend, AllOffsTo(port, front), Delivery(port, AllNotesOff(c)));
      assert ChannelSet(cs) == ChannelSet(front) + {c} && c !in front;
      ClearedOneMore(port, channels, ChannelSet(front), was, before,
                     Attempt(Send(Delivery(port, AllNotesOff(c))), backend(|before|)), c);
    }
  }

  lemma RaisedInTwo(port: string, was: Log, between: Log, now: Log)
    requires was <= between <= now
    ensures RaisedSince(port, was, now) == RaisedSince(port, was, between) + RaisedSince(port, between, now)
  {
    assert forall i :: 0 <= i < |between| ==> between[i] == now[i];
  }

  lemma PanicSettlesInOrder(port: string, keys: set<Key>, channels: set<nat>, was: Log, now: Log, backend: Backend,
                            ks: seq<Key>, cs: seq<nat>)
    requires InTurn(keys, channels, ks, cs) && now == Sent(was, backend, PanicMessages(port, ks, cs))
    ensures Settled(port, keys, channels, was, now) && Grows(was, now, backend)
    ensures Within(port, channels, was) ==> Quiet(now)
  {
    var between := Sent(was, backend, NoteOffsTo(port, ks));
    SentInTwo(was, backend, NoteOffsTo(port, ks), AllOffsTo(port, cs));
    SentGrows(was, backend, PanicMessages(port, ks, cs));
    OffsSettle(port, channels, was, backend, ks);
    AllOffsSettle(port, channels, between, backend, cs);
    RaisedInTwo(port, was, between, now);
    if Within(port, channels, was) {
      assert channels - ChannelSet(cs) == {};
      SilentConfined(port, {}, Wire(now), DoubtOf(now));
    }
    HushedTwice(port, {}, {}, channels, RaisedSince(port, was, now), was, between, now);
    assert {} + channels == channels && {} + RaisedSince(port, was, now) == RaisedSince(port, was, now);
    if Faults(now) == Faults(was) {
      RaisedWithoutFault(port, was, now);
      SentWithoutFault(was, backend, PanicMessages(port, ks, cs));
      assert Wire(now) == Panicked(Wire(was), port, ks, cs);
      PanickedSounding(Wire(was), port, ks, cs);
    }
  }

  lemma HushedTwice(port: string, told: set<nat>, raised: set<nat>, toldNext: set<nat>, raisedNext: set<nat>,
                    was: Log, between: Log, now: Log)
    requires Hushed(port, told, raised, was, between) && Hushed(port, toldNext, raisedNext, between, now)
    ensures Hushed(port, told + toldNext, raised + raisedNext, was, now)
  {
    forall q ensures FewerAt(Wire(was), Wire(now), q) {
      assert FewerAt(Wire(was), Wire(between), q) && FewerAt(Wire(between), Wire(now), q);
    }
    assert FewerAt(Wire(between), Wire(now), port);
  }

  /** A panic settles what it tells, whichever of its sends raise. */
  lemma PanicSettles(port: string, keys: set<Key>, channels: set<nat>, was: Log, now: Log, backend: Backend)
    requires Panics(port, keys, channels, was, now, backend)
    ensures Settled(port, keys, channels, was, now) && Grows(was, now, backend)
    ensures Within(port, channels, was) ==> Quiet(now)
  {
    var ks := KeysAreListed(keys);
    var cs := ChannelsAreListed(channels);
    assert InTurn(keys, channels, ks, cs);
    PanicSettlesInOrder(port, keys, channels, was, now, backend, ks, cs);
  }

  /** If none of its sends raised the device is silent exactly if nothing else sounded. */
  lemma SilentIffAllTold(port: string, keys: set<Key>, told: set<nat>, was: Log, now: Log)
    requires Settled(port, keys, told, was, now) && Faults(now) == Faults(was)
    ensures forall c :: c in told ==> (port, c) !in DoubtOf(now)
    ensures Sounding(Wire(now), port) == {} <==>
            forall k :: k in Sounding(Wire(was), port) ==> k in keys || k.channel in told
  {
    var sounding := Sounding(Wire(was), port);
    if forall k :: k in sounding ==> k in keys || k.channel in told {
      assert Left(sounding, keys, told) == {};
    } else {
      var k :| k in sounding && k !in keys && k.channel !in told;
      assert k in Left(sounding, keys, told);
    }
  }

  /* ---- a send that raises ---- */

  /** `m` raised, delivered or not, and the panic that follows tells its channel and all in use. */
  ghost predicate Failed(port: string, m: Message, sent: Notes, used: set<nat>, was: Log, now: Log, backend: Backend) {
    && backend(|was|).raised
    && Panics(port, sent.at.Keys, used + Channels(sent) + {ChannelOf(m)},
              Asked(was, backend, Send(Delivery(port, m))), now, backend)
  }

  /** After a send that raised, delivered or not, nothing sounds outside doubt, and of the channels told exactly those
      whose own all-notes-off raised in the recovery are in doubt. If every recovery send succeeded, nothing sounds
      on any of them and none is in doubt. */
  lemma FailureIsSettled(port: string, m: Message, sent: Notes, used: set<nat>, was: Log, now: Log, backend: Backend)
    requires Tracked(Some(port), sent, used, was) && (m.AllNotesOff? ==> sent == NO_NOTES && used == {})
    requires Failed(port, m, sent, used, was, now, backend)
    ensures Grows(was, now, backend) && Quiet(now) && Faults(now) > Faults(was)
    ensures var told, raised := used + Channels(sent) + {ChannelOf(m)},
                                RaisedSince(port, Asked(was, backend, Send(Delivery(port, m))), now);
            && DoubtOf(now) == Doubted(DoubtOf(was), port, told, raised) && raised <= told
            && OnlyOn(Sounding(Wire(now), port), told, raised)
            && (Faults(now) == Faults(was) + 1 ==> raised == {})
  {
    var call := Send(Delivery(port, m));
    var after := Asked(was, backend, call);
    var told := used + Channels(sent) + {ChannelOf(m)};
    AfterCall(was, Attempt(call, backend(|was|)));
    AskedGrows(was, backend, call);
    SendWithin(port, sent, used, was, backend, m);
    PanicSettles(port, sent.at.Keys, told, after, now, backend);
    GrowsFurther(was, after, now, backend);
    GrowingLog(after, now);
    assert Doubted(DoubtOf(after), port, told, RaisedSince(port, after, now))
        == Doubted(DoubtOf(was), port, told, RaisedSince(port, after, now));
  }
}
