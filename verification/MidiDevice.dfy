/** What a MIDI device sounds under the session's sends, whether or not they were delivered
    (the sending part of output_service.py). */
module MidiDevice {
  import opened Common
  import opened MidiState
  import opened MidiBackend

  function Channels(notes: Notes): set<nat> { set k | k in notes.at.Keys :: k.channel }

  /** A recorded key sounds on the open port; outside doubt, nothing else sounds anywhere. */
  predicate ExactAt(port: Option<string>, sent: Notes, wire: seq<Delivery>, doubt: Doubt, q: string, k: Key) {
    && (port == Some(q) && k in sent.at ==> k in Sounding(wire, q))
    && ((q, k.channel) !in doubt && k in Sounding(wire, q) ==> port == Some(q) && k in sent.at)
  }

  ghost predicate Exact(port: Option<string>, sent: Notes, wire: seq<Delivery>, doubt: Doubt) {
    forall q, k {:trigger ExactAt(port, sent, wire, doubt, q, k)} :: ExactAt(port, sent, wire, doubt, q, k)
  }

  ghost predicate DeviceOk(port: Option<string>, sent: Notes, used: set<nat>, wire: seq<Delivery>, doubt: Doubt) {
    && Proper(sent)
    && (port.None? ==> sent == NO_NOTES && used == {})
    && Channels(sent) <= used
    && Exact(port, sent, wire, doubt)
  }

  predicate ConfinedAt(port: string, channels: set<nat>, wire: seq<Delivery>, doubt: Doubt, q: string, k: Key) {
    (q, k.channel) !in doubt && k in Sounding(wire, q) ==> q == port && k.channel in channels
  }

  /** Outside doubt nothing sounds but on these channels of this port. */
  ghost predicate Confined(port: string, channels: set<nat>, wire: seq<Delivery>, doubt: Doubt) {
    forall q, k {:trigger ConfinedAt(port, channels, wire, doubt, q, k)} ::
      ConfinedAt(port, channels, wire, doubt, q, k)
  }

  predicate SilentAt(wire: seq<Delivery>, doubt: Doubt, q: string, k: Key) {
    (q, k.channel) !in doubt ==> k !in Sounding(wire, q)
  }

  /** Outside doubt nothing sounds. */
  ghost predicate Silent(wire: seq<Delivery>, doubt: Doubt) {
    forall q, k {:trigger SilentAt(wire, doubt, q, k)} :: SilentAt(wire, doubt, q, k)
  }

  /** The device of an open port is confined to the channels in use, and that of a closed one silent. */
  lemma DeviceConfined(port: Option<string>, sent: Notes, used: set<nat>, more: set<nat>, wire: seq<Delivery>,
                       doubt: Doubt)
    requires DeviceOk(port, sent, used, wire, doubt)
    ensures port.Some? ==> Confined(port.value, used + Channels(sent) + more, wire, doubt)
    ensures port.None? ==> Silent(wire, doubt)
  {
    assert forall k :: k in sent.at ==> k.channel in Channels(sent);
    forall q, k ensures port.Some? ==> ConfinedAt(port.value, used + Channels(sent) + more, wire, doubt, q, k) {
      assert ExactAt(port, sent, wire, doubt, q, k);
    }
    forall q, k ensures port.None? ==> SilentAt(wire, doubt, q, k) {
      assert ExactAt(port, sent, wire, doubt, q, k);
    }
  }

  lemma SilentDeviceOk(port: Option<string>, wire: seq<Delivery>, doubt: Doubt)
    requires Silent(wire, doubt)
    ensures DeviceOk(port, NO_NOTES, {}, wire, doubt)
  {
    forall q, k ensures ExactAt(port, NO_NOTES, wire, doubt, q, k) {
      assert SilentAt(wire, doubt, q, k);
    }
  }

  lemma SilentConfined(port: string, channels: set<nat>, wire: seq<Delivery>, doubt: Doubt)
    ensures Silent(wire, doubt) ==> Confined(port, channels, wire, doubt)
    ensures Confined(port, {}, wire, doubt) ==> Silent(wire, doubt)
  {
    forall q, k ensures SilentAt(wire, doubt, q, k) ==> ConfinedAt(port, channels, wire, doubt, q, k) {
    }
    forall q, k ensures ConfinedAt(port, {}, wire, doubt, q, k) ==> SilentAt(wire, doubt, q, k) {
    }
    if Silent(wire, doubt) {
      forall q, k ensures ConfinedAt(port, channels, wire, doubt, q, k) {
        assert SilentAt(wire, doubt, q, k);
      }
    }
    if Confined(port, {}, wire, doubt) {
      forall q, k ensures SilentAt(wire, doubt, q, k) {
        assert ConfinedAt(port, {}, wire, doubt, q, k);
      }
    }
  }

  /* ---- single sends ---- */

  lemma OffStep(port: string, sent: Notes, used: set<nat>, wire: seq<Delivery>, doubt: Doubt, k: Key)
    requires DeviceOk(Some(port), sent, used, wire, doubt)
    ensures DeviceOk(Some(port), Popped(sent, k), used, wire + [Delivery(port, NoteOff(k))], doubt)
  {
    PoppedProper(sent, k);
    var after := wire + [Delivery(port, NoteOff(k))];
    forall q, x ensures ExactAt(Some(port), Popped(sent, k), after, doubt, q, x) {
      assert ExactAt(Some(port), sent, wire, doubt, q, x);
      SoundingAfter(wire, Delivery(port, NoteOff(k)), q);
    }
  }

  lemma OnStep(port: string, sent: Notes, used: set<nat>, wire: seq<Delivery>, doubt: Doubt, k: Key, v: nat)
    requires DeviceOk(Some(port), sent, used, wire, doubt) && v > 0
    ensures DeviceOk(Some(port), Put(sent, k, v), used + {k.channel}, wire + [Delivery(port, NoteOn(k, v))], doubt)
  {
    PutProper(sent, k, v);
    var after := wire + [Delivery(port, NoteOn(k, v))];
    forall q, x ensures ExactAt(Some(port), Put(sent, k, v), after, doubt, q, x) {
      assert ExactAt(Some(port), sent, wire, doubt, q, x);
      SoundingAfter(wire, Delivery(port, NoteOn(k, v)), q);
    }
    assert forall c :: c in Channels(Put(sent, k, v)) ==> c in Channels(sent) || c == k.channel;
  }

  /** Whether or not a note message arrived, only its own channel joins those that may be sounding. */
  lemma DoubtfulStep(port: string, sent: Notes, used: set<nat>, wire: seq<Delivery>, doubt: Doubt, m: Message,
                     after: seq<Delivery>)
    requires DeviceOk(Some(port), sent, used, wire, doubt) && !m.AllNotesOff?
    requires after == wire || after == wire + [Delivery(port, m)]
    ensures Confined(port, used + Channels(sent) + {m.key.channel}, after, doubt)
  {
    DeviceConfined(Some(port), sent, used, {m.key.channel}, wire, doubt);
    forall q, x ensures ConfinedAt(port, used + Channels(sent) + {m.key.channel}, after, doubt, q, x) {
      assert ConfinedAt(port, used + Channels(sent) + {m.key.channel}, wire, doubt, q, x);
      SoundingAfter(wire, Delivery(port, m), q);
    }
  }

  /** A note-off, delivered or not, adds nothing. */
  lemma OffConfined(port: string, channels: set<nat>, wire: seq<Delivery>, doubt: Doubt, k: Key, after: seq<Delivery>)
    requires Confined(port, channels, wire, doubt)
    requires after == wire || after == wire + [Delivery(port, NoteOff(k))]
    ensures Confined(port, channels, after, doubt)
  {
    forall q, x ensures ConfinedAt(port, channels, after, doubt, q, x) {
      assert ConfinedAt(port, channels, wire, doubt, q, x);
      SoundingAfter(wire, Delivery(port, NoteOff(k)), q);
    }
  }

  /** An all-notes-off settles its channel if delivered, and leaves it in doubt if it raised. */
  lemma AllOffConfined(port: string, channels: set<nat>, wire: seq<Delivery>, doubt: Doubt, c: nat,
                       after: seq<Delivery>)
    requires Confined(port, channels, wire, doubt)
    requires after == wire || after == wire + [Delivery(port, AllNotesOff(c))]
    ensures after != wire ==> Confined(port, channels - {c}, after, doubt - {(port, c)})
    ensures Confined(port, channels - {c}, after, doubt + {(port, c)})
  {
    forall q, x
      ensures after != wire ==> ConfinedAt(port, channels - {c}, after, doubt - {(port, c)}, q, x)
      ensures ConfinedAt(port, channels - {c}, after, doubt + {(port, c)}, q, x)
    {
      assert ConfinedAt(port, channels, wire, doubt, q, x);
      SoundingAfter(wire, Delivery(port, AllNotesOff(c)), q);
    }
  }

  /** All notes off on a device recorded silent: delivered it also settles the channel. */
  lemma AllOffOnSilence(port: string, wire: seq<Delivery>, doubt: Doubt, c: nat, after: seq<Delivery>)
    requires Silent(wire, doubt) && (after == wire || after == wire + [Delivery(port, AllNotesOff(c))])
    ensures Silent(after, doubt)
    ensures after != wire ==> Silent(after, doubt - {(port, c)})
  {
    forall q, x
      ensures SilentAt(after, doubt, q, x)
      ensures after != wire ==> SilentAt(after, doubt - {(port, c)}, q, x)
    {
      assert SilentAt(wire, doubt, q, x);
      SoundingAfter(wire, Delivery(port, AllNotesOff(c)), q);
    }
  }

  /* ---- silencing ---- */

  /** Doubt after all notes off on the told channels of a port, of which the raised ones failed. */
  function Doubted(doubt: Doubt, port: string, told: set<nat>, raised: set<nat>): Doubt {
    (set p | p in doubt && !(p.0 == port && p.1 in told)) + (set c | c in raised :: (port, c))
  }

  lemma DoubtedOneMore(doubt: Doubt, port: string, told: set<nat>, raised: set<nat>, c: nat)
    requires raised <= told && c !in told
    ensures Doubted(doubt, port, told + {c}, raised) == Doubted(doubt, port, told, raised) - {(port, c)}
    ensures Doubted(doubt, port, told + {c}, raised + {c}) == Doubted(doubt, port, told, raised) + {(port, c)}
  {
  }

  /** What still sounds after note-offs for the keys and all notes off on the channels. */
  function Left(sounding: set<Key>, keys: set<Key>, channels: set<nat>): set<Key> {
    set k | k in sounding && k !in keys && k.channel !in channels
  }

  /* ---- when a panic without a fault silences the device ---- */

  function AllOffsTo(port: string, channels: seq<nat>): seq<Delivery> {
    if channels == [] then [] else
      AllOffsTo(port, channels[..|channels| - 1]) + [Delivery(port, AllNotesOff(channels[|channels| - 1]))]
  }

  lemma AllOffsGrow(port: string, channels: seq<nat>, i: nat)
    requires i < |channels|
    ensures AllOffsTo(port, channels[..i + 1])
            == AllOffsTo(port, channels[..i]) + [Delivery(port, AllNotesOff(channels[i]))]
  {
    assert channels[..i + 1][..i] == channels[..i];
  }

  function KeySet(keys: seq<Key>): set<Key> { set k | k in keys }

  function ChannelSet(channels: seq<nat>): set<nat> { set c | c in channels }

  lemma {:induction false} OffsLeave(wire: seq<Delivery>, port: string, keys: seq<Key>)
    ensures Sounding(wire + NoteOffsTo(port, keys), port) == Left(Sounding(wire, port), KeySet(keys), {})
  {
    if keys == [] {
      assert wire + [] == wire;
    } else {
      var front, last := keys[..|keys| - 1], keys[|keys| - 1];
      OffsLeave(wire, port, front);
      var before := wire + NoteOffsTo(port, front);
      assert wire + NoteOffsTo(port, keys) == before + [Delivery(port, NoteOff(last))];
      SoundingAfter(before, Delivery(port, NoteOff(last)), port);
      assert forall k :: k in keys <==> k in front || k == last;
    }
  }

  lemma {:induction false} AllOffsLeave(wire: seq<Delivery>, port: string, channels: seq<nat>)
    ensures Sounding(wire + AllOffsTo(port, channels), port) == Left(Sounding(wire, port), {}, ChannelSet(channels))
  {
    if channels == [] {
      assert wire + [] == wire;
    } else {
      var front, last := channels[..|channels| - 1], channels[|channels| - 1];
      AllOffsLeave(wire, port, front);
      var before := wire + AllOffsTo(port, front);
      assert wire + AllOffsTo(port, channels) == before + [Delivery(port, AllNotesOff(last))];
      SoundingAfter(before, Delivery(port, AllNotesOff(last)), port);
      assert forall c :: c in channels <==> c in front || c == last;
    }
  }

  lemma {:induction false} OnsSound(port: string, keys: seq<Key>, notes: Notes, q: string)
    requires Proper(notes) && forall k :: k in keys ==> k in notes.at
    ensures Sounding(NoteOnsTo(port, keys, notes), q) == if q == port then KeySet(keys) else {}
  {
    if keys == [] {
    } else {
      var front, last := keys[..|keys| - 1], keys[|keys| - 1];
      assert last in keys;
      OnsSound(port, front, notes, q);
      SoundingAfter(NoteOnsTo(port, front, notes), Delivery(port, NoteOn(last, notes.at[last])), q);
      assert KeySet(keys) == KeySet(front) + {last};
    }
  }

  /** A panic as it goes out without a fault. */
  function Panicked(wire: seq<Delivery>, port: string, keys: seq<Key>, channels: seq<nat>): seq<Delivery> {
    wire + NoteOffsTo(port, keys) + AllOffsTo(port, channels)
  }

  lemma PanickedSounding(wire: seq<Delivery>, port: string, keys: seq<Key>, channels: seq<nat>)
    ensures Sounding(Panicked(wire, port, keys, channels), port)
         == Left(Sounding(wire, port), KeySet(keys), ChannelSet(channels))
  {
    OffsLeave(wire, port, keys);
    AllOffsLeave(wire + NoteOffsTo(port, keys), port, channels);
  }

  /** A trace with which a doubted channel that is not told sounds on. */
  lemma UntoldDoubtSounds(port: string, sent: Notes, keys: seq<Key>, channels: seq<nat>, doubt: Doubt, c: nat)
    returns (wire: seq<Delivery>)
    requires Proper(sent) && KeySet(keys) == sent.at.Keys && Channels(sent) <= ChannelSet(channels)
             && (port, c) in doubt && c !in channels
    ensures DeviceOk(Some(port), sent, ChannelSet(channels), wire, doubt)
    ensures Sounding(Panicked(wire, port, keys, channels), port) != {}
  {
    var lost := Key(c, 60);
    var ons := NoteOnsTo(port, sent.order, sent);
    wire := ons + [Delivery(port, NoteOn(lost, 1))];
    forall q ensures Sounding(wire, q) == if q == port then KeySet(sent.order) + {lost} else {} {
      OnsSound(port, sent.order, sent, q);
      SoundingAfter(ons, Delivery(port, NoteOn(lost, 1)), q);
    }
    assert forall k :: k in sent.at ==> k.channel in Channels(sent);
    forall q, k ensures ExactAt(Some(port), sent, wire, doubt, q, k) {
    }
    PanickedSounding(wire, port, keys, channels);
    assert lost !in sent.at;
    assert lost in Sounding(Panicked(wire, port, keys, channels), port);
  }

  /** A panic whose sends all succeed silences the device, whatever was delivered before, exactly if it tells
      every doubted channel of its port. */
  lemma SilenceIffDoubtTold(port: string, sent: Notes, keys: seq<Key>, channels: seq<nat>, doubt: Doubt)
    requires Proper(sent) && KeySet(keys) == sent.at.Keys && Channels(sent) <= ChannelSet(channels)
    ensures (forall wire :: DeviceOk(Some(port), sent, ChannelSet(channels), wire, doubt) ==>
               Sounding(Panicked(wire, port, keys, channels), port) == {})
            <==> forall c :: (port, c) in doubt ==> c in channels
  {
    if forall c :: (port, c) in doubt ==> c in channels {
      forall wire | DeviceOk(Some(port), sent, ChannelSet(channels), wire, doubt)
        ensures Sounding(Panicked(wire, port, keys, channels), port) == {}
      {
        PanickedSounding(wire, port, keys, channels);
        forall k | k in Sounding(wire, port) ensures k in keys || k.channel in channels {
          assert ExactAt(Some(port), sent, wire, doubt, port, k);
        }
      }
    } else {
      var c :| (port, c) in doubt && c !in channels;
      var wire := UntoldDoubtSounds(port, sent, keys, channels, doubt, c);
    }
  }
}
