/** Desired note states, their diff and reconciliation script, and what a message trace makes a device do
    (state_diff.py, state_ordering.py, the planning part of output_service.py). */
module MidiState {
  import opened Common

  datatype Key = Key(channel: nat, note: nat)

  datatype Message = NoteOn(key: Key, velocity: nat) | NoteOff(key: Key) | AllNotesOff(channel: nat)

  /** `StateOrdering.is_stale`: an engine-ordered state at or below the highest panic generation. */
  predicate IsStale(watermark: nat, generation: nat) { 0 < generation <= watermark }

  /* ---- what a device does with messages ---- */

  /** The keys sounding after one more message; a note-on of velocity 0 is a note-off, and CC 123 ends a channel. */
  function Heard(sounding: set<Key>, m: Message): set<Key> {
    match m
    case NoteOn(k, v) => if v > 0 then sounding + {k} else sounding - {k}
    case NoteOff(k) => sounding - {k}
    case AllNotesOff(c) => set k | k in sounding && k.channel != c
  }

  datatype Delivery = Delivery(port: string, message: Message)

  /** What the device at `port` sounds after the deliveries of `wire`. */
  function Sounding(wire: seq<Delivery>, port: string): set<Key> {
    if wire == [] then {} else
      var d := wire[|wire| - 1];
      var before := Sounding(wire[..|wire| - 1], port);
      if d.port == port then Heard(before, d.message) else before
  }

  lemma SoundingAfter(wire: seq<Delivery>, d: Delivery, port: string)
    ensures Sounding(wire + [d], port) == if d.port == port then Heard(Sounding(wire, port), d.message)
            else Sounding(wire, port)
  {
    assert (wire + [d])[..|wire|] == wire;
  }

  /* ---- insertion-ordered note dictionaries ---- */

  datatype Notes = Notes(order: seq<Key>, at: map<Key, nat>)

  const NO_NOTES := Notes([], map[])

  ghost predicate Distinct(keys: seq<Key>) { forall i, j :: 0 <= i < j < |keys| ==> keys[i] != keys[j] }

  /** Each key once, each with an audible velocity. */
  ghost predicate Proper(n: Notes) {
    && Distinct(n.order)
    && (forall k :: k in n.order <==> k in n.at)
    && (forall k :: k in n.at ==> n.at[k] > 0)
  }

  function Without(order: seq<Key>, k: Key): (r: seq<Key>)
    ensures forall x :: x in r <==> x in order && x != k
  {
    if order == [] then [] else
      assert forall x :: x in order <==> x == order[0] || x in order[1..];
      (if order[0] == k then [] else [order[0]]) + Without(order[1..], k)
  }

  /** `dict.pop(key, None)`. */
  function Popped(n: Notes, k: Key): Notes { Notes(Without(n.order, k), n.at - {k}) }

  /** `dict[key] = velocity`: an existing key keeps its place. */
  function Put(n: Notes, k: Key, v: nat): Notes {
    Notes(if k in n.at then n.order else n.order + [k], n.at[k := v])
  }

  lemma {:induction false} WithoutDistinct(order: seq<Key>, k: Key)
    requires Distinct(order)
    ensures Distinct(Without(order, k))
  {
    if order == [] {
    } else {
      WithoutDistinct(order[1..], k);
      assert order[0] !in Without(order[1..], k);
    }
  }

  lemma PoppedProper(n: Notes, k: Key)
    requires Proper(n)
    ensures Proper(Popped(n, k))
  {
    WithoutDistinct(n.order, k);
  }

  lemma PutProper(n: Notes, k: Key, v: nat)
    requires Proper(n) && v > 0
    ensures Proper(Put(n, k, v))
  {
  }

  /* ---- diff and reconciliation script ---- */

  /** `diff_midi_states`: keys leaving, in previous order, and keys entering, in current order. Both are
      the keys of one order that the other state lacks. */
  function Lacking(order: seq<Key>, other: map<Key, nat>): (r: seq<Key>)
    ensures forall k :: k in r <==> k in order && k !in other
  {
    if order == [] then [] else
      assert forall x :: x in order <==> x == order[0] || x in order[1..];
      (if order[0] !in other then [order[0]] else []) + Lacking(order[1..], other)
  }

  datatype Policy = IgnoreWhileHeld | Retrigger | RepeatNoteOn
  datatype Configuration = Configuration(outputPort: string, policy: Policy, threshold: nat)

  function Distance(a: nat, b: nat): nat { if a < b then b - a else a - b }

  /** A held key whose velocity moved by at least the threshold (and at all). */
  predicate Moved(sent: map<Key, nat>, desired: map<Key, nat>, threshold: nat, k: Key) {
    k in sent && k in desired && sent[k] != desired[k] && Distance(sent[k], desired[k]) >= threshold
  }

  /** Leaving keys, and under Retrigger those that moved. */
  predicate TurnsOff(sent: map<Key, nat>, desired: map<Key, nat>, c: Configuration, k: Key) {
    k !in desired || (c.policy == Retrigger && Moved(sent, desired, c.threshold, k))
  }

  /** Held keys that are struck again. */
  predicate StrikesAgain(sent: map<Key, nat>, desired: map<Key, nat>, c: Configuration, k: Key) {
    c.policy != IgnoreWhileHeld && Moved(sent, desired, c.threshold, k)
  }

  function OffsIn(order: seq<Key>, sent: map<Key, nat>, desired: map<Key, nat>, c: Configuration): (r: seq<Key>)
    ensures forall k :: k in r <==> k in order && TurnsOff(sent, desired, c, k)
  {
    if order == [] then [] else
      assert forall x :: x in order <==> x == order[0] || x in order[1..];
      (if TurnsOff(sent, desired, c, order[0]) then [order[0]] else []) + OffsIn(order[1..], sent, desired, c)
  }

  function StrikesIn(order: seq<Key>, sent: map<Key, nat>, desired: map<Key, nat>, c: Configuration): (r: seq<Key>)
    ensures forall k :: k in r <==> k in order && StrikesAgain(sent, desired, c, k)
  {
    if order == [] then [] else
      assert forall x :: x in order <==> x == order[0] || x in order[1..];
      (if StrikesAgain(sent, desired, c, order[0]) then [order[0]] else []) + StrikesIn(order[1..], sent, desired, c)
  }

  function NoteOffs(sent: Notes, desired: Notes, c: Configuration): seq<Key> {
    OffsIn(sent.order, sent.at, desired.at, c)
  }

  function NoteOns(sent: Notes, desired: Notes, c: Configuration): seq<Key> {
    StrikesIn(sent.order, sent.at, desired.at, c) + Lacking(desired.order, sent.at)
  }

  function NoteOffsTo(port: string, keys: seq<Key>): seq<Delivery> {
    if keys == [] then [] else NoteOffsTo(port, keys[..|keys| - 1]) + [Delivery(port, NoteOff(keys[|keys| - 1]))]
  }

  function NoteOnsTo(port: string, keys: seq<Key>, desired: Notes): seq<Delivery>
    requires forall k :: k in keys ==> k in desired.at
  {
    if keys == [] then [] else
      var k := keys[|keys| - 1];
      NoteOnsTo(port, keys[..|keys| - 1], desired) + [Delivery(port, NoteOn(k, desired.at[k]))]
  }

  function AllPopped(n: Notes, keys: seq<Key>): Notes {
    if keys == [] then n else Popped(AllPopped(n, keys[..|keys| - 1]), keys[|keys| - 1])
  }

  function AllPut(n: Notes, keys: seq<Key>, desired: Notes): Notes
    requires forall k :: k in keys ==> k in desired.at
  {
    if keys == [] then n else
      var k := keys[|keys| - 1];
      Put(AllPut(n, keys[..|keys| - 1], desired), k, desired.at[k])
  }

  lemma {:induction false} AllPoppedAt(n: Notes, keys: seq<Key>)
    ensures AllPopped(n, keys).at == n.at - (set k | k in keys)
  {
    if keys == [] {
    } else {
      var front := keys[..|keys| - 1];
      AllPoppedAt(n, front);
      assert keys == front + [keys[|keys| - 1]];
    }
  }

  lemma {:induction false} AllPutAt(n: Notes, keys: seq<Key>, desired: Notes)
    requires forall k :: k in keys ==> k in desired.at
    ensures AllPut(n, keys, desired).at == n.at + (map k | k in keys :: desired.at[k])
  {
    if keys == [] {
    } else {
      var front := keys[..|keys| - 1];
      AllPutAt(n, front, desired);
      var last := keys[|keys| - 1];
      assert forall k :: k in keys <==> k in front || k == last;
    }
  }

  /** One more note-off. */
  lemma OffsGrow(port: string, n: Notes, keys: seq<Key>, i: nat)
    requires i < |keys|
    ensures NoteOffsTo(port, keys[..i + 1]) == NoteOffsTo(port, keys[..i]) + [Delivery(port, NoteOff(keys[i]))]
    ensures AllPopped(n, keys[..i + 1]) == Popped(AllPopped(n, keys[..i]), keys[i])
  {
    assert keys[..i + 1][..i] == keys[..i];
  }

  /** One more note-on. */
  lemma OnsGrow(port: string, n: Notes, keys: seq<Key>, desired: Notes, i: nat)
    requires i < |keys| && forall k :: k in keys ==> k in desired.at
    ensures keys[i] in desired.at
    ensures NoteOnsTo(port, keys[..i + 1], desired)
            == NoteOnsTo(port, keys[..i], desired) + [Delivery(port, NoteOn(keys[i], desired.at[keys[i]]))]
    ensures AllPut(n, keys[..i + 1], desired) == Put(AllPut(n, keys[..i], desired), keys[i], desired.at[keys[i]])
  {
    assert keys[i] in keys;
    assert keys[..i + 1][..i] == keys[..i];
  }

  lemma ScriptMembers(sent: Notes, desired: Notes, c: Configuration)
    requires Proper(sent) && Proper(desired)
    ensures forall k :: k in NoteOffs(sent, desired, c) <==> k in sent.at && TurnsOff(sent.at, desired.at, c, k)
    ensures forall k :: k in NoteOns(sent, desired, c) <==>
                          k in desired.at && (k !in sent.at || StrikesAgain(sent.at, desired.at, c, k))
  {
  }

  /** Whether the velocity of a held key changes, and by no less than the threshold. */
  predicate VelocityChanges(sent: Notes, desired: Notes, threshold: nat, k: Key)
    requires k in sent.at && k in desired.at
  {
    var was, wanted := sent.at[k], desired.at[k];
    was != wanted && (wanted >= was + threshold || was >= wanted + threshold)
  }

  /** What is sent for one key. One that leaves gets a note-off, one that enters a note-on. One that stays gets nothing
      if its velocity changes by less than the threshold or the policy is to ignore changes; otherwise a note-on, with
      a note-off first if the policy is to retrigger. */
  lemma MessagesForKey(sent: Notes, desired: Notes, c: Configuration, k: Key)
    requires Proper(sent) && Proper(desired)
    ensures k in sent.at && k !in desired.at ==> k in NoteOffs(sent, desired, c) && k !in NoteOns(sent, desired, c)
    ensures k !in sent.at && k in desired.at ==> k !in NoteOffs(sent, desired, c) && k in NoteOns(sent, desired, c)
    ensures k in sent.at && k in desired.at ==>
              && (k in NoteOffs(sent, desired, c) <==>
                    c.policy == Retrigger && VelocityChanges(sent, desired, c.threshold, k))
              && (k in NoteOns(sent, desired, c) <==>
                    (c.policy == Retrigger || c.policy == RepeatNoteOn)
                    && VelocityChanges(sent, desired, c.threshold, k))
  {
    ScriptMembers(sent, desired, c);
  }

  /** Note-offs go out in the order the keys were held; note-ons first for the keys struck again, in that order too, and
      then for the entering ones in the order they are desired. */
  lemma MessagesInOrder(sent: Notes, desired: Notes, c: Configuration)
    requires Proper(sent) && Proper(desired)
    ensures NoteOffs(sent, desired, c) == Filter(sent.order, k => k in NoteOffs(sent, desired, c))
    ensures NoteOns(sent, desired, c) == Filter(sent.order, k => k in NoteOns(sent, desired, c))
                                         + Filter(desired.order, k => k !in sent.at)
  {
    var offs, ons := NoteOffs(sent, desired, c), NoteOns(sent, desired, c);
    ScriptMembers(sent, desired, c);
    OffsFiltered(sent.order, sent.at, desired.at, c, k => k in offs);
    StrikesFiltered(sent.order, sent.at, desired.at, c, k => k in ons);
    LackingFiltered(desired.order, sent.at);
  }

  lemma {:induction false} OffsFiltered(order: seq<Key>, sent: map<Key, nat>, desired: map<Key, nat>, c: Configuration,
                                        keep: Key -> bool)
    requires forall k :: k in order ==> (keep(k) <==> TurnsOff(sent, desired, c, k))
    ensures OffsIn(order, sent, desired, c) == Filter(order, keep)
  {
    if order == [] {
    } else {
      OffsFiltered(order[1..], sent, desired, c, keep);
      FilterFirst(order, keep);
    }
  }

  lemma {:induction false} StrikesFiltered(order: seq<Key>, sent: map<Key, nat>, desired: map<Key, nat>,
                                           c: Configuration, keep: Key -> bool)
    requires forall k :: k in order ==> (keep(k) <==> StrikesAgain(sent, desired, c, k))
    ensures StrikesIn(order, sent, desired, c) == Filter(order, keep)
  {
    if order == [] {
    } else {
      StrikesFiltered(order[1..], sent, desired, c, keep);
      FilterFirst(order, keep);
    }
  }

  lemma {:induction false} LackingFiltered(order: seq<Key>, other: map<Key, nat>)
    ensures Lacking(order, other) == Filter(order, k => k !in other)
  {
    if order == [] {
    } else {
      LackingFiltered(order[1..], other);
      FilterFirst(order, k => k !in other);
    }
  }

  /** The velocities held once the whole script has been sent. */
  function Target(sent: Notes, desired: Notes, c: Configuration): map<Key, nat> {
    map k | k in desired.at ::
      if k in sent.at && !StrikesAgain(sent.at, desired.at, c, k) then sent.at[k] else desired.at[k]
  }

  /** Reconciled means: exactly the desired keys; a held key keeps its velocity under IgnoreWhileHeld, and
      otherwise ends at the desired velocity or closer to it than the threshold. */
  lemma TargetMeetsDesired(sent: Notes, desired: Notes, c: Configuration)
    ensures Target(sent, desired, c).Keys == desired.at.Keys
    ensures forall k :: k in desired.at && k !in sent.at ==> Target(sent, desired, c)[k] == desired.at[k]
    ensures c.policy == IgnoreWhileHeld ==>
              forall k :: k in desired.at && k in sent.at ==> Target(sent, desired, c)[k] == sent.at[k]
    ensures c.policy != IgnoreWhileHeld ==>
              forall k :: k in desired.at ==>
                Target(sent, desired, c)[k] == desired.at[k]
                  || desired.at[k] - c.threshold < Target(sent, desired, c)[k] < desired.at[k] + c.threshold
  {
  }

  /** Sending the note-offs and then the note-ons leaves exactly the target. */
  lemma ScriptReachesTarget(sent: Notes, desired: Notes, c: Configuration)
    requires Proper(sent) && Proper(desired)
    ensures forall k :: k in NoteOns(sent, desired, c) ==> k in desired.at
    ensures AllPut(AllPopped(sent, NoteOffs(sent, desired, c)), NoteOns(sent, desired, c), desired).at
            == Target(sent, desired, c)
  {
    var offs, ons := NoteOffs(sent, desired, c), NoteOns(sent, desired, c);
    ScriptMembers(sent, desired, c);
    AllPoppedAt(sent, offs);
    AllPutAt(AllPopped(sent, offs), ons, desired);
    TargetFromParts(sent, desired, c, offs, ons);
  }

  /** The order of the keys held then: those that stayed held, as before, and then those struck, as they were struck. */
  lemma ScriptOrder(sent: Notes, desired: Notes, c: Configuration)
    requires Proper(sent) && Proper(desired)
    requires forall k :: k in NoteOns(sent, desired, c) ==> k in desired.at
    ensures var offs, ons := NoteOffs(sent, desired, c), NoteOns(sent, desired, c);
            AllPut(AllPopped(sent, offs), ons, desired).order
            == Filter(sent.order, k => k !in offs) + Filter(ons, k => k !in sent.at || k in offs)
  {
    var offs, ons := NoteOffs(sent, desired, c), NoteOns(sent, desired, c);
    AllPoppedAt(sent, offs);
    PoppedOrder(sent, offs);
    OnsDistinct(sent, desired, c);
    PutOrder(AllPopped(sent, offs), ons, desired);
    FilterAlike(ons, k => k !in AllPopped(sent, offs).at, k => k !in sent.at || k in offs);
  }

  lemma {:induction false} PoppedOrder(n: Notes, keys: seq<Key>)
    ensures AllPopped(n, keys).order == Filter(n.order, k => k !in keys)
  {
    if keys == [] {
      FilterAll(n.order, k => k !in keys);
    } else {
      var front, last := keys[..|keys| - 1], keys[|keys| - 1];
      PoppedOrder(n, front);
      WithoutFiltered(AllPopped(n, front).order, last);
      FilterTwice(n.order, k => k !in front, k => k != last, k => k !in keys);
    }
  }

  lemma {:induction false} WithoutFiltered(order: seq<Key>, k: Key)
    ensures Without(order, k) == Filter(order, x => x != k)
  {
    if order == [] {
    } else {
      WithoutFiltered(order[1..], k);
      FilterFirst(order, x => x != k);
    }
  }

  lemma {:induction false} PutOrder(n: Notes, keys: seq<Key>, desired: Notes)
    requires Distinct(keys) && forall k :: k in keys ==> k in desired.at
    ensures AllPut(n, keys, desired).order == n.order + Filter(keys, k => k !in n.at)
  {
    if keys == [] {
    } else {
      var front, last := keys[..|keys| - 1], keys[|keys| - 1];
      PutOrder(n, front, desired);
      AllPutAt(n, front, desired);
      assert last !in front;
      FilterAlike(front, k => k !in n.at, k => k !in n.at);
    }
  }

  lemma OnsDistinct(sent: Notes, desired: Notes, c: Configuration)
    requires Proper(sent) && Proper(desired)
    ensures Distinct(NoteOns(sent, desired, c))
  {
    var strikes, entering := StrikesIn(sent.order, sent.at, desired.at, c), Lacking(desired.order, sent.at);
    StrikesFiltered(sent.order, sent.at, desired.at, c, k => StrikesAgain(sent.at, desired.at, c, k));
    LackingFiltered(desired.order, sent.at);
    FilterDistinct(sent.order, k => StrikesAgain(sent.at, desired.at, c, k));
    FilterDistinct(desired.order, k => k !in sent.at);
    FilterMembers(sent.order, k => StrikesAgain(sent.at, desired.at, c, k));
    FilterMembers(desired.order, k => k !in sent.at);
    forall i, j | 0 <= i < |strikes| && 0 <= j < |entering| ensures strikes[i] != entering[j] {
      assert strikes[i] in strikes && entering[j] in entering;
    }
  }

  lemma {:induction false} FilterDistinct(order: seq<Key>, keep: Key -> bool)
    requires Distinct(order)
    ensures Distinct(Filter(order, keep))
  {
    if order == [] {
    } else {
      var front := order[..|order| - 1];
      FilterDistinct(front, keep);
      FilterMembers(front, keep);
      assert order[|order| - 1] !in front;
    }
  }

  lemma TargetFromParts(sent: Notes, desired: Notes, c: Configuration, offs: seq<Key>, ons: seq<Key>)
    requires forall k :: k in offs <==> k in sent.at && TurnsOff(sent.at, desired.at, c, k)
    requires forall k :: k in ons <==> k in desired.at && (k !in sent.at || StrikesAgain(sent.at, desired.at, c, k))
    ensures (sent.at - (set k | k in offs)) + (map k | k in ons :: desired.at[k]) == Target(sent, desired, c)
  {
  }

  /** Reconciling the same desired state again sends nothing, under every policy. */
  lemma ReconcileIsIdempotent(sent: Notes, desired: Notes, c: Configuration, after: Notes)
    requires Proper(desired) && Proper(after) && after.at == Target(sent, desired, c)
    ensures NoteOffs(after, desired, c) == [] && NoteOns(after, desired, c) == []
  {
    var offs, ons := NoteOffs(after, desired, c), NoteOns(after, desired, c);
    assert offs == [] || offs[0] in offs;
    assert ons == [] || ons[0] in ons;
    ScriptMembers(after, desired, c);
    forall k: Key ensures k !in offs && k !in ons {
      TargetIsSettled(sent, desired, c, k);
    }
  }

  lemma TargetIsSettled(sent: Notes, desired: Notes, c: Configuration, k: Key)
    ensures k in Target(sent, desired, c) <==> k in desired.at
    ensures k in desired.at ==> !TurnsOff(Target(sent, desired, c), desired.at, c, k)
    ensures !StrikesAgain(Target(sent, desired, c), desired.at, c, k)
  {
  }
}
