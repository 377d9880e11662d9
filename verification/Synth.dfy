/** The debug synth (debug_synth.py, DebugSynth): desired notes capped to a fixed pool, voices reconciled with them and
    rendered block by block, and panic. */
module Synth {
  import opened Common
  import MidiState
  import opened Voices

  class DebugSynth {
    const configuration: Configuration
    const voices: array<Voice>
    var ageCounter: nat
    var desired: map<Id, nat>
    var panicGeneration: nat
    var seenPanic: nat
    var watermark: nat
    var closed: bool
    /** The publish generation of the state the desired notes came from. */
    ghost var generation: nat

    ghost predicate Valid()
      reads this, voices
    {
      && Configured(configuration) && voices.Length == configuration.maxVoices
      && PoolOk(voices[..]) && AgesOk(voices[..], ageCounter)
      && |desired| <= voices.Length && Audible(desired)
      && (desired != map[] ==> generation == 0 || generation > watermark)
    }

    constructor (c: Configuration)
      requires Configured(c)
      ensures Valid() && fresh(voices) && desired == map[] && !closed && forall i :: 0 <= i < voices.Length ==>
              !Active(voices[i])
    {
      configuration := c;
      voices := new Voice[c.maxVoices](_ => Voice(-1, 0, 0.0, Inactive, 0));
      ageCounter, desired, panicGeneration, seenPanic, watermark, closed, generation := 0, map[], 0, 0, 0, false, 0;
    }

    /** `update`: the capped notes, unless closed or stale. */
    method Update(notes: map<Id, nat>, publishGeneration: nat)
      requires Valid() && Audible(notes)
      modifies this`desired, this`generation
      ensures Valid()
      ensures closed || 0 < publishGeneration <= watermark ==> desired == old(desired)
      ensures !closed && (publishGeneration == 0 || publishGeneration > watermark) ==>
                Loudest(notes, desired, voices.Length)
    {
      if closed || MidiState.IsStale(watermark, publishGeneration) {
        return;
      }
      desired := Cap(notes, configuration.maxVoices);
      generation := publishGeneration;
    }

    /** `panic`: a negative generation raises after the desired notes were dropped. */
    method Panic(publishGeneration: int) returns (raised: bool)
      requires Valid()
      modifies this`desired, this`panicGeneration, this`watermark
      ensures Valid() && desired == map[] && panicGeneration == old(panicGeneration) + 1
      ensures raised <==> publishGeneration < 0
      ensures watermark == if old(watermark) < publishGeneration then publishGeneration else old(watermark)
    {
      desired := map[];
      panicGeneration := panicGeneration + 1;
      raised := publishGeneration < 0;
      if !raised && watermark < publishGeneration {
        watermark := publishGeneration;
      }
    }

    method CloseSynth()
      requires Valid()
      modifies this`desired, this`panicGeneration, this`closed
      ensures Valid() && closed && (!old(closed) ==> desired == map[])
    {
      if !closed {
        desired, panicGeneration, closed := map[], panicGeneration + 1, true;
      }
    }

    /** `_select_voice`: with a desired key still unvoiced a voice is always found. */
    method SelectVoice(ghost k: Id) returns (v: nat)
      requires DistinctKeys(voices[..]) && |desired| <= voices.Length && k in desired && !Held(voices[..], k)
      ensures v < voices.Length && Selected(voices[..], desired, v)
    {
      SomeVoiceIsFree(voices[..], desired, k);
      var selected: Option<nat> := None;
      for i := 0 to voices.Length
        invariant selected.Some? ==> selected.value < i && voices[selected.value].key !in desired
        invariant forall j :: 0 <= j < i ==> Active(voices[j])
        invariant forall j :: 0 <= j < i && voices[j].key !in desired ==>
                    selected.Some? && NotBehind(voices[selected.value], voices[j])
      {
        if voices[i].stage == Inactive {
          return i;
        }
        if voices[i].key !in desired {
          if selected.None? {
            selected := Some(i);
          } else {
            var s, voice := voices[selected.value], voices[i];
            if voice.envelope < s.envelope || (voice.envelope == s.envelope && voice.age < s.age) {
              selected := Some(i);
            }
          }
        }
      }
      v := selected.value;
    }

    /** First pass of `_reconcile`: release what is not desired, refresh what is. */
    method TouchVoices()
      requires Valid()
      modifies voices
      ensures PoolOk(voices[..]) && AgesOk(voices[..], ageCounter) && Follows(voices[..], desired)
      ensures Continues(old(voices[..]), voices[..])
      ensures forall k :: Held(voices[..], k) <==> Held(old(voices[..]), k)
    {
      for i := 0 to voices.Length
        invariant forall j :: 0 <= j < i ==> voices[j] == Touched(old(voices[j]), desired)
        invariant forall j :: i <= j < voices.Length ==> voices[j] == old(voices[j])
      {
        voices[i] := Touched(voices[i], desired);
      }
      TouchedFollows(old(voices[..]), voices[..], desired);
      TouchedContinues(old(voices[..]), voices[..], desired);
    }

    method HeldKeys() returns (held: set<int>)
      ensures forall k :: k in held <==> Held(voices[..], k)
    {
      held := {};
      for i := 0 to voices.Length
        invariant forall k :: k in held <==> exists j :: 0 <= j < i && Active(voices[j]) && voices[j].key == k
      {
        if voices[i].stage != Inactive {
          held := held + {voices[i].key};
        }
      }
    }

    /** One entry of the second pass. */
    method Enter(k: Id) returns (v: nat)
      requires Valid() && Follows(voices[..], desired) && k in desired && !Held(voices[..], k)
      modifies this`ageCounter, voices
      ensures Valid() && Follows(voices[..], desired)
      ensures Selected(old(voices[..]), desired, v)
      ensures ageCounter == old(ageCounter) + 1
      ensures voices[..] == old(voices[..])[v := Voice(k, desired[k], 0.0, Attack, ageCounter)]
      ensures forall x :: x in desired ==> (Held(voices[..], x) <==> x == k || Held(old(voices[..]), x))
    {
      v := SelectVoice(k);
      ghost var before := voices[..];
      ageCounter := ageCounter + 1;
      EnterKeeps(before, desired, v, k, ageCounter);
      voices[v] := Voice(k, desired[k], 0.0, Attack, ageCounter);
      assert voices[..] == before[v := Voice(k, desired[k], 0.0, Attack, ageCounter)];
    }

    /** `_reconcile`: afterwards every desired key has exactly one playing voice, and every other active voice
        is released; keys that had a voice keep it and its level, and the others get theirs in key order. */
    method Reconcile()
      requires Valid()
      modifies this`ageCounter, voices
      ensures Valid() && Reconciled(voices[..], desired) && Continues(old(voices[..]), voices[..])
      ensures EnteredInOrder(old(voices[..]), voices[..])
    {
      var held := HeldKeys();
      var added := SortIds(desired.Keys - set k: Id | k in desired.Keys && k in held);
      TouchVoices();
      EnterAll(added, old(voices[..]));
    }

    /** Second pass: each desired key without a voice is given one. */
    method EnterAll(added: seq<Id>, ghost before: seq<Voice>)
      requires Valid() && Follows(voices[..], desired) && Increasing(added)
      requires Entering(before, voices[..], desired, added)
      modifies this`ageCounter, voices
      ensures Valid() && Follows(voices[..], desired) && Entering(before, voices[..], desired, [])
    {
      for i := 0 to |added|
        invariant Valid() && Follows(voices[..], desired) && Entering(before, voices[..], desired, added[i..])
      {
        assert added[i..][0] == added[i] && added[i..][1..] == added[i + 1..];
        EnterFirst(added[i], before, added[i..]);
      }
    }

    method EnterFirst(k: Id, ghost before: seq<Voice>, ghost waiting: seq<Id>)
      requires Valid() && Follows(voices[..], desired) && waiting != [] && k == waiting[0] && Increasing(waiting)
      requires Entering(before, voices[..], desired, waiting)
      modifies this`ageCounter, voices
      ensures Valid() && Follows(voices[..], desired) && Entering(before, voices[..], desired, waiting[1..])
    {
      ghost var now, counter := voices[..], ageCounter;
      assert k in waiting;
      var v := Enter(k);
      EnterNext(before, now, voices[..], desired, waiting, v, counter);
    }

    /** The audio callback. A panic not seen yet only clears the voices; otherwise the voices are reconciled
        and one block is rendered. */
    method Callback(wellShaped: bool) returns (rendered: bool)
      requires Valid()
      modifies this`ageCounter, this`seenPanic, voices
      ensures Valid()
      ensures closed || !wellShaped ==> voices[..] == old(voices[..]) && !rendered
      ensures !closed && wellShaped ==> seenPanic == panicGeneration
      ensures !closed && wellShaped && old(seenPanic) != panicGeneration ==>
                !rendered && forall i :: 0 <= i < voices.Length ==> !Active(voices[i])
      ensures !closed && wellShaped && old(seenPanic) == panicGeneration ==> rendered && Reconciled(voices[..], desired)
      ensures rendered ==> AllAudible(voices[..], desired)
      ensures rendered ==>
                exists between ::
                  && Continues(old(voices[..]), between) && EnteredInOrder(old(voices[..]), between)
                  && IsRendered(between, voices[..], configuration)
    {
      if closed || !wellShaped {
        return false;
      }
      if seenPanic != panicGeneration {
        ClearVoices();
        seenPanic := panicGeneration;
        return false;
      }
      Reconcile();
      ghost var between := voices[..];
      RenderVoices();
      rendered := true;
    }

    method ClearVoices()
      modifies voices
      ensures PoolOk(voices[..]) && forall i :: 0 <= i < voices.Length ==> !Active(voices[i])
      ensures forall i :: 0 <= i < voices.Length ==> voices[i].age == old(voices[i].age)
    {
      for i := 0 to voices.Length
        invariant forall j :: i <= j < voices.Length ==> voices[j] == old(voices[j])
        invariant forall j :: 0 <= j < i ==>
                  VoiceOk(voices[j]) && !Active(voices[j]) && voices[j].age == old(voices[j].age)
      {
        voices[i] := Voice(-1, 0, 0.0, Inactive, voices[i].age);
      }
    }

    method RenderVoices()
      requires Configured(configuration) && Reconciled(voices[..], desired) && AgesOk(voices[..], ageCounter)
      modifies voices
      ensures AgesOk(voices[..], ageCounter)
      ensures Reconciled(voices[..], desired) && IsRendered(old(voices[..]), voices[..], configuration)
      ensures AllAudible(voices[..], desired)
    {
      for i := 0 to voices.Length
        invariant forall j :: 0 <= j < i ==> voices[j] == Rendered(old(voices[j]), configuration)
        invariant forall j :: i <= j < voices.Length ==> voices[j] == old(voices[j])
      {
        if voices[i].stage != Inactive {
          voices[i] := Rendered(voices[i], configuration);
        }
      }
      RenderedStaysReconciled(old(voices[..]), voices[..], desired, configuration);
      AllAudibleAfterBlock(old(voices[..]), voices[..], desired, configuration);
      RenderedAges(old(voices[..]), voices[..], configuration, ageCounter);
    }

    /** Every run of updates, panics, callbacks and closing keeps the pool: distinct keys, and no allocation
        ever fails (it has no failing path). */
    method Run(events: seq<Event>)
      requires Valid() && forall e :: e in events && e.UpdateEvent? ==> Audible(e.notes)
      modifies this, voices
      ensures Valid()
    {
      for i := 0 to |events|
        invariant Valid()
      {
        assert events[i] in events;
        match events[i]
        case UpdateEvent(notes, generation) => Update(notes, generation);
        case PanicEvent(generation) => var raised := Panic(generation);
        case CallbackEvent(wellShaped) => var rendered := Callback(wellShaped);
        case CloseEvent => CloseSynth();
      }
    }
  }

  datatype Event =
    | UpdateEvent(notes: map<Id, nat>, generation: nat)
    | PanicEvent(panicGeneration: int)
    | CallbackEvent(wellShaped: bool)
    | CloseEvent
}
