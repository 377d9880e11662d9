/** The voices of the debug synth (debug_synth.py) as values: the cap, allocation, release and stealing, envelopes.
    Keys are channel * 128 + note. */
module Voices {
  import opened Common

  datatype Stage = Inactive | Attack | Sustain | Release

  datatype Voice = Voice(key: int, velocity: nat, envelope: real, stage: Stage, age: nat)

  predicate Active(v: Voice) { v.stage != Inactive }
  predicate Sounds(v: Voice) { v.stage == Attack || v.stage == Sustain }

  /* ---- the pool ---- */

  ghost predicate VoiceOk(v: Voice) {
    && (v.stage == Inactive ==> v.key == -1 && v.envelope == 0.0)
    && (v.stage == Sustain ==> v.envelope == 1.0)
    && 0.0 <= v.envelope <= 1.0
  }

  ghost predicate DistinctKeys(voices: seq<Voice>) {
    forall i, j :: 0 <= i < j < |voices| && Active(voices[i]) && Active(voices[j]) ==> voices[i].key != voices[j].key
  }

  ghost predicate PoolOk(voices: seq<Voice>) {
    DistinctKeys(voices) && forall i :: 0 <= i < |voices| ==> VoiceOk(voices[i])
  }

  ghost predicate Held(voices: seq<Voice>, k: int) {
    exists i :: 0 <= i < |voices| && Active(voices[i]) && voices[i].key == k
  }

  /** A voice that plays plays a desired key at its velocity, and one whose key is not desired is released. */
  ghost predicate Follows(voices: seq<Voice>, desired: map<Id, nat>) {
    forall i :: 0 <= i < |voices| && Active(voices[i]) ==>
      (Sounds(voices[i]) <==> voices[i].key in desired)
        && (voices[i].key in desired ==> voices[i].velocity == desired[voices[i].key])
  }

  /** Every desired key has its voice; with distinct keys, exactly one. */
  ghost predicate Reconciled(voices: seq<Voice>, desired: map<Id, nat>) {
    PoolOk(voices) && Follows(voices, desired) && forall k :: k in desired ==> Held(voices, k)
  }

  lemma ExactlyOneVoice(voices: seq<Voice>, desired: map<Id, nat>, k: Id)
    requires Reconciled(voices, desired) && k in desired
    ensures exists i :: && 0 <= i < |voices| && Sounds(voices[i])
                        && voices[i].key == k && voices[i].velocity == desired[k]
                        && forall j :: 0 <= j < |voices| && Active(voices[j]) && voices[j].key == k ==> j == i
  {
    assert Held(voices, k);
    var i :| 0 <= i < |voices| && Active(voices[i]) && voices[i].key == k;
  }

  /** Active voices were started one after another, so the oldest is unique. */
  ghost predicate AgesOk(voices: seq<Voice>, counter: nat) {
    && (forall i :: 0 <= i < |voices| ==> voices[i].age <= counter)
    && (forall i, j :: 0 <= i < j < |voices| && Active(voices[i]) && Active(voices[j]) ==>
        voices[i].age != voices[j].age)
  }

  /** A key that had a voice keeps that voice and its level, and if it is to sound its stage, but for a release, which
      turns into an attack; a new key starts from silence. */
  ghost predicate Continues(before: seq<Voice>, after: seq<Voice>) {
    && |after| == |before|
    && forall i {:trigger ContinuesAt(before, after, i)} :: 0 <= i < |after| ==> ContinuesAt(before, after, i)
  }

  ghost predicate ContinuesAt(before: seq<Voice>, after: seq<Voice>, i: nat)
    requires |after| == |before| && i < |after|
  {
    Active(after[i]) ==>
      if Held(before, after[i].key)
      then Active(before[i]) && before[i].key == after[i].key && before[i].envelope == after[i].envelope
        && before[i].age == after[i].age
        && (Sounds(after[i]) ==> after[i].stage == if before[i].stage == Release then Attack else before[i].stage)
      else after[i].stage == Attack && after[i].envelope == 0.0
  }

  /* ---- pigeonhole ---- */

  function KeySet(voices: seq<Voice>): set<int> { set i | 0 <= i < |voices| :: voices[i].key }

  lemma {:induction false} DistinctKeysFill(voices: seq<Voice>)
    requires DistinctKeys(voices) && forall i :: 0 <= i < |voices| ==> Active(voices[i])
    ensures |KeySet(voices)| == |voices|
  {
    if voices == [] {
    } else {
      var front, last := voices[..|voices| - 1], voices[|voices| - 1];
      DistinctKeysFill(front);
      assert KeySet(voices) == KeySet(front) + {last.key};
      assert last.key !in KeySet(front);
    }
  }

  /** With a desired key still without a voice, not every voice of the pool can be playing another. */
  lemma SomeVoiceIsFree(voices: seq<Voice>, desired: map<Id, nat>, k: Id)
    requires DistinctKeys(voices) && |desired| <= |voices| && k in desired && !Held(voices, k)
    ensures exists i :: 0 <= i < |voices| && (!Active(voices[i]) || voices[i].key !in desired)
  {
    if forall i :: 0 <= i < |voices| ==> Active(voices[i]) && voices[i].key in desired {
      DistinctKeysFill(voices);
      var wanted: set<int> := set x: int | x in desired.Keys;
      assert wanted == desired.Keys;
      assert KeySet(voices) < wanted by { assert k in wanted && k !in KeySet(voices); }
      SubsetSize(KeySet(voices), wanted);
      assert false;
    }
  }

  /* ---- allocation ---- */

  /** Quieter, or as quiet and no younger. */
  predicate NotBehind(a: Voice, b: Voice) {
    a.envelope < b.envelope || (a.envelope == b.envelope && a.age <= b.age)
  }

  /** The first idle voice, or else, of the voices of unwanted keys, the quietest and among these the oldest. */
  ghost predicate Selected(voices: seq<Voice>, desired: map<Id, nat>, v: nat) {
    && v < |voices|
    && (Active(voices[v]) ==>
          && voices[v].key !in desired
          && (forall i :: 0 <= i < |voices| ==> Active(voices[i]))
          && forall i :: 0 <= i < |voices| && voices[i].key !in desired ==> NotBehind(voices[v], voices[i]))
    && (!Active(voices[v]) ==> forall i :: 0 <= i < v ==> Active(voices[i]))
  }

  /** A voice as the first pass of a reconciliation leaves it. */
  function Touched(v: Voice, desired: map<Id, nat>): Voice {
    if v.stage == Inactive then v
    else if v.key !in desired then v.(stage := Release)
    else v.(velocity := desired[v.key], stage := if v.stage == Release then Attack else v.stage)
  }

  lemma TouchedFollows(before: seq<Voice>, after: seq<Voice>, desired: map<Id, nat>)
    requires PoolOk(before) && |after| == |before| && forall i :: 0 <= i < |before| ==>
             after[i] == Touched(before[i], desired)
    ensures PoolOk(after) && Follows(after, desired)
    ensures forall k :: Held(after, k) <==> Held(before, k)
  {
    forall k ensures Held(after, k) <==> Held(before, k) {
      if Held(before, k) {
        var i :| 0 <= i < |before| && Active(before[i]) && before[i].key == k;
        assert Active(after[i]) && after[i].key == k;
      }
      if Held(after, k) {
        var i :| 0 <= i < |after| && Active(after[i]) && after[i].key == k;
        assert Active(before[i]) && before[i].key == k;
      }
    }
  }

  lemma TouchedContinues(before: seq<Voice>, after: seq<Voice>, desired: map<Id, nat>)
    requires |after| == |before| && forall i :: 0 <= i < |before| ==> after[i] == Touched(before[i], desired)
    ensures Continues(before, after)
    ensures forall counter: nat :: AgesOk(before, counter) ==> AgesOk(after, counter)
  {
    forall i | 0 <= i < |after| && Active(after[i]) ensures Held(before, after[i].key) {
      assert Active(before[i]) && before[i].key == after[i].key;
    }
  }

  /** Giving a free voice to a key without one keeps the pool and takes no desired key's voice. */
  lemma EnterKeeps(voices: seq<Voice>, desired: map<Id, nat>, v: nat, k: Id, age: nat)
    requires PoolOk(voices) && Follows(voices, desired) && Selected(voices, desired, v) && k in desired
             && !Held(voices, k)
    ensures var after := voices[v := Voice(k, desired[k], 0.0, Attack, age)];
            && PoolOk(after) && Follows(after, desired) && Held(after, k)
            && forall x :: x in desired && x != k ==> (Held(after, x) <==> Held(voices, x))
  {
    var after := voices[v := Voice(k, desired[k], 0.0, Attack, age)];
    assert after[v].key == k && Active(after[v]);
    forall x | x in desired && x != k ensures Held(after, x) <==> Held(voices, x) {
      if Held(voices, x) {
        var i :| 0 <= i < |voices| && Active(voices[i]) && voices[i].key == x;
        assert i != v && after[i] == voices[i];
      }
      if Held(after, x) {
        var i :| 0 <= i < |after| && Active(after[i]) && after[i].key == x;
        assert voices[i] == after[i];
      }
    }
  }

  lemma EnterContinues(before: seq<Voice>, voices: seq<Voice>, v: nat, k: Id, velocity: nat, age: nat)
    requires Continues(before, voices) && v < |voices| && !Held(before, k)
    ensures Continues(before, voices[v := Voice(k, velocity, 0.0, Attack, age)])
  {
    var after := voices[v := Voice(k, velocity, 0.0, Attack, age)];
    forall i | 0 <= i < |after| ensures ContinuesAt(before, after, i) {
      assert ContinuesAt(before, voices, i);
    }
  }

  /** The keys that had no voice got theirs one after another, lower keys first. */
  ghost predicate EnteredInOrder(before: seq<Voice>, after: seq<Voice>) {
    forall i, j {:trigger LowerFirst(before, after, i, j)} ::
      0 <= i < |after| && 0 <= j < |after| ==> LowerFirst(before, after, i, j)
  }

  ghost predicate LowerFirst(before: seq<Voice>, after: seq<Voice>, i: nat, j: nat)
    requires i < |after| && j < |after|
  {
    Entered(before, after[i]) && Entered(before, after[j]) && after[i].key < after[j].key ==>
      after[i].age < after[j].age
  }

  ghost predicate Entered(before: seq<Voice>, v: Voice) { Active(v) && !Held(before, v.key) }

  /** All keys entered so far are below `k`. */
  ghost predicate EnteredBelow(before: seq<Voice>, voices: seq<Voice>, k: int) {
    forall i {:trigger Entered(before, voices[i])} ::
      0 <= i < |voices| && Entered(before, voices[i]) ==> voices[i].key < k
  }

  /** The second pass of a reconciliation, with these keys still to be given a voice. */
  ghost predicate Entering(before: seq<Voice>, voices: seq<Voice>, desired: map<Id, nat>, waiting: seq<Id>) {
    && Continues(before, voices) && EnteredInOrder(before, voices)
    && (forall k :: k in desired ==> (Held(voices, k) <==> k !in waiting))
    && (forall k :: k in waiting ==> k in desired && !Held(before, k) && EnteredBelow(before, voices, k))
  }

  lemma EnterNext(before: seq<Voice>, voices: seq<Voice>, after: seq<Voice>, desired: map<Id, nat>, waiting: seq<Id>,
                  v: nat, counter: nat)
    requires waiting != [] && Increasing(waiting) && v < |voices| && waiting[0] in desired
    requires after == voices[v := Voice(waiting[0], desired[waiting[0]], 0.0, Attack, counter + 1)]
    requires forall x :: x in desired ==> (Held(after, x) <==> x == waiting[0] || Held(voices, x))
    ensures Entering(before, voices, desired, waiting) && AgesOk(voices, counter) ==>
              Entering(before, after, desired, waiting[1..])
  {
    var k := waiting[0];
    if Entering(before, voices, desired, waiting) && AgesOk(voices, counter) {
      EnterContinues(before, voices, v, k, desired[k], counter + 1);
      EnterInOrder(before, voices, v, k, desired[k], counter);
      assert forall x :: x in waiting <==> x == k || x in waiting[1..];
      forall x | x in waiting[1..] ensures k < x { var i :| 1 <= i < |waiting| && waiting[i] == x; }
    }
  }

  lemma EnterInOrder(before: seq<Voice>, voices: seq<Voice>, v: nat, k: Id, velocity: nat, counter: nat)
    requires EnteredInOrder(before, voices) && EnteredBelow(before, voices, k) && v < |voices|
    requires AgesOk(voices, counter)
    ensures var after := voices[v := Voice(k, velocity, 0.0, Attack, counter + 1)];
            EnteredInOrder(before, after) && EnteredBelow(before, after, k + 1)
  {
    var after := voices[v := Voice(k, velocity, 0.0, Attack, counter + 1)];
    forall i, j | 0 <= i < |after| && 0 <= j < |after| ensures LowerFirst(before, after, i, j) {
      if i != v && j != v { assert LowerFirst(before, voices, i, j); }
      assert i != v && Entered(before, after[i]) ==> Entered(before, voices[i]);
      assert j != v && Entered(before, after[j]) ==> Entered(before, voices[j]);
    }
    forall i | 0 <= i < |after| && Entered(before, after[i]) ensures after[i].key < k + 1 {
      assert i != v ==> Entered(before, voices[i]);
    }
  }

  /* ---- envelopes ---- */

  datatype Configuration = Configuration(maxVoices: nat, blockSize: nat, attackSamples: real, releaseSamples: real)

  /** The ranges the source enforces; the sample counts are already clamped to at least one. */
  predicate Configured(c: Configuration) {
    1 <= c.maxVoices <= 128 && 1 <= c.blockSize && c.attackSamples >= 1.0 && c.releaseSamples >= 1.0
  }

  /** The level and stage one block later. */
  function Rendered(v: Voice, c: Configuration): Voice
    requires Configured(c)
  {
    match v.stage
    case Attack =>
      var level := v.envelope + c.blockSize as real / c.attackSamples;
      if level >= 1.0 then v.(envelope := 1.0, stage := Sustain) else v.(envelope := level)
    case Release =>
      var level := v.envelope - c.blockSize as real / c.releaseSamples;
      if level <= 0.0 then v.(envelope := 0.0, stage := Inactive, key := -1) else v.(envelope := level)
    case _ => v
  }

  ghost predicate IsRendered(before: seq<Voice>, after: seq<Voice>, c: Configuration)
    requires Configured(c)
  {
    |after| == |before| && forall i :: 0 <= i < |before| ==> after[i] == Rendered(before[i], c)
  }

  /** Rendering a block takes no voice from a desired key. */
  lemma RenderedStaysReconciled(before: seq<Voice>, after: seq<Voice>, desired: map<Id, nat>, c: Configuration)
    requires Configured(c) && Reconciled(before, desired) && IsRendered(before, after, c)
    ensures Reconciled(after, desired)
  {
    forall i | 0 <= i < |before| ensures VoiceOk(after[i]) {
      assert VoiceOk(before[i]) && after[i] == Rendered(before[i], c);
      RenderedOk(before[i], c);
    }
    forall i | 0 <= i < |before| && Active(after[i])
      ensures Active(before[i]) && after[i].key == before[i].key && after[i].velocity == before[i].velocity
      ensures Sounds(after[i]) <==> Sounds(before[i])
    {
      assert after[i] == Rendered(before[i], c);
    }
    forall k | k in desired ensures Held(after, k) {
      assert Held(before, k);
      var i :| 0 <= i < |before| && Active(before[i]) && before[i].key == k;
      assert Sounds(before[i]) && after[i] == Rendered(before[i], c);
      assert Active(after[i]) && after[i].key == k;
    }
  }

  lemma RenderedAges(before: seq<Voice>, after: seq<Voice>, c: Configuration, counter: nat)
    requires Configured(c) && AgesOk(before, counter) && IsRendered(before, after, c)
    ensures AgesOk(after, counter)
  {
    assert forall i :: 0 <= i < |after| ==> after[i].age == before[i].age && (Active(after[i]) ==> Active(before[i]));
  }

  lemma RenderedOk(v: Voice, c: Configuration)
    requires Configured(c) && VoiceOk(v)
    ensures VoiceOk(Rendered(v, c))
  {
    assert c.blockSize as real / c.attackSamples >= 0.0 && c.blockSize as real / c.releaseSamples >= 0.0;
  }

  /** A voice some blocks later, if no state touches it. */
  function AfterBlocks(v: Voice, c: Configuration, blocks: nat): Voice
    requires Configured(c)
  {
    if blocks == 0 then v else Rendered(AfterBlocks(v, c, blocks - 1), c)
  }

  /** A released voice falls on a straight line, and is idle from where that reaches zero. */
  lemma {:induction false} ReleaseIsLinear(v: Voice, c: Configuration, blocks: nat)
    requires Configured(c) && VoiceOk(v) && v.stage == Release && blocks > 0
    ensures var left := v.envelope - blocks as real * (c.blockSize as real / c.releaseSamples);
            AfterBlocks(v, c, blocks) == if left > 0.0 then v.(envelope := left)
              else v.(envelope := 0.0, stage := Inactive, key := -1)
  {
    var step := c.blockSize as real / c.releaseSamples;
    assert step >= 0.0;
    if blocks > 1 {
      ReleaseIsLinear(v, c, blocks - 1);
      OneStepMore(blocks as real, step);
    }
    assert AfterBlocks(v, c, blocks) == Rendered(AfterBlocks(v, c, blocks - 1), c);
  }

  /** An attacking voice rises on a straight line up to 1, and is sustained from where it gets there. */
  lemma {:induction false} AttackIsLinear(v: Voice, c: Configuration, blocks: nat)
    requires Configured(c) && VoiceOk(v) && v.stage == Attack && blocks > 0
    ensures var level := v.envelope + blocks as real * (c.blockSize as real / c.attackSamples);
            AfterBlocks(v, c, blocks) == if level < 1.0 then v.(envelope := level)
              else v.(envelope := 1.0, stage := Sustain)
  {
    var step := c.blockSize as real / c.attackSamples;
    assert step >= 0.0;
    if blocks > 1 {
      AttackIsLinear(v, c, blocks - 1);
      OneStepMore(blocks as real, step);
    }
    assert AfterBlocks(v, c, blocks) == Rendered(AfterBlocks(v, c, blocks - 1), c);
  }

  /** So it is sustained, at full level, once the blocks cover the attack time, and stays so. */
  lemma {:induction false} AttackEnds(v: Voice, c: Configuration, blocks: nat)
    requires Configured(c) && VoiceOk(v) && v.stage == Attack && blocks > 0
    requires blocks as real * c.blockSize as real >= c.attackSamples
    ensures AfterBlocks(v, c, blocks) == v.(envelope := 1.0, stage := Sustain)
  {
    var rise := blocks as real * (c.blockSize as real / c.attackSamples);
    AtLeastOne(blocks as real, c.blockSize as real, c.attackSamples);
    assert rise >= 1.0;
    AttackIsLinear(v, c, blocks);
  }

  lemma {:induction false} SustainStays(v: Voice, c: Configuration, blocks: nat)
    requires Configured(c) && v.stage == Sustain
    ensures AfterBlocks(v, c, blocks) == v
  {
    if blocks == 0 {
    } else {
      SustainStays(v, c, blocks - 1);
    }
  }

  /** A block later a playing voice is audible. */
  lemma RenderedIsAudible(v: Voice, c: Configuration)
    requires Configured(c) && VoiceOk(v) && Sounds(v)
    ensures Sounds(Rendered(v, c)) && Rendered(v, c).envelope > 0.0
  {
    PositiveQuotient(c.blockSize as real, c.attackSamples);
  }

  lemma PositiveQuotient(a: real, b: real)
    requires a > 0.0 && b > 0.0
    ensures a / b > 0.0
  {
  }

  /** Every desired key sounds, and not at level 0. */
  ghost predicate AllAudible(voices: seq<Voice>, desired: map<Id, nat>) {
    forall k :: k in desired ==>
                  exists i :: 0 <= i < |voices| && Sounds(voices[i]) && voices[i].key == k && voices[i].envelope > 0.0
  }

  lemma AllAudibleAfterBlock(before: seq<Voice>, after: seq<Voice>, desired: map<Id, nat>, c: Configuration)
    requires Configured(c) && Reconciled(before, desired) && IsRendered(before, after, c)
    ensures AllAudible(after, desired)
  {
    forall k | k in desired
      ensures exists i :: 0 <= i < |after| && Sounds(after[i]) && after[i].key == k && after[i].envelope > 0.0
    {
      assert Held(before, k);
      var i :| 0 <= i < |before| && Active(before[i]) && before[i].key == k;
      RenderedIsAudible(before[i], c);
      assert after[i] == Rendered(before[i], c);
    }
  }

  lemma OneStepMore(n: real, step: real)
    ensures n * step == (n - 1.0) * step + step
  {
  }

  /** So it is idle once the blocks cover the release time. */
  lemma ReleaseEnds(v: Voice, c: Configuration, blocks: nat)
    requires Configured(c) && VoiceOk(v) && v.stage == Release && blocks > 0
    requires blocks as real * c.blockSize as real >= c.releaseSamples
    ensures !Active(AfterBlocks(v, c, blocks))
  {
    ReleaseIsLinear(v, c, blocks);
    AtLeastOne(blocks as real, c.blockSize as real, c.releaseSamples);
  }

  lemma AtLeastOne(n: real, a: real, b: real)
    requires n * a >= b > 0.0
    ensures n * (a / b) >= 1.0
  {
    var q := a / b;
    assert a == q * b;
    assert n * a == n * q * b;
    assert (n * q - 1.0) * b >= 0.0;
  }

  /* ---- the cap ---- */

  /** Louder, or as loud with a lower key. */
  predicate Outranks(notes: map<Id, nat>, a: Id, b: Id)
    requires a in notes && b in notes
  {
    notes[a] > notes[b] || (notes[a] == notes[b] && a < b)
  }

  /** The `n` loudest notes, ties to lower keys. */
  ghost predicate Loudest(notes: map<Id, nat>, kept: map<Id, nat>, n: nat) {
    && kept.Keys <= notes.Keys && (forall k :: k in kept ==> kept[k] == notes[k])
    && |kept| == (if |notes| <= n then |notes| else n)
    && forall k, d :: k in kept && d in notes && d !in kept ==> Outranks(notes, k, d)
  }

  /** A note is left out only if there are `n` others, each louder, or as loud with a lower key. */
  lemma LeftOutIsOutdone(notes: map<Id, nat>, kept: map<Id, nat>, n: nat, d: Id)
    requires Loudest(notes, kept, n) && d in notes && d !in kept
    ensures |kept| == n && forall k :: k in kept ==> notes[k] > notes[d] || (notes[k] == notes[d] && k < d)
  {
    assert forall k :: k in kept ==> Outranks(notes, k, d);
    assert |kept| == |kept.Keys| && |notes| == |notes.Keys| && kept.Keys != notes.Keys;
    SubsetSize(kept.Keys, notes.Keys);
  }

  method Best(notes: map<Id, nat>, among: set<Id>) returns (k: Id)
    requires among != {} && among <= notes.Keys
    ensures k in among && forall d :: d in among && d != k ==> Outranks(notes, k, d)
  {
    k :| k in among;
    var rest := among - {k};
    while rest != {}
      invariant k in among && rest <= among && forall d :: d in among && d != k ==> d in rest || Outranks(notes, k, d)
      decreases rest
    {
      var d :| d in rest;
      if Outranks(notes, d, k) {
        k := d;
      }
      rest := rest - {d};
    }
  }

  method Cap(notes: map<Id, nat>, n: nat) returns (kept: map<Id, nat>)
    ensures Loudest(notes, kept, n)
  {
    if |notes| <= n {
      return notes;
    }
    kept := map[];
    var rest := notes.Keys;
    assert |notes.Keys| == |notes|;
    while |kept| < n
      invariant |kept| <= n && kept.Keys !! rest && kept.Keys + rest == notes.Keys && |rest| + |kept| == |notes|
      invariant forall k :: k in kept ==> kept[k] == notes[k]
      invariant forall k, d :: k in kept && d in rest ==> Outranks(notes, k, d)
    {
      var k := Best(notes, rest);
      ghost var was := kept;
      kept := kept[k := notes[k]];
      assert kept.Keys == was.Keys + {k} && |kept| == |kept.Keys|;
      rest := rest - {k};
    }
  }

  predicate Audible(notes: map<Id, nat>) { forall k :: k in notes ==> notes[k] > 0 }
}
