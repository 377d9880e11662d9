/** The passes of the video loop as values: what the decode worker sends, and what has been shown of a pass. */
module LoopPass {
  import opened RegionPass

  datatype Item = Live(decoded: Decoded) | Loop | End

  /** A presented frame with its processed index. */
  datatype Shown = Shown(decoded: Decoded, processedIndex: nat)

  /** Exactly the first k frames of the pass, in order, once each, numbered from 1. */
  ghost predicate Shows(shown: seq<Shown>, pass: seq<Decoded>, k: nat) {
    |shown| == k <= |pass| && forall i {:trigger shown[i]} :: 0 <= i < k ==> shown[i] == Shown(pass[i], i + 1)
  }

  /** The queued items carry a consumer from position `p` of the pass to position `d` of a later one. */
  ghost predicate Carries(q: seq<Item>, pass: seq<Decoded>, p: nat, d: nat, ended: bool)
    decreases |q|
  {
    && p <= |pass|
    && if q == [] then p == d && !ended
       else match q[0]
            case Live(x) => p < |pass| && x == pass[p] && Carries(q[1..], pass, p + 1, d, ended)
            case Loop => p == |pass| && Carries(q[1..], pass, 0, d, ended)
            case End => p == |pass| && ended && q == [End]
  }

  lemma {:induction false} CarriesMore(q: seq<Item>, pass: seq<Decoded>, p: nat, d: nat, x: Item)
    requires Carries(q, pass, p, d, false)
    ensures x.Live? && d < |pass| && x.decoded == pass[d] ==> Carries(q + [x], pass, p, d + 1, false)
    ensures x == Loop && d == |pass| ==> Carries(q + [x], pass, p, 0, false)
    ensures x == End && d == |pass| ==> Carries(q + [x], pass, p, d, true)
  {
    if q == [] {
      assert (q + [x])[1..] == [];
    } else {
      assert (q + [x])[1..] == q[1..] + [x];
      CarriesMore(q[1..], pass, if q[0].Loop? then 0 else p + 1, d, x);
    }
  }

  ghost predicate Ascending(pass: seq<Decoded>) {
    forall a, b {:trigger Earlier(pass[a], pass[b])} :: 0 <= a < b < |pass| ==> Earlier(pass[a], pass[b])
  }

  predicate Earlier(a: Decoded, b: Decoded) { a.index < b.index }

  /** A pass shown completely. */
  function Whole(pass: seq<Decoded>): seq<Shown> {
    seq(|pass|, i requires 0 <= i < |pass| => Shown(pass[i], i + 1))
  }

  /** The whole pass n times over. */
  function Times(n: nat, whole: seq<Shown>): seq<Shown> { if n == 0 then [] else Times(n - 1, whole) + whole }

  lemma ShownIsWhole(shown: seq<Shown>, pass: seq<Decoded>)
    ensures Shows(shown, pass, |pass|) <==> shown == Whole(pass)
  {
  }

  /** While a head is being served it is the shared one, and continues what has been shown; otherwise the shared
      head is a prefix of the pass, perhaps drained. */
  ghost predicate HeadOk(items: seq<Decoded>, pass: seq<Decoded>, serving: bool, inUse: bool, finished: bool,
                         served: nat) {
    && (serving ==> inUse && IsRun(items, pass, served))
    && (!finished && !serving ==> !inUse && IsRun(items, pass, 0))
  }

  /** A shared head that is not being served can be served from the start of the next pass. */
  lemma HeadTurns(items: seq<Decoded>, pass: seq<Decoded>, inUse: bool, served: nat)
    requires HeadOk(items, pass, false, inUse, false, served)
    ensures HeadOk(items, pass, true, true, false, 0)
  {
  }

  /** `items` are the frames of the pass from position `from` on, up to some later one. */
  ghost predicate IsRun(items: seq<Decoded>, pass: seq<Decoded>, from: nat) {
    from + |items| <= |pass| && forall i {:trigger items[i]} :: 0 <= i < |items| ==> items[i] == pass[from + i]
  }

  /** After `served` frames of the head and `taken` live ones the longer of the two prefixes has been shown. */
  ghost predicate Presented(pass: seq<Decoded>, shown: seq<Shown>, taken: nat, served: nat, upto: int, processed: nat) {
    && served <= |pass| && taken <= |pass|
    && Shows(shown, pass, if taken < served then served else taken)
    && processed == |shown|
    && upto == if served == 0 then -1 else pass[served - 1].index
  }

  lemma RunGoesOn(items: seq<Decoded>, pass: seq<Decoded>, from: nat)
    requires items != [] && IsRun(items, pass, from)
    ensures items[0] == pass[from] && IsRun(items[1..], pass, from + 1)
  {
  }

  lemma HeadFrameNext(pass: seq<Decoded>, shown: seq<Shown>, served: nat, upto: int, processed: nat)
    requires Ascending(pass) && served < |pass| && Presented(pass, shown, 0, served, upto, processed)
    ensures pass[served].index > upto
    ensures Presented(pass, shown + [Shown(pass[served], processed + 1)], 0, served + 1, pass[served].index,
                      processed + 1)
  {
    assert served > 0 ==> Earlier(pass[served - 1], pass[served]);
  }

  lemma LiveFrameNext(pass: seq<Decoded>, shown: seq<Shown>, taken: nat, served: nat, upto: int, processed: nat)
    requires Ascending(pass) && taken < |pass| && Presented(pass, shown, taken, served, upto, processed)
    ensures (upto >= 0 && pass[taken].index <= upto) <==> taken < served
    ensures taken < served ==> Presented(pass, shown, taken + 1, served, upto, processed)
    ensures taken >= served ==> Presented(pass, shown + [Shown(pass[taken], processed + 1)], taken + 1, served, upto,
                                          processed + 1)
  {
    assert taken < served - 1 ==> Earlier(pass[taken], pass[served - 1]);
    assert 0 < served <= taken ==> Earlier(pass[served - 1], pass[taken]);
  }

  lemma LoopTaken(q: seq<Item>, pass: seq<Decoded>, p: nat, d: nat, ended: bool)
    requires q != [] && q[0] == Loop && Carries(q, pass, p, d, ended)
    ensures p == |pass| && Carries(q[1..], pass, 0, d, ended)
  {
  }

  /* ---- what the presentation has shown ---- */

  /** Frames shown since the last loop signal, live frames taken and head frames served since then, how many passes
      were shown before, whether the signal that no pass follows has been taken, and all that was ever presented. */
  datatype Progress = Progress(
    shown: seq<Shown>, taken: nat, served: nat, passes: nat, atEnd: bool, output: seq<Shown>)

  const NO_PROGRESS := Progress([], 0, 0, 0, false, [])

  ghost predicate ProgressOk(pass: seq<Decoded>, g: Progress, upto: int, processed: nat, finished: bool) {
    && Presented(pass, g.shown, g.taken, g.served, upto, processed)
    && (g.atEnd ==> finished && Shows(g.shown, pass, |pass|))
    && g.output == Times(g.passes, Whole(pass)) + g.shown
  }

  function Presenting(g: Progress, x: Shown): Progress { g.(shown := g.shown + [x], output := g.output + [x]) }

  function NextPass(g: Progress): Progress {
    g.(shown := [], taken := 0, served := 0, passes := g.passes + 1)
  }

  lemma NothingShown(pass: seq<Decoded>)
    ensures ProgressOk(pass, NO_PROGRESS, -1, 0, false)
  {
  }

  lemma Stopped(pass: seq<Decoded>, g: Progress, upto: int, processed: nat)
    requires ProgressOk(pass, g, upto, processed, false)
    ensures ProgressOk(pass, g, upto, processed, true)
  {
  }

  /** A head frame is the next frame of the pass. */
  lemma HeadFrameShown(pass: seq<Decoded>, g: Progress, upto: int, processed: nat)
    requires Ascending(pass) && ProgressOk(pass, g, upto, processed, false) && g.taken == 0 && g.served < |pass|
    ensures pass[g.served].index > upto
    ensures ProgressOk(pass, Presenting(g, Shown(pass[g.served], processed + 1)).(served := g.served + 1),
                       pass[g.served].index, processed + 1, false)
  {
    HeadFrameNext(pass, g.shown, g.served, upto, processed);
    assert Times(g.passes, Whole(pass)) + (g.shown + [Shown(pass[g.served], processed + 1)])
        == Times(g.passes, Whole(pass)) + g.shown + [Shown(pass[g.served], processed + 1)];
  }

  /** A live frame is dropped exactly if the head has shown it. */
  lemma LiveFrameTaken(pass: seq<Decoded>, g: Progress, upto: int, processed: nat)
    requires Ascending(pass) && ProgressOk(pass, g, upto, processed, false) && g.taken < |pass|
    ensures (upto >= 0 && pass[g.taken].index <= upto) <==> g.taken < g.served
    ensures g.taken < g.served ==> ProgressOk(pass, g.(taken := g.taken + 1), upto, processed, false)
    ensures g.taken >= g.served ==>
              ProgressOk(pass, Presenting(g, Shown(pass[g.taken], processed + 1)).(taken := g.taken + 1), upto,
                         processed + 1, false)
  {
    LiveFrameNext(pass, g.shown, g.taken, g.served, upto, processed);
    assert Times(g.passes, Whole(pass)) + (g.shown + [Shown(pass[g.taken], processed + 1)])
        == Times(g.passes, Whole(pass)) + g.shown + [Shown(pass[g.taken], processed + 1)];
  }

  /** When all live frames of a pass have been taken the whole pass has been shown. */
  lemma WholePassShown(pass: seq<Decoded>, g: Progress, upto: int, processed: nat)
    requires ProgressOk(pass, g, upto, processed, false) && g.taken == |pass|
    ensures Shows(g.shown, pass, |pass|)
    ensures ProgressOk(pass, NextPass(g), -1, 0, false)
    ensures ProgressOk(pass, g.(atEnd := true), upto, processed, true)
  {
    ShownIsWhole(g.shown, pass);
    assert g.output == Times(g.passes + 1, Whole(pass)) + [];
  }
}
