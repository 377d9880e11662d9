/** One decode pass over a played region (region_pass.py, run_region_pass). */
module RegionPass {
  import opened Common

  /** A container frame. One without a timestamp counts, but never converts. */
  datatype Frame = Frame(pts: Option<real>, convertible: bool, image: nat)

  /** A selected, converted frame with its ordinal among the frames in range. */
  datatype Decoded = Decoded(index: nat, frame: Frame)

  datatype Region = Region(start: real, end: Option<real>, everyNth: nat)

  datatype Outcome = Outcome(decoded: nat, inRange: nat, skipped: nat, presented: nat, interrupted: bool)

  predicate BeforeStart(f: Frame, r: Region) { f.pts.Some? && f.pts.value < r.start }
  predicate PastEnd(f: Frame, r: Region) { f.pts.Some? && r.end.Some? && f.pts.value > r.end.value }
  /** The frame on which a pass stops. */
  predicate Ends(f: Frame, r: Region) { !BeforeStart(f, r) && PastEnd(f, r) }
  predicate Converts(f: Frame) { f.pts.Some? && f.convertible }

  /** The frames in range: none before the start, and nothing from the first one past the end. */
  function InRegion(frames: seq<Frame>, r: Region): seq<Frame> {
    if frames == [] then []
    else if BeforeStart(frames[0], r) then InRegion(frames[1..], r)
    else if PastEnd(frames[0], r) then []
    else [frames[0]] + InRegion(frames[1..], r)
  }

  /** The frame has a timestamp past the end of the region, and not before its start. */
  predicate IsPast(f: Frame, r: Region) {
    f.pts.Some? && r.end.Some? && r.start <= f.pts.value && r.end.value < f.pts.value
  }

  /** In range are, of the frames before the first one past the end, those with no timestamp before the start. */
  lemma {:induction false} InRegionIs(frames: seq<Frame>, r: Region, n: nat)
    requires n <= |frames| && (forall j :: 0 <= j < n ==> !IsPast(frames[j], r))
    requires n < |frames| ==> IsPast(frames[n], r)
    ensures InRegion(frames, r) == Filter(frames[..n], (f: Frame) => f.pts.Some? ==> f.pts.value >= r.start)
  {
    var keep := (f: Frame) => f.pts.Some? ==> f.pts.value >= r.start;
    if n == 0 {
    } else {
      InRegionIs(frames[1..], r, n - 1);
      FilterFirst(frames[..n], keep);
      assert frames[..n][1..] == frames[1..][..n - 1];
    }
  }

  /** Every n-th frame in range, if it converts. */
  function Selection(inRange: seq<Frame>, everyNth: nat): seq<Decoded>
    requires everyNth > 0
  {
    if inRange == [] then [] else
      var i := |inRange| - 1;
      Selection(inRange[..i], everyNth) + if i % everyNth == 0 && Converts(inRange[i]) then [Decoded(i, inRange[i])]
        else []
  }

  /** What a whole pass presents. */
  function PassFrames(frames: seq<Frame>, r: Region): seq<Decoded>
    requires r.everyNth > 0
  {
    Selection(InRegion(frames, r), r.everyNth)
  }

  /** Exactly the convertible frames at multiples of n are selected, in order. */
  lemma {:induction false} SelectionIsExact(inRange: seq<Frame>, everyNth: nat)
    requires everyNth > 0
    ensures forall d :: d in Selection(inRange, everyNth) <==>
              d.index < |inRange| && d.frame == inRange[d.index] && d.index % everyNth == 0
              && d.frame.pts.Some? && d.frame.convertible
    ensures forall a, b :: 0 <= a < b < |Selection(inRange, everyNth)| ==>
            Selection(inRange, everyNth)[a].index < Selection(inRange, everyNth)[b].index
  {
    if inRange == [] {
    } else {
      var i := |inRange| - 1;
      SelectionIsExact(inRange[..i], everyNth);
      var front := Selection(inRange[..i], everyNth);
      assert forall a :: 0 <= a < |front| ==> front[a] in front;
    }
  }

  lemma {:induction false} SelectionGrows(a: seq<Frame>, b: seq<Frame>, everyNth: nat)
    requires everyNth > 0
    ensures Selection(a, everyNth) <= Selection(a + b, everyNth)
  {
    if b == [] {
      assert a + b == a;
    } else {
      SelectionGrows(a, b[..|b| - 1], everyNth);
      assert (a + b)[..|a + b| - 1] == a + b[..|b| - 1];
    }
  }

  /** Where the pass stands before its k-th frame. */
  ghost predicate Scanned(frames: seq<Frame>, r: Region, k: nat, counted: seq<Frame>, presented: seq<Decoded>)
    requires k <= |frames| && r.everyNth > 0
  {
    && InRegion(frames, r) == counted + InRegion(frames[k..], r)
    && presented == Selection(counted, r.everyNth)
  }

  lemma ScannedPrefix(frames: seq<Frame>, r: Region, k: nat, counted: seq<Frame>, presented: seq<Decoded>)
    requires k <= |frames| && r.everyNth > 0 && Scanned(frames, r, k, counted, presented)
    ensures presented <= PassFrames(frames, r)
    ensures k == |frames| || (k < |frames| && !BeforeStart(frames[k], r) && PastEnd(frames[k], r)) ==>
              presented == PassFrames(frames, r) && |counted| == |InRegion(frames, r)|
  {
    SelectionGrows(counted, InRegion(frames[k..], r), r.everyNth);
    if k == |frames| || (!BeforeStart(frames[k], r) && PastEnd(frames[k], r)) {
      assert InRegion(frames[k..], r) == [];
      assert counted + [] == counted;
    }
  }

  lemma ScannedNext(frames: seq<Frame>, r: Region, k: nat, counted: seq<Frame>, presented: seq<Decoded>)
    requires k < |frames| && r.everyNth > 0 && Scanned(frames, r, k, counted, presented)
    ensures BeforeStart(frames[k], r) ==> Scanned(frames, r, k + 1, counted, presented)
    ensures !BeforeStart(frames[k], r) && !PastEnd(frames[k], r) ==>
              Scanned(frames, r, k + 1, counted + [frames[k]],
                      presented + if |counted| % r.everyNth == 0
                        && Converts(frames[k]) then [Decoded(|counted|, frames[k])] else [])
  {
    assert frames[k..][0] == frames[k] && frames[k..][1..] == frames[k + 1..];
    assert (counted + [frames[k]])[..|counted|] == counted;
    if !BeforeStart(frames[k], r) && !PastEnd(frames[k], r) {
      assert counted + ([frames[k]] + InRegion(frames[k + 1..], r))
             == counted + [frames[k]] + InRegion(frames[k + 1..], r);
    }
  }

  /** How many of the first n ordinals are multiples. */
  function Multiples(n: nat, everyNth: nat): nat
    requires everyNth > 0
  {
    if n == 0 then 0 else Multiples(n - 1, everyNth) + if (n - 1) % everyNth == 0 then 1 else 0
  }

  /** The first k frames do not end the pass, and `skipped` of the `inRange` ones are no multiples. */
  ghost predicate Counted(frames: seq<Frame>, r: Region, k: nat, inRange: nat, skipped: nat)
    requires k <= |frames| && r.everyNth > 0
  {
    && inRange <= k && inRange == skipped + Multiples(inRange, r.everyNth)
    && forall j :: 0 <= j < k ==> !Ends(frames[j], r)
  }

  /** Decoding went on to the first frame past the end, unless interrupted, and the in-range frames are
      those skipped by the selection and the multiples of n. */
  ghost predicate CountersTell(frames: seq<Frame>, r: Region, decoded: nat, inRange: nat, skipped: nat,
                               interrupted: bool)
    requires r.everyNth > 0
  {
    && inRange <= decoded <= |frames|
    && inRange == skipped + Multiples(inRange, r.everyNth)
    && (forall j :: 0 <= j < decoded - 1 ==> !Ends(frames[j], r))
    && (interrupted || decoded == |frames| || (decoded > 0 && Ends(frames[decoded - 1], r)))
  }

  /** Where the pass stands before its k-th frame. */
  ghost predicate Passing(frames: seq<Frame>, r: Region, budget: Option<nat>, k: nat, counted: seq<Frame>,
                          presented: seq<Decoded>, skipped: nat)
    requires k <= |frames| && r.everyNth > 0
  {
    && Scanned(frames, r, k, counted, presented) && Counted(frames, r, k, |counted|, skipped)
    && (budget.Some? ==> |presented| < budget.value || presented == [])
  }

  /** What a pass presents and reports. It is interrupted only by the stop or by its full consumer. */
  ghost predicate Done(frames: seq<Frame>, r: Region, budget: Option<nat>, stopAt: nat, presented: seq<Decoded>,
                       o: Outcome)
    requires r.everyNth > 0
  {
    && presented <= PassFrames(frames, r) && o.presented == |presented|
    && (!o.interrupted ==> presented == PassFrames(frames, r) && o.inRange == |InRegion(frames, r)|)
    && (o.interrupted ==> stopAt < |frames| || (budget.Some? && |presented| > 0 && |presented| >= budget.value))
    && (budget.Some? && budget.value > 0 ==> |presented| <= budget.value)
    && CountersTell(frames, r, o.decoded, o.inRange, o.skipped, o.interrupted)
  }

  lemma PassStops(frames: seq<Frame>, r: Region, budget: Option<nat>, stopAt: nat, k: nat, counted: seq<Frame>,
                  presented: seq<Decoded>, skipped: nat)
    requires k < |frames| && r.everyNth > 0 && Passing(frames, r, budget, k, counted, presented, skipped)
    ensures stopAt <= k ==> Done(frames, r, budget, stopAt, presented,
                                 Outcome(k + 1, |counted|, skipped, |presented|, true))
    ensures Ends(frames[k], r) ==>
            Done(frames, r, budget, stopAt, presented, Outcome(k + 1, |counted|, skipped, |presented|, false))
  {
    ScannedPrefix(frames, r, k, counted, presented);
  }

  lemma PassEnds(frames: seq<Frame>, r: Region, budget: Option<nat>, stopAt: nat, counted: seq<Frame>,
                 presented: seq<Decoded>, skipped: nat)
    requires r.everyNth > 0 && Passing(frames, r, budget, |frames|, counted, presented, skipped)
    ensures Done(frames, r, budget, stopAt, presented, Outcome(|frames|, |counted|, skipped, |presented|, false))
  {
    ScannedPrefix(frames, r, |frames|, counted, presented);
  }

  lemma FrameSkipped(frames: seq<Frame>, r: Region, budget: Option<nat>, k: nat, counted: seq<Frame>,
                     presented: seq<Decoded>, skipped: nat)
    requires k < |frames| && r.everyNth > 0 && Passing(frames, r, budget, k, counted, presented, skipped)
             && BeforeStart(frames[k], r)
    ensures Passing(frames, r, budget, k + 1, counted, presented, skipped)
  {
    ScannedNext(frames, r, k, counted, presented);
  }

  lemma FrameCounted(frames: seq<Frame>, r: Region, budget: Option<nat>, stopAt: nat, k: nat, counted: seq<Frame>,
                     presented: seq<Decoded>, skipped: nat)
    requires k < |frames| && r.everyNth > 0 && Passing(frames, r, budget, k, counted, presented, skipped)
    requires !BeforeStart(frames[k], r) && !PastEnd(frames[k], r)
    ensures var selected := |counted| % r.everyNth == 0;
            var after := presented + if selected && Converts(frames[k]) then [Decoded(|counted|, frames[k])] else [];
            var dropped := skipped + if selected then 0 else 1;
            if budget.Some? && |after| > |presented| && |after| >= budget.value
            then Done(frames, r, budget, stopAt, after, Outcome(k + 1, |counted| + 1, dropped, |after|, true))
            else Passing(frames, r, budget, k + 1, counted + [frames[k]], after, dropped)
  {
    ScannedNext(frames, r, k, counted, presented);
    var after := presented + if |counted| % r.everyNth == 0 && Converts(frames[k]) then [Decoded(|counted|, frames[k])]
      else [];
    ScannedPrefix(frames, r, k + 1, counted + [frames[k]], after);
  }

  /** The pass. `budget` is the number of frames after which the consumer ends it, and `stopAt` the number of
      decoded frames after which a stop is seen. */
  method Run(frames: seq<Frame>, r: Region, budget: Option<nat>, stopAt: nat)
    returns (outcome: Outcome, presented: seq<Decoded>)
    requires r.everyNth > 0
    ensures Done(frames, r, budget, stopAt, presented, outcome)
  {
    presented := [];
    var decoded, inRange, skipped, index := 0, 0, 0, 0;
    ghost var counted: seq<Frame> := [];
    for k := 0 to |frames|
      invariant Passing(frames, r, budget, k, counted, presented, skipped)
      invariant index == inRange == |counted| && decoded == k
    {
      var f := frames[k];
      decoded := decoded + 1;
      PassStops(frames, r, budget, stopAt, k, counted, presented, skipped);
      if decoded > stopAt {
        outcome := Outcome(decoded, inRange, skipped, |presented|, true);
        return;
      }
      if BeforeStart(f, r) {
        FrameSkipped(frames, r, budget, k, counted, presented, skipped);
        continue;
      }
      if PastEnd(f, r) {
        outcome := Outcome(decoded, inRange, skipped, |presented|, false);
        return;
      }
      FrameCounted(frames, r, budget, stopAt, k, counted, presented, skipped);
      inRange := inRange + 1;
      counted := counted + [f];
      if index % r.everyNth == 0 {
        if Converts(f) {
          presented := presented + [Decoded(index, f)];
          if budget.Some? && |presented| >= budget.value {
            outcome := Outcome(decoded, inRange, skipped, |presented|, true);
            return;
          }
        } else {
          assert presented + [] == presented;
        }
      } else {
        skipped := skipped + 1;
        assert presented + [] == presented;
      }
      index := index + 1;
    }
    PassEnds(frames, r, budget, stopAt, counted, presented, skipped);
    outcome := Outcome(decoded, inRange, skipped, |presented|, false);
  }
}
