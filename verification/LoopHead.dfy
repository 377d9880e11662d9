/** The loop boundary of the video source (video_source.py): a decode worker that repeats the pass, a head
    worker that stages its first frames, and a presentation thread that serves the staged head before the
    restarted pass catches up. Runs without seeks and without failing decodes. */
module LoopHead {
  import opened Common
  import opened RegionPass
  import opened LoopPass

  class FrameQueue {
    var items: seq<Decoded>
    constructor (items: seq<Decoded>)
      ensures this.items == items
    {
      this.items := items;
    }
  }

  class VideoLoop {
    const frames: seq<Frame>
    const region: Region
    const loops: bool
    /** What every pass over the region selects. */
    ghost const pass: seq<Decoded>

    var decodeQueue: seq<Item>
    var decoded: nat
    var ended: bool

    var headQueue: FrameQueue
    var headInUse: bool
    var staged: FrameQueue?

    var captured: FrameQueue
    var usingHead: bool
    var headUpto: int
    var processedIndex: nat
    var finished: bool

    ghost var progress: Progress

    ghost function Queues(): set<FrameQueue?>
      reads this
    {
      if staged == null then {headQueue, captured} else {headQueue, captured, staged}
    }

    ghost predicate Valid()
      reads this, headQueue, captured, staged
    {
      && region.everyNth > 0 && pass == PassFrames(frames, region)
      && Ascending(pass)
      && QueuesOk()
      && ProgressOk(pass, progress, headUpto, processedIndex, finished)
      && (!finished ==> Carries(decodeQueue, pass, progress.taken, decoded, ended))
      && EndsOk()
    }

    /** The source loops, and a pass holds some frame in range. */
    predicate Repeats()
      reads this
    {
      loops && InRegion(frames, region) != []
    }

    /** No pass is ever followed by another unless the source repeats, and by the end only if it does not. */
    ghost predicate EndsOk()
      reads this
    {
      && (!Repeats() ==> Loop !in decodeQueue && progress.passes == 0)
      && (ended || progress.atEnd ==> !Repeats())
    }

    ghost predicate QueuesOk()
      reads this, headQueue, captured, staged
    {
      && decoded <= |pass|
      && (usingHead ==> captured == headQueue && progress.taken == 0)
      && HeadOk(headQueue.items, pass, usingHead, headInUse, finished, progress.served)
      && (staged != null ==> staged != headQueue && staged != captured && IsRun(staged.items, pass, 0))
    }

    constructor (frames: seq<Frame>, region: Region, loops: bool)
      requires region.everyNth > 0
      ensures Valid() && fresh(headQueue) && headQueue == captured && staged == null
      ensures progress == NO_PROGRESS && !finished
      ensures this.frames == frames && this.region == region && this.loops == loops
    {
      this.frames, this.region, this.loops := frames, region, loops;
      pass := PassFrames(frames, region);
      decodeQueue, decoded, ended := [], 0, false;
      var empty := new FrameQueue([]);
      headQueue, headInUse, staged, captured, usingHead, headUpto, processedIndex, finished :=
        empty, false, null, empty, false, -1, 0, false;
      progress := NO_PROGRESS;
      NothingShown(PassFrames(frames, region));
      SelectionIsExact(InRegion(frames, region), region.everyNth);
    }

    /** The decode worker hands over the next frame of its pass, or ends the pass: with a loop signal if the
        source loops and the pass held any frame in range, else for good. */
    method DecodeStep()
      requires Valid()
      modifies this`decodeQueue, this`decoded, this`ended
      ensures Valid()
      ensures old(ended) || finished ==>
                decodeQueue == old(decodeQueue) && decoded == old(decoded) && ended == old(ended)
      ensures !old(ended) && !finished ==>
                var pass := PassFrames(frames, region);
                if old(decoded) < |pass|
                then decodeQueue == old(decodeQueue) + [Live(pass[old(decoded)])] && decoded == old(decoded) + 1
                  && !ended
                else if loops && InRegion(frames, region) != []
                then decodeQueue == old(decodeQueue) + [Loop] && decoded == 0 && !ended
                else decodeQueue == old(decodeQueue) + [End] && decoded == old(decoded) && ended
    {
      if ended || finished {
        return;
      }
      var selected := PassFrames(frames, region);
      if decoded < |selected| {
        CarriesMore(decodeQueue, pass, progress.taken, decoded, Live(selected[decoded]));
        decodeQueue := decodeQueue + [Live(selected[decoded])];
        decoded := decoded + 1;
      } else if Repeats() {
        CarriesMore(decodeQueue, pass, progress.taken, decoded, Loop);
        decodeQueue := decodeQueue + [Loop];
        decoded := 0;
      } else {
        CarriesMore(decodeQueue, pass, progress.taken, decoded, End);
        decodeQueue := decodeQueue + [End];
        ended := true;
      }
    }

    /** The head worker runs the same pass up to its budget and keeps the frames, if any, for a swap. */
    method StageHead(budget: nat, stopAt: nat)
      requires Valid()
      modifies this`staged
      ensures Valid() && fresh(Queues() - old(Queues()))
      ensures staged == old(staged) || (staged != null && staged.items != [])
    {
      var outcome, presented := RegionPass.Run(frames, region, Some(budget), stopAt);
      if presented != [] {
        staged := new FrameQueue(presented);
      }
    }

    /** The staged head replaces the shared one unless that is being served. */
    method SwapHead()
      requires Valid()
      modifies this`staged, this`headQueue
      ensures Valid() && Queues() <= old(Queues())
      ensures old(headInUse) || old(staged) == null ==> headQueue == old(headQueue) && staged == old(staged)
      ensures !old(headInUse) && old(staged) != null ==> headQueue == old(staged) && staged == null
    {
      if !headInUse && staged != null {
        headQueue, staged := staged, null;
      }
    }

    method GiveUpStaged()
      requires Valid()
      modifies this`staged
      ensures Valid() && staged == null && Queues() <= old(Queues())
    {
      staged := null;
    }

    /** Showing a frame fails once the source is stopped. */
    method Present(x: Decoded, stopped: bool) returns (ok: bool)
      modifies this`processedIndex, this`progress, this`finished
      ensures ok == !stopped && finished == (old(finished) || stopped)
      ensures processedIndex == old(processedIndex) + if stopped then 0 else 1
      ensures progress == if stopped then old(progress) else Presenting(old(progress), Shown(x, processedIndex))
    {
      ok := !stopped;
      if stopped {
        finished := true;
      } else {
        processedIndex := processedIndex + 1;
        progress := Presenting(progress, Shown(x, processedIndex));
      }
    }

    /** One turn of `_presentation_loop`. */
    method PresentStep(stopped: bool)
      requires Valid()
      modifies this`decodeQueue, this`headInUse, this`captured, this`usingHead, this`headUpto, this`processedIndex,
               this`finished, this`progress, captured
      ensures Valid() && Queues() <= old(Queues())
      ensures old(progress).output <= progress.output
      ensures old(finished ==> progress.atEnd) && !stopped ==> (finished ==> progress.atEnd)
    {
      if finished {
        return;
      }
      if usingHead {
        ServeHead(stopped);
      } else if decodeQueue != [] {
        match decodeQueue[0]
        case End => TakeEnd();
        case Loop => TakeLoop();
        case Live(x) => TakeLive(x, stopped);
      }
    }

    /** The staged head first; once it is drained the live pass takes over. */
    method ServeHead(stopped: bool)
      requires Valid() && usingHead && !finished
      modifies this`headInUse, this`usingHead, this`headUpto, this`processedIndex, this`finished, this`progress,
               captured
      ensures Valid() && (!stopped ==> !finished) && old(progress).output <= progress.output
      ensures old(captured.items) == [] || stopped ==> !usingHead && progress == old(progress)
      ensures old(captured.items) == [] ==> !headInUse
      ensures old(captured.items) != [] && !stopped ==>
                && usingHead && captured.items == old(captured.items)[1..]
                && progress == Presenting(old(progress), Shown(old(captured.items)[0], processedIndex))
                               .(served := old(progress).served + 1)
    {
      if captured.items == [] {
        usingHead, headInUse := false, false;
      } else {
        ServeFrame(stopped);
      }
    }

    method ServeFrame(stopped: bool)
      requires Valid() && usingHead && !finished && captured.items != []
      modifies this`usingHead, this`headUpto, this`processedIndex, this`finished, this`progress, captured
      ensures Valid() && (!stopped ==> !finished) && old(progress).output <= progress.output
      ensures stopped ==> !usingHead && progress == old(progress)
      ensures !stopped ==>
                && usingHead && captured.items == old(captured.items)[1..]
                && progress == Presenting(old(progress), Shown(old(captured.items)[0], processedIndex))
                               .(served := old(progress).served + 1)
    {
      var item := captured.items[0];
      RunGoesOn(captured.items, pass, progress.served);
      HeadFrameShown(pass, progress, headUpto, processedIndex);
      captured.items := captured.items[1..];
      var ok := Present(item, stopped);
      if !ok {
        Stopped(pass, progress, headUpto, processedIndex);
        usingHead := false;
        return;
      }
      if item.index > headUpto {
        headUpto := item.index;
      }
      progress := progress.(served := progress.served + 1);
    }

    /** The end signal: the last pass is complete, and nothing is shown after it. */
    method TakeEnd()
      requires Valid() && !usingHead && !finished && decodeQueue != [] && decodeQueue[0] == End
      modifies this`finished, this`progress
      ensures Valid() && finished
      ensures progress == old(progress).(atEnd := true) && Shows(progress.shown, pass, |pass|)
    {
      WholePassShown(pass, progress, headUpto, processedIndex);
      finished, progress := true, progress.(atEnd := true);
    }

    /** A loop signal: the pass is complete, and the shared head is captured for the next one. */
    method TakeLoop()
      requires Valid() && !usingHead && !finished && decodeQueue != [] && decodeQueue[0] == Loop
      modifies this`decodeQueue, this`headInUse, this`captured, this`usingHead, this`headUpto, this`processedIndex,
               this`progress
      ensures Valid() && captured == headQueue && usingHead && !finished
      ensures progress == NextPass(old(progress)) && Shows(old(progress).shown, pass, |pass|)
    {
      WholePassShown(pass, progress, headUpto, processedIndex);
      LoopTaken(decodeQueue, pass, progress.taken, decoded, ended);
      HeadTurns(headQueue.items, pass, headInUse, progress.served);
      decodeQueue := decodeQueue[1..];
      progress, processedIndex, headUpto := NextPass(progress), 0, -1;
      headInUse, captured, usingHead := true, headQueue, true;
    }

    /** A live frame is dropped if the head has shown it, and shown otherwise. */
    method TakeLive(x: Decoded, stopped: bool)
      requires Valid() && !usingHead && !finished && decodeQueue != [] && decodeQueue[0] == Live(x)
      modifies this`decodeQueue, this`processedIndex, this`finished, this`progress
      ensures Valid() && (!stopped ==> !finished) && old(progress).output <= progress.output
      ensures old(progress).taken < old(progress).served ==>
                progress == old(progress).(taken := old(progress).taken + 1)
      ensures old(progress).taken >= old(progress).served && !stopped ==>
                progress ==
                Presenting(old(progress), Shown(x, processedIndex)).(taken := old(progress).taken + 1)
      ensures old(progress).taken >= old(progress).served && stopped ==> progress == old(progress)
    {
      LiveFrameTaken(pass, progress, headUpto, processedIndex);
      decodeQueue := decodeQueue[1..];
      var ok := true;
      if !(headUpto >= 0 && x.index <= headUpto) {
        ok := Present(x, stopped);
      }
      if ok {
        progress := progress.(taken := progress.taken + 1);
      } else {
        Stopped(pass, progress, headUpto, processedIndex);
      }
    }

    method Handle(e: Event)
      requires Valid()
      modifies this, Queues()
      ensures Valid() && forall q :: q in Queues() ==> q in old(Queues()) || fresh(q)
      ensures old(progress).output <= progress.output
      ensures !e.PresentEvent? ==> progress == old(progress)
      ensures old(finished ==> progress.atEnd) && e != PresentEvent(true) ==> (finished ==> progress.atEnd)
    {
      match e
      case DecodeEvent => DecodeStep();
      case StageEvent(budget, stopAt) => StageHead(budget, stopAt);
      case SwapEvent => SwapHead();
      case GiveUpEvent => GiveUpStaged();
      case PresentEvent(stopped) => PresentStep(stopped);
    }

    /** In any interleaving all that is ever presented is the selected frames of the region, in order, once each and
        numbered from 1, over and over: some number of whole passes, and a prefix of one more; that one is whole too at
        the end of the source, and unless it is stopped presentation finishes only there. A source that does not loop,
        or has no frame in range, is passed over at most once; any other never comes to its end. */
    method Run(events: seq<Event>)
      requires Valid()
      modifies this, Queues()
      ensures Valid() && old(progress).output <= progress.output
      ensures Shows(progress.shown, PassFrames(frames, region), |progress.shown|)
      ensures progress.output == Times(progress.passes, Whole(PassFrames(frames, region))) + progress.shown
      ensures progress.atEnd ==> Shows(progress.shown, PassFrames(frames, region), |PassFrames(frames, region)|)
      ensures if Repeats() then !progress.atEnd else progress.passes == 0
      ensures old(finished ==> progress.atEnd) && PresentEvent(true) !in events ==> (finished ==> progress.atEnd)
    {
      ghost var owned := Queues();
      for i := 0 to |events|
        invariant old(finished ==> progress.atEnd) && PresentEvent(true) !in events ==> (finished ==> progress.atEnd)
        invariant Valid() && forall q :: q in Queues() ==> q in owned || fresh(q)
        invariant old(progress).output <= progress.output
      {
        Handle(events[i]);
      }
    }
  }

  datatype Event =
    | DecodeEvent | StageEvent(budget: nat, stopAt: nat) | SwapEvent | GiveUpEvent | PresentEvent(stopped: bool)
}
