/** The graph worker's latest-frame mailbox (engine_body.py, LatestFrameGraphWorker): a queue in which every
    source waits with at most its newest frame per reset epoch. */
module Mailbox {
  import opened Common

  datatype Reason =
    | PlanReplaced | SourceRestarted | SourceEnded | Seek | ParameterChanged | ClockChanged | EngineRestarted

  /** `serial` is the place of the command among all accepted ones. */
  datatype Command =
    | Tick(source: Id, frame: nat, serial: nat)
    | Reset(source: Id, reason: Reason, serial: nat)

  predicate ResetsSource(c: Command, s: Id) { c.Reset? && c.source == s }
  predicate TicksSource(c: Command, s: Id) { c.Tick? && c.source == s }

  /* ---- what a queued command promises about everything accepted so far ---- */

  ghost predicate ResetBetween(log: seq<Command>, s: Id, i: int, j: int) {
    exists r :: 0 <= r < |log| && i < r < j && ResetsSource(log[r], s)
  }

  /** No newer frame of the same source was accepted in the same reset epoch. */
  ghost predicate Newest(c: Command, log: seq<Command>) {
    c.Tick? ==> forall j {:trigger log[j]} :: c.serial < j < |log| && TicksSource(log[j], c.source) ==>
      ResetBetween(log, c.source, c.serial, j)
  }

  /** Every reset of the source accepted after the frame only announced the source's end. */
  ghost predicate Unreset(c: Command, log: seq<Command>) {
    c.Tick? ==> forall j {:trigger log[j]} :: c.serial < j < |log| && ResetsSource(log[j], c.source) ==>
      log[j].reason == SourceEnded
  }

  ghost predicate Logged(c: Command, log: seq<Command>) { c.serial < |log| && log[c.serial] == c }

  ghost predicate Sound(c: Command, log: seq<Command>) { Logged(c, log) && Newest(c, log) && Unreset(c, log) }

  ghost predicate AllSound(q: seq<Command>, log: seq<Command>) {
    forall i {:trigger Sound(q[i], log)} :: 0 <= i < |q| ==> Sound(q[i], log)
  }

  predicate Before(a: Command, b: Command) { a.source == b.source ==> a.serial < b.serial }

  /** Each source's commands wait in the order in which they were accepted. */
  ghost predicate InOrder(q: seq<Command>) {
    forall i, j {:trigger Before(q[i], q[j])} :: 0 <= i < j < |q| ==> Before(q[i], q[j])
  }

  /** A reset accepted after a waiting command of its source is waiting too. */
  ghost predicate ResetsWait(q: seq<Command>, log: seq<Command>) {
    forall i, r {:trigger q[i], log[r]} ::
      0 <= i < |q| && q[i].serial < r < |log| && ResetsSource(log[r], q[i].source) ==> log[r] in q
  }

  ghost predicate Numbered(log: seq<Command>) { forall i :: 0 <= i < |log| ==> log[i].serial == i }

  ghost predicate QueueOk(q: seq<Command>, log: seq<Command>) {
    Numbered(log) && AllSound(q, log) && InOrder(q) && ResetsWait(q, log)
  }

  /** Between two waiting frames of a source a reset of that source is waiting. */
  lemma TicksAreSeparated(q: seq<Command>, log: seq<Command>, i: nat, j: nat)
    requires QueueOk(q, log) && i < j < |q| && q[i].Tick? && q[j].Tick? && q[i].source == q[j].source
    ensures exists k :: i < k < j && ResetsSource(q[k], q[i].source)
  {
    assert Sound(q[i], log) && Sound(q[j], log) && Before(q[i], q[j]);
    assert log[q[j].serial] == q[j];
    assert ResetBetween(log, q[i].source, q[i].serial, q[j].serial);
    var r :| 0 <= r < |log| && q[i].serial < r < q[j].serial && ResetsSource(log[r], q[i].source);
    assert log[r] in q;
    var k :| 0 <= k < |q| && q[k] == log[r];
    assert k < i ==> Before(q[k], q[i]);
    assert j < k ==> Before(q[j], q[k]);
  }

  /* ---- one accepted command more ---- */

  /** A frame stays sound when a command of another source, or the end of its own, is accepted. */
  lemma SoundGrows(c: Command, log: seq<Command>, x: Command)
    requires Sound(c, log)
    requires c.Tick? && x.source == c.source ==>
               (x.Tick? && ResetBetween(log, c.source, c.serial, |log|)) || (x.Reset? && x.reason == SourceEnded)
    ensures Sound(c, log + [x])
  {
    var grown := log + [x];
    assert forall j :: 0 <= j < |log| ==> grown[j] == log[j];
    forall j | c.Tick? && c.serial < j < |grown| && TicksSource(grown[j], c.source)
      ensures ResetBetween(grown, c.source, c.serial, j)
    {
      assert ResetBetween(log, c.source, c.serial, j);
      var r :| 0 <= r < |log| && c.serial < r < j && ResetsSource(log[r], c.source);
      assert grown[r] == log[r];
    }
  }

  /** The frame takes the place of its source's last waiting command if that is a frame, follows it if it is
      a reset, and goes last if nothing of its source is waiting. */
  function Placed(q: seq<Command>, t: Command): seq<Command> {
    if q == [] then [t]
    else if q[|q| - 1].source == t.source then
      if q[|q| - 1].Tick? then q[..|q| - 1] + [t] else q + [t]
    else if Waits(q[..|q| - 1], t.source) then Placed(q[..|q| - 1], t) + [q[|q| - 1]]
    else q + [t]
  }

  predicate Waits(q: seq<Command>, s: Id) { exists c :: c in q && c.source == s }

  /** The last waiting command of a source. */
  ghost predicate LastOf(q: seq<Command>, s: Id, i: int) {
    0 <= i < |q| && q[i].source == s && forall j :: i < j < |q| ==> q[j].source != s
  }

  function PlacedAt(q: seq<Command>, t: Command, i: nat): seq<Command>
    requires i < |q|
  {
    if q[i].Tick? then q[i := t] else q[..i + 1] + [t] + q[i + 1..]
  }

  lemma PlacedAtFront(q: seq<Command>, t: Command, i: nat)
    requires i < |q| - 1
    ensures PlacedAt(q, t, i) == PlacedAt(q[..|q| - 1], t, i) + [q[|q| - 1]]
  {
    var front, last := q[..|q| - 1], q[|q| - 1];
    assert q[i := t] == front[i := t] + [last];
    assert q[i + 1..] == front[i + 1..] + [last];
  }

  lemma PlacedAtEnd(q: seq<Command>, t: Command)
    requires q != []
    ensures PlacedAt(q, t, |q| - 1) == if q[|q| - 1].Tick? then q[..|q| - 1] + [t] else q + [t]
  {
    assert q[..|q|] == q && q[|q|..] == [];
  }

  lemma {:induction false} PlacedAtLast(q: seq<Command>, t: Command, i: nat)
    requires LastOf(q, t.source, i)
    ensures Placed(q, t) == PlacedAt(q, t, i)
  {
    if i < |q| - 1 {
      var front := q[..|q| - 1];
      assert front[i] in front;
      PlacedAtLast(front, t, i);
      PlacedAtFront(q, t, i);
    } else {
      PlacedAtEnd(q, t);
    }
  }

  lemma PlacedLast(q: seq<Command>, t: Command)
    requires forall j :: 0 <= j < |q| ==> q[j].source != t.source
    ensures Placed(q, t) == q + [t]
  {
  }

  /** Publishing keeps the queue in order. */
  lemma PublishKeepsQueue(q: seq<Command>, log: seq<Command>, t: Command, i: int)
    requires QueueOk(q, log) && t.Tick? && t.serial == |log|
    requires LastOf(q, t.source, i) || (i == -1 && forall j :: 0 <= j < |q| ==> q[j].source != t.source)
    ensures QueueOk(if i < 0 then q + [t] else PlacedAt(q, t, i), log + [t])
  {
    PublishKeepsSound(q, log, t, i);
    PublishKeepsOrder(q, log, t, i);
    PublishKeepsResets(q, log, t, i);
  }

  lemma PublishKeepsSound(q: seq<Command>, log: seq<Command>, t: Command, i: int)
    requires QueueOk(q, log) && t.Tick? && t.serial == |log|
    requires LastOf(q, t.source, i) || (i == -1 && forall j :: 0 <= j < |q| ==> q[j].source != t.source)
    ensures AllSound(if i < 0 then q + [t] else PlacedAt(q, t, i), log + [t])
  {
    var after, grown := if i < 0 then q + [t] else PlacedAt(q, t, i), log + [t];
    assert Sound(t, grown);
    forall k | 0 <= k < |q| && (k == i ==> q[k].Reset?)
      ensures Sound(q[k], grown)
    {
      if q[k].source == t.source && q[k].Tick? {
        OlderTickIsCut(q, log, k, i);
      }
      SoundGrows(q[k], log, t);
    }
    forall k | 0 <= k < |after| ensures Sound(after[k], grown) {
      assert after[k] == t || exists o :: 0 <= o < |q| && (o == i ==> q[o].Reset?) && after[k] == q[o] by {
        if i < 0 || k < i || (k == i && q[i].Reset?) {
          assert k < |q| ==> after[k] == q[k];
        } else if q[i].Tick? {
          assert k > i ==> after[k] == q[k];
        } else {
          assert k > i + 1 ==> after[k] == q[k - 1];
        }
      }
    }
  }

  /** A frame waiting before its source's last command is separated from now by a reset. */
  lemma OlderTickIsCut(q: seq<Command>, log: seq<Command>, k: nat, i: nat)
    requires QueueOk(q, log) && k < i < |q| && q[k].Tick? && q[k].source == q[i].source
    ensures ResetBetween(log, q[k].source, q[k].serial, |log|)
  {
    assert Sound(q[k], log) && Sound(q[i], log);
    assert Before(q[k], q[i]);
    assert log[q[i].serial] == q[i];
    if q[i].Tick? {
      assert ResetBetween(log, q[k].source, q[k].serial, q[i].serial);
    }
  }

  lemma PublishKeepsOrder(q: seq<Command>, log: seq<Command>, t: Command, i: int)
    requires AllSound(q, log) && InOrder(q) && t.Tick? && t.serial == |log|
    requires LastOf(q, t.source, i) || (i == -1 && forall j :: 0 <= j < |q| ==> q[j].source != t.source)
    ensures InOrder(if i < 0 then q + [t] else PlacedAt(q, t, i))
  {
    var after := if i < 0 then q + [t] else PlacedAt(q, t, i);
    forall a, b | 0 <= a < b < |after| ensures Before(after[a], after[b]) {
      var shift := i >= 0 && q[i].Reset?;
      var x, y := if shift && a > i then a - 1 else a, if shift && b > i then b - 1 else b;
      if after[b] == t {
        assert a < |q| && after[a] == q[a] && Sound(q[a], log);
      } else if after[a] != t {
        assert after[a] == q[x] && after[b] == q[y] && Before(q[x], q[y]);
      }
    }
  }

  lemma PublishKeepsResets(q: seq<Command>, log: seq<Command>, t: Command, i: int)
    requires ResetsWait(q, log) && t.Tick? && t.serial == |log|
    requires 0 <= i < |q| || i == -1
    ensures ResetsWait(if i < 0 then q + [t] else PlacedAt(q, t, i), log + [t])
  {
    var after, grown := if i < 0 then q + [t] else PlacedAt(q, t, i), log + [t];
    forall c | c in q && c.Reset? ensures c in after {
      var k :| 0 <= k < |q| && q[k] == c;
      if i < 0 || q[i].Tick? || k <= i {
        assert after[k] == c;
      } else {
        assert after[k + 1] == c;
      }
    }
    assert forall c :: c in after ==> c == t || c in q;
    forall k, r | 0 <= k < |after| && after[k].serial < r < |grown| && ResetsSource(grown[r], after[k].source)
      ensures grown[r] in after
    {
      assert after[k] in after && after[k] in q;
      var o :| 0 <= o < |q| && q[o] == after[k];
      assert log[r] in q;
    }
  }

  /** What stays waiting when a source is reset. */
  function Kept(q: seq<Command>, s: Id, reason: Reason): (r: seq<Command>)
    ensures forall c :: c in r <==> c in q && (reason != SourceEnded ==> !TicksSource(c, s))
  {
    if q == [] then [] else
      var front, last := q[..|q| - 1], q[|q| - 1];
      assert forall c :: c in q <==> c in front || c == last;
      var rest := Kept(front, s, reason);
      if reason != SourceEnded && TicksSource(last, s) then rest else rest + [last]
  }

  lemma {:induction false} KeptInOrder(q: seq<Command>, s: Id, reason: Reason)
    requires InOrder(q)
    ensures InOrder(Kept(q, s, reason))
  {
    if q == [] {
    } else {
      var front := q[..|q| - 1];
      assert forall i, j :: 0 <= i < j < |front| ==> Before(q[i], q[j]);
      KeptInOrder(front, s, reason);
      var rest := Kept(front, s, reason);
      forall k | 0 <= k < |rest| ensures Before(rest[k], q[|q| - 1]) {
        assert rest[k] in rest && rest[k] in front;
        var o :| 0 <= o < |front| && front[o] == rest[k];
        assert Before(q[o], q[|q| - 1]);
      }
    }
  }

  /** Resetting keeps the queue in order; only a source's end lets an older frame wait on. */
  lemma ResetKeepsQueue(q: seq<Command>, log: seq<Command>, x: Command)
    requires QueueOk(q, log) && x.Reset? && x.serial == |log|
    ensures QueueOk(Kept(q, x.source, x.reason) + [x], log + [x])
  {
    var kept := Kept(q, x.source, x.reason);
    var after, grown := kept + [x], log + [x];
    KeptInOrder(q, x.source, x.reason);
    forall k | 0 <= k < |kept| ensures Sound(kept[k], grown) && Sound(kept[k], log) {
      assert kept[k] in kept && kept[k] in q;
      SoundGrows(kept[k], log, x);
    }
    assert Sound(x, grown);
    forall k, r | 0 <= k < |after| && after[k].serial < r < |grown| && ResetsSource(grown[r], after[k].source)
      ensures grown[r] in after
    {
      if r == |log| {
        assert after[|kept|] == x;
      } else {
        assert kept[k] in kept && kept[k] in q;
        var o :| 0 <= o < |q| && q[o] == kept[k];
        assert log[r] in q && log[r] in kept;
        var m :| 0 <= m < |kept| && kept[m] == log[r];
        assert after[m] == log[r];
      }
    }
  }

  /* ---- counting frames ---- */

  function Ticks(q: seq<Command>, s: Id): nat {
    if q == [] then 0 else Ticks(q[..|q| - 1], s) + if TicksSource(q[|q| - 1], s) then 1 else 0
  }

  lemma {:induction false} TicksConcat(a: seq<Command>, b: seq<Command>, s: Id)
    ensures Ticks(a + b, s) == Ticks(a, s) + Ticks(b, s)
  {
    if b == [] {
      assert a + b == a;
    } else {
      TicksConcat(a, b[..|b| - 1], s);
      assert (a + b)[..|a + b| - 1] == a + b[..|b| - 1];
    }
  }

  lemma TicksOne(c: Command, s: Id)
    ensures Ticks([c], s) == if TicksSource(c, s) then 1 else 0
  {
    assert [c][..0] == [];
  }

  lemma TicksPlaced(q: seq<Command>, t: Command, i: nat, s: Id)
    requires i < |q| && t.Tick? && q[i].source == t.source
    ensures Ticks(PlacedAt(q, t, i), s) == Ticks(q, s) + if s == t.source && q[i].Reset? then 1 else 0
  {
    var before, rest := q[..i], q[i + 1..];
    assert q == before + [q[i]] + rest;
    TicksConcat(before + [q[i]], rest, s);
    TicksConcat(before, [q[i]], s);
    TicksOne(q[i], s);
    TicksOne(t, s);
    if q[i].Tick? {
      assert q[i := t] == before + [t] + rest;
      TicksConcat(before + [t], rest, s);
      TicksConcat(before, [t], s);
    } else {
      assert q[..i + 1] == before + [q[i]];
      TicksConcat(before + [q[i]] + [t], rest, s);
      TicksConcat(before + [q[i]], [t], s);
    }
  }

  /** A reset other than a source's end takes exactly the source's frames out of the queue. */
  lemma {:induction false} TicksKept(q: seq<Command>, s: Id, reason: Reason, t: Id)
    ensures Ticks(Kept(q, s, reason), t) == if t == s && reason != SourceEnded then 0 else Ticks(q, t)
  {
    if q == [] {
    } else {
      var front, last := q[..|q| - 1], q[|q| - 1];
      TicksKept(front, s, reason, t);
      TicksConcat(Kept(front, s, reason), [last], t);
      TicksOne(last, t);
    }
  }

  /** A hard reset leaves everything but its source's frames waiting, in the same order; the end of a source leaves
      all. */
  lemma {:induction false} ResetLeaves(q: seq<Command>, s: Id, reason: Reason)
    ensures Kept(q, s, reason) == Filter(q, (c: Command) => reason == SourceEnded || c.Reset? || c.source != s)
  {
    if q == [] {
    } else {
      ResetLeaves(q[..|q| - 1], s, reason);
    }
  }

  function Resets(q: seq<Command>, s: Id): nat {
    if q == [] then 0 else Resets(q[..|q| - 1], s) + if ResetsSource(q[|q| - 1], s) then 1 else 0
  }

  ghost predicate Separated(q: seq<Command>, s: Id) {
    forall i, j {:trigger TicksSource(q[i], s), TicksSource(q[j], s)} ::
      0 <= i < j < |q| && TicksSource(q[i], s) && TicksSource(q[j], s) ==>
        exists k :: i < k < j && ResetsSource(q[k], s)
  }

  ghost predicate OpenTick(q: seq<Command>, s: Id, i: int) {
    0 <= i < |q| && TicksSource(q[i], s) && forall k :: i < k < |q| ==> !ResetsSource(q[k], s)
  }

  lemma {:induction false} SeparatedTicks(q: seq<Command>, s: Id)
    requires Separated(q, s)
    ensures Ticks(q, s) <= Resets(q, s) + 1
    ensures Ticks(q, s) == Resets(q, s) + 1 ==> exists i :: OpenTick(q, s, i)
  {
    if q == [] {
    } else {
      var front, n := q[..|q| - 1], |q| - 1;
      assert forall i :: 0 <= i < n ==> front[i] == q[i];
      assert Separated(front, s) by {
        forall i, j | 0 <= i < j < |front| && TicksSource(front[i], s) && TicksSource(front[j], s)
          ensures exists k :: i < k < j && ResetsSource(front[k], s)
        {
          assert TicksSource(q[i], s) && TicksSource(q[j], s);
          var k :| i < k < j && ResetsSource(q[k], s);
          assert ResetsSource(front[k], s);
        }
      }
      SeparatedTicks(front, s);
      if Ticks(front, s) == Resets(front, s) + 1 {
        var i :| OpenTick(front, s, i);
        assert TicksSource(q[i], s);
        assert !TicksSource(q[n], s) && !ResetsSource(q[n], s) ==> OpenTick(q, s, i);
      } else if TicksSource(q[n], s) {
        assert OpenTick(q, s, n);
      }
    }
  }

  /** A source waits with at most one frame more than it has resets waiting; so with one frame, if none. */
  lemma FewFramesWait(q: seq<Command>, log: seq<Command>, s: Id)
    requires QueueOk(q, log)
    ensures Ticks(q, s) <= Resets(q, s) + 1
  {
    forall i, j | 0 <= i < j < |q| && TicksSource(q[i], s) && TicksSource(q[j], s)
      ensures exists k :: i < k < j && ResetsSource(q[k], s)
    {
      TicksAreSeparated(q, log, i, j);
    }
    SeparatedTicks(q, s);
  }

  /** Two frames of one source can wait: a source that ended and started again. */
  lemma TwoFramesCanWait(s: Id)
    ensures var first, end, second := Tick(s, 1, 0), Reset(s, SourceEnded, 1), Tick(s, 2, 2);
            && Placed(Kept(Placed([], first), s, SourceEnded) + [end], second) == [first, end, second]
            && Ticks([first, end, second], s) == 2
  {
    var first, end, second := Tick(s, 1, 0), Reset(s, SourceEnded, 1), Tick(s, 2, 2);
    assert Kept([first], s, SourceEnded) == [first] by { assert [first][..0] == []; }
    assert [first, end, second][..2] == [first, end] && [first, end][..1] == [first] && [first][..0] == [];
    assert [first, end, second] == [first] + [end] + [second];
    TicksConcat([first] + [end], [second], s);
    TicksConcat([first], [end], s);
    TicksOne(first, s);
    TicksOne(end, s);
    TicksOne(second, s);
  }

  function Count(m: map<Id, nat>, s: Id): nat { if s in m then m[s] else 0 }

  /** Every accepted frame was started, or dropped for a newer one, or discarded by a reset or by closing, or waits. */
  ghost predicate Conserved(q: seq<Command>, log: seq<Command>, started: seq<Command>, dropped: map<Id, nat>,
                            discarded: map<Id, nat>) {
    forall s :: Ticks(log, s) == Ticks(started, s) + Count(dropped, s) + Count(discarded, s) + Ticks(q, s)
  }

  /* ---- starts ---- */

  /** A command and how much had been accepted when it started. */
  datatype Start = Start(command: Command, accepted: nat)

  /** Whatever started was sound then. */
  ghost predicate StartsOk(starts: seq<Start>, log: seq<Command>) {
    forall k {:trigger starts[k]} :: 0 <= k < |starts| ==>
      starts[k].accepted <= |log| && Sound(starts[k].command, log[..starts[k].accepted])
  }

  /** Each source's commands start in the order in which they were accepted, before all that still wait. */
  ghost predicate StartsInOrder(starts: seq<Start>, q: seq<Command>) {
    && (forall k, m {:trigger Before(starts[k].command, starts[m].command)} :: 0 <= k < m < |starts| ==>
          Before(starts[k].command, starts[m].command))
    && (forall k, i {:trigger Before(starts[k].command, q[i])} :: 0 <= k < |starts| && 0 <= i < |q| ==>
          Before(starts[k].command, q[i]))
  }

  function Commands(starts: seq<Start>): seq<Command> {
    if starts == [] then [] else Commands(starts[..|starts| - 1]) + [starts[|starts| - 1].command]
  }

  lemma StartsGrow(starts: seq<Start>, log: seq<Command>, x: Command)
    requires StartsOk(starts, log)
    ensures StartsOk(starts, log + [x])
  {
    forall k | 0 <= k < |starts| ensures (log + [x])[..starts[k].accepted] == log[..starts[k].accepted] {
    }
  }

  lemma TakeKeepsQueue(q: seq<Command>, log: seq<Command>)
    requires |q| > 0 && QueueOk(q, log)
    ensures QueueOk(q[1..], log)
  {
    var rest := q[1..];
    forall i | 0 <= i < |rest| ensures Sound(rest[i], log) {
      assert Sound(q[i + 1], log);
    }
    forall i, j | 0 <= i < j < |rest| ensures Before(rest[i], rest[j]) {
      assert Before(q[i + 1], q[j + 1]);
    }
    forall i, r | 0 <= i < |rest| && rest[i].serial < r < |log| && ResetsSource(log[r], rest[i].source)
      ensures log[r] in rest
    {
      assert log[r] in q;
      assert Before(q[0], q[i + 1]);
    }
  }

  lemma TakeKeepsStarts(q: seq<Command>, log: seq<Command>, starts: seq<Start>)
    requires |q| > 0 && Sound(q[0], log) && InOrder(q) && StartsOk(starts, log) && StartsInOrder(starts, q)
    ensures StartsOk(starts + [Start(q[0], |log|)], log) && StartsInOrder(starts + [Start(q[0], |log|)], q[1..])
  {
    var rest, grown := q[1..], starts + [Start(q[0], |log|)];
    assert log[..|log|] == log;
    forall k, m | 0 <= k < m < |grown| ensures Before(grown[k].command, grown[m].command) {
      assert m < |starts| ==> Before(starts[k].command, starts[m].command);
      assert m == |starts| ==> Before(starts[k].command, q[0]);
    }
    forall k, i | 0 <= k < |grown| && 0 <= i < |rest| ensures Before(grown[k].command, rest[i]) {
      assert k < |starts| ==> Before(starts[k].command, q[i + 1]);
      assert k == |starts| ==> Before(q[0], q[i + 1]);
    }
  }

  /** Adding later commands of a queue keeps the starts before it. */
  lemma StartsBefore(starts: seq<Start>, q: seq<Command>, after: seq<Command>, log: seq<Command>, x: Command)
    requires StartsOk(starts, log) && StartsInOrder(starts, q) && x.serial == |log|
    requires forall c :: c in after ==> c == x || c in q
    ensures StartsInOrder(starts, after)
  {
    forall k, i | 0 <= k < |starts| && 0 <= i < |after|
      ensures Before(starts[k].command, after[i])
    {
      assert after[i] in after;
      assert Logged(starts[k].command, log[..starts[k].accepted]);
      if after[i] in q {
        var o :| 0 <= o < |q| && q[o] == after[i];
        assert Before(starts[k].command, q[o]);
      }
    }
  }

  lemma PlacedMembers(q: seq<Command>, t: Command, i: int)
    requires 0 <= i < |q| || i == -1
    ensures forall c :: c in (if i < 0 then q + [t] else PlacedAt(q, t, i)) ==> c == t || c in q
  {
  }

  function Discarding(discarded: map<Id, nat>, q: seq<Command>): map<Id, nat> {
    map s | s in discarded.Keys + Sources(q) :: Count(discarded, s) + Ticks(q, s)
  }

  function Sources(q: seq<Command>): set<Id> { set c | c in q :: c.source }

  lemma {:induction false} NoTicksElsewhere(q: seq<Command>, s: Id)
    requires s !in Sources(q)
    ensures Ticks(q, s) == 0
  {
    if q == [] {
    } else {
      assert q[|q| - 1] in q;
      NoTicksElsewhere(q[..|q| - 1], s);
    }
  }

  lemma DiscardingCounts(discarded: map<Id, nat>, q: seq<Command>, s: Id)
    ensures Count(Discarding(discarded, q), s) == Count(discarded, s) + Ticks(q, s)
  {
    if s !in Sources(q) {
      NoTicksElsewhere(q, s);
    }
  }

  ghost predicate Ok(q: seq<Command>, log: seq<Command>, starts: seq<Start>, dropped: map<Id, nat>,
                     discarded: map<Id, nat>) {
    && QueueOk(q, log)
    && StartsOk(starts, log) && StartsInOrder(starts, q)
    && Conserved(q, log, Commands(starts), dropped, discarded)
  }

  datatype Event =
    | PublishFrame(source: Id, frame: nat, clock: Id)
    | ResetSource(resetSource: Id, reason: Reason)
    | TakeNext
    | FinishCurrent
    | Close

  class Worker {
    var commands: seq<Command>
    var dropped: map<Id, nat>
    var active: Option<Id>
    var closed: bool
    var accepted: nat

    ghost var log: seq<Command>
    ghost var starts: seq<Start>
    ghost var discarded: map<Id, nat>

    ghost predicate Valid()
      reads this
    {
      && accepted == |log|
      && Ok(commands, log, starts, dropped, discarded)
      && (closed ==> commands == [])
    }

    constructor ()
      ensures Valid() && commands == [] && log == [] && starts == [] && !closed
    {
      commands, dropped, active, closed, accepted := [], map[], None, false, 0;
      log, starts, discarded := [], [], map[];
    }

    /** `publish`. Raises for a frame of another clock, or once closed. */
    method Publish(source: Id, frame: nat, clock: Id) returns (raised: bool)
      requires Valid()
      modifies this`commands, this`dropped, this`accepted, this`log
      ensures Valid()
      ensures raised <==> clock != source || closed
      ensures raised ==> commands == old(commands) && log == old(log) && dropped == old(dropped)
      ensures !raised ==> log == old(log) + [Tick(source, frame, |old(log)|)]
      ensures !raised ==> commands == Placed(old(commands), Tick(source, frame, |old(log)|))
    {
      if clock != source || closed {
        return true;
      }
      raised := false;
      var command := Tick(source, frame, accepted);
      ghost var q := commands;
      ghost var was := log;
      accepted := accepted + 1;
      log := log + [command];
      var index := |commands| - 1;
      while index >= 0
        invariant -1 <= index < |commands| && commands == q
        invariant forall j :: index < j < |q| ==> q[j].source != source
      {
        if commands[index].source == source {
          PublishStep(q, was, starts, command, index, dropped, discarded);
          if commands[index].Reset? {
            commands := commands[..index + 1] + [command] + commands[index + 1..];
          } else {
            commands := commands[index := command];
            dropped := dropped[source := Count(dropped, source) + 1];
          }
          return;
        }
        index := index - 1;
      }
      PublishStep(q, was, starts, command, -1, dropped, discarded);
      commands := commands + [command];
    }

    /** `reset_source`. */
    method ResetFrom(source: Id, reason: Reason) returns (raised: bool)
      requires Valid()
      modifies this`commands, this`accepted, this`log, this`discarded
      ensures Valid()
      ensures raised <==> closed
      ensures raised ==> commands == old(commands) && log == old(log)
      ensures !raised ==> log == old(log) + [Reset(source, reason, |old(log)|)]
      ensures !raised ==> commands == Kept(old(commands), source, reason) + [Reset(source, reason, |old(log)|)]
    {
      if closed {
        return true;
      }
      raised := false;
      var command := Reset(source, reason, accepted);
      ResetStep(commands, log, starts, command, dropped, discarded);
      discarded := if reason == SourceEnded then discarded
        else discarded[source := Count(discarded, source) + Ticks(commands, source)];
      log := log + [command];
      accepted := accepted + 1;
      commands := Kept(commands, source, reason) + [command];
    }

    /** The sender side of `_run`: take the oldest command and start it. */
    method Take() returns (c: Option<Command>)
      requires Valid()
      modifies this`commands, this`active, this`starts
      ensures Valid()
      ensures c.None? <==> old(commands) == []
      ensures c.None? ==> commands == [] && starts == old(starts)
      ensures c.Some? ==> old(commands) == [c.value] + commands && starts == old(starts) + [Start(c.value, |log|)]
      ensures c.Some? ==> active == if c.value.Tick? then Some(c.value.source) else None
    {
      if commands == [] {
        return None;
      }
      TakeKeepsQueue(commands, log);
      assert Sound(commands[0], log);
      TakeKeepsStarts(commands, log, starts);
      TakeConserves(commands, log, starts, dropped, discarded);
      c := Some(commands[0]);
      active := if commands[0].Tick? then Some(commands[0].source) else None;
      starts := starts + [Start(commands[0], |log|)];
      commands := commands[1..];
    }

    /** The end of one turn of `_run`, whether the command succeeded or raised. */
    method Finish()
      requires Valid()
      modifies this`active
      ensures Valid() && active == None
    {
      active := None;
    }

    /** `mailbox_metrics`: the frames of a source being executed or waiting. */
    method Occupancy(source: Id) returns (n: nat)
      requires Valid()
      ensures n == Ticks(commands, source) + if active == Some(source) then 1 else 0
      ensures n <= Resets(commands, source) + 2
    {
      n := if active == Some(source) then 1 else 0;
      for i := 0 to |commands|
        invariant n == Ticks(commands[..i], source) + if active == Some(source) then 1 else 0
      {
        assert commands[..i + 1][..i] == commands[..i];
        if TicksSource(commands[i], source) {
          n := n + 1;
        }
      }
      assert commands[..|commands|] == commands;
      FewFramesWait(commands, log, source);
    }

    method CloseWorker()
      requires Valid()
      modifies this`commands, this`closed, this`discarded
      ensures Valid() && closed && commands == []
    {
      if closed {
        return;
      }
      forall s ensures Count(Discarding(discarded, commands), s) == Count(discarded, s) + Ticks(commands, s) {
        DiscardingCounts(discarded, commands, s);
      }
      closed := true;
      discarded := Discarding(discarded, commands);
      commands := [];
    }

    /** Any interleaving of publishers, resets, the worker and closing keeps the queue promises. */
    method Run(events: seq<Event>)
      requires Valid()
      modifies this
      ensures Valid() && old(log) <= log && old(starts) <= starts
    {
      for i := 0 to |events|
        invariant Valid() && old(log) <= log && old(starts) <= starts
      {
        match events[i]
        case PublishFrame(source, frame, clock) => var raised := Publish(source, frame, clock);
        case ResetSource(source, reason) => var raised := ResetFrom(source, reason);
        case TakeNext => var c := Take();
        case FinishCurrent => Finish();
        case Close => CloseWorker();
      }
    }
  }

  lemma PublishedTicks(q: seq<Command>, log: seq<Command>, t: Command, i: int, s: Id)
    requires t.Tick? && (i == -1 || (0 <= i < |q| && q[i].source == t.source))
    ensures Ticks(log + [t], s) == Ticks(log, s) + if s == t.source then 1 else 0
    ensures Ticks(q + [t], s) == Ticks(q, s) + if s == t.source then 1 else 0
    ensures i >= 0 ==> Ticks(PlacedAt(q, t, i), s) == Ticks(q, s) + if s == t.source && q[i].Reset? then 1 else 0
  {
    TicksConcat(log, [t], s);
    TicksConcat(q, [t], s);
    TicksOne(t, s);
    if i >= 0 {
      TicksPlaced(q, t, i, s);
    }
  }

  lemma PublishConserves(q: seq<Command>, log: seq<Command>, started: seq<Command>, t: Command, i: int,
                         dropped: map<Id, nat>, discarded: map<Id, nat>)
    requires Conserved(q, log, started, dropped, discarded) && t.Tick?
    requires i == -1 || (0 <= i < |q| && q[i].source == t.source)
    ensures Conserved(if i < 0 then q + [t] else PlacedAt(q, t, i), log + [t], started,
                      if i >= 0 && q[i].Tick? then dropped[t.source := Count(dropped, t.source) + 1]
                        else dropped, discarded)
  {
    forall s
      ensures Ticks(log + [t], s) == Ticks(log, s) + if s == t.source then 1 else 0
      ensures Ticks(q + [t], s) == Ticks(q, s) + if s == t.source then 1 else 0
      ensures i >= 0 ==> Ticks(PlacedAt(q, t, i), s) == Ticks(q, s) + if s == t.source && q[i].Reset? then 1 else 0
    {
      PublishedTicks(q, log, t, i, s);
    }
  }

  lemma PublishStep(q: seq<Command>, log: seq<Command>, starts: seq<Start>, t: Command, i: int, dropped: map<Id, nat>,
                    discarded: map<Id, nat>)
    requires Ok(q, log, starts, dropped, discarded) && t.Tick? && t.serial == |log|
    requires LastOf(q, t.source, i) || (i == -1 && forall j :: 0 <= j < |q| ==> q[j].source != t.source)
    ensures Ok(if i < 0 then q + [t] else PlacedAt(q, t, i), log + [t], starts,
               if i >= 0 && q[i].Tick? then dropped[t.source := Count(dropped, t.source) + 1] else dropped, discarded)
    ensures (if i < 0 then q + [t] else PlacedAt(q, t, i)) == Placed(q, t)
  {
    PublishKeepsQueue(q, log, t, i);
    StartsGrow(starts, log, t);
    PlacedMembers(q, t, i);
    StartsBefore(starts, q, if i < 0 then q + [t] else PlacedAt(q, t, i), log, t);
    PublishConserves(q, log, Commands(starts), t, i, dropped, discarded);
    if i < 0 {
      PlacedLast(q, t);
    } else {
      PlacedAtLast(q, t, i);
    }
  }

  lemma ResetConserves(q: seq<Command>, log: seq<Command>, started: seq<Command>, x: Command, dropped: map<Id, nat>,
                       discarded: map<Id, nat>)
    requires Conserved(q, log, started, dropped, discarded) && x.Reset?
    ensures Conserved(Kept(q, x.source, x.reason) + [x], log + [x], started, dropped,
                      if x.reason == SourceEnded then discarded
                        else discarded[x.source := Count(discarded, x.source) + Ticks(q, x.source)])
  {
    var left := Kept(q, x.source, x.reason) + [x];
    var lost := if x.reason == SourceEnded then discarded
      else discarded[x.source := Count(discarded, x.source) + Ticks(q, x.source)];
    forall s ensures Ticks(log + [x], s) == Ticks(started, s) + Count(dropped, s) + Count(lost, s) + Ticks(left, s) {
      ResetTicks(q, log, x, s);
      assert s != x.source ==> Count(lost, s) == Count(discarded, s);
    }
  }

  lemma ResetTicks(q: seq<Command>, log: seq<Command>, x: Command, s: Id)
    requires x.Reset?
    ensures Ticks(log + [x], s) == Ticks(log, s)
    ensures Ticks(Kept(q, x.source, x.reason) + [x], s) ==
            if s == x.source && x.reason != SourceEnded then 0 else Ticks(q, s)
  {
    TicksConcat(log, [x], s);
    TicksConcat(Kept(q, x.source, x.reason), [x], s);
    TicksOne(x, s);
    TicksKept(q, x.source, x.reason, s);
  }

  lemma ResetStep(q: seq<Command>, log: seq<Command>, starts: seq<Start>, x: Command, dropped: map<Id, nat>,
                  discarded: map<Id, nat>)
    requires Ok(q, log, starts, dropped, discarded) && x.Reset? && x.serial == |log|
    ensures Ok(Kept(q, x.source, x.reason) + [x], log + [x], starts, dropped,
               if x.reason == SourceEnded then discarded
                 else discarded[x.source := Count(discarded, x.source) + Ticks(q, x.source)])
  {
    var kept := Kept(q, x.source, x.reason);
    ResetKeepsQueue(q, log, x);
    StartsGrow(starts, log, x);
    StartsBefore(starts, q, kept + [x], log, x);
    ResetConserves(q, log, Commands(starts), x, dropped, discarded);
  }

  lemma TakeConserves(q: seq<Command>, log: seq<Command>, starts: seq<Start>, dropped: map<Id, nat>,
                      discarded: map<Id, nat>)
    requires |q| > 0 && Conserved(q, log, Commands(starts), dropped, discarded)
    ensures Conserved(q[1..], log, Commands(starts + [Start(q[0], |log|)]), dropped, discarded)
  {
    var grown := starts + [Start(q[0], |log|)];
    assert grown[..|starts|] == starts;
    assert q == [q[0]] + q[1..];
    forall s ensures Ticks(q, s) - Ticks(q[1..], s) == Ticks(Commands(grown), s) - Ticks(Commands(starts), s) {
      TicksConcat([q[0]], q[1..], s);
      TicksConcat(Commands(starts), [q[0]], s);
      TicksOne(q[0], s);
    }
  }
}
