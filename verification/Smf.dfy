/** The Standard MIDI File encoder (smf.py), proved against an independent reader of Standard MIDI Files 1.0.
    Times are whole microseconds; the reader counts time in 1/960 microsecond so that it stays exact. */
module Smf {
  import opened Common
  import opened Sorting

  type byte = x: int | 0 <= x < 256

  const TICKS_PER_QUARTER := 960
  const MIN_TEMPO := 31
  const MAX_TEMPO := 1_677_215
  const DEFAULT_TEMPO := 500_000

  datatype Event = Event(time: int, on: bool, channel: nat, note: nat, velocity: nat)

  /** The ranges an event enforces on construction. */
  predicate InRange(e: Event) { e.channel <= 15 && e.note <= 127 && e.velocity <= 127 }

  datatype Error = NegativeDuration | TempoOverflow | LengthOverflow
  datatype Result<T> = Ok(value: T) | Err(error: Error)

  /* ---- the reader ---- */

  /** A note event as a player hears it; `at` is in 1/960 microsecond. */
  datatype Played = Played(at: int, on: bool, channel: nat, note: nat, velocity: nat)

  datatype Reading = Reading(events: seq<Played>, end: int)

  function ReadQuantity(value: nat, b: seq<byte>): (r: Option<(nat, seq<byte>)>)
    ensures r.Some? ==> |r.value.1| < |b|
    decreases |b|
  {
    if b == [] then None
    else if b[0] < 128 then Some((value * 128 + b[0], b[1..]))
    else ReadQuantity(value * 128 + b[0] - 128, b[1..])
  }

  function ReadTrack(b: seq<byte>, tempo: int, elapsed: int): Option<Reading>
    decreases |b|
  {
    var r := ReadQuantity(0, b);
    if r.None? then None else ReadEvent(r.value.1, tempo, elapsed + r.value.0 * tempo)
  }

  function ReadEvent(b: seq<byte>, tempo: int, elapsed: int): Option<Reading>
    decreases |b|
  {
    if |b| < 3 then None
    else if b[0] == 0xFF && b[1] == 0x2F && b[2] == 0 then
      if |b| == 3 then Some(Reading([], elapsed)) else None
    else if b[0] == 0xFF && b[1] == 0x51 && b[2] == 3 && |b| >= 6 then
      ReadTrack(b[6..], BigEndian(0, b[3], b[4], b[5]), elapsed)
    else if 0x80 <= b[0] < 0xA0 && b[1] < 128 && b[2] < 128 then
      Prepended([Played(elapsed, b[0] >= 0x90, b[0] % 16, b[1], b[2])], ReadTrack(b[3..], tempo, elapsed))
    else None
  }

  function Prepended(events: seq<Played>, r: Option<Reading>): Option<Reading> {
    if r.None? then None else Some(Reading(events + r.value.events, r.value.end))
  }

  function BigEndian(a: int, b: int, c: int, d: int): int { a * 0x100_0000 + b * 0x1_0000 + c * 0x100 + d }

  /** Header chunk of format 0 with one track of 960 ticks per quarter, then the track chunk's name. */
  const HEADER: seq<byte> := [0x4D, 0x54, 0x68, 0x64, 0, 0, 0, 6, 0, 0, 0, 1, 3, 0xC0, 0x4D, 0x54, 0x72, 0x6B]

  /** The two bytes of the header at `i` as a number. */
  function HeaderField(i: nat): int
    requires i < 17
  {
    (HEADER[i] as int) * 0x100 + HEADER[i + 1]
  }

  /** Its length is 6, its format 0, and it has one track and 960 ticks to a quarter note. */
  lemma HeaderFields()
    ensures HeaderField(4) == 0 && HeaderField(6) == 6 && HeaderField(8) == 0 && HeaderField(10) == 1
    ensures HeaderField(12) == TICKS_PER_QUARTER == 960
  {
  }

  function ReadFile(b: seq<byte>): Option<Reading> {
    if |b| < 22 || b[..18] != HEADER || |b| - 22 != BigEndian(b[18], b[19], b[20], b[21]) then None
    else ReadTrack(b[22..], DEFAULT_TEMPO, 0)
  }

  /* ---- variable-length quantities ---- */

  function Leading(value: nat): seq<byte> {
    if value == 0 then [] else Leading(value / 128) + [128 + value % 128]
  }

  function Quantity(value: nat): seq<byte> { Leading(value / 128) + [value % 128] }

  /** `_variable_length`. */
  method VariableLength(value: int) returns (octets: seq<byte>)
    requires value >= 0
    ensures octets == Quantity(value)
  {
    octets := [value % 128];
    var remaining := value / 128;
    while remaining != 0
      invariant remaining >= 0 && Leading(remaining) + octets == Quantity(value)
    {
      octets := [128 + remaining % 128] + octets;
      remaining := remaining / 128;
    }
  }

  lemma {:induction false} LeadingReads(value: nat, rest: seq<byte>)
    ensures ReadQuantity(0, Leading(value) + rest) == ReadQuantity(value, rest)
  {
    if value == 0 {
      assert Leading(0) + rest == rest;
    } else {
      var last: seq<byte> := [128 + value % 128];
      assert Leading(value) + rest == Leading(value / 128) + (last + rest);
      LeadingReads(value / 128, last + rest);
      assert (last + rest)[1..] == rest;
    }
  }

  /** Decoding an encoded quantity gives it back and leaves what follows. */
  lemma QuantityRoundTrip(value: nat, rest: seq<byte>)
    ensures ReadQuantity(0, Quantity(value) + rest) == Some((value, rest))
  {
    var last: seq<byte> := [value % 128];
    assert Quantity(value) + rest == Leading(value / 128) + (last + rest);
    LeadingReads(value / 128, last + rest);
    assert (last + rest)[1..] == rest;
  }

  /** The bytes of a quantity of at most 28 bits. */
  function QuantityBytes(value: nat): nat {
    if value < 0x80 then 1 else if value < 0x4000 then 2 else if value < 0x20_0000 then 3 else 4
  }

  /** The four bytes the standard allows hold exactly the values below 2^28. */
  lemma QuantityLength(value: nat)
    ensures |Quantity(value)| <= 4 <==> value < 0x1000_0000
    ensures value < 0x1000_0000 ==> |Quantity(value)| == QuantityBytes(value)
  {
    var a := value / 128;
    var b := a / 128;
    var c := b / 128;
    var d := c / 128;
    assert |Leading(a)| == if a == 0 then 0 else 1 + |Leading(b)|;
    assert |Leading(b)| == if b == 0 then 0 else 1 + |Leading(c)|;
    assert |Leading(c)| == if c == 0 then 0 else 1 + |Leading(d)|;
    assert |Leading(d)| == if d == 0 then 0 else 1 + |Leading(d / 128)|;
  }

  /* ---- intervals ---- */

  /** The microseconds an interval plays for: below the smallest tempo it collapses. */
  function Kept(us: int): nat { if us < MIN_TEMPO then 0 else us }

  function TickCount(us: int): (n: nat)
    requires us >= MIN_TEMPO
    ensures n >= 1
  {
    (us * TICKS_PER_QUARTER + MAX_TEMPO - 1) / MAX_TEMPO
  }

  /** The second tempo of the interval, if it has one, fits its three bytes. */
  predicate TempoFits(us: int) { us < MIN_TEMPO || us % TickCount(us) <= 17_476 }

  /** The first tempo never exceeds its bound, so it always fits. */
  lemma FirstTempoFits(us: int)
    requires us >= MIN_TEMPO
    ensures 0 < us / TickCount(us) * TICKS_PER_QUARTER <= MAX_TEMPO
  {
    var n := TickCount(us);
    var q := us / n;
    assert n * MAX_TEMPO >= us * TICKS_PER_QUARTER && n <= us;
    assert n * q <= us;
    assert n * (q * TICKS_PER_QUARTER) <= n * MAX_TEMPO;
    CancelFactor(n, q * TICKS_PER_QUARTER, MAX_TEMPO);
    assert q >= 1;
  }

  lemma CancelFactor(n: nat, a: int, b: int)
    requires n > 0 && n * a <= n * b
    ensures a <= b
  {
    assert n * (b - a) >= 0;
  }

  /** Up to this length the second tempo fits whatever the remainder. */
  lemma ShortIntervalsFit(us: int)
    requires us <= 30_534_048
    ensures TempoFits(us)
  {
    if us >= MIN_TEMPO {
      assert us * TICKS_PER_QUARTER + MAX_TEMPO - 1 < 17_478 * MAX_TEMPO;
      assert TickCount(us) <= 17_477;
    }
  }

  /** Beyond it some interval does not fit. */
  lemma SomeLongIntervalDoesNotFit()
    ensures !TempoFits(30_572_485) && 30_572_485 % TickCount(30_572_485) == 17_485
  {
    assert TickCount(30_572_485) == 17_500;
  }

  /** Of a long interval the quotient is 1747, and the remainder grows with the ticks. */
  lemma LongIntervalParts(us: int, n: nat)
    requires us >= MIN_TEMPO && n == TickCount(us) && n >= 17_655
    ensures us % n == us - 1747 * n && 960 * (us % n) > 95 * n - 1_677_215
  {
    var r := us - 1747 * n;
    assert (n - 1) * MAX_TEMPO < us * TICKS_PER_QUARTER <= n * MAX_TEMPO;
    assert 95 * n - MAX_TEMPO < 960 * r <= 95 * n;
    UniqueRemainder(us, n, 1747, r);
  }

  lemma UniqueRemainder(a: int, n: nat, q: int, r: int)
    requires n > 0 && a == q * n + r && 0 <= r < n
    ensures a % n == r
  {
    assert a == n * (a / n) + a % n;
    var d := a / n - q;
    assert n * d == r - a % n;
    assert d >= 1 ==> n * d >= n;
    assert d <= -1 ==> n * d + n <= 0;
  }

  /** Longer intervals than this, of about five and a half minutes, never fit, and it does; so every delta
      fits the four bytes of the format. */
  lemma LongestInterval(us: int)
    requires TempoFits(us)
    ensures us <= 339_379_214
    ensures us >= MIN_TEMPO ==> TickCount(us) < 0x1000_0000
    ensures TempoFits(339_379_214)
  {
    assert TickCount(339_379_214) == 194_254;
    if us >= MIN_TEMPO && TickCount(us) >= 17_655 {
      LongIntervalParts(us, TickCount(us));
    }
  }

  function TempoBytes(tempo: nat): seq<byte>
    requires tempo < 0x100_0000
  {
    [0xFF, 0x51, 3, tempo / 0x1_0000, tempo / 0x100 % 0x100, tempo % 0x100]
  }

  /** What `_write_interval` appends. */
  function IntervalTempos(us: int): seq<byte>
    requires TempoFits(us)
  {
    if us < MIN_TEMPO then []
    else
      var n := TickCount(us);
      FirstTempoFits(us);
      [0] + TempoBytes(us / n * TICKS_PER_QUARTER)
      + if us % n == 0 then [] else Quantity(n) + TempoBytes(us % n * TICKS_PER_QUARTER)
  }

  /** What `_closing_delta` returns. */
  function ClosingBytes(us: int): seq<byte> {
    if us < MIN_TEMPO then [0] else if us % TickCount(us) != 0 then [1] else Quantity(TickCount(us))
  }

  /** What stands before an event. */
  function IntervalBytes(us: int): seq<byte>
    requires TempoFits(us)
  {
    IntervalTempos(us) + ClosingBytes(us)
  }

  /** The microseconds that the tempo segments leave to the closing delta. */
  function Outstanding(us: int): (r: nat)
    ensures r <= Kept(us)
  {
    if us < MIN_TEMPO then 0
    else if us % TickCount(us) == 0 then us
    else
      assert us == TickCount(us) * (us / TickCount(us)) + us % TickCount(us);
      us % TickCount(us)
  }

  function TempoAfter(us: int, tempo: int): int {
    if us < MIN_TEMPO then tempo
    else if us % TickCount(us) == 0 then us / TickCount(us) * TICKS_PER_QUARTER
    else us % TickCount(us) * TICKS_PER_QUARTER
  }

  lemma TempoReads(n: nat, delta: nat, rest: seq<byte>, tempo: int, elapsed: int)
    requires n < 0x100_0000
    ensures ReadTrack(Quantity(delta) + TempoBytes(n) + rest, tempo, elapsed)
            == ReadTrack(rest, n, elapsed + delta * tempo)
  {
    var t := TempoBytes(n) + rest;
    assert Quantity(delta) + TempoBytes(n) + rest == Quantity(delta) + t;
    QuantityRoundTrip(delta, t);
    assert t[6..] == rest;
    assert n / 0x1_0000 * 0x1_0000 + n / 0x100 % 0x100 * 0x100 + n % 0x100 == n;
  }

  lemma DeltaReads(delta: nat, rest: seq<byte>, tempo: int, elapsed: int)
    ensures ReadTrack(Quantity(delta) + rest, tempo, elapsed) == ReadEvent(rest, tempo, elapsed + delta * tempo)
  {
    QuantityRoundTrip(delta, rest);
  }

  lemma TwoTemposRead(n: nat, first: nat, second: nat, rest: seq<byte>, tempo: int, elapsed: int)
    requires first < 0x100_0000 && second < 0x100_0000
    ensures ReadTrack([0] + TempoBytes(first) + (Quantity(n) + TempoBytes(second)) + rest, tempo, elapsed)
         == ReadTrack(rest, second, elapsed + n * first)
  {
    assert Quantity(0) == [0];
    var tail := Quantity(n) + TempoBytes(second) + rest;
    assert [0] + TempoBytes(first) + (Quantity(n) + TempoBytes(second)) + rest
           == Quantity(0) + TempoBytes(first) + tail;
    TempoReads(first, 0, tail, tempo, elapsed);
    TempoReads(second, n, rest, first, elapsed);
  }

  /** While the tempo segments are read, all but the outstanding microseconds pass. */
  lemma TemposElapse(us: int, rest: seq<byte>, tempo: int, elapsed: int)
    requires TempoFits(us)
    ensures ReadTrack(IntervalTempos(us) + rest, tempo, elapsed)
         == ReadTrack(rest, TempoAfter(us, tempo), elapsed + 960 * (Kept(us) - Outstanding(us)))
  {
    if us < MIN_TEMPO {
      assert IntervalTempos(us) + rest == rest;
    } else {
      var n := TickCount(us);
      FirstTempoFits(us);
      SplitTicks(us, n);
      var first, second := us / n * TICKS_PER_QUARTER, us % n * TICKS_PER_QUARTER;
      if us % n == 0 {
        assert Quantity(0) == [0] && IntervalTempos(us) == Quantity(0) + TempoBytes(first);
        TempoReads(first, 0, rest, tempo, elapsed);
      } else {
        TwoTemposRead(n, first, second, rest, tempo, elapsed);
      }
    }
  }

  /** While the closing delta is read, exactly the outstanding microseconds pass. */
  lemma ClosingElapses(us: int, rest: seq<byte>, tempo: int, elapsed: int)
    requires TempoFits(us)
    ensures ReadTrack(ClosingBytes(us) + rest, TempoAfter(us, tempo), elapsed)
         == ReadEvent(rest, TempoAfter(us, tempo), elapsed + 960 * Outstanding(us))
  {
    assert Quantity(0) == [0] && Quantity(1) == [1];
    if us < MIN_TEMPO {
      DeltaReads(0, rest, tempo, elapsed);
    } else {
      var n := TickCount(us);
      SplitTicks(us, n);
      DeltaReads(if us % n == 0 then n else 1, rest, TempoAfter(us, tempo), elapsed);
    }
  }

  /** A reader lets exactly the kept microseconds of the interval pass: the ticks times the quotient at the
      first tempo and the remainder at the second. */
  lemma IntervalElapses(us: int, rest: seq<byte>, tempo: int, elapsed: int)
    requires TempoFits(us)
    ensures ReadTrack(IntervalBytes(us) + rest, tempo, elapsed)
         == ReadEvent(rest, TempoAfter(us, tempo), elapsed + 960 * Kept(us))
  {
    assert IntervalBytes(us) + rest == IntervalTempos(us) + (ClosingBytes(us) + rest);
    TemposElapse(us, ClosingBytes(us) + rest, tempo, elapsed);
    ClosingElapses(us, rest, tempo, elapsed + 960 * (Kept(us) - Outstanding(us)));
  }

  lemma SplitTicks(us: int, n: nat)
    requires us >= 0 && n > 0
    ensures n * (us / n * TICKS_PER_QUARTER) + us % n * TICKS_PER_QUARTER == 960 * us
    ensures us % n * TICKS_PER_QUARTER >= 0
  {
    assert us == n * (us / n) + us % n;
  }

  /* ---- order of events ---- */

  /** By time, channel, note and kind; note-offs first. */
  predicate NotAfter(a: Event, b: Event) {
    a.time < b.time || (a.time == b.time &&
      (a.channel < b.channel || (a.channel == b.channel &&
        (a.note < b.note || (a.note == b.note && (!a.on || b.on))))))
  }

  ghost predicate Ordered(s: seq<Event>) { Sorted(s, NotAfter) }

  /** The encoder puts events in order, and those that compare equal keep theirs. */
  lemma SortedEvents(events: seq<Event>, k: Event)
    ensures Ordered(Sort(events, NotAfter))
    ensures Peers(Sort(events, NotAfter), k, NotAfter) == Peers(events, k, NotAfter)
  {
    assert Total(NotAfter);
    SortIsSorted(events, NotAfter);
    SortIsStable(events, k, NotAfter);
  }

  /** Earlier events come first; of two at one time the one on the lower channel, on one channel the one of the lower
      note, and of one note the note-off. */
  lemma EventOrder(events: seq<Event>, i: nat, j: nat)
    requires i < j < |events|
    ensures var a, b := Sort(events, NotAfter)[i], Sort(events, NotAfter)[j];
            && a.time <= b.time
            && (a.time == b.time ==> a.channel <= b.channel)
            && (a.time == b.time && a.channel == b.channel ==> a.note <= b.note)
            && (a.time == b.time && a.channel == b.channel && a.note == b.note && a.on ==> b.on)
  {
    SortedEvents(events, events[0]);
  }

  /* ---- when events play ---- */

  function Max(a: int, b: int): int { if a < b then b else a }

  /** The interval before the i-th event, or before the end of the track. */
  function Interval(events: seq<Event>, duration: int, i: nat): int
    requires i <= |events|
  {
    var previous := if i == 0 then 0 else events[i - 1].time;
    Max(0, (if i < |events| then events[i].time else duration) - previous)
  }

  /** The microseconds played before the i-th event, or before the end of the track. */
  function PlayedTime(events: seq<Event>, duration: int, i: nat): nat
    requires i <= |events|
  {
    (if i == 0 then 0 else PlayedTime(events, duration, i - 1)) + Kept(Interval(events, duration, i))
  }

  function AsPlayed(e: Event, at: int): Played {
    Played(960 * at, e.on, e.channel, e.note, if e.on then e.velocity else 0)
  }

  /** The events of the track as a reader gets them: in order, note-offs with velocity 0, at their played times. */
  function Performance(events: seq<Event>, duration: int, n: nat): seq<Played>
    requires n <= |events|
  {
    if n == 0 then [] else
      Performance(events, duration, n - 1) + [AsPlayed(events[n - 1], PlayedTime(events, duration, n - 1))]
  }

  /** With times from zero on, the i-th event is never late, and early by at most 30 microseconds per event. */
  lemma {:induction false} EarlyByCollapsedIntervals(events: seq<Event>, duration: int, i: nat)
    requires Ordered(events) && i < |events| && events[0].time >= 0
    ensures 0 <= events[i].time - PlayedTime(events, duration, i) <= 30 * (i + 1)
  {
    if i == 0 {
    } else {
      EarlyByCollapsedIntervals(events, duration, i - 1);
      assert NotAfter(events[i - 1], events[i]);
    }
  }

  /** The i-th event heard is the i-th event: the same note on the same channel, on or off alike, with its velocity if
      it is on, and early by no more than that. */
  lemma {:induction false} EventHeard(events: seq<Event>, duration: int, n: nat, i: nat)
    requires Ordered(events) && i < n <= |events| && events[0].time >= 0
    ensures |Performance(events, duration, n)| == n
    ensures var heard, e := Performance(events, duration, n)[i], events[i];
            && heard.on == e.on && heard.channel == e.channel && heard.note == e.note
            && heard.velocity == (if e.on then e.velocity else 0)
            && 0 <= 960 * e.time - heard.at <= 960 * 30 * (i + 1)
  {
    PerformanceLength(events, duration, n - 1);
    if i < n - 1 {
      EventHeard(events, duration, n - 1, i);
    } else {
      EarlyByCollapsedIntervals(events, duration, i);
    }
  }

  lemma {:induction false} PerformanceLength(events: seq<Event>, duration: int, n: nat)
    requires n <= |events|
    ensures |Performance(events, duration, n)| == n
  {
    if n == 0 {
    } else {
      PerformanceLength(events, duration, n - 1);
    }
  }

  /** The track ends at the duration, or at the last event if that is later, and no earlier than by 30 microseconds for
      each interval. */
  lemma TrackEnd(events: seq<Event>, duration: int)
    requires Ordered(events) && duration >= 0 && (events != [] ==> events[0].time >= 0)
    ensures var last := if events == [] then 0 else events[|events| - 1].time;
            var end := if last > duration then last else duration;
            0 <= end - PlayedTime(events, duration, |events|) <= 30 * (|events| + 1)
  {
    if events != [] { EarlyByCollapsedIntervals(events, duration, |events| - 1); }
  }

  ghost predicate NoShortInterval(events: seq<Event>, duration: int, i: nat)
    requires i < |events|
  {
    forall j :: 0 <= j <= i ==> Interval(events, duration, j) == 0 || Interval(events, duration, j) >= MIN_TEMPO
  }

  lemma NoShortIntervalSoFar(events: seq<Event>, duration: int, i: nat)
    requires 0 < i < |events|
    ensures NoShortInterval(events, duration, i) <==>
              && NoShortInterval(events, duration, i - 1)
              && (Interval(events, duration, i) == 0 || Interval(events, duration, i) >= MIN_TEMPO)
  {
  }

  /** It is on time exactly if no interval up to it is positive but shorter than 31 microseconds. */
  lemma {:induction false} OnTimeIffNoShortInterval(events: seq<Event>, duration: int, i: nat)
    requires Ordered(events) && i < |events| && events[0].time >= 0
    ensures PlayedTime(events, duration, i) == events[i].time <==> NoShortInterval(events, duration, i)
  {
    EarlyByCollapsedIntervals(events, duration, i);
    if i == 0 {
    } else {
      EarlyByCollapsedIntervals(events, duration, i - 1);
      OnTimeIffNoShortInterval(events, duration, i - 1);
      assert NotAfter(events[i - 1], events[i]);
      NoShortIntervalSoFar(events, duration, i);
    }
  }

  /** An event 30 microseconds in plays at once. */
  lemma ShortIntervalPlaysEarly()
    ensures PlayedTime([Event(30, true, 0, 60, 100)], 0, 0) == 0
  {
  }

  /* ---- the encoder ---- */

  /** Whatever follows `track`, a reader gets `played` and goes on at `tempo` and `elapsed`. */
  ghost predicate Reads(track: seq<byte>, played: seq<Played>, tempo: int, elapsed: int) {
    forall rest {:trigger ReadTrack(track + rest, DEFAULT_TEMPO, 0)} ::
      ReadTrack(track + rest, DEFAULT_TEMPO, 0) == Prepended(played, ReadTrack(rest, tempo, elapsed))
  }

  lemma NothingReads()
    ensures Reads([], [], DEFAULT_TEMPO, 0)
  {
    forall rest: seq<byte>
      ensures ReadTrack([] + rest, DEFAULT_TEMPO, 0) == Prepended([], ReadTrack(rest, DEFAULT_TEMPO, 0))
    {
      assert [] + rest == rest;
      var r := ReadTrack(rest, DEFAULT_TEMPO, 0);
      assert r.Some? ==> [] + r.value.events == r.value.events;
    }
  }

  function Status(e: Event): byte
    requires InRange(e)
  {
    (if e.on then 0x90 else 0x80) + e.channel
  }

  function NoteBytes(e: Event): seq<byte>
    requires InRange(e)
  {
    [Status(e), e.note, if e.on then e.velocity else 0]
  }

  lemma NoteReads(track: seq<byte>, played: seq<Played>, tempo: int, us: int, e: Event, elapsed: nat)
    requires Reads(track, played, tempo, 960 * elapsed) && TempoFits(us) && InRange(e)
    ensures Reads(track + IntervalBytes(us) + NoteBytes(e), played + [AsPlayed(e, elapsed + Kept(us))],
                  TempoAfter(us, tempo), 960 * (elapsed + Kept(us)))
  {
    forall rest: seq<byte>
      ensures ReadTrack(track + IntervalBytes(us) + NoteBytes(e) + rest, DEFAULT_TEMPO, 0)
           == Prepended(played + [AsPlayed(e, elapsed + Kept(us))],
                        ReadTrack(rest, TempoAfter(us, tempo), 960 * (elapsed + Kept(us))))
    {
      var tail := NoteBytes(e) + rest;
      assert track + IntervalBytes(us) + NoteBytes(e) + rest == track + (IntervalBytes(us) + tail);
      IntervalElapses(us, tail, tempo, 960 * elapsed);
      NoteBytesRead(e, rest, TempoAfter(us, tempo), elapsed + Kept(us));
      PrependTwice(played, AsPlayed(e, elapsed + Kept(us)),
                   ReadTrack(rest, TempoAfter(us, tempo), 960 * (elapsed + Kept(us))));
    }
  }

  lemma NoteBytesRead(e: Event, rest: seq<byte>, tempo: int, at: int)
    requires InRange(e)
    ensures ReadEvent(NoteBytes(e) + rest, tempo, 960 * at)
            == Prepended([AsPlayed(e, at)], ReadTrack(rest, tempo, 960 * at))
  {
    assert (NoteBytes(e) + rest)[3..] == rest;
  }

  lemma PrependTwice(played: seq<Played>, p: Played, r: Option<Reading>)
    ensures Prepended(played, Prepended([p], r)) == Prepended(played + [p], r)
  {
    assert r.Some? ==> played + ([p] + r.value.events) == played + [p] + r.value.events;
  }

  lemma EndReads(track: seq<byte>, played: seq<Played>, tempo: int, us: int, elapsed: nat)
    requires Reads(track, played, tempo, 960 * elapsed) && TempoFits(us)
    ensures ReadTrack(track + IntervalBytes(us) + [0xFF, 0x2F, 0], DEFAULT_TEMPO, 0)
            == Some(Reading(played, 960 * (elapsed + Kept(us))))
  {
    var end: seq<byte> := [0xFF, 0x2F, 0];
    assert track + IntervalBytes(us) + end == track + (IntervalBytes(us) + end);
    IntervalElapses(us, end, tempo, 960 * elapsed);
    assert played + [] == played;
  }

  /** `_write_interval`; a tempo too large for its field raises. */
  method WriteInterval(track: seq<byte>, us: int) returns (r: Result<seq<byte>>)
    ensures r.Err? <==> !TempoFits(us)
    ensures r.Err? ==> r.error == TempoOverflow
    ensures r.Ok? ==> r.value == track + IntervalTempos(us)
  {
    if us < MIN_TEMPO {
      return Ok(track);
    }
    var ticks := TickCount(us);
    FirstTempoFits(us);
    var quotient, remainder := us / ticks, us % ticks;
    var out: seq<byte> := [0] + TempoBytes(quotient * TICKS_PER_QUARTER);
    if remainder != 0 {
      if remainder * TICKS_PER_QUARTER >= 0x100_0000 {
        return Err(TempoOverflow);
      }
      var delta := VariableLength(ticks);
      out := out + (delta + TempoBytes(remainder * TICKS_PER_QUARTER));
    }
    return Ok(track + out);
  }

  /** `_closing_delta`. */
  method ClosingDelta(us: int) returns (delta: seq<byte>)
    ensures delta == ClosingBytes(us)
  {
    if us < MIN_TEMPO {
      return [0];
    }
    if us % TickCount(us) != 0 {
      return [1];
    }
    delta := VariableLength(TickCount(us));
  }

  method WriteGap(track: seq<byte>, us: int) returns (r: Result<seq<byte>>)
    ensures r.Err? <==> !TempoFits(us)
    ensures r.Err? ==> r.error == TempoOverflow
    ensures r.Ok? ==> r.value == track + IntervalBytes(us)
  {
    var written := WriteInterval(track, us);
    if written.Err? {
      return written;
    }
    var delta := ClosingDelta(us);
    assert track + IntervalTempos(us) + ClosingBytes(us) == track + (IntervalTempos(us) + ClosingBytes(us));
    r := Ok(written.value + delta);
  }

  /** One turn of the encoder's loop. */
  method WriteNote(track: seq<byte>, us: int, e: Event) returns (r: Result<seq<byte>>)
    requires InRange(e)
    ensures r.Err? <==> !TempoFits(us)
    ensures r.Err? ==> r.error == TempoOverflow
    ensures r.Ok? ==> r.value == track + IntervalBytes(us) + NoteBytes(e)
  {
    r := WriteGap(track, us);
    if r.Ok? {
      r := Ok(r.value + NoteBytes(e));
    }
  }

  method WriteEnd(track: seq<byte>, us: int) returns (r: Result<seq<byte>>)
    ensures r.Err? <==> !TempoFits(us)
    ensures r.Err? ==> r.error == TempoOverflow
    ensures r.Ok? ==> r.value == track + IntervalBytes(us) + [0xFF, 0x2F, 0]
  {
    r := WriteGap(track, us);
    if r.Ok? {
      r := Ok(r.value + [0xFF, 0x2F, 0]);
    }
  }

  ghost predicate AllFit(events: seq<Event>, duration: int, n: nat)
    requires n <= |events|
  {
    FitBefore(events, duration, n) && TempoFits(Interval(events, duration, n))
  }

  ghost predicate FitBefore(events: seq<Event>, duration: int, n: nat)
    requires n <= |events|
  {
    forall i :: 0 <= i < n ==> TempoFits(Interval(events, duration, i))
  }

  lemma FitNext(events: seq<Event>, duration: int, n: nat)
    requires n < |events|
    ensures FitBefore(events, duration, n + 1) <==> AllFit(events, duration, n)
    ensures AllFit(events, duration, |events|) ==> AllFit(events, duration, n)
  {
  }

  /* ---- how long the track gets ---- */

  /** Tempo segments of seven bytes and deltas of one to four before an event. */
  function IntervalLength(us: int): nat {
    if us < MIN_TEMPO then 1
    else 7 + QuantityBytes(TickCount(us)) + if us % TickCount(us) == 0 then 0 else 7
  }

  /** The bytes before the i-th event. */
  function LengthBefore(events: seq<Event>, duration: int, i: nat): nat
    requires i <= |events|
  {
    if i == 0 then 0 else LengthBefore(events, duration, i - 1) + IntervalLength(Interval(events, duration, i - 1)) + 3
  }

  function TrackLength(events: seq<Event>, duration: int): nat {
    LengthBefore(events, duration, |events|) + IntervalLength(Interval(events, duration, |events|)) + 3
  }

  lemma IntervalBytesLength(us: int)
    requires TempoFits(us)
    ensures |IntervalBytes(us)| == IntervalLength(us)
  {
    if us >= MIN_TEMPO {
      LongestInterval(us);
      QuantityLength(TickCount(us));
    }
  }

  /** The state of the encoder before the i-th event: what a reader has got by then. */
  ghost predicate Progress(events: seq<Event>, duration: int, i: nat, track: seq<byte>, tempo: int, elapsed: nat)
    requires i <= |events|
  {
    && elapsed == (if i == 0 then 0 else PlayedTime(events, duration, i - 1))
    && Reads(track, Performance(events, duration, i), tempo, 960 * elapsed)
    && |track| == LengthBefore(events, duration, i)
  }

  lemma NoteProgress(events: seq<Event>, duration: int, i: nat, track: seq<byte>, tempo: int, elapsed: nat)
    requires i < |events| && InRange(events[i]) && TempoFits(Interval(events, duration, i))
    requires Progress(events, duration, i, track, tempo, elapsed)
    ensures var us := Interval(events, duration, i);
            Progress(events, duration, i + 1, track + IntervalBytes(us) + NoteBytes(events[i]), TempoAfter(us, tempo),
                     elapsed + Kept(us))
  {
    NoteReads(track, Performance(events, duration, i), tempo, Interval(events, duration, i), events[i], elapsed);
    IntervalBytesLength(Interval(events, duration, i));
  }

  lemma TrackEnds(events: seq<Event>, duration: int, track: seq<byte>, tempo: int, elapsed: nat)
    requires TempoFits(Interval(events, duration, |events|))
    requires Progress(events, duration, |events|, track, tempo, elapsed)
    ensures var whole := track + IntervalBytes(Interval(events, duration, |events|)) + [0xFF, 0x2F, 0];
            && |whole| == TrackLength(events, duration)
            && ReadTrack(whole, DEFAULT_TEMPO, 0) ==
               Some(Reading(Performance(events, duration, |events|), 960 * PlayedTime(events, duration, |events|)))
  {
    var tail := Interval(events, duration, |events|);
    EndReads(track, Performance(events, duration, |events|), tempo, tail, elapsed);
    IntervalBytesLength(tail);
  }

  /** The track of the already sorted events. */
  method EncodeTrack(events: seq<Event>, duration: int) returns (r: Result<seq<byte>>)
    requires forall e :: e in events ==> InRange(e)
    ensures r.Err? <==> !AllFit(events, duration, |events|)
    ensures r.Err? ==> r.error == TempoOverflow
    ensures r.Ok? ==> ReadTrack(r.value, DEFAULT_TEMPO, 0) ==
                        Some(Reading(Performance(events, duration, |events|),
                                     960 * PlayedTime(events, duration, |events|)))
    ensures r.Ok? ==> |r.value| == TrackLength(events, duration)
  {
    var track: seq<byte> := [];
    ghost var tempo: int := DEFAULT_TEMPO;
    ghost var elapsed: nat := 0;
    NothingReads();
    var previous := 0;
    for i := 0 to |events|
      invariant previous == if i == 0 then 0 else events[i - 1].time
      invariant Progress(events, duration, i, track, tempo, elapsed)
      invariant FitBefore(events, duration, i)
    {
      assert events[i] in events;
      var us := Max(0, events[i].time - previous);
      assert us == Interval(events, duration, i);
      r := WriteNote(track, us, events[i]);
      FitNext(events, duration, i);
      if r.Err? {
        return;
      }
      NoteProgress(events, duration, i, track, tempo, elapsed);
      track := r.value;
      tempo, elapsed := TempoAfter(us, tempo), elapsed + Kept(us);
      previous := events[i].time;
    }
    r := WriteEnd(track, Max(0, duration - previous));
    assert Max(0, duration - previous) == Interval(events, duration, |events|);
    if r.Ok? {
      TrackEnds(events, duration, track, tempo, elapsed);
    }
  }

  function LengthBytes(n: nat): (r: seq<byte>)
    requires n < 0x1_0000_0000
    ensures |r| == 4 && BigEndian(r[0], r[1], r[2], r[3]) == n
  {
    var a, b, c := n / 0x100, n / 0x1_0000, n / 0x100_0000;
    assert b == a / 0x100 && c == b / 0x100;
    [c, b % 0x100, a % 0x100, n % 0x100]
  }

  lemma FileReads(length: seq<byte>, track: seq<byte>)
    requires |length| == 4 && BigEndian(length[0], length[1], length[2], length[3]) == |track|
    ensures ReadFile(HEADER + length + track) == ReadTrack(track, DEFAULT_TEMPO, 0)
  {
    var file := HEADER + length + track;
    assert file[..18] == HEADER && file[22..] == track;
    assert file[18] == length[0] && file[19] == length[1] && file[20] == length[2] && file[21] == length[3];
  }

  /** `encode_standard_midi_file`: unless it raises, a standard reader of the file gets the sorted events at
      their played times, and the end of the track. */
  method Encode(events: seq<Event>, duration: int) returns (r: Result<seq<byte>>)
    requires forall e :: e in events ==> InRange(e)
    ensures r == Err(NegativeDuration) <==> duration < 0
    ensures r == Err(TempoOverflow) <==> duration >= 0 && !AllFit(Sort(events, NotAfter), duration, |events|)
    ensures r == Err(LengthOverflow) <==>
            duration >= 0 && AllFit(Sort(events, NotAfter), duration, |events|)
              && TrackLength(Sort(events, NotAfter), duration) >= 0x1_0000_0000
    ensures r.Ok? ==>
              ReadFile(r.value) ==
                Some(Reading(Performance(Sort(events, NotAfter), duration, |events|),
                             960 * PlayedTime(Sort(events, NotAfter), duration, |events|)))
  {
    if duration < 0 {
      return Err(NegativeDuration);
    }
    SortElements(events, NotAfter);
    r := EncodeTrack(Sort(events, NotAfter), duration);
    if r.Ok? {
      if |r.value| >= 0x1_0000_0000 {
        return Err(LengthOverflow);
      }
      FileReads(LengthBytes(|r.value|), r.value);
      r := Ok(HEADER + LengthBytes(|r.value|) + r.value);
    }
  }
}
