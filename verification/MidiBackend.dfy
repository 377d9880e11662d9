/** The MIDI backend as the session meets it: every call with its answer, and what can be told from them: which
    messages reached a device, and which channels are in doubt. */
module MidiBackend {
  import opened MidiState

  datatype Call = Send(delivery: Delivery) | Open(port: string) | List

  /** A call may raise. A send that raised may have been delivered all the same; a listing that did not tells the
      ports by display name and id. */
  datatype Answer = Answer(raised: bool, arrived: bool, ports: seq<(string, string)>)

  /** What the n-th call is answered. */
  type Backend = nat -> Answer

  datatype Attempt = Attempt(call: Call, answer: Answer)

  type Log = seq<Attempt>

  /** The log after one more call. */
  function Asked(log: Log, backend: Backend, call: Call): Log { log + [Attempt(call, backend(|log|))] }

  /** The log after these messages have been sent, whatever came of them. */
  function Sent(log: Log, backend: Backend, messages: seq<Delivery>): Log {
    log + seq(|messages|, i requires 0 <= i < |messages| => Attempt(Send(messages[i]), backend(|log| + i)))
  }

  lemma SentNothing(log: Log, backend: Backend)
    ensures Sent(log, backend, []) == log
  {
  }

  lemma SentOneMore(log: Log, backend: Backend, messages: seq<Delivery>, d: Delivery)
    ensures Sent(log, backend, messages + [d]) == Asked(Sent(log, backend, messages), backend, Send(d))
  {
  }

  lemma SentInTwo(log: Log, backend: Backend, first: seq<Delivery>, second: seq<Delivery>)
    ensures Sent(log, backend, first + second) == Sent(Sent(log, backend, first), backend, second)
  {
  }

  /** Only calls were added, each with its answer. */
  ghost predicate Grows(was: Log, now: Log, backend: Backend) {
    was <= now && forall i {:trigger now[i]} :: |was| <= i < |now| ==> now[i].answer == backend(i)
  }

  lemma GrowsFurther(a: Log, b: Log, c: Log, backend: Backend)
    requires Grows(a, b, backend) && Grows(b, c, backend)
    ensures Grows(a, c, backend)
  {
    forall i | |a| <= i < |c| ensures c[i].answer == backend(i) {
      assert i < |b| ==> c[i] == b[i];
    }
  }

  lemma SentGrows(log: Log, backend: Backend, messages: seq<Delivery>)
    ensures Grows(log, Sent(log, backend, messages), backend)
  {
  }

  lemma AskedGrows(log: Log, backend: Backend, call: Call)
    ensures Grows(log, Asked(log, backend, call), backend)
  {
  }

  /* ---- what reached the devices ---- */

  predicate Arrives(a: Attempt) { a.call.Send? && (!a.answer.raised || a.answer.arrived) }

  /** The messages delivered: those sent without some of the raised ones. */
  function Wire(log: Log): seq<Delivery> {
    if log == [] then [] else
      var last := log[|log| - 1];
      Wire(log[..|log| - 1]) + if Arrives(last) then [last.call.delivery] else []
  }

  /** How many calls raised. */
  function Faults(log: Log): nat {
    if log == [] then 0 else Faults(log[..|log| - 1]) + if log[|log| - 1].answer.raised then 1 else 0
  }

  /* ---- doubt ---- */

  /** Pairs of port and channel. */
  type Doubt = set<(string, nat)>

  predicate Silences(call: Call, port: string, channel: nat) { call == Send(Delivery(port, AllNotesOff(channel))) }

  function DoubtAfter(doubt: Doubt, a: Attempt): Doubt {
    if a.call.Send? && a.call.delivery.message.AllNotesOff? then
      var pair := (a.call.delivery.port, a.call.delivery.message.channel);
      if a.answer.raised then doubt + {pair} else doubt - {pair}
    else doubt
  }

  /** A channel is in doubt from an all-notes-off that raised until the next that does not. */
  function DoubtOf(log: Log): Doubt {
    if log == [] then {} else DoubtAfter(DoubtOf(log[..|log| - 1]), log[|log| - 1])
  }

  ghost predicate LastRaised(log: Log, port: string, channel: nat, i: nat) {
    && i < |log| && Silences(log[i].call, port, channel) && log[i].answer.raised
    && forall j :: i < j < |log| ==> !Silences(log[j].call, port, channel)
  }

  /** In doubt is exactly a channel whose last all-notes-off raised. */
  lemma {:induction false} DoubtIffLastRaised(log: Log, port: string, channel: nat)
    ensures (port, channel) in DoubtOf(log) <==> exists i: nat :: LastRaised(log, port, channel, i)
  {
    if log == [] {
      assert forall i: nat :: !LastRaised(log, port, channel, i);
    } else {
      var n := |log| - 1;
      var front := log[..n];
      DoubtIffLastRaised(front, port, channel);
      if Silences(log[n].call, port, channel) {
        forall i: nat | LastRaised(log, port, channel, i) ensures i == n { }
        if log[n].answer.raised { assert LastRaised(log, port, channel, n); }
      } else {
        forall i: nat ensures LastRaised(log, port, channel, i) <==> LastRaised(front, port, channel, i) {
          assert i < n ==> log[i] == front[i];
          assert forall j :: 0 <= j < n ==> log[j] == front[j];
        }
      }
    }
  }

  lemma AfterCall(log: Log, a: Attempt)
    ensures Wire(log + [a]) == if Arrives(a) then Wire(log) + [a.call.delivery] else Wire(log)
    ensures Faults(log + [a]) == Faults(log) + if a.answer.raised then 1 else 0
    ensures DoubtOf(log + [a]) == DoubtAfter(DoubtOf(log), a)
  {
    assert (log + [a])[..|log|] == log;
  }

  /** As the log grows, the trace and the faults do. */
  lemma {:induction false} GrowingLog(was: Log, now: Log)
    requires was <= now
    ensures Wire(was) <= Wire(now) && Faults(was) <= Faults(now)
  {
    if |was| < |now| {
      GrowingLog(was, now[..|now| - 1]);
    } else {
      assert was == now;
    }
  }

  /** Without a fault every message arrives and doubt only changes by being settled. */
  lemma {:induction false} SentWithoutFault(log: Log, backend: Backend, messages: seq<Delivery>)
    requires Faults(Sent(log, backend, messages)) == Faults(log)
    ensures Wire(Sent(log, backend, messages)) == Wire(log) + messages
    ensures DoubtOf(Sent(log, backend, messages)) <= DoubtOf(log)
  {
    if messages == [] {
      SentNothing(log, backend);
    } else {
      var n := |messages| - 1;
      var before := Sent(log, backend, messages[..n]);
      assert messages == messages[..n] + [messages[n]];
      SentOneMore(log, backend, messages[..n], messages[n]);
      AfterCall(before, Attempt(Send(messages[n]), backend(|before|)));
      GrowingLog(log, before);
      SentWithoutFault(log, backend, messages[..n]);
    }
  }

  /** A backend that never raises makes no fault. */
  lemma {:induction false} NoFaultWithoutRaising(was: Log, now: Log, backend: Backend)
    requires Grows(was, now, backend) && forall i {:trigger backend(i)} :: !backend(i).raised
    ensures Faults(now) == Faults(was)
  {
    if |was| < |now| {
      var front := now[..|now| - 1];
      assert forall i :: 0 <= i < |front| ==> front[i] == now[i];
      NoFaultWithoutRaising(was, front, backend);
    } else {
      assert was == now;
    }
  }

  /** The channels of a port whose all-notes-off raised since. */
  function RaisedSince(port: string, was: Log, now: Log): set<nat> {
    set i | |was| <= i < |now| && now[i].answer.raised && now[i].call.Send? && now[i].call.delivery.port == port
            && now[i].call.delivery.message.AllNotesOff? :: now[i].call.delivery.message.channel
  }

  lemma RaisedOneMore(port: string, was: Log, now: Log, a: Attempt)
    requires was <= now
    ensures RaisedSince(port, was, now + [a]) ==
            RaisedSince(port, was, now) +
            if a.answer.raised && a.call.Send? && a.call.delivery.port == port && a.call.delivery.message.AllNotesOff?
            then {a.call.delivery.message.channel} else {}
  {
    var longer := now + [a];
    assert longer[|now|] == a;
    assert forall i :: 0 <= i < |now| ==> longer[i] == now[i];
    forall c | c in RaisedSince(port, was, now) ensures c in RaisedSince(port, was, longer) {
      var i :| |was| <= i < |now| && now[i].answer.raised && now[i].call == Send(Delivery(port, AllNotesOff(c)));
      assert longer[i] == now[i];
    }
  }

  lemma RaisedWithoutFault(port: string, was: Log, now: Log)
    requires was <= now && Faults(now) == Faults(was)
    ensures RaisedSince(port, was, now) == {}
  {
    NoneRaised(was, now);
  }

  lemma {:induction false} NoneRaised(was: Log, now: Log)
    requires was <= now && Faults(now) == Faults(was)
    ensures forall i :: |was| <= i < |now| ==> !now[i].answer.raised
  {
    if |was| >= |now| {
    } else {
      var front := now[..|now| - 1];
      GrowingLog(was, front);
      NoneRaised(was, front);
      assert forall i :: 0 <= i < |front| ==> now[i] == front[i];
    }
  }
}
