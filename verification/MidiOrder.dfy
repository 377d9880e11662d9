/** Which published states may still be applied, as panics are requested and completed around them, and what the
    session promises about them (the mailbox and the ordering of output_service.py). */
module MidiOrder {
  import opened Common
  import opened MidiState
  import opened MidiBackend
  import opened MidiApply

  /** A published state. Its thread first compares the generation with the watermark and later stores the state
      under the lock: `checked` and `stored` are the numbers of panics requested by then, and `stamp` is the
      moment of storing on the session's event count. */
  datatype Desired = Desired(
    notes: Notes, configuration: Configuration, generation: nat, checked: nat, stored: nat, stamp: nat)

  /** Where the sender thread stands between two atomic steps. */
  datatype Phase =
    | Waiting
    | PanicPicked(upTo: nat)
    | PanicSent(upTo: nat)
    | StatePicked(desired: Desired)
    | RefreshPicked
    | PortsListed
    | ClosePicked
    | Stopped

  /** The sender is past its choice of an action that may apply a state. */
  predicate InFlight(p: Phase) { p.StatePicked? || p == RefreshPicked || p == PortsListed }

  /* ---- which states may be applied ---- */

  /** Stamped above, or not ordered with, every panic requested before it was checked. */
  ghost predicate CheckOk(d: Desired, requests: seq<nat>) {
    && d.checked <= d.stored <= |requests|
    && forall i {:trigger IsStale(requests[i], d.generation)} :: 0 <= i < d.checked ==>
         !IsStale(requests[i], d.generation)
  }

  /** `d` passed its check and was stored after the last completion and so after every completed panic's request. */
  ghost predicate Current(d: Desired, requests: seq<nat>, completed: nat, lastCompletion: nat) {
    lastCompletion < d.stamp && completed <= d.stored && CheckOk(d, requests)
  }

  /** A panic that makes a current state stale and has nevertheless been completed was requested, and completed,
      between the state's check and its storing. */
  lemma StaleOnlyIfOvertaken(d: Desired, requests: seq<nat>, completed: nat, lastCompletion: nat, i: nat)
    requires Current(d, requests, completed, lastCompletion) && i < completed
    ensures IsStale(requests[i], d.generation) ==> d.checked <= i < d.stored
    ensures d.checked == d.stored ==> !IsStale(requests[i], d.generation)
  {
  }

  lemma CheckStillOk(d: Desired, requests: seq<nat>, more: seq<nat>)
    requires CheckOk(d, requests)
    ensures CheckOk(d, requests + more)
  {
    forall i | 0 <= i < d.checked ensures !IsStale((requests + more)[i], d.generation) {
      assert (requests + more)[i] == requests[i];
    }
  }

  /** States that have passed their check and are not stored yet. */
  ghost predicate PublishersOk(publishing: seq<Desired>, requests: seq<nat>) {
    forall i {:trigger CheckOk(publishing[i], requests)} :: 0 <= i < |publishing| ==>
      Proper(publishing[i].notes) && CheckOk(publishing[i], requests)
  }

  lemma PublisherJoins(publishing: seq<Desired>, d: Desired, requests: seq<nat>)
    requires PublishersOk(publishing, requests) && Proper(d.notes) && CheckOk(d, requests)
    ensures PublishersOk(publishing + [d], requests)
  {
    var all := publishing + [d];
    forall i | 0 <= i < |all| ensures Proper(all[i].notes) && CheckOk(all[i], requests) {
      assert i < |publishing| ==> CheckOk(publishing[i], requests);
    }
  }

  lemma PublishersStay(publishing: seq<Desired>, requests: seq<nat>, more: seq<nat>)
    requires PublishersOk(publishing, requests)
    ensures PublishersOk(publishing, requests + more)
  {
    forall i | 0 <= i < |publishing| ensures Proper(publishing[i].notes) && CheckOk(publishing[i], requests + more) {
      assert CheckOk(publishing[i], requests);
      CheckStillOk(publishing[i], requests, more);
    }
  }

  lemma PublisherLeaves(publishing: seq<Desired>, index: nat, requests: seq<nat>)
    requires PublishersOk(publishing, requests) && index < |publishing|
    ensures PublishersOk(publishing[..index] + publishing[index + 1..], requests)
    ensures var d := publishing[index]; Proper(d.notes) && CheckOk(d.(stored := |requests|), requests)
  {
    assert CheckOk(publishing[index], requests);
    var rest := publishing[..index] + publishing[index + 1..];
    forall i | 0 <= i < |rest| ensures Proper(rest[i].notes) && CheckOk(rest[i], requests) {
      var j := if i < index then i else i + 1;
      assert rest[i] == publishing[j] && CheckOk(publishing[j], requests);
    }
  }

  ghost predicate IsWatermark(watermark: nat, requests: seq<nat>) {
    && (forall i :: 0 <= i < |requests| ==> requests[i] <= watermark)
    && (watermark == 0 || watermark in requests)
  }

  /** What is not stale for the watermark is stale for no panic requested so far. */
  lemma FreshIsChecked(d: Desired, watermark: nat, requests: seq<nat>)
    requires IsWatermark(watermark, requests) && !IsStale(watermark, d.generation)
    requires d.checked == d.stored == |requests|
    ensures CheckOk(d, requests)
  {
  }

  ghost predicate Queued(o: Option<Desired>, requests: seq<nat>, completed: nat, lastCompletion: nat, now: nat) {
    o.Some? ==>
      Proper(o.value.notes) && o.value.stamp <= now && Current(o.value, requests, completed, lastCompletion)
  }

  /** The ids of the ports displayed as `name`. */
  function Named(entries: seq<(string, string)>, name: string): seq<string> {
    if entries == [] then [] else
      (if entries[0].0 == name then [entries[0].1] else []) + Named(entries[1..], name)
  }

  /** `_resolve_port_id`: an id as it is, else the only port so displayed, else the value as it is. */
  function ResolvePortId(entries: seq<(string, string)>, selected: string): string {
    if selected == "" || selected in PortIds(entries) then selected
    else if |Named(entries, selected)| == 1 then Named(entries, selected)[0]
    else selected
  }

  /** A name stands for a port that has it for id, failing that for the only port displayed under it, and for itself if
      no port or more than one is. */
  lemma ResolvedPort(entries: seq<(string, string)>, selected: string, i: nat)
    requires selected != "" && forall e :: e in entries ==> e.1 != selected
    ensures i < |entries| && entries[i].0 == selected
            && (forall j :: 0 <= j < |entries| && j != i ==> entries[j].0 != selected) ==>
              ResolvePortId(entries, selected) == entries[i].1
    ensures (forall e :: e in entries ==> e.0 != selected) ==> ResolvePortId(entries, selected) == selected
    ensures forall j :: i < j < |entries| && entries[i].0 == entries[j].0 == selected ==>
              ResolvePortId(entries, selected) == selected
  {
    if i < |entries| {
      NamedAround(entries, selected, i);
      NamedNone(entries[..i], selected);
      NamedNone(entries[i + 1..], selected);
    }
    NamedNone(entries, selected);
  }

  lemma PortById(entries: seq<(string, string)>, selected: string)
    ensures selected == "" || (exists e :: e in entries && e.1 == selected) ==>
              ResolvePortId(entries, selected) == selected
  {
  }

  lemma {:induction false} NamedAround(entries: seq<(string, string)>, name: string, i: nat)
    requires i < |entries|
    ensures Named(entries, name) == Named(entries[..i], name) + (if entries[i].0 == name then [entries[i].1] else [])
                                    + Named(entries[i + 1..], name)
  {
    if i == 0 {
    } else {
      NamedAround(entries[1..], name, i - 1);
      assert entries[..i][1..] == entries[1..][..i - 1];
    }
  }

  lemma {:induction false} NamedNone(entries: seq<(string, string)>, name: string)
    ensures Named(entries, name) == [] <==> forall e :: e in entries ==> e.0 != name
  {
    if entries == [] {
    } else {
      NamedNone(entries[1..], name);
      assert forall e :: e in entries <==> e == entries[0] || e in entries[1..];
    }
  }

  /** A port is selected and listed. */
  predicate Listed(entries: seq<(string, string)>, selected: string) {
    selected != "" && ResolvePortId(entries, selected) in PortIds(entries)
  }

  /** One application of `d` to what was recorded, call by call. */
  ghost predicate Applies(before: Held, entries: seq<(string, string)>, d: Desired, ok: bool, after: Held, was: Log,
                          now: Log, backend: Backend) {
    Outcome(before, ResolvePortId(entries, d.configuration.outputPort), Listed(entries, d.configuration.outputPort),
            d.notes, d.configuration, ok, after, was, now, backend)
  }

  lemma AppliesHolds(before: Held, entries: seq<(string, string)>, d: Desired, ok: bool, after: Held, was: Log,
                     now: Log,
                     backend: Backend)
    requires Applies(before, entries, d, ok, after, was, now, backend)
    ensures Grows(was, now, backend)
    ensures after.sent.at.Keys == d.notes.at.Keys || after.sent == NO_NOTES
  {
    OutcomeHolds(before, ResolvePortId(entries, d.configuration.outputPort),
                 Listed(entries, d.configuration.outputPort),
                 d.notes, d.configuration, ok, after, was, now, backend);
  }

  /** An application goes on from where leaving another port led. */
  lemma AppliesOnceLeft(before: Held, entries: seq<(string, string)>, d: Desired, ok: bool, after: Held, was: Log,
                        remaining: Held, left: Log, now: Log, backend: Backend)
    ensures var selected := d.configuration.outputPort;
            var name := ResolvePortId(entries, selected);
            Leaves(before, name, selected, was, left, backend) && remaining == Remaining(before, name, selected) &&
            Applies(remaining, entries, d, ok, after, left, now, backend) ==>
              Applies(before, entries, d, ok, after, was, now, backend)
  {
    var selected := d.configuration.outputPort;
    var name := ResolvePortId(entries, selected);
    assert Leaves(remaining, name, selected, left, left, backend) || remaining != Remaining(before, name, selected);
    OutcomeAsLeft(before, name, Listed(entries, selected), d.notes, d.configuration, ok, after, was, left, now,
                  backend);
  }

  /** One application of a state, with the panics requested when the sender picked it, and requested and completed
      at that moment, and the sender's phase at each request. */
  datatype Application = Application(
    desired: Desired, requests: seq<nat>, picked: nat, completed: nat, lastCompletion: nat, phases: seq<Phase>)

  /** Every panic requested and not completed was requested with an application already in flight. */
  ghost predicate OutstandingInFlight(requests: seq<nat>, completed: nat, phases: seq<Phase>) {
    |phases| == |requests| && forall i {:trigger phases[i]} :: completed <= i < |phases| ==> InFlight(phases[i])
  }

  ghost predicate ApplicationOk(a: Application) {
    && Current(a.desired, a.requests, a.completed, a.lastCompletion)
    && a.completed == a.picked <= |a.requests|
    && OutstandingInFlight(a.requests, a.completed, a.phases)
  }

  /** A state is applied with a panic outstanding exactly if one was requested since the sender's pick. */
  lemma OutstandingIffRequestedSincePick(applied: seq<Application>, i: nat)
    requires AllCurrent(applied) && i < |applied|
    ensures applied[i].completed < |applied[i].requests| <==> applied[i].picked < |applied[i].requests|
    ensures |applied[i].phases| == |applied[i].requests|
    ensures forall j :: applied[i].picked <= j < |applied[i].requests| ==> InFlight(applied[i].phases[j])
  {
    assert ApplicationOk(applied[i]);
  }

  ghost predicate AllCurrent(applied: seq<Application>) {
    forall i {:trigger ApplicationOk(applied[i])} :: 0 <= i < |applied| ==> ApplicationOk(applied[i])
  }

  /** A generation that none of these panics makes stale: 0, which is not ordered with panics, or above each. */
  predicate Above(generation: nat, panics: seq<nat>) {
    generation == 0 || forall i :: 0 <= i < |panics| ==> panics[i] < generation
  }

  /** Every applied state is above each panic that was requested before its check. */
  predicate AllAbove(applied: seq<Application>) {
    forall a :: a in applied ==>
      a.desired.checked <= |a.requests| && Above(a.desired.generation, a.requests[..a.desired.checked])
  }

  lemma CurrentIsAbove(applied: seq<Application>)
    requires AllCurrent(applied)
    ensures AllAbove(applied)
  {
    forall a | a in applied
      ensures a.desired.checked <= |a.requests| && Above(a.desired.generation, a.requests[..a.desired.checked])
    {
      var i :| 0 <= i < |applied| && applied[i] == a;
      assert ApplicationOk(applied[i]);
      assert forall j :: 0 <= j < a.desired.checked ==> !IsStale(a.requests[j], a.desired.generation);
    }
  }

  lemma OneMoreApplied(applied: seq<Application>, a: Application)
    requires AllCurrent(applied) && ApplicationOk(a)
    ensures AllCurrent(applied + [a])
  {
    forall i | 0 <= i < |applied| ensures ApplicationOk((applied + [a])[i]) {
      assert ApplicationOk(applied[i]);
    }
  }

  /** The phases at the requests, and while an action is in flight the panics requested at its pick. */
  ghost predicate RequestsOk(phase: Phase, requests: seq<nat>, picked: nat, completed: nat, phases: seq<Phase>) {
    && |phases| == |requests|
    && (InFlight(phase) ==> completed == picked <= |requests| && OutstandingInFlight(requests, completed, phases))
  }

  /** The panic counters at the moment the sender picked a state or a refresh. */
  datatype Start = Start(requested: nat, completed: nat)

  ghost predicate AllIdle(starts: seq<Start>) {
    forall i :: 0 <= i < |starts| ==> starts[i].completed == starts[i].requested
  }

  /** The state the sender has taken out, and the panic it is busy with. */
  ghost predicate PhaseOk(phase: Phase, port: Option<string>, sent: Notes, requests: seq<nat>, completed: nat,
                          lastCompletion: nat) {
    && completed <= |requests|
    && match phase
       case StatePicked(d) => Proper(d.notes) && Current(d, requests, completed, lastCompletion)
       case PanicPicked(n) => n <= |requests|
       case PanicSent(n) => n <= |requests| && sent == NO_NOTES
       case Stopped => port.None?
       case _ => true
  }

  /** Whatever sounds was asked for by the last applied state, and that state is still current. */
  ghost predicate SoundOk(sent: Notes, last: Option<Desired>, requests: seq<nat>, completed: nat, lastCompletion: nat) {
    sent.at != map[] ==>
      last.Some? && sent.at.Keys == last.value.notes.at.Keys && Current(last.value, requests, completed, lastCompletion)
  }

  /** Each slot of the mailbox is as it was or has been emptied. */
  predicate MailboxKept(pending: Option<Desired>, latest: Option<Desired>, pendingAfter: Option<Desired>,
                        latestAfter: Option<Desired>) {
    (pendingAfter == pending || pendingAfter == None) && (latestAfter == latest || latestAfter == None)
  }
}
