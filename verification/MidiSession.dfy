/** What the MIDI session promises about its mailbox, its panics and what it applied, and that each step keeps it. */
module MidiSession {
  import opened Common
  import opened MidiState
  import opened MidiBackend
  import opened MidiApply
  import opened MidiOrder

  /** What has happened so far: the generations of the panics requested and the sender's phase at each, the moment of
      the last completion, the panics requested at the sender's last pick, and what was picked and applied. */
  datatype History = History(
    requests: seq<nat>, phases: seq<Phase>, lastCompletion: nat, picked: nat, lastApplied: Option<Desired>,
    applied: seq<Application>, starts: seq<Start>)

  const NO_HISTORY := History([], [], 0, 0, None, [], [])

  /** The mailbox with its two slots, and the states on their way into it. */
  datatype Inbox = Inbox(pending: Option<Desired>, latest: Option<Desired>, publishing: seq<Desired>)

  /** Whether applying a state empties the mailbox, once any other port is left: it does exactly if a message to an
      open or just opened port raised, and not if there is no port to be had or opening raises. */
  predicate Lost(open: bool, listed: bool, ok: bool, left: Log, backend: Backend) {
    !ok && (open || (listed && !backend(|left|).raised))
  }

  ghost predicate Forgets(before: Held, entries: seq<(string, string)>, d: Desired, ok: bool, m: Inbox, after: Inbox,
                          was: Log, backend: Backend) {
    var selected := d.configuration.outputPort;
    var name := ResolvePortId(entries, selected);
    forall left {:trigger Leaves(before, name, selected, was, left, backend)} ::
      Leaves(before, name, selected, was, left, backend) ==>
        after == MailAfter(m, Lost(Remaining(before, name, selected).port.Some?, Listed(entries, selected), ok, left,
                                   backend))
  }

  function MailAfter(m: Inbox, lost: bool): Inbox { if lost then m.(pending := None, latest := None) else m }

  lemma ForgetsAsLeft(before: Held, entries: seq<(string, string)>, d: Desired, ok: bool, m: Inbox, after: Inbox,
                      was: Log, left: Log, backend: Backend)
    ensures var selected := d.configuration.outputPort;
            var name := ResolvePortId(entries, selected);
            Leaves(before, name, selected, was, left, backend) &&
            after == MailAfter(m, Lost(Remaining(before, name, selected).port.Some?, Listed(entries, selected), ok,
                                       left, backend)) ==>
              Forgets(before, entries, d, ok, m, after, was, backend)
  {
    var selected := d.configuration.outputPort;
    var name := ResolvePortId(entries, selected);
    if Leaves(before, name, selected, was, left, backend) {
      forall other | Leaves(before, name, selected, was, other, backend) ensures other == left {
        LeavesOnce(before, name, selected, was, left, other, backend);
      }
    }
  }

  lemma ForgetsOnceLeft(before: Held, entries: seq<(string, string)>, d: Desired, ok: bool, m: Inbox, after: Inbox,
                        was: Log, remaining: Held, left: Log, backend: Backend)
    ensures var selected := d.configuration.outputPort;
            var name := ResolvePortId(entries, selected);
            Leaves(before, name, selected, was, left, backend) && remaining == Remaining(before, name, selected) &&
            Forgets(remaining, entries, d, ok, m, after, left, backend) ==>
              Forgets(before, entries, d, ok, m, after, was, backend)
  {
    var selected := d.configuration.outputPort;
    var name := ResolvePortId(entries, selected);
    assert Leaves(remaining, name, selected, left, left, backend) || remaining != Remaining(before, name, selected);
    ForgetsAsLeft(before, entries, d, ok, m, after, was, left, backend);
  }

  lemma ForgetsHolds(before: Held, entries: seq<(string, string)>, d: Desired, ok: bool, m: Inbox, after: Inbox,
                     was: Log, backend: Backend)
    requires Forgets(before, entries, d, ok, m, after, was, backend)
    ensures after == MailAfter(m, true) || after == m
    ensures ok ==> after == m
  {
    var selected := d.configuration.outputPort;
    var left := LeavesSomewhere(before, ResolvePortId(entries, selected), selected, was, backend);
  }

  ghost predicate MailboxHolds(m: Inbox, completed: nat, now: nat, h: History) {
    && h.lastCompletion <= now
    && Queued(m.pending, h.requests, completed, h.lastCompletion, now)
    && Queued(m.latest, h.requests, completed, h.lastCompletion, now)
    && PublishersOk(m.publishing, h.requests)
  }

  ghost predicate CountersHold(watermark: nat, requested: nat, completed: nat, h: History) {
    requested == |h.requests| && completed <= requested && IsWatermark(watermark, h.requests)
  }

  ghost predicate SenderHolds(phase: Phase, port: Option<string>, sent: Notes, completed: nat, h: History) {
    && PhaseOk(phase, port, sent, h.requests, completed, h.lastCompletion)
    && SoundOk(sent, h.lastApplied, h.requests, completed, h.lastCompletion)
    && RequestsOk(phase, h.requests, h.picked, completed, h.phases)
    && AllCurrent(h.applied) && AllIdle(h.starts)
  }

  function Raised(watermark: nat, generation: nat): nat { if watermark < generation then generation else watermark }

  function Requested(h: History, phase: Phase, generation: nat): History {
    h.(requests := h.requests + [generation], phases := h.phases + [phase])
  }

  function Picked(h: History, requested: nat, completed: nat): History {
    h.(picked := requested, starts := h.starts + [Start(requested, completed)])
  }

  function AfterApplying(h: History, completed: nat, d: Desired): History {
    h.(lastApplied := Some(d),
       applied := h.applied + [Application(d, h.requests, h.picked, completed, h.lastCompletion, h.phases)])
  }

  /** What one step of the sender, from one phase to another, adds to the history: its picks of a state or a refresh,
      the completion of a panic, and the application of a picked state, and nothing else. */
  function Stepped(h: History, was: Phase, next: Phase, requested: nat, completed: nat, now: nat): History {
    if was == Waiting && InFlight(next) then Picked(h, requested, completed)
    else if was.PanicSent? then h.(lastCompletion := now)
    else if was.StatePicked? then AfterApplying(h, completed, was.desired)
    else h
  }

  /** Nothing that happened is forgotten. */
  ghost predicate Remembers(now: History, before: History) {
    && before.requests <= now.requests && before.phases <= now.phases
    && before.applied <= now.applied && before.starts <= now.starts
  }

  lemma Publishing(m: Inbox, watermark: nat, requested: nat, completed: nat, now: nat, h: History, d: Desired)
    requires MailboxHolds(m, completed, now, h) && CountersHold(watermark, requested, completed, h)
    requires Proper(d.notes) && !IsStale(watermark, d.generation) && d.checked == d.stored == requested
    ensures MailboxHolds(m.(publishing := m.publishing + [d]), completed, now, h)
  {
    FreshIsChecked(d, watermark, h.requests);
    PublisherJoins(m.publishing, d, h.requests);
  }

  /** A state leaves its publishing thread, for nothing or for both slots. */
  lemma Storing(m: Inbox, watermark: nat, requested: nat, completed: nat, now: nat, h: History, index: nat)
    requires MailboxHolds(m, completed, now, h) && CountersHold(watermark, requested, completed, h)
    requires index < |m.publishing|
    ensures var left := m.publishing[..index] + m.publishing[index + 1..];
            var d := m.publishing[index].(stored := requested, stamp := now + 1);
            && MailboxHolds(m.(publishing := left), completed, now, h)
            && MailboxHolds(Inbox(Some(d), Some(d), left), completed, now + 1, h)
  {
    PublisherLeaves(m.publishing, index, h.requests);
  }

  lemma Emptying(m: Inbox, completed: nat, now: nat, h: History, pending: Option<Desired>, latest: Option<Desired>)
    ensures MailboxHolds(m, completed, now, h) && MailboxKept(m.pending, m.latest, pending, latest) ==>
              MailboxHolds(m.(pending := pending, latest := latest), completed, now, h)
  {
  }

  /** A panic request appends its generation, raises the watermark and empties the mailbox. */
  lemma PanicRequested(m: Inbox, watermark: nat, requested: nat, completed: nat, now: nat, phase: Phase,
                       port: Option<string>, sent: Notes, h: History, generation: nat)
    requires MailboxHolds(m, completed, now, h) && CountersHold(watermark, requested, completed, h)
    requires SenderHolds(phase, port, sent, completed, h)
    ensures var after := Requested(h, phase, generation);
            && MailboxHolds(Inbox(None, None, m.publishing), completed, now, after)
            && CountersHold(Raised(watermark, generation), requested + 1, completed, after)
            && SenderHolds(phase, port, sent, completed, after)
  {
    var requests := h.requests + [generation];
    assert forall g :: g in requests <==> g in h.requests || g == generation;
    PublishersStay(m.publishing, h.requests, [generation]);
    if phase.StatePicked? { CheckStillOk(phase.desired, h.requests, [generation]); }
    if sent.at != map[] { CheckStillOk(h.lastApplied.value, h.requests, [generation]); }
  }

  /** What the sender may pick: close or panic at any time, a refresh or the pending state with no panic outstanding. */
  lemma Picking(m: Inbox, watermark: nat, requested: nat, completed: nat, now: nat, port: Option<string>, sent: Notes,
                h: History)
    requires MailboxHolds(m, completed, now, h) && CountersHold(watermark, requested, completed, h)
    requires SenderHolds(Waiting, port, sent, completed, h)
    ensures SenderHolds(ClosePicked, port, sent, completed, h)
    ensures SenderHolds(PanicPicked(requested), port, sent, completed, h)
    ensures completed >= requested ==>
              var after := Picked(h, requested, completed);
              && MailboxHolds(m, completed, now, after) && MailboxHolds(m.(pending := None), completed, now, after)
              && CountersHold(watermark, requested, completed, after)
              && SenderHolds(RefreshPicked, port, sent, completed, after)
              && (m.pending.Some? ==> SenderHolds(StatePicked(m.pending.value), port, sent, completed, after))
  {
  }

  lemma SendingPanic(phase: Phase, port: Option<string>, sent: Notes, completed: nat, h: History, after: Option<string>)
    requires SenderHolds(phase, port, sent, completed, h)
    ensures phase.PanicPicked? ==> SenderHolds(PanicSent(phase.upTo), after, NO_NOTES, completed, h)
    ensures phase == ClosePicked ==> SenderHolds(Stopped, None, NO_NOTES, completed, h)
  {
  }

  lemma Completing(m: Inbox, watermark: nat, requested: nat, completed: nat, now: nat, phase: Phase,
                   port: Option<string>, sent: Notes, h: History)
    requires MailboxHolds(m, completed, now, h) && CountersHold(watermark, requested, completed, h)
    requires SenderHolds(phase, port, sent, completed, h) && phase.PanicSent?
    ensures var c, after := Raised(completed, phase.upTo), h.(lastCompletion := now);
            && MailboxHolds(Inbox(None, None, m.publishing), c, now, after)
            && CountersHold(watermark, requested, c, after) && SenderHolds(Waiting, port, sent, c, after)
  {
  }

  /** Applying the picked state sounds nothing that is not current. */
  lemma Applying(m: Inbox, watermark: nat, requested: nat, completed: nat, now: nat, phase: Phase,
                 port: Option<string>, sent: Notes, h: History)
    requires MailboxHolds(m, completed, now, h) && CountersHold(watermark, requested, completed, h)
    requires SenderHolds(phase, port, sent, completed, h) && phase.StatePicked?
    ensures Proper(phase.desired.notes)
    ensures var after := AfterApplying(h, completed, phase.desired);
            && MailboxHolds(m, completed, now, after) && CountersHold(watermark, requested, completed, after)
            && forall q: Option<string>, held: Notes {:trigger SenderHolds(Waiting, q, held, completed, after)} ::
                 held.at.Keys == phase.desired.notes.at.Keys || held == NO_NOTES ==>
                   SenderHolds(Waiting, q, held, completed, after)
  {
    OneMoreApplied(h.applied, Application(phase.desired, h.requests, h.picked, completed, h.lastCompletion, h.phases));
  }

  lemma Listing(m: Inbox, completed: nat, now: nat, h: History, before: Held, entries: seq<(string, string)>,
                after: Held, was: Log, log: Log, backend: Backend)
    ensures Refreshed(before, entries, after, was, log, backend) ==> Grows(was, log, backend)
    ensures Refreshed(before, entries, after, was, log, backend) && Grows([], was, backend) ==> Grows([], log, backend)
    ensures Refreshed(before, entries, after, was, log, backend) &&
            SenderHolds(RefreshPicked, before.port, before.sent, completed, h) ==>
              SenderHolds(PortsListed, after.port, after.sent, completed, h)
    ensures MailboxKept(m.pending, m.latest, None, None) && MailboxKept(m.pending, m.latest, m.pending, m.latest)
  {
    if Refreshed(before, entries, after, was, log, backend) {
      RefreshGrows(before, entries, after, was, log, backend);
      if Grows([], was, backend) { GrowsFurther([], was, log, backend); }
    }
  }

  /** The state a refresh applies again is current too. */
  lemma Remembering(m: Inbox, completed: nat, now: nat, port: Option<string>, sent: Notes, h: History)
    requires MailboxHolds(m, completed, now, h) && SenderHolds(PortsListed, port, sent, completed, h)
    ensures SenderHolds(if m.latest.Some? then StatePicked(m.latest.value) else Waiting, port, sent, completed, h)
  {
  }
}
