/**
 * Delivery of webhook events: the idempotency table, the job queue and the
 * worker's three separate steps (look up the event, run its transaction, mark it
 * processed), any of which may be the last before the worker stops. The queue
 * delivers a job at least once, so a job may start over at any point and may be
 * handed out twice. Other transactions run in between.
 */
module CommerceDelivery {
  import opened Common
  import opened CommerceTables
  import opened CommerceHandlers
  import opened CommerceSteps
  import opened CommerceEffects
  import opened CommerceInvariants
  import opened CommerceSecondGrant
  import opened CommerceRedelivery
  import opened CommerceWorker

  /** A body, written out in one way for each JSONB value, and the event it parses to. */
  datatype Payload = Payload(json: string, ev: Event)
  datatype WebhookEvent = WebhookEvent(id: string, payload: Payload, processed: bool)

  datatype Phase =
    | Queued
    | LookedUp(row: Option<nat>)
    | Committing(row: Option<nat>, owed: Option<Receipt>)
    | Done
  datatype Job = Job(payload: Payload, phase: Phase)

  datatype System = System(t: Tables, events: seq<WebhookEvent>, jobs: seq<Job>, receipts: seq<Receipt>)

  const START := System(EMPTY, [], [], [])

  datatype Action =
    | Deliver(id: string, payload: Payload, enqueued: bool)
    | LookUp(j: nat)
    | Transact(j: nat, plan: Plan, now: int)
    | SendReceipt(j: nat, queued: bool)
    | Mark(j: nat)
    | StartOver(j: nat)
    | HandOutAgain(j: nat)
    | Other(s: Step)

  function WithId(id: string): WebhookEvent -> bool {
    (w: WebhookEvent) => w.id == id
  }

  function WithPayload(payload: Payload): WebhookEvent -> bool {
    (w: WebhookEvent) => w.payload == payload
  }

  /** ON CONFLICT DO NOTHING: the row is new exactly when no row has the id. */
  function TryRecord(events: seq<WebhookEvent>, id: string, payload: Payload): (r: (seq<WebhookEvent>, bool))
    ensures r.1 <==> forall i | 0 <= i < |events| :: events[i].id != id
    ensures r.0 == if r.1 then events + [WebhookEvent(id, payload, false)] else events
  {
    if First(events, WithId(id)).Some? then (events, false) else (events + [WebhookEvent(id, payload, false)], true)
  }

  function Phased(s: System, j: nat, phase: Phase): System
    requires j < |s.jobs|
  {
    s.(jobs := s.jobs[j := s.jobs[j].(phase := phase)])
  }

  function Act(s: System, a: Action): System {
    match a
    case Deliver(id, payload, enqueued) =>
      var (events, isNew) := TryRecord(s.events, id, payload);
      s.(events := events, jobs := if isNew && enqueued then s.jobs + [Job(payload, Queued)] else s.jobs)
    case LookUp(j) =>
      if j < |s.jobs| && s.jobs[j].phase.Queued? then
        var row := Latest(s.events, WithPayload(s.jobs[j].payload));
        if row.Some? && s.events[row.value].processed then Phased(s, j, Done) else Phased(s, j, LookedUp(row))
      else s
    case Transact(j, plan, now) =>
      if j < |s.jobs| && s.jobs[j].phase.LookedUp? then
        match Handle(s.t, s.jobs[j].payload.ev, plan, now)
        case Rejected => Phased(s, j, Queued)
        case Committed(t', owed) => Phased(s, j, Committing(s.jobs[j].phase.row, owed)).(t := t')
      else s
    case SendReceipt(j, queued) =>
      if j < |s.jobs| && s.jobs[j].phase.Committing? && s.jobs[j].phase.owed.Some? then
        Phased(s, j, Committing(s.jobs[j].phase.row, None))
        .(receipts := if queued then s.receipts + [s.jobs[j].phase.owed.value] else s.receipts)
      else s
    case Mark(j) =>
      if j < |s.jobs| && s.jobs[j].phase.Committing? && s.jobs[j].phase.owed.None? then
        var row := s.jobs[j].phase.row;
        Phased(s, j, Done)
        .(events := if row.Some? && row.value < |s.events|
                    then s.events[row.value := s.events[row.value].(processed := true)] else s.events)
      else s
    case StartOver(j) => if j < |s.jobs| then Phased(s, j, Queued) else s
    case HandOutAgain(j) => if j < |s.jobs| then s.(jobs := s.jobs + [Job(s.jobs[j].payload, Queued)]) else s
    case Other(step) => if step.Webhook? then s else s.(t := After(s.t, step))
  }

  function Acts(s: System, actions: seq<Action>): System {
    if actions == [] then s else Act(Acts(s, actions[..|actions| - 1]), actions[|actions| - 1])
  }

  /** The step of the tables an action makes, if it makes one. */
  function StepOf(s: System, a: Action): Option<Step> {
    match a
    case Transact(j, plan, now) =>
      if j < |s.jobs| && s.jobs[j].phase.LookedUp? then Some(Webhook(s.jobs[j].payload.ev, plan, now)) else None
    case Other(step) => if step.Webhook? then None else Some(step)
    case _ => None
  }

  lemma ActSteps(s: System, a: Action)
    ensures Act(s, a).t == match StepOf(s, a) case None => s.t case Some(step) => After(s.t, step)
  {
  }

  /** Whatever the interleaving, crashes and redeliveries, the tables are those of some run of steps. */
  lemma {:induction false} TablesFollowARun(actions: seq<Action>) returns (steps: seq<Step>)
    ensures Acts(START, actions).t == Run(EMPTY, steps)
    ensures forall o | QuietActs(actions, o) :: QuietRun(EMPTY, steps, o)
  {
    if actions == [] {
      steps := [];
    } else {
      var init, last := actions[..|actions| - 1], actions[|actions| - 1];
      var before := TablesFollowARun(init);
      var s := Acts(START, init);
      ActSteps(s, last);
      steps := before + match StepOf(s, last) case None => [] case Some(step) => [step];
      forall o | QuietActs(actions, o) ensures QuietRun(EMPTY, steps, o) {
        QuietBefore(actions, o);
        if StepOf(s, last).Some? {
          QuietMore(before, StepOf(s, last).value, o);
        } else {
          assert steps == before;
        }
      }
      if StepOf(s, last).Some? {
        assert steps[..|before|] == before;
      } else {
        assert steps == before;
      }
    }
  }

  /** No payment.failed is handled that finds the order succeeded. */
  ghost predicate QuietActs(actions: seq<Action>, o: nat) {
    forall i | 0 <= i < |actions| :: QuietAct(Acts(START, actions[..i]), actions[i], o)
  }

  predicate QuietAct(s: System, a: Action, o: nat) {
    var step := StepOf(s, a);
    step.Some? ==> !FailsPaidOrder(s.t, step.value, o)
  }

  lemma QuietBefore(actions: seq<Action>, o: nat)
    requires actions != [] && QuietActs(actions, o)
    ensures QuietActs(actions[..|actions| - 1], o)
    ensures QuietAct(Acts(START, actions[..|actions| - 1]), actions[|actions| - 1], o)
  {
    var init := actions[..|actions| - 1];
    forall i | 0 <= i < |init| ensures QuietAct(Acts(START, init[..i]), init[i], o) {
      assert init[..i] == actions[..i];
    }
  }

  lemma QuietMore(steps: seq<Step>, s: Step, o: nat)
    requires QuietRun(EMPTY, steps, o) && !FailsPaidOrder(Run(EMPTY, steps), s, o)
    ensures QuietRun(EMPTY, steps + [s], o)
  {
    var more := steps + [s];
    forall i | 0 <= i < |more| ensures !FailsPaidOrder(Run(EMPTY, more[..i]), more[i], o) {
      if i < |steps| {
        assert more[..i] == steps[..i];
      } else {
        assert more[..i] == steps;
      }
    }
  }

  // ----- Receipts -----

  function ReceiptsFor(o: nat): Receipt -> bool {
    (r: Receipt) => r.order == o
  }

  function JobsOwing(o: nat): Job -> bool {
    (j: Job) => j.phase.Committing? && j.phase.owed.Some? && j.phase.owed.value.order == o
  }

  /** Receipts queued, and those still owed, never outnumber the captures of the order. */
  ghost predicate ReceiptsCovered(s: System, o: nat) {
    Count(s.receipts, ReceiptsFor(o)) + Count(s.jobs, JobsOwing(o)) <= Count(s.t.ledger, CaptureRows(o))
  }

  /** A receipt is owed for exactly the order that the event captures. */
  lemma ReceiptForCapture(t: Tables, ev: Event, plan: Plan, now: int)
    requires Handle(t, ev, plan, now).Committed?
    ensures
      var receipt, o := Handle(t, ev, plan, now).receipt, CapturedOrder(t, Webhook(ev, plan, now));
      if receipt.Some? then o == Some(receipt.value.order) else o.None?
  {
    if ev.PaymentCaptured? {
      assert Handle(t, ev, plan, now) == Captured(t, ev.orderRef, ev.paymentRef, plan, now);
    }
  }

  lemma OwedOnCapture(t: Tables, ev: Event, plan: Plan, now: int, o: nat)
    requires Handle(t, ev, plan, now).Committed?
    ensures var r := Handle(t, ev, plan, now);
      Count(t.ledger, CaptureRows(o)) + Unit(r.receipt.Some? && r.receipt.value.order == o)
      == Count(r.tables.ledger, CaptureRows(o))
  {
    var s := Webhook(ev, plan, now);
    ReceiptForCapture(t, ev, plan, now);
    var g, h := Effects(t, s);
    CapturesCounted(t, After(t, s), h, o);
  }

  lemma LedgerGrows(t: Tables, s: Step, o: nat)
    ensures Count(t.ledger, CaptureRows(o)) <= Count(After(t, s).ledger, CaptureRows(o))
  {
    var g, h := Effects(t, s);
    CapturesCounted(t, After(t, s), h, o);
  }

  lemma PhasedOwing(s: System, j: nat, phase: Phase, o: nat)
    requires j < |s.jobs|
    ensures Count(Phased(s, j, phase).jobs, JobsOwing(o)) + Unit(JobsOwing(o)(s.jobs[j]))
         == Count(s.jobs, JobsOwing(o)) + Unit(JobsOwing(o)(s.jobs[j].(phase := phase)))
  {
    CountUpdate(s.jobs, j, s.jobs[j].(phase := phase), JobsOwing(o));
  }

  lemma TransactCovered(s: System, j: nat, plan: Plan, now: int, o: nat)
    requires ReceiptsCovered(s, o)
    ensures ReceiptsCovered(Act(s, Transact(j, plan, now)), o)
  {
    if j < |s.jobs| && s.jobs[j].phase.LookedUp? {
      var ev := s.jobs[j].payload.ev;
      match Handle(s.t, ev, plan, now) {
        case Rejected => PhasedOwing(s, j, Queued, o);
        case Committed(t', owed) =>
          OwedOnCapture(s.t, ev, plan, now, o);
          PhasedOwing(s, j, Committing(s.jobs[j].phase.row, owed), o);
      }
    }
  }

  lemma SendCovered(s: System, j: nat, queued: bool, o: nat)
    requires ReceiptsCovered(s, o)
    ensures ReceiptsCovered(Act(s, SendReceipt(j, queued)), o)
  {
    if j < |s.jobs| && s.jobs[j].phase.Committing? && s.jobs[j].phase.owed.Some? {
      PhasedOwing(s, j, Committing(s.jobs[j].phase.row, None), o);
      CountAppend(s.receipts, s.jobs[j].phase.owed.value, ReceiptsFor(o));
    }
  }

  /** Looking up, marking and starting over owe no receipt. */
  lemma PhasedCovered(s: System, j: nat, phase: Phase, o: nat)
    requires ReceiptsCovered(s, o) && j < |s.jobs| && !phase.Committing?
    ensures ReceiptsCovered(Phased(s, j, phase), o)
  {
    PhasedOwing(s, j, phase, o);
  }

  lemma LookUpCovered(s: System, j: nat, o: nat)
    requires ReceiptsCovered(s, o)
    ensures ReceiptsCovered(Act(s, LookUp(j)), o)
  {
    if j < |s.jobs| && s.jobs[j].phase.Queued? {
      PhasedCovered(s, j, Done, o);
      PhasedCovered(s, j, LookedUp(Latest(s.events, WithPayload(s.jobs[j].payload))), o);
    }
  }

  lemma EnqueueCovered(s: System, a: Action, o: nat)
    requires ReceiptsCovered(s, o) && (a.Deliver? || a.HandOutAgain?)
    ensures ReceiptsCovered(Act(s, a), o)
  {
    if a.Deliver? {
      CountAppend(s.jobs, Job(a.payload, Queued), JobsOwing(o));
    } else if a.j < |s.jobs| {
      CountAppend(s.jobs, Job(s.jobs[a.j].payload, Queued), JobsOwing(o));
    }
  }

  lemma ActCovered(s: System, a: Action, o: nat)
    requires ReceiptsCovered(s, o)
    ensures ReceiptsCovered(Act(s, a), o)
  {
    match a {
      case Deliver(_, _, _) => EnqueueCovered(s, a, o);
      case HandOutAgain(_) => EnqueueCovered(s, a, o);
      case LookUp(j) => LookUpCovered(s, j, o);
      case Transact(j, plan, now) => TransactCovered(s, j, plan, now, o);
      case SendReceipt(j, queued) => SendCovered(s, j, queued, o);
      case Mark(j) => if j < |s.jobs| { PhasedCovered(s, j, Done, o); }
      case StartOver(j) => if j < |s.jobs| { PhasedCovered(s, j, Queued, o); }
      case Other(step) => LedgerGrows(s.t, step, o);
    }
  }

  /** No crash or redelivery queues more receipts for an order than it has payment.captured rows. */
  lemma {:induction false} ReceiptsPerCapture(actions: seq<Action>, o: nat)
    ensures ReceiptsCovered(Acts(START, actions), o)
    ensures var s := Acts(START, actions);
      Count(s.receipts, ReceiptsFor(o)) <= Count(s.t.ledger, CaptureRows(o))
  {
    if actions == [] {
    } else {
      ReceiptsPerCapture(actions[..|actions| - 1], o);
      ActCovered(Acts(START, actions[..|actions| - 1]), actions[|actions| - 1], o);
    }
  }

  /** So where no payment.failed finds the order succeeded, at most one receipt is ever queued for it. */
  lemma AtMostOneReceipt(actions: seq<Action>, s: System, o: nat)
    requires s == Acts(START, actions) && QuietActs(actions, o)
    ensures Count(s.receipts, ReceiptsFor(o)) <= 1
  {
    ReceiptsPerCapture(actions, o);
    var steps := TablesFollowARun(actions);
    AtMostOneEntitlement(steps, s.t, o);
    InvHolds(steps);
    CapturesMatch(s.t, o);
  }

  /** An order has no more captured rows than entitlements. */
  lemma CapturesMatch(t: Tables, o: nat)
    requires Inv(t)
    ensures Count(t.ledger, CaptureRows(o)) <= Count(t.entitlements, GrantedForOrder(o))
  {
    if o < |t.orders| {
      assert OrderMatched(t, o);
    } else {
      CountNone(t.ledger, CaptureRows(o));
    }
  }

  // ----- The gate -----

  /** Action `i` commits the transaction of an event with this payload. */
  ghost predicate CommitsAt(actions: seq<Action>, i: nat, payload: Payload) {
    i < |actions| && CommitsEvent(Acts(START, actions[..i]), actions[i], payload)
  }

  predicate CommitsEvent(s: System, a: Action, payload: Payload) {
    && a.Transact? && a.j < |s.jobs| && s.jobs[a.j].phase.LookedUp? && s.jobs[a.j].payload == payload
    && Handle(s.t, payload.ev, a.plan, a.now).Committed?
  }

  ghost predicate WasCommitted(actions: seq<Action>, payload: Payload) {
    exists i :: CommitsAt(actions, i, payload)
  }

  /** Jobs that are past their transaction, and rows marked processed, are of payloads in `done`. */
  ghost predicate Gated(s: System, done: set<Payload>) {
    && (forall e | 0 <= e < |s.events| :: s.events[e].processed ==> s.events[e].payload in done)
    && (forall j | 0 <= j < |s.jobs| :: JobGated(s, s.jobs[j], done))
  }

  ghost predicate JobGated(s: System, job: Job, done: set<Payload>) {
    && (job.phase.Committing? || job.phase.Done? ==> job.payload in done)
    && ((job.phase.LookedUp? || job.phase.Committing?) && job.phase.row.Some? ==>
          job.phase.row.value < |s.events| && s.events[job.phase.row.value].payload == job.payload)
  }

  function Newly(s: System, a: Action): set<Payload> {
    if a.Transact? && a.j < |s.jobs| && CommitsEvent(s, a, s.jobs[a.j].payload) then {s.jobs[a.j].payload} else {}
  }

  lemma EventsStay(s: System, a: Action)
    ensures |s.events| <= |Act(s, a).events|
    ensures forall e | 0 <= e < |s.events| :: Act(s, a).events[e].payload == s.events[e].payload
  {
  }

  lemma StillGated(s: System, s': System, job: Job, done: set<Payload>, more: set<Payload>)
    requires JobGated(s, job, done) && done <= more && |s.events| <= |s'.events|
    requires forall e | 0 <= e < |s.events| :: s'.events[e].payload == s.events[e].payload
    ensures JobGated(s', job, more)
  {
  }

  lemma JobGateKept(s: System, a: Action, done: set<Payload>, j: nat)
    requires Gated(s, done) && j < |Act(s, a).jobs|
    ensures JobGated(Act(s, a), Act(s, a).jobs[j], done + Newly(s, a))
  {
    EventsStay(s, a);
    if j < |s.jobs| {
      StillGated(s, Act(s, a), s.jobs[j], done, done + Newly(s, a));
    }
  }

  lemma GateKept(s: System, a: Action, done: set<Payload>)
    requires Gated(s, done)
    ensures Gated(Act(s, a), done + Newly(s, a))
  {
    forall j | 0 <= j < |Act(s, a).jobs| ensures JobGated(Act(s, a), Act(s, a).jobs[j], done + Newly(s, a)) {
      JobGateKept(s, a, done, j);
    }
    if a.Mark? && a.j < |s.jobs| {
      assert JobGated(s, s.jobs[a.j], done);
    }
  }

  lemma CommittedMore(init: seq<Action>, a: Action, s: System, payload: Payload, done: set<Payload>)
    requires s == Acts(START, init) && (payload in done <==> WasCommitted(init, payload))
    ensures WasCommitted(init + [a], payload) <==> payload in done + Newly(s, a)
  {
    var actions := init + [a];
    assert actions[..|init|] == init;
    forall i | 0 <= i < |init| ensures CommitsAt(actions, i, payload) == CommitsAt(init, i, payload) {
      assert actions[..i] == init[..i];
    }
    if i: nat :| CommitsAt(init, i, payload) {
      assert CommitsAt(actions, i, payload);
    }
    if payload in Newly(s, a) {
      assert CommitsAt(actions, |init|, payload);
    }
  }

  /** The payloads whose transactions have committed. */
  function Committals(actions: seq<Action>): set<Payload> {
    if actions == [] then {}
    else
      var init := actions[..|actions| - 1];
      Committals(init) + Newly(Acts(START, init), actions[|actions| - 1])
  }

  lemma CommittalsMore(init: seq<Action>, a: Action)
    ensures Committals(init + [a]) == Committals(init) + Newly(Acts(START, init), a)
  {
    assert (init + [a])[..|init|] == init;
  }

  lemma CommittalsStep(actions: seq<Action>, init: seq<Action>, a: Action, payload: Payload)
    requires actions == init + [a] && (payload in Committals(init) <==> WasCommitted(init, payload))
    ensures payload in Committals(actions) <==> WasCommitted(actions, payload)
  {
    CommittedMore(init, a, Acts(START, init), payload, Committals(init));
    CommittalsMore(init, a);
  }

  lemma {:induction false} CommittalsAre(actions: seq<Action>, payload: Payload)
    ensures payload in Committals(actions) <==> WasCommitted(actions, payload)
  {
    if actions == [] {
      NoneCommitted(payload);
    } else {
      var init := actions[..|actions| - 1];
      CommittalsAre(init, payload);
      LastSplits(actions);
      CommittalsStep(actions, init, actions[|actions| - 1], payload);
    }
  }

  lemma LastSplits(actions: seq<Action>)
    requires actions != []
    ensures actions == actions[..|actions| - 1] + [actions[|actions| - 1]]
  {
  }

  lemma NoneCommitted(payload: Payload)
    ensures !WasCommitted([], payload)
  {
  }

  lemma {:induction false} GateHolds(actions: seq<Action>)
    ensures Gated(Acts(START, actions), Committals(actions))
  {
    if actions == [] {
    } else {
      var init := actions[..|actions| - 1];
      GateHolds(init);
      GateKept(Acts(START, init), actions[|actions| - 1], Committals(init));
    }
  }

  /**
   * In every interleaving a row is marked processed, and a job ends, only after
   * the transaction of an event with that payload committed: no event is skipped.
   */
  lemma NothingIsSkipped(actions: seq<Action>, s: System)
    requires s == Acts(START, actions)
    ensures forall e | 0 <= e < |s.events| && s.events[e].processed :: WasCommitted(actions, s.events[e].payload)
    ensures forall j | 0 <= j < |s.jobs| && s.jobs[j].phase.Done? :: WasCommitted(actions, s.jobs[j].payload)
  {
    GateHolds(actions);
    forall e | 0 <= e < |s.events| && s.events[e].processed ensures WasCommitted(actions, s.events[e].payload) {
      CommittalsAre(actions, s.events[e].payload);
    }
    forall j | 0 <= j < |s.jobs| && s.jobs[j].phase.Done? ensures WasCommitted(actions, s.jobs[j].payload) {
      assert JobGated(s, s.jobs[j], Committals(actions));
      CommittalsAre(actions, s.jobs[j].payload);
    }
  }

  // ----- A delivery without mishap -----

  /** The event's row is recorded, and the job ends with the tables, the receipt and the row's mark it should. */
  ghost predicate Delivered(s: System, s': System, id: string, payload: Payload, r: Outcome, queued: bool) {
    && r.Committed? && s'.t == r.tables
    && s'.events == s.events + [WebhookEvent(id, payload, true)]
    && s'.jobs == s.jobs + [Job(payload, Done)]
    && s'.receipts == s.receipts + if r.receipt.Some? && queued then [r.receipt.value] else []
  }

  /** The row is recorded, the job waits to be tried again, and nothing else has changed. */
  ghost predicate Waiting(s: System, s': System, id: string, payload: Payload) {
    && s'.t == s.t && s'.receipts == s.receipts
    && s'.events == s.events + [WebhookEvent(id, payload, false)]
    && s'.jobs == s.jobs + [Job(payload, Queued)]
  }

  function UpToTransaction(s: System, id: string, payload: Payload, plan: Plan, now: int): System {
    Act(Act(Act(s, Deliver(id, payload, true)), LookUp(|s.jobs|)), Transact(|s.jobs|, plan, now))
  }

  /** An event with a new id, delivered and handled without a stop, is handled once, answered and marked; or it waits. */
  lemma NewEventIsHandled(s: System, id: string, payload: Payload, plan: Plan, now: int, queued: bool)
    requires forall e | 0 <= e < |s.events| :: s.events[e].id != id
    ensures
      var j, r, ran := |s.jobs|, Handle(s.t, payload.ev, plan, now), UpToTransaction(s, id, payload, plan, now);
      if r.Rejected? then Waiting(s, ran, id, payload)
      else
        var sent := if r.receipt.Some? then Act(ran, SendReceipt(j, queued)) else ran;
        Delivered(s, Act(sent, Mark(j)), id, payload, r, queued)
  {
    var row := WebhookEvent(id, payload, false);
    LatestAppend(s.events, row, WithPayload(payload));
    var j := |s.jobs|;
    var looked := Act(Act(s, Deliver(id, payload, true)), LookUp(j));
    assert looked.jobs == s.jobs + [Job(payload, LookedUp(Some(|s.events|)))] && looked.events == s.events + [row];
    assert (s.events + [row])[|s.events| := row.(processed := true)] == s.events + [WebhookEvent(id, payload, true)];
  }

  /** An event whose id is known is not queued again; one that could not be queued is recorded all the same. */
  lemma DeliveryRecords(s: System, id: string, payload: Payload, enqueued: bool)
    ensures
      var s' := Act(s, Deliver(id, payload, enqueued));
      if exists e :: 0 <= e < |s.events| && s.events[e].id == id then s' == s
      else s' == s.(events := s.events + [WebhookEvent(id, payload, false)],
                    jobs := if enqueued then s.jobs + [Job(payload, Queued)] else s.jobs)
  {
  }

  // ----- The crash window -----

  /** The job stops and is run again from the start, up to the end of its transaction. */
  function RunAgain(s: System, j: nat, plan: Plan, now: int): System {
    Act(Act(Act(s, StartOver(j)), LookUp(j)), Transact(j, plan, now))
  }

  /** The job stops after its transaction, with or without its receipt handed over (and, if handed over, queued or not). */
  function Crashed(committed: System, j: nat, sent: Option<bool>): System {
    if sent.None? then committed else Act(committed, SendReceipt(j, sent.value))
  }

  lemma CrashedKeeps(committed: System, j: nat, sent: Option<bool>)
    requires j < |committed.jobs|
    ensures
      var crashed := Crashed(committed, j, sent);
      && crashed.t == committed.t && crashed.events == committed.events && |crashed.jobs| == |committed.jobs|
      && crashed.jobs[j].payload == committed.jobs[j].payload
  {
  }

  /**
   * The worker stops right after its transaction committed, and the job is run
   * again from the start: the tables and the events stay as they are and no
   * receipt is owed, whether or not the receipt of the first try was sent, and
   * whatever row the lookup finds then.
   */
  lemma CrashWindowHarmless(s: System, j: nat, plan: Plan, now: int, committed: System, sent: Option<bool>, later: int)
    requires j < |s.jobs| && s.jobs[j].phase.LookedUp?
    requires Handle(s.t, s.jobs[j].payload.ev, plan, now).Committed? && committed == Act(s, Transact(j, plan, now))
    ensures |committed.jobs| == |s.jobs|
    ensures
      var crashed := Crashed(committed, j, sent);
      var again := RunAgain(crashed, j, plan, later);
      && again.t == committed.t
      && again.receipts == crashed.receipts
      && again.events == s.events
      && |again.jobs| == |s.jobs|
      && (again.jobs[j].phase.Done? || (again.jobs[j].phase.Committing? && again.jobs[j].phase.owed.None?))
  {
    RedeliveryHarmless(s.t, s.jobs[j].payload.ev, plan, now, later);
    CrashedKeeps(committed, j, sent);
    AgainHarmless(Crashed(committed, j, sent), j, plan, later);
  }

  lemma AgainHarmless(s: System, j: nat, plan: Plan, now: int)
    requires j < |s.jobs| && Handle(s.t, s.jobs[j].payload.ev, plan, now) == Committed(s.t, None)
    ensures
      var again := RunAgain(s, j, plan, now);
      && again.t == s.t && again.receipts == s.receipts && again.events == s.events && |again.jobs| == |s.jobs|
      && (again.jobs[j].phase.Done? || (again.jobs[j].phase.Committing? && again.jobs[j].phase.owed.None?))
  {
  }

  /** Once the latest row with its payload is marked, a job ends at the gate. */
  lemma GateStopsProcessed(s: System, j: nat, row: nat, plan: Plan, now: int)
    requires j < |s.jobs| && Latest(s.events, WithPayload(s.jobs[j].payload)) == Some(row) && s.events[row].processed
    ensures var again := Act(Act(Act(s, StartOver(j)), LookUp(j)), Transact(j, plan, now));
      again == Phased(s, j, Done)
  {
  }

  // ----- The consumer -----

  /** The worker's entry point for queued events, run without interruption. */
  class Consumer {
    const worker: Worker
    var events: seq<WebhookEvent>

    constructor (worker: Worker)
      ensures this.worker == worker && events == []
    {
      this.worker := worker;
      events := [];
    }

    method Record(id: string, payload: Payload) returns (isNew: bool)
      modifies this
      ensures (events, isNew) == TryRecord(old(events), id, payload)
    {
      isNew := First(events, WithId(id)).None?;
      if isNew {
        events := events + [WebhookEvent(id, payload, false)];
      }
    }

    /** Skips what is already processed; otherwise handles it and, unless that failed, marks it. */
    method Consume(payload: Payload, plan: Plan, now: int) returns (failed: bool)
      modifies this, worker
      ensures var row := Latest(old(events), WithPayload(payload));
        if row.Some? && old(events)[row.value].processed then
          !failed && events == old(events) && worker.db == old(worker.db) && worker.receipts == old(worker.receipts)
        else
          && worker.Did(Handle(old(worker.db), payload.ev, plan, now), failed)
          && events == if failed || row.None? then old(events)
                       else old(events)[row.value := old(events)[row.value].(processed := true)]
    {
      var row := Latest(events, WithPayload(payload));
      if row.Some? && events[row.value].processed {
        return false;
      }
      failed := worker.HandleEvent(payload.ev, plan, now);
      if failed {
        return;
      }
      if row.Some? {
        events := events[row.value := events[row.value].(processed := true)];
      }
    }
  }
}
