/**
 The whole system as one transition system: webhooks, dispatchers and workers
 interleave freely over the shared tables and the message queue; workers crash,
 messages are delivered again, and the model may answer anything.
 */
module Protocol {
  import opened Domain
  import opened Policy
  import opened Tables

  type Positive = n: nat | n >= 1 witness 1

  datatype Config = Config(batchSize: Positive, maxAttempts: Positive)

  const MAX_RETRIES: nat := 5

  /** A queued request to process an outbox row, with the retries it has used. */
  datatype Msg = Msg(row: nat, retries: nat)

  /** How far a worker has come with a message. */
  datatype Phase =
    | Started
    | CaseSeen(c: nat, seen: CaseRow)
    | ClaimSeen(a: nat, read: ClaimRead)
    | Holding(a: nat, c: nat)
    | CalledProvider(a: nat, c: nat, ok: bool)
    | FinalSeen(a: nat, c: nat, ok: bool, seen: CaseRow)
    | Done

  datatype Task = Task(msg: Msg, phase: Phase)

  /** A dispatcher's open transaction: the rows it has locked and the publish results so far. */
  datatype Batch = Batch(sel: seq<nat>, results: seq<bool>)

  /**
   The tables, the clock, the queue, the running tasks and open batches; and
   as logs the actions handed to the provider, the rows ever enqueued, how
   often each row was committed as published, and the rows given up on.
   */
  datatype Sys = Sys(
    cfg: Config,
    now: real,
    db: Db,
    queue: multiset<Msg>,
    tasks: map<nat, Task>,
    batches: map<nat, Batch>,
    calls: seq<nat>,
    sent: set<nat>,
    publications: multiset<nat>,
    givenUp: set<nat>)

  function Init(cfg: Config): Sys {
    Sys(cfg, 0.0, EMPTY_DB, multiset{}, map[], map[], [], {}, multiset{}, {})
  }

  datatype Step =
    | Receive(w: Webhook)
    | Tick(hours: real)
    | BatchBegin(d: nat, sel: seq<nat>)
    | BatchPublish(d: nat, published: bool, enqueued: bool)
    | BatchCommit(d: nat)
    | BatchAbort(d: nat)
    | Deliver(t: nat, msg: Msg)
    | Redeliver(t: nat)
    | Crash(t: nat)
    | RetryTask(t: nat)
    | FailTask(t: nat)
    | Acknowledge(t: nat)
    | ReadEvent(t: nat, limits: Limits)
    | DecideCase(t: nat, limits: Limits, reply: ModelReply)
    | ClaimAction(t: nat)
    | CallProvider(t: nat, ok: bool)
    | ReadFinal(t: nat)
    | Finalise(t: nat)

  /** The rows that open dispatcher transactions have locked. */
  ghost function Locked(batches: map<nat, Batch>): set<nat> {
    set d, r | d in batches && r in batches[d].sel :: r
  }

  /** The phase in which a worker takes the step. */
  predicate ReadyFor(p: Phase, step: Step) {
    match step
    case ReadEvent(_, _) => p.Started?
    case DecideCase(_, _, _) => p.CaseSeen?
    case ClaimAction(_) => p.ClaimSeen?
    case CallProvider(_, _) => p.Holding?
    case ReadFinal(_) => p.CalledProvider?
    case Finalise(_) => p.FinalSeen?
    case _ => false
  }

  ghost predicate Enabled(s: Sys, step: Step) {
    match step
    case Receive(_) => true
    case Tick(h) => h >= 0.0
    case BatchBegin(d, sel) =>
      d !in s.batches && IsBatch(s.db.outbox, Locked(s.batches), s.now, s.cfg.batchSize, sel)
    case BatchPublish(d, published, enqueued) =>
      d in s.batches && |s.batches[d].results| < |s.batches[d].sel| && (published ==> enqueued)
    case BatchCommit(d) => d in s.batches && |s.batches[d].results| == |s.batches[d].sel|
    case BatchAbort(d) => d in s.batches
    case Deliver(t, msg) => t !in s.tasks && msg in s.queue
    case Redeliver(t) => t in s.tasks
    case Crash(t) => t in s.tasks
    case RetryTask(t) => t in s.tasks && !s.tasks[t].phase.Done?
    case FailTask(t) => t in s.tasks
    case Acknowledge(t) => t in s.tasks && s.tasks[t].phase.Done?
    case _ => step.t in s.tasks && ReadyFor(s.tasks[step.t].phase, step)
  }

  /** How often each row is published by a batch. */
  function Hits(sel: seq<nat>, results: seq<bool>): multiset<nat>
    requires |results| <= |sel|
  {
    if |results| == 0 then multiset{}
    else
      var n := |results| - 1;
      Hits(sel, results[..n]) + (if results[n] then multiset{sel[n]} else multiset{})
  }

  /** The worker loads its outbox row and reads what the row is about. */
  function AfterRead(db: Db, row: nat, limits: Limits): Phase {
    if row >= |db.outbox| then Done
    else
      match db.outbox[row].event
      case EligibleEvent(c) =>
        if c < |db.cases| && db.cases[c].status == Eligible then CaseSeen(c, db.cases[c]) else Done
      case ScheduledEvent(_, a) =>
        if a < |db.actions| && db.actions[a].caseId < |db.cases| then ClaimSeen(a, ReadForClaim(db, a, limits)) else Done
      case RecoveredEvent(_) => Done
  }

  predicate IsWorkerStep(step: Step) {
    || step.ReadEvent? || step.DecideCase? || step.ClaimAction?
    || step.CallProvider? || step.ReadFinal? || step.Finalise?
  }

  /** What a worker's step does to the tables, and the phase it brings the worker to. */
  function Work(db: Db, now: real, task: Task, step: Step): (Db, Phase)
    requires ReadyFor(task.phase, step)
  {
    var p := task.phase;
    match step
    case ReadEvent(_, limits) => (db, AfterRead(db, task.msg.row, limits))
    case DecideCase(_, limits, reply) => (DecideTx(db, p.c, p.seen, limits, reply, now).db, Done)
    case ClaimAction(_) =>
      if p.a >= |db.actions| then (db, Done)
      else
        var r := ClaimTx(db, p.a, p.read);
        (r.db, if r.outcome == Claimed then Holding(p.a, p.read.action.caseId) else Done)
    case CallProvider(_, ok) => (db, CalledProvider(p.a, p.c, ok))
    case ReadFinal(_) =>
      (db, if p.c < |db.cases| then FinalSeen(p.a, p.c, p.ok, db.cases[p.c]) else Done)
    case Finalise(_) =>
      if p.ok then (SuccessTx(db, p.a, p.c, p.seen), Done)
      else (FailureTx(db, p.a, p.c), Done)
  }

  /** The provider calls after the step. */
  function Logged(calls: seq<nat>, p: Phase, step: Step): seq<nat>
    requires ReadyFor(p, step)
  {
    if step.CallProvider? then calls + [p.a] else calls
  }

  ghost function Apply(s: Sys, step: Step): Sys
    requires Enabled(s, step)
  {
    match step
    case Receive(w) => s.(db := WebhookTx(s.db, w, s.now).db)
    case Tick(h) => s.(now := s.now + h)
    case BatchBegin(d, sel) => s.(batches := s.batches[d := Batch(sel, [])])
    case BatchPublish(d, published, enqueued) =>
      var b := s.batches[d];
      var row := b.sel[|b.results|];
      var t := s.(batches := s.batches[d := b.(results := b.results + [published])]);
      if enqueued then t.(queue := s.queue + multiset{Msg(row, 0)}, sent := s.sent + {row}) else t
    case BatchCommit(d) =>
      var b := s.batches[d];
      if forall i | 0 <= i < |b.sel| :: b.sel[i] < |s.db.outbox| then
        s.(db := s.db.(outbox := AttemptAll(s.db.outbox, b.sel, b.results, s.cfg.maxAttempts)),
           publications := s.publications + Hits(b.sel, b.results),
           batches := s.batches - {d})
      else s
    case BatchAbort(d) => s.(batches := s.batches - {d})
    case Deliver(t, msg) =>
      s.(queue := s.queue - multiset{msg}, tasks := s.tasks[t := Task(msg, Started)])
    case Redeliver(t) => s.(queue := s.queue + multiset{s.tasks[t].msg})
    case Crash(t) => s.(queue := s.queue + multiset{s.tasks[t].msg}, tasks := s.tasks - {t})
    case RetryTask(t) =>
      var m := s.tasks[t].msg;
      if m.retries < MAX_RETRIES
      then s.(queue := s.queue + multiset{Msg(m.row, m.retries + 1)}, tasks := s.tasks - {t})
      else s.(givenUp := s.givenUp + {m.row}, tasks := s.tasks - {t})
    case FailTask(t) => s.(givenUp := s.givenUp + {s.tasks[t].msg.row}, tasks := s.tasks - {t})
    case Acknowledge(t) => s.(tasks := s.tasks - {t})
    case _ =>
      var task := s.tasks[step.t];
      var (db', phase) := Work(s.db, s.now, task, step);
      s.(db := db',
         calls := Logged(s.calls, task.phase, step),
         tasks := s.tasks[step.t := task.(phase := phase)])
  }

  /** The steps can be taken one after the other from `s`. */
  ghost predicate ValidRun(s: Sys, steps: seq<Step>)
    decreases |steps|
  {
    |steps| > 0 ==> Enabled(s, steps[0]) && ValidRun(Apply(s, steps[0]), steps[1..])
  }

  ghost function Run(s: Sys, steps: seq<Step>): Sys
    requires ValidRun(s, steps)
    decreases |steps|
  {
    if |steps| == 0 then s else Run(Apply(s, steps[0]), steps[1..])
  }
}
