/**
 The invariant of the whole system and the proof that every step keeps it.
 */
module Safety {
  import opened Domain
  import opened Policy
  import opened Tables
  import opened Invariants
  import opened Protocol

  // --------------------------------------------------------------- invariant

  /** The work an outbox row announces is over: its case has left ELIGIBLE, its action APPROVED. */
  ghost predicate Settled(db: Db, r: nat) {
    r < |db.outbox| &&
    match db.outbox[r].event
    case EligibleEvent(c) => c < |db.cases| && db.cases[c].status != Eligible
    case ScheduledEvent(_, a) => a < |db.actions| && db.actions[a].status != Approved
    case RecoveredEvent(_) => true
  }

  ghost predicate MsgOk(db: Db, now: real, m: Msg) {
    m.row < |db.outbox| && m.retries <= MAX_RETRIES && Due(db.outbox[m.row], now)
  }

  /** The action that a worker has claimed and not let go. */
  function Held(p: Phase): Option<nat> {
    match p
    case Holding(a, _) => Some(a)
    case CalledProvider(a, _, _) => Some(a)
    case FinalSeen(a, _, _, _) => Some(a)
    case _ => None
  }

  ghost predicate HoldsAction(db: Db, r: nat, a: nat, c: nat)
    requires r < |db.outbox|
  {
    && a < |db.actions| && c < |db.cases|
    && db.outbox[r].event == ScheduledEvent(c, a)
    && db.actions[a].caseId == c
    && db.actions[a].status == Executing
  }

  ghost predicate TaskOk(db: Db, now: real, calls: seq<nat>, task: Task) {
    var r := task.msg.row;
    && MsgOk(db, now, task.msg)
    && match task.phase
       case Started => true
       case CaseSeen(c, seen) =>
         && db.outbox[r].event == EligibleEvent(c)
         && c < |db.cases| && SameCase(seen, db.cases[c])
         && seen.status == Eligible && seen.version == 2
       case ClaimSeen(a, read) =>
         && a < |db.actions| && db.actions[a].caseId < |db.cases|
         && db.outbox[r].event == ScheduledEvent(db.actions[a].caseId, a)
         && ClaimReadOk(db, a, read)
       case Holding(a, c) => HoldsAction(db, r, a, c) && a !in calls
       case CalledProvider(a, c, _) => HoldsAction(db, r, a, c)
       case FinalSeen(a, c, _, seen) => HoldsAction(db, r, a, c) && FinalReadOk(db, c, seen)
       case Done => Settled(db, r)
  }

  ghost predicate TasksInv(s: Sys) {
    forall t | t in s.tasks :: TaskOk(s.db, s.now, s.calls, s.tasks[t])
  }

  ghost predicate QueueInv(s: Sys) {
    forall m | m in s.queue :: MsgOk(s.db, s.now, m)
  }

  /** No two workers hold the same action. */
  ghost predicate ExclusiveInv(s: Sys) {
    forall t, u | t in s.tasks && u in s.tasks && t != u && Held(s.tasks[t].phase).Some? ::
      Held(s.tasks[t].phase) != Held(s.tasks[u].phase)
  }

  ghost predicate CalledOk(db: Db, a: nat) {
    a < |db.actions| && Executable(db.actions[a].kind) && db.actions[a].status in {Executing, Executed, FailedAction}
  }

  /** No action is handed to the provider twice, and only claimed actions are. */
  ghost predicate CallsInv(s: Sys) {
    && (forall i, j | 0 <= i < j < |s.calls| :: s.calls[i] != s.calls[j])
    && (forall i | 0 <= i < |s.calls| :: CalledOk(s.db, s.calls[i]))
  }

  ghost predicate RowStateOk(s: Sys, r: nat)
    requires r < |s.db.outbox|
  {
    var row := s.db.outbox[r];
    && row.createdAt <= s.now
    && (row.status == PendingRow ==> row.attempts < s.cfg.maxAttempts)
    && (row.status == FailedRow ==> row.attempts == s.cfg.maxAttempts)
    && (row.status == Published ==> 1 <= row.attempts <= s.cfg.maxAttempts && r in s.sent)
    && s.publications[r] == (if row.status == Published then 1 else 0)
  }

  ghost predicate RowsInv(s: Sys) {
    && (forall r: nat | r < |s.db.outbox| :: RowStateOk(s, r))
    && (forall r | r in s.publications :: r < |s.db.outbox|)
  }

  ghost predicate BatchOk(s: Sys, b: Batch) {
    && |b.results| <= |b.sel| <= s.cfg.batchSize
    && Distinct(b.sel)
    && (forall i | 0 <= i < |b.sel| ::
          b.sel[i] < |s.db.outbox| && s.db.outbox[b.sel[i]].status == PendingRow && Due(s.db.outbox[b.sel[i]], s.now))
    && (forall i | 0 <= i < |b.results| :: b.results[i] ==> b.sel[i] in s.sent)
  }

  /** Open batches lock disjoint sets of pending rows. */
  ghost predicate BatchesInv(s: Sys) {
    && (forall d | d in s.batches :: BatchOk(s, s.batches[d]))
    && (forall d, e | d in s.batches && e in s.batches && d != e ::
          forall r | r in s.batches[d].sel :: r !in s.batches[e].sel)
  }

  ghost predicate Queued(s: Sys, r: nat) {
    exists m :: m in s.queue && m.row == r
  }

  ghost predicate InFlight(s: Sys, r: nat) {
    exists t :: t in s.tasks && s.tasks[t].msg.row == r && !s.tasks[t].phase.Done?
  }

  /** A row that was enqueued has settled, or its message is still somewhere, or giving up is on record. */
  ghost predicate Reached(s: Sys, r: nat) {
    Settled(s.db, r) || r in s.givenUp || Queued(s, r) || InFlight(s, r)
  }

  ghost predicate SentInv(s: Sys) {
    forall r | r in s.sent :: Reached(s, r)
  }

  ghost predicate Inv(s: Sys) {
    && DbInv(s.db)
    && TasksInv(s) && QueueInv(s) && ExclusiveInv(s) && CallsInv(s)
    && RowsInv(s) && BatchesInv(s) && SentInv(s)
  }

  // ------------------------------------------------------------------ frames

  /** The tables move on, and an action under execution stays so unless it is `x`. */
  ghost predicate Evolves(db: Db, db': Db, x: Option<nat>) {
    && DbInv(db) && DbInv(db') && DbStep(db, db')
    && (forall a | 0 <= a < |db.actions| && db.actions[a].status == Executing && x != Some(a) ::
          db'.actions[a].status == Executing)
  }

  lemma SettledStays(db: Db, db': Db, r: nat)
    requires DbInv(db) && DbInv(db') && DbStep(db, db') && Settled(db, r)
    ensures Settled(db', r)
  {
    assert RowOk(db, r) && OutboxStep(db.outbox[r], db'.outbox[r]);
    var c := db.outbox[r].event.caseId;
    assert CaseOk(db, c) && CaseOk(db', c) && CaseStep(db.cases[c], db'.cases[c]);
    if db.outbox[r].event.ScheduledEvent? {
      var a := db.outbox[r].event.actionId;
      assert ActionOk(db, a) && ActionStep(db.actions[a], db'.actions[a]);
    }
  }

  /** A case that is scheduled now was scheduled whenever its action existed before. */
  lemma ReadingsStay(db: Db, db': Db, a: nat)
    requires DbInv(db) && DbInv(db') && DbStep(db, db')
    requires a < |db.actions| && db.actions[a].caseId < |db.cases|
    ensures ActionStep(db.actions[a], db'.actions[a])
    ensures CaseStep(db.cases[db.actions[a].caseId], db'.cases[db.actions[a].caseId])
    ensures db'.cases[db.actions[a].caseId].status == ActionScheduled ==>
              db.cases[db.actions[a].caseId].status == ActionScheduled
  {
    var c := db.actions[a].caseId;
    assert ActionStep(db.actions[a], db'.actions[a]) && CaseStep(db.cases[c], db'.cases[c]);
    assert ActionOk(db, a) && CaseOk(db, c) && CaseOk(db', c);
  }

  /** A worker's readings survive whatever the others commit. */
  lemma TaskStays(db: Db, db': Db, now: real, now': real, calls: seq<nat>, task: Task, x: Option<nat>)
    requires Evolves(db, db', x) && now <= now'
    requires TaskOk(db, now, calls, task)
    requires x.None? || Held(task.phase) != x
    ensures TaskOk(db', now', calls, task)
  {
    var r := task.msg.row;
    assert OutboxStep(db.outbox[r], db'.outbox[r]);
    match task.phase {
      case CaseSeen(c, seen) =>
        assert CaseStep(db.cases[c], db'.cases[c]);
      case ClaimSeen(a, read) =>
        ReadingsStay(db, db', a);
      case Holding(a, c) =>
        ReadingsStay(db, db', a);
      case CalledProvider(a, c, _) =>
        ReadingsStay(db, db', a);
      case FinalSeen(a, c, _, seen) =>
        ReadingsStay(db, db', a);
      case Done => SettledStays(db, db', r);
      case Started =>
    }
  }

  /** Transactions other than the dispatcher's only append pending outbox rows. */
  ghost predicate OutboxAppends(outbox: seq<OutboxRow>, outbox': seq<OutboxRow>, now: real) {
    && outbox <= outbox'
    && (forall r | |outbox| <= r < |outbox'| ::
          outbox'[r].status == PendingRow && outbox'[r].attempts == 0 && outbox'[r].createdAt == now)
  }

  lemma RowsStay(s: Sys, s': Sys)
    requires RowsInv(s) && s'.cfg == s.cfg && s.now <= s'.now
    requires s.sent <= s'.sent && s'.publications == s.publications
    requires OutboxAppends(s.db.outbox, s'.db.outbox, s'.now)
    ensures RowsInv(s')
  {
    forall r: nat | r < |s'.db.outbox| ensures RowStateOk(s', r) {
      if r < |s.db.outbox| {
        assert RowStateOk(s, r);
      } else {
        assert r !in s.publications;
      }
    }
  }

  lemma BatchesStay(s: Sys, s': Sys)
    requires BatchesInv(s) && s'.cfg == s.cfg && s.now <= s'.now
    requires s.sent <= s'.sent && s'.batches == s.batches
    requires s.db.outbox <= s'.db.outbox
    ensures BatchesInv(s')
  {
  }

  lemma QueueStays(s: Sys, s': Sys)
    requires QueueInv(s) && s.now <= s'.now && DbStep(s.db, s'.db)
    requires forall m | m in s'.queue :: m in s.queue || MsgOk(s'.db, s'.now, m)
    ensures QueueInv(s')
  {
  }

  lemma CallsStay(s: Sys, s': Sys)
    requires CallsInv(s) && s'.calls == s.calls && DbStep(s.db, s'.db)
    ensures CallsInv(s')
  {
  }

  /** Nothing enqueued is lost sight of if every message and unfinished task stays in sight. */
  lemma SentStays(s: Sys, s': Sys)
    requires SentInv(s) && DbInv(s.db) && DbInv(s'.db) && DbStep(s.db, s'.db)
    requires s.givenUp <= s'.givenUp
    requires forall m | m in s.queue :: Reached(s', m.row)
    requires forall t | t in s.tasks && !s.tasks[t].phase.Done? :: Reached(s', s.tasks[t].msg.row)
    requires forall r | r in s'.sent && r !in s.sent :: Reached(s', r)
    ensures SentInv(s')
  {
    forall r | r in s'.sent ensures Reached(s', r) {
      if r in s.sent {
        assert Reached(s, r);
        if Settled(s.db, r) {
          SettledStays(s.db, s'.db, r);
        }
      }
    }
  }

  /** Messages stay queued and tasks in flight, except task `t` if `moved`, which is in flight or settled. */
  lemma SeenStaySeen(s: Sys, s': Sys, t: nat, moved: bool)
    requires s.queue <= s'.queue
    requires forall u | u in s.tasks && (moved ==> u != t) :: u in s'.tasks && s'.tasks[u] == s.tasks[u]
    requires moved ==> t in s.tasks && t in s'.tasks && s'.tasks[t].msg == s.tasks[t].msg
    requires moved ==> s'.tasks[t].phase.Done? ==> Settled(s'.db, s.tasks[t].msg.row)
    ensures forall m | m in s.queue :: Reached(s', m.row)
    ensures forall u | u in s.tasks && !s.tasks[u].phase.Done? :: Reached(s', s.tasks[u].msg.row)
  {
  }

  /** Tasks, queue, calls, rows and batches over a change of the tables or of the clock alone. */
  lemma TablesMove(s: Sys, s': Sys)
    requires Inv(s)
    requires s' == s.(db := s'.db, now := s'.now) && s.now <= s'.now
    requires Evolves(s.db, s'.db, None) && OutboxAppends(s.db.outbox, s'.db.outbox, s'.now)
    ensures Inv(s')
  {
    forall t | t in s'.tasks ensures TaskOk(s'.db, s'.now, s'.calls, s'.tasks[t]) {
      TaskStays(s.db, s'.db, s.now, s'.now, s.calls, s.tasks[t], None);
    }
    QueueStays(s, s');
    CallsStay(s, s');
    RowsStay(s, s');
    BatchesStay(s, s');
    SeenStaySeen(s, s', 0, false);
    SentStays(s, s');
  }

  // ------------------------------------------------------------ worker steps

  ghost predicate CallsGrounded(db: Db, calls: seq<nat>) {
    forall i | 0 <= i < |calls| :: CalledOk(db, calls[i])
  }

  /** What one worker step guarantees, whatever the other workers are doing. */
  ghost predicate WorkOk(db: Db, now: real, calls: seq<nat>, task: Task, step: Step)
    requires ReadyFor(task.phase, step)
  {
    var (db', phase) := Work(db, now, task, step);
    && Evolves(db, db', Held(task.phase))
    && OutboxAppends(db.outbox, db'.outbox, now)
    && TaskOk(db', now, Logged(calls, task.phase, step), task.(phase := phase))
    && (Held(phase).Some? && Held(phase) != Held(task.phase) ==>
          Held(phase).value < |db.actions| && db.actions[Held(phase).value].status == Approved)
  }

  lemma EvolvesSame(db: Db, x: Option<nat>)
    requires DbInv(db)
    ensures Evolves(db, db, x)
  {
  }

  lemma DbStepSame(db: Db)
    ensures DbStep(db, db)
  {
  }

  lemma ReadEventWorks(db: Db, now: real, calls: seq<nat>, task: Task, step: Step)
    requires DbInv(db) && TaskOk(db, now, calls, task) && step.ReadEvent? && ReadyFor(task.phase, step)
    ensures WorkOk(db, now, calls, task, step)
  {
    var r := task.msg.row;
    assert RowOk(db, r);
    assert CaseOk(db, db.outbox[r].event.caseId);
    if db.outbox[r].event.ScheduledEvent? {
      assert ActionOk(db, db.outbox[r].event.actionId);
    }
    EvolvesSame(db, None);
  }

  lemma DecisionAppends(db: Db, c: nat, seen: CaseRow, limits: Limits, reply: ModelReply, now: real)
    ensures var db' := DecideTx(db, c, seen, limits, reply, now).db;
            db.actions <= db'.actions && OutboxAppends(db.outbox, db'.outbox, now)
  {
  }

  /** After the decision the case is no longer ELIGIBLE, whoever decided it. */
  lemma DecideWorks(db: Db, now: real, calls: seq<nat>, task: Task, step: Step)
    requires DbInv(db) && TaskOk(db, now, calls, task) && step.DecideCase? && ReadyFor(task.phase, step)
    ensures WorkOk(db, now, calls, task, step)
  {
    var p := task.phase;
    DecideKeeps(db, p.c, p.seen, step.limits, step.reply, now);
    DecisionAppends(db, p.c, p.seen, step.limits, step.reply, now);
    assert CaseOk(db, p.c);
  }

  lemma ClaimWorks(db: Db, now: real, calls: seq<nat>, task: Task, step: Step)
    requires DbInv(db) && TaskOk(db, now, calls, task) && step.ClaimAction? && ReadyFor(task.phase, step)
    requires CallsGrounded(db, calls)
    ensures WorkOk(db, now, calls, task, step)
  {
    var a, read := task.phase.a, task.phase.read;
    assert RowOk(db, task.msg.row);
    ClaimKeeps(db, a, read);
    forall i | 0 <= i < |calls| ensures db.actions[a].status == Approved ==> calls[i] != a {
      assert CalledOk(db, calls[i]);
    }
  }

  lemma CallWorks(db: Db, now: real, calls: seq<nat>, task: Task, step: Step)
    requires DbInv(db) && TaskOk(db, now, calls, task) && step.CallProvider? && ReadyFor(task.phase, step)
    ensures WorkOk(db, now, calls, task, step)
  {
  }

  lemma ReadFinalWorks(db: Db, now: real, calls: seq<nat>, task: Task, step: Step)
    requires DbInv(db) && TaskOk(db, now, calls, task) && step.ReadFinal? && ReadyFor(task.phase, step)
    ensures WorkOk(db, now, calls, task, step)
  {
    EvolvesSame(db, Held(task.phase));
    assert CaseOk(db, task.phase.c);
  }

  lemma FinaliseWorks(db: Db, now: real, calls: seq<nat>, task: Task, step: Step)
    requires DbInv(db) && TaskOk(db, now, calls, task) && step.Finalise? && ReadyFor(task.phase, step)
    ensures WorkOk(db, now, calls, task, step)
  {
    var p := task.phase;
    if p.ok {
      SuccessKeeps(db, p.a, p.seen);
    } else {
      FailureKeeps(db, p.a);
    }
  }

  lemma WorkIsOk(db: Db, now: real, calls: seq<nat>, task: Task, step: Step)
    requires DbInv(db) && TaskOk(db, now, calls, task) && CallsGrounded(db, calls) && ReadyFor(task.phase, step)
    ensures WorkOk(db, now, calls, task, step)
  {
    match step {
      case ReadEvent(_, _) => ReadEventWorks(db, now, calls, task, step);
      case DecideCase(_, _, _) => DecideWorks(db, now, calls, task, step);
      case ClaimAction(_) => ClaimWorks(db, now, calls, task, step);
      case CallProvider(_, _) => CallWorks(db, now, calls, task, step);
      case ReadFinal(_) => ReadFinalWorks(db, now, calls, task, step);
      case Finalise(_) => FinaliseWorks(db, now, calls, task, step);
    }
  }

  /** The other workers keep their readings and their holds. */
  lemma OthersUnaffected(s: Sys, s': Sys, t: nat, a: Option<nat>)
    requires TasksInv(s) && ExclusiveInv(s) && t in s.tasks
    requires Evolves(s.db, s'.db, Held(s.tasks[t].phase)) && s'.now == s.now
    requires a == Held(s.tasks[t].phase)
    requires s'.calls == s.calls || (a.Some? && s'.calls == s.calls + [a.value])
    requires t in s'.tasks && s'.tasks == s.tasks[t := s'.tasks[t]]
    requires TaskOk(s'.db, s'.now, s'.calls, s'.tasks[t])
    ensures TasksInv(s')
  {
    forall u | u in s'.tasks ensures TaskOk(s'.db, s'.now, s'.calls, s'.tasks[u]) {
      if u != t {
        assert a.Some? ==> a != Held(s.tasks[u].phase);
        TaskStays(s.db, s'.db, s.now, s.now, s.calls, s.tasks[u], a);
      }
    }
  }

  lemma HoldsStayExclusive(s: Sys, s': Sys, t: nat)
    requires TasksInv(s) && ExclusiveInv(s) && t in s.tasks && t in s'.tasks && s'.tasks == s.tasks[t := s'.tasks[t]]
    requires var h := Held(s'.tasks[t].phase);
             h.Some? && h != Held(s.tasks[t].phase) ==>
               h.value < |s.db.actions| && s.db.actions[h.value].status == Approved
    ensures ExclusiveInv(s')
  {
  }

  lemma CallsStayDistinct(s: Sys, s': Sys, t: nat)
    requires CallsInv(s) && DbInv(s.db) && DbStep(s.db, s'.db) && t in s.tasks
    requires TaskOk(s.db, s.now, s.calls, s.tasks[t])
    requires s'.calls == s.calls || (s.tasks[t].phase.Holding? && s'.calls == s.calls + [s.tasks[t].phase.a] && s'.db == s.db)
    ensures CallsInv(s')
  {
    forall i | 0 <= i < |s.calls| ensures CalledOk(s'.db, s.calls[i]) {
      assert CalledOk(s.db, s.calls[i]);
      assert ActionStep(s.db.actions[s.calls[i]], s'.db.actions[s.calls[i]]);
    }
    if s'.calls != s.calls {
      assert RowOk(s.db, s.tasks[t].msg.row);
    }
  }

  lemma OneTaskMoves(s: Sys, s': Sys, t: nat)
    requires QueueInv(s) && RowsInv(s) && BatchesInv(s) && SentInv(s) && t in s.tasks
    requires t in s'.tasks && s' == s.(db := s'.db, tasks := s.tasks[t := s'.tasks[t]], calls := s'.calls)
    requires s'.tasks[t].msg == s.tasks[t].msg
    requires s'.tasks[t].phase.Done? ==> Settled(s'.db, s.tasks[t].msg.row)
    requires DbInv(s.db) && DbInv(s'.db) && DbStep(s.db, s'.db) && OutboxAppends(s.db.outbox, s'.db.outbox, s.now)
    ensures QueueInv(s') && RowsInv(s') && BatchesInv(s') && SentInv(s')
  {
    QueueStays(s, s');
    RowsStay(s, s');
    BatchesStay(s, s');
    SeenStaySeen(s, s', t, true);
    SentStays(s, s');
  }

  /** The step of the worker on task `t` brings `s` to `s'`. */
  ghost predicate Worked(s: Sys, s': Sys, t: nat, step: Step) {
    && t in s.tasks && t in s'.tasks && ReadyFor(s.tasks[t].phase, step)
    && var (db', phase) := Work(s.db, s.now, s.tasks[t], step);
    && s' == s.(db := db', tasks := s.tasks[t := s'.tasks[t]], calls := Logged(s.calls, s.tasks[t].phase, step))
    && s'.tasks[t] == s.tasks[t].(phase := phase)
  }

  lemma WorkerStepWorks(s: Sys, step: Step)
    requires Enabled(s, step) && IsWorkerStep(step)
    ensures Worked(s, Apply(s, step), step.t, step)
  {
  }

  /** The steps of the dispatchers, of the queue and of the clock leave all tables but the outbox alone. */
  lemma OthersLeaveTables(s: Sys, step: Step)
    requires Enabled(s, step) && !step.Receive? && !IsWorkerStep(step)
    ensures Apply(s, step).db == s.db.(outbox := Apply(s, step).db.outbox) && Apply(s, step).calls == s.calls
  {
  }

  lemma WorkKeepsTasks(s: Sys, s': Sys, t: nat, step: Step)
    requires DbInv(s.db) && TasksInv(s) && ExclusiveInv(s) && CallsInv(s)
    requires Worked(s, s', t, step) && WorkOk(s.db, s.now, s.calls, s.tasks[t], step)
    ensures TasksInv(s') && ExclusiveInv(s') && CallsInv(s')
  {
    assert TaskOk(s.db, s.now, s.calls, s.tasks[t]);
    OthersUnaffected(s, s', t, Held(s.tasks[t].phase));
    HoldsStayExclusive(s, s', t);
    CallsStayDistinct(s, s', t);
  }

  lemma WorkKeepsRest(s: Sys, s': Sys, t: nat, step: Step)
    requires DbInv(s.db) && QueueInv(s) && RowsInv(s) && BatchesInv(s) && SentInv(s)
    requires Worked(s, s', t, step) && WorkOk(s.db, s.now, s.calls, s.tasks[t], step)
    ensures DbInv(s'.db) && QueueInv(s') && RowsInv(s') && BatchesInv(s') && SentInv(s')
  {
    OneTaskMoves(s, s', t);
  }

  lemma WorkerStepKeeps(s: Sys, step: Step)
    requires Inv(s) && Enabled(s, step) && IsWorkerStep(step)
    ensures Inv(Apply(s, step)) && WorkOk(s.db, s.now, s.calls, s.tasks[step.t], step)
    ensures Worked(s, Apply(s, step), step.t, step)
  {
    var s', t := Apply(s, step), step.t;
    assert TaskOk(s.db, s.now, s.calls, s.tasks[t]);
    WorkIsOk(s.db, s.now, s.calls, s.tasks[t], step);
    WorkerStepWorks(s, step);
    WorkKeepsTasks(s, s', t, step);
    WorkKeepsRest(s, s', t, step);
  }

  // ------------------------------------------------------------- queue steps

  /** Delivery, redelivery, crash, retry, failure and acknowledgement touch only messages and tasks. */
  ghost predicate OnlyMessages(s: Sys, s': Sys) {
    && s' == s.(queue := s'.queue, tasks := s'.tasks, givenUp := s'.givenUp)
    && s.givenUp <= s'.givenUp
    && (forall m | m in s'.queue :: m in s.queue || MsgOk(s.db, s.now, m))
    && (forall t | t in s'.tasks ::
          || (t in s.tasks && s'.tasks[t] == s.tasks[t])
          || (s'.tasks[t].phase.Started? && MsgOk(s.db, s.now, s'.tasks[t].msg)))
  }

  lemma MessagesKeepTasks(s: Sys, s': Sys)
    requires TasksInv(s) && ExclusiveInv(s) && OnlyMessages(s, s')
    ensures TasksInv(s') && ExclusiveInv(s')
  {
  }

  lemma MessagesMove(s: Sys, s': Sys)
    requires Inv(s) && OnlyMessages(s, s')
    requires forall m | m in s.queue :: Reached(s', m.row)
    requires forall t | t in s.tasks && !s.tasks[t].phase.Done? :: Reached(s', s.tasks[t].msg.row)
    ensures Inv(s')
  {
    MessagesKeepTasks(s, s');
    QueueStays(s, s');
    RowsStay(s, s');
    BatchesStay(s, s');
    SentStays(s, s');
  }

  predicate IsQueueStep(step: Step) {
    step.Deliver? || step.Redeliver? || step.Crash? || step.RetryTask? || step.FailTask? || step.Acknowledge?
  }

  lemma QueueStepOnlyMessages(s: Sys, step: Step)
    requires TasksInv(s) && QueueInv(s) && Enabled(s, step) && IsQueueStep(step)
    ensures OnlyMessages(s, Apply(s, step))
  {
    if !step.Deliver? {
      assert TaskOk(s.db, s.now, s.calls, s.tasks[step.t]);
    }
  }

  lemma MessageStaysInSight(s: Sys, step: Step, m: Msg)
    requires Enabled(s, step) && IsQueueStep(step) && m in s.queue
    ensures Reached(Apply(s, step), m.row)
  {
    var s' := Apply(s, step);
    if m in s'.queue {
      assert Queued(s', m.row);
    } else {
      assert step.Deliver? && s'.tasks[step.t] == Task(m, Started);
      assert InFlight(s', m.row);
    }
  }

  /** An unfinished task stays in flight, goes back to the queue, or is recorded as given up. */
  lemma TaskStaysInSight(s: Sys, step: Step, t: nat)
    requires Enabled(s, step) && IsQueueStep(step)
    requires t in s.tasks && !s.tasks[t].phase.Done?
    ensures Reached(Apply(s, step), s.tasks[t].msg.row)
  {
    var s', m := Apply(s, step), s.tasks[t].msg;
    if t in s'.tasks {
      assert s'.tasks[t] == s.tasks[t];
      assert InFlight(s', m.row);
    } else if step.Crash? {
      assert m in s'.queue;
      assert Queued(s', m.row);
    } else if step.RetryTask? && m.retries < MAX_RETRIES {
      assert Msg(m.row, m.retries + 1) in s'.queue;
      assert Queued(s', m.row);
    }
  }

  lemma QueueStepKeeps(s: Sys, step: Step)
    requires Inv(s) && Enabled(s, step) && IsQueueStep(step)
    ensures Inv(Apply(s, step)) && Apply(s, step).db == s.db
  {
    var s' := Apply(s, step);
    QueueStepOnlyMessages(s, step);
    forall m | m in s.queue ensures Reached(s', m.row) {
      MessageStaysInSight(s, step, m);
    }
    forall t | t in s.tasks && !s.tasks[t].phase.Done? ensures Reached(s', s.tasks[t].msg.row) {
      TaskStaysInSight(s, step, t);
    }
    MessagesMove(s, s');
  }

  // -------------------------------------------------------- dispatcher steps

  /** The table after a batch, row by row. */
  lemma {:induction false} AttemptAllAt(outbox: seq<OutboxRow>, sel: seq<nat>, results: seq<bool>, max: nat)
    requires |results| <= |sel| && Distinct(sel)
    requires forall i :: 0 <= i < |sel| ==> sel[i] < |outbox|
    ensures forall i | 0 <= i < |results| ::
              AttemptAll(outbox, sel, results, max)[sel[i]] == Attempted(outbox[sel[i]], results[i], max)
    ensures forall r | 0 <= r < |outbox| && r !in sel[..|results|] ::
              AttemptAll(outbox, sel, results, max)[r] == outbox[r]
    decreases |results|
  {
    if |results| > 0 {
      var n := |results| - 1;
      AttemptAllAt(outbox, sel, results[..n], max);
      assert sel[..n + 1] == sel[..n] + [sel[n]];
      assert sel[n] !in sel[..n];
    }
  }

  lemma {:induction false} HitsAt(sel: seq<nat>, results: seq<bool>, r: nat)
    requires |results| <= |sel| && Distinct(sel)
    ensures Hits(sel, results)[r] <= 1
    ensures Hits(sel, results)[r] == 1 <==> exists i :: 0 <= i < |results| && sel[i] == r && results[i]
    decreases |results|
  {
    if |results| > 0 {
      var n := |results| - 1;
      HitsAt(sel, results[..n], r);
      if sel[n] == r {
        assert forall i | 0 <= i < n :: sel[i] != r;
        if results[n] {
          assert Hits(sel, results)[r] == 1;
        }
      } else if exists i :: 0 <= i < n && sel[i] == r && results[i] {
        var i :| 0 <= i < n && sel[i] == r && results[i];
        assert results[..n][i];
      }
    }
  }

  lemma BatchBeginKeeps(s: Sys, d: nat, sel: seq<nat>)
    requires Inv(s) && Enabled(s, BatchBegin(d, sel))
    ensures Inv(Apply(s, BatchBegin(d, sel)))
  {
    var s' := Apply(s, BatchBegin(d, sel));
    forall e | e in s'.batches ensures BatchOk(s', s'.batches[e]) {
      if e != d {
        assert BatchOk(s, s.batches[e]);
      }
    }
    forall r | r in sel ensures Available(s.db.outbox, Locked(s.batches), s.now, r) {
      var i :| 0 <= i < |sel| && sel[i] == r;
    }
    forall e, r | e in s.batches && e != d && r in s.batches[e].sel ensures r !in sel {
      assert r in Locked(s.batches);
    }
    assert TasksInv(s') && QueueInv(s') && ExclusiveInv(s') && CallsInv(s');
    RowsStay(s, s');
    SeenStaySeen(s, s', 0, false);
    SentStays(s, s');
  }

  lemma PublishKeepsBatches(s: Sys, s': Sys, d: nat, published: bool)
    requires BatchesInv(s) && d in s.batches && |s.batches[d].results| < |s.batches[d].sel|
    requires s'.cfg == s.cfg && s'.db == s.db && s'.now == s.now && s.sent <= s'.sent
    requires s'.batches == s.batches[d := s.batches[d].(results := s.batches[d].results + [published])]
    requires published ==> s.batches[d].sel[|s.batches[d].results|] in s'.sent
    ensures BatchesInv(s')
  {
  }

  /** Publishing adds at most a message for a row that is due. */
  lemma PublishKeepsRest(s: Sys, s': Sys, row: nat)
    requires DbInv(s.db) && QueueInv(s) && RowsInv(s) && SentInv(s)
    requires s' == s.(queue := s'.queue, sent := s'.sent, batches := s'.batches)
    requires row < |s.db.outbox| && Due(s.db.outbox[row], s.now)
    requires || (s'.queue == s.queue && s'.sent == s.sent)
             || (s'.queue == s.queue + multiset{Msg(row, 0)} && s'.sent == s.sent + {row})
    ensures QueueInv(s') && RowsInv(s') && SentInv(s')
  {
    if s'.queue != s.queue {
      assert Msg(row, 0) in s'.queue;
      assert Queued(s', row);
    }
    DbStepSame(s.db);
    QueueStays(s, s');
    RowsStay(s, s');
    SeenStaySeen(s, s', 0, false);
    SentStays(s, s');
  }

  lemma BatchPublishKeeps(s: Sys, d: nat, published: bool, enqueued: bool)
    requires Inv(s) && Enabled(s, BatchPublish(d, published, enqueued))
    ensures Inv(Apply(s, BatchPublish(d, published, enqueued)))
  {
    var s' := Apply(s, BatchPublish(d, published, enqueued));
    var b := s.batches[d];
    assert BatchOk(s, b);
    PublishKeepsBatches(s, s', d, published);
    PublishKeepsRest(s, s', b.sel[|b.results|]);
  }

  lemma BatchAbortKeeps(s: Sys, d: nat)
    requires Inv(s) && Enabled(s, BatchAbort(d))
    ensures Inv(Apply(s, BatchAbort(d)))
  {
    var s' := Apply(s, BatchAbort(d));
    forall e | e in s'.batches ensures BatchOk(s', s'.batches[e]) {
      assert BatchOk(s, s.batches[e]);
    }
    RowsStay(s, s');
    SeenStaySeen(s, s', 0, false);
    SentStays(s, s');
  }

  /** What a commit does to a row outside the batch, and to the row at place `i` of the batch. */
  lemma CommitAt(s: Sys, s': Sys, d: nat, r: nat)
    requires BatchesInv(s) && Enabled(s, BatchCommit(d)) && s' == Apply(s, BatchCommit(d))
    requires r < |s.db.outbox|
    ensures |s'.db.outbox| == |s.db.outbox|
    ensures r !in s.batches[d].sel ==>
              s'.db.outbox[r] == s.db.outbox[r] && s'.publications[r] == s.publications[r]
    ensures forall i | 0 <= i < |s.batches[d].sel| && s.batches[d].sel[i] == r ::
              && s'.db.outbox[r] == Attempted(s.db.outbox[r], s.batches[d].results[i], s.cfg.maxAttempts)
              && s'.publications[r] == s.publications[r] + (if s.batches[d].results[i] then 1 else 0)
  {
    var b := s.batches[d];
    assert BatchOk(s, b);
    AttemptAllAt(s.db.outbox, b.sel, b.results, s.cfg.maxAttempts);
    HitsAt(b.sel, b.results, r);
    assert b.sel[..|b.results|] == b.sel;
  }

  lemma CommitRow(s: Sys, s': Sys, d: nat, r: nat)
    requires RowsInv(s) && BatchesInv(s) && Enabled(s, BatchCommit(d)) && s' == Apply(s, BatchCommit(d))
    requires r < |s.db.outbox|
    ensures |s'.db.outbox| == |s.db.outbox|
    ensures RowStateOk(s', r) && OutboxStep(s.db.outbox[r], s'.db.outbox[r])
    ensures r !in s.batches[d].sel ==> s'.db.outbox[r] == s.db.outbox[r]
  {
    var b := s.batches[d];
    CommitAt(s, s', d, r);
    assert BatchOk(s, b) && RowStateOk(s, r);
    if r in b.sel {
      var i :| 0 <= i < |b.sel| && b.sel[i] == r;
    }
  }

  lemma CommitBatches(s: Sys, s': Sys, d: nat)
    requires RowsInv(s) && BatchesInv(s) && Enabled(s, BatchCommit(d)) && s' == Apply(s, BatchCommit(d))
    ensures BatchesInv(s')
  {
    assert BatchOk(s, s.batches[d]);
    forall e | e in s'.batches ensures BatchOk(s', s'.batches[e]) {
      var b := s.batches[e];
      assert BatchOk(s, b);
      forall i | 0 <= i < |b.sel|
        ensures |s'.db.outbox| == |s.db.outbox| && s'.db.outbox[b.sel[i]] == s.db.outbox[b.sel[i]]
      {
        assert b.sel[i] in b.sel;
        CommitRow(s, s', d, b.sel[i]);
      }
    }
  }

  lemma CommitRows(s: Sys, s': Sys, d: nat)
    requires RowsInv(s) && BatchesInv(s) && Enabled(s, BatchCommit(d)) && s' == Apply(s, BatchCommit(d))
    requires |s'.db.outbox| == |s.db.outbox|
    ensures RowsInv(s')
  {
    var b := s.batches[d];
    assert BatchOk(s, b);
    forall r: nat | r < |s'.db.outbox| ensures RowStateOk(s', r) {
      CommitRow(s, s', d, r);
    }
    forall r | r in s'.publications ensures r < |s'.db.outbox| {
      HitsAt(b.sel, b.results, r);
    }
  }

  lemma BatchCommitKeeps(s: Sys, d: nat)
    requires Inv(s) && Enabled(s, BatchCommit(d))
    ensures Inv(Apply(s, BatchCommit(d)))
  {
    var s', b := Apply(s, BatchCommit(d)), s.batches[d];
    assert BatchOk(s, b);
    forall r: nat | r < |s.db.outbox|
      ensures |s'.db.outbox| == |s.db.outbox| && RowStateOk(s', r) && OutboxStep(s.db.outbox[r], s'.db.outbox[r])
      ensures r !in b.sel ==> s'.db.outbox[r] == s.db.outbox[r]
    {
      CommitRow(s, s', d, r);
    }
    OutboxOnly(s.db, s'.db.outbox);
    forall t | t in s'.tasks ensures TaskOk(s'.db, s'.now, s'.calls, s'.tasks[t]) {
      TaskStays(s.db, s'.db, s.now, s.now, s.calls, s.tasks[t], None);
    }
    QueueStays(s, s');
    CallsStay(s, s');
    CommitBatches(s, s', d);
    CommitRows(s, s', d);
    SeenStaySeen(s, s', 0, false);
    SentStays(s, s');
  }

  // ------------------------------------------------------------------- steps

  lemma InitKeeps(cfg: Config)
    ensures Inv(Init(cfg))
  {
  }

  lemma HandleLeavesWorkers(db: Db, m: nat, delivery: Delivery, now: real)
    requires DbInv(db)
    ensures OutboxAppends(db.outbox, Handle(db, m, delivery, now).db.outbox, now)
    ensures |db.actions| == |Handle(db, m, delivery, now).db.actions|
    ensures forall a | 0 <= a < |db.actions| && db.actions[a].status == Executing ::
              Handle(db, m, delivery, now).db.actions[a].status == Executing
  {
  }

  lemma ReceiveKeeps(s: Sys, w: Webhook)
    requires Inv(s)
    ensures Inv(Apply(s, Receive(w))) && DbStep(s.db, Apply(s, Receive(w)).db)
  {
    var s' := Apply(s, Receive(w));
    WebhookKeeps(s.db, w, s.now);
    HandleLeavesWorkers(s.db, w.merchant, w.delivery, s.now);
    TablesMove(s, s');
  }

  /** Every step of the system keeps the invariant. */
  lemma StepKeeps(s: Sys, step: Step)
    requires Inv(s) && Enabled(s, step)
    ensures Inv(Apply(s, step))
  {
    if IsWorkerStep(step) {
      WorkerStepKeeps(s, step);
    } else if IsQueueStep(step) {
      QueueStepKeeps(s, step);
    } else {
      match step {
        case Receive(w) => ReceiveKeeps(s, w);
        case Tick(h) => TablesMove(s, Apply(s, step));
        case BatchBegin(d, sel) => BatchBeginKeeps(s, d, sel);
        case BatchPublish(d, p, e) => BatchPublishKeeps(s, d, p, e);
        case BatchCommit(d) => BatchCommitKeeps(s, d);
        case BatchAbort(d) => BatchAbortKeeps(s, d);
      }
    }
  }

  lemma CommitEvolves(s: Sys, d: nat)
    requires Inv(s) && Enabled(s, BatchCommit(d))
    ensures DbStep(s.db, Apply(s, BatchCommit(d)).db)
  {
    var s' := Apply(s, BatchCommit(d));
    assert BatchOk(s, s.batches[d]);
    forall r: nat | r < |s.db.outbox|
      ensures |s'.db.outbox| == |s.db.outbox| && OutboxStep(s.db.outbox[r], s'.db.outbox[r])
    {
      CommitRow(s, s', d, r);
    }
    OutboxOnly(s.db, s'.db.outbox);
  }

  /** The system has moved on: the tables only forward, the clock never back. */
  ghost predicate Forward(s: Sys, s': Sys) {
    DbStep(s.db, s'.db) && s.now <= s'.now && s'.cfg == s.cfg
  }

  lemma WorkerEvolves(s: Sys, step: Step)
    requires Inv(s) && Enabled(s, step) && IsWorkerStep(step)
    ensures Forward(s, Apply(s, step))
  {
    WorkerStepWorks(s, step);
    assert TaskOk(s.db, s.now, s.calls, s.tasks[step.t]);
    WorkIsOk(s.db, s.now, s.calls, s.tasks[step.t], step);
  }

  lemma StepEvolves(s: Sys, step: Step)
    requires Inv(s) && Enabled(s, step)
    ensures Forward(s, Apply(s, step))
  {
    DbStepSame(s.db);
    if IsWorkerStep(step) {
      WorkerEvolves(s, step);
    } else if step.Receive? {
      ReceiveKeeps(s, step.w);
    } else if step.BatchCommit? {
      CommitEvolves(s, step.d);
    }
  }

  lemma ForwardTrans(a: Sys, b: Sys, c: Sys)
    requires Forward(a, b) && Forward(b, c)
    ensures Forward(a, c)
  {
  }

  /** Every run from a good state ends in a good state, and only moved forward. */
  lemma {:induction false} RunKeeps(s: Sys, steps: seq<Step>)
    requires Inv(s) && ValidRun(s, steps)
    ensures Inv(Run(s, steps)) && Forward(s, Run(s, steps))
    decreases |steps|
  {
    if |steps| == 0 {
      DbStepSame(s.db);
    } else {
      var next := Apply(s, steps[0]);
      StepKeeps(s, steps[0]);
      StepEvolves(s, steps[0]);
      RunKeeps(next, steps[1..]);
      ForwardTrans(s, next, Run(next, steps[1..]));
    }
  }
}
