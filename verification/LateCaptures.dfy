/**
 The whole protocol with captures taken apart. A capture reads its case, later
 cancels the actions that are open then, and later still writes the case without
 a guard, and everything else may run in between. Versions and terminal states
 are no longer safe, as `Writers` shows; here is what is: still one action and
 one provider call per case.
 */
module LateCaptures {
  import opened Domain
  import opened Policy
  import opened Tables
  import opened Invariants
  import opened Protocol
  import opened Safety
  import opened Theorems
  import opened Execution

  // ------------------------------------------------------------------ system

  /** A capture under way: what it read, and the actions it cancels once it has looked for them. */
  datatype Capture = Capture(w: Webhook, target: Option<nat>, seen: Option<CaseRow>, open: Option<set<nat>>)

  datatype LateSys = LateSys(sys: Sys, captures: map<nat, Capture>)

  datatype LateStep =
    | Base(step: Step)
    | ReadCapture(k: nat, w: Webhook)
    | CancelActions(k: nat)
    | WriteCase(k: nat)
    | RollBack(k: nat)

  /** The capture found a live case, which it is going to settle. */
  predicate Settling(cap: Capture) {
    cap.target.Some? && cap.seen.Some? && !IsTerminal(cap.seen.value.status)
  }

  function OpenActions(actions: seq<ActionRow>, c: nat): set<nat> {
    set a: nat | a < |actions| && actions[a].caseId == c && actions[a].status in {PendingAction, Approved} :: a
  }

  function Reading(db: Db, w: Webhook): Capture
    requires w.delivery.PaymentCaptured?
  {
    var c := TargetOf(db, w.merchant, w.delivery.entity);
    Capture(w, c, if c.Some? && c.value < |db.cases| then Some(db.cases[c.value]) else None, None)
  }

  function CancelIf(a: ActionRow, chosen: bool): ActionRow {
    if chosen && a.status in {PendingAction, Approved} then a.(status := Cancelled) else a
  }

  /** The rows of `ids` that are still open are cancelled. */
  function CancelThese(actions: seq<ActionRow>, ids: set<nat>): (r: seq<ActionRow>)
    ensures |r| == |actions|
    ensures forall a :: 0 <= a < |actions| ==> r[a] == CancelIf(actions[a], a in ids)
  {
    if |actions| == 0 then []
    else
      var n := |actions| - 1;
      CancelThese(actions[..n], ids) + [CancelIf(actions[n], n in ids)]
  }

  /** The unguarded write: status and version come from what was read. */
  function SettleLate(db: Db, m: nat, c: nat, seen: CaseRow, ids: set<nat>, now: real): Db {
    if c >= |db.cases| then db
    else
      db.(cases := db.cases[c := db.cases[c].(status := Recovered, version := seen.version + 1)],
          actions := CancelThese(db.actions, ids),
          audit := db.audit + [RecoveredAudit(c)],
          outbox := AddRowIfMissing(db.outbox, m, RecoveredEvent(c), now))
  }

  /** The capture commits; a second delivery under its event id is a duplicate. */
  function LateTx(db: Db, cap: Capture, now: real): Db
    requires cap.w.delivery.PaymentCaptured?
  {
    if cap.w.eventId in db.inbox then db
    else
      var (saved, _) := SaveCapturedPayment(db, cap.w.merchant, cap.w.delivery.entity);
      var settled := if Settling(cap)
                     then SettleLate(saved, cap.w.merchant, cap.target.value, cap.seen.value, if cap.open.Some? then cap.open.value else {}, now)
                     else saved;
      settled.(inbox := db.inbox[cap.w.eventId := InboxRow(cap.w.merchant, Processed)])
  }

  ghost predicate LateEnabled(s: LateSys, step: LateStep) {
    match step
    case Base(b) => Enabled(s.sys, b)
    case ReadCapture(k, w) => k !in s.captures && w.merchantActive && w.delivery.PaymentCaptured?
    case CancelActions(k) => k in s.captures && Settling(s.captures[k]) && s.captures[k].open.None?
    case WriteCase(k) =>
      && k in s.captures && s.captures[k].w.delivery.PaymentCaptured?
      && (Settling(s.captures[k]) ==> s.captures[k].open.Some?)
    case RollBack(k) => k in s.captures
  }

  ghost function LateApply(s: LateSys, step: LateStep): LateSys
    requires LateEnabled(s, step)
  {
    match step
    case Base(b) => s.(sys := Apply(s.sys, b))
    case ReadCapture(k, w) => s.(captures := s.captures[k := Reading(s.sys.db, w)])
    case CancelActions(k) =>
      var cap := s.captures[k];
      s.(captures := s.captures[k := cap.(open := Some(OpenActions(s.sys.db.actions, cap.target.value)))])
    case WriteCase(k) =>
      LateSys(s.sys.(db := LateTx(s.sys.db, s.captures[k], s.sys.now)), s.captures - {k})
    case RollBack(k) => s.(captures := s.captures - {k})
  }

  ghost predicate LateRun(s: LateSys, steps: seq<LateStep>)
    decreases |steps|
  {
    |steps| > 0 ==> LateEnabled(s, steps[0]) && LateRun(LateApply(s, steps[0]), steps[1..])
  }

  ghost function LateEnd(s: LateSys, steps: seq<LateStep>): LateSys
    requires LateRun(s, steps)
    decreases |steps|
  {
    if |steps| == 0 then s else LateEnd(LateApply(s, steps[0]), steps[1..])
  }

  function LateInit(cfg: Config): LateSys {
    LateSys(Init(cfg), map[])
  }

  ghost predicate LateReachable(s: LateSys) {
    exists cfg, steps :: LateRun(LateInit(cfg), steps) && LateEnd(LateInit(cfg), steps) == s
  }

  lemma CancellingOpenActions(actions: seq<ActionRow>, c: nat)
    ensures CancelThese(actions, OpenActions(actions, c)) == CancelOpen(actions, c)
  {
    var these, open := CancelThese(actions, OpenActions(actions, c)), CancelOpen(actions, c);
    forall a | 0 <= a < |actions| ensures these[a] == open[a] {
      assert open[a] == CancelIfOpen(actions[a], c);
    }
  }

  lemma FreshSettlingIsAtomic(db: Db, m: nat, c: nat, now: real)
    requires c < |db.cases| && !IsTerminal(db.cases[c].status)
    ensures SettleLate(db, m, c, db.cases[c], OpenActions(db.actions, c), now) == MarkRecovered(db, m, c, now).db
  {
    CancellingOpenActions(db.actions, c);
    var late, atOnce := SettleLate(db, m, c, db.cases[c], OpenActions(db.actions, c), now), MarkRecovered(db, m, c, now).db;
    assert late.actions == atOnce.actions;
    assert late.outbox == atOnce.outbox;
  }

  /** The capture as it stands when it has read and cancelled at once. */
  function ReadAndCancelled(db: Db, w: Webhook): Capture
    requires w.delivery.PaymentCaptured?
  {
    var read := Reading(db, w);
    if Settling(read) then read.(open := Some(OpenActions(db.actions, read.target.value))) else read
  }

  /** Taken without anything in between, the parts of a capture are the capture. */
  lemma UndisturbedCaptureIsAtomic(db: Db, w: Webhook, now: real)
    requires w.merchantActive && w.delivery.PaymentCaptured?
    ensures LateTx(db, ReadAndCancelled(db, w), now) == WebhookTx(db, w, now).db
  {
    var e := w.delivery.entity;
    var (saved, p) := SaveCapturedPayment(db, w.merchant, e);
    var target := TargetOf(db, w.merchant, e);
    assert saved.cases == db.cases && saved.actions == db.actions && saved.inbox == db.inbox;
    if target.Some? && !IsTerminal(db.cases[target.value].status) {
      FreshSettlingIsAtomic(saved, w.merchant, target.value, now);
    }
    HandleIgnoresInbox(db, db.inbox, w.merchant, w.delivery, now);
    assert Handle(db, w.merchant, w.delivery, now) == CapturedTx(db, w.merchant, e, now);
  }

  // --------------------------------------------------------------- invariant

  /** A case that has an action is past ELIGIBLE; an executable action waits only in a scheduled or recovered case. */
  predicate LooseAction(db: Db, a: ActionRow) {
    && a.caseId < |db.cases|
    && db.cases[a.caseId].status != Eligible
    && (a.status == Approved && Executable(a.kind) ==> db.cases[a.caseId].status in {ActionScheduled, Recovered})
  }

  /** What is left of the coupling of cases and actions. */
  ghost predicate Loose(db: Db) {
    && (forall c | 0 <= c < |db.cases| :: db.cases[c].status != Failed)
    && (forall a | 0 <= a < |db.actions| :: LooseAction(db, db.actions[a]))
    && (forall a, b | 0 <= a < b < |db.actions| :: db.actions[a].caseId != db.actions[b].caseId)
  }

  /** ELIGIBLE and FAILED are not come back to, and RECOVERED is final. */
  predicate StatusMayBecome(s: CaseStatus, s': CaseStatus) {
    || s == s'
    || s' == Recovered
    || (s == Eligible && s' != Failed)
    || (s == ActionScheduled && s' in {Waiting, Stopped})
  }

  ghost predicate LooseStep(db: Db, db': Db, x: Option<nat>) {
    && |db.cases| <= |db'.cases| && |db.actions| <= |db'.actions|
    && (forall c | 0 <= c < |db.cases| :: StatusMayBecome(db.cases[c].status, db'.cases[c].status))
    && (forall a | 0 <= a < |db.actions| :: ActionStep(db.actions[a], db'.actions[a]))
    && (forall a | 0 <= a < |db.actions| && db.actions[a].status == Executing && x != Some(a) ::
          db'.actions[a].status == Executing)
  }

  ghost predicate LooselyKept(db: Db, db': Db, x: Option<nat>) {
    Loose(db') && LooseStep(db, db', x)
  }

  lemma OthersTables(db: Db, db': Db)
    requires Loose(db) && db'.cases == db.cases && db'.actions == db.actions
    ensures LooselyKept(db, db', None)
  {
  }

  lemma FailedIsLoose(db: Db, m: nat, e: Entity, now: real)
    requires Loose(db)
    ensures LooselyKept(db, FailedTx(db, m, e, now).db, None)
  {
  }

  lemma RecoveredIsLoose(db: Db, m: nat, c: nat, now: real)
    requires Loose(db) && c < |db.cases|
    ensures LooselyKept(db, MarkRecovered(db, m, c, now).db, None)
  {
  }

  lemma CapturedIsLoose(db: Db, m: nat, e: Entity, now: real)
    requires Loose(db)
    ensures LooselyKept(db, CapturedTx(db, m, e, now).db, None)
  {
    var (saved, p) := SaveCapturedPayment(db, m, e);
    var target := CaptureTarget(saved.cases, m, p, e.notesCase);
    OthersTables(db, saved);
    if target.Some? {
      RecoveredIsLoose(saved, m, target.value, now);
    }
  }

  lemma HandleIsLoose(db: Db, m: nat, delivery: Delivery, now: real)
    requires Loose(db)
    ensures LooselyKept(db, Handle(db, m, delivery, now).db, None)
  {
    match delivery {
      case PaymentFailed(e) => FailedIsLoose(db, m, e, now);
      case PaymentCaptured(e) => CapturedIsLoose(db, m, e, now);
      case _ => OthersTables(db, db);
    }
  }

  lemma WebhookIsLoose(db: Db, w: Webhook, now: real)
    requires Loose(db)
    ensures LooselyKept(db, WebhookTx(db, w, now).db, None)
  {
    OthersTables(db, db);
    HandleIsLoose(db, w.merchant, w.delivery, now);
  }

  lemma LateSettlingIsLoose(db: Db, m: nat, c: nat, seen: CaseRow, ids: set<nat>, now: real)
    requires Loose(db)
    ensures LooselyKept(db, SettleLate(db, m, c, seen, ids, now), None)
  {
  }

  lemma LateWriteIsLoose(db: Db, cap: Capture, now: real)
    requires Loose(db) && cap.w.delivery.PaymentCaptured?
    ensures LooselyKept(db, LateTx(db, cap, now), None)
  {
    var (saved, _) := SaveCapturedPayment(db, cap.w.merchant, cap.w.delivery.entity);
    OthersTables(db, db);
    OthersTables(db, saved);
    if cap.w.eventId !in db.inbox && Settling(cap) {
      var ids := if cap.open.Some? then cap.open.value else {};
      LateSettlingIsLoose(saved, cap.w.merchant, cap.target.value, cap.seen.value, ids, now);
      var settled := SettleLate(saved, cap.w.merchant, cap.target.value, cap.seen.value, ids, now);
      assert LateTx(db, cap, now).cases == settled.cases && LateTx(db, cap, now).actions == settled.actions;
    }
  }

  lemma DecisionIsLoose(db: Db, c: nat, seen: CaseRow, limits: Limits, reply: ModelReply, now: real)
    requires Loose(db)
    ensures LooselyKept(db, DecideTx(db, c, seen, limits, reply, now).db, None)
  {
    if seen.status == Eligible && Guard(db.cases, c, Eligible, seen.version) {
      var d := Decide(limits, seen.amount, seen.category, CountActions(db.actions, c, None), reply);
      forall a: nat | a < |db.actions| ensures db.actions[a].caseId != c {
        assert LooseAction(db, db.actions[a]);
      }
      DecisionIsOneJump(db, c, seen, d, now);
    } else {
      OthersTables(db, db);
    }
  }

  lemma ClaimIsLoose(db: Db, a: nat, read: ClaimRead)
    requires Loose(db) && a < |db.actions| && read.action.caseId == db.actions[a].caseId
    ensures LooselyKept(db, ClaimTx(db, a, read).db, None)
  {
    assert LooseAction(db, db.actions[a]);
  }

  lemma SuccessIsLoose(db: Db, a: nat, seen: CaseRow)
    requires Loose(db) && a < |db.actions|
    ensures LooselyKept(db, SuccessTx(db, a, db.actions[a].caseId, seen), Some(a))
  {
    assert LooseAction(db, db.actions[a]);
  }

  lemma FailureIsLoose(db: Db, a: nat)
    requires Loose(db) && a < |db.actions|
    ensures LooselyKept(db, FailureTx(db, a, db.actions[a].caseId), Some(a))
  {
  }

  // ------------------------------------------------------------------- tasks

  ghost predicate Holds(db: Db, a: nat, c: nat) {
    a < |db.actions| && db.actions[a].caseId == c && db.actions[a].status == Executing
  }

  ghost predicate LooseTask(db: Db, calls: seq<nat>, p: Phase) {
    match p
    case ClaimSeen(a, read) => a < |db.actions| && read.action.caseId == db.actions[a].caseId
    case Holding(a, c) => Holds(db, a, c) && a !in calls
    case CalledProvider(a, c, _) => Holds(db, a, c)
    case FinalSeen(a, c, _, _) => Holds(db, a, c)
    case _ => true
  }

  ghost predicate CallMade(db: Db, a: nat) {
    a < |db.actions| && db.actions[a].status in {Executing, Executed, FailedAction}
  }

  ghost predicate LooseTasks(s: Sys) {
    && (forall t | t in s.tasks :: LooseTask(s.db, s.calls, s.tasks[t].phase))
    && ExclusiveInv(s)
  }

  ghost predicate LooseCalls(s: Sys) {
    && (forall i, j | 0 <= i < j < |s.calls| :: s.calls[i] != s.calls[j])
    && (forall i | 0 <= i < |s.calls| :: CallMade(s.db, s.calls[i]))
  }

  ghost predicate LooseInv(s: Sys) {
    Loose(s.db) && LooseTasks(s) && LooseCalls(s)
  }

  lemma LooseTaskStays(db: Db, db': Db, calls: seq<nat>, p: Phase, x: Option<nat>)
    requires LooseTask(db, calls, p) && LooseStep(db, db', x) && (x.None? || Held(p) != x)
    ensures LooseTask(db', calls, p)
  {
    match p {
      case ClaimSeen(a, _) => assert ActionStep(db.actions[a], db'.actions[a]);
      case Holding(a, _) => assert ActionStep(db.actions[a], db'.actions[a]);
      case CalledProvider(a, _, _) => assert ActionStep(db.actions[a], db'.actions[a]);
      case FinalSeen(a, _, _, _) => assert ActionStep(db.actions[a], db'.actions[a]);
      case _ =>
    }
  }

  lemma CallsStayMade(s: Sys, s': Sys)
    requires LooseCalls(s) && s.calls <= s'.calls && |s.db.actions| <= |s'.db.actions|
    requires forall a | 0 <= a < |s.db.actions| :: ActionStep(s.db.actions[a], s'.db.actions[a])
    ensures forall i | 0 <= i < |s.calls| :: CallMade(s'.db, s.calls[i])
  {
    forall i | 0 <= i < |s.calls| ensures CallMade(s'.db, s.calls[i]) {
      assert CallMade(s.db, s.calls[i]);
      assert ActionStep(s.db.actions[s.calls[i]], s'.db.actions[s.calls[i]]);
    }
  }

  /** A change of the tables by others. */
  lemma TablesMoveLoosely(s: Sys, s': Sys)
    requires LooseInv(s) && LooselyKept(s.db, s'.db, None) && s'.tasks == s.tasks && s'.calls == s.calls
    ensures LooseInv(s')
  {
    forall t | t in s'.tasks ensures LooseTask(s'.db, s'.calls, s'.tasks[t].phase) {
      assert LooseTask(s.db, s.calls, s.tasks[t].phase);
      LooseTaskStays(s.db, s'.db, s.calls, s.tasks[t].phase, None);
    }
    CallsStayMade(s, s');
  }

  /** What a worker's step does: the tables, its own phase, and an action newly held only from APPROVED. */
  ghost predicate LooseWork(db: Db, now: real, calls: seq<nat>, task: Task, step: Step)
    requires ReadyFor(task.phase, step)
  {
    var (db', phase) := Work(db, now, task, step);
    && LooselyKept(db, db', Held(task.phase))
    && LooseTask(db', Logged(calls, task.phase, step), phase)
    && (Held(phase).Some? && Held(phase) != Held(task.phase) ==>
          Held(phase).value < |db.actions| && db.actions[Held(phase).value].status == Approved)
  }

  lemma LooseClaimWorks(db: Db, now: real, calls: seq<nat>, task: Task, step: Step)
    requires Loose(db) && LooseTask(db, calls, task.phase) && step.ClaimAction? && ReadyFor(task.phase, step)
    requires forall i | 0 <= i < |calls| :: CallMade(db, calls[i])
    ensures LooseWork(db, now, calls, task, step)
  {
    ClaimIsLoose(db, task.phase.a, task.phase.read);
    assert db.actions[task.phase.a].status == Approved ==> task.phase.a !in calls;
  }

  lemma LooseWorks(db: Db, now: real, calls: seq<nat>, task: Task, step: Step)
    requires Loose(db) && LooseTask(db, calls, task.phase) && ReadyFor(task.phase, step)
    requires forall i | 0 <= i < |calls| :: CallMade(db, calls[i])
    ensures LooseWork(db, now, calls, task, step)
  {
    var p := task.phase;
    OthersTables(db, db);
    match step {
      case ReadEvent(_, _) =>
      case DecideCase(_, limits, reply) => DecisionIsLoose(db, p.c, p.seen, limits, reply, now);
      case ClaimAction(_) => LooseClaimWorks(db, now, calls, task, step);
      case CallProvider(_, _) =>
      case ReadFinal(_) =>
      case Finalise(_) => if p.ok { SuccessIsLoose(db, p.a, p.seen); } else { FailureIsLoose(db, p.a); }
    }
  }

  lemma WorkerKeepsTasks(s: Sys, s': Sys, t: nat, step: Step)
    requires LooseInv(s) && Worked(s, s', t, step) && LooseWork(s.db, s.now, s.calls, s.tasks[t], step)
    ensures LooseTasks(s')
  {
    assert LooseTask(s.db, s.calls, s.tasks[t].phase);
    forall u | u in s'.tasks ensures LooseTask(s'.db, s'.calls, s'.tasks[u].phase) {
      if u != t {
        assert LooseTask(s.db, s.calls, s.tasks[u].phase);
        LooseTaskStays(s.db, s'.db, s.calls, s.tasks[u].phase, Held(s.tasks[t].phase));
      }
    }
    forall u | u in s.tasks && u != t && Held(s'.tasks[t].phase).Some?
      ensures Held(s'.tasks[t].phase) != Held(s.tasks[u].phase)
    {
      assert LooseTask(s.db, s.calls, s.tasks[u].phase);
    }
  }

  lemma WorkerKeepsLoosely(s: Sys, step: Step)
    requires LooseInv(s) && Enabled(s, step) && IsWorkerStep(step)
    ensures LooseInv(Apply(s, step)) && LooseStep(s.db, Apply(s, step).db, Held(s.tasks[step.t].phase))
  {
    var s', t := Apply(s, step), step.t;
    WorkerStepWorks(s, step);
    assert LooseTask(s.db, s.calls, s.tasks[t].phase);
    LooseWorks(s.db, s.now, s.calls, s.tasks[t], step);
    WorkerKeepsTasks(s, s', t, step);
    CallsStayMade(s, s');
  }

  lemma StartedTasksAreLoose(s: Sys, s': Sys)
    requires LooseTasks(s) && s'.calls == s.calls && s'.db == s.db.(outbox := s'.db.outbox)
    requires forall t | t in s'.tasks :: (t in s.tasks && s'.tasks[t] == s.tasks[t]) || s'.tasks[t].phase.Started?
    ensures LooseTasks(s')
  {
    forall t | t in s'.tasks ensures LooseTask(s'.db, s'.calls, s'.tasks[t].phase) {
      if t in s.tasks {
        assert LooseTask(s.db, s.calls, s.tasks[t].phase);
      }
    }
  }

  lemma OthersOnlyStartTasks(s: Sys, step: Step)
    requires Enabled(s, step) && !IsWorkerStep(step)
    ensures forall t | t in Apply(s, step).tasks ::
              (t in s.tasks && Apply(s, step).tasks[t] == s.tasks[t]) || Apply(s, step).tasks[t].phase.Started?
  {
  }

  /** Queue, dispatcher and clock. */
  lemma OthersKeepLoosely(s: Sys, step: Step)
    requires LooseInv(s) && Enabled(s, step) && !IsWorkerStep(step) && !step.Receive?
    ensures LooseInv(Apply(s, step)) && LooseStep(s.db, Apply(s, step).db, None)
  {
    var s' := Apply(s, step);
    OthersLeaveTables(s, step);
    OthersTables(s.db, s'.db);
    CallsStayMade(s, s');
    OthersOnlyStartTasks(s, step);
    StartedTasksAreLoose(s, s');
  }

  lemma BaseKeepsLoosely(s: Sys, step: Step)
    requires LooseInv(s) && Enabled(s, step)
    ensures LooseInv(Apply(s, step)) && exists x :: LooseStep(s.db, Apply(s, step).db, x)
  {
    if step.Receive? {
      WebhookIsLoose(s.db, step.w, s.now);
      TablesMoveLoosely(s, Apply(s, step));
    } else if IsWorkerStep(step) {
      WorkerKeepsLoosely(s, step);
    } else {
      OthersKeepLoosely(s, step);
    }
  }

  /** Actions and cases as two moments of a run see them. */
  ghost predicate MovedOn(db: Db, db': Db) {
    && |db.cases| <= |db'.cases| && |db.actions| <= |db'.actions|
    && (forall c | 0 <= c < |db.cases| :: StatusMayBecome(db.cases[c].status, db'.cases[c].status))
    && (forall a | 0 <= a < |db.actions| :: ActionStep(db.actions[a], db'.actions[a]))
  }

  lemma LateStepKeeps(s: LateSys, step: LateStep)
    requires LooseInv(s.sys) && LateEnabled(s, step)
    ensures LooseInv(LateApply(s, step).sys) && MovedOn(s.sys.db, LateApply(s, step).sys.db)
  {
    match step {
      case Base(b) => BaseKeepsLoosely(s.sys, b);
      case WriteCase(k) =>
        LateWriteIsLoose(s.sys.db, s.captures[k], s.sys.now);
        TablesMoveLoosely(s.sys, LateApply(s, step).sys);
      case _ => OthersTables(s.sys.db, s.sys.db);
    }
  }

  lemma MovedOnTrans(a: Db, b: Db, c: Db)
    requires MovedOn(a, b) && MovedOn(b, c)
    ensures MovedOn(a, c)
  {
  }

  lemma {:induction false} LateRunKeeps(s: LateSys, steps: seq<LateStep>)
    requires LooseInv(s.sys) && LateRun(s, steps)
    ensures LooseInv(LateEnd(s, steps).sys) && MovedOn(s.sys.db, LateEnd(s, steps).sys.db)
    decreases |steps|
  {
    if |steps| == 0 {
      OthersTables(s.sys.db, s.sys.db);
    } else {
      var next := LateApply(s, steps[0]);
      LateStepKeeps(s, steps[0]);
      LateRunKeeps(next, steps[1..]);
      MovedOnTrans(s.sys.db, next.sys.db, LateEnd(next, steps[1..]).sys.db);
    }
  }

  lemma LateReachableIsLoose(s: LateSys)
    requires LateReachable(s)
    ensures LooseInv(s.sys)
  {
    var cfg, steps :| LateRun(LateInit(cfg), steps) && LateEnd(LateInit(cfg), steps) == s;
    LateRunKeeps(LateInit(cfg), steps);
  }

  lemma {:induction false} LateRunOneMore(s: LateSys, steps: seq<LateStep>, step: LateStep)
    requires LateRun(s, steps) && LateEnabled(LateEnd(s, steps), step)
    ensures LateRun(s, steps + [step]) && LateEnd(s, steps + [step]) == LateApply(LateEnd(s, steps), step)
    decreases |steps|
  {
    if |steps| > 0 {
      assert (steps + [step])[1..] == steps[1..] + [step];
      LateRunOneMore(LateApply(s, steps[0]), steps[1..], step);
    } else {
      assert LateEnd(LateApply(s, step), [step][1..]) == LateApply(s, step);
    }
  }

  lemma LateReachableStep(s: LateSys, step: LateStep)
    requires LateReachable(s) && LateEnabled(s, step)
    ensures LateReachable(LateApply(s, step))
  {
    var cfg, steps :| LateRun(LateInit(cfg), steps) && LateEnd(LateInit(cfg), steps) == s;
    LateRunOneMore(LateInit(cfg), steps, step);
    assert LateRun(LateInit(cfg), steps + [step]);
  }

  /** Every run of the protocol with atomic captures is a run here. */
  lemma {:induction false} BaseRunIsLateReachable(s: Sys, steps: seq<Step>)
    requires LateReachable(LateSys(s, map[])) && ValidRun(s, steps)
    ensures LateReachable(LateSys(Run(s, steps), map[]))
    decreases |steps|
  {
    if |steps| > 0 {
      LateReachableStep(LateSys(s, map[]), Base(steps[0]));
      BaseRunIsLateReachable(Apply(s, steps[0]), steps[1..]);
    }
  }

  lemma ReachableIsLateReachable(s: Sys)
    requires Reachable(s)
    ensures LateReachable(LateSys(s, map[]))
  {
    var cfg, steps :| ValidRun(Init(cfg), steps) && Run(Init(cfg), steps) == s;
    assert LateRun(LateInit(cfg), []) && LateEnd(LateInit(cfg), []) == LateInit(cfg);
    BaseRunIsLateReachable(Init(cfg), steps);
  }

  // ----------------------------------------------------------------- results

  /** However late captures write, no case gets a second action or a second provider call. */
  lemma LateCapturesKeepOneCallPerCase(s: LateSys)
    requires LateReachable(s)
    ensures forall a, b | 0 <= a < b < |s.sys.db.actions| :: s.sys.db.actions[a].caseId != s.sys.db.actions[b].caseId
    ensures forall i | 0 <= i < |s.sys.calls| :: s.sys.calls[i] < |s.sys.db.actions|
    ensures forall i, j | 0 <= i < j < |s.sys.calls| ::
              s.sys.db.actions[s.sys.calls[i]].caseId != s.sys.db.actions[s.sys.calls[j]].caseId
  {
    LateReachableIsLoose(s);
    var calls, actions := s.sys.calls, s.sys.db.actions;
    assert forall i | 0 <= i < |calls| :: CallMade(s.sys.db, calls[i]);
    forall i, j | 0 <= i < j < |calls| ensures actions[calls[i]].caseId != actions[calls[j]].caseId {
      assert calls[i] != calls[j];
      if calls[i] < calls[j] {
        assert actions[calls[i]].caseId != actions[calls[j]].caseId;
      } else {
        assert actions[calls[j]].caseId != actions[calls[i]].caseId;
      }
    }
  }

  /**
   Along every run, however late captures write: RECOVERED is never left, other
   terminal states are left for RECOVERED only, and no case becomes ELIGIBLE
   again.
   */
  lemma LateCapturesOnlyRecover(s: LateSys, steps: seq<LateStep>, c: nat)
    requires LateReachable(s) && LateRun(s, steps) && c < |s.sys.db.cases|
    ensures c < |LateEnd(s, steps).sys.db.cases|
    ensures var status, status' := s.sys.db.cases[c].status, LateEnd(s, steps).sys.db.cases[c].status;
            && (status == Recovered ==> status' == Recovered)
            && (IsTerminal(status) ==> status' in {status, Recovered})
            && (status != Eligible ==> status' != Eligible)
  {
    LateReachableIsLoose(s);
    LateRunKeeps(s, steps);
  }

  /**
   What is lost is the freshness of claims: an APPROVED executable action is in
   a scheduled case or in a recovered one.
   */
  lemma LateClaimFindsScheduledOrRecovered(s: LateSys, a: nat)
    requires LateReachable(s) && a < |s.sys.db.actions|
    requires s.sys.db.actions[a].status == Approved && Executable(s.sys.db.actions[a].kind)
    ensures var c := s.sys.db.actions[a].caseId;
            c < |s.sys.db.cases| && s.sys.db.cases[c].status in {ActionScheduled, Recovered}
  {
    LateReachableIsLoose(s);
    assert LooseAction(s.sys.db, s.sys.db.actions[a]);
  }

  /** The write of a settling capture. */
  lemma WriteSettles(db: Db, cap: Capture, now: real, a: nat)
    requires cap.w.delivery.PaymentCaptured? && cap.w.eventId !in db.inbox && Settling(cap) && cap.open.Some?
    requires cap.target.value < |db.cases| && a < |db.actions| && db.actions[a].status == Approved
    ensures var db' := LateTx(db, cap, now);
            && |db'.cases| == |db.cases| && db'.cases[cap.target.value].status == Recovered
            && |db'.actions| == |db.actions|
            && db'.actions[a].status == if a in cap.open.value then Cancelled else Approved
  {
  }

  /** The capture is as it was when it looked for open actions. */
  ghost predicate Unchanged(s: LateSys, k: nat, cap: Capture) {
    k in s.captures && s.captures[k] == cap
  }

  /**
   Exactly which action survives APPROVED in a case that a late capture has
   recovered: the one that was created after the capture had looked for open
   actions. `s` is the moment of that look, the run leads to the moment before
   the write.
   */
  lemma LateCaptureMissesActionIff(s: LateSys, k: nat, steps: seq<LateStep>, a: nat)
    requires LateReachable(s) && LateEnabled(s, CancelActions(k))
    requires LateRun(LateApply(s, CancelActions(k)), steps)
    requires var s2 := LateEnd(LateApply(s, CancelActions(k)), steps);
             && Unchanged(s2, k, LateApply(s, CancelActions(k)).captures[k]) && LateEnabled(s2, WriteCase(k))
             && s2.captures[k].w.eventId !in s2.sys.db.inbox
             && a < |s2.sys.db.actions| && s2.sys.db.actions[a].status == Approved
             && Some(s2.sys.db.actions[a].caseId) == s.captures[k].target
    ensures var s2 := LateEnd(LateApply(s, CancelActions(k)), steps);
            var db, c := LateApply(s2, WriteCase(k)).sys.db, s2.sys.db.actions[a].caseId;
            && c < |db.cases| && db.cases[c].status == Recovered
            && a < |db.actions| && (db.actions[a].status == Approved <==> a >= |s.sys.db.actions|)
  {
    var s1 := LateApply(s, CancelActions(k));
    var s2 := LateEnd(s1, steps);
    LateReachableIsLoose(s);
    LateStepKeeps(s, CancelActions(k));
    LateRunKeeps(s1, steps);
    assert LooseAction(s2.sys.db, s2.sys.db.actions[a]);
    if a < |s.sys.db.actions| {
      assert ActionStep(s.sys.db.actions[a], s2.sys.db.actions[a]);
      assert a in OpenActions(s.sys.db.actions, s2.sys.db.actions[a].caseId);
    }
    WriteSettles(s2.sys.db, s2.captures[k], s2.sys.now, a);
  }
}
