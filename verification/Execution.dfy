/**
 An action between its claim and its end: when it can still end, what its end
 does, and what may happen to its case before the provider is called.
 */
module Execution {
  import opened Domain
  import opened Policy
  import opened Tables
  import opened Invariants
  import opened Protocol
  import opened Safety
  import opened Theorems

  // ------------------------------------------------------------ carried out

  /** The steps that bring a held action to its end; `ok` is what the provider answers if it is still to be called. */
  function Finishing(p: Phase, t: nat, ok: bool): seq<Step> {
    match p
    case Holding(_, _) => [CallProvider(t, ok), ReadFinal(t), Finalise(t)]
    case CalledProvider(_, _, _) => [ReadFinal(t), Finalise(t)]
    case FinalSeen(_, _, _, _) => [Finalise(t)]
    case _ => []
  }

  /** The answer that ends up on record. */
  function Answer(p: Phase, ok: bool): bool {
    match p
    case CalledProvider(_, _, answer) => answer
    case FinalSeen(_, _, answer, _) => answer
    case _ => ok
  }

  /** The action is over, on record and in the audit log; its case waits after a success if it was still scheduled. */
  ghost predicate CarriedOut(db: Db, db': Db, a: nat, ok: bool) {
    && a < |db.actions| && db.actions[a].caseId < |db.cases|
    && var c := db.actions[a].caseId;
    db' == db.(actions := db.actions[a := db.actions[a].(status := if ok then Executed else FailedAction)],
               cases := if ok && db.cases[c].status == ActionScheduled
                        then db.cases[c := db.cases[c].(status := Waiting, version := 6)]
                        else db.cases,
               audit := db.audit + [if ok then ExecutedAudit(a, c) else FailedAudit(a, c)])
  }

  lemma FinaliseEnds(s: Sys, t: nat, a: nat, ok: bool)
    requires Inv(s) && t in s.tasks && s.tasks[t].phase.FinalSeen?
    requires s.tasks[t].phase.a == a && s.tasks[t].phase.ok == ok
    ensures var s' := Apply(s, Finalise(t)); CarriedOut(s.db, s'.db, a, ok) && s'.calls == s.calls
  {
    assert TaskOk(s.db, s.now, s.calls, s.tasks[t]);
    assert CaseOk(s.db, s.tasks[t].phase.c);
    WorkerStepWorks(s, Finalise(t));
  }

  lemma ReadFinalLeads(s: Sys, t: nat)
    requires Inv(s) && t in s.tasks && s.tasks[t].phase.CalledProvider?
    ensures var s', p := Apply(s, ReadFinal(t)), s.tasks[t].phase;
            && Inv(s') && s'.db == s.db && s'.calls == s.calls && t in s'.tasks
            && p.c < |s.db.cases| && s'.tasks[t].phase == FinalSeen(p.a, p.c, p.ok, s.db.cases[p.c])
  {
    assert TaskOk(s.db, s.now, s.calls, s.tasks[t]);
    WorkerStepKeeps(s, ReadFinal(t));
  }

  lemma CallLeads(s: Sys, t: nat, ok: bool)
    requires Inv(s) && t in s.tasks && s.tasks[t].phase.Holding?
    ensures var s', p := Apply(s, CallProvider(t, ok)), s.tasks[t].phase;
            && Inv(s') && s'.db == s.db && s'.calls == s.calls + [p.a] && t in s'.tasks
            && s'.tasks[t].phase == CalledProvider(p.a, p.c, ok)
  {
    WorkerStepKeeps(s, CallProvider(t, ok));
  }

  lemma SeenEnds(s: Sys, t: nat)
    requires Inv(s) && t in s.tasks && s.tasks[t].phase.FinalSeen?
    ensures ValidRun(s, [Finalise(t)])
    ensures var s', p := Run(s, [Finalise(t)]), s.tasks[t].phase; CarriedOut(s.db, s'.db, p.a, p.ok) && s'.calls == s.calls
  {
    FinaliseEnds(s, t, s.tasks[t].phase.a, s.tasks[t].phase.ok);
    assert Run(s, [Finalise(t)]) == Run(Apply(s, Finalise(t)), []);
  }

  lemma CalledEnds(s: Sys, t: nat)
    requires Inv(s) && t in s.tasks && s.tasks[t].phase.CalledProvider?
    ensures ValidRun(s, [ReadFinal(t), Finalise(t)])
    ensures var s', p := Run(s, [ReadFinal(t), Finalise(t)]), s.tasks[t].phase;
            CarriedOut(s.db, s'.db, p.a, p.ok) && s'.calls == s.calls
  {
    ReadFinalLeads(s, t);
    SeenEnds(Apply(s, ReadFinal(t)), t);
    assert [ReadFinal(t), Finalise(t)][1..] == [Finalise(t)];
  }

  lemma HoldingEnds(s: Sys, t: nat, ok: bool)
    requires Inv(s) && t in s.tasks && s.tasks[t].phase.Holding?
    ensures ValidRun(s, [CallProvider(t, ok), ReadFinal(t), Finalise(t)])
    ensures var s', p := Run(s, [CallProvider(t, ok), ReadFinal(t), Finalise(t)]), s.tasks[t].phase;
            CarriedOut(s.db, s'.db, p.a, ok) && s'.calls == s.calls + [p.a]
  {
    CallLeads(s, t, ok);
    CalledEnds(Apply(s, CallProvider(t, ok)), t);
    assert [CallProvider(t, ok), ReadFinal(t), Finalise(t)][1..] == [ReadFinal(t), Finalise(t)];
  }

  /**
   Whoever holds an action can bring it to its end, from wherever it stands and
   whatever has become of the case: the provider is called unless it was, the
   answer is recorded, and only a case that is still scheduled moves.
   */
  lemma HeldIsCarriedOut(s: Sys, t: nat, a: nat, ok: bool)
    requires Inv(s) && t in s.tasks && Held(s.tasks[t].phase) == Some(a)
    ensures var p := s.tasks[t].phase;
            var steps := Finishing(p, t, ok);
            && ValidRun(s, steps)
            && CarriedOut(s.db, Run(s, steps).db, a, Answer(p, ok))
            && Run(s, steps).calls == if p.Holding? then s.calls + [a] else s.calls
  {
    match s.tasks[t].phase {
      case Holding(_, _) => HoldingEnds(s, t, ok);
      case CalledProvider(_, _, _) => CalledEnds(s, t);
      case FinalSeen(_, _, _, _) => SeenEnds(s, t);
    }
  }

  // ------------------------------------------------------------ dead ends

  ghost predicate Orphaned(s: Sys, a: nat) {
    && a < |s.db.actions| && s.db.actions[a].status == Executing
    && forall t | t in s.tasks :: Held(s.tasks[t].phase) != Some(a)
  }

  lemma OtherStepsLeaveOrphan(s: Sys, step: Step, a: nat)
    requires DbInv(s.db) && Enabled(s, step) && !IsWorkerStep(step) && Orphaned(s, a)
    ensures Orphaned(Apply(s, step), a) && Apply(s, step).calls == s.calls
  {
    if step.Receive? {
      HandleLeavesWorkers(s.db, step.w.merchant, step.w.delivery, s.now);
    } else {
      OthersLeaveTables(s, step);
      assert forall u | u in Apply(s, step).tasks && u in s.tasks :: Apply(s, step).tasks[u] == s.tasks[u];
    }
  }

  lemma WorkLeavesOrphan(s: Sys, s': Sys, t: nat, step: Step, a: nat)
    requires Orphaned(s, a) && Worked(s, s', t, step)
    requires WorkOk(s.db, s.now, s.calls, s.tasks[t], step)
    ensures Orphaned(s', a) && (a in s'.calls <==> a in s.calls)
  {
  }

  lemma OrphanSurvivesStep(s: Sys, step: Step, a: nat)
    requires Inv(s) && Enabled(s, step) && Orphaned(s, a)
    ensures Orphaned(Apply(s, step), a) && (a in Apply(s, step).calls <==> a in s.calls)
  {
    if IsWorkerStep(step) {
      WorkerStepKeeps(s, step);
      WorkLeavesOrphan(s, Apply(s, step), step.t, step, a);
    } else {
      OtherStepsLeaveOrphan(s, step, a);
    }
  }

  /** Nothing in the system resumes an action that nobody holds, or hands it to the provider. */
  lemma {:induction false} OrphanIsNeverResumed(s: Sys, steps: seq<Step>, a: nat)
    requires Inv(s) && ValidRun(s, steps) && Orphaned(s, a)
    ensures Orphaned(Run(s, steps), a) && (a in Run(s, steps).calls <==> a in s.calls)
    decreases |steps|
  {
    if |steps| > 0 {
      OrphanSurvivesStep(s, steps[0], a);
      StepKeeps(s, steps[0]);
      OrphanIsNeverResumed(Apply(s, steps[0]), steps[1..], a);
    }
  }

  predicate LosesTask(step: Step) {
    step.Crash? || step.RetryTask? || step.FailTask?
  }

  /** The holder is lost: its process crashes, or its task raises and is retried or fails. */
  lemma LostHolderOrphans(s: Sys, step: Step, a: nat)
    requires Inv(s) && Enabled(s, step) && LosesTask(step) && Held(s.tasks[step.t].phase) == Some(a)
    ensures Orphaned(Apply(s, step), a) && Apply(s, step).calls == s.calls
  {
    assert TaskOk(s.db, s.now, s.calls, s.tasks[step.t]);
  }

  /**
   A worker that is lost between claim and finalisation, by a crash, a retry or
   a failure of its task, leaves its action EXECUTING for good: no run that
   follows resumes it, and if the provider was not called yet it never will be.
   */
  lemma LostExecutionIsNeverResumed(s: Sys, step: Step, a: nat, steps: seq<Step>)
    requires Reachable(s) && Enabled(s, step) && LosesTask(step) && Held(s.tasks[step.t].phase) == Some(a)
    requires ValidRun(Apply(s, step), steps)
    ensures var s' := Run(Apply(s, step), steps);
            && a < |s'.db.actions| && s'.db.actions[a].status == Executing
            && (a in s'.calls <==> a in s.calls)
  {
    ReachableIsGood(s);
    LostHolderOrphans(s, step, a);
    StepKeeps(s, step);
    OrphanIsNeverResumed(Apply(s, step), steps, a);
  }

  predicate EndedAt(db: Db, a: nat) {
    a < |db.actions| && db.actions[a].status != Executing
  }

  /** Some run that follows ends the execution. */
  ghost predicate CanEnd(s: Sys, a: nat) {
    exists steps :: ValidRun(s, steps) && EndedAt(Run(s, steps).db, a)
  }

  /** Exactly when an execution can still end: if and only if some worker holds the action. */
  lemma ExecutionCanEndIff(s: Sys, a: nat)
    requires Reachable(s) && a < |s.db.actions| && s.db.actions[a].status == Executing
    ensures CanEnd(s, a) <==> exists t :: t in s.tasks && Held(s.tasks[t].phase) == Some(a)
  {
    ReachableIsGood(s);
    if t :| t in s.tasks && Held(s.tasks[t].phase) == Some(a) {
      HeldIsCarriedOut(s, t, a, true);
      var steps := Finishing(s.tasks[t].phase, t, true);
      assert ValidRun(s, steps) && EndedAt(Run(s, steps).db, a);
    } else if CanEnd(s, a) {
      var steps :| ValidRun(s, steps) && EndedAt(Run(s, steps).db, a);
      OrphanIsNeverResumed(s, steps, a);
    }
  }

  // ------------------------------------------------- recovered at the call

  /** The case that a capture is for. */
  function TargetOf(db: Db, m: nat, e: Entity): Option<nat> {
    var (saved, p) := SaveCapturedPayment(db, m, e);
    CaptureTarget(saved.cases, m, p, e.notesCase)
  }

  /** An accepted capture for case `c`. */
  predicate CaptureFor(db: Db, w: Webhook, c: nat) {
    && w.merchantActive && w.eventId !in db.inbox && w.delivery.PaymentCaptured?
    && TargetOf(db, w.merchant, w.delivery.entity) == Some(c)
  }

  /** What a webhook does to an existing case that is past FAILED: only a capture for it changes it, if it is live. */
  lemma WebhookAtCase(db: Db, w: Webhook, now: real, c: nat)
    requires c < |db.cases| && db.cases[c].status != Failed
    ensures var cases := WebhookTx(db, w, now).db.cases;
            && c < |cases|
            && cases[c] == if CaptureFor(db, w, c) && !IsTerminal(db.cases[c].status)
                           then db.cases[c].(status := Recovered, version := db.cases[c].version + 1)
                           else db.cases[c]
  {
    var r := Handle(db, w.merchant, w.delivery, now);
    match w.delivery {
      case PaymentFailed(e) => assert r == FailedTx(db, w.merchant, e, now);
      case PaymentCaptured(e) => assert r == CapturedTx(db, w.merchant, e, now);
      case _ =>
    }
  }

  lemma WorkNeverRecovers(db: Db, now: real, task: Task, step: Step, c: nat)
    requires ReadyFor(task.phase, step) && c < |db.cases|
    ensures var cases := Work(db, now, task, step).0.cases;
            c < |cases| && (cases[c].status == Recovered ==> db.cases[c].status == Recovered)
  {
  }

  /** Only a capture recovers a case. */
  lemma OthersNeverRecover(s: Sys, step: Step, c: nat)
    requires Enabled(s, step) && !step.Receive? && c < |s.db.cases|
    ensures var cases := Apply(s, step).db.cases;
            c < |cases| && (cases[c].status == Recovered ==> s.db.cases[c].status == Recovered)
  {
    if IsWorkerStep(step) {
      WorkerStepWorks(s, step);
      WorkNeverRecovers(s.db, s.now, s.tasks[step.t], step, c);
    } else {
      OthersLeaveTables(s, step);
    }
  }

  ghost predicate Captures(s: Sys, step: Step, c: nat) {
    step.Receive? && CaptureFor(s.db, step.w, c)
  }

  /** An accepted capture for the case is among the steps. */
  ghost predicate CapturedDuring(s: Sys, steps: seq<Step>, c: nat)
    requires ValidRun(s, steps)
    decreases |steps|
  {
    |steps| > 0 && (Captures(s, steps[0], c) || CapturedDuring(Apply(s, steps[0]), steps[1..], c))
  }

  lemma ExecutingCase(db: Db, a: nat)
    requires DbInv(db) && a < |db.actions| && db.actions[a].status == Executing
    ensures var c := db.actions[a].caseId; c < |db.cases| && db.cases[c].status in {ActionScheduled, Recovered}
  {
    assert ActionOk(db, a);
  }

  /** One step during an execution. */
  lemma StepDuringExecution(s: Sys, step: Step, a: nat)
    requires Inv(s) && Enabled(s, step) && a < |s.db.actions| && s.db.actions[a].status == Executing
    requires var db' := Apply(s, step).db; DbInv(db') && DbStep(s.db, db') && db'.actions[a].status == Executing
    ensures var c, cases := s.db.actions[a].caseId, Apply(s, step).db.cases;
            && c < |s.db.cases| <= |cases|
            && cases[c].status == if Captures(s, step, c) then Recovered else s.db.cases[c].status
  {
    var c, db' := s.db.actions[a].caseId, Apply(s, step).db;
    ExecutingCase(s.db, a);
    ExecutingCase(db', a);
    assert ActionStep(s.db.actions[a], db'.actions[a]) && CaseStep(s.db.cases[c], db'.cases[c]);
    if step.Receive? {
      WebhookAtCase(s.db, step.w, s.now, c);
    } else {
      OthersNeverRecover(s, step, c);
    }
  }

  /** As long as an action is under execution, its case is recovered exactly by the captures for it. */
  lemma {:induction false} RunDuringExecution(s: Sys, steps: seq<Step>, a: nat)
    requires Inv(s) && ValidRun(s, steps) && a < |s.db.actions| && s.db.actions[a].status == Executing
    requires a < |Run(s, steps).db.actions| && Run(s, steps).db.actions[a].status == Executing
    ensures var c, cases := s.db.actions[a].caseId, Run(s, steps).db.cases;
            && c < |s.db.cases| && c < |cases|
            && cases[c].status == if CapturedDuring(s, steps, c) then Recovered else s.db.cases[c].status
    decreases |steps|
  {
    ExecutingCase(s.db, a);
    if |steps| > 0 {
      var next, c := Apply(s, steps[0]), s.db.actions[a].caseId;
      StepKeeps(s, steps[0]);
      StepEvolves(s, steps[0]);
      RunKeeps(next, steps[1..]);
      assert ActionStep(s.db.actions[a], next.db.actions[a]);
      assert ActionStep(next.db.actions[a], Run(next, steps[1..]).db.actions[a]);
      StepDuringExecution(s, steps[0], a);
      RunDuringExecution(next, steps[1..], a);
      if next.db.cases[c].status == Recovered {
        assert CaseStep(next.db.cases[c], Run(next, steps[1..]).db.cases[c]);
      }
    }
  }

  /** The worker on task `t` has claimed action `a` of case `c` and not called the provider. */
  ghost predicate IsHolding(s: Sys, t: nat, a: nat, c: nat) {
    t in s.tasks && s.tasks[t].phase == Holding(a, c)
  }

  lemma HoldingExecutes(s: Sys, t: nat, a: nat, c: nat)
    requires Inv(s) && IsHolding(s, t, a, c)
    ensures a < |s.db.actions| && s.db.actions[a].status == Executing && s.db.actions[a].caseId == c < |s.db.cases|
  {
    assert TaskOk(s.db, s.now, s.calls, s.tasks[t]);
  }

  lemma ClaimFindsScheduled(s: Sys, t: nat, a: nat, c: nat)
    requires Reachable(s) && Enabled(s, ClaimAction(t)) && IsHolding(Apply(s, ClaimAction(t)), t, a, c)
    ensures var s' := Apply(s, ClaimAction(t)); c < |s'.db.cases| && s'.db.cases[c].status == ActionScheduled
  {
    ClaimIsNeverStale(s, t);
    WorkerStepWorks(s, ClaimAction(t));
    ReachableIsGood(s);
    assert TaskOk(s.db, s.now, s.calls, s.tasks[t]);
  }

  /**
   Exactly when a provider call is made for a recovered case: a claim won, the
   worker still holds the action after any run, and the call can follow. The
   case is RECOVERED at that moment if and only if an accepted capture for it
   came in between, and otherwise it is ACTION_SCHEDULED.
   */
  lemma CallFollowsRecoveryIff(s: Sys, t: nat, steps: seq<Step>, a: nat, c: nat, ok: bool)
    requires Reachable(s) && Enabled(s, ClaimAction(t))
    requires var s1 := Apply(s, ClaimAction(t));
             IsHolding(s1, t, a, c) && ValidRun(s1, steps) && IsHolding(Run(s1, steps), t, a, c)
    ensures var s1 := Apply(s, ClaimAction(t));
            var s2 := Run(s1, steps);
            && Enabled(s2, CallProvider(t, ok)) && Apply(s2, CallProvider(t, ok)).calls == s2.calls + [a]
            && c < |s2.db.cases|
            && s2.db.cases[c].status == if CapturedDuring(s1, steps, c) then Recovered else ActionScheduled
  {
    var s1 := Apply(s, ClaimAction(t));
    ReachableStep(s, ClaimAction(t));
    ReachableIsGood(s1);
    RunKeeps(s1, steps);
    HoldingExecutes(s1, t, a, c);
    HoldingExecutes(Run(s1, steps), t, a, c);
    ClaimFindsScheduled(s, t, a, c);
    RunDuringExecution(s1, steps, a);
    CallLeads(Run(s1, steps), t, ok);
  }
}
