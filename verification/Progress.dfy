/**
 What an undisturbed delivery brings about: the protocol's steps put together
 again, from message to outcome.
 */
module Progress {
  import opened Domain
  import opened Policy
  import opened Tables
  import opened Invariants
  import opened Protocol
  import opened Safety
  import opened Theorems

  lemma DeliveryStarts(s: Sys, t: nat, m: Msg)
    requires Inv(s) && Enabled(s, Deliver(t, m))
    ensures var s' := Apply(s, Deliver(t, m));
            Inv(s') && s' == s.(queue := s.queue - multiset{m}, tasks := s.tasks[t := Task(m, Started)])
  {
    StepKeeps(s, Deliver(t, m));
  }

  /** The worker loads its row and reads what the row is about. */
  lemma StartedReads(s: Sys, t: nat, limits: Limits)
    requires Inv(s) && t in s.tasks && s.tasks[t].phase.Started?
    ensures var s', m := Apply(s, ReadEvent(t, limits)), s.tasks[t].msg;
            Inv(s') && s' == s.(tasks := s.tasks[t := Task(m, AfterRead(s.db, m.row, limits))])
  {
    WorkerStepKeeps(s, ReadEvent(t, limits));
  }

  /** The state in which message `m` has been read. */
  ghost function AfterReading(s: Sys, t: nat, m: Msg, limits: Limits): Sys {
    s.(queue := s.queue - multiset{m}, tasks := s.tasks[t := Task(m, AfterRead(s.db, m.row, limits))])
  }

  lemma ReadingIsRead(s: Sys, s': Sys, t: nat, m: Msg, limits: Limits)
    requires s' == s.(queue := s.queue - multiset{m}, tasks := s.tasks[t := Task(m, Started)])
    ensures s'.(tasks := s'.tasks[t := Task(m, AfterRead(s'.db, m.row, limits))]) == AfterReading(s, t, m, limits)
  {
    var task := Task(m, AfterRead(s.db, m.row, limits));
    assert s'.tasks[t := task] == s.tasks[t := task];
  }

  /** A delivered message, up to the end of its reading. */
  lemma DeliveryIsRead(s: Sys, t: nat, m: Msg, limits: Limits)
    requires Inv(s) && Enabled(s, Deliver(t, m))
    ensures var s' := Apply(s, Deliver(t, m));
            && Enabled(s', ReadEvent(t, limits))
            && Apply(s', ReadEvent(t, limits)) == AfterReading(s, t, m, limits)
            && Inv(AfterReading(s, t, m, limits))
  {
    var s' := Apply(s, Deliver(t, m));
    DeliveryStarts(s, t, m);
    ReadingIsRead(s, s', t, m, limits);
    StartedReads(s', t, limits);
  }

  /**
   The tables after the decision for `action` on the ELIGIBLE case `c`, row by
   row. The due time stands in the case and in the announcement alike.
   */
  function Decided(db: Db, c: nat, action: ActionType, now: real): Db
    requires c < |db.cases|
  {
    var row, a := db.cases[c], |db.actions|;
    var due := now + DelayOf(row.amount, row.category, action);
    var settled := CaseRow(row.merchant, row.payment,
                           if action == Stop then Stopped else if action == Escalate then Escalated else ActionScheduled,
                           row.amount, row.category, if action in {Stop, Escalate} then row.nextActionAt else Some(due), 5);
    db.(cases := db.cases[c := settled],
        actions := db.actions + [ActionRow(row.merchant, c, action, Approved, 1, now)],
        outbox := if action in {Stop, Escalate} then db.outbox
                  else db.outbox + [OutboxRow(row.merchant, ScheduledEvent(c, a), PendingRow, 0, now, Some(due))],
        audit := db.audit + [DecisionAudit(c, action, settled.status)])
  }

  lemma CompletedIsDecided(db: Db, c: nat, d: Decision, now: real)
    requires c < |db.cases| && db.cases[c].version == 2
    requires d.delayHours == DelayOf(db.cases[c].amount, db.cases[c].category, d.action)
    ensures Completed(WithAction(db, c, db.cases[c], d, now), c, db.cases[c], d, now) == Decided(db, c, d.action, now)
  {
  }

  /** The decision on an ELIGIBLE case read at the same moment. */
  lemma DecisionTaken(db: Db, c: nat, limits: Limits, reply: ModelReply, now: real)
    requires DbInv(db) && c < |db.cases| && db.cases[c].status == Eligible
    requires CountActions(db.actions, c, None) == Counts(0, 0, 0)
    ensures var row := db.cases[c];
            var d := Decide(limits, row.amount, row.category, Counts(0, 0, 0), reply);
            DecideTx(db, c, row, limits, reply, now) == DecisionResult(Decided(db, c, d.action, now), DecisionMade)
  {
    assert CaseOk(db, c);
    forall a: nat | a < |db.actions| ensures db.actions[a].caseId != c {
      assert ActionOk(db, a);
    }
    var row := db.cases[c];
    var d := Decide(limits, row.amount, row.category, Counts(0, 0, 0), reply);
    DelayIsDetermined(limits, row.amount, row.category, Counts(0, 0, 0), reply);
    DecisionIsOneJump(db, c, row, d, now);
    CompletedIsDecided(db, c, d, now);
  }

  /**
   Message `m` about case `c` done with: the decision rule, asked about a case
   with no earlier actions, is on record, and nothing else has changed.
   */
  ghost function AfterDecision(s: Sys, t: nat, m: Msg, c: nat, limits: Limits, reply: ModelReply): Sys
    requires c < |s.db.cases|
  {
    var row := s.db.cases[c];
    var d := Decide(limits, row.amount, row.category, Counts(0, 0, 0), reply);
    s.(queue := s.queue - multiset{m}, tasks := s.tasks[t := Task(m, Done)], db := Decided(s.db, c, d.action, s.now))
  }

  lemma SeenIsDecided(s: Sys, s': Sys, t: nat, m: Msg, c: nat, limits: Limits, reply: ModelReply)
    requires DbInv(s.db) && c < |s.db.cases| && s.db.cases[c].status == Eligible
    requires s' == s.(queue := s.queue - multiset{m}, tasks := s.tasks[t := Task(m, CaseSeen(c, s.db.cases[c]))])
    requires CountActions(s.db.actions, c, None) == Counts(0, 0, 0)
    ensures Enabled(s', DecideCase(t, limits, reply))
    ensures Apply(s', DecideCase(t, limits, reply)) == AfterDecision(s, t, m, c, limits, reply)
  {
    WorkerStepWorks(s', DecideCase(t, limits, reply));
    DecisionTaken(s.db, c, limits, reply, s.now);
    assert s'.tasks[t := Task(m, Done)] == s.tasks[t := Task(m, Done)];
  }

  /** An undisturbed delivery about an ELIGIBLE case brings about its decision, and that exactly. */
  lemma EligibleDeliveryDecides(s: Sys, t: nat, m: Msg, c: nat, limits: Limits, reply: ModelReply)
    requires Reachable(s) && Enabled(s, Deliver(t, m))
    requires m.row < |s.db.outbox| && s.db.outbox[m.row].event == EligibleEvent(c)
    requires c < |s.db.cases| && s.db.cases[c].status == Eligible
    ensures var s2 := Apply(s, Deliver(t, m));
            && Enabled(s2, ReadEvent(t, limits))
            && var s3 := Apply(s2, ReadEvent(t, limits));
            && Enabled(s3, DecideCase(t, limits, reply))
            && Apply(s3, DecideCase(t, limits, reply)) == AfterDecision(s, t, m, c, limits, reply)
  {
    ReachableIsGood(s);
    DeliveryIsRead(s, t, m, limits);
    PolicyAlwaysSeesZeroCounts(s, c);
    var s3 := Apply(Apply(s, Deliver(t, m)), ReadEvent(t, limits));
    SeenIsDecided(s, s3, t, m, c, limits, reply);
  }

  /** The re-check at execution permits an APPROVED action exactly when the policy permits it with zero counts. */
  lemma RecheckIsPermission(s: Sys, a: nat, limits: Limits)
    requires Reachable(s) && a < |s.db.actions| && s.db.actions[a].caseId < |s.db.cases|
    requires s.db.actions[a].status == Approved && Executable(s.db.actions[a].kind)
    ensures ReadForClaim(s.db, a, limits).allowed <==>
            Permits(limits, PolicyInput(ActionScheduled, s.db.cases[s.db.actions[a].caseId].amount, s.db.actions[a].kind, Counts(0, 0, 0)))
  {
    ReachableIsGood(s);
    var c := s.db.actions[a].caseId;
    assert ActionOk(s.db, a);
    PolicyAlwaysSeesZeroCounts(s, c);
    PolicyApprovesExactlyThePermitted(
      limits, PolicyInput(ActionScheduled, s.db.cases[c].amount, s.db.actions[a].kind, Counts(0, 0, 0)), None);
  }

  /** A claim made on tables that did not move since its reading. */
  lemma FreshClaim(s: Sys, t: nat, a: nat, limits: Limits)
    requires Inv(s) && a < |s.db.actions| && s.db.actions[a].caseId < |s.db.cases|
    requires t in s.tasks && s.tasks[t].phase == ClaimSeen(a, ReadForClaim(s.db, a, limits))
    requires s.db.actions[a].status == Approved
    ensures var s', c := Apply(s, ClaimAction(t)), s.db.actions[a].caseId;
            && a < |s'.db.actions| && c < |s'.db.cases| && t in s'.tasks
            && s'.cfg == s.cfg && s'.calls == s.calls && s'.db.inbox == s.db.inbox
            && if ReadForClaim(s.db, a, limits).allowed
               then s'.tasks[t].phase == Holding(a, c) && s'.db.actions[a].status == Executing
               else s'.db.actions[a].status == Cancelled && s'.db.cases[c].status == Stopped
  {
    assert TaskOk(s.db, s.now, s.calls, s.tasks[t]);
    assert RowOk(s.db, s.tasks[t].msg.row);
    ClaimOutcomes(s.db, a, s.tasks[t].phase.read);
    WorkerStepWorks(s, ClaimAction(t));
  }

  /**
   A delivered message about an APPROVED action claims it if the policy permits
   it, and otherwise cancels it and stops the case.
   */
  lemma ScheduledDeliveryClaims(s: Sys, t: nat, m: Msg, c: nat, a: nat, limits: Limits)
    requires Reachable(s) && Enabled(s, Deliver(t, m))
    requires m.row < |s.db.outbox| && s.db.outbox[m.row].event == ScheduledEvent(c, a)
    requires a < |s.db.actions| && s.db.actions[a].status == Approved
    ensures c < |s.db.cases|
    ensures var s1 := Apply(s, Deliver(t, m));
            && Enabled(s1, ReadEvent(t, limits))
            && var s2 := Apply(s1, ReadEvent(t, limits));
            && Enabled(s2, ClaimAction(t))
            && var s3 := Apply(s2, ClaimAction(t));
            && a < |s3.db.actions| && c < |s3.db.cases| && t in s3.tasks
            && s3.cfg == s.cfg && s3.calls == s.calls && s3.db.inbox == s.db.inbox
            && if Permits(limits, PolicyInput(ActionScheduled, s.db.cases[c].amount, s.db.actions[a].kind, Counts(0, 0, 0)))
               then s3.tasks[t].phase == Holding(a, c) && s3.db.actions[a].status == Executing
               else s3.db.actions[a].status == Cancelled && s3.db.cases[c].status == Stopped
  {
    ReachableIsGood(s);
    DeliveryIsRead(s, t, m, limits);
    assert RowOk(s.db, m.row);
    RecheckIsPermission(s, a, limits);
    FreshClaim(Apply(Apply(s, Deliver(t, m)), ReadEvent(t, limits)), t, a, limits);
  }
}
