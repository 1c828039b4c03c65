/**
 One whole run, from empty tables to a provider call for a case that has been
 recovered in the meantime: what the other modules say of held actions and of
 provider calls is not said of nothing.
 */
module Runs {
  import opened Domain
  import opened Policy
  import opened Tables
  import opened Protocol
  import opened Safety
  import opened Theorems
  import opened Webhooks
  import opened Progress
  import opened Execution
  import opened LateCaptures

  // -------------------------------------------------------------- dispatcher

  /** Row `r` is all there is to publish, and no dispatcher is running. */
  ghost predicate Lone(s: Sys, r: nat) {
    && s.batches == map[]
    && Available(s.db.outbox, {}, s.now, r)
    && forall q: nat | Available(s.db.outbox, {}, s.now, q) :: q == r
  }

  lemma BeginLone(s: Sys, r: nat)
    requires Lone(s, r)
    ensures Enabled(s, BatchBegin(0, [r]))
    ensures Apply(s, BatchBegin(0, [r])) == s.(batches := map[0 := Batch([r], [])])
  {
    assert Locked(s.batches) == {};
    assert IsBatch(s.db.outbox, {}, s.now, s.cfg.batchSize, [r]);
  }

  lemma PublishLone(s: Sys, r: nat)
    requires s.batches == map[0 := Batch([r], [])]
    ensures Enabled(s, BatchPublish(0, true, true))
    ensures Apply(s, BatchPublish(0, true, true)) ==
            s.(batches := map[0 := Batch([r], [true])], queue := s.queue + multiset{Msg(r, 0)}, sent := s.sent + {r})
  {
    assert [] + [true] == [true];
    assert s.batches[0 := Batch([r], [true])] == map[0 := Batch([r], [true])];
  }

  lemma CommitLone(s: Sys, r: nat)
    requires s.batches == map[0 := Batch([r], [true])] && r < |s.db.outbox|
    ensures Enabled(s, BatchCommit(0))
    ensures var s' := Apply(s, BatchCommit(0));
            s' == s.(batches := map[], publications := s'.publications,
                     db := s.db.(outbox := s.db.outbox[r := Attempted(s.db.outbox[r], true, s.cfg.maxAttempts)]))
  {
    assert AttemptAll(s.db.outbox, [r], [true][..0], s.cfg.maxAttempts) == s.db.outbox;
  }

  /** What is alike before and after the dispatcher has published row `r`. */
  ghost predicate Dispatched(s: Sys, s': Sys, r: nat)
    requires r < |s.db.outbox|
  {
    && Reachable(s') && s'.cfg == s.cfg && s'.now == s.now && s'.tasks == s.tasks && s'.calls == s.calls
    && s'.batches == map[] && Msg(r, 0) in s'.queue
    && s'.db == s.db.(outbox := s.db.outbox[r := Attempted(s.db.outbox[r], true, s.cfg.maxAttempts)])
  }

  lemma LoneRowIsDispatched(s: Sys, r: nat) returns (s': Sys)
    requires Reachable(s) && Lone(s, r)
    ensures Dispatched(s, s', r)
  {
    BeginLone(s, r);
    ReachableStep(s, BatchBegin(0, [r]));
    var s1 := Apply(s, BatchBegin(0, [r]));
    PublishLone(s1, r);
    ReachableStep(s1, BatchPublish(0, true, true));
    var s2 := Apply(s1, BatchPublish(0, true, true));
    CommitLone(s2, r);
    ReachableStep(s2, BatchCommit(0));
    s' := Apply(s2, BatchCommit(0));
  }

  // ------------------------------------------------------------------ stages

  function Permissive(): Limits {
    Limits(1, 1, true, false, 0)
  }

  function Remind(): ModelReply {
    Replied(ActionValue(SendReminder))
  }

  /** One failed payment, whose case is ELIGIBLE and announced. */
  lemma FailureArrives(cfg: Config) returns (s: Sys)
    ensures Reachable(s) && s.cfg == cfg && s.now == 0.0 && s.tasks == map[] && s.calls == []
    ensures s.db == Opened(EMPTY_DB, FailureOf("1", "a"), 0.0) && Lone(s, 0)
  {
    InitIsReachable(cfg);
    ReachableIsGood(Init(cfg));
    FirstFailureOpensCase(EMPTY_DB, FailureOf("1", "a"), 0.0);
    ReachableStep(Init(cfg), Receive(FailureOf("1", "a")));
    s := Apply(Init(cfg), Receive(FailureOf("1", "a")));
  }

  lemma ReminderIsDecided(amount: int, category: Option<string>)
    ensures var d := Decide(Permissive(), amount, category, Counts(0, 0, 0), Remind());
            d.action == SendReminder && d.delayHours == 0.0
  {
    ParseInvertsValue(SendReminder, ActionValue(SendReminder));
    AgentObeyedExactlyWhenPermitted(Permissive(), amount, category, Counts(0, 0, 0), Remind());
    DelayIsDetermined(Permissive(), amount, category, Counts(0, 0, 0), Remind());
  }

  lemma DecisionIsReached(s: Sys, t: nat, m: Msg, c: nat, limits: Limits, reply: ModelReply)
    requires Reachable(s) && Enabled(s, Deliver(t, m))
    requires m.row < |s.db.outbox| && s.db.outbox[m.row].event == EligibleEvent(c)
    requires c < |s.db.cases| && s.db.cases[c].status == Eligible
    ensures Reachable(AfterDecision(s, t, m, c, limits, reply))
  {
    EligibleDeliveryDecides(s, t, m, c, limits, reply);
    ReachableStep(s, Deliver(t, m));
    var s1 := Apply(s, Deliver(t, m));
    ReachableStep(s1, ReadEvent(t, limits));
    ReachableStep(Apply(s1, ReadEvent(t, limits)), DecideCase(t, limits, reply));
  }

  /** What the first task's decision leaves: one reminder, approved, announced and due at once. */
  lemma ReminderIsDue(s: Sys)
    requires s.tasks == map[] && s.batches == map[]
    requires |s.db.cases| == 1 && s.db.cases[0].status == Eligible && s.db.actions == []
    requires |s.db.outbox| == 1 && s.db.outbox[0].status == Published
    ensures var s' := AfterDecision(s, 0, Msg(0, 0), 0, Permissive(), Remind());
            && s'.cfg == s.cfg && s'.calls == s.calls && 1 !in s'.tasks && s'.db.inbox == s.db.inbox
            && |s'.db.actions| == 1 && |s'.db.outbox| == 2 && s'.db.outbox[1].event == ScheduledEvent(0, 0)
            && s'.db.actions[0].status == Approved && s'.db.actions[0].kind == SendReminder
            && Lone(s', 1)
  {
    ReminderIsDecided(s.db.cases[0].amount, s.db.cases[0].category);
    assert AfterDecision(s, 0, Msg(0, 0), 0, Permissive(), Remind()).db.outbox[0] == s.db.outbox[0];
  }

  lemma ReminderIsScheduled(s: Sys) returns (s': Sys)
    requires Reachable(s) && s.tasks == map[] && s.batches == map[] && Msg(0, 0) in s.queue
    requires |s.db.cases| == 1 && s.db.cases[0].status == Eligible && s.db.actions == []
    requires |s.db.outbox| == 1 && s.db.outbox[0].event == EligibleEvent(0) && s.db.outbox[0].status == Published
    ensures Reachable(s') && s'.cfg == s.cfg && s'.calls == s.calls && 1 !in s'.tasks && s'.db.inbox == s.db.inbox
    ensures |s'.db.actions| == 1 && |s'.db.outbox| == 2 && s'.db.outbox[1].event == ScheduledEvent(0, 0)
    ensures s'.db.actions[0].status == Approved && s'.db.actions[0].kind == SendReminder
    ensures Lone(s', 1)
  {
    DecisionIsReached(s, 0, Msg(0, 0), 0, Permissive(), Remind());
    ReminderIsDue(s);
    s' := AfterDecision(s, 0, Msg(0, 0), 0, Permissive(), Remind());
  }

  /** The second task claims it. */
  lemma ReminderIsClaimed(s: Sys) returns (s': Sys)
    requires Reachable(s) && 1 !in s.tasks && Msg(1, 0) in s.queue && s.calls == []
    requires |s.db.actions| == 1 && |s.db.outbox| == 2 && s.db.outbox[1].event == ScheduledEvent(0, 0)
    requires s.db.actions[0].status == Approved && s.db.actions[0].kind == SendReminder
    ensures Reachable(s') && s'.cfg == s.cfg && s'.calls == [] && s'.db.inbox == s.db.inbox
    ensures IsHolding(s', 1, 0, 0)
  {
    ScheduledDeliveryClaims(s, 1, Msg(1, 0), 0, 0, Permissive());
    ReachableStep(s, Deliver(1, Msg(1, 0)));
    var s1 := Apply(s, Deliver(1, Msg(1, 0)));
    ReachableStep(s1, ReadEvent(1, Permissive()));
    var s2 := Apply(s1, ReadEvent(1, Permissive()));
    ReachableStep(s2, ClaimAction(1));
    s' := Apply(s2, ClaimAction(1));
  }

  // --------------------------------------------------------------- the run

  /** Under every configuration a worker comes to hold an action. */
  lemma HoldingIsReached(cfg: Config) returns (s: Sys)
    ensures Reachable(s) && s.cfg == cfg && s.calls == [] && IsHolding(s, 1, 0, 0)
    ensures s.db.inbox.Keys == {"1"}
  {
    s := FailureArrives(cfg);
    s := LoneRowIsDispatched(s, 0);
    s := ReminderIsScheduled(s);
    s := LoneRowIsDispatched(s, 1);
    s := ReminderIsClaimed(s);
  }

  /** A capture whose notes name a case is a capture for it. */
  lemma NamedCaseIsTarget(db: Db, c: nat, eventId: string) returns (w: Webhook)
    requires c < |db.cases| && eventId !in db.inbox
    ensures CaptureFor(db, w, c)
  {
    w := Webhook(db.cases[c].merchant, true, eventId, PaymentCaptured(Entity("late", 0, None, Some(c))));
  }

  /** A capture for the case leaves the worker with its action and recovers the case. */
  lemma CapturedWhileHeld(s: Sys, t: nat, a: nat, c: nat, w: Webhook)
    requires Reachable(s) && IsHolding(s, t, a, c) && CaptureFor(s.db, w, c)
    ensures var s' := Apply(s, Receive(w));
            && Reachable(s') && IsHolding(s', t, a, c) && s'.calls == s.calls && s'.cfg == s.cfg
            && c < |s'.db.cases| && s'.db.cases[c].status == Recovered
  {
    ReachableIsGood(s);
    HoldingExecutes(s, t, a, c);
    ExecutingCase(s.db, a);
    WebhookAtCase(s.db, w, s.now, c);
    ReachableStep(s, Receive(w));
  }

  lemma HeldCaseExists(s: Sys, t: nat, a: nat, c: nat)
    requires Reachable(s) && IsHolding(s, t, a, c)
    ensures c < |s.db.cases|
  {
    ReachableIsGood(s);
    HoldingExecutes(s, t, a, c);
  }

  lemma HeldIsCalled(s: Sys, t: nat, a: nat, c: nat, ok: bool)
    requires Reachable(s) && IsHolding(s, t, a, c)
    ensures Reachable(Apply(s, CallProvider(t, ok))) && Apply(s, CallProvider(t, ok)).calls == s.calls + [a]
  {
    ReachableStep(s, CallProvider(t, ok));
  }

  /** A provider call for a case that is RECOVERED: under every configuration a run makes one. */
  lemma CallAfterRecoveryIsReached(cfg: Config, ok: bool) returns (s: Sys)
    ensures Reachable(s) && s.cfg == cfg && IsHolding(s, 1, 0, 0)
    ensures |s.db.cases| > 0 && s.db.cases[0].status == Recovered
    ensures Reachable(Apply(s, CallProvider(1, ok))) && Apply(s, CallProvider(1, ok)).calls == [0]
  {
    var held := HoldingIsReached(cfg);
    HeldCaseExists(held, 1, 0, 0);
    assert "2" !in held.db.inbox.Keys;
    var w := NamedCaseIsTarget(held.db, 0, "2");
    CapturedWhileHeld(held, 1, 0, 0, w);
    s := Apply(held, Receive(w));
    HeldIsCalled(s, 1, 0, 0, ok);
  }

  // ---------------------------------------------------------- a late capture

  /** A capture for the live case `c` has read it and looked for open actions. */
  lemma CaptureLooks(s: Sys, c: nat, w: Webhook) returns (late: LateSys)
    requires Reachable(s) && CaptureFor(s.db, w, c) && c < |s.db.cases| && !IsTerminal(s.db.cases[c].status)
    ensures LateReachable(late) && late == LateSys(s, map[0 := ReadAndCancelled(s.db, w)])
    ensures Settling(late.captures[0]) && late.captures[0].open == Some(OpenActions(s.db.actions, c))
    ensures late.captures[0].w == w && late.captures[0].target == Some(c)
  {
    ReachableIsLateReachable(s);
    LateReachableStep(LateSys(s, map[]), ReadCapture(0, w));
    late := LateApply(LateSys(s, map[]), ReadCapture(0, w));
    LateReachableStep(late, CancelActions(0));
    late := LateApply(late, CancelActions(0));
  }

  /** The decision made while a capture is under way. */
  lemma LateDecision(late: LateSys, t: nat, m: Msg, c: nat, limits: Limits, reply: ModelReply) returns (late': LateSys)
    requires LateReachable(late) && Reachable(late.sys) && Enabled(late.sys, Deliver(t, m))
    requires m.row < |late.sys.db.outbox| && late.sys.db.outbox[m.row].event == EligibleEvent(c)
    requires c < |late.sys.db.cases| && late.sys.db.cases[c].status == Eligible
    ensures LateReachable(late') && late' == late.(sys := AfterDecision(late.sys, t, m, c, limits, reply))
  {
    EligibleDeliveryDecides(late.sys, t, m, c, limits, reply);
    LateReachableStep(late, Base(Deliver(t, m)));
    late' := LateApply(late, Base(Deliver(t, m)));
    LateReachableStep(late', Base(ReadEvent(t, limits)));
    late' := LateApply(late', Base(ReadEvent(t, limits)));
    LateReachableStep(late', Base(DecideCase(t, limits, reply)));
    late' := LateApply(late', Base(DecideCase(t, limits, reply)));
  }

  /** The published failure of a payment and the decision on it, while a capture of it is under way. */
  lemma ReminderWhileCaptured(s: Sys, w: Webhook) returns (late: LateSys)
    requires Reachable(s) && s.tasks == map[] && Msg(0, 0) in s.queue && CaptureFor(s.db, w, 0)
    requires |s.db.cases| == 1 && s.db.cases[0].status == Eligible && s.db.actions == []
    requires |s.db.outbox| == 1 && s.db.outbox[0].event == EligibleEvent(0)
    ensures LateReachable(late) && late.sys.cfg == s.cfg && 0 in late.captures && late.sys.db.inbox == s.db.inbox
    ensures var cap := late.captures[0]; Settling(cap) && cap.w == w && cap.target == Some(0) && cap.open == Some({})
    ensures |late.sys.db.cases| == 1 && |late.sys.db.actions| == 1
    ensures late.sys.db.actions[0].status == Approved && late.sys.db.actions[0].kind == SendReminder
    ensures late.sys.db.actions[0].caseId == 0
  {
    late := CaptureLooks(s, 0, w);
    ReminderIsDecided(s.db.cases[0].amount, s.db.cases[0].category);
    late := LateDecision(late, 0, Msg(0, 0), 0, Permissive(), Remind());
    assert OpenActions([], 0) == {};
  }

  /** Under every configuration a late capture comes to leave an APPROVED executable action in its RECOVERED case. */
  lemma LateCaptureMissesAction(cfg: Config) returns (late: LateSys)
    ensures LateReachable(late) && late.sys.cfg == cfg
    ensures |late.sys.db.cases| == 1 && late.sys.db.cases[0].status == Recovered
    ensures |late.sys.db.actions| == 1 && late.sys.db.actions[0].caseId == 0
    ensures late.sys.db.actions[0].status == Approved && Executable(late.sys.db.actions[0].kind)
  {
    var s := FailureArrives(cfg);
    s := LoneRowIsDispatched(s, 0);
    var w := NamedCaseIsTarget(s.db, 0, "2");
    late := ReminderWhileCaptured(s, w);
    WriteSettles(late.sys.db, late.captures[0], late.sys.now, 0);
    LateReachableStep(late, WriteCase(0));
    late := LateApply(late, WriteCase(0));
  }
}
