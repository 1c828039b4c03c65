/**
 What holds in every run of the system.
 */
module Theorems {
  import opened Domain
  import opened Policy
  import opened Tables
  import opened Invariants
  import opened Protocol
  import opened Safety

  /** The states that some run from an empty system ends in. */
  ghost predicate Reachable(s: Sys) {
    exists cfg, steps :: ValidRun(Init(cfg), steps) && Run(Init(cfg), steps) == s
  }

  lemma {:induction false} RunOneMore(s: Sys, steps: seq<Step>, step: Step)
    requires ValidRun(s, steps) && Enabled(Run(s, steps), step)
    ensures ValidRun(s, steps + [step]) && Run(s, steps + [step]) == Apply(Run(s, steps), step)
    decreases |steps|
  {
    if |steps| > 0 {
      assert (steps + [step])[1..] == steps[1..] + [step];
      RunOneMore(Apply(s, steps[0]), steps[1..], step);
    } else {
      assert Run(Apply(s, step), [step][1..]) == Apply(s, step);
    }
  }

  lemma ReachableStep(s: Sys, step: Step)
    requires Reachable(s) && Enabled(s, step)
    ensures Reachable(Apply(s, step))
  {
    var cfg, steps :| ValidRun(Init(cfg), steps) && Run(Init(cfg), steps) == s;
    RunOneMore(Init(cfg), steps, step);
    assert ValidRun(Init(cfg), steps + [step]);
  }

  lemma InitIsReachable(cfg: Config)
    ensures Reachable(Init(cfg))
  {
    assert ValidRun(Init(cfg), []) && Run(Init(cfg), []) == Init(cfg);
  }

  lemma ReachableIsGood(s: Sys)
    requires Reachable(s)
    ensures Inv(s)
  {
    var cfg, steps :| ValidRun(Init(cfg), steps) && Run(Init(cfg), steps) == s;
    InitKeeps(cfg);
    RunKeeps(Init(cfg), steps);
  }

  // ----------------------------------------------------------- provider calls

  /**
   In every run, with any number of workers, redeliveries, retries, repeated
   publications and crashes, at most one provider call is made per case.
   */
  lemma AtMostOneCallPerCase(s: Sys, i: nat, j: nat)
    requires Reachable(s) && i < j < |s.calls|
    ensures s.calls[i] < |s.db.actions| && s.calls[j] < |s.db.actions|
    ensures s.db.actions[s.calls[i]].caseId != s.db.actions[s.calls[j]].caseId
  {
    ReachableIsGood(s);
    var a, b := s.calls[i], s.calls[j];
    assert CalledOk(s.db, a) && CalledOk(s.db, b);
    OtherActions(s.db, a);
  }

  /** What a claim does and answers, given that its reading is right while the action is APPROVED. */
  lemma ClaimOutcomes(db: Db, a: nat, read: ClaimRead)
    requires DbInv(db) && a < |db.actions| && db.actions[a].caseId < |db.cases|
    requires Executable(db.actions[a].kind) && ClaimReadOk(db, a, read)
    ensures var r, c := ClaimTx(db, a, read), db.actions[a].caseId;
            && (db.actions[a].status != Approved ==>
                  r == ClaimResult(db, if !read.allowed then CancelledByPolicy
                                       else if read.action.status != Approved then NotApproved
                                       else NotClaimable))
            && (db.actions[a].status == Approved ==>
                  && db.cases[c].status == ActionScheduled
                  && r == if read.allowed then
                            ClaimResult(
                              db.(actions := db.actions[a := db.actions[a].(status := Executing)],
                                  audit := db.audit + [ClaimedAudit(a, c)]),
                              Claimed)
                          else
                            ClaimResult(
                              db.(actions := db.actions[a := db.actions[a].(status := Cancelled)],
                                  cases := db.cases[c := db.cases[c].(status := Stopped, version := 6)],
                                  audit := db.audit + [CancelledAudit(a, c, ActionScheduled)]),
                              CancelledByPolicy))
  {
    assert ActionOk(db, a) && CaseOk(db, db.actions[a].caseId);
  }

  /**
   No stale claim. The claim reads the case first and writes the action row
   later; still, when its compare-and-set wins, the case is ACTION_SCHEDULED at
   that instant. A win either starts execution and leaves the case alone or
   cancels the action and stops the case; a loss changes nothing at all.
   */
  lemma ClaimIsNeverStale(s: Sys, t: nat)
    requires Reachable(s) && Enabled(s, ClaimAction(t))
    ensures var a := s.tasks[t].phase.a;
            var s' := Apply(s, ClaimAction(t));
            && a < |s.db.actions| && s.db.actions[a].caseId < |s.db.cases|
            && var c := s.db.actions[a].caseId;
            && (s.db.actions[a].status != Approved ==> s'.db == s.db)
            && (s.db.actions[a].status == Approved ==>
                  && s.db.cases[c].status == ActionScheduled
                  && |s'.db.actions| == |s.db.actions| && |s'.db.cases| == |s.db.cases|
                  && if s.tasks[t].phase.read.allowed
                     then s'.db.actions[a].status == Executing && s'.db.cases == s.db.cases
                     else s'.db.actions[a].status == Cancelled && s'.db.cases[c].status == Stopped)
  {
    ReachableIsGood(s);
    var a := s.tasks[t].phase.a;
    assert TaskOk(s.db, s.now, s.calls, s.tasks[t]);
    assert RowOk(s.db, s.tasks[t].msg.row);
    ClaimOutcomes(s.db, a, s.tasks[t].phase.read);
  }

  /** No early execution: a claim that wins comes no sooner than the action's due time. */
  lemma ClaimIsNeverEarly(s: Sys, t: nat)
    requires Reachable(s) && Enabled(s, ClaimAction(t))
    ensures var a := s.tasks[t].phase.a;
            && a < |s.db.actions| && s.db.actions[a].caseId < |s.db.cases|
            && var action := s.db.actions[a];
            var row := s.db.cases[action.caseId];
            && s.now >= action.createdAt + DelayOf(row.amount, row.category, action.kind)
            && (action.kind == Wait ==> s.now >= action.createdAt + 1.0)
  {
    ReachableIsGood(s);
    assert TaskOk(s.db, s.now, s.calls, s.tasks[t]);
    assert RowOk(s.db, s.tasks[t].msg.row);
  }

  // ----------------------------------------------------------------- history

  /** Replaying the audit log rebuilds the status and the version of every case. */
  lemma AuditRebuildsEveryCase(s: Sys, c: nat)
    requires Reachable(s)
    ensures Replay(s.db.audit, c) ==
            if c < |s.db.cases| then Some(Standing(s.db.cases[c].status, s.db.cases[c].version)) else None
  {
    ReachableIsGood(s);
    if c < |s.db.cases| {
      assert CaseOk(s.db, c);
    }
  }

  ghost function ActionsOf(db: Db, c: nat): set<nat> {
    set a: nat | a < |db.actions| && db.actions[a].caseId == c
  }

  /** A case and its actions, in every reachable state. */
  lemma CaseAndActionAreCoupled(s: Sys, c: nat)
    requires Reachable(s) && c < |s.db.cases|
    ensures var row := s.db.cases[c];
            var actions := ActionsOf(s.db, c);
            && row.status !in {Failed, Analysing, ActionSelected}
            && |actions| <= 1
            && (row.status == Eligible ==> actions == {})
            && (row.status in {ActionScheduled, Waiting, Stopped, Escalated} ==> |actions| == 1)
            && forall a | a in actions :: Coupled(s.db.actions[a].kind, s.db.actions[a].status, row.status)
  {
    ReachableIsGood(s);
    assert CaseOk(s.db, c);
    var actions := ActionsOf(s.db, c);
    forall a | a in actions
      ensures Coupled(s.db.actions[a].kind, s.db.actions[a].status, s.db.cases[c].status)
      ensures actions == {a}
    {
      assert ActionOk(s.db, a);
      OtherActions(s.db, a);
    }
    if HasAction(s.db.actions, c) {
      var a :| 0 <= a < |s.db.actions| && s.db.actions[a].caseId == c;
      assert a in actions;
      assert |{a}| == 1;
    } else {
      assert actions == {};
    }
  }

  lemma DecisionGoesThrough(db: Db, c: nat, seen: CaseRow, limits: Limits, reply: ModelReply, now: real)
    requires DbInv(db) && c < |db.cases| && SameCase(seen, db.cases[c]) && seen.status == Eligible && seen.version == 2
    ensures var r := DecideTx(db, c, seen, limits, reply, now);
            && r.outcome == (if db.cases[c].status == Eligible then DecisionMade else StaleJob)
            && (r.outcome == DecisionMade ==> |r.db.actions| == |db.actions| + 1)
            && (r.outcome == StaleJob ==> r.db == db)
  {
    assert CaseOk(db, c);
    DecideKeeps(db, c, seen, limits, reply, now);
  }

  /**
   A decision that wins its guard always goes through to the end: the branches
   for an existing action or a state conflict further on are never taken.
   */
  lemma DecisionNeverStallsHalfway(s: Sys, t: nat, limits: Limits, reply: ModelReply)
    requires Reachable(s) && Enabled(s, DecideCase(t, limits, reply))
    ensures var p := s.tasks[t].phase;
            var r := DecideTx(s.db, p.c, p.seen, limits, reply, s.now);
            && p.c < |s.db.cases|
            && r.outcome == (if s.db.cases[p.c].status == Eligible then DecisionMade else StaleJob)
            && (r.outcome == DecisionMade ==> r.db.cases[p.c].version == 5 && |r.db.actions| == |s.db.actions| + 1)
            && (r.outcome == StaleJob ==> r.db == s.db)
  {
    ReachableIsGood(s);
    assert TaskOk(s.db, s.now, s.calls, s.tasks[t]);
    var p := s.tasks[t].phase;
    DecideKeeps(s.db, p.c, p.seen, limits, reply, s.now);
    DecisionGoesThrough(s.db, p.c, p.seen, limits, reply, s.now);
  }

  /** What is called for is always one of the three executable types. */
  lemma OnlyExecutableActionsAreCalled(s: Sys, t: nat)
    requires Reachable(s) && t in s.tasks && Held(s.tasks[t].phase).Some?
    ensures var a := Held(s.tasks[t].phase).value; a < |s.db.actions| && Executable(s.db.actions[a].kind)
  {
    ReachableIsGood(s);
    assert TaskOk(s.db, s.now, s.calls, s.tasks[t]);
    assert RowOk(s.db, s.tasks[t].msg.row);
  }

  /** The actions of case `c`, but for `exclude`, that were not denied or cancelled. */
  ghost function Effective(actions: seq<ActionRow>, c: nat, exclude: Option<nat>): set<nat> {
    set a: nat | a < |actions| && actions[a].caseId == c && exclude != Some(a) && actions[a].status !in {Denied, Cancelled}
  }

  ghost function Reminders(actions: seq<ActionRow>, c: nat, exclude: Option<nat>): set<nat> {
    set a: nat | a < |actions| && actions[a].caseId == c && exclude != Some(a)
                 && actions[a].status !in {Denied, Cancelled} && actions[a].kind == SendReminder
  }

  ghost function ActiveLinks(actions: seq<ActionRow>, c: nat, exclude: Option<nat>): set<nat> {
    set a: nat | a < |actions| && actions[a].caseId == c && exclude != Some(a)
                 && actions[a].status in {PendingAction, Approved, Executing} && actions[a].kind == CreatePaymentLink
  }

  lemma OneActionMore(front: seq<ActionRow>, row: ActionRow, c: nat, exclude: Option<nat>)
    ensures var n, actions := |front|, front + [row];
            var counted := row.caseId == c && exclude != Some(n);
            var effective := counted && row.status !in {Denied, Cancelled};
            && Effective(actions, c, exclude) == Effective(front, c, exclude) + (if effective then {n} else {})
            && Reminders(actions, c, exclude) ==
               Reminders(front, c, exclude) + (if effective && row.kind == SendReminder then {n} else {})
            && ActiveLinks(actions, c, exclude) ==
               ActiveLinks(front, c, exclude)
               + (if counted && row.kind == CreatePaymentLink && row.status in {PendingAction, Approved, Executing} then {n} else {})
  {
  }

  lemma SizesGrow(front: seq<ActionRow>, row: ActionRow, c: nat, exclude: Option<nat>)
    ensures var n, actions := |front|, front + [row];
            var counted := row.caseId == c && exclude != Some(n);
            var effective := counted && row.status !in {Denied, Cancelled};
            && |Effective(actions, c, exclude)| == |Effective(front, c, exclude)| + (if effective then 1 else 0)
            && |Reminders(actions, c, exclude)| ==
               |Reminders(front, c, exclude)| + (if effective && row.kind == SendReminder then 1 else 0)
            && |ActiveLinks(actions, c, exclude)| ==
               |ActiveLinks(front, c, exclude)|
               + (if counted && row.kind == CreatePaymentLink && row.status in {PendingAction, Approved, Executing} then 1 else 0)
  {
    OneActionMore(front, row, c, exclude);
  }

  lemma CountGrows(front: seq<ActionRow>, row: ActionRow, c: nat, exclude: Option<nat>)
    ensures var n, rest, counts := |front|, CountActions(front, c, exclude), CountActions(front + [row], c, exclude);
            var counted := row.caseId == c && exclude != Some(n);
            var effective := counted && row.status !in {Denied, Cancelled};
            counts == Counts(
              rest.total + (if effective then 1 else 0),
              rest.reminders + (if effective && row.kind == SendReminder then 1 else 0),
              rest.activeLinks
              + (if counted && row.kind == CreatePaymentLink && row.status in {PendingAction, Approved, Executing} then 1 else 0))
  {
    assert (front + [row])[..|front|] == front;
  }

  /** The three counts are the sizes of three sets of actions. */
  lemma {:induction false} CountsAreSizes(actions: seq<ActionRow>, c: nat, exclude: Option<nat>)
    ensures CountActions(actions, c, exclude) ==
            Counts(|Effective(actions, c, exclude)|, |Reminders(actions, c, exclude)|, |ActiveLinks(actions, c, exclude)|)
  {
    if |actions| > 0 {
      var front, row := actions[..|actions| - 1], actions[|actions| - 1];
      assert actions == front + [row];
      CountsAreSizes(front, c, exclude);
      CountGrows(front, row, c, exclude);
      SizesGrow(front, row, c, exclude);
    }
  }

  lemma {:induction false} CountIsZero(actions: seq<ActionRow>, c: nat, exclude: Option<nat>)
    requires forall a: nat | a < |actions| && actions[a].caseId == c :: exclude == Some(a)
    ensures CountActions(actions, c, exclude) == Counts(0, 0, 0)
  {
    if |actions| > 0 {
      CountIsZero(actions[..|actions| - 1], c, exclude);
    }
  }

  /**
   The limits on what a case has already received never bite: whenever the
   policy is asked, at decision or at execution, all three counts are zero.
   */
  lemma PolicyAlwaysSeesZeroCounts(s: Sys, c: nat)
    requires Reachable(s) && c < |s.db.cases|
    ensures s.db.cases[c].status == Eligible ==> CountActions(s.db.actions, c, None) == Counts(0, 0, 0)
    ensures forall a | 0 <= a < |s.db.actions| && s.db.actions[a].caseId == c ::
              CountActions(s.db.actions, c, Some(a)) == Counts(0, 0, 0)
  {
    ReachableIsGood(s);
    if s.db.cases[c].status == Eligible {
      forall a: nat | a < |s.db.actions| ensures s.db.actions[a].caseId != c {
        assert ActionOk(s.db, a);
      }
      CountIsZero(s.db.actions, c, None);
    }
    forall a | 0 <= a < |s.db.actions| && s.db.actions[a].caseId == c
      ensures CountActions(s.db.actions, c, Some(a)) == Counts(0, 0, 0)
    {
      OtherActions(s.db, a);
      CountIsZero(s.db.actions, c, Some(a));
    }
  }

  // ---------------------------------------------------------------- versions

  /**
   Between any two moments of a run a case's row is untouched or its version
   has grown; so equal versions mean equal rows, terminal rows are frozen, and
   no version passes 7 although the transition table has cycles.
   */
  lemma VersionsNeverRepeat(s: Sys, steps: seq<Step>, c: nat)
    requires Reachable(s) && ValidRun(s, steps) && c < |s.db.cases|
    ensures |s.db.cases| <= |Run(s, steps).db.cases|
    ensures var row, row' := s.db.cases[c], Run(s, steps).db.cases[c];
            && row.version <= row'.version <= 7
            && (row.version == row'.version ==> row == row')
            && (IsTerminal(row.status) ==> row == row')
  {
    ReachableIsGood(s);
    RunKeeps(s, steps);
    var s' := Run(s, steps);
    assert CaseStep(s.db.cases[c], s'.db.cases[c]);
    assert CaseOk(s'.db, c);
  }

  /** A guarded update succeeds exactly when nothing changed since its read. */
  lemma GuardHoldsIffUntouched(s: Sys, steps: seq<Step>, c: nat, next: CaseStatus)
    requires Reachable(s) && ValidRun(s, steps) && c < |s.db.cases|
    ensures var seen, cases := s.db.cases[c], Run(s, steps).db.cases;
            && c < |cases|
            && (GuardedUpdate(cases, c, seen.status, seen.version, next) != cases <==> cases[c] == seen)
  {
    VersionsNeverRepeat(s, steps, c);
    var seen, cases := s.db.cases[c], Run(s, steps).db.cases;
    if cases[c] == seen {
      assert GuardedUpdate(cases, c, seen.status, seen.version, next)[c].version == seen.version + 1;
    }
  }

  // -------------------------------------------------------------- lost work

  /** The row still waits in the outbox, or giving up on publishing it is on record. */
  ghost predicate Carried(s: Sys, r: nat) {
    && r < |s.db.outbox|
    && (s.db.outbox[r].status == PendingRow
        || (s.db.outbox[r].status == FailedRow && s.db.outbox[r].attempts == s.cfg.maxAttempts)
        || r in s.givenUp || Queued(s, r) || InFlight(s, r))
  }

  lemma UnsettledIsCarried(s: Sys, r: nat)
    requires Inv(s) && r < |s.db.outbox| && !Settled(s.db, r)
    ensures Carried(s, r)
  {
    assert RowStateOk(s, r);
    if s.db.outbox[r].status == Published {
      assert Reached(s, r);
    }
  }

  /**
   No work is lost silently: every ELIGIBLE case and every APPROVED executable
   action has an outbox row that is still pending, or whose message is queued
   or in flight, or for which giving up is on record.
   */
  lemma NoWorkIsLost(s: Sys)
    requires Reachable(s)
    ensures forall c: nat | c < |s.db.cases| && s.db.cases[c].status == Eligible ::
              exists r: nat :: Carried(s, r) && s.db.outbox[r].event == EligibleEvent(c)
    ensures forall a: nat | a < |s.db.actions| && s.db.actions[a].status == Approved && Executable(s.db.actions[a].kind) ::
              exists r: nat :: Carried(s, r) && s.db.outbox[r].event == ScheduledEvent(s.db.actions[a].caseId, a)
  {
    ReachableIsGood(s);
    forall c: nat | c < |s.db.cases| && s.db.cases[c].status == Eligible
      ensures exists r: nat :: Carried(s, r) && s.db.outbox[r].event == EligibleEvent(c)
    {
      assert CaseOk(s.db, c);
      var r: nat :| r < |s.db.outbox| && s.db.outbox[r].event == EligibleEvent(c);
      UnsettledIsCarried(s, r);
    }
    forall a: nat | a < |s.db.actions| && s.db.actions[a].status == Approved && Executable(s.db.actions[a].kind)
      ensures exists r: nat :: Carried(s, r) && s.db.outbox[r].event == ScheduledEvent(s.db.actions[a].caseId, a)
    {
      assert ActionOk(s.db, a);
      var r: nat :| r < |s.db.outbox| && s.db.outbox[r].event == ScheduledEvent(s.db.actions[a].caseId, a);
      UnsettledIsCarried(s, r);
    }
  }

  /** The rows of the outbox under any number of concurrent dispatchers and aborted batches. */
  lemma OutboxRowsAreSound(s: Sys, r: nat)
    requires Reachable(s) && r < |s.db.outbox|
    ensures var row := s.db.outbox[r];
            && (row.status == PendingRow ==> row.attempts < s.cfg.maxAttempts)
            && (row.status == FailedRow ==> row.attempts == s.cfg.maxAttempts)
            && (row.status == Published ==> r in s.sent)
            && s.publications[r] == (if row.status == Published then 1 else 0)
  {
    ReachableIsGood(s);
    assert RowStateOk(s, r);
  }

  /** A batch that commits counts one attempt for each of its rows, and changes nothing else about any row but its status. */
  lemma CommitCountsAttempts(s: Sys, d: nat, i: nat)
    requires Reachable(s) && Enabled(s, BatchCommit(d)) && i < |s.batches[d].sel|
    ensures var r, published := s.batches[d].sel[i], s.batches[d].results[i];
            var outbox, outbox', max := s.db.outbox, Apply(s, BatchCommit(d)).db.outbox, s.cfg.maxAttempts;
            && r < |outbox| == |outbox'|
            && outbox[r].status == PendingRow
            && outbox'[r] == OutboxRow(
                 outbox[r].merchant, outbox[r].event,
                 if published then Published else if outbox[r].attempts + 1 == max then FailedRow else PendingRow,
                 outbox[r].attempts + 1, outbox[r].createdAt, outbox[r].deliverAt)
  {
    ReachableIsGood(s);
    assert BatchOk(s, s.batches[d]);
    var r := s.batches[d].sel[i];
    assert RowStateOk(s, r);
    CommitAt(s, Apply(s, BatchCommit(d)), d, r);
  }

  /** A task that raises is queued again with one retry more, until it has used five; then giving up is on record. */
  lemma RetriesEndAtFive(s: Sys, t: nat)
    requires Reachable(s) && Enabled(s, RetryTask(t))
    ensures var m, s' := s.tasks[t].msg, Apply(s, RetryTask(t));
            && m.retries <= 5 && t !in s'.tasks
            && (m.retries < 5 ==> s'.queue == s.queue + multiset{Msg(m.row, m.retries + 1)} && s'.givenUp == s.givenUp)
            && (m.retries == 5 ==> s'.queue == s.queue && s'.givenUp == s.givenUp + {m.row})
  {
    ReachableIsGood(s);
    assert TaskOk(s.db, s.now, s.calls, s.tasks[t]);
  }
}
