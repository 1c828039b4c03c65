/**
 Bounded waiting at the dispatcher: how many batches can pass over a due row.
 */
module BoundedWaiting {
  import opened Domain
  import opened Tables
  import opened Invariants
  import opened Protocol
  import opened Safety
  import opened Theorems

  // ----------------------------------------------------------------- measure

  /** Row `i` stands in front of row `e`, which was created at `at`. */
  predicate InFront(row: OutboxRow, i: nat, e: nat, at: real) {
    i != e && row.status == PendingRow && row.createdAt <= at
  }

  /** The attempts that a row in front may still use up. */
  function AttemptsLeft(row: OutboxRow, i: nat, e: nat, at: real, max: nat): nat {
    if InFront(row, i, e, at) && row.attempts < max then max - row.attempts else 0
  }

  function Owed(outbox: seq<OutboxRow>, e: nat, at: real, max: nat): nat {
    if |outbox| == 0 then 0
    else
      var n := |outbox| - 1;
      Owed(outbox[..n], e, at, max) + AttemptsLeft(outbox[n], n, e, at, max)
  }

  function CountInFront(outbox: seq<OutboxRow>, e: nat, at: real): nat {
    if |outbox| == 0 then 0
    else
      var n := |outbox| - 1;
      CountInFront(outbox[..n], e, at) + (if InFront(outbox[n], n, e, at) then 1 else 0)
  }

  lemma {:induction false} OwedIsBounded(outbox: seq<OutboxRow>, e: nat, at: real, max: nat)
    ensures Owed(outbox, e, at, max) <= CountInFront(outbox, e, at) * max
  {
    if |outbox| > 0 {
      var n := |outbox| - 1;
      OwedIsBounded(outbox[..n], e, at, max);
      var k := CountInFront(outbox[..n], e, at);
      assert (k + 1) * max == k * max + max;
    }
  }

  lemma {:induction false} OwedAfterUpdate(outbox: seq<OutboxRow>, i: nat, row: OutboxRow, e: nat, at: real, max: nat)
    requires i < |outbox|
    ensures Owed(outbox[i := row], e, at, max) ==
            Owed(outbox, e, at, max) - AttemptsLeft(outbox[i], i, e, at, max) + AttemptsLeft(row, i, e, at, max)
  {
    var n := |outbox| - 1;
    if i < n {
      assert outbox[i := row][..n] == outbox[..n][i := row];
      OwedAfterUpdate(outbox[..n], i, row, e, at, max);
    } else {
      assert outbox[i := row][..n] == outbox[..n];
    }
  }

  lemma {:induction false} OwedAfterAppend(outbox: seq<OutboxRow>, outbox': seq<OutboxRow>, now: real, e: nat, at: real, max: nat)
    requires OutboxAppends(outbox, outbox', now) && at < now
    ensures Owed(outbox', e, at, max) == Owed(outbox, e, at, max)
    decreases |outbox'|
  {
    if |outbox'| == |outbox| {
      assert outbox' == outbox;
    } else {
      OwedAfterAppend(outbox, outbox'[..|outbox'| - 1], now, e, at, max);
    }
  }

  /** Attempting rows never adds to what is owed, and takes at least one from it for each row in front. */
  lemma {:induction false} OwedAfterAttempts(outbox: seq<OutboxRow>, sel: seq<nat>, results: seq<bool>, max: nat, e: nat, at: real)
    requires |results| <= |sel| && Distinct(sel)
    requires forall i :: 0 <= i < |sel| ==> sel[i] < |outbox|
    requires forall i :: 0 <= i < |sel| ==> outbox[sel[i]].status == PendingRow && outbox[sel[i]].attempts < max
    ensures var owed' := Owed(AttemptAll(outbox, sel, results, max), e, at, max);
            && owed' <= Owed(outbox, e, at, max)
            && ((forall i :: 0 <= i < |sel| ==> InFront(outbox[sel[i]], sel[i], e, at)) ==>
                  owed' + |results| <= Owed(outbox, e, at, max))
    decreases |results|
  {
    if |results| > 0 {
      var n := |results| - 1;
      var rows := AttemptAll(outbox, sel, results[..n], max);
      OwedAfterAttempts(outbox, sel, results[..n], max, e, at);
      AttemptAllAt(outbox, sel, results[..n], max);
      assert sel[n] !in sel[..n];
      assert rows[sel[n]] == outbox[sel[n]];
      OwedAfterUpdate(rows, sel[n], Attempted(rows[sel[n]], results[n], max), e, at, max);
      assert 0 <= n < |sel|;
    }
  }

  // -------------------------------------------------------------------- steps

  /** Row `e`, created at `at`, is due and pending and nobody has it. */
  ghost predicate Waits(s: Sys, e: nat, at: real) {
    && e < |s.db.outbox| && s.db.outbox[e].createdAt == at < s.now
    && s.db.outbox[e].status == PendingRow && Due(s.db.outbox[e], s.now)
    && e !in Locked(s.batches)
  }

  /** An open batch that passed over `e`: full, and of rows in front of `e` only. */
  ghost predicate PassesOver(s: Sys, d: nat, e: nat, at: real) {
    && d in s.batches
    && |s.batches[d].sel| == s.cfg.batchSize
    && e !in s.batches[d].sel
    && forall i | 0 <= i < |s.batches[d].sel| ::
         s.batches[d].sel[i] < |s.db.outbox| && s.db.outbox[s.batches[d].sel[i]].createdAt <= at
  }

  ghost predicate AllPassOver(s: Sys, begun: set<nat>, e: nat, at: real) {
    forall d | d in begun :: PassesOver(s, d, e, at)
  }

  function Begun(begun: set<nat>, step: Step): set<nat> {
    match step
    case BatchBegin(d, _) => begun + {d}
    case BatchCommit(d) => begun - {d}
    case BatchAbort(d) => begun - {d}
    case _ => begun
  }

  function Commits(begun: set<nat>, step: Step): nat {
    if step.BatchCommit? && step.d in begun then 1 else 0
  }

  /** The committed batches among those that the steps begin (or that are in `begun` already). */
  function CommittedBatches(begun: set<nat>, steps: seq<Step>): nat
    decreases |steps|
  {
    if |steps| == 0 then 0
    else Commits(begun, steps[0]) + CommittedBatches(Begun(begun, steps[0]), steps[1..])
  }

  predicate NeverPicked(e: nat, steps: seq<Step>) {
    forall i | 0 <= i < |steps| :: steps[i].BatchBegin? ==> e !in steps[i].sel
  }

  lemma WorkersAppend(s: Sys, step: Step)
    requires Inv(s) && Enabled(s, step) && IsWorkerStep(step)
    ensures OutboxAppends(s.db.outbox, Apply(s, step).db.outbox, s.now)
  {
    WorkerStepWorks(s, step);
    assert TaskOk(s.db, s.now, s.calls, s.tasks[step.t]);
    WorkIsOk(s.db, s.now, s.calls, s.tasks[step.t], step);
  }

  lemma OthersAppend(s: Sys, step: Step)
    requires Inv(s) && Enabled(s, step) && !step.BatchCommit?
    ensures OutboxAppends(s.db.outbox, Apply(s, step).db.outbox, s.now)
  {
    if step.Receive? {
      HandleLeavesWorkers(s.db, step.w.merchant, step.w.delivery, s.now);
    } else if IsWorkerStep(step) {
      WorkersAppend(s, step);
    } else {
      assert Apply(s, step).db == s.db;
    }
  }

  lemma BatchesStayClearOf(s: Sys, step: Step, e: nat)
    requires Enabled(s, step) && e !in Locked(s.batches)
    requires step.BatchBegin? ==> e !in step.sel
    ensures e !in Locked(Apply(s, step).batches)
  {
  }

  lemma OtherStepLeavesWaiting(s: Sys, step: Step, e: nat, at: real)
    requires Inv(s) && Enabled(s, step) && !step.BatchCommit? && Waits(s, e, at)
    requires step.BatchBegin? ==> e !in step.sel
    ensures var s' := Apply(s, step);
            && Waits(s', e, at)
            && Owed(s'.db.outbox, e, at, s.cfg.maxAttempts) == Owed(s.db.outbox, e, at, s.cfg.maxAttempts)
  {
    var s' := Apply(s, step);
    OthersAppend(s, step);
    OwedAfterAppend(s.db.outbox, s'.db.outbox, s.now, e, at, s.cfg.maxAttempts);
    assert s'.db.outbox[e] == s.db.outbox[e];
    BatchesStayClearOf(s, step, e);
    StepEvolves(s, step);
  }

  lemma BeginPassesOver(s: Sys, d: nat, sel: seq<nat>, e: nat, at: real)
    requires Enabled(s, BatchBegin(d, sel)) && Waits(s, e, at) && e !in sel
    ensures PassesOver(Apply(s, BatchBegin(d, sel)), d, e, at)
  {
  }

  lemma OpenBatchesStay(s: Sys, step: Step, d: nat)
    requires Enabled(s, step) && d in s.batches && !step.BatchCommit?
    requires step.BatchAbort? ==> step.d != d
    ensures d in Apply(s, step).batches && Apply(s, step).batches[d].sel == s.batches[d].sel
    ensures Apply(s, step).cfg == s.cfg
  {
  }

  lemma OtherStepPassesOver(s: Sys, step: Step, begun: set<nat>, e: nat, at: real)
    requires Inv(s) && Enabled(s, step) && !step.BatchCommit?
    requires Waits(s, e, at) && AllPassOver(s, begun, e, at)
    requires step.BatchBegin? ==> e !in step.sel
    ensures AllPassOver(Apply(s, step), Begun(begun, step), e, at)
  {
    var s' := Apply(s, step);
    OthersAppend(s, step);
    forall d | d in Begun(begun, step) ensures PassesOver(s', d, e, at) {
      if step.BatchBegin? && step.d == d {
        BeginPassesOver(s, d, step.sel, e, at);
      } else {
        assert PassesOver(s, d, e, at);
        OpenBatchesStay(s, step, d);
        var sel := s.batches[d].sel;
        assert forall i | 0 <= i < |sel| :: s'.db.outbox[sel[i]] == s.db.outbox[sel[i]];
      }
    }
  }

  lemma CommitPaysOff(s: Sys, d: nat, begun: set<nat>, e: nat, at: real)
    requires Inv(s) && Enabled(s, BatchCommit(d))
    requires Waits(s, e, at) && AllPassOver(s, begun, e, at)
    ensures var s', paid := Apply(s, BatchCommit(d)), if d in begun then s.cfg.batchSize else 0;
            && Waits(s', e, at) && AllPassOver(s', begun - {d}, e, at)
            && paid + Owed(s'.db.outbox, e, at, s.cfg.maxAttempts) <= Owed(s.db.outbox, e, at, s.cfg.maxAttempts)
  {
    var s', b, max := Apply(s, BatchCommit(d)), s.batches[d], s.cfg.maxAttempts;
    assert BatchOk(s, b);
    forall i | 0 <= i < |b.sel| ensures s.db.outbox[b.sel[i]].attempts < max && b.sel[i] != e {
      assert RowStateOk(s, b.sel[i]);
      assert b.sel[i] in b.sel;
    }
    OwedAfterAttempts(s.db.outbox, b.sel, b.results, max, e, at);
    assert d in begun ==> PassesOver(s, d, e, at);
    BatchesStayClearOf(s, BatchCommit(d), e);
    assert e !in b.sel;
    CommitRow(s, s', d, e);
    forall f | f in begun - {d} ensures PassesOver(s', f, e, at) {
      assert PassesOver(s, f, e, at);
      forall i | 0 <= i < |s.batches[f].sel|
        ensures s'.db.outbox[s.batches[f].sel[i]].createdAt == s.db.outbox[s.batches[f].sel[i]].createdAt
      {
        CommitRow(s, s', d, s.batches[f].sel[i]);
      }
    }
  }

  ghost predicate Tracked(s: Sys, begun: set<nat>, e: nat, at: real) {
    Inv(s) && Waits(s, e, at) && AllPassOver(s, begun, e, at)
  }

  /** The attempts owed in front of `e` under the system's limit. */
  ghost function Debt(s: Sys, e: nat, at: real): nat {
    Owed(s.db.outbox, e, at, s.cfg.maxAttempts)
  }

  /** What a step that does not pick `e` takes from the debt covers the batch it commits. */
  lemma StepIsPaidFor(s: Sys, step: Step, begun: set<nat>, e: nat, at: real)
    requires Inv(s) && Enabled(s, step)
    requires Waits(s, e, at) && AllPassOver(s, begun, e, at)
    requires step.BatchBegin? ==> e !in step.sel
    ensures var s', max := Apply(s, step), s.cfg.maxAttempts;
            && Waits(s', e, at) && AllPassOver(s', Begun(begun, step), e, at)
            && s.cfg.batchSize * Commits(begun, step) + Owed(s'.db.outbox, e, at, max) <= Owed(s.db.outbox, e, at, max)
  {
    if step.BatchCommit? {
      CommitPaysOff(s, step.d, begun, e, at);
    } else {
      OtherStepPassesOver(s, step, begun, e, at);
      OtherStepLeavesWaiting(s, step, e, at);
    }
  }

  lemma StepIsTracked(s: Sys, step: Step, begun: set<nat>, e: nat, at: real)
    requires Tracked(s, begun, e, at) && Enabled(s, step)
    requires step.BatchBegin? ==> e !in step.sel
    ensures var s' := Apply(s, step);
            && Tracked(s', Begun(begun, step), e, at) && s'.cfg == s.cfg
            && s.cfg.batchSize * Commits(begun, step) + Debt(s', e, at) <= Debt(s, e, at)
  {
    StepKeeps(s, step);
    StepEvolves(s, step);
    StepIsPaidFor(s, step, begun, e, at);
  }

  lemma PaidTwice(l: nat, m: nat, n: nat, sum: nat, rest: nat, total: nat)
    requires sum == m + n && l * n <= rest && l * m + rest <= total
    ensures l * sum <= total
  {
  }

  lemma {:induction false} PassingOverIsPaidFor(s: Sys, steps: seq<Step>, begun: set<nat>, e: nat, at: real)
    requires ValidRun(s, steps) && Tracked(s, begun, e, at) && NeverPicked(e, steps)
    ensures s.cfg.batchSize * CommittedBatches(begun, steps) <= Debt(s, e, at)
    decreases |steps|
  {
    var total := CommittedBatches(begun, steps);
    if |steps| == 0 {
      assert s.cfg.batchSize * total == 0;
    } else {
      var step, rest := steps[0], steps[1..];
      var s', begun' := Apply(s, step), Begun(begun, step);
      assert step.BatchBegin? ==> e !in step.sel;
      StepIsTracked(s, step, begun, e, at);
      assert NeverPicked(e, rest);
      PassingOverIsPaidFor(s', rest, begun', e, at);
      PaidTwice(s.cfg.batchSize, Commits(begun, step), CommittedBatches(begun', rest), total, Debt(s', e, at), Debt(s, e, at));
    }
  }

  /**
   Bounded waiting. With batches of L rows and M attempts per row, a due row
   with k pending rows in front of it is passed over by at most k*M/L batches
   that begin from now on and commit, even if every publish fails, whatever
   else the system does and however many dispatchers run.
   */
  lemma PassedOverAtMost(s: Sys, steps: seq<Step>, e: nat, at: real)
    requires Reachable(s) && ValidRun(s, steps)
    requires Waits(s, e, at) && NeverPicked(e, steps)
    ensures s.cfg.batchSize * CommittedBatches({}, steps) <= CountInFront(s.db.outbox, e, at) * s.cfg.maxAttempts
  {
    ReachableIsGood(s);
    PassingOverIsPaidFor(s, steps, {}, e, at);
    OwedIsBounded(s.db.outbox, e, at, s.cfg.maxAttempts);
  }
}
