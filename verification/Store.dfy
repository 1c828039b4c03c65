/**
 The services as they are written: methods that change the tables step by
 step, each proved to do what its transaction is specified to do in `Tables`.
 */
module Services {
  import opened Domain
  import opened Policy
  import opened Tables

  datatype TransitionResult = InvalidStateTransition | RowCount(rows: nat)

  /** The rows that were enqueued, in order. */
  function Enqueued(sel: seq<nat>, results: seq<bool>): seq<nat>
    requires |results| <= |sel|
  {
    if |results| == 0 then []
    else
      var n := |results| - 1;
      Enqueued(sel, results[..n]) + (if results[n] then [sel[n]] else [])
  }

  lemma OneMoreAttempt(outbox: seq<OutboxRow>, sel: seq<nat>, results: seq<bool>, accepted: bool, maxAttempts: nat)
    requires |results| < |sel| && forall i :: 0 <= i < |sel| ==> sel[i] < |outbox|
    ensures var k, rows := |results|, AttemptAll(outbox, sel, results, maxAttempts);
            && AttemptAll(outbox, sel, results + [accepted], maxAttempts) == rows[sel[k] := Attempted(rows[sel[k]], accepted, maxAttempts)]
            && Enqueued(sel, results + [accepted]) == Enqueued(sel, results) + if accepted then [sel[k]] else []
  {
    assert (results + [accepted])[..|results|] == results;
  }

  class Store {
    var payments: seq<PaymentRow>
    var cases: seq<CaseRow>
    var actions: seq<ActionRow>
    var outbox: seq<OutboxRow>
    var inbox: map<string, InboxRow>
    var audit: seq<AuditEntry>
    /** The broker: the outbox ids enqueued so far. */
    var queue: seq<nat>

    ghost function View(): Db
      reads this
    {
      Db(payments, cases, actions, outbox, inbox, audit)
    }

    constructor ()
      ensures View() == EMPTY_DB && queue == []
    {
      payments, cases, actions, outbox, inbox, audit, queue := [], [], [], [], map[], [], [];
    }

    // ------------------------------------------------------------- case rows

    method AtomicTransitionRecoveryCase(c: nat, expected: CaseStatus, version: nat, next: CaseStatus)
        returns (r: TransitionResult)
      modifies this`cases
      ensures r.InvalidStateTransition? <==> !ValidTransition(expected, next)
      ensures r.InvalidStateTransition? ==> cases == old(cases)
      ensures r.RowCount? ==> cases == GuardedUpdate(old(cases), c, expected, version, next)
      ensures r.RowCount? ==>
                r.rows == if c < |old(cases)| && old(cases)[c].status == expected && old(cases)[c].version == version then 1 else 0
    {
      if !ValidTransition(expected, next) {
        return InvalidStateTransition;
      }
      if c < |cases| && cases[c].status == expected && cases[c].version == version {
        cases := cases[c := cases[c].(status := next, version := version + 1)];
        return RowCount(1);
      }
      return RowCount(0);
    }

    method AtomicTransitionWithNextActionAt(c: nat, expected: CaseStatus, version: nat, next: CaseStatus, nextActionAt: real)
        returns (r: TransitionResult)
      modifies this`cases
      ensures r.InvalidStateTransition? <==> !ValidTransition(expected, next)
      ensures r.InvalidStateTransition? ==> cases == old(cases)
      ensures r.RowCount? ==>
                if c < |old(cases)| && old(cases)[c].status == expected && old(cases)[c].version == version
                then r.rows == 1 && cases == old(cases)[c := old(cases)[c].(status := next, version := version + 1, nextActionAt := Some(nextActionAt))]
                else r.rows == 0 && cases == old(cases)
    {
      r := AtomicTransitionRecoveryCase(c, expected, version, next);
      if r == RowCount(1) {
        cases := cases[c := cases[c].(nextActionAt := Some(nextActionAt))];
      }
    }

    /** The unguarded writer: assigns status and version of the row it was given. */
    method TransitionRecoveryCase(c: nat, next: CaseStatus) returns (valid: bool)
      requires c < |cases|
      modifies this`cases
      ensures valid <==> ValidTransition(old(cases)[c].status, next)
      ensures cases == if valid && old(cases)[c].status != next
                       then old(cases)[c := old(cases)[c].(status := next, version := old(cases)[c].version + 1)]
                       else old(cases)
    {
      valid := ValidTransition(cases[c].status, next);
      if valid && cases[c].status != next {
        cases := cases[c := cases[c].(status := next)];
        cases := cases[c := cases[c].(version := cases[c].version + 1)];
      }
    }

    // --------------------------------------------------------- action, outbox

    method CreateRecoveryActionIdempotent(m: nat, c: nat, kind: ActionType, attempt: nat, status: ActionStatus, now: real)
        returns (a: nat, created: bool)
      modifies this`actions
      ensures created <==> FindAction(old(actions), c, kind, attempt).None?
      ensures a < |actions|
      ensures if created then a == |old(actions)| && actions == old(actions) + [ActionRow(m, c, kind, status, attempt, now)]
              else actions == old(actions) && actions[a].caseId == c && actions[a].kind == kind && actions[a].attempt == attempt
    {
      var existing := FindAction(actions, c, kind, attempt);
      if existing.Some? {
        return existing.value, false;
      }
      actions := actions + [ActionRow(m, c, kind, status, attempt, now)];
      return |actions| - 1, true;
    }

    method AtomicActionTransition(a: nat, expected: ActionStatus, next: ActionStatus) returns (rows: nat)
      modifies this`actions
      ensures if a < |old(actions)| && old(actions)[a].status == expected
              then rows == 1 && actions == old(actions)[a := old(actions)[a].(status := next)]
              else rows == 0 && actions == old(actions)
    {
      rows := 0;
      if a < |actions| && actions[a].status == expected {
        actions := actions[a := actions[a].(status := next)];
        rows := 1;
      }
    }

    method InsertOutboxIfMissing(m: nat, event: OutboxEvent, now: real)
      modifies this`outbox
      ensures outbox == AddRowIfMissing(old(outbox), m, event, now)
    {
      var existing := FindRow(outbox, event);
      if existing.None? {
        outbox := outbox + [OutboxRow(m, event, PendingRow, 0, now, None)];
      }
    }

    method InsertAudit(e: AuditEntry)
      modifies this`audit
      ensures audit == old(audit) + [e]
    {
      audit := audit + [e];
    }

    // --------------------------------------------------------------- webhooks

    method SavePaymentAsFailed(m: nat, e: Entity) returns (p: nat)
      modifies this`payments
      ensures (View(), p) == SaveFailedPayment(old(View()), m, e)
      ensures p < |payments| && payments[p].amount == e.amount
    {
      var known := FindPayment(payments, m, e.providerId);
      if known.None? {
        p := |payments|;
        payments := payments + [PaymentRow(m, e.providerId, FailedPayment, e.amount)];
      } else {
        p := known.value;
        payments := payments[p := payments[p].(status := FailedPayment, amount := e.amount)];
      }
    }

    /** A FAILED case becomes ELIGIBLE, and is audited and announced. */
    method ActivateCase(m: nat, c: nat, now: real)
      requires c < |cases| && cases[c].status == Failed
      modifies this`cases, this`audit, this`outbox
      ensures cases == old(cases)[c := old(cases)[c].(status := Eligible, version := old(cases)[c].version + 1)]
      ensures audit == old(audit) + [EligibleAudit(c)]
      ensures outbox == AddRowIfMissing(old(outbox), m, EligibleEvent(c), now)
    {
      var valid := TransitionRecoveryCase(c, Eligible);
      InsertAudit(EligibleAudit(c));
      InsertOutboxIfMissing(m, EligibleEvent(c), now);
    }

    method HandlePaymentFailed(m: nat, e: Entity, now: real) returns (outcome: WebhookOutcome)
      modifies this`payments, this`cases, this`audit, this`outbox
      ensures WebhookResult(View(), outcome) == FailedTx(old(View()), m, e, now)
    {
      var known := FindPayment(payments, m, e.providerId);
      if known.Some? && payments[known.value].status == Captured {
        return AlreadyCaptured;
      }
      var p := SavePaymentAsFailed(m, e);
      ghost var saved := View();
      var found := FindCase(cases, p);
      if found.None? {
        var c := |cases|;
        cases := cases + [CaseRow(m, p, Failed, payments[p].amount, Some(ClassifyFailure(e.errorCode)), None, 1)];
        ActivateCase(m, c, now);
        assert View() == Activate(saved, m, c, cases[c], now);
        return CaseCreated;
      }
      if cases[found.value].status == Failed {
        ActivateCase(m, found.value, now);
        assert View() == Activate(saved, m, found.value, cases[found.value], now);
        return CaseActivated;
      }
      return CaseExists;
    }

    method MarkCaseRecovered(m: nat, c: nat, now: real) returns (outcome: WebhookOutcome)
      requires c < |cases|
      modifies this`cases, this`actions, this`audit, this`outbox
      ensures WebhookResult(View(), outcome) == MarkRecovered(old(View()), m, c, now)
    {
      if IsTerminal(cases[c].status) {
        return AlreadyTerminal;
      }
      LiveMayRecover(cases[c].status);
      var valid := TransitionRecoveryCase(c, Recovered);
      actions := CancelOpen(actions, c);
      InsertAudit(RecoveredAudit(c));
      InsertOutboxIfMissing(m, RecoveredEvent(c), now);
      return CaseRecovered;
    }

    method HandlePaymentCaptured(m: nat, e: Entity, now: real) returns (outcome: WebhookOutcome)
      modifies this`payments, this`cases, this`actions, this`audit, this`outbox
      ensures WebhookResult(View(), outcome) == CapturedTx(old(View()), m, e, now)
    {
      var known := FindPayment(payments, m, e.providerId);
      var p: nat;
      if known.None? {
        p := |payments|;
        payments := payments + [PaymentRow(m, e.providerId, Captured, e.amount)];
      } else {
        p := known.value;
        if payments[p].status != Captured {
          payments := payments[p := payments[p].(status := Captured)];
        }
      }
      if e.notesCase.Some? {
        var c := e.notesCase.value;
        if c < |cases| && cases[c].merchant == m {
          outcome := MarkCaseRecovered(m, c, now);
          return;
        }
      }
      var found := FindCase(cases, p);
      if found.None? {
        return NoCase;
      }
      outcome := MarkCaseRecovered(m, found.value, now);
    }

    method ProcessEvent(m: nat, delivery: Delivery, now: real) returns (outcome: WebhookOutcome)
      modifies this`payments, this`cases, this`actions, this`audit, this`outbox
      ensures WebhookResult(View(), outcome) == Handle(old(View()), m, delivery, now)
    {
      match delivery {
        case UnsupportedEvent => outcome := UnsupportedIgnored;
        case InvalidPayload => outcome := Rejected;
        case PaymentFailed(e) => outcome := HandlePaymentFailed(m, e, now);
        case PaymentCaptured(e) => outcome := HandlePaymentCaptured(m, e, now);
      }
    }

    /** The webhook endpoint's transaction: inbox row first, then the handler; an invalid payload rolls both back. */
    method ReceiveWebhook(w: Webhook, now: real) returns (outcome: WebhookOutcome)
      modifies this`payments, this`cases, this`actions, this`audit, this`outbox, this`inbox
      ensures WebhookResult(View(), outcome) == WebhookTx(old(View()), w, now)
    {
      if !w.merchantActive {
        return MerchantNotFound;
      }
      if w.eventId in inbox {
        return Duplicate;
      }
      var before := inbox;
      var status := if w.delivery.UnsupportedEvent? then IgnoredEvent else Processed;
      inbox := inbox[w.eventId := InboxRow(w.merchant, status)];
      HandleIgnoresInbox(old(View()), inbox, w.merchant, w.delivery, now);
      outcome := ProcessEvent(w.merchant, w.delivery, now);
      if outcome == Rejected {
        inbox := before;
      }
    }

    // --------------------------------------------------------- decision worker

    /**
     The last two guarded updates of a decision, with the announcement and the
     audit entry; nothing, if the first of the two finds the case moved on. The
     second cannot: its row is locked by the first.
     */
    method CompleteDecision(c: nat, seen: CaseRow, a: nat, d: Decision, now: real) returns (selected: bool)
      requires |actions| == a + 1
      modifies this`cases, this`outbox, this`audit
      ensures selected <==> Guard(old(cases), c, Analysing, seen.version + 1)
      ensures View() == if selected then Completed(old(View()), c, seen, d, now) else old(View())
    {
      var v := seen.version + 1;
      var r := AtomicTransitionRecoveryCase(c, Analysing, v, ActionSelected);
      if r == RowCount(0) {
        return false;
      }
      v := v + 1;
      if d.action == Stop {
        r := AtomicTransitionRecoveryCase(c, ActionSelected, v, Stopped);
      } else if d.action == Escalate {
        r := AtomicTransitionRecoveryCase(c, ActionSelected, v, Escalated);
      } else {
        var due := now + d.delayHours;
        r := AtomicTransitionWithNextActionAt(c, ActionSelected, v, ActionScheduled, due);
        outbox := outbox + [OutboxRow(seen.merchant, ScheduledEvent(c, a), PendingRow, 0, now, Some(due))];
      }
      assert r == RowCount(1);
      InsertAudit(DecisionAudit(c, d.action, FinalStatus(d.action)));
      return true;
    }

    /** From the first guarded update on, on whatever that update left. */
    method RecordDecision(c: nat, seen: CaseRow, d: Decision, now: real) returns (outcome: DecisionOutcome)
      modifies this`cases, this`actions, this`outbox, this`audit
      ensures DecisionResult(View(), outcome) == RecordTx(old(View()), c, seen, d, now)
    {
      var a, created := CreateRecoveryActionIdempotent(seen.merchant, c, d.action, 1, Approved, now);
      if !created {
        return ActionAlreadyExists;
      }
      assert View() == WithAction(old(View()), c, seen, d, now);
      var selected := CompleteDecision(c, seen, a, d, now);
      return if selected then DecisionMade else SelectionConflict;
    }

    /**
     Works on case `c`, read as `seen` when the transaction began; the tables
     may have moved since. Three guarded updates advance the version one by one.
     */
    method HandleRecoveryCaseEligible(c: nat, seen: CaseRow, limits: Limits, reply: ModelReply, now: real)
        returns (outcome: DecisionOutcome)
      modifies this`cases, this`actions, this`outbox, this`audit
      ensures DecisionResult(View(), outcome) == DecideTx(old(View()), c, seen, limits, reply, now)
    {
      if seen.status != Eligible {
        return NotEligible;
      }
      var r := AtomicTransitionRecoveryCase(c, seen.status, seen.version, Analysing);
      if r == RowCount(0) {
        return StaleJob;
      }
      var d := Decide(limits, seen.amount, seen.category, CountActions(actions, c, None), reply);
      outcome := RecordDecision(c, seen, d, now);
    }

    // ---------------------------------------------------------------- executor

    /** The claim, from what it read; the tables may have moved since the read. */
    method ClaimForExecution(a: nat, read: ClaimRead) returns (outcome: ClaimOutcome)
      requires a < |actions|
      modifies this`cases, this`actions, this`audit
      ensures ClaimResult(View(), outcome) == ClaimTx(old(View()), a, read)
    {
      var c := read.action.caseId;
      if !read.allowed {
        var rows := AtomicActionTransition(a, Approved, Cancelled);
        if rows == 1 {
          InsertAudit(CancelledAudit(a, c, read.caseRow.status));
          if !IsTerminal(read.caseRow.status) && read.caseRow.status == ActionScheduled {
            var r := AtomicTransitionRecoveryCase(c, ActionScheduled, read.caseRow.version, Stopped);
          }
        }
        return CancelledByPolicy;
      }
      if read.action.status != Approved {
        return NotApproved;
      }
      var rows := AtomicActionTransition(a, Approved, Executing);
      if rows == 0 {
        return NotClaimable;
      }
      InsertAudit(ClaimedAudit(a, c));
      return Claimed;
    }

    method FinalizeSuccess(a: nat, c: nat, seen: CaseRow)
      modifies this`cases, this`actions, this`audit
      ensures View() == SuccessTx(old(View()), a, c, seen)
    {
      if a >= |actions| || c >= |cases| {
        return;
      }
      if actions[a].status != Executing {
        return;
      }
      actions := actions[a := actions[a].(status := Executed)];
      if seen.status == ActionScheduled {
        var r := AtomicTransitionRecoveryCase(c, seen.status, seen.version, Waiting);
      }
      InsertAudit(ExecutedAudit(a, c));
    }

    method FinalizeFailure(a: nat, c: nat)
      modifies this`actions, this`audit
      ensures View() == FailureTx(old(View()), a, c)
    {
      if a >= |actions| || c >= |cases| {
        return;
      }
      if actions[a].status == Executing {
        actions := actions[a := actions[a].(status := FailedAction)];
      }
      InsertAudit(FailedAudit(a, c));
    }

    // -------------------------------------------------------------- dispatcher

    /** The oldest row that is available and not taken yet. */
    method OldestAvailable(locked: set<nat>, now: real, taken: seq<nat>) returns (oldest: Option<nat>)
      ensures oldest.Some? ==> Available(outbox, locked, now, oldest.value) && oldest.value !in taken
      ensures forall r: nat | Available(outbox, locked, now, r) && r !in taken ::
                oldest.Some? && outbox[oldest.value].createdAt <= outbox[r].createdAt
    {
      oldest := None;
      for i := 0 to |outbox|
        invariant oldest.Some? ==> Available(outbox, locked, now, oldest.value) && oldest.value !in taken
        invariant forall r: nat | r < i && Available(outbox, locked, now, r) && r !in taken ::
                    oldest.Some? && outbox[oldest.value].createdAt <= outbox[r].createdAt
      {
        if Available(outbox, locked, now, i) && i !in taken
           && (oldest.None? || outbox[i].createdAt < outbox[oldest.value].createdAt) {
          oldest := Some(i);
        }
      }
    }

    /** The dispatcher's query: due pending rows that nobody has locked, oldest first, up to the limit. */
    method SelectDue(locked: set<nat>, now: real, limit: nat) returns (sel: seq<nat>)
      ensures IsBatch(outbox, locked, now, limit, sel)
    {
      sel := [];
      while |sel| < limit
        invariant |sel| <= limit && Distinct(sel)
        invariant forall k | 0 <= k < |sel| :: Available(outbox, locked, now, sel[k])
        invariant forall i, j | 0 <= i < j < |sel| :: outbox[sel[i]].createdAt <= outbox[sel[j]].createdAt
        invariant forall r: nat | Available(outbox, locked, now, r) && r !in sel ::
                    forall k | 0 <= k < |sel| :: outbox[sel[k]].createdAt <= outbox[r].createdAt
      {
        var next := OldestAvailable(locked, now, sel);
        if next.None? {
          return;
        }
        sel := sel + [next.value];
      }
    }

    /** One publish attempt as the loop records it. */
    method AttemptRow(row: OutboxRow, accepted: bool, maxAttempts: nat) returns (r: OutboxRow)
      ensures r == Attempted(row, accepted, maxAttempts)
    {
      r := row.(attempts := row.attempts + 1);
      if accepted {
        r := r.(status := Published);
      } else if r.attempts >= maxAttempts {
        r := r.(status := FailedRow);
      }
    }

    /** The publish loop over the selected rows; nothing of it is in the table until the commit. */
    method PublishAll(sel: seq<nat>, maxAttempts: nat, answers: nat -> bool, crashAfter: Option<nat>)
        returns (rows: seq<OutboxRow>, results: seq<bool>, dispatched: nat, crashed: bool)
      requires forall i :: 0 <= i < |sel| ==> sel[i] < |outbox|
      modifies this`queue
      ensures crashed <==> crashAfter.Some? && crashAfter.value < |sel|
      ensures |results| == if crashed then crashAfter.value else |sel|
      ensures forall i | 0 <= i < |results| :: results[i] == answers(i)
      ensures |results| <= |sel| && rows == AttemptAll(outbox, sel, results, maxAttempts)
      ensures queue == old(queue) + Enqueued(sel, results) && dispatched == |Enqueued(sel, results)|
    {
      rows, results, dispatched := outbox, [], 0;
      for k := 0 to |sel|
        invariant |results| == k && (crashAfter.Some? ==> k <= crashAfter.value)
        invariant forall i | 0 <= i < k :: results[i] == answers(i)
        invariant rows == AttemptAll(outbox, sel, results, maxAttempts)
        invariant queue == old(queue) + Enqueued(sel, results) && dispatched == |Enqueued(sel, results)|
      {
        if crashAfter == Some(k) {
          return rows, results, dispatched, true;
        }
        var row := AttemptRow(rows[sel[k]], answers(k), maxAttempts);
        rows := rows[sel[k] := row];
        if answers(k) {
          queue := queue + [sel[k]];
          dispatched := dispatched + 1;
        }
        OneMoreAttempt(outbox, sel, results, answers(k), maxAttempts);
        results := results + [answers(k)];
      }
      crashed := false;
    }

    /**
     One dispatcher run. `answers` says which publications the broker accepts;
     a crash after `crashAfter` publications loses the transaction and keeps
     the messages already enqueued.
     */
    method DispatchOutboxEvents(
        batchSize: Option<nat>, defaultBatchSize: nat, maxAttempts: nat,
        locked: set<nat>, now: real, answers: nat -> bool, crashAfter: Option<nat>)
        returns (sel: seq<nat>, results: seq<bool>, dispatched: nat, committed: bool)
      modifies this`outbox, this`queue
      ensures var limit := if batchSize.Some? && batchSize.value != 0 then batchSize.value else defaultBatchSize;
              IsBatch(old(outbox), locked, now, limit, sel)
      ensures forall i :: 0 <= i < |sel| ==> sel[i] < |old(outbox)|
      ensures committed <==> !(crashAfter.Some? && crashAfter.value < |sel|)
      ensures |results| == if committed then |sel| else crashAfter.value
      ensures |results| <= |sel| && (forall i | 0 <= i < |results| :: results[i] == answers(i))
      ensures outbox == if committed then AttemptAll(old(outbox), sel, results, maxAttempts) else old(outbox)
      ensures queue == old(queue) + Enqueued(sel, results)
      ensures dispatched == |Enqueued(sel, results)|
    {
      var limit := if batchSize.Some? && batchSize.value != 0 then batchSize.value else defaultBatchSize;
      sel := SelectDue(locked, now, limit);
      assert forall i :: 0 <= i < |sel| ==> Available(outbox, locked, now, sel[i]);
      var rows, crashed;
      rows, results, dispatched, crashed := PublishAll(sel, maxAttempts, answers, crashAfter);
      committed := !crashed;
      if committed {
        outbox := rows;
      }
    }
  }

  /** Exactly the accepted rows are enqueued, so a published row always has its message. */
  lemma {:induction false} EnqueuedExactlyAccepted(sel: seq<nat>, results: seq<bool>, r: nat)
    requires |results| <= |sel|
    ensures r in Enqueued(sel, results) <==> exists i :: 0 <= i < |results| && results[i] && sel[i] == r
    decreases |results|
  {
    if |results| > 0 {
      var n := |results| - 1;
      EnqueuedExactlyAccepted(sel, results[..n], r);
      if exists i :: 0 <= i < n && results[i] && sel[i] == r {
        var i :| 0 <= i < n && results[i] && sel[i] == r;
        assert results[..n][i] && sel[i] == r;
      }
    }
  }
}
