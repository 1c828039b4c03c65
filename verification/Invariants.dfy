/**
 What every transaction keeps: the invariant of the tables, and the relation
 between the tables before and after any number of transactions.
 */
module Invariants {
  import opened Domain
  import opened Policy
  import opened Tables

  // ------------------------------------------------------------ audit replay

  /** Where a case stands. */
  datatype Standing = Standing(status: CaseStatus, version: nat)

  /** One audit entry applied to what is known of case `c`. */
  function ReplayEntry(known: Option<Standing>, e: AuditEntry, c: nat): Option<Standing> {
    if e.caseId != c then known
    else if e.EligibleAudit? then Some(Standing(Eligible, if known.Some? then known.value.version + 1 else 2))
    else if known.None? then None
    else
      var s := known.value;
      match e
      case DecisionAudit(_, _, final) => Some(Standing(final, s.version + 3))
      case CancelledAudit(_, _, was) =>
        if was == ActionScheduled then Some(Standing(Stopped, s.version + 1)) else known
      case ExecutedAudit(_, _) =>
        if s.status == ActionScheduled then Some(Standing(Waiting, s.version + 1)) else known
      case RecoveredAudit(_) => Some(Standing(Recovered, s.version + 1))
      case _ => known
  }

  /** Where the audit log says case `c` stands. */
  function Replay(audit: seq<AuditEntry>, c: nat): Option<Standing> {
    if |audit| == 0 then None
    else ReplayEntry(Replay(audit[..|audit| - 1], c), audit[|audit| - 1], c)
  }

  lemma ReplayOneMore(audit: seq<AuditEntry>, e: AuditEntry, c: nat)
    ensures Replay(audit + [e], c) == ReplayEntry(Replay(audit, c), e, c)
  {
  }

  // --------------------------------------------------------------- invariant

  /** The committed statuses and the versions each can have. */
  predicate VersionOk(s: CaseStatus, v: nat) {
    match s
    case Eligible => v == 2
    case ActionScheduled => v == 5
    case Waiting => v == 6
    case Escalated => v == 5
    case Stopped => v == 5 || v == 6
    case Recovered => v == 3 || v == 6 || v == 7
    case _ => false
  }

  /** Which action a case in status `cs` may have, and in which status. */
  predicate Coupled(kind: ActionType, s: ActionStatus, cs: CaseStatus) {
    match cs
    case ActionScheduled => Executable(kind) && s in {Approved, Executing, FailedAction}
    case Waiting => Executable(kind) && s == Executed
    case Recovered => Executable(kind) && s in {Cancelled, Executing, Executed, FailedAction}
    case Stopped => (kind.Stop? && s == Approved) || (Executable(kind) && s == Cancelled)
    case Escalated => kind.Escalate? && s == Approved
    case _ => false
  }

  predicate NeedsAction(s: CaseStatus) {
    s in {ActionScheduled, Waiting, Stopped, Escalated}
  }

  ghost predicate HasAction(actions: seq<ActionRow>, c: nat) {
    exists a :: 0 <= a < |actions| && actions[a].caseId == c
  }

  ghost predicate Announced(outbox: seq<OutboxRow>, event: OutboxEvent) {
    exists r :: 0 <= r < |outbox| && outbox[r].event == event
  }

  ghost predicate CaseOk(db: Db, c: nat)
    requires c < |db.cases|
  {
    var row := db.cases[c];
    && row.payment < |db.payments|
    && db.payments[row.payment].merchant == row.merchant
    && VersionOk(row.status, row.version)
    && (NeedsAction(row.status) ==> HasAction(db.actions, c))
    && Announced(db.outbox, EligibleEvent(c))
    && Replay(db.audit, c) == Some(Standing(row.status, row.version))
  }

  ghost predicate ActionOk(db: Db, a: nat)
    requires a < |db.actions|
  {
    var row := db.actions[a];
    && row.caseId < |db.cases|
    && row.merchant == db.cases[row.caseId].merchant
    && row.attempt == 1
    && Coupled(row.kind, row.status, db.cases[row.caseId].status)
    && (Executable(row.kind) ==> Announced(db.outbox, ScheduledEvent(row.caseId, a)))
  }

  ghost predicate RowOk(db: Db, r: nat)
    requires r < |db.outbox|
  {
    var row := db.outbox[r];
    var c := row.event.caseId;
    && c < |db.cases|
    && row.merchant == db.cases[c].merchant
    && match row.event
       case ScheduledEvent(_, a) =>
         && a < |db.actions|
         && db.actions[a].caseId == c
         && Executable(db.actions[a].kind)
         && row.deliverAt == Some(db.actions[a].createdAt + DelayOf(db.cases[c].amount, db.cases[c].category, db.actions[a].kind))
       case _ => row.deliverAt.None?
  }

  ghost predicate RowsLinked(db: Db) {
    && (forall c: nat | c < |db.cases| :: CaseOk(db, c))
    && (forall a: nat | a < |db.actions| :: ActionOk(db, a))
    && (forall r: nat | r < |db.outbox| :: RowOk(db, r))
  }

  predicate PaymentKeysUnique(payments: seq<PaymentRow>) {
    forall p, q | 0 <= p < q < |payments| ::
      payments[p].merchant != payments[q].merchant || payments[p].providerId != payments[q].providerId
  }

  /** The unique keys, and one action per case, which no key enforces. */
  ghost predicate KeysUnique(db: Db) {
    && PaymentKeysUnique(db.payments)
    && (forall c, d | 0 <= c < d < |db.cases| :: db.cases[c].payment != db.cases[d].payment)
    && (forall a, b | 0 <= a < b < |db.actions| :: db.actions[a].caseId != db.actions[b].caseId)
    && (forall r, q | 0 <= r < q < |db.outbox| :: db.outbox[r].event != db.outbox[q].event)
  }

  /** No audit entry speaks of a case that does not exist yet. */
  ghost predicate AuditGrounded(db: Db) {
    forall c: nat | c >= |db.cases| :: Replay(db.audit, c) == None
  }

  ghost predicate DbInv(db: Db) {
    RowsLinked(db) && KeysUnique(db) && AuditGrounded(db)
  }

  // --------------------------------------------------------------- evolution

  /** The statuses an action can pass to; APPROVED is never come back to. */
  predicate ActionMayBecome(s: ActionStatus, s': ActionStatus) {
    || s == s'
    || (s == PendingAction && s' == Cancelled)
    || (s == Approved && s' in {Executing, Executed, FailedAction, Cancelled})
    || (s == Executing && s' in {Executed, FailedAction})
  }

  predicate PaymentStep(p: PaymentRow, q: PaymentRow) {
    && p.merchant == q.merchant && p.providerId == q.providerId
    && (p.status == Captured ==> q == p)
  }

  /** A case keeps what it is about; a change raises its version; terminal rows are frozen. */
  predicate CaseStep(p: CaseRow, q: CaseRow) {
    && p.merchant == q.merchant && p.payment == q.payment
    && p.amount == q.amount && p.category == q.category
    && (p == q || p.version < q.version)
    && (IsTerminal(p.status) ==> q == p)
  }

  predicate ActionStep(p: ActionRow, q: ActionRow) {
    && q == p.(status := q.status)
    && ActionMayBecome(p.status, q.status)
  }

  predicate OutboxStep(p: OutboxRow, q: OutboxRow) {
    && q == p.(status := q.status, attempts := q.attempts)
    && (p.status != PendingRow ==> q == p)
    && p.attempts <= q.attempts
  }

  ghost predicate DbStep(db: Db, db': Db) {
    && |db.payments| <= |db'.payments|
    && |db.cases| <= |db'.cases|
    && |db.actions| <= |db'.actions|
    && |db.outbox| <= |db'.outbox|
    && (forall p | 0 <= p < |db.payments| :: PaymentStep(db.payments[p], db'.payments[p]))
    && (forall c | 0 <= c < |db.cases| :: CaseStep(db.cases[c], db'.cases[c]))
    && (forall a | 0 <= a < |db.actions| :: ActionStep(db.actions[a], db'.actions[a]))
    && (forall r | 0 <= r < |db.outbox| :: OutboxStep(db.outbox[r], db'.outbox[r]))
    && (forall k | k in db.inbox :: k in db'.inbox && db'.inbox[k] == db.inbox[k])
    && db.audit <= db'.audit
  }

  lemma DbStepTrans(a: Db, b: Db, c: Db)
    requires DbStep(a, b) && DbStep(b, c)
    ensures DbStep(a, c)
  {
  }

  // --------------------------------------------------- payments, inbox, rows

  /** The other tables rely only on the merchants of payments, and on nothing in the inbox. */
  lemma PaymentsAndInboxOnly(db: Db, payments: seq<PaymentRow>, inbox: map<string, InboxRow>)
    requires DbInv(db)
    requires |db.payments| <= |payments|
    requires forall p | 0 <= p < |db.payments| :: payments[p].merchant == db.payments[p].merchant
    requires PaymentKeysUnique(payments)
    ensures DbInv(db.(payments := payments, inbox := inbox))
  {
    var db' := db.(payments := payments, inbox := inbox);
    forall c: nat | c < |db'.cases| ensures CaseOk(db', c) {
      assert CaseOk(db, c);
    }
    forall a: nat | a < |db'.actions| ensures ActionOk(db', a) {
      assert ActionOk(db, a);
    }
    forall r: nat | r < |db'.outbox| ensures RowOk(db', r) {
      assert RowOk(db, r);
    }
  }

  lemma FailedPaymentSaved(db: Db, m: nat, e: Entity)
    requires DbInv(db)
    ensures var (db', p) := SaveFailedPayment(db, m, e);
            && DbInv(db')
            && p < |db'.payments| && db'.payments[p].merchant == m && db'.payments[p].status == FailedPayment
  {
    var (db', p) := SaveFailedPayment(db, m, e);
    PaymentsAndInboxOnly(db, db'.payments, db.inbox);
  }

  lemma CapturedPaymentSaved(db: Db, m: nat, e: Entity)
    requires DbInv(db)
    ensures var (db', p) := SaveCapturedPayment(db, m, e);
            && DbInv(db') && DbStep(db, db')
            && p < |db'.payments| && db'.payments[p].merchant == m && db'.payments[p].status == Captured
  {
    var (db', p) := SaveCapturedPayment(db, m, e);
    PaymentsAndInboxOnly(db, db'.payments, db.inbox);
  }

  /** Attempts to publish touch only the status and the attempts of outbox rows. */
  lemma OutboxOnly(db: Db, outbox: seq<OutboxRow>)
    requires DbInv(db)
    requires |outbox| == |db.outbox|
    requires forall r | 0 <= r < |outbox| :: OutboxStep(db.outbox[r], outbox[r])
    ensures DbInv(db.(outbox := outbox)) && DbStep(db, db.(outbox := outbox))
  {
    var db' := db.(outbox := outbox);
    forall event | Announced(db.outbox, event) ensures Announced(outbox, event) {
      var r :| 0 <= r < |db.outbox| && db.outbox[r].event == event;
      assert OutboxStep(db.outbox[r], outbox[r]);
      assert outbox[r].event == event;
    }
    forall c: nat | c < |db'.cases| ensures CaseOk(db', c) {
      assert CaseOk(db, c);
    }
    forall a: nat | a < |db'.actions| ensures ActionOk(db', a) {
      assert ActionOk(db, a);
    }
    forall r: nat | r < |db'.outbox| ensures RowOk(db', r) {
      assert RowOk(db, r) && OutboxStep(db.outbox[r], outbox[r]);
    }
    forall r, q | 0 <= r < q < |outbox| ensures outbox[r].event != outbox[q].event {
      assert OutboxStep(db.outbox[r], outbox[r]) && OutboxStep(db.outbox[q], outbox[q]);
    }
  }

  // --------------------------------------------------------- one case moves

  /**
   The shape shared by every transaction of the workers and of a capture: one
   audit entry about case `c`, whose row, action and announcements change
   together while everything else stays.
   */
  ghost predicate Moves(db: Db, db': Db, c: nat, e: AuditEntry) {
    && c < |db.cases| == |db'.cases|
    && db'.payments == db.payments && db'.inbox == db.inbox
    && (forall d | 0 <= d < |db.cases| && d != c :: db'.cases[d] == db.cases[d])
    && CaseStep(db.cases[c], db'.cases[c])
    && VersionOk(db'.cases[c].status, db'.cases[c].version)
    && db'.audit == db.audit + [e] && e.caseId == c
    && ReplayEntry(Some(Standing(db.cases[c].status, db.cases[c].version)), e, c)
       == Some(Standing(db'.cases[c].status, db'.cases[c].version))
    && |db.actions| <= |db'.actions| <= |db.actions| + 1
    && (forall a | 0 <= a < |db.actions| ::
          && ActionStep(db.actions[a], db'.actions[a])
          && (db.actions[a].caseId != c ==> db'.actions[a] == db.actions[a])
          && (db.actions[a].caseId == c ==>
                Coupled(db.actions[a].kind, db'.actions[a].status, db'.cases[c].status)))
    && (|db'.actions| == |db.actions| + 1 ==>
          && !HasAction(db.actions, c)
          && db'.actions[|db.actions|].caseId == c
          && ActionOk(db', |db.actions|))
    && (NeedsAction(db'.cases[c].status) ==> HasAction(db'.actions, c))
    && db.outbox <= db'.outbox && |db'.outbox| <= |db.outbox| + 1
    && (|db'.outbox| == |db.outbox| + 1 ==>
          && !Announced(db.outbox, db'.outbox[|db.outbox|].event)
          && RowOk(db', |db.outbox|))
  }

  lemma AnnouncementsStay(outbox: seq<OutboxRow>, outbox': seq<OutboxRow>)
    requires outbox <= outbox'
    ensures forall event | Announced(outbox, event) :: Announced(outbox', event)
  {
  }

  lemma MovesKeepCases(db: Db, db': Db, c: nat, e: AuditEntry)
    requires DbInv(db) && Moves(db, db', c, e)
    ensures forall d: nat | d < |db'.cases| :: CaseOk(db', d)
    ensures AuditGrounded(db')
  {
    AnnouncementsStay(db.outbox, db'.outbox);
    forall d: nat ensures Replay(db'.audit, d) == ReplayEntry(Replay(db.audit, d), e, d) {
      ReplayOneMore(db.audit, e, d);
    }
    forall d: nat | d < |db'.cases| ensures CaseOk(db', d) {
      assert CaseOk(db, d);
      if HasAction(db.actions, d) {
        var a :| 0 <= a < |db.actions| && db.actions[a].caseId == d;
        assert db'.actions[a].caseId == d;
      }
    }
  }

  lemma MovesKeepKeys(db: Db, db': Db, c: nat, e: AuditEntry)
    requires DbInv(db) && Moves(db, db', c, e)
    ensures KeysUnique(db')
  {
  }

  lemma MovesKeepInvariant(db: Db, db': Db, c: nat, e: AuditEntry)
    requires DbInv(db) && Moves(db, db', c, e)
    ensures DbInv(db') && DbStep(db, db')
  {
    AnnouncementsStay(db.outbox, db'.outbox);
    MovesKeepCases(db, db', c, e);
    MovesKeepKeys(db, db', c, e);
    forall a: nat | a < |db'.actions| ensures ActionOk(db', a) {
      if a < |db.actions| {
        assert ActionOk(db, a);
      }
    }
    forall r: nat | r < |db'.outbox| ensures RowOk(db', r) {
      if r < |db.outbox| {
        assert RowOk(db, r);
        assert db'.outbox[r] == db.outbox[r];
      }
    }
  }

  // ------------------------------------------------------------ transactions

  lemma MarkRecoveredKeeps(db: Db, m: nat, c: nat, now: real)
    requires DbInv(db) && c < |db.cases| && db.cases[c].merchant == m
    ensures DbInv(MarkRecovered(db, m, c, now).db) && DbStep(db, MarkRecovered(db, m, c, now).db)
  {
    var db' := MarkRecovered(db, m, c, now).db;
    if !IsTerminal(db.cases[c].status) {
      assert CaseOk(db, c);
      forall a: nat | a < |db.actions| && db.actions[a].caseId == c
        ensures Coupled(db.actions[a].kind, db'.actions[a].status, Recovered)
      {
        assert ActionOk(db, a);
      }
      MovesKeepInvariant(db, db', c, RecoveredAudit(c));
    }
  }

  lemma CapturedKeeps(db: Db, m: nat, e: Entity, now: real)
    requires DbInv(db)
    ensures DbInv(CapturedTx(db, m, e, now).db) && DbStep(db, CapturedTx(db, m, e, now).db)
  {
    var (saved, p) := SaveCapturedPayment(db, m, e);
    CapturedPaymentSaved(db, m, e);
    var target := CaptureTarget(saved.cases, m, p, e.notesCase);
    if target.Some? {
      assert CaseOk(saved, target.value);
      MarkRecoveredKeeps(saved, m, target.value, now);
      DbStepTrans(db, saved, CapturedTx(db, m, e, now).db);
    }
  }

  /** A new case starts ELIGIBLE at version 2, audited and announced. */
  lemma CaseAdded(db: Db, m: nat, row: CaseRow, now: real)
    requires DbInv(db)
    requires row.merchant == m && row.status == Eligible && row.version == 2
    requires row.payment < |db.payments| && db.payments[row.payment].merchant == m
    requires FindCase(db.cases, row.payment).None?
    ensures var db' := Activate(db, m, |db.cases|, row, now); DbInv(db') && DbStep(db, db')
  {
    var c := |db.cases|;
    var db' := Activate(db, m, c, row, now);
    forall r: nat | r < |db.outbox| ensures db.outbox[r].event != EligibleEvent(c) {
      assert RowOk(db, r);
    }
    assert db'.outbox[|db.outbox|].event == EligibleEvent(c);
    AnnouncementsStay(db.outbox, db'.outbox);
    forall d: nat ensures Replay(db'.audit, d) == ReplayEntry(Replay(db.audit, d), EligibleAudit(c), d) {
      ReplayOneMore(db.audit, EligibleAudit(c), d);
    }
    forall d: nat | d < |db'.cases| ensures CaseOk(db', d) {
      if d < c {
        assert CaseOk(db, d);
      }
    }
    forall a: nat | a < |db'.actions| ensures ActionOk(db', a) {
      assert ActionOk(db, a);
    }
    forall r: nat | r < |db'.outbox| ensures RowOk(db', r) {
      if r < |db.outbox| {
        assert RowOk(db, r);
      }
    }
  }

  lemma FailedKeeps(db: Db, m: nat, e: Entity, now: real)
    requires DbInv(db)
    ensures DbInv(FailedTx(db, m, e, now).db) && DbStep(db, FailedTx(db, m, e, now).db)
  {
    var known := FindPayment(db.payments, m, e.providerId);
    if !(known.Some? && db.payments[known.value].status == Captured) {
      var (saved, p) := SaveFailedPayment(db, m, e);
      FailedPaymentSaved(db, m, e);
      assert DbStep(db, saved);
      var found := FindCase(db.cases, p);
      if found.None? {
        CaseAdded(saved, m, CaseRow(m, p, Eligible, e.amount, Some(ClassifyFailure(e.errorCode)), None, 2), now);
        DbStepTrans(db, saved, FailedTx(db, m, e, now).db);
      } else {
        assert CaseOk(db, found.value);
      }
    }
  }

  lemma HandleKeeps(db: Db, m: nat, delivery: Delivery, now: real)
    requires DbInv(db)
    ensures var r := Handle(db, m, delivery, now); DbInv(r.db) && DbStep(db, r.db)
  {
    match delivery {
      case PaymentFailed(e) => FailedKeeps(db, m, e, now);
      case PaymentCaptured(e) => CapturedKeeps(db, m, e, now);
      case _ =>
    }
  }

  lemma InboxGrows(db: Db, mid: Db, inbox: map<string, InboxRow>)
    requires DbStep(db, mid) && mid.inbox == db.inbox
    requires forall k | k in db.inbox :: k in inbox && inbox[k] == db.inbox[k]
    ensures DbStep(db, mid.(inbox := inbox))
  {
  }

  /** The whole webhook transaction keeps the invariant. */
  lemma WebhookKeeps(db: Db, w: Webhook, now: real)
    requires DbInv(db)
    ensures DbInv(WebhookTx(db, w, now).db) && DbStep(db, WebhookTx(db, w, now).db)
  {
    var r, db' := Handle(db, w.merchant, w.delivery, now), WebhookTx(db, w, now).db;
    if db' != db {
      HandleKeeps(db, w.merchant, w.delivery, now);
      HandleIgnoresInbox(db, db.inbox, w.merchant, w.delivery, now);
      PaymentsAndInboxOnly(r.db, r.db.payments, db'.inbox);
      if r.outcome != Rejected {
        InboxGrows(db, r.db, db'.inbox);
      }
    }
  }

  /** What a worker saw of a case stays true of its fixed columns. */
  predicate SameCase(seen: CaseRow, row: CaseRow) {
    && seen.merchant == row.merchant && seen.payment == row.payment
    && seen.amount == row.amount && seen.category == row.category
  }

  lemma DecidedMoves(db: Db, c: nat, seen: CaseRow, d: Decision, now: real)
    requires DbInv(db)
    requires c < |db.cases| && SameCase(seen, db.cases[c])
    requires db.cases[c].status == Eligible && db.cases[c].version == seen.version == 2
    requires !HasAction(db.actions, c)
    requires d.delayHours == DelayOf(seen.amount, seen.category, d.action)
    ensures Moves(db, Completed(WithAction(db, c, seen, d, now), c, seen, d, now), c, DecisionAudit(c, d.action, FinalStatus(d.action)))
  {
    var db' := Completed(WithAction(db, c, seen, d, now), c, seen, d, now);
    var a := |db.actions|;
    assert db'.actions[a].caseId == c;
    if Executable(d.action) {
      assert db'.outbox[|db.outbox|].event == ScheduledEvent(c, a);
      forall r: nat | r < |db.outbox| ensures db.outbox[r].event != ScheduledEvent(c, a) {
        assert RowOk(db, r);
      }
    }
  }

  /** The three guarded updates of a decision are one jump of the case row. */
  lemma DecisionIsOneJump(db: Db, c: nat, seen: CaseRow, d: Decision, now: real)
    requires Guard(db.cases, c, Eligible, seen.version) && !HasAction(db.actions, c)
    ensures RecordTx(db.(cases := GuardedUpdate(db.cases, c, Eligible, seen.version, Analysing)), c, seen, d, now)
            == DecisionResult(Completed(WithAction(db, c, seen, d, now), c, seen, d, now), DecisionMade)
  {
  }

  /**
   A decision keeps the invariant, and under it a decision whose guard holds
   always goes through: the branch that finds the action already there, and
   would commit the case in ANALYSING, is never taken.
   */
  lemma DecideKeeps(db: Db, c: nat, seen: CaseRow, limits: Limits, reply: ModelReply, now: real)
    requires DbInv(db)
    requires c < |db.cases| ==> SameCase(seen, db.cases[c])
    ensures var r := DecideTx(db, c, seen, limits, reply, now);
            && DbInv(r.db) && DbStep(db, r.db)
            && r.outcome !in {ActionAlreadyExists, SelectionConflict}
            && (r.outcome == DecisionMade ==>
                  NeedsAction(r.db.cases[c].status) && r.db.cases[c].version == 5)
  {
    var r := DecideTx(db, c, seen, limits, reply, now);
    if seen.status == Eligible && Guard(db.cases, c, Eligible, seen.version) {
      assert CaseOk(db, c);
      forall a: nat | a < |db.actions| ensures db.actions[a].caseId != c {
        assert ActionOk(db, a);
      }
      var d := Decide(limits, seen.amount, seen.category, CountActions(db.actions, c, None), reply);
      DelayIsDetermined(limits, seen.amount, seen.category, CountActions(db.actions, c, None), reply);
      DecisionIsOneJump(db, c, seen, d, now);
      DecidedMoves(db, c, seen, d, now);
      MovesKeepInvariant(db, r.db, c, DecisionAudit(c, d.action, FinalStatus(d.action)));
    }
  }

  /** What the claim read is still right for as long as its action is still APPROVED. */
  predicate ClaimReadOk(db: Db, a: nat, read: ClaimRead)
    requires a < |db.actions| && db.actions[a].caseId < |db.cases|
  {
    && read.action == db.actions[a].(status := read.action.status)
    && SameCase(read.caseRow, db.cases[db.actions[a].caseId])
    && (db.actions[a].status == Approved ==>
          read.caseRow.status == ActionScheduled && read.caseRow.version == 5 && read.action.status == Approved)
  }

  /** Only action `a` belongs to its case. */
  lemma OtherActions(db: Db, a: nat)
    requires DbInv(db) && a < |db.actions|
    ensures forall b | 0 <= b < |db.actions| && b != a :: db.actions[b].caseId != db.actions[a].caseId
  {
  }

  lemma ClaimKeeps(db: Db, a: nat, read: ClaimRead)
    requires DbInv(db)
    requires a < |db.actions| && Executable(db.actions[a].kind) && db.actions[a].caseId < |db.cases|
    requires ClaimReadOk(db, a, read)
    ensures DbInv(ClaimTx(db, a, read).db) && DbStep(db, ClaimTx(db, a, read).db)
  {
    var db' := ClaimTx(db, a, read).db;
    var c := read.action.caseId;
    if db.actions[a].status == Approved {
      assert ActionOk(db, a) && CaseOk(db, c);
      assert db'.actions[a].caseId == c;
      OtherActions(db, a);
      var e := if read.allowed then ClaimedAudit(a, c) else CancelledAudit(a, c, ActionScheduled);
      MovesKeepInvariant(db, db', c, e);
    }
  }

  /** The finaliser's reading of the case is still right for as long as the case is scheduled. */
  predicate FinalReadOk(db: Db, c: nat, seen: CaseRow)
    requires c < |db.cases|
  {
    && SameCase(seen, db.cases[c])
    && (db.cases[c].status == ActionScheduled ==> seen.status == ActionScheduled && seen.version == 5)
  }

  lemma SuccessKeeps(db: Db, a: nat, seen: CaseRow)
    requires DbInv(db)
    requires a < |db.actions| && db.actions[a].caseId < |db.cases|
    requires FinalReadOk(db, db.actions[a].caseId, seen)
    ensures var db' := SuccessTx(db, a, db.actions[a].caseId, seen); DbInv(db') && DbStep(db, db')
  {
    var c := db.actions[a].caseId;
    var db' := SuccessTx(db, a, c, seen);
    assert ActionOk(db, a) && CaseOk(db, c);
    if db.actions[a].status == Executing {
      assert db'.actions[a].caseId == c;
      OtherActions(db, a);
      MovesKeepInvariant(db, db', c, ExecutedAudit(a, c));
    }
  }

  lemma FailureKeeps(db: Db, a: nat)
    requires DbInv(db)
    requires a < |db.actions| && db.actions[a].caseId < |db.cases|
    ensures var db' := FailureTx(db, a, db.actions[a].caseId); DbInv(db') && DbStep(db, db')
  {
    var c := db.actions[a].caseId;
    var db' := FailureTx(db, a, c);
    assert ActionOk(db, a) && CaseOk(db, c);
    assert db'.actions[a].caseId == c;
    OtherActions(db, a);
    forall b: nat | b < |db.actions| && b != a ensures db'.actions[b] == db.actions[b] {}
    MovesKeepInvariant(db, db', c, FailedAudit(a, c));
  }
}
