/**
 The audit log and the outbox say exactly what happened: in every reachable
 state each entry and each announcement is there once if the rows bear it out,
 and not at all otherwise. The due time of an action stands in its case.
 */
module Ledger {
  import opened Domain
  import opened Policy
  import opened Tables
  import opened Invariants
  import opened Protocol
  import opened Safety
  import opened Theorems
  import opened Progress

  // --------------------------------------------------------------- invariant

  predicate IsAction(db: Db, a: nat, c: nat) {
    a < |db.actions| && db.actions[a].caseId == c
  }

  ghost predicate HasActionOf(db: Db, c: nat, kind: ActionType) {
    exists a: nat :: IsAction(db, a, c) && db.actions[a].kind == kind
  }

  /** The rows bear out what the entry says. */
  ghost predicate Happened(db: Db, e: AuditEntry) {
    match e
    case EligibleAudit(c) => c < |db.cases|
    case DecisionAudit(c, kind, final) =>
      && HasActionOf(db, c, kind)
      && final == if kind == Stop then Stopped else if kind == Escalate then Escalated else ActionScheduled
    case ClaimedAudit(a, c) => IsAction(db, a, c) && db.actions[a].status in {Executing, Executed, FailedAction}
    case CancelledAudit(a, c, was) =>
      && IsAction(db, a, c) && db.actions[a].status == Cancelled
      && c < |db.cases| && db.cases[c].status == Stopped && was == ActionScheduled
    case ExecutedAudit(a, c) => IsAction(db, a, c) && db.actions[a].status == Executed
    case FailedAudit(a, c) => IsAction(db, a, c) && db.actions[a].status == FailedAction
    case RecoveredAudit(c) => c < |db.cases| && db.cases[c].status == Recovered
  }

  /** The rows call for the announcement. */
  predicate CallsFor(db: Db, event: OutboxEvent) {
    match event
    case EligibleEvent(c) => c < |db.cases|
    case ScheduledEvent(c, a) => IsAction(db, a, c) && db.actions[a].kind in {Wait, CreatePaymentLink, SendReminder}
    case RecoveredEvent(c) => c < |db.cases| && db.cases[c].status == Recovered
  }

  ghost predicate AuditExact(db: Db) {
    forall e :: multiset(db.audit)[e] == if Happened(db, e) then 1 else 0
  }

  ghost predicate OutboxExact(db: Db) {
    forall event :: Announced(db.outbox, event) <==> CallsFor(db, event)
  }

  /** The case knows when action `a` is due. */
  predicate TimedBy(db: Db, a: nat)
    requires a < |db.actions| && db.actions[a].caseId < |db.cases|
  {
    var action, row := db.actions[a], db.cases[db.actions[a].caseId];
    row.nextActionAt == Some(action.createdAt + DelayOf(row.amount, row.category, action.kind))
  }

  ghost predicate HasExecutable(db: Db, c: nat) {
    exists a: nat :: IsAction(db, a, c) && Executable(db.actions[a].kind)
  }

  ghost predicate TimesExact(db: Db) {
    && (forall a: nat | a < |db.actions| && db.actions[a].caseId < |db.cases| && Executable(db.actions[a].kind) :: TimedBy(db, a))
    && (forall c: nat | c < |db.cases| && db.cases[c].nextActionAt.Some? :: HasExecutable(db, c))
  }

  ghost predicate Exact(db: Db) {
    AuditExact(db) && OutboxExact(db) && TimesExact(db)
  }

  // ------------------------------------------------------------------ frames

  /** One entry more, for the one thing that happened. */
  lemma EntryAdded(db: Db, db': Db, e0: AuditEntry)
    requires AuditExact(db) && db'.audit == db.audit + [e0]
    requires !Happened(db, e0)
    requires forall e :: Happened(db', e) <==> Happened(db, e) || e == e0
    ensures AuditExact(db')
  {
    forall e ensures multiset(db'.audit)[e] == if Happened(db', e) then 1 else 0 {
      assert multiset(db'.audit) == multiset(db.audit) + multiset{e0};
    }
  }

  lemma RowAdded(db: Db, db': Db, row: OutboxRow)
    requires OutboxExact(db) && db'.outbox == db.outbox + [row]
    requires forall event :: CallsFor(db', event) <==> CallsFor(db, event) || event == row.event
    ensures OutboxExact(db')
  {
    forall event ensures Announced(db'.outbox, event) <==> CallsFor(db', event) {
      if Announced(db.outbox, event) {
        var r :| 0 <= r < |db.outbox| && db.outbox[r].event == event;
        assert db'.outbox[r].event == event;
      }
      if event == row.event {
        assert db'.outbox[|db.outbox|].event == event;
      }
    }
  }

  lemma TimesStay(db: Db, db': Db)
    requires TimesExact(db) && |db'.cases| == |db.cases| && |db'.actions| == |db.actions|
    requires forall c | 0 <= c < |db.cases| ::
               db'.cases[c] == db.cases[c].(status := db'.cases[c].status, version := db'.cases[c].version)
    requires forall a | 0 <= a < |db.actions| :: db'.actions[a] == db.actions[a].(status := db'.actions[a].status)
    ensures TimesExact(db')
  {
    forall a: nat | a < |db'.actions| && db'.actions[a].caseId < |db'.cases| && Executable(db'.actions[a].kind)
      ensures TimedBy(db', a)
    {
      assert TimedBy(db, a);
    }
    forall c: nat | c < |db'.cases| && db'.cases[c].nextActionAt.Some? ensures HasExecutable(db', c) {
      assert HasExecutable(db, c);
      var a: nat :| IsAction(db, a, c) && Executable(db.actions[a].kind);
      assert IsAction(db', a, c);
    }
  }

  /** Announcements and due times over a change of statuses that recovers no case. */
  lemma StatusesOnly(db: Db, db': Db)
    requires OutboxExact(db) && TimesExact(db) && db'.outbox == db.outbox
    requires |db'.cases| == |db.cases| && |db'.actions| == |db.actions|
    requires forall c | 0 <= c < |db.cases| ::
               && db'.cases[c] == db.cases[c].(status := db'.cases[c].status, version := db'.cases[c].version)
               && (db'.cases[c].status == Recovered <==> db.cases[c].status == Recovered)
    requires forall a | 0 <= a < |db.actions| :: db'.actions[a] == db.actions[a].(status := db'.actions[a].status)
    ensures OutboxExact(db') && TimesExact(db')
  {
    forall event ensures CallsFor(db', event) <==> CallsFor(db, event) {
    }
    TimesStay(db, db');
  }

  /** Kinds and cases of actions are the same, so decisions are. */
  lemma DecisionsStay(db: Db, db': Db, c: nat, kind: ActionType)
    requires |db'.actions| == |db.actions|
    requires forall a | 0 <= a < |db.actions| :: db'.actions[a] == db.actions[a].(status := db'.actions[a].status)
    ensures HasActionOf(db', c, kind) <==> HasActionOf(db, c, kind)
  {
    if HasActionOf(db, c, kind) {
      var a: nat :| IsAction(db, a, c) && db.actions[a].kind == kind;
      assert IsAction(db', a, c);
    }
    if HasActionOf(db', c, kind) {
      var a: nat :| IsAction(db', a, c) && db'.actions[a].kind == kind;
      assert IsAction(db, a, c);
    }
  }

  // ------------------------------------------------------------ transactions

  /** Payments and the inbox play no part. */
  lemma OtherTables(db: Db, db': Db)
    requires Exact(db)
    requires db'.cases == db.cases && db'.actions == db.actions && db'.outbox == db.outbox && db'.audit == db.audit
    ensures Exact(db')
  {
    forall c, kind ensures HasActionOf(db', c, kind) <==> HasActionOf(db, c, kind) {
      DecisionsStay(db, db', c, kind);
    }
    forall e ensures Happened(db', e) <==> Happened(db, e) {
    }
    StatusesOnly(db, db');
  }

  lemma RecoveryHappens(db: Db, db': Db, m: nat, c: nat, now: real, e: AuditEntry)
    requires DbInv(db) && c < |db.cases| && !IsTerminal(db.cases[c].status) && db' == MarkRecovered(db, m, c, now).db
    requires forall k, kind :: HasActionOf(db', k, kind) <==> HasActionOf(db, k, kind)
    ensures Happened(db', e) <==> Happened(db, e) || e == RecoveredAudit(c)
  {
    match e {
      case CancelledAudit(a, k, was) =>
      case ClaimedAudit(a, k) =>
      case ExecutedAudit(a, k) =>
      case FailedAudit(a, k) =>
      case _ =>
    }
  }

  lemma RecoveryIsExact(db: Db, m: nat, c: nat, now: real)
    requires DbInv(db) && Exact(db) && c < |db.cases|
    ensures Exact(MarkRecovered(db, m, c, now).db)
    ensures !IsTerminal(db.cases[c].status) ==>
              MarkRecovered(db, m, c, now).db.outbox
              == db.outbox + [OutboxRow(m, RecoveredEvent(c), PendingRow, 0, now, None)]
  {
    var db' := MarkRecovered(db, m, c, now).db;
    if !IsTerminal(db.cases[c].status) {
      assert !CallsFor(db, RecoveredEvent(c));
      assert FindRow(db.outbox, RecoveredEvent(c)).None?;
      assert CaseOk(db, c);
      forall k, kind ensures HasActionOf(db', k, kind) <==> HasActionOf(db, k, kind) {
        DecisionsStay(db, db', k, kind);
      }
      forall e ensures Happened(db', e) <==> Happened(db, e) || e == RecoveredAudit(c) {
        RecoveryHappens(db, db', m, c, now, e);
      }
      EntryAdded(db, db', RecoveredAudit(c));
      RowAdded(db, db', OutboxRow(m, RecoveredEvent(c), PendingRow, 0, now, None));
      TimesStay(db, db');
    }
  }

  lemma OpeningKeepsTimes(db: Db, db': Db, row: CaseRow)
    requires DbInv(db) && TimesExact(db) && row.nextActionAt == None
    requires db'.actions == db.actions && db'.cases == db.cases + [row]
    ensures TimesExact(db')
  {
    forall a: nat | a < |db'.actions| && db'.actions[a].caseId < |db'.cases| && Executable(db'.actions[a].kind)
      ensures TimedBy(db', a)
    {
      assert ActionOk(db, a);
      assert TimedBy(db, a);
    }
    forall k: nat | k < |db'.cases| && db'.cases[k].nextActionAt.Some? ensures HasExecutable(db', k) {
      assert HasExecutable(db, k);
      var a: nat :| IsAction(db, a, k) && Executable(db.actions[a].kind);
      assert IsAction(db', a, k);
    }
  }

  /** A case opened for a payment: announced, audited, without action and without due time. */
  lemma OpeningIsExact(db: Db, db': Db, row: CaseRow, announced: OutboxRow)
    requires DbInv(db) && Exact(db)
    requires row.status == Eligible && row.nextActionAt == None
    requires db'.actions == db.actions && db'.cases == db.cases + [row]
    requires announced.event == EligibleEvent(|db.cases|) && db'.outbox == db.outbox + [announced]
    requires db'.audit == db.audit + [EligibleAudit(|db.cases|)]
    ensures Exact(db')
  {
    var c := |db.cases|;
    forall a: nat | a < |db.actions| ensures db.actions[a].caseId != c {
      assert ActionOk(db, a);
    }
    forall k, kind ensures HasActionOf(db', k, kind) <==> HasActionOf(db, k, kind) {
      DecisionsStay(db, db', k, kind);
    }
    forall e ensures Happened(db', e) <==> Happened(db, e) || e == EligibleAudit(c) {
    }
    EntryAdded(db, db', EligibleAudit(c));
    forall event ensures CallsFor(db', event) <==> CallsFor(db, event) || event == announced.event {
    }
    RowAdded(db, db', announced);
    OpeningKeepsTimes(db, db', row);
  }

  lemma FailureDeliveryIsExact(db: Db, m: nat, e: Entity, now: real)
    requires DbInv(db) && Exact(db)
    ensures Exact(FailedTx(db, m, e, now).db)
  {
    var known := FindPayment(db.payments, m, e.providerId);
    if !(known.Some? && db.payments[known.value].status == Captured) {
      var (saved, p) := SaveFailedPayment(db, m, e);
      FailedPaymentSaved(db, m, e);
      OtherTables(db, saved);
      var found := FindCase(db.cases, p);
      if found.None? {
        var row := CaseRow(m, p, Eligible, e.amount, Some(ClassifyFailure(e.errorCode)), None, 2);
        assert !CallsFor(saved, EligibleEvent(|db.cases|));
        assert FindRow(saved.outbox, EligibleEvent(|db.cases|)).None?;
        OpeningIsExact(saved, FailedTx(db, m, e, now).db, row, OutboxRow(m, EligibleEvent(|db.cases|), PendingRow, 0, now, None));
      } else {
        assert CaseOk(db, found.value);
      }
    }
  }

  lemma CaptureDeliveryIsExact(db: Db, m: nat, e: Entity, now: real)
    requires DbInv(db) && Exact(db)
    ensures Exact(CapturedTx(db, m, e, now).db)
  {
    var (saved, p) := SaveCapturedPayment(db, m, e);
    CapturedPaymentSaved(db, m, e);
    OtherTables(db, saved);
    var target := CaptureTarget(saved.cases, m, p, e.notesCase);
    if target.Some? {
      RecoveryIsExact(saved, m, target.value, now);
    }
  }

  lemma WebhookIsExact(db: Db, w: Webhook, now: real)
    requires DbInv(db) && Exact(db)
    ensures Exact(WebhookTx(db, w, now).db)
  {
    var r, tx := Handle(db, w.merchant, w.delivery, now), WebhookTx(db, w, now);
    match w.delivery {
      case PaymentFailed(e) => FailureDeliveryIsExact(db, w.merchant, e, now);
      case PaymentCaptured(e) => CaptureDeliveryIsExact(db, w.merchant, e, now);
      case _ =>
    }
    assert Exact(r.db);
    if tx.db != db {
      OtherTables(r.db, tx.db);
    }
  }

  lemma DecisionOnRecord(db: Db, db': Db, c: nat, kind: ActionType, k: nat, other: ActionType)
    requires |db'.actions| == |db.actions| + 1 && db.actions <= db'.actions
    requires db'.actions[|db.actions|].caseId == c && db'.actions[|db.actions|].kind == kind
    ensures HasActionOf(db', k, other) <==> HasActionOf(db, k, other) || (k == c && other == kind)
  {
    if HasActionOf(db, k, other) {
      var b: nat :| IsAction(db, b, k) && db.actions[b].kind == other;
      assert IsAction(db', b, k);
    }
    if k == c && other == kind {
      assert IsAction(db', |db.actions|, c);
    }
    if HasActionOf(db', k, other) {
      var b: nat :| IsAction(db', b, k) && db'.actions[b].kind == other;
      assert b < |db.actions| ==> IsAction(db, b, k);
    }
  }

  lemma DecisionHappens(db: Db, c: nat, kind: ActionType, now: real, e: AuditEntry)
    requires c < |db.cases| && db.cases[c].status == Eligible
    requires forall b: nat | b < |db.actions| :: db.actions[b].caseId != c
    requires var db' := Decided(db, c, kind, now);
             forall k, other :: HasActionOf(db', k, other) <==> HasActionOf(db, k, other) || (k == c && other == kind)
    ensures var db' := Decided(db, c, kind, now);
            Happened(db', e) <==> Happened(db, e) || e == DecisionAudit(c, kind, db'.cases[c].status)
  {
    match e {
      case DecisionAudit(k, other, final) =>
        assert k == c ==> !HasActionOf(db, k, other);
      case _ =>
    }
  }

  lemma DecidedAnnounces(db: Db, c: nat, kind: ActionType, now: real)
    requires OutboxExact(db) && c < |db.cases| && db.cases[c].status == Eligible
    ensures OutboxExact(Decided(db, c, kind, now))
  {
    var db', a := Decided(db, c, kind, now), |db.actions|;
    if kind in {Stop, Escalate} {
      forall event ensures CallsFor(db', event) <==> CallsFor(db, event) {
      }
    } else {
      forall event ensures CallsFor(db', event) <==> CallsFor(db, event) || event == ScheduledEvent(c, a) {
      }
      RowAdded(db, db', db'.outbox[|db.outbox|]);
    }
  }

  lemma DecidedKeepsTimes(db: Db, c: nat, kind: ActionType, now: real)
    requires TimesExact(db) && c < |db.cases|
    requires forall b: nat | b < |db.actions| :: db.actions[b].caseId != c
    ensures TimesExact(Decided(db, c, kind, now))
  {
    var db', a := Decided(db, c, kind, now), |db.actions|;
    forall b: nat | b < |db'.actions| && db'.actions[b].caseId < |db'.cases| && Executable(db'.actions[b].kind)
      ensures TimedBy(db', b)
    {
      if b < a {
        assert TimedBy(db, b);
      }
    }
    forall k: nat | k < |db'.cases| && db'.cases[k].nextActionAt.Some? ensures HasExecutable(db', k) {
      if db.cases[k].nextActionAt.Some? {
        assert HasExecutable(db, k);
        var b: nat :| IsAction(db, b, k) && Executable(db.actions[b].kind);
        assert IsAction(db', b, k);
      } else {
        assert k == c && IsAction(db', a, c);
      }
    }
  }

  /** A decision adds its own entry, its own announcement if it is to be carried out, and its own due time. */
  lemma DecidedIsExact(db: Db, c: nat, kind: ActionType, now: real)
    requires DbInv(db) && Exact(db) && c < |db.cases| && db.cases[c].status == Eligible
    ensures Exact(Decided(db, c, kind, now))
  {
    var db', a := Decided(db, c, kind, now), |db.actions|;
    var final := db'.cases[c].status;
    forall b: nat | b < |db.actions| ensures db.actions[b].caseId != c {
      assert ActionOk(db, b);
    }
    assert IsAction(db', a, c);
    forall k, other ensures HasActionOf(db', k, other) <==> HasActionOf(db, k, other) || (k == c && other == kind) {
      DecisionOnRecord(db, db', c, kind, k, other);
    }
    forall e ensures Happened(db', e) <==> Happened(db, e) || e == DecisionAudit(c, kind, final) {
      DecisionHappens(db, c, kind, now, e);
    }
    EntryAdded(db, db', DecisionAudit(c, kind, final));
    DecidedAnnounces(db, c, kind, now);
    DecidedKeepsTimes(db, c, kind, now);
  }

  predicate About(e: AuditEntry, a: nat, c: nat) {
    (e.ClaimedAudit? || e.CancelledAudit? || e.ExecutedAudit? || e.FailedAudit?) && e.actionId == a && e.caseId == c
  }

  /** One action and its case take new statuses, and one entry says so. */
  lemma StatusChangeIsExact(db: Db, db': Db, a: nat, s: ActionStatus, cs: CaseStatus, v: nat, e0: AuditEntry)
    requires DbInv(db) && Exact(db) && a < |db.actions| && db.actions[a].caseId < |db.cases|
    requires db'.actions == db.actions[a := db.actions[a].(status := s)]
    requires var c := db.actions[a].caseId;
             && db'.cases == db.cases[c := db.cases[c].(status := cs, version := v)]
             && (cs == Recovered <==> db.cases[c].status == Recovered)
             && (forall e | About(e, a, c) :: Happened(db', e) <==> Happened(db, e) || e == e0)
             && About(e0, a, c)
    requires !Happened(db, e0)
    requires db'.audit == db.audit + [e0] && db'.outbox == db.outbox
    ensures Exact(db')
  {
    OtherActions(db, a);
    forall k, kind ensures HasActionOf(db', k, kind) <==> HasActionOf(db, k, kind) {
      DecisionsStay(db, db', k, kind);
    }
    forall e ensures Happened(db', e) <==> Happened(db, e) || e == e0 {
    }
    EntryAdded(db, db', e0);
    StatusesOnly(db, db');
  }

  lemma ClaimIsExact(db: Db, a: nat, read: ClaimRead)
    requires DbInv(db) && Exact(db) && a < |db.actions| && db.actions[a].caseId < |db.cases|
    requires Executable(db.actions[a].kind) && ClaimReadOk(db, a, read)
    ensures Exact(ClaimTx(db, a, read).db)
  {
    var db', c := ClaimTx(db, a, read).db, db.actions[a].caseId;
    ClaimOutcomes(db, a, read);
    if db.actions[a].status == Approved {
      var row := db.cases[c];
      if read.allowed {
        StatusChangeIsExact(db, db', a, Executing, row.status, row.version, ClaimedAudit(a, c));
      } else {
        StatusChangeIsExact(db, db', a, Cancelled, Stopped, 6, CancelledAudit(a, c, ActionScheduled));
      }
    }
  }

  lemma SuccessIsExact(db: Db, a: nat, seen: CaseRow)
    requires DbInv(db) && Exact(db) && a < |db.actions| && db.actions[a].caseId < |db.cases|
    requires FinalReadOk(db, db.actions[a].caseId, seen)
    ensures Exact(SuccessTx(db, a, db.actions[a].caseId, seen))
  {
    var c := db.actions[a].caseId;
    var db' := SuccessTx(db, a, c, seen);
    assert ActionOk(db, a) && CaseOk(db, c);
    if db.actions[a].status == Executing {
      StatusChangeIsExact(db, db', a, Executed, db'.cases[c].status, db'.cases[c].version, ExecutedAudit(a, c));
    }
  }

  lemma FailureIsExact(db: Db, a: nat)
    requires DbInv(db) && Exact(db) && a < |db.actions| && db.actions[a].caseId < |db.cases|
    requires db.actions[a].status == Executing
    ensures Exact(FailureTx(db, a, db.actions[a].caseId))
  {
    var c := db.actions[a].caseId;
    var row := db.cases[c];
    StatusChangeIsExact(db, FailureTx(db, a, c), a, FailedAction, row.status, row.version, FailedAudit(a, c));
  }

  /** Of what was read, a decision uses only what does not change. */
  lemma SeenIsCurrent(db: Db, c: nat, seen: CaseRow, d: Decision, now: real)
    requires c < |db.cases| && SameCase(seen, db.cases[c]) && seen.version == db.cases[c].version
    ensures Completed(WithAction(db, c, seen, d, now), c, seen, d, now)
            == Completed(WithAction(db, c, db.cases[c], d, now), c, db.cases[c], d, now)
  {
  }

  lemma DecisionIsExact(db: Db, c: nat, seen: CaseRow, limits: Limits, reply: ModelReply, now: real)
    requires DbInv(db) && Exact(db)
    requires c < |db.cases| && SameCase(seen, db.cases[c]) && seen.status == Eligible && seen.version == 2
    ensures Exact(DecideTx(db, c, seen, limits, reply, now).db)
  {
    assert CaseOk(db, c);
    if db.cases[c].status == Eligible {
      forall a: nat | a < |db.actions| ensures db.actions[a].caseId != c {
        assert ActionOk(db, a);
      }
      var d := Decide(limits, seen.amount, seen.category, CountActions(db.actions, c, None), reply);
      DelayIsDetermined(limits, seen.amount, seen.category, CountActions(db.actions, c, None), reply);
      DecisionIsOneJump(db, c, seen, d, now);
      SeenIsCurrent(db, c, seen, d, now);
      CompletedIsDecided(db, c, d, now);
      DecidedIsExact(db, c, d.action, now);
    }
  }

  /** Publishing changes no announcement. */
  lemma AttemptsAreExact(db: Db, outbox: seq<OutboxRow>)
    requires Exact(db) && |outbox| == |db.outbox|
    requires forall r | 0 <= r < |outbox| :: outbox[r].event == db.outbox[r].event
    ensures Exact(db.(outbox := outbox))
  {
    var db' := db.(outbox := outbox);
    forall k, kind ensures HasActionOf(db', k, kind) <==> HasActionOf(db, k, kind) {
      DecisionsStay(db, db', k, kind);
    }
    forall e ensures Happened(db', e) <==> Happened(db, e) {
    }
    forall event ensures Announced(outbox, event) <==> CallsFor(db', event) {
      if Announced(db.outbox, event) {
        var r :| 0 <= r < |db.outbox| && db.outbox[r].event == event;
        assert outbox[r].event == event;
      }
    }
    TimesStay(db, db');
  }

  // ------------------------------------------------------------------- steps

  lemma ClaimStepIsExact(db: Db, now: real, calls: seq<nat>, task: Task)
    requires DbInv(db) && Exact(db) && TaskOk(db, now, calls, task) && task.phase.ClaimSeen?
    ensures Exact(ClaimTx(db, task.phase.a, task.phase.read).db)
  {
    assert RowOk(db, task.msg.row);
    ClaimIsExact(db, task.phase.a, task.phase.read);
  }

  lemma FinaliseIsExact(db: Db, now: real, calls: seq<nat>, task: Task)
    requires DbInv(db) && Exact(db) && TaskOk(db, now, calls, task) && task.phase.FinalSeen?
    ensures var p := task.phase;
            Exact(if p.ok then SuccessTx(db, p.a, p.c, p.seen) else FailureTx(db, p.a, p.c))
  {
    var p := task.phase;
    if p.ok {
      SuccessIsExact(db, p.a, p.seen);
    } else {
      FailureIsExact(db, p.a);
    }
  }

  lemma WorkIsExact(db: Db, now: real, calls: seq<nat>, task: Task, step: Step)
    requires DbInv(db) && Exact(db) && TaskOk(db, now, calls, task) && ReadyFor(task.phase, step)
    ensures Exact(Work(db, now, task, step).0)
  {
    match step {
      case DecideCase(_, limits, reply) => DecisionIsExact(db, task.phase.c, task.phase.seen, limits, reply, now);
      case ClaimAction(_) => ClaimStepIsExact(db, now, calls, task);
      case Finalise(_) => FinaliseIsExact(db, now, calls, task);
      case _ =>
    }
  }

  lemma WorkerStepIsExact(s: Sys, step: Step)
    requires Inv(s) && Exact(s.db) && Enabled(s, step) && IsWorkerStep(step)
    ensures Exact(Apply(s, step).db)
  {
    assert TaskOk(s.db, s.now, s.calls, s.tasks[step.t]);
    WorkerStepWorks(s, step);
    WorkIsExact(s.db, s.now, s.calls, s.tasks[step.t], step);
  }

  lemma CommitIsExact(s: Sys, d: nat)
    requires Inv(s) && Exact(s.db) && Enabled(s, BatchCommit(d))
    ensures Exact(Apply(s, BatchCommit(d)).db)
  {
    var s' := Apply(s, BatchCommit(d));
    assert BatchOk(s, s.batches[d]);
    forall r: nat | r < |s.db.outbox|
      ensures |s'.db.outbox| == |s.db.outbox| && s'.db.outbox[r].event == s.db.outbox[r].event
    {
      CommitRow(s, s', d, r);
    }
    AttemptsAreExact(s.db, s'.db.outbox);
  }

  lemma StepIsExact(s: Sys, step: Step)
    requires Inv(s) && Exact(s.db) && Enabled(s, step)
    ensures Exact(Apply(s, step).db)
  {
    if IsWorkerStep(step) {
      WorkerStepIsExact(s, step);
    } else if step.Receive? {
      WebhookIsExact(s.db, step.w, s.now);
    } else if step.BatchCommit? {
      CommitIsExact(s, step.d);
    }
  }

  lemma {:induction false} RunIsExact(s: Sys, steps: seq<Step>)
    requires Inv(s) && Exact(s.db) && ValidRun(s, steps)
    ensures Exact(Run(s, steps).db)
    decreases |steps|
  {
    if |steps| > 0 {
      StepKeeps(s, steps[0]);
      StepIsExact(s, steps[0]);
      RunIsExact(Apply(s, steps[0]), steps[1..]);
    }
  }

  lemma EmptyIsExact()
    ensures Exact(EMPTY_DB)
  {
  }

  lemma ReachableIsExact(s: Sys)
    requires Reachable(s)
    ensures Exact(s.db)
  {
    var cfg, steps :| ValidRun(Init(cfg), steps) && Run(Init(cfg), steps) == s;
    InitKeeps(cfg);
    EmptyIsExact();
    RunIsExact(Init(cfg), steps);
  }

  // ----------------------------------------------------------------- results

  /** In every reachable state each audit entry stands in the log once if the rows bear it out, and otherwise not at all. */
  lemma AuditIsExact(s: Sys, e: AuditEntry)
    requires Reachable(s)
    ensures multiset(s.db.audit)[e] == if Happened(s.db, e) then 1 else 0
  {
    ReachableIsExact(s);
  }

  /** What the log says of one action, by its status. */
  lemma ActionHistory(s: Sys, a: nat)
    requires Reachable(s) && a < |s.db.actions|
    ensures var action, log := s.db.actions[a], multiset(s.db.audit);
            var c, status := action.caseId, action.status;
            && log[ClaimedAudit(a, c)] == (if status in {Executing, Executed, FailedAction} then 1 else 0)
            && log[ExecutedAudit(a, c)] == (if status == Executed then 1 else 0)
            && log[FailedAudit(a, c)] == (if status == FailedAction then 1 else 0)
            && (forall kind, final | log[DecisionAudit(c, kind, final)] != 0 :: kind == action.kind)
            && exists final :: log[DecisionAudit(c, action.kind, final)] == 1
  {
    ReachableIsExact(s);
    ReachableIsGood(s);
    var action := s.db.actions[a];
    OtherActions(s.db, a);
    assert IsAction(s.db, a, action.caseId);
    var final := if action.kind == Stop then Stopped else if action.kind == Escalate then Escalated else ActionScheduled;
    assert Happened(s.db, DecisionAudit(action.caseId, action.kind, final));
  }

  /**
   In every reachable state an event has an outbox row exactly when the rows
   call for it, and then only one; the row belongs to the merchant of the case,
   and only a scheduled action makes it wait, for the time that its case knows.
   */
  lemma AnnouncementsAreExact(s: Sys, event: OutboxEvent)
    requires Reachable(s)
    ensures (exists r :: 0 <= r < |s.db.outbox| && s.db.outbox[r].event == event) <==> CallsFor(s.db, event)
    ensures forall r, q | 0 <= r < |s.db.outbox| && 0 <= q < |s.db.outbox| ::
              s.db.outbox[r].event == event && s.db.outbox[q].event == event ==> r == q
    ensures forall r: nat | r < |s.db.outbox| && s.db.outbox[r].event == event ::
              && event.caseId < |s.db.cases|
              && s.db.outbox[r].merchant == s.db.cases[event.caseId].merchant
              && s.db.outbox[r].deliverAt == if event.ScheduledEvent? then s.db.cases[event.caseId].nextActionAt else None
  {
    ReachableIsExact(s);
    ReachableIsGood(s);
    assert Announced(s.db.outbox, event) <==> CallsFor(s.db, event);
    forall r: nat | r < |s.db.outbox| && s.db.outbox[r].event == event
      ensures event.caseId < |s.db.cases| && s.db.outbox[r].merchant == s.db.cases[event.caseId].merchant
      ensures s.db.outbox[r].deliverAt == if event.ScheduledEvent? then s.db.cases[event.caseId].nextActionAt else None
    {
      assert RowOk(s.db, r);
      if event.ScheduledEvent? {
        assert TimedBy(s.db, event.actionId);
      }
    }
  }

  /** In every reachable state a case knows the due time of its executable action, and knows none if it has none. */
  lemma CasesKnowTheirDueTime(s: Sys, c: nat)
    requires Reachable(s) && c < |s.db.cases|
    ensures var row := s.db.cases[c];
            && (forall a: nat | IsAction(s.db, a, c) && s.db.actions[a].kind in {Wait, CreatePaymentLink, SendReminder} ::
                  row.nextActionAt == Some(s.db.actions[a].createdAt + DelayOf(row.amount, row.category, s.db.actions[a].kind)))
            && ((forall a: nat | IsAction(s.db, a, c) :: s.db.actions[a].kind in {Stop, Escalate}) ==> row.nextActionAt == None)
  {
    ReachableIsExact(s);
    forall a: nat | IsAction(s.db, a, c) && s.db.actions[a].kind in {Wait, CreatePaymentLink, SendReminder}
      ensures s.db.cases[c].nextActionAt ==
              Some(s.db.actions[a].createdAt + DelayOf(s.db.cases[c].amount, s.db.cases[c].category, s.db.actions[a].kind))
    {
      assert TimedBy(s.db, a);
    }
    if s.db.cases[c].nextActionAt.Some? {
      assert HasExecutable(s.db, c);
    }
  }
}
