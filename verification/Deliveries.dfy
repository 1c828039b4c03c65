/**
 What each webhook delivery does and answers, with every new and every changed
 row written out.
 */
module Deliveries {
  import opened Domain
  import opened Policy
  import opened Tables
  import opened Invariants
  import opened Protocol
  import opened Safety
  import opened Theorems
  import opened Ledger

  /** The payments after a delivery about `e`; a failure also corrects the amount. */
  function PaymentsAfter(payments: seq<PaymentRow>, m: nat, e: Entity, captured: bool): seq<PaymentRow> {
    var known := FindPayment(payments, m, e.providerId);
    var status := if captured then Captured else FailedPayment;
    if known.None? then payments + [PaymentRow(m, e.providerId, status, e.amount)]
    else
      var row := payments[known.value];
      payments[known.value := PaymentRow(m, e.providerId, status, if captured then row.amount else e.amount)]
  }

  /** The case that a capture is for: the one named if it is the merchant's, else the one of a known payment. */
  function CaseFor(db: Db, m: nat, e: Entity): Option<nat> {
    var known := FindPayment(db.payments, m, e.providerId);
    if e.notesCase.Some? && e.notesCase.value < |db.cases| && db.cases[e.notesCase.value].merchant == m then e.notesCase
    else if known.Some? then FindCase(db.cases, known.value)
    else None
  }

  lemma UnknownPaymentHasNoCase(db: Db)
    requires DbInv(db)
    ensures FindCase(db.cases, |db.payments|).None?
  {
    forall c: nat | c < |db.cases| ensures db.cases[c].payment != |db.payments| {
      assert CaseOk(db, c);
    }
  }

  /** The open actions of the case are cancelled, and nothing else about any action changes. */
  ghost predicate OpenCancelled(actions: seq<ActionRow>, actions': seq<ActionRow>, c: nat) {
    && |actions'| == |actions|
    && forall a | 0 <= a < |actions| ::
         actions'[a] == if actions[a].caseId == c && actions[a].status in {PendingAction, Approved}
                        then actions[a].(status := Cancelled) else actions[a]
  }

  lemma CaptureOnTables(db: Db, m: nat, e: Entity, now: real)
    requires DbInv(db) && Exact(db)
    ensures var r, payments := CapturedTx(db, m, e, now), PaymentsAfter(db.payments, m, e, true);
            match CaseFor(db, m, e)
            case None => r == WebhookResult(db.(payments := payments), NoCase)
            case Some(c) =>
              && c < |db.cases|
              && var row := db.cases[c];
              if row.status in {Recovered, Stopped, Escalated} then r == WebhookResult(db.(payments := payments), AlreadyTerminal)
              else
                && r.outcome == CaseRecovered && OpenCancelled(db.actions, r.db.actions, c)
                && r.db == Db(payments,
                              db.cases[c := row.(status := Recovered, version := row.version + 1)],
                              r.db.actions,
                              db.outbox + [OutboxRow(m, RecoveredEvent(c), PendingRow, 0, now, None)],
                              db.inbox,
                              db.audit + [RecoveredAudit(c)])
  {
    var (saved, p) := SaveCapturedPayment(db, m, e);
    UnknownPaymentHasNoCase(db);
    CapturedPaymentSaved(db, m, e);
    OtherTables(db, saved);
    assert saved.payments == PaymentsAfter(db.payments, m, e, true);
    assert CaptureTarget(saved.cases, m, p, e.notesCase) == CaseFor(db, m, e);
    var target := CaseFor(db, m, e);
    if target.Some? {
      RecoveryIsExact(saved, m, target.value, now);
    }
  }

  lemma FailureOnTables(db: Db, m: nat, e: Entity, now: real)
    requires DbInv(db) && Exact(db)
    ensures var r, payments := FailedTx(db, m, e, now), PaymentsAfter(db.payments, m, e, false);
            var known := FindPayment(db.payments, m, e.providerId);
            if known.Some? && db.payments[known.value].status == Captured then r == WebhookResult(db, AlreadyCaptured)
            else if known.Some? && FindCase(db.cases, known.value).Some? then r == WebhookResult(db.(payments := payments), CaseExists)
            else
              var c, p := |db.cases|, if known.Some? then known.value else |db.payments|;
              r == WebhookResult(
                     Db(payments,
                        db.cases + [CaseRow(m, p, Eligible, e.amount, Some(ClassifyFailure(e.errorCode)), None, 2)],
                        db.actions,
                        db.outbox + [OutboxRow(m, EligibleEvent(c), PendingRow, 0, now, None)],
                        db.inbox,
                        db.audit + [EligibleAudit(c)]),
                     CaseCreated)
  {
    var known := FindPayment(db.payments, m, e.providerId);
    UnknownPaymentHasNoCase(db);
    var (saved, p) := SaveFailedPayment(db, m, e);
    assert saved.payments == PaymentsAfter(db.payments, m, e, false);
    var found := FindCase(db.cases, p);
    if found.Some? {
      assert CaseOk(db, found.value);
    } else {
      assert !CallsFor(db, EligibleEvent(|db.cases|));
      assert FindRow(db.outbox, EligibleEvent(|db.cases|)).None?;
    }
  }

  /** What a delivery does to the tables besides the inbox, and what it answers. */
  lemma AcceptedIsHandled(db: Db, w: Webhook, now: real)
    requires w.merchantActive && w.eventId !in db.inbox && (w.delivery.PaymentCaptured? || w.delivery.PaymentFailed?)
    ensures var r := if w.delivery.PaymentCaptured? then CapturedTx(db, w.merchant, w.delivery.entity, now)
                     else FailedTx(db, w.merchant, w.delivery.entity, now);
            WebhookTx(db, w, now) == WebhookResult(r.db.(inbox := db.inbox[w.eventId := InboxRow(w.merchant, Processed)]), r.outcome)
  {
    HandleIgnoresInbox(db, db.inbox, w.merchant, w.delivery, now);
    assert db.(inbox := db.inbox) == db;
  }

  /**
   In every reachable state, what an accepted capture does and answers: the
   payment is captured, first seen or not; the live case it is for is recovered
   with its open actions cancelled, announced and audited; its id is recorded.
   */
  lemma CaptureDoes(s: Sys, w: Webhook)
    requires Reachable(s) && w.merchantActive && w.eventId !in s.db.inbox && w.delivery.PaymentCaptured?
    ensures var db, m, e := s.db, w.merchant, w.delivery.entity;
            var r, payments := WebhookTx(db, w, s.now), PaymentsAfter(db.payments, m, e, true);
            var inbox := db.inbox[w.eventId := InboxRow(m, Processed)];
            match CaseFor(db, m, e)
            case None => r == WebhookResult(db.(payments := payments, inbox := inbox), NoCase)
            case Some(c) =>
              && c < |db.cases|
              && var row := db.cases[c];
              if row.status in {Recovered, Stopped, Escalated} then
                r == WebhookResult(db.(payments := payments, inbox := inbox), AlreadyTerminal)
              else
                && r.outcome == CaseRecovered && OpenCancelled(db.actions, r.db.actions, c)
                && r.db == Db(payments,
                              db.cases[c := row.(status := Recovered, version := row.version + 1)],
                              r.db.actions,
                              db.outbox + [OutboxRow(m, RecoveredEvent(c), PendingRow, 0, s.now, None)],
                              inbox,
                              db.audit + [RecoveredAudit(c)])
  {
    ReachableIsGood(s);
    ReachableIsExact(s);
    CaptureOnTables(s.db, w.merchant, w.delivery.entity, s.now);
    AcceptedIsHandled(s.db, w, s.now);
  }

  /**
   In every reachable state, what an accepted failure does and answers: nothing
   to a captured payment; the amount of a payment that has a case; a new case,
   announced and audited, for any other.
   */
  lemma FailureDoes(s: Sys, w: Webhook)
    requires Reachable(s) && w.merchantActive && w.eventId !in s.db.inbox && w.delivery.PaymentFailed?
    ensures var db, m, e := s.db, w.merchant, w.delivery.entity;
            var r, payments := WebhookTx(db, w, s.now), PaymentsAfter(db.payments, m, e, false);
            var known, inbox := FindPayment(db.payments, m, e.providerId), db.inbox[w.eventId := InboxRow(m, Processed)];
            if known.Some? && db.payments[known.value].status == Captured then
              r == WebhookResult(db.(inbox := inbox), AlreadyCaptured)
            else if known.Some? && FindCase(db.cases, known.value).Some? then
              r == WebhookResult(db.(payments := payments, inbox := inbox), CaseExists)
            else
              var c, p := |db.cases|, if known.Some? then known.value else |db.payments|;
              r == WebhookResult(
                     Db(payments,
                        db.cases + [CaseRow(m, p, Eligible, e.amount, Some(ClassifyFailure(e.errorCode)), None, 2)],
                        db.actions,
                        db.outbox + [OutboxRow(m, EligibleEvent(c), PendingRow, 0, s.now, None)],
                        inbox,
                        db.audit + [EligibleAudit(c)]),
                     CaseCreated)
  {
    ReachableIsGood(s);
    ReachableIsExact(s);
    FailureOnTables(s.db, w.merchant, w.delivery.entity, s.now);
    AcceptedIsHandled(s.db, w, s.now);
  }

  /** What every other delivery does and answers: an unsupported event is recorded as ignored, and nothing else leaves a trace. */
  lemma OtherDeliveriesDo(db: Db, w: Webhook, now: real)
    ensures !w.merchantActive ==> WebhookTx(db, w, now) == WebhookResult(db, MerchantNotFound)
    ensures w.merchantActive && w.eventId in db.inbox ==> WebhookTx(db, w, now) == WebhookResult(db, Duplicate)
    ensures w.merchantActive && w.eventId !in db.inbox && w.delivery.InvalidPayload? ==>
              WebhookTx(db, w, now) == WebhookResult(db, Rejected)
    ensures w.merchantActive && w.eventId !in db.inbox && w.delivery.UnsupportedEvent? ==>
              WebhookTx(db, w, now) ==
              WebhookResult(db.(inbox := db.inbox[w.eventId := InboxRow(w.merchant, IgnoredEvent)]), UnsupportedIgnored)
  {
  }
}
