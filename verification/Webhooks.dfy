/**
 Webhook deliveries in any order, repeated any number of times, interleaved
 with everything else the system does.
 */
module Webhooks {
  import opened Domain
  import opened Policy
  import opened Tables
  import opened Invariants
  import opened Protocol
  import opened Safety
  import opened Theorems

  // --------------------------------------------------------------- duplicates

  predicate Accepted(o: WebhookOutcome) {
    o !in {MerchantNotFound, Duplicate, Rejected}
  }

  /**
   Once a delivery is accepted, every later delivery with its event id is a
   no-op, whatever ran in between and whatever it carries. The inbox key has
   no merchant in it, so this includes deliveries to other merchants.
   */
  lemma RepeatIsNoOp(s: Sys, w: Webhook, between: seq<Step>, again: Webhook)
    requires Reachable(s) && Accepted(WebhookTx(s.db, w, s.now).outcome)
    requires ValidRun(Apply(s, Receive(w)), between)
    requires again.eventId == w.eventId
    ensures var s' := Run(Apply(s, Receive(w)), between); Apply(s', Receive(again)) == s'
  {
    ReachableIsGood(s);
    var s1 := Apply(s, Receive(w));
    StepKeeps(s, Receive(w));
    assert w.eventId in s1.db.inbox;
    RunKeeps(s1, between);
  }

  /** The tables after the first failure of a payment that was unknown before. */
  function Opened(db: Db, w: Webhook, now: real): Db
    requires w.delivery.PaymentFailed?
  {
    var m, e := w.merchant, w.delivery.entity;
    Db(db.payments + [PaymentRow(m, e.providerId, FailedPayment, e.amount)],
       db.cases + [CaseRow(m, |db.payments|, Eligible, e.amount, Some(ClassifyFailure(e.errorCode)), None, 2)],
       db.actions,
       db.outbox + [OutboxRow(m, EligibleEvent(|db.cases|), PendingRow, 0, now, None)],
       db.inbox[w.eventId := InboxRow(m, Processed)],
       db.audit + [EligibleAudit(|db.cases|)])
  }

  /** A delivery to an active merchant of the failure of a payment that is not in the tables. */
  predicate FirstFailure(db: Db, w: Webhook) {
    && w.merchantActive && w.delivery.PaymentFailed?
    && FindPayment(db.payments, w.merchant, w.delivery.entity.providerId).None?
  }

  /** A first failure opens one ELIGIBLE case, announced and audited, or is dropped for its event id alone. */
  lemma FirstFailureOpensCase(db: Db, w: Webhook, now: real)
    requires DbInv(db) && FirstFailure(db, w)
    ensures WebhookTx(db, w, now) ==
            if w.eventId in db.inbox then WebhookResult(db, Duplicate) else WebhookResult(Opened(db, w, now), CaseCreated)
  {
    var p, c := |db.payments|, |db.cases|;
    forall d: nat | d < |db.cases| ensures db.cases[d].payment != p {
      assert CaseOk(db, d);
    }
    assert FindCase(db.cases, p).None?;
    forall r: nat | r < |db.outbox| ensures db.outbox[r].event != EligibleEvent(c) {
      assert RowOk(db, r);
    }
    assert FindRow(db.outbox, EligibleEvent(c)).None?;
  }

  /** The event ids of the deliveries that the run accepts. */
  ghost function AcceptedIds(s: Sys, steps: seq<Step>): set<string>
    requires ValidRun(s, steps)
    decreases |steps|
  {
    if |steps| == 0 then {}
    else
      (if steps[0].Receive? && Accepted(WebhookTx(s.db, steps[0].w, s.now).outcome) then {steps[0].w.eventId} else {})
      + AcceptedIds(Apply(s, steps[0]), steps[1..])
  }

  lemma WorkLeavesInbox(db: Db, now: real, task: Task, step: Step)
    requires ReadyFor(task.phase, step)
    ensures Work(db, now, task, step).0.inbox == db.inbox
  {
  }

  lemma WebhookRecordsId(db: Db, w: Webhook, now: real)
    ensures var r := WebhookTx(db, w, now);
            r.db.inbox.Keys == db.inbox.Keys + if Accepted(r.outcome) then {w.eventId} else {}
  {
    HandleIgnoresInbox(db, db.inbox, w.merchant, w.delivery, now);
    assert db.(inbox := db.inbox) == db;
  }

  lemma StepRecordsId(s: Sys, step: Step)
    requires Enabled(s, step)
    ensures Apply(s, step).db.inbox.Keys == s.db.inbox.Keys +
            if step.Receive? && Accepted(WebhookTx(s.db, step.w, s.now).outcome) then {step.w.eventId} else {}
  {
    if step.Receive? {
      WebhookRecordsId(s.db, step.w, s.now);
    } else if IsWorkerStep(step) {
      WorkerStepWorks(s, step);
      WorkLeavesInbox(s.db, s.now, s.tasks[step.t], step);
    } else {
      OthersLeaveTables(s, step);
    }
  }

  /** The inbox holds the ids of the accepted deliveries and no others. */
  lemma {:induction false} InboxHoldsAccepted(s: Sys, steps: seq<Step>)
    requires ValidRun(s, steps)
    ensures Run(s, steps).db.inbox.Keys == s.db.inbox.Keys + AcceptedIds(s, steps)
    decreases |steps|
  {
    if |steps| > 0 {
      StepRecordsId(s, steps[0]);
      InboxHoldsAccepted(Apply(s, steps[0]), steps[1..]);
    }
  }

  /**
   Exactly when a first failure is not lost: after any run it opens a case if
   and only if no accepted delivery of the run, to whichever merchant, carried
   its event id.
   */
  lemma FirstFailureOpensCaseIff(cfg: Config, steps: seq<Step>, w: Webhook)
    requires ValidRun(Init(cfg), steps) && FirstFailure(Run(Init(cfg), steps).db, w)
    ensures var s := Run(Init(cfg), steps);
            && (WebhookTx(s.db, w, s.now).outcome == CaseCreated <==> w.eventId !in AcceptedIds(Init(cfg), steps))
            && (w.eventId in AcceptedIds(Init(cfg), steps) ==> Apply(s, Receive(w)) == s)
  {
    var s := Run(Init(cfg), steps);
    InitKeeps(cfg);
    RunKeeps(Init(cfg), steps);
    InboxHoldsAccepted(Init(cfg), steps);
    FirstFailureOpensCase(s.db, w, s.now);
    assert w.eventId in s.db.inbox <==> w.eventId in s.db.inbox.Keys;
  }

  /** What the shared key costs: a first failure of one merchant is dropped after an event of another. */
  lemma EventIdsCollideAcrossMerchants(db: Db, now: real, w: Webhook, other: Webhook)
    requires DbInv(db) && Accepted(WebhookTx(db, w, now).outcome)
    requires other.eventId == w.eventId && FirstFailure(db, other)
    ensures WebhookTx(db, other, now).outcome == CaseCreated
    ensures WebhookTx(WebhookTx(db, w, now).db, other, now) == WebhookResult(WebhookTx(db, w, now).db, Duplicate)
  {
    FirstFailureOpensCase(db, other, now);
  }

  /** Under every configuration a run of one delivery to one merchant loses the first failure of every other merchant. */
  lemma CollisionRunExists(cfg: Config, w: Webhook) returns (steps: seq<Step>)
    requires w.merchantActive && w.delivery.PaymentFailed?
    ensures |steps| == 1 && steps[0].Receive? && steps[0].w.merchant != w.merchant
    ensures ValidRun(Init(cfg), steps)
    ensures var s := Run(Init(cfg), steps);
            && FirstFailure(s.db, w)
            && WebhookTx(Init(cfg).db, w, s.now).outcome == CaseCreated
            && WebhookTx(s.db, w, s.now) == WebhookResult(s.db, Duplicate)
  {
    var other := w.(merchant := w.merchant + 1);
    steps := [Receive(other)];
    InitKeeps(cfg);
    FirstFailureOpensCase(EMPTY_DB, other, 0.0);
    FirstFailureOpensCase(EMPTY_DB, w, 0.0);
    assert Run(Init(cfg), steps) == Run(Apply(Init(cfg), steps[0]), []);
  }

  // ----------------------------------------------------------------- captures

  /** A captured payment has no live case. */
  ghost predicate CapturedSettled(db: Db) {
    forall c | 0 <= c < |db.cases| && db.cases[c].payment < |db.payments|
               && db.payments[db.cases[c].payment].status == Captured ::
      IsTerminal(db.cases[c].status)
  }

  /** The capture of a payment with a live case whose notes name another case of the merchant. */
  predicate Misdirected(db: Db, m: nat, e: Entity) {
    var p := FindPayment(db.payments, m, e.providerId);
    p.Some? &&
    var own := FindCase(db.cases, p.value);
    && own.Some? && !IsTerminal(db.cases[own.value].status)
    && e.notesCase.Some? && e.notesCase.value < |db.cases|
    && db.cases[e.notesCase.value].merchant == m
    && e.notesCase != own
  }

  /** Only the case the capture settles changes, and it ends up terminal. */
  lemma CaptureSettlesTarget(db: Db, m: nat, c: nat, now: real, d: nat)
    requires c < |db.cases| && d < |db.cases|
    ensures var db' := MarkRecovered(db, m, c, now).db;
            && |db'.cases| == |db.cases| && db'.payments == db.payments
            && (d != c ==> db'.cases[d] == db.cases[d])
            && IsTerminal(db'.cases[c].status) && db'.cases[d].payment == db.cases[d].payment
  {
  }

  /**
   A capture keeps captured payments free of live cases exactly when it is not
   misdirected. The condition can be checked before the delivery is handled.
   */
  lemma CaptureKeepsSettledIff(db: Db, m: nat, e: Entity, now: real)
    requires DbInv(db) && CapturedSettled(db)
    ensures CapturedSettled(CapturedTx(db, m, e, now).db) <==> !Misdirected(db, m, e)
  {
    var (saved, p) := SaveCapturedPayment(db, m, e);
    CapturedPaymentSaved(db, m, e);
    var db' := CapturedTx(db, m, e, now).db;
    var target := CaptureTarget(saved.cases, m, p, e.notesCase);
    var own := FindCase(db.cases, p);
    assert |db'.cases| == |db.cases| && db'.payments == saved.payments;
    forall c: nat | c < |db.cases|
      ensures db'.cases[c].payment == db.cases[c].payment < |db.payments|
      ensures target == Some(c) ==> IsTerminal(db'.cases[c].status)
      ensures target != Some(c) ==> db'.cases[c] == db.cases[c]
      ensures db.cases[c].payment == p ==> own == Some(c)
    {
      assert CaseOk(db, c);
      if target.Some? {
        CaptureSettlesTarget(saved, m, target.value, now, c);
      }
    }
    if own.Some? && target != own {
      assert db'.cases[own.value] == db.cases[own.value];
    }
  }

  lemma FailureKeepsSettled(db: Db, m: nat, e: Entity, now: real)
    requires DbInv(db) && CapturedSettled(db)
    ensures CapturedSettled(FailedTx(db, m, e, now).db)
  {
    var db' := FailedTx(db, m, e, now).db;
    FailedKeeps(db, m, e, now);
    forall c: nat | c < |db'.cases| && db'.cases[c].payment < |db'.payments|
                    && db'.payments[db'.cases[c].payment].status == Captured
      ensures IsTerminal(db'.cases[c].status)
    {
      assert CaseOk(db', c);
      if c < |db.cases| {
        assert CaseOk(db, c);
        assert CaseStep(db.cases[c], db'.cases[c]);
      }
    }
  }

  ghost predicate WellAddressedStep(s: Sys, step: Step) {
    step.Receive? && step.w.delivery.PaymentCaptured? && Accepted(WebhookTx(s.db, step.w, s.now).outcome) ==>
      !Misdirected(s.db, step.w.merchant, step.w.delivery.entity)
  }

  /** Every capture that the run accepts is well addressed. */
  ghost predicate WellAddressed(s: Sys, steps: seq<Step>)
    requires ValidRun(s, steps)
    decreases |steps|
  {
    |steps| > 0 ==>
      && WellAddressedStep(s, steps[0])
      && WellAddressed(Apply(s, steps[0]), steps[1..])
  }

  lemma ReceiveKeepsSettledIff(s: Sys, w: Webhook)
    requires DbInv(s.db) && CapturedSettled(s.db)
    ensures CapturedSettled(WebhookTx(s.db, w, s.now).db) <==> WellAddressedStep(s, Receive(w))
  {
    var r := Handle(s.db, w.merchant, w.delivery, s.now);
    var tx := WebhookTx(s.db, w, s.now);
    if Accepted(tx.outcome) {
      match w.delivery {
        case PaymentFailed(e) => FailureKeepsSettled(s.db, w.merchant, e, s.now);
        case PaymentCaptured(e) => CaptureKeepsSettledIff(s.db, w.merchant, e, s.now);
        case _ =>
      }
      assert tx.db.cases == r.db.cases && tx.db.payments == r.db.payments;
    } else {
      assert tx.db == s.db;
    }
  }

  lemma WorkAddsNoCases(db: Db, now: real, task: Task, step: Step)
    requires ReadyFor(task.phase, step)
    ensures var db' := Work(db, now, task, step).0; db'.payments == db.payments && |db'.cases| == |db.cases|
  {
  }

  lemma OnlyWebhooksAddCases(s: Sys, step: Step)
    requires Enabled(s, step) && !step.Receive?
    ensures Apply(s, step).db.payments == s.db.payments && |Apply(s, step).db.cases| == |s.db.cases|
  {
    if IsWorkerStep(step) {
      WorkerStepWorks(s, step);
      WorkAddsNoCases(s.db, s.now, s.tasks[step.t], step);
    } else {
      OthersLeaveTables(s, step);
    }
  }

  lemma StepKeepsSettledIff(s: Sys, step: Step)
    requires Inv(s) && Enabled(s, step) && CapturedSettled(s.db)
    ensures CapturedSettled(Apply(s, step).db) <==> WellAddressedStep(s, step)
  {
    if step.Receive? {
      ReceiveKeepsSettledIff(s, step.w);
    } else {
      OnlyWebhooksAddCases(s, step);
      StepEvolves(s, step);
      var db, db' := s.db, Apply(s, step).db;
      forall c | 0 <= c < |db'.cases| && db'.cases[c].payment < |db'.payments|
                 && db'.payments[db'.cases[c].payment].status == Captured
        ensures IsTerminal(db'.cases[c].status)
      {
        assert CaseStep(db.cases[c], db'.cases[c]);
      }
    }
  }

  /** No state of the run has a captured payment with a live case. */
  ghost predicate AlwaysSettled(s: Sys, steps: seq<Step>)
    requires ValidRun(s, steps)
    decreases |steps|
  {
    CapturedSettled(s.db) && (|steps| > 0 ==> AlwaysSettled(Apply(s, steps[0]), steps[1..]))
  }

  lemma {:induction false} SettledExactlyWhenWellAddressed(s: Sys, steps: seq<Step>)
    requires Inv(s) && CapturedSettled(s.db) && ValidRun(s, steps)
    ensures AlwaysSettled(s, steps) <==> WellAddressed(s, steps)
    decreases |steps|
  {
    if |steps| > 0 {
      StepKeeps(s, steps[0]);
      StepKeepsSettledIff(s, steps[0]);
      if CapturedSettled(Apply(s, steps[0]).db) {
        SettledExactlyWhenWellAddressed(Apply(s, steps[0]), steps[1..]);
      }
    }
  }

  /**
   However failures and captures are ordered, repeated and interleaved with
   the workers: no captured payment has a live case at any moment of a run
   exactly when every capture that the run accepts is well addressed.
   */
  lemma CapturedIsNeverLiveIff(cfg: Config, steps: seq<Step>)
    requires ValidRun(Init(cfg), steps)
    ensures AlwaysSettled(Init(cfg), steps) <==> WellAddressed(Init(cfg), steps)
  {
    InitKeeps(cfg);
    SettledExactlyWhenWellAddressed(Init(cfg), steps);
  }

  /** Whatever is delivered, a captured payment stays as it is. */
  lemma CapturedIsAbsorbing(s: Sys, steps: seq<Step>, p: nat)
    requires Reachable(s) && ValidRun(s, steps)
    requires p < |s.db.payments| && s.db.payments[p].status == Captured
    ensures p < |Run(s, steps).db.payments| && Run(s, steps).db.payments[p] == s.db.payments[p]
  {
    ReachableIsGood(s);
    RunKeeps(s, steps);
    assert PaymentStep(s.db.payments[p], Run(s, steps).db.payments[p]);
  }

  /** A misdirected capture leaves its own payment captured and that payment's case live, whatever else it does. */
  lemma MisdirectedCaptureLeavesLiveCase(db: Db, m: nat, e: Entity, now: real)
    requires DbInv(db) && Misdirected(db, m, e)
    ensures var p := FindPayment(db.payments, m, e.providerId).value;
            var own := FindCase(db.cases, p).value;
            var db' := CapturedTx(db, m, e, now).db;
            && |db'.cases| == |db.cases| && |db'.payments| == |db.payments|
            && db'.payments[p].status == Captured
            && db'.cases[own] == db.cases[own] && db.cases[own].payment == p && !IsTerminal(db.cases[own].status)
    ensures !CapturedSettled(CapturedTx(db, m, e, now).db)
  {
    var (saved, p) := SaveCapturedPayment(db, m, e);
    var own := FindCase(db.cases, p).value;
    CaptureSettlesTarget(saved, m, e.notesCase.value, now, own);
  }

  function FailureOf(eventId: string, payment: string): Webhook {
    Webhook(0, true, eventId, PaymentFailed(Entity(payment, 5000, None, None)))
  }

  function MisdirectedCapture(eventId: string, payment: string): Webhook {
    Webhook(0, true, eventId, PaymentCaptured(Entity(payment, 5000, None, Some(1))))
  }

  /** Two payments of one merchant, each with a live case: naming the second case misdirects the capture of the first. */
  lemma TwoLiveCasesMisdirect(db: Db, a: string)
    requires |db.payments| == 2 && |db.cases| == 2
    requires db.payments[0].merchant == 0 && db.payments[0].providerId == a != db.payments[1].providerId
    requires db.cases[0].payment == 0 && db.cases[1].payment == 1
    requires db.cases[0].status == Eligible && db.cases[1].merchant == 0
    ensures Misdirected(db, 0, MisdirectedCapture("3", a).delivery.entity)
  {
    assert FindPayment(db.payments, 0, a) == Some(0);
    assert FindCase(db.cases, 0) == Some(0);
  }

  /** The second failure of the run. */
  lemma TwoFailures(db: Db, a: string, b: string)
    requires db == Opened(EMPTY_DB, FailureOf("1", a), 0.0) && DbInv(db) && a != b
    ensures var db' := WebhookTx(db, FailureOf("2", b), 0.0).db;
            && Misdirected(db', 0, MisdirectedCapture("3", a).delivery.entity)
            && "3" !in db'.inbox
  {
    assert FindPayment(db.payments, 0, b).None?;
    FirstFailureOpensCase(db, FailureOf("2", b), 0.0);
    TwoLiveCasesMisdirect(Opened(db, FailureOf("2", b), 0.0), a);
  }

  /** The capture of the run, from any state in which it is misdirected. */
  lemma MisdirectedDelivery(s: Sys, w: Webhook) returns (steps: seq<Step>)
    requires Inv(s) && w.merchantActive && w.eventId !in s.db.inbox && w.delivery.PaymentCaptured?
    requires Misdirected(s.db, w.merchant, w.delivery.entity)
    ensures ValidRun(s, steps) && !AlwaysSettled(s, steps)
  {
    steps := [Receive(w)];
    MisdirectedCaptureLeavesLiveCase(s.db, w.merchant, w.delivery.entity, s.now);
    var s' := Apply(s, steps[0]);
    var r := CapturedTx(s.db, w.merchant, w.delivery.entity, s.now);
    assert s'.db.cases == r.db.cases && s'.db.payments == r.db.payments;
    assert !AlwaysSettled(s', steps[1..]);
  }

  lemma AfterDelivery(s: Sys, w: Webhook, rest: seq<Step>) returns (steps: seq<Step>)
    requires ValidRun(Apply(s, Receive(w)), rest) && !AlwaysSettled(Apply(s, Receive(w)), rest)
    ensures ValidRun(s, steps) && !AlwaysSettled(s, steps)
  {
    steps := [Receive(w)] + rest;
    assert steps[1..] == rest;
  }

  /** The part of the run that follows the first failure. */
  lemma AfterFirstFailure(s: Sys, a: string, b: string) returns (steps: seq<Step>)
    requires Inv(s) && s.now == 0.0 && s.db == Opened(EMPTY_DB, FailureOf("1", a), 0.0) && a != b
    ensures ValidRun(s, steps) && !AlwaysSettled(s, steps)
  {
    var s' := Apply(s, Receive(FailureOf("2", b)));
    TwoFailures(s.db, a, b);
    ReceiveKeeps(s, FailureOf("2", b));
    steps := MisdirectedDelivery(s', MisdirectedCapture("3", a));
    steps := AfterDelivery(s, FailureOf("2", b), steps);
  }

  /** Such a run exists under every configuration: two failures and a capture that names the wrong case. */
  lemma MisdirectedRunExists(cfg: Config) returns (steps: seq<Step>)
    ensures ValidRun(Init(cfg), steps) && !AlwaysSettled(Init(cfg), steps)
  {
    var s, w := Init(cfg), FailureOf("1", "a");
    InitKeeps(cfg);
    ReceiveKeeps(s, w);
    FirstFailureOpensCase(s.db, w, s.now);
    steps := AfterFirstFailure(Apply(s, Receive(w)), "a", "b");
    steps := AfterDelivery(s, w, steps);
  }

  // ---------------------------------------------------------------- merchants

  /** No row changes hands. */
  ghost predicate MerchantsFixed(db: Db, db': Db)
    requires |db.payments| <= |db'.payments| && |db.cases| <= |db'.cases|
    requires |db.actions| <= |db'.actions| && |db.outbox| <= |db'.outbox|
  {
    && (forall i | 0 <= i < |db.payments| :: db'.payments[i].merchant == db.payments[i].merchant)
    && (forall i | 0 <= i < |db.cases| :: db'.cases[i].merchant == db.cases[i].merchant)
    && (forall i | 0 <= i < |db.actions| :: db'.actions[i].merchant == db.actions[i].merchant)
    && (forall i | 0 <= i < |db.outbox| :: db'.outbox[i].merchant == db.outbox[i].merchant)
    && (forall k | k in db.inbox :: k in db'.inbox && db'.inbox[k].merchant == db.inbox[k].merchant)
  }

  /** Every row that belonged to another merchant is as it was, and every new row is this merchant's. */
  ghost predicate TouchesOnly(db: Db, db': Db, m: nat) {
    && |db.payments| <= |db'.payments| && |db.cases| <= |db'.cases|
    && |db.actions| <= |db'.actions| && |db.outbox| <= |db'.outbox|
    && (forall i | 0 <= i < |db.payments| && db.payments[i].merchant != m :: db'.payments[i] == db.payments[i])
    && (forall i | 0 <= i < |db.cases| && db.cases[i].merchant != m :: db'.cases[i] == db.cases[i])
    && (forall i | 0 <= i < |db.actions| && db.actions[i].merchant != m :: db'.actions[i] == db.actions[i])
    && (forall i | 0 <= i < |db.outbox| && db.outbox[i].merchant != m :: db'.outbox[i] == db.outbox[i])
    && (forall k | k in db.inbox && db.inbox[k].merchant != m :: k in db'.inbox && db'.inbox[k] == db.inbox[k])
    && (forall i | |db.payments| <= i < |db'.payments| :: db'.payments[i].merchant == m)
    && (forall i | |db.cases| <= i < |db'.cases| :: db'.cases[i].merchant == m)
    && (forall i | |db.actions| <= i < |db'.actions| :: db'.actions[i].merchant == m)
    && (forall i | |db.outbox| <= i < |db'.outbox| :: db'.outbox[i].merchant == m)
    && (forall k | k in db'.inbox && k !in db.inbox :: db'.inbox[k].merchant == m)
    && MerchantsFixed(db, db')
  }

  lemma RecoveryTouchesOnly(db: Db, m: nat, c: nat, now: real)
    requires DbInv(db) && c < |db.cases| && db.cases[c].merchant == m
    ensures TouchesOnly(db, MarkRecovered(db, m, c, now).db, m)
  {
    forall a: nat | a < |db.actions| && db.actions[a].caseId == c ensures db.actions[a].merchant == m {
      assert ActionOk(db, a);
    }
  }

  lemma TouchesOnlyTrans(a: Db, b: Db, c: Db, m: nat)
    requires TouchesOnly(a, b, m) && TouchesOnly(b, c, m)
    ensures TouchesOnly(a, c, m)
  {
  }

  lemma FailureTouchesOnly(db: Db, m: nat, e: Entity, now: real)
    requires DbInv(db)
    ensures TouchesOnly(db, FailedTx(db, m, e, now).db, m)
  {
    var (saved, p) := SaveFailedPayment(db, m, e);
    var found := FindCase(db.cases, p);
    if found.Some? {
      assert CaseOk(db, found.value);
    }
  }

  lemma CaptureTouchesOnly(db: Db, m: nat, e: Entity, now: real)
    requires DbInv(db)
    ensures TouchesOnly(db, CapturedTx(db, m, e, now).db, m)
  {
    var (saved, p) := SaveCapturedPayment(db, m, e);
    CapturedPaymentSaved(db, m, e);
    var target := CaptureTarget(saved.cases, m, p, e.notesCase);
    assert TouchesOnly(db, saved, m);
    if target.Some? {
      assert CaseOk(saved, target.value);
      RecoveryTouchesOnly(saved, m, target.value, now);
      TouchesOnlyTrans(db, saved, CapturedTx(db, m, e, now).db, m);
    }
  }

  lemma HandleTouchesOnly(db: Db, m: nat, delivery: Delivery, now: real)
    requires DbInv(db)
    ensures TouchesOnly(db, Handle(db, m, delivery, now).db, m)
  {
    match delivery {
      case PaymentFailed(e) => FailureTouchesOnly(db, m, e, now);
      case PaymentCaptured(e) => CaptureTouchesOnly(db, m, e, now);
      case _ =>
    }
  }

  /** Adding this merchant's inbox row under a new key touches nobody else. */
  lemma InboxTouchesOnly(db: Db, mid: Db, id: string, row: InboxRow)
    requires mid.inbox == db.inbox && id !in db.inbox && TouchesOnly(db, mid, row.merchant)
    ensures TouchesOnly(db, mid.(inbox := db.inbox[id := row]), row.merchant)
  {
  }

  lemma WebhookTouchesOnly(db: Db, w: Webhook, now: real)
    requires DbInv(db)
    ensures TouchesOnly(db, WebhookTx(db, w, now).db, w.merchant)
  {
    var r, tx := Handle(db, w.merchant, w.delivery, now), WebhookTx(db, w, now);
    if Accepted(tx.outcome) {
      HandleTouchesOnly(db, w.merchant, w.delivery, now);
      HandleIgnoresInbox(db, db.inbox, w.merchant, w.delivery, now);
      InboxTouchesOnly(db, r.db, w.eventId, tx.db.inbox[w.eventId]);
    } else {
      assert tx.db == db;
    }
  }

  /**
   A webhook addressed to one merchant leaves every row of every other merchant
   as it was, also when its notes name another merchant's case.
   */
  lemma WebhookTouchesOneMerchant(s: Sys, w: Webhook)
    requires Reachable(s)
    ensures TouchesOnly(s.db, Apply(s, Receive(w)).db, w.merchant)
  {
    ReachableIsGood(s);
    WebhookTouchesOnly(s.db, w, s.now);
  }

  /** Linked rows always share one merchant. */
  lemma LinkedRowsShareMerchant(s: Sys)
    requires Reachable(s)
    ensures forall c: nat | c < |s.db.cases| ::
              s.db.cases[c].payment < |s.db.payments|
              && s.db.payments[s.db.cases[c].payment].merchant == s.db.cases[c].merchant
    ensures forall a: nat | a < |s.db.actions| ::
              s.db.actions[a].caseId < |s.db.cases|
              && s.db.actions[a].merchant == s.db.cases[s.db.actions[a].caseId].merchant
    ensures forall r: nat | r < |s.db.outbox| ::
              s.db.outbox[r].event.caseId < |s.db.cases|
              && s.db.outbox[r].merchant == s.db.cases[s.db.outbox[r].event.caseId].merchant
    ensures forall r: nat | r < |s.db.outbox| && s.db.outbox[r].event.ScheduledEvent? ::
              var a := s.db.outbox[r].event.actionId;
              && a < |s.db.actions| && s.db.actions[a].caseId == s.db.outbox[r].event.caseId
              && s.db.actions[a].merchant == s.db.outbox[r].merchant
  {
    ReachableIsGood(s);
    forall r: nat | r < |s.db.outbox| && s.db.outbox[r].event.ScheduledEvent?
      ensures var a := s.db.outbox[r].event.actionId;
              && a < |s.db.actions| && s.db.actions[a].caseId == s.db.outbox[r].event.caseId
              && s.db.actions[a].merchant == s.db.outbox[r].merchant
    {
      assert RowOk(s.db, r) && ActionOk(s.db, s.db.outbox[r].event.actionId);
    }
    forall c: nat | c < |s.db.cases|
      ensures s.db.cases[c].payment < |s.db.payments|
              && s.db.payments[s.db.cases[c].payment].merchant == s.db.cases[c].merchant
    {
      assert CaseOk(s.db, c);
    }
    forall a: nat | a < |s.db.actions|
      ensures s.db.actions[a].caseId < |s.db.cases|
              && s.db.actions[a].merchant == s.db.cases[s.db.actions[a].caseId].merchant
    {
      assert ActionOk(s.db, a);
    }
    forall r: nat | r < |s.db.outbox|
      ensures s.db.outbox[r].event.caseId < |s.db.cases|
              && s.db.outbox[r].merchant == s.db.cases[s.db.outbox[r].event.caseId].merchant
    {
      assert RowOk(s.db, r);
    }
  }
}
