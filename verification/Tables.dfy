/**
 The shared tables and what each transaction of the system does to them.
 A row's id is its position in its table; rows are never deleted. Times are
 hours on one clock.
 */
module Tables {
  import opened Domain
  import opened Policy

  datatype PaymentRow = PaymentRow(merchant: nat, providerId: string, status: PaymentStatus, amount: nat)

  datatype CaseRow = CaseRow(
    merchant: nat,
    payment: nat,
    status: CaseStatus,
    amount: nat,
    category: Option<string>,
    nextActionAt: Option<real>,
    version: nat)

  datatype ActionRow = ActionRow(
    merchant: nat,
    caseId: nat,
    kind: ActionType,
    status: ActionStatus,
    attempt: nat,
    createdAt: real)

  /** What an outbox row announces; it is also the row's idempotency key. */
  datatype OutboxEvent =
    | EligibleEvent(caseId: nat)
    | ScheduledEvent(caseId: nat, actionId: nat)
    | RecoveredEvent(caseId: nat)

  datatype OutboxRow = OutboxRow(
    merchant: nat,
    event: OutboxEvent,
    status: OutboxStatus,
    attempts: nat,
    createdAt: real,
    deliverAt: Option<real>)

  datatype InboxStatus = Processed | IgnoredEvent

  datatype InboxRow = InboxRow(merchant: nat, status: InboxStatus)

  datatype AuditEntry =
    | EligibleAudit(caseId: nat)
    | DecisionAudit(caseId: nat, action: ActionType, finalStatus: CaseStatus)
    | ClaimedAudit(actionId: nat, caseId: nat)
    | CancelledAudit(actionId: nat, caseId: nat, caseStatus: CaseStatus)
    | ExecutedAudit(actionId: nat, caseId: nat)
    | FailedAudit(actionId: nat, caseId: nat)
    | RecoveredAudit(caseId: nat)

  datatype Db = Db(
    payments: seq<PaymentRow>,
    cases: seq<CaseRow>,
    actions: seq<ActionRow>,
    outbox: seq<OutboxRow>,
    inbox: map<string, InboxRow>,
    audit: seq<AuditEntry>)

  const EMPTY_DB: Db := Db([], [], [], [], map[], [])

  // ---------------------------------------------------------------- queries

  /** The first position that satisfies `p`. */
  function IndexWhere<T>(s: seq<T>, p: T -> bool): (r: Option<nat>)
    ensures r.Some? ==> r.value < |s| && p(s[r.value])
    ensures r.None? ==> forall i :: 0 <= i < |s| ==> !p(s[i])
  {
    if |s| == 0 then None
    else
      var r := IndexWhere(s[..|s| - 1], p);
      if r.Some? then r
      else if p(s[|s| - 1]) then Some(|s| - 1)
      else None
  }

  function FindPayment(payments: seq<PaymentRow>, m: nat, providerId: string): Option<nat> {
    IndexWhere(payments, (p: PaymentRow) => p.merchant == m && p.providerId == providerId)
  }

  function FindCase(cases: seq<CaseRow>, payment: nat): Option<nat> {
    IndexWhere(cases, (c: CaseRow) => c.payment == payment)
  }

  /** An action is looked up by the case, type and attempt that make its key. */
  function FindAction(actions: seq<ActionRow>, c: nat, kind: ActionType, attempt: nat): Option<nat> {
    IndexWhere(actions, (a: ActionRow) => a.caseId == c && a.kind == kind && a.attempt == attempt)
  }

  function FindRow(outbox: seq<OutboxRow>, event: OutboxEvent): Option<nat> {
    IndexWhere(outbox, (r: OutboxRow) => r.event == event)
  }

  predicate Counted(s: ActionStatus) {
    !s.Denied? && !s.Cancelled?
  }

  predicate ActiveLink(a: ActionRow) {
    a.kind.CreatePaymentLink? && a.status in {PendingAction, Approved, Executing}
  }

  /** The three counts of a case's actions, leaving out the action `exclude` if there is one. */
  function CountActions(actions: seq<ActionRow>, c: nat, exclude: Option<nat>): Counts {
    if |actions| == 0 then Counts(0, 0, 0)
    else
      var last := |actions| - 1;
      var a := actions[last];
      var rest := CountActions(actions[..last], c, exclude);
      if a.caseId != c || exclude == Some(last) then rest
      else
        Counts(
          rest.total + (if Counted(a.status) then 1 else 0),
          rest.reminders + (if Counted(a.status) && a.kind.SendReminder? then 1 else 0),
          rest.activeLinks + (if ActiveLink(a) then 1 else 0))
  }

  // ---------------------------------------------------------- row operations

  /** The row is still in the expected status and version. */
  predicate Guard(cases: seq<CaseRow>, c: nat, expected: CaseStatus, version: nat) {
    c < |cases| && cases[c].status == expected && cases[c].version == version
  }

  /** The status- and version-guarded update. */
  function GuardedUpdate(cases: seq<CaseRow>, c: nat, expected: CaseStatus, version: nat, next: CaseStatus): seq<CaseRow> {
    if Guard(cases, c, expected, version)
    then cases[c := cases[c].(status := next, version := version + 1)]
    else cases
  }

  function AddRowIfMissing(outbox: seq<OutboxRow>, m: nat, event: OutboxEvent, now: real): seq<OutboxRow> {
    if FindRow(outbox, event).Some? then outbox
    else outbox + [OutboxRow(m, event, PendingRow, 0, now, None)]
  }

  function CancelIfOpen(a: ActionRow, c: nat): ActionRow {
    if a.caseId == c && a.status in {PendingAction, Approved} then a.(status := Cancelled) else a
  }

  function CancelOpen(actions: seq<ActionRow>, c: nat): (r: seq<ActionRow>)
    ensures |r| == |actions|
    ensures forall i :: 0 <= i < |actions| ==> r[i] == CancelIfOpen(actions[i], c)
  {
    if |actions| == 0 then []
    else CancelOpen(actions[..|actions| - 1], c) + [CancelIfOpen(actions[|actions| - 1], c)]
  }

  // ---------------------------------------------------------------- webhooks

  /** The payment a webhook is about; `notesCase` is the case its notes name, if they name one. */
  datatype Entity = Entity(providerId: string, amount: nat, errorCode: Option<string>, notesCase: Option<nat>)

  datatype Delivery =
    | PaymentFailed(entity: Entity)
    | PaymentCaptured(entity: Entity)
    | UnsupportedEvent
    | InvalidPayload

  datatype Webhook = Webhook(merchant: nat, merchantActive: bool, eventId: string, delivery: Delivery)

  datatype WebhookOutcome =
    | MerchantNotFound | Duplicate | Rejected | UnsupportedIgnored
    | AlreadyCaptured | CaseCreated | CaseActivated | CaseExists
    | NoCase | AlreadyTerminal | CaseRecovered

  datatype WebhookResult = WebhookResult(db: Db, outcome: WebhookOutcome)

  function SaveFailedPayment(db: Db, m: nat, e: Entity): (Db, nat) {
    match FindPayment(db.payments, m, e.providerId)
    case None =>
      (db.(payments := db.payments + [PaymentRow(m, e.providerId, FailedPayment, e.amount)]), |db.payments|)
    case Some(p) =>
      (db.(payments := db.payments[p := db.payments[p].(status := FailedPayment, amount := e.amount)]), p)
  }

  /** A case enters recovery: it becomes ELIGIBLE, and is audited and announced. */
  function Activate(db: Db, m: nat, c: nat, row: CaseRow, now: real): Db
    requires c <= |db.cases|
  {
    db.(cases := if c < |db.cases| then db.cases[c := row] else db.cases + [row],
        audit := db.audit + [EligibleAudit(c)],
        outbox := AddRowIfMissing(db.outbox, m, EligibleEvent(c), now))
  }

  function FailedTx(db: Db, m: nat, e: Entity, now: real): WebhookResult {
    var known := FindPayment(db.payments, m, e.providerId);
    if known.Some? && db.payments[known.value].status == Captured then WebhookResult(db, AlreadyCaptured)
    else
      var (saved, p) := SaveFailedPayment(db, m, e);
      match FindCase(db.cases, p)
      case None =>
        var row := CaseRow(m, p, Eligible, e.amount, Some(ClassifyFailure(e.errorCode)), None, 2);
        WebhookResult(Activate(saved, m, |db.cases|, row, now), CaseCreated)
      case Some(c) =>
        if db.cases[c].status == Failed then
          var row := db.cases[c].(status := Eligible, version := db.cases[c].version + 1);
          WebhookResult(Activate(saved, m, c, row, now), CaseActivated)
        else
          WebhookResult(saved, CaseExists)
  }

  function SaveCapturedPayment(db: Db, m: nat, e: Entity): (Db, nat) {
    match FindPayment(db.payments, m, e.providerId)
    case None =>
      (db.(payments := db.payments + [PaymentRow(m, e.providerId, Captured, e.amount)]), |db.payments|)
    case Some(p) =>
      (db.(payments := db.payments[p := db.payments[p].(status := Captured)]), p)
  }

  /** The case a capture settles: the one its notes name if that is this merchant's, else its payment's. */
  function CaptureTarget(cases: seq<CaseRow>, m: nat, payment: nat, notesCase: Option<nat>): (r: Option<nat>)
    ensures r.Some? ==> r.value < |cases|
  {
    if notesCase.Some? && notesCase.value < |cases| && cases[notesCase.value].merchant == m then notesCase
    else FindCase(cases, payment)
  }

  function MarkRecovered(db: Db, m: nat, c: nat, now: real): WebhookResult
    requires c < |db.cases|
  {
    if IsTerminal(db.cases[c].status) then WebhookResult(db, AlreadyTerminal)
    else
      WebhookResult(
        db.(cases := db.cases[c := db.cases[c].(status := Recovered, version := db.cases[c].version + 1)],
            actions := CancelOpen(db.actions, c),
            audit := db.audit + [RecoveredAudit(c)],
            outbox := AddRowIfMissing(db.outbox, m, RecoveredEvent(c), now)),
        CaseRecovered)
  }

  function CapturedTx(db: Db, m: nat, e: Entity, now: real): WebhookResult {
    var (saved, p) := SaveCapturedPayment(db, m, e);
    match CaptureTarget(saved.cases, m, p, e.notesCase)
    case None => WebhookResult(saved, NoCase)
    case Some(c) => MarkRecovered(saved, m, c, now)
  }

  /** What a delivery does to the tables, its inbox row apart. */
  function Handle(db: Db, m: nat, delivery: Delivery, now: real): WebhookResult {
    match delivery
    case UnsupportedEvent => WebhookResult(db, UnsupportedIgnored)
    case InvalidPayload => WebhookResult(db, Rejected)
    case PaymentFailed(e) => FailedTx(db, m, e, now)
    case PaymentCaptured(e) => CapturedTx(db, m, e, now)
  }

  /** The handlers neither read nor write the inbox. */
  lemma HandleIgnoresInbox(db: Db, inbox: map<string, InboxRow>, m: nat, delivery: Delivery, now: real)
    ensures var r, r' := Handle(db, m, delivery, now), Handle(db.(inbox := inbox), m, delivery, now);
            r' == r.(db := r.db.(inbox := inbox)) && r.db.inbox == db.inbox
  {
  }

  /** One webhook delivery: a single transaction, rolled back when the payload is invalid. */
  function WebhookTx(db: Db, w: Webhook, now: real): WebhookResult {
    if !w.merchantActive then WebhookResult(db, MerchantNotFound)
    else if w.eventId in db.inbox then WebhookResult(db, Duplicate)
    else
      var r := Handle(db, w.merchant, w.delivery, now);
      if r.outcome == Rejected then r
      else
        var status := if w.delivery.UnsupportedEvent? then IgnoredEvent else Processed;
        r.(db := r.db.(inbox := r.db.inbox[w.eventId := InboxRow(w.merchant, status)]))
  }

  // --------------------------------------------------------- decision worker

  datatype DecisionOutcome = NotEligible | StaleJob | ActionAlreadyExists | SelectionConflict | DecisionMade

  datatype DecisionResult = DecisionResult(db: Db, outcome: DecisionOutcome)

  function FinalStatus(a: ActionType): CaseStatus {
    match a
    case Stop => Stopped
    case Escalate => Escalated
    case _ => ActionScheduled
  }

  /** The new action of a decision, which is created before the case moves on. */
  function WithAction(db: Db, c: nat, seen: CaseRow, d: Decision, now: real): Db {
    db.(actions := db.actions + [ActionRow(seen.merchant, c, d.action, Approved, 1, now)])
  }

  /** The case in its final status, announced and audited; its action is the last one. */
  function Completed(db: Db, c: nat, seen: CaseRow, d: Decision, now: real): Db
    requires c < |db.cases| && |db.actions| > 0
  {
    var due := now + d.delayHours;
    var row := db.cases[c].(status := FinalStatus(d.action), version := seen.version + 3);
    db.(cases := db.cases[c := if Executable(d.action) then row.(nextActionAt := Some(due)) else row],
        outbox := if Executable(d.action)
                  then db.outbox + [OutboxRow(seen.merchant, ScheduledEvent(c, |db.actions| - 1), PendingRow, 0, now, Some(due))]
                  else db.outbox,
        audit := db.audit + [DecisionAudit(c, d.action, FinalStatus(d.action))])
  }

  /**
   The decision `d` on record, in tables whose case `c` should be ANALYSING: not
   if the case has such an action already, and if the case has moved on then
   with the new action and nothing else.
   */
  function RecordTx(db: Db, c: nat, seen: CaseRow, d: Decision, now: real): DecisionResult {
    if FindAction(db.actions, c, d.action, 1).Some? then DecisionResult(db, ActionAlreadyExists)
    else
      var created := WithAction(db, c, seen, d, now);
      if !Guard(db.cases, c, Analysing, seen.version + 1) then DecisionResult(created, SelectionConflict)
      else DecisionResult(Completed(created, c, seen, d, now), DecisionMade)
  }

  /**
   The decision transaction on case `c`, whose row was read as `seen` some
   time before: it wins only if the row is still what was read, and then moves
   the case in one jump to the final status of the chosen action.
   */
  function DecideTx(db: Db, c: nat, seen: CaseRow, limits: Limits, reply: ModelReply, now: real): DecisionResult {
    if seen.status != Eligible then DecisionResult(db, NotEligible)
    else if !Guard(db.cases, c, Eligible, seen.version) then DecisionResult(db, StaleJob)
    else
      RecordTx(
        db.(cases := GuardedUpdate(db.cases, c, Eligible, seen.version, Analysing)), c, seen,
        Decide(limits, seen.amount, seen.category, CountActions(db.actions, c, None), reply), now)
  }

  // ---------------------------------------------------------------- executor

  /** What the claim reads before it writes. */
  datatype ClaimRead = ClaimRead(action: ActionRow, caseRow: CaseRow, allowed: bool)

  datatype ClaimOutcome = MissingAction | MissingCase | CancelledByPolicy | NotApproved | NotClaimable | Claimed

  datatype ClaimResult = ClaimResult(db: Db, outcome: ClaimOutcome)

  /** The policy re-check at execution time, on the rows as read. */
  function ClaimAllowed(action: ActionRow, caseRow: CaseRow, counts: Counts, limits: Limits): bool {
    var d := EvaluatePolicy(limits, PolicyInput(caseRow.status, caseRow.amount, action.kind, counts), None);
    !IsTerminal(caseRow.status) && d.approved && d.action == action.kind
  }

  function ReadForClaim(db: Db, a: nat, limits: Limits): ClaimRead
    requires a < |db.actions| && db.actions[a].caseId < |db.cases|
  {
    var action := db.actions[a];
    var caseRow := db.cases[action.caseId];
    ClaimRead(action, caseRow, ClaimAllowed(action, caseRow, CountActions(db.actions, action.caseId, Some(a)), limits))
  }

  /** The rest of the claim transaction, on tables that may have moved since the read. */
  function ClaimTx(db: Db, a: nat, read: ClaimRead): ClaimResult
    requires a < |db.actions|
  {
    var c := read.action.caseId;
    var approved := db.actions[a].status == Approved;
    if !read.allowed then
      if approved then
        ClaimResult(
          db.(actions := db.actions[a := db.actions[a].(status := Cancelled)],
              audit := db.audit + [CancelledAudit(a, c, read.caseRow.status)],
              cases := if read.caseRow.status == ActionScheduled
                       then GuardedUpdate(db.cases, c, ActionScheduled, read.caseRow.version, Stopped)
                       else db.cases),
          CancelledByPolicy)
      else ClaimResult(db, CancelledByPolicy)
    else if read.action.status != Approved then ClaimResult(db, NotApproved)
    else if !approved then ClaimResult(db, NotClaimable)
    else
      ClaimResult(
        db.(actions := db.actions[a := db.actions[a].(status := Executing)],
            audit := db.audit + [ClaimedAudit(a, c)]),
        Claimed)
  }

  /** Recording a successful provider call; the case row was read as `seen` before the write. */
  function SuccessTx(db: Db, a: nat, c: nat, seen: CaseRow): Db {
    if a >= |db.actions| || c >= |db.cases| || db.actions[a].status != Executing then db
    else
      db.(actions := db.actions[a := db.actions[a].(status := Executed)],
          cases := if seen.status == ActionScheduled
                   then GuardedUpdate(db.cases, c, ActionScheduled, seen.version, Waiting)
                   else db.cases,
          audit := db.audit + [ExecutedAudit(a, c)])
  }

  /** Recording a failed provider call: the case is left where it is. */
  function FailureTx(db: Db, a: nat, c: nat): Db {
    if a >= |db.actions| || c >= |db.cases| then db
    else
      db.(actions := if db.actions[a].status == Executing
                     then db.actions[a := db.actions[a].(status := FailedAction)]
                     else db.actions,
          audit := db.audit + [FailedAudit(a, c)])
  }

  // -------------------------------------------------------------- dispatcher

  predicate Due(row: OutboxRow, now: real) {
    row.deliverAt.None? || row.deliverAt.value <= now
  }

  /** A row after one attempt to publish it. */
  function Attempted(row: OutboxRow, published: bool, maxAttempts: nat): OutboxRow {
    if published then row.(status := Published, attempts := row.attempts + 1)
    else if row.attempts + 1 >= maxAttempts then row.(status := FailedRow, attempts := row.attempts + 1)
    else row.(attempts := row.attempts + 1)
  }

  /** The table after the rows `sel` were attempted in turn with the given results. */
  function AttemptAll(outbox: seq<OutboxRow>, sel: seq<nat>, results: seq<bool>, maxAttempts: nat): (r: seq<OutboxRow>)
    requires |results| <= |sel|
    requires forall i :: 0 <= i < |sel| ==> sel[i] < |outbox|
    ensures |r| == |outbox|
    decreases |results|
  {
    if |results| == 0 then outbox
    else
      var n := |results| - 1;
      var rows := AttemptAll(outbox, sel, results[..n], maxAttempts);
      rows[sel[n] := Attempted(rows[sel[n]], results[n], maxAttempts)]
  }

  predicate Available(outbox: seq<OutboxRow>, locked: set<nat>, now: real, r: nat) {
    r < |outbox| && outbox[r].status == PendingRow && Due(outbox[r], now) && r !in locked
  }

  predicate Distinct(sel: seq<nat>) {
    forall i, j | 0 <= i < j < |sel| :: sel[i] != sel[j]
  }

  /** `sel` answers the dispatcher's query: available rows, oldest first, as many as the limit allows. */
  ghost predicate IsBatch(outbox: seq<OutboxRow>, locked: set<nat>, now: real, limit: nat, sel: seq<nat>) {
    && |sel| <= limit
    && Distinct(sel)
    && (forall i :: 0 <= i < |sel| ==> Available(outbox, locked, now, sel[i]))
    && (forall i, j | 0 <= i < j < |sel| :: outbox[sel[i]].createdAt <= outbox[sel[j]].createdAt)
    && (forall r: nat :: Available(outbox, locked, now, r) && r !in sel ==>
          |sel| == limit && forall i :: 0 <= i < |sel| ==> outbox[sel[i]].createdAt <= outbox[r].createdAt)
  }
}
