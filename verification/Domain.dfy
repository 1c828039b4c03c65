/**
 The vocabulary of the recovery system: statuses, action types and the table
 of allowed case transitions.
 */
module Domain {

  datatype Option<+T> = None | Some(value: T)

  datatype PaymentStatus = CreatedPayment | FailedPayment | Captured

  datatype CaseStatus =
    | Failed | Eligible | Analysing | ActionSelected | ActionScheduled
    | Waiting | Recovered | Stopped | Escalated

  datatype ActionType = Wait | CreatePaymentLink | SendReminder | Stop | Escalate

  datatype ActionStatus =
    | PendingAction | Approved | Denied | Executing | Executed | FailedAction | Cancelled

  datatype OutboxStatus = PendingRow | Published | FailedRow

  /** The action types that the executor can carry out. */
  predicate Executable(a: ActionType) {
    a.Wait? || a.CreatePaymentLink? || a.SendReminder?
  }

  predicate IsTerminal(s: CaseStatus) {
    s in {Recovered, Stopped, Escalated}
  }

  function AllowedTransitions(s: CaseStatus): set<CaseStatus> {
    match s
    case Failed => {Eligible, Stopped, Recovered}
    case Eligible => {Analysing, Stopped, Recovered}
    case Analysing => {ActionSelected, Waiting, Stopped, Escalated, Recovered}
    case ActionSelected => {ActionScheduled, Stopped, Escalated, Recovered}
    case ActionScheduled => {Waiting, Stopped, Escalated, Recovered}
    case Waiting => {ActionSelected, Analysing, Recovered, Stopped, Escalated}
    case Recovered => {}
    case Stopped => {}
    case Escalated => {}
  }

  predicate CanTransition(current: CaseStatus, next: CaseStatus) {
    next in AllowedTransitions(current)
  }

  /** False exactly where the validation raises InvalidStateTransition. */
  predicate ValidTransition(current: CaseStatus, next: CaseStatus) {
    current == next || (!IsTerminal(current) && CanTransition(current, next))
  }

  /** Every live case may be recovered: a capture is never refused by the table. */
  lemma LiveMayRecover(s: CaseStatus)
    ensures ValidTransition(s, Recovered) <==> !IsTerminal(s) || s == Recovered
  {
  }

  /** The terminal statuses are those that no transition leaves. */
  lemma TerminalHasNoExit(s: CaseStatus)
    ensures IsTerminal(s) <==> forall next :: !CanTransition(s, next)
  {
    assert CanTransition(Failed, Recovered) && CanTransition(Eligible, Recovered) && CanTransition(Analysing, Recovered);
    assert CanTransition(ActionSelected, Recovered) && CanTransition(ActionScheduled, Recovered) && CanTransition(Waiting, Recovered);
  }

  /** The table read backwards: from where each status is entered. */
  lemma EnteredFrom(s: CaseStatus)
    ensures !CanTransition(s, Failed)
    ensures CanTransition(s, Eligible) <==> s == Failed
    ensures CanTransition(s, Analysing) <==> s in {Eligible, Waiting}
    ensures CanTransition(s, ActionSelected) <==> s in {Analysing, Waiting}
    ensures CanTransition(s, ActionScheduled) <==> s == ActionSelected
    ensures CanTransition(s, Waiting) <==> s in {Analysing, ActionScheduled}
    ensures CanTransition(s, Recovered) <==> s !in {Recovered, Stopped, Escalated}
    ensures CanTransition(s, Stopped) <==> s !in {Recovered, Stopped, Escalated}
    ensures CanTransition(s, Escalated) <==> s in {Analysing, ActionSelected, ActionScheduled, Waiting}
  {
  }

  /** A chain of table transitions. */
  ghost predicate Chain(path: seq<CaseStatus>) {
    forall i :: 0 < i < |path| ==> CanTransition(path[i - 1], path[i])
  }

  /** Round the cycle through WAITING `n` times. */
  function Cycle(n: nat): seq<CaseStatus> {
    if n == 0 then [Analysing]
    else Cycle(n - 1) + [ActionSelected, ActionScheduled, Waiting, Analysing]
  }

  /** The table alone bounds nothing: it has chains of every length that never end. */
  lemma {:induction false} TableIsUnbounded(n: nat)
    ensures Chain(Cycle(n)) && |Cycle(n)| == 4 * n + 1
    ensures Cycle(n)[|Cycle(n)| - 1] == Analysing
  {
    if n > 0 {
      TableIsUnbounded(n - 1);
      var shorter, path := Cycle(n - 1), Cycle(n);
      forall i | 0 < i < |path| ensures CanTransition(path[i - 1], path[i]) {
        if i < |shorter| {
          assert CanTransition(shorter[i - 1], shorter[i]);
        }
      }
    }
  }
}
