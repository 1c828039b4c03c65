/**
 The decision pipeline: the deterministic engine, the merchant policy, the
 untrusted agent and the rule that combines the three.
 */
module Policy {
  import opened Domain

  // ---------------------------------------------------------------- strings

  predicate IsSpace(c: char) {
    c in {' ', '\t', '\n', '\r', '\U{B}', '\U{C}', '\U{1C}', '\U{1D}', '\U{1E}', '\U{1F}'}
  }

  function LowerChar(c: char): char {
    if 'A' <= c <= 'Z' then (c as int + 32) as char else c
  }

  function UpperChar(c: char): char {
    if 'a' <= c <= 'z' then (c as int - 32) as char else c
  }

  function Lower(s: string): string {
    seq(|s|, i requires 0 <= i < |s| => LowerChar(s[i]))
  }

  function Upper(s: string): string {
    seq(|s|, i requires 0 <= i < |s| => UpperChar(s[i]))
  }

  function Strip(s: string): string {
    if s == "" then s
    else if IsSpace(s[0]) then Strip(s[1..])
    else if IsSpace(s[|s| - 1]) then Strip(s[..|s| - 1])
    else s
  }

  predicate Contains(s: string, part: string) {
    exists i | 0 <= i <= |s| :: part <= s[i..]
  }

  // ----------------------------------------------------------------- engine

  const MIN_RECOVERABLE: int := 1000

  datatype EngineDecision = EngineDecision(action: ActionType, delayHours: Option<real>)

  function ClassifyFailure(code: Option<string>): string {
    if code.None? || code.value == "" then "unknown"
    else
      var c := Upper(code.value);
      if Contains(c, "EXPIRED") then "expired_instrument"
      else if Contains(c, "INSUFFICIENT") then "insufficient_funds"
      else if Contains(c, "NETWORK") || Contains(c, "TIMEOUT") then "temporary_network"
      else "issuer_failure"
  }

  function Normalise(category: Option<string>): string {
    var raw := if category.None? || category.value == "" then "unknown" else category.value;
    Lower(Strip(raw))
  }

  function EvaluateRecovery(amount: int, category: Option<string>): EngineDecision {
    if amount < MIN_RECOVERABLE then EngineDecision(Stop, None)
    else
      var c := Normalise(category);
      if c == "expired_instrument" then EngineDecision(CreatePaymentLink, None)
      else if c == "insufficient_funds" then EngineDecision(Wait, Some(24.0))
      else if c == "temporary_network" then EngineDecision(SendReminder, None)
      else if c == "issuer_failure" then EngineDecision(Escalate, None)
      else EngineDecision(Stop, None)
  }

  // ----------------------------------------------------------------- policy

  datatype Limits = Limits(
    maxActions: int,
    maxReminders: int,
    oneActiveLink: bool,
    escalateHighValue: bool,
    highValueThreshold: int)

  datatype Counts = Counts(total: nat, reminders: nat, activeLinks: nat)

  datatype PolicyInput = PolicyInput(status: CaseStatus, amount: int, candidate: ActionType, counts: Counts)

  datatype PolicyReason =
    | TerminalProtected | HighValueRequiresEscalation | MaxActionsReached
    | MaxRemindersReached | ActiveLinkExists | ApprovedWait | PolicyApproved

  datatype PolicyDecision =
    PolicyDecision(approved: bool, action: ActionType, reason: PolicyReason, delayHours: Option<real>)

  predicate HighValue(limits: Limits, amount: int) {
    limits.escalateHighValue && amount >= limits.highValueThreshold
  }

  function EvaluatePolicy(limits: Limits, input: PolicyInput, delay: Option<real>): PolicyDecision {
    if IsTerminal(input.status) then
      PolicyDecision(false, Stop, TerminalProtected, None)
    else if HighValue(limits, input.amount) && input.candidate !in {Escalate, Stop} then
      PolicyDecision(false, Escalate, HighValueRequiresEscalation, None)
    else if input.counts.total >= limits.maxActions then
      PolicyDecision(false, Stop, MaxActionsReached, None)
    else if input.candidate == SendReminder && input.counts.reminders >= limits.maxReminders then
      PolicyDecision(false, Stop, MaxRemindersReached, None)
    else if input.candidate == CreatePaymentLink && limits.oneActiveLink && input.counts.activeLinks > 0 then
      PolicyDecision(false, Wait, ActiveLinkExists, Some(1.0))
    else if input.candidate == Wait then
      PolicyDecision(true, Wait, ApprovedWait, delay)
    else
      PolicyDecision(true, input.candidate, PolicyApproved, None)
  }

  /** What the policy permits, said without the order in which it is checked. */
  ghost predicate Permits(limits: Limits, input: PolicyInput) {
    && !IsTerminal(input.status)
    && (HighValue(limits, input.amount) ==> !Executable(input.candidate))
    && input.counts.total < limits.maxActions
    && (input.candidate.SendReminder? ==> input.counts.reminders < limits.maxReminders)
    && (input.candidate.CreatePaymentLink? ==> !(limits.oneActiveLink && input.counts.activeLinks > 0))
  }

  /** Approval is permission, an approved candidate is kept, and a denial never contacts the customer. */
  lemma PolicyApprovesExactlyThePermitted(limits: Limits, input: PolicyInput, delay: Option<real>)
    ensures EvaluatePolicy(limits, input, delay).approved <==> Permits(limits, input)
    ensures Permits(limits, input) ==> EvaluatePolicy(limits, input, delay).action == input.candidate
    ensures !Permits(limits, input) ==> EvaluatePolicy(limits, input, delay).action !in {CreatePaymentLink, SendReminder}
  {
  }

  /**
   The policy's answer, asked about again on the same inputs, is approved
   exactly when the case is live and still has actions left. A denial is
   therefore not always an approvable action: a high-value case with no
   actions left is answered with ESCALATE, which the policy would deny.
   */
  lemma AnswerApprovableIff(limits: Limits, input: PolicyInput, delay: Option<real>, delay': Option<real>)
    ensures var answer := EvaluatePolicy(limits, input, delay).action;
            EvaluatePolicy(limits, input.(candidate := answer), delay').approved
            <==> !IsTerminal(input.status) && input.counts.total < limits.maxActions
  {
    var answer := EvaluatePolicy(limits, input, delay).action;
    PolicyApprovesExactlyThePermitted(limits, input, delay);
    PolicyApprovesExactlyThePermitted(limits, input.(candidate := answer), delay');
  }

  // ------------------------------------------------------------------ agent

  function ActionValue(a: ActionType): string {
    match a
    case Wait => "WAIT"
    case CreatePaymentLink => "CREATE_PAYMENT_LINK"
    case SendReminder => "SEND_REMINDER"
    case Stop => "STOP"
    case Escalate => "ESCALATE"
  }

  function ParseAction(raw: string): Option<ActionType> {
    if raw == "WAIT" then Some(Wait)
    else if raw == "CREATE_PAYMENT_LINK" then Some(CreatePaymentLink)
    else if raw == "SEND_REMINDER" then Some(SendReminder)
    else if raw == "STOP" then Some(Stop)
    else if raw == "ESCALATE" then Some(Escalate)
    else None
  }

  lemma ParseInvertsValue(a: ActionType, raw: string)
    ensures ParseAction(ActionValue(a)) == Some(a)
    ensures ParseAction(raw) == Some(a) ==> raw == ActionValue(a)
  {
  }

  /**
   Whatever the language model may do: be switched off, raise (a timeout, a
   transport error, text that is not the expected JSON), break the graph that
   calls it, or answer with a well-formed object naming some action.
   */
  datatype ModelReply = Disabled | Raised | GraphBroken | Replied(action: string)

  datatype Source = FromModel | Fallback

  datatype AgentState = AgentState(selected: string, source: Source)

  datatype AgentDecision = AgentDecision(selected: ActionType, source: Source)

  function FallbackState(deterministic: ActionType): AgentState {
    AgentState(ActionValue(deterministic), Fallback)
  }

  function DecideNode(deterministic: ActionType, reply: ModelReply): AgentState {
    match reply
    case Replied(raw) =>
      // the output schema admits only the five action values
      (match ParseAction(raw)
       case Some(a) => AgentState(ActionValue(a), FromModel)
       case None => FallbackState(deterministic))
    case _ => FallbackState(deterministic)
  }

  function ValidateNode(deterministic: ActionType, state: AgentState): AgentState {
    match ParseAction(state.selected)
    case Some(a) => state.(selected := ActionValue(a))
    case None => FallbackState(deterministic)
  }

  function RunAgent(deterministic: ActionType, reply: ModelReply): AgentDecision {
    var fallback := AgentDecision(deterministic, Fallback);
    if reply.GraphBroken? then fallback
    else
      var result := ValidateNode(deterministic, DecideNode(deterministic, reply));
      match ParseAction(result.selected)
      case Some(a) => AgentDecision(a, result.source)
      case None => fallback
  }

  /** The action a usable reply names. */
  function Choice(reply: ModelReply): Option<ActionType> {
    if reply.Replied? then ParseAction(reply.action) else None
  }

  /** The agent is its usable reply, or else the deterministic action, and says which. */
  lemma AgentAnswers(deterministic: ActionType, reply: ModelReply)
    ensures RunAgent(deterministic, reply) ==
            if Choice(reply).Some? then AgentDecision(Choice(reply).value, FromModel)
            else AgentDecision(deterministic, Fallback)
  {
  }

  // --------------------------------------------------------------- decision

  datatype Decision = Decision(action: ActionType, approved: bool, reason: PolicyReason, delayHours: real)

  function Ask(limits: Limits, amount: int, counts: Counts, candidate: ActionType, delay: Option<real>): PolicyDecision {
    EvaluatePolicy(limits, PolicyInput(Analysing, amount, candidate, counts), delay)
  }

  /** Hours until an action is due: WAIT takes the policy's delay, then the engine's, then one hour. */
  function DueDelay(action: ActionType, active: PolicyDecision, engine: EngineDecision): real {
    if action != Wait then 0.0
    else if active.delayHours.Some? then active.delayHours.value
    else if engine.action == Wait && engine.delayHours.Some? then engine.delayHours.value
    else 1.0
  }

  function Decide(limits: Limits, amount: int, category: Option<string>, counts: Counts, reply: ModelReply): Decision {
    var engine := EvaluateRecovery(amount, category);
    var policy := Ask(limits, amount, counts, engine.action, engine.delayHours);
    var agent := RunAgent(policy.action, reply);
    if agent.selected == policy.action && agent.source != FromModel then
      Decision(policy.action, policy.approved, policy.reason, DueDelay(policy.action, policy, engine))
    else
      var delay := if agent.selected == Wait then engine.delayHours else None;
      var recheck := Ask(limits, amount, counts, agent.selected, delay);
      if recheck.approved && recheck.action == agent.selected then
        Decision(agent.selected, true, recheck.reason, DueDelay(agent.selected, recheck, engine))
      else
        Decision(policy.action, false, recheck.reason, DueDelay(policy.action, policy, engine))
  }

  /** The decision of a system that has no agent at all. */
  function DecideWithoutAgent(limits: Limits, amount: int, category: Option<string>, counts: Counts): Decision {
    var engine := EvaluateRecovery(amount, category);
    var policy := Ask(limits, amount, counts, engine.action, engine.delayHours);
    Decision(policy.action, policy.approved, policy.reason, DueDelay(policy.action, policy, engine))
  }

  /** Every failure of the agent, of any kind, gives exactly the agent-free decision. */
  lemma AgentFailureIsAgentFree(limits: Limits, amount: int, category: Option<string>, counts: Counts, reply: ModelReply)
    requires Choice(reply).None?
    ensures Decide(limits, amount, category, counts, reply) == DecideWithoutAgent(limits, amount, category, counts)
  {
    var engine := EvaluateRecovery(amount, category);
    AgentAnswers(Ask(limits, amount, counts, engine.action, engine.delayHours).action, reply);
  }

  /** A usable reply is obeyed exactly when the policy permits it; otherwise the deterministic action stands. */
  lemma AgentObeyedExactlyWhenPermitted(limits: Limits, amount: int, category: Option<string>, counts: Counts, reply: ModelReply)
    requires Choice(reply).Some?
    ensures var d := Decide(limits, amount, category, counts, reply);
            var input := PolicyInput(Analysing, amount, Choice(reply).value, counts);
            && (d.approved <==> Permits(limits, input))
            && d.action == if Permits(limits, input) then Choice(reply).value
                           else DecideWithoutAgent(limits, amount, category, counts).action
  {
    var engine := EvaluateRecovery(amount, category);
    var policy := Ask(limits, amount, counts, engine.action, engine.delayHours);
    AgentAnswers(policy.action, reply);
    var chosen := Choice(reply).value;
    var delay := if chosen == Wait then engine.delayHours else None;
    PolicyApprovesExactlyThePermitted(limits, PolicyInput(Analysing, amount, chosen, counts), delay);
  }

  /**
   The agent cannot override the policy. Whatever the model answers, an action
   that is going to be carried out is one the policy approves on the same
   inputs, even when it is a fallback that was never asked about again; and a
   high-value case ends in ESCALATE or STOP.
   */
  lemma ScheduledIsApproved(limits: Limits, amount: int, category: Option<string>, counts: Counts, reply: ModelReply, delay: Option<real>)
    ensures var d := Decide(limits, amount, category, counts, reply);
            Executable(d.action) ==>
              && Ask(limits, amount, counts, d.action, delay).approved
              && Ask(limits, amount, counts, d.action, delay).action == d.action
              && !HighValue(limits, amount)
  {
    var engine := EvaluateRecovery(amount, category);
    var input := PolicyInput(Analysing, amount, engine.action, counts);
    var d := Decide(limits, amount, category, counts, reply);
    if Choice(reply).Some? {
      AgentObeyedExactlyWhenPermitted(limits, amount, category, counts, reply);
    } else {
      AgentFailureIsAgentFree(limits, amount, category, counts, reply);
    }
    AnswerApprovableIff(limits, input, engine.delayHours, delay);
    PolicyApprovesExactlyThePermitted(limits, input, engine.delayHours);
    PolicyApprovesExactlyThePermitted(limits, input.(candidate := d.action), delay);
  }

  /** The hours between a decision and the moment its action is due, from the case alone. */
  function DelayOf(amount: int, category: Option<string>, action: ActionType): real {
    if action != Wait then 0.0
    else if EvaluateRecovery(amount, category).action == Wait then 24.0
    else 1.0
  }

  /** A WAIT lasts a full day when the engine asked for it and one hour otherwise, whoever chose it. */
  lemma DelayIsDetermined(limits: Limits, amount: int, category: Option<string>, counts: Counts, reply: ModelReply)
    ensures var d := Decide(limits, amount, category, counts, reply);
            d.delayHours == DelayOf(amount, category, d.action)
  {
    var engine := EvaluateRecovery(amount, category);
    AgentAnswers(Ask(limits, amount, counts, engine.action, engine.delayHours).action, reply);
  }

  /** Lower-case words joined by underscores. */
  predicate IsWord(s: string) {
    s != "" && forall i | 0 <= i < |s| :: s[i] == '_' || 'a' <= s[i] <= 'z'
  }

  lemma WordIsNormal(s: string)
    requires IsWord(s)
    ensures Normalise(Some(s)) == s
  {
  }

  /** Classification and engine together: the five categories survive normalisation. */
  lemma ClassifiedCategoriesAreNormal(code: Option<string>)
    ensures Normalise(Some(ClassifyFailure(code))) == ClassifyFailure(code)
  {
    assert IsWord("unknown");
    assert IsWord("expired_instrument");
    assert IsWord("insufficient_funds");
    assert IsWord("temporary_network");
    assert IsWord("issuer_failure");
    WordIsNormal(ClassifyFailure(code));
  }

  /** A recoverable amount is given up on at once exactly when the failure carried no code. */
  lemma EngineStopsExactlyWithoutCode(amount: int, code: Option<string>)
    requires amount >= MIN_RECOVERABLE
    ensures EvaluateRecovery(amount, Some(ClassifyFailure(code))).action == Stop
            <==> code.None? || code.value == ""
  {
    ClassifiedCategoriesAreNormal(code);
    var c := ClassifyFailure(code);
    assert |"unknown"| == 7 && |"expired_instrument"| == 18 && |"insufficient_funds"| == 18;
    assert |"temporary_network"| == 17 && |"issuer_failure"| == 14;
    assert "expired_instrument"[0] != "insufficient_funds"[0];
  }
}
