/**
 What the decision pipeline answers, said from its inputs: from the text of an
 error code and of a category, from the limits and counts, and from a whole case
 without an agent.
 */
module Decisions {
  import opened Domain
  import opened Policy

  // ------------------------------------------------------------- error codes

  /** The upper-case letter `u`, or the lower-case letter that goes with it. */
  predicate SameLetter(x: char, u: char) {
    x == u || ('A' <= u <= 'Z' && x as int == u as int + 32)
  }

  predicate MatchesAt(code: string, i: nat, word: string) {
    i + |word| <= |code| && forall j :: 0 <= j < |word| ==> SameLetter(code[i + j], word[j])
  }

  /** The word stands somewhere in the code, in whatever mixture of cases. */
  ghost predicate Mentions(code: string, word: string) {
    exists i: nat :: MatchesAt(code, i, word)
  }

  predicate Capitals(word: string) {
    forall j :: 0 <= j < |word| ==> 'A' <= word[j] <= 'Z'
  }

  lemma ContainsIsMention(code: string, word: string)
    requires Capitals(word)
    ensures Contains(Upper(code), word) <==> Mentions(code, word)
  {
    var c := Upper(code);
    forall i: nat | i <= |code| ensures word <= c[i..] <==> MatchesAt(code, i, word) {
      if word <= c[i..] {
        forall j | 0 <= j < |word| ensures SameLetter(code[i + j], word[j]) {
          assert c[i..][j] == UpperChar(code[i + j]);
        }
      }
    }
    if Mentions(code, word) {
      var i: nat :| MatchesAt(code, i, word);
      assert word <= c[i..];
    }
  }

  lemma WordsAreCapitals()
    ensures Capitals("EXPIRED") && Capitals("INSUFFICIENT") && Capitals("NETWORK") && Capitals("TIMEOUT")
  {
  }

  /** Which category a code gets: the first of the words it mentions decides. */
  lemma CodeDecidesCategory(c: string)
    ensures var category := ClassifyFailure(Some(c));
            var expired, insufficient := Mentions(c, "EXPIRED"), Mentions(c, "INSUFFICIENT");
            var network := Mentions(c, "NETWORK") || Mentions(c, "TIMEOUT");
            && (expired ==> category == "expired_instrument")
            && (insufficient && !expired ==> category == "insufficient_funds")
            && (network && !insufficient && !expired ==> category == "temporary_network")
            && (c != "" && !network && !insufficient && !expired ==> category == "issuer_failure")
            && (c == "" ==> category == "unknown")
  {
    WordsAreCapitals();
    ContainsIsMention(c, "EXPIRED");
    ContainsIsMention(c, "INSUFFICIENT");
    ContainsIsMention(c, "NETWORK");
    ContainsIsMention(c, "TIMEOUT");
    if c == "" {
      assert forall i: nat, word: string | word != "" :: !MatchesAt(c, i, word);
    }
  }

  lemma CategoryWords()
    ensures IsWord("expired_instrument") && IsWord("insufficient_funds") && IsWord("temporary_network")
    ensures IsWord("issuer_failure") && IsWord("unknown")
  {
  }

  lemma CategoriesApart()
    ensures "expired_instrument" != "insufficient_funds" && "expired_instrument" != "temporary_network"
    ensures "expired_instrument" != "issuer_failure" && "expired_instrument" != "unknown"
    ensures "insufficient_funds" != "temporary_network" && "insufficient_funds" != "issuer_failure"
    ensures "insufficient_funds" != "unknown" && "temporary_network" != "issuer_failure"
    ensures "temporary_network" != "unknown" && "issuer_failure" != "unknown"
  {
    assert "expired_instrument"[0] == 'e' && "insufficient_funds"[1] == 'n' && "temporary_network"[0] == 't';
    assert "insufficient_funds"[0] == 'i' && "issuer_failure"[0] == 'i' && "issuer_failure"[1] == 's' && "unknown"[0] == 'u';
  }

  lemma CategoryDecidesAction(amount: int)
    requires amount >= 1000
    ensures EvaluateRecovery(amount, Some("expired_instrument")) == EngineDecision(CreatePaymentLink, None)
    ensures EvaluateRecovery(amount, Some("insufficient_funds")) == EngineDecision(Wait, Some(24.0))
    ensures EvaluateRecovery(amount, Some("temporary_network")) == EngineDecision(SendReminder, None)
    ensures EvaluateRecovery(amount, Some("issuer_failure")) == EngineDecision(Escalate, None)
    ensures EvaluateRecovery(amount, Some("unknown")) == EngineDecision(Stop, None)
  {
    CategoryWords();
    CategoriesApart();
    WordIsNormal("expired_instrument");
    WordIsNormal("insufficient_funds");
    WordIsNormal("temporary_network");
    WordIsNormal("issuer_failure");
    WordIsNormal("unknown");
  }

  /** What the engine does about a failure with code `c`, from the text of the code alone. */
  lemma CodeDecidesAction(amount: int, c: string)
    requires amount >= 1000
    ensures var action := EvaluateRecovery(amount, Some(ClassifyFailure(Some(c)))).action;
            var expired, insufficient := Mentions(c, "EXPIRED"), Mentions(c, "INSUFFICIENT");
            var network := Mentions(c, "NETWORK") || Mentions(c, "TIMEOUT");
            && (action == CreatePaymentLink <==> expired)
            && (action == Wait <==> insufficient && !expired)
            && (action == SendReminder <==> network && !insufficient && !expired)
            && (action == Escalate <==> c != "" && !network && !insufficient && !expired)
            && (action == Stop <==> c == "")
  {
    CodeDecidesCategory(c);
    CategoryDecidesAction(amount);
    assert c == "" ==> !Mentions(c, "EXPIRED") && !Mentions(c, "INSUFFICIENT") && !Mentions(c, "NETWORK") && !Mentions(c, "TIMEOUT");
  }

  // -------------------------------------------------------------- categories

  predicate Padding(s: string) {
    forall i :: 0 <= i < |s| ==> IsSpace(s[i])
  }

  /** The same word, letter by letter, in whatever case. */
  predicate SpelledAs(s: string, word: string) {
    |s| == |word| && forall i :: 0 <= i < |s| ==> LowerChar(s[i]) == word[i]
  }

  /** The category is the word with white space round it, in whatever case. */
  ghost predicate Names(category: string, word: string) {
    exists p, s, q :: category == p + s + q && Padding(p) && Padding(q) && SpelledAs(s, word)
  }

  lemma {:induction false} StripSplits(s: string) returns (p: string, q: string)
    ensures s == p + Strip(s) + q && Padding(p) && Padding(q)
    decreases |s|
  {
    if s == "" {
      p, q := "", "";
    } else if IsSpace(s[0]) {
      p, q := StripSplits(s[1..]);
      p := [s[0]] + p;
    } else if IsSpace(s[|s| - 1]) {
      p, q := StripSplits(s[..|s| - 1]);
      q := q + [s[|s| - 1]];
    } else {
      p, q := "", "";
    }
  }

  lemma {:induction false} StripUnpads(p: string, s: string, q: string)
    requires Padding(p) && Padding(q) && s != "" && !IsSpace(s[0]) && !IsSpace(s[|s| - 1])
    ensures Strip(p + s + q) == s
    decreases |p| + |q|
  {
    var padded := p + s + q;
    if |p| > 0 {
      assert padded[1..] == p[1..] + s + q;
      StripUnpads(p[1..], s, q);
    } else if |q| > 0 {
      assert padded[0] == s[0] && padded[..|padded| - 1] == p + s + q[..|q| - 1];
      assert padded[|padded| - 1] == q[|q| - 1];
      StripUnpads(p, s, q[..|q| - 1]);
    } else {
      assert padded == s;
    }
  }

  /** Normalisation gives a word exactly for the ways of writing it: case and surrounding white space do not matter. */
  lemma NormaliseIsNaming(category: string, word: string)
    requires IsWord(word) && category != ""
    ensures Normalise(Some(category)) == word <==> Names(category, word)
  {
    if Normalise(Some(category)) == word {
      var p, q := StripSplits(category);
      assert Lower(Strip(category)) == word;
      assert forall i | 0 <= i < |word| :: Lower(Strip(category))[i] == LowerChar(Strip(category)[i]);
      assert SpelledAs(Strip(category), word);
    }
    if Names(category, word) {
      var p, s, q :| category == p + s + q && Padding(p) && Padding(q) && SpelledAs(s, word);
      assert LowerChar(s[0]) == word[0] && LowerChar(s[|s| - 1]) == word[|word| - 1];
      StripUnpads(p, s, q);
      assert Lower(s) == word;
    }
  }

  /** Small amounts are given up on whatever the category; a missing category is an unknown one. */
  lemma SmallOrMissingStops(amount: int, category: Option<string>)
    requires amount < 1000 || category == None || category == Some("")
    ensures EvaluateRecovery(amount, category) == EngineDecision(Stop, None)
  {
    if amount >= 1000 {
      CategoryDecidesAction(amount);
    }
  }

  // ------------------------------------------------------------------ policy

  /** Every answer of the policy, by conditions that do not depend on an order. */
  lemma PolicyAnswers(limits: Limits, input: PolicyInput, delay: Option<real>)
    ensures var d := EvaluatePolicy(limits, input, delay);
            var live := input.status !in {Recovered, Stopped, Escalated};
            var high := limits.escalateHighValue && input.amount >= limits.highValueThreshold
                        && input.candidate in {Wait, CreatePaymentLink, SendReminder};
            var left := live && !high && input.counts.total < limits.maxActions;
            var reminded := input.candidate == SendReminder && input.counts.reminders >= limits.maxReminders;
            var linked := input.candidate == CreatePaymentLink && limits.oneActiveLink && input.counts.activeLinks > 0;
            && (d.approved <==> left && !reminded && !linked)
            && (d.approved ==> d.action == input.candidate && d.delayHours == (if input.candidate == Wait then delay else None))
            && (!d.approved && live && high ==> d.action == Escalate && d.delayHours == None)
            && (!d.approved && left && linked ==> d.action == Wait && d.delayHours == Some(1.0))
            && (!d.approved && !(live && high) && !(left && linked) ==> d.action == Stop && d.delayHours == None)
  {
  }

  /** Why: each reason is given exactly in its own situation. */
  lemma PolicyReasons(limits: Limits, input: PolicyInput, delay: Option<real>)
    ensures var reason := EvaluatePolicy(limits, input, delay).reason;
            var live := input.status !in {Recovered, Stopped, Escalated};
            var high := limits.escalateHighValue && input.amount >= limits.highValueThreshold
                        && input.candidate in {Wait, CreatePaymentLink, SendReminder};
            var left := live && !high && input.counts.total < limits.maxActions;
            && (reason == TerminalProtected <==> !live)
            && (reason == HighValueRequiresEscalation <==> live && high)
            && (reason == MaxActionsReached <==> live && !high && !left)
            && (reason == MaxRemindersReached <==>
                  left && input.candidate == SendReminder && input.counts.reminders >= limits.maxReminders)
            && (reason == ActiveLinkExists <==>
                  left && input.candidate == CreatePaymentLink && limits.oneActiveLink && input.counts.activeLinks > 0)
            && (reason == ApprovedWait <==> left && input.candidate == Wait)
  {
    match input.candidate {
      case Wait =>
      case CreatePaymentLink =>
      case SendReminder =>
      case Stop =>
      case Escalate =>
    }
  }

  // ---------------------------------------------------------- whole decision

  /**
   The decision on a fresh case when the model gives no usable reply, from the
   limits, the amount and the engine's action: with no earlier actions only the
   high value, the number of actions and the number of reminders can stand in
   its way.
   */
  lemma AgentFreeDecision(limits: Limits, amount: int, category: Option<string>, reply: ModelReply)
    requires Choice(reply).None?
    ensures var d := Decide(limits, amount, category, Counts(0, 0, 0), reply);
            var engine := EvaluateRecovery(amount, category).action;
            var high := limits.escalateHighValue && amount >= limits.highValueThreshold && engine in {Wait, CreatePaymentLink, SendReminder};
            var allowed := 0 < limits.maxActions && (engine == SendReminder ==> 0 < limits.maxReminders);
            && d.approved == (!high && allowed)
            && d.action == (if high then Escalate else if allowed then engine else Stop)
            && d.delayHours == if d.action == Wait then 24.0 else 0.0
  {
    var counts := Counts(0, 0, 0);
    var engine := EvaluateRecovery(amount, category);
    AgentFailureIsAgentFree(limits, amount, category, counts, reply);
    PolicyAnswers(limits, PolicyInput(Analysing, amount, engine.action, counts), engine.delayHours);
  }

  /**
   The same with a usable reply: it is followed where the policy permits it, and
   otherwise the decision without it stands, marked as not approved.
   */
  lemma AgentDecision(limits: Limits, amount: int, category: Option<string>, reply: ModelReply)
    requires Choice(reply).Some?
    ensures var d := Decide(limits, amount, category, Counts(0, 0, 0), reply);
            var chosen := Choice(reply).value;
            var engine := EvaluateRecovery(amount, category).action;
            var high := limits.escalateHighValue && amount >= limits.highValueThreshold && chosen in {Wait, CreatePaymentLink, SendReminder};
            var allowed := 0 < limits.maxActions && (chosen == SendReminder ==> 0 < limits.maxReminders);
            && d.approved == (!high && allowed)
            && d.action == (if !high && allowed then chosen else Decide(limits, amount, category, Counts(0, 0, 0), Disabled).action)
            && d.delayHours == if d.action != Wait then 0.0 else if engine == Wait then 24.0 else 1.0
  {
    var counts := Counts(0, 0, 0);
    AgentObeyedExactlyWhenPermitted(limits, amount, category, counts, reply);
    AgentFailureIsAgentFree(limits, amount, category, counts, Disabled);
    DelayIsDetermined(limits, amount, category, counts, reply);
  }
}
