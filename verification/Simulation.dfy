/**
 The paired simulation: a baseline that always sends a reminder and the
 engine-and-policy strategy, run over one population with generators of one
 seed.
 */
module Simulation {
  import opened Domain
  import opened Policy
  import opened Decisions
  import opened Sums

  datatype Payment = Payment(amount: int, category: string)

  // ------------------------------------------------------------------- tables

  function Probability(category: string, a: ActionType): real {
    if category == "expired_instrument" then
      match a { case CreatePaymentLink => 0.45 case SendReminder => 0.25 case Wait => 0.15 case Escalate => 0.50 case Stop => 0.0 }
    else if category == "insufficient_funds" then
      match a { case Wait => 0.35 case SendReminder => 0.20 case CreatePaymentLink => 0.15 case Escalate => 0.45 case Stop => 0.0 }
    else if category == "temporary_network" then
      match a { case SendReminder => 0.40 case Wait => 0.30 case CreatePaymentLink => 0.20 case Escalate => 0.40 case Stop => 0.0 }
    else if category == "issuer_failure" then
      match a { case Escalate => 0.55 case Wait => 0.10 case SendReminder => 0.05 case CreatePaymentLink => 0.05 case Stop => 0.0 }
    else if category == "unknown" then
      match a { case Wait => 0.10 case SendReminder => 0.08 case CreatePaymentLink => 0.05 case Escalate => 0.35 case Stop => 0.0 }
    else 0.0
  }

  function HoursToRecovery(a: ActionType): real {
    match a { case SendReminder => 1.0 case CreatePaymentLink => 2.0 case Wait => 24.0 case Escalate => 48.0 case Stop => 0.0 }
  }

  function ContactCount(a: ActionType): nat {
    match a { case SendReminder => 1 case CreatePaymentLink => 1 case Wait => 0 case Escalate => 0 case Stop => 0 }
  }

  // --------------------------------------------------------------- strategies

  const SIMULATION_POLICY: Limits := Limits(3, 2, true, true, 5_000_000)

  function BaselineDecide(p: Payment): ActionType {
    SendReminder
  }

  function RecoverDecide(p: Payment): ActionType {
    var engine := EvaluateRecovery(p.amount, Some(p.category));
    EvaluatePolicy(
      SIMULATION_POLICY,
      PolicyInput(Analysing, p.amount, engine.action, Counts(0, 0, 0)),
      engine.delayHours).action
  }

  // ------------------------------------------------------------ specification

  datatype Tally = Tally(
    cases: nat,
    recovered: nat,
    atRisk: int,
    recoveredAmount: int,
    contacts: nat,
    hours: real,
    counts: map<ActionType, nat>)

  const NO_TALLY: Tally := Tally(0, 0, 0, 0, 0, 0.0, map[])

  function CountOf(counts: map<ActionType, nat>, a: ActionType): nat {
    if a in counts then counts[a] else 0
  }

  predicate IsRecovered(p: Payment, a: ActionType, draw: real) {
    draw < Probability(p.category, a)
  }

  /** One payment more, on which the strategy took action `a`. */
  function Noted(t: Tally, p: Payment, a: ActionType): Tally {
    t.(cases := t.cases + 1,
       atRisk := t.atRisk + p.amount,
       contacts := t.contacts + ContactCount(a),
       counts := t.counts[a := CountOf(t.counts, a) + 1])
  }

  /** And it was recovered. */
  function Credited(t: Tally, p: Payment, a: ActionType): Tally {
    t.(recovered := t.recovered + 1,
       recoveredAmount := t.recoveredAmount + p.amount,
       hours := t.hours + HoursToRecovery(a))
  }

  /** The payment with its outcome, for which the generator drew `draw`. */
  function Record(t: Tally, p: Payment, a: ActionType, draw: real): Tally {
    if IsRecovered(p, a, draw) then Credited(Noted(t, p, a), p, a) else Noted(t, p, a)
  }

  /** The tally of a strategy: its payment `i` meets draw `i` of the stream. */
  function Tallied(population: seq<Payment>, decide: Payment -> ActionType, draws: nat -> real): Tally {
    if |population| == 0 then NO_TALLY
    else
      var n := |population| - 1;
      Record(Tallied(population[..n], decide, draws), population[n], decide(population[n]), draws(n))
  }

  // ------------------------------------------------------------------ program

  /** A seeded generator: a fixed stream and how much of it is used. */
  class Generator {
    const draws: nat -> real
    var position: nat

    constructor (draws: nat -> real)
      ensures this.draws == draws && position == 0
    {
      this.draws := draws;
      position := 0;
    }

    method Random() returns (x: real)
      modifies this
      ensures x == draws(old(position)) && position == old(position) + 1
    {
      x := draws(position);
      position := position + 1;
    }
  }

  /** Draws once, whatever the category and the action. */
  method SimulateOutcome(p: Payment, a: ActionType, rng: Generator) returns (recovered: bool)
    modifies rng
    ensures recovered <==> IsRecovered(p, a, rng.draws(old(rng.position)))
    ensures rng.position == old(rng.position) + 1
  {
    var probability := Probability(p.category, a);
    var x := rng.Random();
    recovered := x < probability;
  }

  class StrategyResult {
    var totalCases: nat
    var recoveredCases: nat
    var totalAmountAtRisk: int
    var recoveredAmount: int
    var totalContacts: nat
    var totalHours: real
    var actionCounts: map<ActionType, nat>

    ghost function View(): Tally
      reads this
    {
      Tally(totalCases, recoveredCases, totalAmountAtRisk, recoveredAmount, totalContacts, totalHours, actionCounts)
    }

    constructor ()
      ensures View() == NO_TALLY
    {
      totalCases, recoveredCases, totalAmountAtRisk, recoveredAmount := 0, 0, 0, 0;
      totalContacts, totalHours, actionCounts := 0, 0.0, map[];
    }

    /** A recovered payment. */
    method AddRecovered(p: Payment, a: ActionType)
      modifies this`recoveredCases, this`recoveredAmount, this`totalHours
      ensures View() == Credited(old(View()), p, a)
    {
      recoveredCases := recoveredCases + 1;
      recoveredAmount := recoveredAmount + p.amount;
      totalHours := totalHours + HoursToRecovery(a);
    }

    /** One turn of the experiment's loop for one strategy. */
    method Take(p: Payment, a: ActionType, rng: Generator)
      modifies this, rng
      ensures View() == Record(old(View()), p, a, rng.draws(old(rng.position)))
      ensures rng.position == old(rng.position) + 1
    {
      totalCases := totalCases + 1;
      totalAmountAtRisk := totalAmountAtRisk + p.amount;
      actionCounts := actionCounts[a := CountOf(actionCounts, a) + 1];
      var recovered := SimulateOutcome(p, a, rng);
      totalContacts := totalContacts + ContactCount(a);
      assert View() == Noted(old(View()), p, a);
      if recovered {
        AddRecovered(p, a);
      }
    }
  }

  method RunExperiment(population: seq<Payment>, draws: nat -> real)
      returns (baseline: StrategyResult, recoverai: StrategyResult)
    ensures fresh(baseline) && fresh(recoverai)
    ensures baseline.View() == Tallied(population, BaselineDecide, draws)
    ensures recoverai.View() == Tallied(population, RecoverDecide, draws)
  {
    var rngBaseline := new Generator(draws);
    var rngRecoverai := new Generator(draws);
    baseline := new StrategyResult();
    recoverai := new StrategyResult();
    for i := 0 to |population|
      invariant rngBaseline.position == i && rngRecoverai.position == i
      invariant fresh(baseline) && fresh(recoverai) && fresh(rngBaseline) && fresh(rngRecoverai)
      invariant baseline != recoverai && rngBaseline != rngRecoverai
      invariant baseline.View() == Tallied(population[..i], BaselineDecide, draws)
      invariant recoverai.View() == Tallied(population[..i], RecoverDecide, draws)
    {
      assert population[..i + 1][..i] == population[..i];
      baseline.Take(population[i], BaselineDecide(population[i]), rngBaseline);
      recoverai.Take(population[i], RecoverDecide(population[i]), rngRecoverai);
    }
    assert population[..|population|] == population;
  }

  // ---------------------------------------------------------------- coupling

  /** The payments on which the strategy is sure to do at least as well as the baseline. */
  predicate Covered(p: Payment) {
    p.amount >= MIN_RECOVERABLE && p.category != "unknown"
  }

  /** The strategy escalates what the policy calls high-value and otherwise follows the engine. */
  lemma StrategyFollowsEngine(p: Payment)
    requires p.amount >= MIN_RECOVERABLE
    ensures var engine := EvaluateRecovery(p.amount, Some(p.category)).action;
            RecoverDecide(p) == if p.amount >= 5_000_000 && engine != Stop then Escalate else engine
  {
  }

  /** What the strategy does about each category, below and above the high-value threshold. */
  lemma CategoryDecidesStrategy(p: Payment)
    requires p.amount >= 1000
    ensures var high := p.amount >= 5_000_000;
            && (p.category == "expired_instrument" ==> RecoverDecide(p) == if high then Escalate else CreatePaymentLink)
            && (p.category == "insufficient_funds" ==> RecoverDecide(p) == if high then Escalate else Wait)
            && (p.category == "temporary_network" ==> RecoverDecide(p) == if high then Escalate else SendReminder)
            && (p.category == "issuer_failure" ==> RecoverDecide(p) == Escalate)
            && (p.category == "unknown" ==> RecoverDecide(p) == Stop)
  {
    CategoryDecidesAction(p.amount);
    StrategyFollowsEngine(p);
  }

  /** The chances that the strategies can come to use. */
  lemma ChancesInUse()
    ensures Probability("expired_instrument", SendReminder) == 0.25 && Probability("expired_instrument", CreatePaymentLink) == 0.45
    ensures Probability("expired_instrument", Escalate) == 0.50 && Probability("insufficient_funds", SendReminder) == 0.20
    ensures Probability("insufficient_funds", Wait) == 0.35 && Probability("insufficient_funds", Escalate) == 0.45
    ensures Probability("temporary_network", SendReminder) == 0.40 && Probability("temporary_network", Escalate) == 0.40
    ensures Probability("issuer_failure", SendReminder) == 0.05 && Probability("issuer_failure", Escalate) == 0.55
    ensures Probability("unknown", SendReminder) == 0.08 && Probability("unknown", Stop) == 0.0
  {
    CategoriesApart();
  }

  /** The draws with which each strategy recovers a payment: below so much, category by category. */
  lemma DrawsThatRecover(p: Payment, draw: real)
    requires draw >= 0.0 && p.amount >= 1000
    ensures var high := p.amount >= 5_000_000;
            var baseline, strategy := IsRecovered(p, BaselineDecide(p), draw), IsRecovered(p, RecoverDecide(p), draw);
            && (p.category == "expired_instrument" ==>
                  (baseline <==> draw < 0.25) && (strategy <==> draw < if high then 0.50 else 0.45))
            && (p.category == "insufficient_funds" ==>
                  (baseline <==> draw < 0.20) && (strategy <==> draw < if high then 0.45 else 0.35))
            && (p.category == "temporary_network" ==> (baseline <==> draw < 0.40) && (strategy <==> draw < 0.40))
            && (p.category == "issuer_failure" ==> (baseline <==> draw < 0.05) && (strategy <==> draw < 0.55))
            && (p.category == "unknown" ==> (baseline <==> draw < 0.08) && !strategy)
  {
    CategoryDecidesStrategy(p);
    ChancesInUse();
  }

  /** A payment outside the five categories is recovered by nobody. */
  lemma OtherCategoriesAreLost(p: Payment, a: ActionType, draw: real)
    requires draw >= 0.0
    requires p.category !in {"expired_instrument", "insufficient_funds", "temporary_network", "issuer_failure", "unknown"}
    ensures !IsRecovered(p, a, draw)
  {
  }

  /** On a covered payment the strategy recovers with every draw with which the baseline does. */
  lemma CoveredIsDominated(p: Payment, draw: real)
    requires draw >= 0.0 && Covered(p) && IsRecovered(p, SendReminder, draw)
    ensures IsRecovered(p, RecoverDecide(p), draw)
  {
    DrawsThatRecover(p, draw);
    if p.category !in {"expired_instrument", "insufficient_funds", "temporary_network", "issuer_failure", "unknown"} {
      OtherCategoriesAreLost(p, SendReminder, draw);
    }
  }

  /** Every other payment is given up on: the strategy stops and never recovers it. */
  lemma UncoveredIsNeverRecovered(p: Payment, draw: real)
    requires draw >= 0.0 && !Covered(p)
    ensures RecoverDecide(p) == Stop && !IsRecovered(p, RecoverDecide(p), draw)
  {
    if p.amount >= MIN_RECOVERABLE {
      CategoryDecidesAction(p.amount);
    }
  }

  function IncrementalRevenue(baseline: Tally, recoverai: Tally): int {
    recoverai.recoveredAmount - baseline.recoveredAmount
  }

  /** What only the strategy recovers, and what only the baseline does. */
  function Gained(population: seq<Payment>, draws: nat -> real): int {
    if |population| == 0 then 0
    else
      var n := |population| - 1;
      var p := population[n];
      Gained(population[..n], draws)
      + (if Covered(p) && IsRecovered(p, RecoverDecide(p), draws(n)) && !IsRecovered(p, SendReminder, draws(n)) then p.amount else 0)
  }

  function Forgone(population: seq<Payment>, draws: nat -> real): int {
    if |population| == 0 then 0
    else
      var n := |population| - 1;
      var p := population[n];
      Forgone(population[..n], draws)
      + (if !Covered(p) && IsRecovered(p, SendReminder, draws(n)) then p.amount else 0)
  }

  /** The positive amounts of the uncovered payments. */
  function UncoveredAmount(population: seq<Payment>): nat {
    if |population| == 0 then 0
    else
      var n := |population| - 1;
      var p := population[n];
      UncoveredAmount(population[..n]) + (if !Covered(p) && p.amount > 0 then p.amount else 0)
  }

  /**
   The paired draws: for every population and stream, the incremental revenue
   is what the strategy gains on covered payments less what it forgoes on the
   others; the gain is never negative and the loss never exceeds the uncovered
   amounts.
   */
  lemma {:induction false} IncrementalRevenueDecomposes(population: seq<Payment>, draws: nat -> real)
    requires forall i: nat :: 0.0 <= draws(i) < 1.0
    ensures var incremental := IncrementalRevenue(
              Tallied(population, BaselineDecide, draws), Tallied(population, RecoverDecide, draws));
            && incremental == Gained(population, draws) - Forgone(population, draws)
            && Gained(population, draws) >= 0
            && Forgone(population, draws) <= UncoveredAmount(population)
            && incremental + UncoveredAmount(population) >= 0
  {
    if |population| > 0 {
      var n := |population| - 1;
      var p := population[n];
      IncrementalRevenueDecomposes(population[..n], draws);
      if !Covered(p) {
        UncoveredIsNeverRecovered(p, draws(n));
      } else if IsRecovered(p, SendReminder, draws(n)) {
        CoveredIsDominated(p, draws(n));
      }
    }
  }

  ghost predicate Accounts(t: Tally) {
    && t.recovered <= t.cases
    && CountOf(t.counts, Wait) + CountOf(t.counts, CreatePaymentLink) + CountOf(t.counts, SendReminder)
       + CountOf(t.counts, Stop) + CountOf(t.counts, Escalate) == t.cases
    && t.contacts == CountOf(t.counts, CreatePaymentLink) + CountOf(t.counts, SendReminder)
  }

  lemma RecordAccounts(t: Tally, p: Payment, a: ActionType, draw: real)
    requires Accounts(t)
    ensures Accounts(Record(t, p, a, draw)) && Record(t, p, a, draw).cases == t.cases + 1
  {
  }

  /** Both results account for every payment once: the counts of actions add up to the cases, and to the contacts. */
  lemma {:induction false} TallyAccountsForAll(population: seq<Payment>, decide: Payment -> ActionType, draws: nat -> real)
    ensures Accounts(Tallied(population, decide, draws)) && Tallied(population, decide, draws).cases == |population|
  {
    if |population| > 0 {
      var n := |population| - 1;
      TallyAccountsForAll(population[..n], decide, draws);
      RecordAccounts(Tallied(population[..n], decide, draws), population[n], decide(population[n]), draws(n));
    }
  }

  // -------------------------------------------------------------------- sums

  /** The payments that the strategy recovers with these draws. */
  ghost function RecoveredIds(population: seq<Payment>, decide: Payment -> ActionType, draws: nat -> real): set<nat> {
    set i: nat | i < |population| && draws(i) < Probability(population[i].category, decide(population[i]))
  }

  predicate IsPayment(population: seq<Payment>, i: nat) {
    i < |population|
  }

  ghost function AllIds(population: seq<Payment>): set<nat> {
    set i: nat | i < |population| && IsPayment(population, i)
  }

  /** Those of `ids` on which the strategy takes action `a`. */
  ghost function Taking(ids: set<nat>, population: seq<Payment>, decide: Payment -> ActionType, a: ActionType): set<nat> {
    set i | i in ids && i < |population| && decide(population[i]) == a
  }

  function AmountOf(population: seq<Payment>): nat -> int {
    (i: nat) => if i < |population| then population[i].amount else 0
  }

  /** One payment more, from the sums over the payments before it. */
  lemma SumsGrow(front: seq<Payment>, p: Payment, ids: set<nat>)
    requires ids <= AllIds(front)
    ensures SumOver(ids, AmountOf(front + [p])) == SumOver(ids, AmountOf(front))
    ensures SumOver(ids + {|front|}, AmountOf(front + [p])) == SumOver(ids, AmountOf(front)) + p.amount
  {
    SumOverAgree(ids, AmountOf(front + [p]), AmountOf(front));
    SumOverAdd(ids, AmountOf(front + [p]), |front|);
  }

  lemma IdsGrow(front: seq<Payment>, p: Payment, decide: Payment -> ActionType, draws: nat -> real)
    ensures AllIds(front + [p]) == AllIds(front) + {|front|}
    ensures RecoveredIds(front + [p], decide, draws) ==
            RecoveredIds(front, decide, draws) + if IsRecovered(p, decide(p), draws(|front|)) then {|front|} else {}
  {
  }

  lemma TakingStays(ids: set<nat>, front: seq<Payment>, p: Payment, decide: Payment -> ActionType, a: ActionType)
    requires ids <= AllIds(front)
    ensures Taking(ids, front + [p], decide, a) == Taking(ids, front, decide, a)
    ensures Taking(ids + {|front|}, front + [p], decide, a) ==
            Taking(ids, front, decide, a) + if decide(p) == a then {|front|} else {}
  {
    assert forall i | i in ids :: i < |front| && (front + [p])[i] == front[i];
    assert (front + [p])[|front|] == p;
  }

  lemma TakingGrows(ids: set<nat>, front: seq<Payment>, p: Payment, decide: Payment -> ActionType, a: ActionType)
    requires ids <= AllIds(front)
    ensures Taking(ids, front + [p], decide, a) == Taking(ids, front, decide, a)
    ensures |Taking(ids + {|front|}, front + [p], decide, a)| ==
            |Taking(ids, front, decide, a)| + if decide(p) == a then 1 else 0
  {
    TakingStays(ids, front, p, decide, a);
    if decide(p) != a {
      assert Taking(ids + {|front|}, front + [p], decide, a) == Taking(ids, front, decide, a);
    }
  }

  /** What one payment more adds to a tally. */
  lemma RecordAdds(t: Tally, p: Payment, a: ActionType, draw: real)
    ensures var t' := Record(t, p, a, draw);
            && t'.cases == t.cases + 1 && t'.atRisk == t.atRisk + p.amount
            && t'.recovered == t.recovered + (if IsRecovered(p, a, draw) then 1 else 0)
            && t'.recoveredAmount == t.recoveredAmount + (if IsRecovered(p, a, draw) then p.amount else 0)
  {
  }

  lemma RecoveredGrows(front: seq<Payment>, p: Payment, decide: Payment -> ActionType, draws: nat -> real)
    ensures var ids, ids' := RecoveredIds(front, decide, draws), RecoveredIds(front + [p], decide, draws);
            var recovered := IsRecovered(p, decide(p), draws(|front|));
            && |ids'| == |ids| + (if recovered then 1 else 0)
            && SumOver(ids', AmountOf(front + [p])) == SumOver(ids, AmountOf(front)) + (if recovered then p.amount else 0)
  {
    var ids := RecoveredIds(front, decide, draws);
    IdsGrow(front, p, decide, draws);
    SumsGrow(front, p, ids);
    if IsRecovered(p, decide(p), draws(|front|)) {
      assert |ids + {|front|}| == |ids| + 1;
    } else {
      assert RecoveredIds(front + [p], decide, draws) == ids;
    }
  }

  /** Cases, recoveries and amounts of a tally are the sizes and sums of sets of payments. */
  lemma {:induction false} TallyIsSums(population: seq<Payment>, decide: Payment -> ActionType, draws: nat -> real)
    ensures var t := Tallied(population, decide, draws);
            && t.cases == |population|
            && t.recovered == |RecoveredIds(population, decide, draws)|
            && t.atRisk == SumOver(AllIds(population), AmountOf(population))
            && t.recoveredAmount == SumOver(RecoveredIds(population, decide, draws), AmountOf(population))
  {
    if |population| > 0 {
      var n := |population| - 1;
      var front, p := population[..n], population[n];
      assert population == front + [p];
      TallyIsSums(front, decide, draws);
      RecordAdds(Tallied(front, decide, draws), p, decide(p), draws(n));
      IdsGrow(front, p, decide, draws);
      SumsGrow(front, p, AllIds(front));
      RecoveredGrows(front, p, decide, draws);
    }
  }

  /** The action counts are the numbers of payments on which the action was taken. */
  lemma {:induction false} CountsAreSizes(population: seq<Payment>, decide: Payment -> ActionType, draws: nat -> real, a: ActionType)
    ensures CountOf(Tallied(population, decide, draws).counts, a) == |Taking(AllIds(population), population, decide, a)|
  {
    if |population| > 0 {
      var n := |population| - 1;
      var front, p := population[..n], population[n];
      assert population == front + [p];
      CountsAreSizes(front, decide, draws, a);
      IdsGrow(front, p, decide, draws);
      TakingGrows(AllIds(front), front, p, decide, a);
    }
  }

  /** How many payments the strategy recovers by action `a`. */
  ghost function RecoveredBy(population: seq<Payment>, decide: Payment -> ActionType, draws: nat -> real, a: ActionType): nat {
    |Taking(RecoveredIds(population, decide, draws), population, decide, a)|
  }

  lemma RecoveredByGrows(front: seq<Payment>, p: Payment, decide: Payment -> ActionType, draws: nat -> real, a: ActionType)
    ensures RecoveredBy(front + [p], decide, draws, a) ==
            RecoveredBy(front, decide, draws, a) + if decide(p) == a && IsRecovered(p, a, draws(|front|)) then 1 else 0
  {
    IdsGrow(front, p, decide, draws);
    TakingGrows(RecoveredIds(front, decide, draws), front, p, decide, a);
    if !IsRecovered(p, decide(p), draws(|front|)) {
      assert RecoveredIds(front + [p], decide, draws) == RecoveredIds(front, decide, draws);
    }
  }

  /** The hours: one for each reminder that recovered its payment, two for each link, 24 for each wait, 48 for each escalation. */
  lemma {:induction false} HoursAreWeighted(population: seq<Payment>, decide: Payment -> ActionType, draws: nat -> real)
    ensures Tallied(population, decide, draws).hours ==
            RecoveredBy(population, decide, draws, SendReminder) as real
            + 2.0 * RecoveredBy(population, decide, draws, CreatePaymentLink) as real
            + 24.0 * RecoveredBy(population, decide, draws, Wait) as real
            + 48.0 * RecoveredBy(population, decide, draws, Escalate) as real
  {
    if |population| > 0 {
      var n := |population| - 1;
      var front, p := population[..n], population[n];
      assert population == front + [p];
      HoursAreWeighted(front, decide, draws);
      RecoveredByGrows(front, p, decide, draws, SendReminder);
      RecoveredByGrows(front, p, decide, draws, CreatePaymentLink);
      RecoveredByGrows(front, p, decide, draws, Wait);
      RecoveredByGrows(front, p, decide, draws, Escalate);
    } else {
      assert forall a :: Taking(RecoveredIds(population, decide, draws), population, decide, a) == {};
    }
  }
}
