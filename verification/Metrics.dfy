/**
 The merchant metrics of the dashboard, and what they do along a run.
 */
module Metrics {
  import opened Domain
  import opened Tables
  import opened Invariants
  import opened Protocol
  import opened Safety
  import opened Theorems
  import opened Sums

  datatype Totals = Totals(
    cases: nat, recovered: nat, stopped: nat, escalated: nat, atRisk: nat, recoveredAmount: nat)

  /** The aggregate query over a merchant's cases. */
  function MerchantMetrics(cases: seq<CaseRow>, m: nat): Totals {
    if |cases| == 0 then Totals(0, 0, 0, 0, 0, 0)
    else
      var rest, row := MerchantMetrics(cases[..|cases| - 1], m), cases[|cases| - 1];
      if row.merchant != m then rest
      else
        Totals(
          rest.cases + 1,
          rest.recovered + (if row.status == Recovered then 1 else 0),
          rest.stopped + (if row.status == Stopped then 1 else 0),
          rest.escalated + (if row.status == Escalated then 1 else 0),
          rest.atRisk + row.amount,
          rest.recoveredAmount + (if row.status == Recovered then row.amount else 0))
  }

  function RecoveryRatePercent(t: Totals): real {
    if t.cases > 0 then t.recovered as real / t.cases as real * 100.0 else 0.0
  }

  /** The cases of merchant `m`. */
  ghost function CasesOf(cases: seq<CaseRow>, m: nat): set<nat> {
    set c: nat | c < |cases| && cases[c].merchant == m
  }

  /** The cases of merchant `m` in status `s`. */
  ghost function CasesIn(cases: seq<CaseRow>, m: nat, s: CaseStatus): set<nat> {
    set c: nat | c < |cases| && cases[c].merchant == m && cases[c].status == s
  }

  function AmountOf(cases: seq<CaseRow>): nat -> int {
    (c: nat) => if c < |cases| then cases[c].amount else 0
  }

  lemma SumGrows(cases: seq<CaseRow>, row: CaseRow, ids: set<nat>)
    requires forall c | c in ids :: c < |cases|
    ensures SumOver(ids, AmountOf(cases + [row])) == SumOver(ids, AmountOf(cases))
    ensures SumOver(ids + {|cases|}, AmountOf(cases + [row])) == SumOver(ids, AmountOf(cases)) + row.amount
  {
    SumOverAgree(ids, AmountOf(cases + [row]), AmountOf(cases));
    SumOverAdd(ids, AmountOf(cases + [row]), |cases|);
  }

  /** The set of ids grows by the new row if `added`, and so do its size and its sum. */
  lemma SetGrows(cases: seq<CaseRow>, row: CaseRow, ids: set<nat>, ids': set<nat>, added: bool)
    requires forall c | c in ids :: c < |cases|
    requires ids' == if added then ids + {|cases|} else ids
    ensures |ids'| == |ids| + (if added then 1 else 0)
    ensures SumOver(ids', AmountOf(cases + [row])) == SumOver(ids, AmountOf(cases)) + (if added then row.amount else 0)
  {
    SumGrows(cases, row, ids);
  }

  lemma CasesInGrows(cases: seq<CaseRow>, row: CaseRow, m: nat, s: CaseStatus)
    ensures var ids, ids' := CasesIn(cases, m, s), CasesIn(cases + [row], m, s);
            var added := row.merchant == m && row.status == s;
            && |ids'| == |ids| + (if added then 1 else 0)
            && SumOver(ids', AmountOf(cases + [row])) == SumOver(ids, AmountOf(cases)) + (if added then row.amount else 0)
  {
    var ids, added := CasesIn(cases, m, s), row.merchant == m && row.status == s;
    assert CasesIn(cases + [row], m, s) == if added then ids + {|cases|} else ids;
    SetGrows(cases, row, ids, CasesIn(cases + [row], m, s), added);
  }

  lemma CasesOfGrows(cases: seq<CaseRow>, row: CaseRow, m: nat)
    ensures var ids, ids' := CasesOf(cases, m), CasesOf(cases + [row], m);
            && |ids'| == |ids| + (if row.merchant == m then 1 else 0)
            && SumOver(ids', AmountOf(cases + [row])) == SumOver(ids, AmountOf(cases)) + (if row.merchant == m then row.amount else 0)
  {
    var ids := CasesOf(cases, m);
    assert CasesOf(cases + [row], m) == if row.merchant == m then ids + {|cases|} else ids;
    SetGrows(cases, row, ids, CasesOf(cases + [row], m), row.merchant == m);
  }

  /** The counters count, the amounts are the sums over the same cases, and both are bounded. */
  lemma {:induction false} MetricsAreCounts(cases: seq<CaseRow>, m: nat)
    ensures var t := MerchantMetrics(cases, m);
            && t.cases == |CasesOf(cases, m)|
            && t.recovered == |CasesIn(cases, m, Recovered)|
            && t.stopped == |CasesIn(cases, m, Stopped)|
            && t.escalated == |CasesIn(cases, m, Escalated)|
            && t.atRisk == SumOver(CasesOf(cases, m), AmountOf(cases))
            && t.recoveredAmount == SumOver(CasesIn(cases, m, Recovered), AmountOf(cases))
            && t.recovered + t.stopped + t.escalated <= t.cases
            && t.recoveredAmount <= t.atRisk
  {
    if |cases| > 0 {
      var front, row := cases[..|cases| - 1], cases[|cases| - 1];
      assert cases == front + [row];
      MetricsAreCounts(front, m);
      CasesOfGrows(front, row, m);
      CasesInGrows(front, row, m, Recovered);
      CasesInGrows(front, row, m, Stopped);
      CasesInGrows(front, row, m, Escalated);
    }
  }

  /** A share in per cent. */
  lemma ShareInPercent(n: real, d: real, rate: real)
    requires 0.0 <= n <= d && d > 0.0 && rate == n / d * 100.0
    ensures 0.0 <= rate <= 100.0 && rate * d == 100.0 * n
  {
    var share := n / d;
    assert share * d == n;
    assert 0.0 <= share <= 1.0;
  }

  /** The rate is the share of recovered cases in per cent, and zero for a merchant without cases. */
  lemma RateIsPercentage(t: Totals)
    requires t.recovered <= t.cases
    ensures var rate := RecoveryRatePercent(t);
            && 0.0 <= rate <= 100.0
            && rate * t.cases as real == 100.0 * t.recovered as real
            && (t.cases == 0 ==> rate == 0.0)
  {
    if t.cases > 0 {
      ShareInPercent(t.recovered as real, t.cases as real, RecoveryRatePercent(t));
    }
  }

  ghost predicate AtLeast(t: Totals, t': Totals) {
    && t.cases <= t'.cases && t.recovered <= t'.recovered && t.stopped <= t'.stopped
    && t.escalated <= t'.escalated && t.atRisk <= t'.atRisk && t.recoveredAmount <= t'.recoveredAmount
  }

  lemma {:induction false} MetricsGrow(cases: seq<CaseRow>, cases': seq<CaseRow>, m: nat)
    requires |cases| <= |cases'|
    requires forall c | 0 <= c < |cases| :: CaseStep(cases[c], cases'[c])
    ensures AtLeast(MerchantMetrics(cases, m), MerchantMetrics(cases', m))
    decreases |cases'|
  {
    if |cases| < |cases'| {
      MetricsGrow(cases, cases'[..|cases'| - 1], m);
    } else if |cases| > 0 {
      var n := |cases| - 1;
      assert CaseStep(cases[n], cases'[n]);
      MetricsGrow(cases[..n], cases'[..n], m);
    }
  }

  /** Along every run no metric of any merchant ever decreases, recovered revenue included. */
  lemma MetricsNeverDecrease(s: Sys, steps: seq<Step>, m: nat)
    requires Reachable(s) && ValidRun(s, steps)
    ensures AtLeast(MerchantMetrics(s.db.cases, m), MerchantMetrics(Run(s, steps).db.cases, m))
  {
    ReachableIsGood(s);
    RunKeeps(s, steps);
    MetricsGrow(s.db.cases, Run(s, steps).db.cases, m);
  }
}
