/** The dashboard's derived figures: money spent, secured sponsors and those
    in negotiation, the budget trend percentage, and the short task and
    budget previews. The done/pending toggle of its task rows is
    `Store.AppState.HandleTaskToggle`. */
module Dashboard {
  import opened JsRuntime
  import opened Types
  import opened Collections
  import opened Constants
  import Store
  import Budget
  import Sponsors

  /** `sponsorsConfirmed`: the sponsors whose status is confirmed or paid. */
  function SponsorsConfirmed(ss: seq<Sponsor>): (n: nat)
    ensures n == |Filter(ss, Secured)|
    decreases |ss|
  {
    if ss == [] then 0 else (if Secured(ss[0]) then 1 else 0) + SponsorsConfirmed(ss[1..])
  }

  predicate InNegotiation(s: Sponsor) {
    s.status == Negotiation
  }

  /** The "En negociación" subtext: the sponsors in negotiation exactly. */
  function NegotiationCount(ss: seq<Sponsor>): (n: nat)
    ensures n == |Filter(ss, InNegotiation)|
    decreases |ss|
  {
    if ss == [] then 0 else (if ss[0].status == Negotiation then 1 else 0) + NegotiationCount(ss[1..])
  }

  /** Every secured sponsor belongs to exactly one tier, so the four tier
      counts of the sponsors view add up to the dashboard's count. */
  lemma {:induction false} TierCountsAddUp(ss: seq<Sponsor>)
    ensures Sponsors.TierCount(ss, Diamante) + Sponsors.TierCount(ss, Oro) +
            Sponsors.TierCount(ss, Plata) + Sponsors.TierCount(ss, Bronce) == SponsorsConfirmed(ss)
    decreases |ss|
  {
    if ss != [] {
      TierCountsAddUp(ss[1..]);
    }
  }

  /** A sponsor in negotiation is not secured: the two counts never exceed
      the number of sponsors together. */
  lemma {:induction false} NegotiatingAreNotSecured(ss: seq<Sponsor>)
    ensures SponsorsConfirmed(ss) + NegotiationCount(ss) <= |ss|
    decreases |ss|
  {
    if ss != [] {
      NegotiatingAreNotSecured(ss[1..]);
    }
  }

  /** The seed sponsors: one secured (the Plata sponsor), one in negotiation. */
  lemma SeedSponsorCounts()
    ensures SponsorsConfirmed(SPONSORS) == 1 && NegotiationCount(SPONSORS) == 1
  {
    var s := SPONSORS;
    assert s[1..][1..][1..] == [];
  }

  /** `Math.round((budgetSpent / totalBudget) * 100)`. A zero total budget
      is not guarded: the trend is NaN with nothing spent and an infinity
      otherwise. */
  function BudgetTrend(items: seq<BudgetItem>, totalBudget: int): (r: Num)
    ensures totalBudget != 0 ==> r.Finite? && r.r == r.r.Floor as real
    ensures totalBudget != 0 ==>
      r.r - 0.5 <= (Budget.TotalSpent(items) as real / totalBudget as real) * 100.0 < r.r + 0.5
    ensures totalBudget == 0 ==> r == Divide(Budget.TotalSpent(items), 0)
  {
    Round(PercentOf(Budget.TotalSpent(items), totalBudget))
  }

  /** The seed budget against the seed total of 120000: 7000 spent is 5.83
      percent, shown as 6. */
  lemma SeedTrend()
    ensures BudgetTrend(BUDGET_ITEMS, Store.INITIAL_CONFIG.totalBudget) == Finite(6.0)
  {
    Budget.SeedTotals();
    var p := (7000 as real / 120000 as real) * 100.0;
    assert p == 35.0 / 6.0;
    assert (p + 0.5).Floor == 6;
  }

  /** The task and budget previews: the first five entries, in order. */
  lemma PreviewsAreFirstFive(tasks: seq<Task>, items: seq<BudgetItem>)
    ensures |Take(tasks, 5)| <= 5 && Take(tasks, 5) == tasks[..|Take(tasks, 5)|]
    ensures |Take(items, 5)| <= 5 && Take(items, 5) == items[..|Take(items, 5)|]
    ensures |tasks| >= 5 ==> |Take(tasks, 5)| == 5
    ensures |items| >= 5 ==> |Take(items, 5)| == 5
  {
  }
}
