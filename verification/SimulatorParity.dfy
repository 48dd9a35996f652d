/**
 The engine with the shipped policy against the simulator it replaces, for every input: the oracle
 of `src/credit/domain/score-engine.spec.ts`, and the ceiling and commissions added since.
 */
module SimulatorParity {
  import opened Basics
  import opened ScaleConfigs
  import opened ScoreEngine
  import ScoreTheorems
  import Tax

  // ---------------------------------------------------------------- the simulator

  function SimInvestment(v: real): real {
    if v < 2000000.0 then 10.0
    else if v < 4000000.0 then 30.0
    else if v < 6000000.0 then 50.0
    else if v < 10000000.0 then 70.0
    else if v < 18000000.0 then 85.0
    else 100.0
  }

  function SimRoas(v: real): real {
    if v < 1.5 then 0.0
    else if v < 2.0 then 15.0
    else if v < 2.5 then 30.0
    else if v < 3.0 then 50.0
    else if v < 3.5 then 65.0
    else if v < 4.5 then 80.0
    else if v < 6.0 then 92.0
    else 100.0
  }

  function SimSales(v: real): real {
    if v < 5000000.0 then 10.0
    else if v < 10000000.0 then 30.0
    else if v < 20000000.0 then 50.0
    else if v < 40000000.0 then 70.0
    else if v < 70000000.0 then 88.0
    else 100.0
  }

  /** The exact points before rounding. */
  function SimPoints(input: Input): real {
    SimInvestment(input.investment) * 0.4 + SimRoas(input.roas) * 0.4 + SimSales(input.sales) * 0.2
  }

  /** The level of a total, lowest first, and what it is called. */
  function SimLevel(total: int): nat {
    if total >= 85 then 5 else if total >= 75 then 4 else if total >= 65 then 3
    else if total >= 55 then 2 else if total >= 40 then 1 else 0
  }

  /** The highest level the ROAS itself allows. */
  function RoasLevel(roas: real): nat {
    if roas < 3.0 then 2 else if roas < 3.5 then 3 else if roas < 4.5 then 4 else 5
  }

  function LevelName(level: nat): string {
    if level == 0 then "no_eligible" else if level == 1 then "starter" else if level == 2 then "builder"
    else if level == 3 then "growth_seller" else if level == 4 then "pro_marketer" else "elite"
  }

  function LevelDisbursement(level: nat): real {
    if level == 0 then 0.0 else if level == 1 then 1000000.0 else if level == 2 then 1500000.0 else 2000000.0
  }

  function LevelCommission(level: nat): Option<real> {
    if level == 0 then None else if level == 1 then Some(0.035) else if level == 2 then Some(0.03)
    else if level == 3 then Some(0.025) else if level == 4 then Some(0.0225) else Some(0.02)
  }

  /** Under 3 in ROAS, or vetoed by the bureau, no total makes a brand eligible. */
  function SimByScore(input: Input, total: int, bureau: Option<Bureau>): nat {
    if input.roas < 3.0 || bureau == Some(Veto) then 0 else SimLevel(total)
  }

  // ---------------------------------------------------------------- parity

  /** The bracket a value falls in is the one whose edges surround it. */
  lemma BracketIs(brackets: seq<Bracket>, value: real, i: nat)
    requires i < |brackets| && Below(brackets[i], value) && forall k :: 0 <= k < i ==> !Below(brackets[k], value)
    ensures Subscore(brackets, value) == brackets[i].score
  {
    var j := BracketIndex(brackets, value);
    assert j < |brackets| ==> Below(brackets[j], value);
  }

  lemma InvestmentAgrees(v: real)
    ensures Subscore(ScoreTheorems.V1.investment, v) == SimInvestment(v)
  {
    hide Subscore;
    BracketIs(ScoreTheorems.V1.investment, v,
              if v < 2000000.0 then 0 else if v < 4000000.0 then 1 else if v < 6000000.0 then 2
              else if v < 10000000.0 then 3 else if v < 18000000.0 then 4 else 5);
  }

  lemma RoasAgrees(v: real)
    ensures Subscore(ScoreTheorems.V1.roas, v) == SimRoas(v)
  {
    hide Subscore;
    BracketIs(ScoreTheorems.V1.roas, v,
              if v < 1.5 then 0 else if v < 2.0 then 1 else if v < 2.5 then 2 else if v < 3.0 then 3
              else if v < 3.5 then 4 else if v < 4.5 then 5 else if v < 6.0 then 6 else 7);
  }

  lemma SalesAgree(v: real)
    ensures Subscore(ScoreTheorems.V1.sales, v) == SimSales(v)
  {
    hide Subscore;
    BracketIs(ScoreTheorems.V1.sales, v,
              if v < 5000000.0 then 0 else if v < 10000000.0 then 1 else if v < 20000000.0 then 2
              else if v < 40000000.0 then 3 else if v < 70000000.0 then 4 else 5);
  }

  lemma LevelsAgree(total: int)
    ensures ScoreIndex(ScoreTheorems.V1.tiers, total) == SimLevel(total)
  {
    var i, tiers := ScoreIndex(ScoreTheorems.V1.tiers, total), ScoreTheorems.V1.tiers;
    hide ScoreIndex;
    var j := SimLevel(total);
    assert 0 < i ==> total >= tiers[i].scoreMin;
    var least := tiers[j].scoreMin;
    assert i < j ==> total < least;
  }

  lemma CeilingsAgree(roas: real)
    ensures CapIndex(ScoreTheorems.V1, SimRoas(roas), 6) == RoasLevel(roas)
  {
    var s := SimRoas(roas);
    var i, j := CapIndex(ScoreTheorems.V1, s, 6), RoasLevel(roas);
    hide CapIndex;
    assert Enables(ScoreTheorems.V1, j, s);
    assert forall k :: j < k < 6 ==> !Enables(ScoreTheorems.V1, k, s);
  }

  lemma TableIs(level: nat)
    requires level < 6
    ensures var t := ScoreTheorems.V1.tiers[level];
            t.key == LevelName(level) && t.disbursement == LevelDisbursement(level) && t.commission == LevelCommission(level)
  {
  }

  lemma LargestCommissionIs()
    ensures MaxCommission(ScoreTheorems.V1.tiers) == 0.035
  {
    var m := MaxCommission(ScoreTheorems.V1.tiers);
    assert CommissionOf(ScoreTheorems.V1.tiers[1]) == 0.035;
    var i :| 0 <= i < 6 && CommissionOf(ScoreTheorems.V1.tiers[i]) == m;
  }

  lemma TotalAgrees(input: Input)
    ensures Weighted(ScoreTheorems.V1, input) == SimPoints(input)
    ensures Total(ScoreTheorems.V1, input) == Tax.Round(SimPoints(input))
  {
    hide Subscore, Tax.Round, SimInvestment, SimRoas, SimSales;
    InvestmentAgrees(input.investment);
    RoasAgrees(input.roas);
    SalesAgree(input.sales);
  }

  lemma FinalLevel(config: Config, input: Input, bureau: Option<Bureau>)
    requires config.tiers != []
    ensures FinalIndex(config, input, bureau) == Min(ByScore(config, input, bureau), CapOf(config, input))
  {
    hide ByScore, CapOf;
  }

  /**
   With the shipped policy the engine is the simulator, on every input and with every bureau band: the
   subscores, the total to the nearest point, the level by points; then the level the ROAS allows, and
   the money and commission of the lower of the two, the highest commission for a brand of high risk.
   */
  method ScoreLikeSimulator(input: Input, bureau: Option<Bureau>) returns (r: Result)
    ensures r.sInvestment == SimInvestment(input.investment) && r.sRoas == SimRoas(input.roas) && r.sSales == SimSales(input.sales)
    ensures r.total as real - 0.5 <= SimPoints(input) < r.total as real + 0.5
    ensures var byScore := SimByScore(input, r.total, bureau);
            var level := Min(byScore, RoasLevel(input.roas));
            && r.tierByScore == LevelName(byScore) && r.tier == LevelName(level)
            && (r.cappedByRoas <==> level < byScore) && (r.vetoedByRoas <==> input.roas < 3.0)
            && r.disbursement == LevelDisbursement(level) && r.weeklyQuota == 3.0 * LevelDisbursement(level)
            && r.commission == if bureau == Some(HighRisk) && level > 0 then Some(0.035) else LevelCommission(level)
  {
    hide Subscore, Tax.Round, ScoreIndex, CapIndex, MaxCommission, SimPoints, SimRoas, SimInvestment, SimSales, Total, Weighted;
    hide FinalIndex, LevelName, LevelDisbursement;
    r := ComputeScore(input, ScoreTheorems.V1, bureau);
    InvestmentAgrees(input.investment);
    RoasAgrees(input.roas);
    SalesAgree(input.sales);
    TotalAgrees(input);
    LevelsAgree(r.total);
    CeilingsAgree(input.roas);
    FinalLevel(ScoreTheorems.V1, input, bureau);
    TableIs(SimByScore(input, r.total, bureau));
    TableIs(Min(SimByScore(input, r.total, bureau), RoasLevel(input.roas)));
    LargestCommissionIs();
  }
}
