/**
 The scoring engine (`src/credit/domain/score-engine.ts`) and the step to the next tier
 (`src/credit/credit.service.ts`), table-driven over a policy.
 */
module ScoreEngine {
  import opened Basics
  import opened ScaleConfigs
  import Tax

  datatype Input = Input(investment: real, roas: real, sales: real)

  datatype Bureau = Veto | HighRisk | MediumRisk | Clear

  datatype Result = Result(
    sInvestment: real,
    sRoas: real,
    sSales: real,
    total: int,
    tierByScore: string,
    tier: string,
    cappedByRoas: bool,
    disbursement: real,
    weeklyQuota: real,
    commission: Option<real>,
    vetoedByRoas: bool
  )

  // ---------------------------------------------------------------- tables

  predicate Below(b: Bracket, value: real) { b.upTo.None? || value < b.upTo.value }

  /** The first bracket whose exclusive edge the value does not reach, or past the last. */
  function BracketIndex(brackets: seq<Bracket>, value: real): (i: nat)
    ensures i <= |brackets|
    ensures i < |brackets| ==> Below(brackets[i], value)
    ensures forall k :: 0 <= k < i ==> !Below(brackets[k], value)
  {
    if brackets == [] || Below(brackets[0], value) then 0 else 1 + BracketIndex(brackets[1..], value)
  }

  function Subscore(brackets: seq<Bracket>, value: real): real {
    var i := BracketIndex(brackets, value);
    if i < |brackets| then brackets[i].score
    else if brackets == [] then 0.0 else brackets[|brackets| - 1].score
  }

  method LookupBracket(brackets: seq<Bracket>, value: real) returns (score: real)
    ensures score == Subscore(brackets, value)
  {
    for i := 0 to |brackets|
      invariant forall k :: 0 <= k < i ==> !Below(brackets[k], value)
    {
      var bracket := brackets[i];
      if bracket.upTo.None? || value < bracket.upTo.value {
        return bracket.score;
      }
    }
    score := if brackets == [] then 0.0 else brackets[|brackets| - 1].score;
  }

  /** The ROAS subscore a tier asks for, by its key. */
  function Required(config: Config, key: string): real {
    if key == ELITE then config.capElite
    else if key == PRO_MARKETER then config.capProMarketer
    else if key == GROWTH_SELLER then config.capGrowthSeller
    else 0.0
  }

  predicate Enables(config: Config, i: nat, sRoas: real)
    requires i < |config.tiers|
  {
    sRoas >= Required(config, config.tiers[i].key)
  }

  method RoasCapIndex(config: Config, sRoas: real) returns (idx: nat)
    requires config.tiers != []
    ensures idx == CapIndex(config, sRoas, |config.tiers|)
  {
    idx := 0;
    for i := 0 to |config.tiers|
      invariant idx == CapIndex(config, sRoas, i)
    {
      if sRoas >= Required(config, config.tiers[i].key) { idx := i; }
    }
  }

  /** The last of the first `n` tiers the subscore enables, 0 when it enables none. */
  function CapIndex(config: Config, sRoas: real, n: nat): (i: nat)
    requires n <= |config.tiers|
    ensures n > 0 ==> i < n
    ensures (i < n && Enables(config, i, sRoas)) || (i == 0 && forall k :: 0 <= k < n ==> !Enables(config, k, sRoas))
    ensures forall k :: i < k < n ==> !Enables(config, k, sRoas)
  {
    if n == 0 then 0 else if Enables(config, n - 1, sRoas) then n - 1 else CapIndex(config, sRoas, n - 1)
  }

  /** The last tier but the first whose minimum the total reaches, 0 when none. */
  function ScoreIndex(tiers: seq<Tier>, total: int): (i: nat)
    ensures tiers != [] ==> i < |tiers|
    ensures 0 < i < |tiers| ==> total >= tiers[i].scoreMin
    ensures forall k :: i < k < |tiers| ==> total < tiers[k].scoreMin
  {
    if |tiers| <= 1 then 0
    else if total >= tiers[|tiers| - 1].scoreMin then |tiers| - 1
    else ScoreIndex(tiers[..|tiers| - 1], total)
  }

  function CommissionOf(tier: Tier): real { tier.commission.UnwrapOr(0.0) }

  function MaxCommission(tiers: seq<Tier>): (m: real)
    requires tiers != []
    ensures forall i :: 0 <= i < |tiers| ==> (if tiers[i].commission.Some? then tiers[i].commission.value else 0.0) <= m
    ensures exists i :: 0 <= i < |tiers| && (if tiers[i].commission.Some? then tiers[i].commission.value else 0.0) == m
  {
    var first := CommissionOf(tiers[0]);
    if |tiers| == 1 then first
    else
      var rest := MaxCommission(tiers[1..]);
      if first >= rest then first else rest
  }

  function DeriveWeeklyQuota(disbursement: real): real { disbursement * 3.0 }

  // ---------------------------------------------------------------- the engine

  /** What one subscore brings to the total. */
  function Part(score: real, weight: real): real { score * weight }

  function Weighted(config: Config, input: Input): real {
    Part(Subscore(config.investment, input.investment), config.weightInvestment)
    + Part(Subscore(config.roas, input.roas), config.weightRoas)
    + Part(Subscore(config.sales, input.sales), config.weightSales)
  }

  function Total(config: Config, input: Input): int { Tax.Round(Weighted(config, input)) }

  predicate VetoedByRoas(config: Config, input: Input) { input.roas < config.minRoas }

  function ByScore(config: Config, input: Input, bureau: Option<Bureau>): (i: nat)
    requires config.tiers != []
    ensures i < |config.tiers|
  {
    if VetoedByRoas(config, input) || bureau == Some(Veto) then 0 else ScoreIndex(config.tiers, Total(config, input))
  }

  function CapOf(config: Config, input: Input): (i: nat)
    requires config.tiers != []
    ensures i < |config.tiers|
  {
    CapIndex(config, Subscore(config.roas, input.roas), |config.tiers|)
  }

  function FinalIndex(config: Config, input: Input, bureau: Option<Bureau>): (i: nat)
    requires config.tiers != []
    ensures i < |config.tiers|
  {
    if ByScore(config, input, bureau) <= CapOf(config, input) then ByScore(config, input, bureau) else CapOf(config, input)
  }

  /** Downwards from the top tier; the first one is the default and is never tested. */
  method HighestReached(tiers: seq<Tier>, total: int) returns (idx: nat)
    requires tiers != []
    ensures idx == ScoreIndex(tiers, total)
  {
    idx := 0;
    var i := |tiers| - 1;
    while i >= 1
      invariant 0 <= i < |tiers| && idx == 0
      invariant ScoreIndex(tiers, total) == ScoreIndex(tiers[..i + 1], total)
    {
      assert tiers[..i + 1][..i] == tiers[..i];
      if total >= tiers[i].scoreMin {
        return i;
      }
      i := i - 1;
    }
  }

  /** Every field of the result is the one the tables give; the tier is never above either index. */
  method ComputeScore(input: Input, config: Config, bureau: Option<Bureau>) returns (r: Result)
    requires config.tiers != []
    ensures r.total == Total(config, input)
    ensures r.sInvestment == Subscore(config.investment, input.investment)
    ensures r.sRoas == Subscore(config.roas, input.roas) && r.sSales == Subscore(config.sales, input.sales)
    ensures r.vetoedByRoas <==> VetoedByRoas(config, input)
    ensures r.tierByScore == config.tiers[ByScore(config, input, bureau)].key
    ensures var tier := config.tiers[FinalIndex(config, input, bureau)];
            && r.tier == tier.key && r.disbursement == tier.disbursement && r.weeklyQuota == tier.disbursement * 3.0
            && r.commission == if bureau == Some(HighRisk) && tier.commission.Some? then Some(MaxCommission(config.tiers))
                               else tier.commission
    ensures r.cappedByRoas <==> CapOf(config, input) < ByScore(config, input, bureau)
  {
    hide Subscore, Tax.Round, ScoreIndex, CapIndex, MaxCommission, Part;
    var sInv := LookupBracket(config.investment, input.investment);
    var sRoas := LookupBracket(config.roas, input.roas);
    var sVent := LookupBracket(config.sales, input.sales);
    var total := Tax.Round(Part(sInv, config.weightInvestment) + Part(sRoas, config.weightRoas) + Part(sVent, config.weightSales));
    var roasVeto := input.roas < config.minRoas;
    var bureauVeto := bureau == Some(Veto);
    var tiers := config.tiers;
    var tierByScoreIdx := 0;
    if !roasVeto && !bureauVeto { tierByScoreIdx := HighestReached(tiers, total); }
    var capIdx := RoasCapIndex(config, sRoas);
    var finalIdx := if tierByScoreIdx <= capIdx then tierByScoreIdx else capIdx;
    var tier := tiers[finalIdx];
    var commission := tier.commission;
    if bureau == Some(HighRisk) && commission.Some? {
      commission := Some(MaxCommission(tiers));
    }
    r := Result(sInv, sRoas, sVent, total, tiers[tierByScoreIdx].key, tier.key, finalIdx < tierByScoreIdx,
                tier.disbursement, DeriveWeeklyQuota(tier.disbursement), commission, roasVeto);
  }

  // ---------------------------------------------------------------- the next step

  predicate Contains(tier: Tier, total: int) { tier.scoreMin <= total <= tier.scoreMax }

  datatype NextStep = NextStep(tier: string, pointsToNext: int, commission: Option<real>, weeklyQuota: real, weakest: Scale)

  /** The variable with the smallest subscore, the earlier one on a tie. */
  function Weakest(sInvestment: real, sRoas: real, sSales: real): (k: Scale)
    ensures var v := if k.Investment? then sInvestment else if k.Roas? then sRoas else sSales;
            v <= sInvestment && v <= sRoas && v <= sSales
    ensures sInvestment <= sRoas && sInvestment <= sSales ==> k.Investment?
    ensures sRoas < sInvestment && sRoas <= sSales ==> k.Roas?
  {
    if sInvestment <= sRoas && sInvestment <= sSales then Investment
    else if sRoas <= sSales then Roas
    else Sales
  }

  /** The first tier, in order of minima, that contains the total, or past the last. */
  function FindTier(tiers: seq<Tier>, total: int): (i: nat)
    ensures i <= |tiers|
    ensures i < |tiers| ==> Contains(tiers[i], total)
    ensures forall k :: 0 <= k < i ==> !Contains(tiers[k], total)
  {
    if tiers == [] || Contains(tiers[0], total) then 0 else 1 + FindTier(tiers[1..], total)
  }

  function BuildNextStep(total: int, sInvestment: real, sRoas: real, sSales: real, config: Config): Option<NextStep> {
    var tiers := SortTiers(config.tiers);
    var i := FindTier(tiers, total);
    if i >= |tiers| - 1 then None
    else
      var next := tiers[i + 1];
      Some(NextStep(next.key, next.scoreMin - total, next.commission, DeriveWeeklyQuota(next.disbursement),
                    Weakest(sInvestment, sRoas, sSales)))
  }
}
