/** What a validated policy guarantees of the engine, and what the validator lets through. */
module ScoreTheorems {
  import opened Basics
  import opened ScaleConfigs
  import opened ScoreEngine
  import Tax

  predicate NonNegativeWeights(config: Config) {
    config.weightInvestment >= 0.0 && config.weightRoas >= 0.0 && config.weightSales >= 0.0
  }

  // ---------------------------------------------------------------- the total

  lemma SubscoreIsBounded(brackets: seq<Bracket>, value: real)
    requires ValidScale(brackets)
    ensures BracketIndex(brackets, value) < |brackets|
    ensures 0.0 <= Subscore(brackets, value) <= 100.0
  {
    var i := BracketIndex(brackets, value);
    assert Below(brackets[|brackets| - 1], value);
  }

  lemma ProductIsNonNegative(a: real, b: real)
    requires a >= 0.0 && b >= 0.0
    ensures a * b >= 0.0
  {
  }

  lemma PartOfDifference(a: real, b: real, weight: real)
    ensures Part(a - b, weight) == Part(a, weight) - Part(b, weight)
  {
  }

  lemma PartOfHundred(weight: real)
    ensures Part(100.0, weight) == 100.0 * weight
  {
  }

  lemma PartIsBounded(score: real, weight: real)
    requires 0.0 <= score <= 100.0 && weight >= 0.0
    ensures 0.0 <= Part(score, weight) <= 100.0 * weight
  {
    ProductIsNonNegative(score, weight);
    ProductIsNonNegative(100.0 - score, weight);
    assert Part(score, weight) >= 0.0 && Part(100.0 - score, weight) >= 0.0;
    hide Part;
    PartOfDifference(100.0, score, weight);
    PartOfHundred(weight);
  }

  /** With weights that are not negative, a valid policy never scores outside 0 to 100. */
  lemma TotalIsInRange(config: Config, input: Input)
    requires Valid(config) && NonNegativeWeights(config)
    ensures 0 <= Total(config, input) <= 100
  {
    hide ValidScale, Subscore, CoverScores, HasKey, HasEdge, Tax.Round, Part;
    SubscoreIsBounded(config.investment, input.investment);
    SubscoreIsBounded(config.roas, input.roas);
    SubscoreIsBounded(config.sales, input.sales);
    PartIsBounded(Subscore(config.investment, input.investment), config.weightInvestment);
    PartIsBounded(Subscore(config.roas, input.roas), config.weightRoas);
    PartIsBounded(Subscore(config.sales, input.sales), config.weightSales);
    RoundsInRange(Weighted(config, input));
  }

  // ---------------------------------------------------------------- when every total is in range

  /** The least and the most a scale brings; with a negative weight the high scores bring least. */
  function Least(brackets: seq<Bracket>, weight: real): (x: real)
    requires brackets != []
    ensures forall i :: 0 <= i < |brackets| ==> x <= Part(brackets[i].score, weight)
    ensures exists i :: 0 <= i < |brackets| && Part(brackets[i].score, weight) == x
  {
    var first := Part(brackets[0].score, weight);
    if |brackets| == 1 then first
    else
      var rest := Least(brackets[1..], weight);
      if first <= rest then first else rest
  }

  function Most(brackets: seq<Bracket>, weight: real): (x: real)
    requires brackets != []
    ensures forall i :: 0 <= i < |brackets| ==> Part(brackets[i].score, weight) <= x
    ensures exists i :: 0 <= i < |brackets| && Part(brackets[i].score, weight) == x
  {
    var first := Part(brackets[0].score, weight);
    if |brackets| == 1 then first
    else
      var rest := Most(brackets[1..], weight);
      if first >= rest then first else rest
  }

  function Lowest(config: Config): real
    requires Valid(config)
  {
    Least(config.investment, config.weightInvestment) + Least(config.roas, config.weightRoas) + Least(config.sales, config.weightSales)
  }

  function Highest(config: Config): real
    requires Valid(config)
  {
    Most(config.investment, config.weightInvestment) + Most(config.roas, config.weightRoas) + Most(config.sales, config.weightSales)
  }

  /** A value that falls in the bracket. */
  function Sample(brackets: seq<Bracket>, i: nat): (value: real)
    requires ValidScale(brackets) && i < |brackets|
    ensures BracketIndex(brackets, value) == i
  {
    if i > 0 then
      assert EdgeRises(brackets[i - 1], brackets[i]);
      EdgesBelow(brackets, i - 1);
      brackets[i - 1].upTo.value
    else brackets[0].upTo.UnwrapOr(0.0) - 1.0
  }

  lemma EdgesBelow(brackets: seq<Bracket>, i: nat)
    requires ValidScale(brackets) && i < |brackets| && brackets[i].upTo.Some?
    ensures forall k :: 0 <= k <= i ==> !Below(brackets[k], brackets[i].upTo.value)
  {
    forall k | 0 <= k <= i ensures !Below(brackets[k], brackets[i].upTo.value) { EdgesGrow(brackets, k, i); }
  }

  /** A scale brings what the bracket of its value brings. */
  lemma BringsItsPart(brackets: seq<Bracket>, value: real, weight: real)
    requires ValidScale(brackets)
    ensures BracketIndex(brackets, value) < |brackets|
    ensures Subscore(brackets, value) == brackets[BracketIndex(brackets, value)].score
    ensures Least(brackets, weight) <= Part(Subscore(brackets, value), weight) <= Most(brackets, weight)
  {
    hide Part;
    SubscoreIsBounded(brackets, value);
  }

  lemma WeightedLiesBetween(config: Config, input: Input)
    requires Valid(config)
    ensures Lowest(config) <= Weighted(config, input) <= Highest(config)
  {
    hide ValidScale, Least, Most, Subscore, Part;
    BringsItsPart(config.investment, input.investment, config.weightInvestment);
    BringsItsPart(config.roas, input.roas, config.weightRoas);
    BringsItsPart(config.sales, input.sales, config.weightSales);
  }

  lemma ExtremeIsReached(brackets: seq<Bracket>, weight: real) returns (low: real, high: real)
    requires ValidScale(brackets)
    ensures Part(Subscore(brackets, low), weight) == Least(brackets, weight)
    ensures Part(Subscore(brackets, high), weight) == Most(brackets, weight)
  {
    assert brackets != [];
    hide Subscore, Part, Least, Most, ValidScale;
    var i :| 0 <= i < |brackets| && Part(brackets[i].score, weight) == Least(brackets, weight);
    var j :| 0 <= j < |brackets| && Part(brackets[j].score, weight) == Most(brackets, weight);
    low, high := Sample(brackets, i), Sample(brackets, j);
    BringsItsPart(brackets, low, weight);
    BringsItsPart(brackets, high, weight);
  }

  lemma ExtremesAreReached(config: Config) returns (low: Input, high: Input)
    requires Valid(config)
    ensures Weighted(config, low) == Lowest(config) && Weighted(config, high) == Highest(config)
  {
    hide ValidScale, Least, Most, Subscore, Part;
    var a, b := ExtremeIsReached(config.investment, config.weightInvestment);
    var c, d := ExtremeIsReached(config.roas, config.weightRoas);
    var e, f := ExtremeIsReached(config.sales, config.weightSales);
    low, high := Input(a, c, e), Input(b, d, f);
  }

  lemma RoundsInRange(x: real)
    ensures 0 <= Tax.Round(x) <= 100 <==> -0.5 <= x < 100.5
  {
  }

  /**
   A valid policy scores every input within 0 to 100 exactly when its least weighted scores sum to
   no less than -0.5 and its greatest to less than 100.5. The validator checks neither sum.
   */
  lemma InRangeIff(config: Config)
    requires Valid(config)
    ensures (forall input :: 0 <= Total(config, input) <= 100) <==> Lowest(config) >= -0.5 && Highest(config) < 100.5
  {
    hide Weighted, Tax.Round, Lowest, Highest;
    var low, high := ExtremesAreReached(config);
    RoundsInRange(Weighted(config, low));
    RoundsInRange(Weighted(config, high));
    if forall input :: 0 <= Total(config, input) <= 100 {
      assert 0 <= Total(config, low) <= 100 && 0 <= Total(config, high) <= 100;
      WeightedLiesBetween(config, low);
    }
    if Lowest(config) >= -0.5 && Highest(config) < 100.5 {
      forall input ensures 0 <= Total(config, input) <= 100 {
        WeightedLiesBetween(config, input);
        RoundsInRange(Weighted(config, input));
      }
    }
  }

  // ---------------------------------------------------------------- tiers

  lemma {:induction false} LowerTierEndsBelow(tiers: seq<Tier>, i: nat, j: nat)
    requires CoverScores(tiers) && i < j < |tiers|
    ensures tiers[i].scoreMax < tiers[j].scoreMin
    decreases j
  {
    if i < j - 1 { LowerTierEndsBelow(tiers, i, j - 1); }
  }

  /** In order, exactly one tier contains each total, and it is the last whose minimum is reached. */
  lemma OneTierContains(tiers: seq<Tier>, total: int)
    requires CoverScores(tiers) && 0 <= total <= 100
    ensures var i := ScoreIndex(tiers, total);
            Contains(tiers[i], total) && forall k :: 0 <= k < |tiers| && k != i ==> !Contains(tiers[k], total)
  {
    var i := ScoreIndex(tiers, total);
    assert i + 1 < |tiers| ==> total < tiers[i + 1].scoreMin;
    forall k | 0 <= k < |tiers| && k != i ensures !Contains(tiers[k], total) {
      if k < i { LowerTierEndsBelow(tiers, k, i); }
    }
  }

  predicate Apart(a: Tier, b: Tier) { a.scoreMax < b.scoreMin || b.scoreMax < a.scoreMin }

  predicate AllApart(tiers: seq<Tier>) { forall i, j :: 0 <= i < j < |tiers| ==> Apart(tiers[i], tiers[j]) }

  lemma RestIsApart(tiers: seq<Tier>)
    requires AllApart(tiers) && tiers != []
    ensures AllApart(tiers[1..]) && forall t :: t in tiers[1..] ==> Apart(tiers[0], t)
  {
    forall i, j | 0 <= i < j < |tiers[1..]| ensures Apart(tiers[1..][i], tiers[1..][j]) {
      assert Apart(tiers[i + 1], tiers[j + 1]);
    }
    forall t | t in tiers[1..] ensures Apart(tiers[0], t) {
      var k :| 0 <= k < |tiers[1..]| && tiers[1..][k] == t;
      assert Apart(tiers[0], tiers[k + 1]);
    }
  }

  lemma AddedIsApart(first: Tier, rest: seq<Tier>)
    requires AllApart(rest) && forall t :: t in rest ==> Apart(first, t)
    ensures AllApart([first] + rest)
  {
  }

  lemma {:induction false} InsertedIsApart(tier: Tier, sorted: seq<Tier>)
    requires AllApart(Insert(tier, sorted))
    ensures AllApart(sorted) && forall t :: t in sorted ==> Apart(tier, t)
  {
    hide AllApart, Apart;
    RestIsApart(Insert(tier, sorted));
    if sorted != [] && tier.scoreMin > sorted[0].scoreMin {
      var rest := Insert(tier, sorted[1..]);
      InsertedIsApart(tier, sorted[1..]);
      assert Insert(tier, sorted)[1..] == rest;
      forall t | t in sorted[1..] || t == tier ensures t in rest { InsertedAreIn(tier, sorted[1..], t); }
      AddedIsApart(sorted[0], sorted[1..]);
      assert sorted == [sorted[0]] + sorted[1..];
      ApartIsSymmetric(sorted[0], tier);
    } else {
      assert Insert(tier, sorted)[1..] == sorted;
    }
  }

  lemma InsertedAreIn(tier: Tier, sorted: seq<Tier>, t: Tier)
    requires t in sorted || t == tier
    ensures t in Insert(tier, sorted)
  {
    InsertAddsOne(tier, sorted);
    assert t in multiset(Insert(tier, sorted));
  }

  lemma ApartIsSymmetric(a: Tier, b: Tier)
    ensures Apart(a, b) == Apart(b, a)
  {
  }

  lemma OneOwner(tiers: seq<Tier>, i: nat, j: nat, total: int)
    requires AllApart(tiers) && i < |tiers| && j < |tiers| && Contains(tiers[i], total) && Contains(tiers[j], total)
    ensures i == j
  {
  }

  /** Tiers that do not overlap once sorted did not overlap before. */
  lemma {:induction false} UnsortedIsApart(tiers: seq<Tier>)
    requires AllApart(SortTiers(tiers))
    ensures AllApart(tiers)
  {
    if tiers != [] {
      var rest := tiers[1..];
      InsertedIsApart(tiers[0], SortTiers(rest));
      UnsortedIsApart(rest);
      SortTiersSorts(rest);
      forall j | 0 < j < |tiers| ensures Apart(tiers[0], tiers[j]) {
        assert tiers[j] in multiset(rest);
        assert tiers[j] in SortTiers(rest);
      }
    }
  }

  lemma TierLiesInRange(tiers: seq<Tier>, tier: Tier)
    requires CoverScores(SortTiers(tiers)) && tier in tiers
    ensures 0 <= tier.scoreMin <= tier.scoreMax <= 100
  {
    var sorted := SortTiers(tiers);
    SortTiersSorts(tiers);
    hide SortTiers;
    assert tier in multiset(tiers);
    assert tier in sorted;
    var i :| 0 <= i < |sorted| && sorted[i] == tier;
    if i > 0 { LowerTierEndsBelow(sorted, 0, i); }
    if i < |sorted| - 1 { LowerTierEndsBelow(sorted, i, |sorted| - 1); }
  }

  lemma CoveringTiersAreApart(tiers: seq<Tier>)
    requires CoverScores(SortTiers(tiers))
    ensures AllApart(tiers)
  {
    var sorted := SortTiers(tiers);
    forall i, j | 0 <= i < j < |sorted| ensures Apart(sorted[i], sorted[j]) { LowerTierEndsBelow(sorted, i, j); }
    UnsortedIsApart(tiers);
  }

  /** What the engine takes for the tier of a total. */
  predicate EngineFindsTier(tiers: seq<Tier>, total: int) {
    tiers != [] && Contains(tiers[ScoreIndex(tiers, total)], total)
  }

  /**
   The validator sorts a copy of the tiers and the engine reads them as stored. So on a valid
   policy the engine finds the tier of every total exactly when they are stored in order.
   */
  lemma EngineAgreesIffStoredInOrder(tiers: seq<Tier>)
    requires CoverScores(SortTiers(tiers))
    ensures (forall total :: 0 <= total <= 100 ==> EngineFindsTier(tiers, total)) <==> Rising(tiers)
  {
    SortTiersSorts(tiers);
    if Rising(tiers) {
      RisingIsSorted(tiers);
      forall total | 0 <= total <= 100 ensures EngineFindsTier(tiers, total) { OneTierContains(tiers, total); }
    }
    if forall total :: 0 <= total <= 100 ==> EngineFindsTier(tiers, total) {
      CoveringTiersAreApart(tiers);
      forall i, j | 0 <= i < j < |tiers| ensures tiers[i].scoreMin <= tiers[j].scoreMin {
        TierLiesInRange(tiers, tiers[i]);
        assert EngineFindsTier(tiers, tiers[i].scoreMin);
        OneOwner(tiers, ScoreIndex(tiers, tiers[i].scoreMin), i, tiers[i].scoreMin);
      }
    }
  }

  /** On a valid policy stored in order, the tier by score is the one tier that contains the total. */
  lemma UnvetoedTierContainsTotal(config: Config, input: Input, bureau: Option<Bureau>)
    requires Valid(config) && NonNegativeWeights(config) && Rising(config.tiers)
    requires !VetoedByRoas(config, input) && bureau != Some(Veto)
    ensures config.tiers != []
    ensures var i := ByScore(config, input, bureau);
            && Contains(config.tiers[i], Total(config, input))
            && forall k :: 0 <= k < |config.tiers| && k != i ==> !Contains(config.tiers[k], Total(config, input))
  {
    hide Total, SortTiers, ValidScale;
    TotalIsInRange(config, input);
    RisingIsSorted(config.tiers);
    OneTierContains(config.tiers, Total(config, input));
  }

  // ---------------------------------------------------------------- the veto

  lemma {:induction false} EdgesGrow(brackets: seq<Bracket>, i: nat, j: nat)
    requires ValidScale(brackets) && i <= j < |brackets| && brackets[j].upTo.Some?
    ensures brackets[i].upTo.Some? && brackets[i].upTo.value <= brackets[j].upTo.value
    decreases j
  {
    if i < j {
      assert EdgeRises(brackets[j - 1], brackets[j]);
      EdgesGrow(brackets, i, j - 1);
    }
  }

  /** The ROAS veto cuts no bracket in two: two values in one bracket are both vetoed or neither. */
  lemma VetoDependsOnBracket(config: Config, a: Input, b: Input)
    requires ValidScale(config.roas) && HasEdge(config.roas, config.minRoas)
    requires BracketIndex(config.roas, a.roas) == BracketIndex(config.roas, b.roas)
    ensures VetoedByRoas(config, a) <==> VetoedByRoas(config, b)
  {
    var e :| 0 <= e < |config.roas| && config.roas[e].upTo == Some(config.minRoas);
    VetoByIndex(config, a, e);
    VetoByIndex(config, b, e);
  }

  lemma VetoByIndex(config: Config, input: Input, e: nat)
    requires ValidScale(config.roas) && e < |config.roas| && config.roas[e].upTo == Some(config.minRoas)
    ensures VetoedByRoas(config, input) <==> BracketIndex(config.roas, input.roas) <= e
  {
    var i := BracketIndex(config.roas, input.roas);
    if i <= e { EdgesGrow(config.roas, i, e); }
  }

  // ---------------------------------------------------------------- the next step

  lemma FoundIsTheTier(tiers: seq<Tier>, total: int)
    requires CoverScores(tiers) && 0 <= total <= 100
    ensures FindTier(tiers, total) == ScoreIndex(tiers, total)
  {
    OneTierContains(tiers, total);
  }

  lemma NextTierBegins(tiers: seq<Tier>, total: int)
    requires CoverScores(tiers) && 0 <= total <= 100 && ScoreIndex(tiers, total) + 1 < |tiers|
    ensures var i := ScoreIndex(tiers, total);
            var landing := tiers[i + 1].scoreMin;
            && total < landing && Contains(tiers[i + 1], landing) && ScoreIndex(tiers, landing) == i + 1
            && forall points :: total <= points < landing ==> Contains(tiers[i], points)
  {
    var i := ScoreIndex(tiers, total);
    OneTierContains(tiers, total);
    LastTierEnds(tiers, i + 1);
    OneTierContains(tiers, tiers[i + 1].scoreMin);
    assert Contains(tiers[i + 1], tiers[i + 1].scoreMin);
  }

  /**
   The points promised are exactly enough: there is a next step unless the total is in the top
   tier, and that many more points land in the very next tier, on its first point.
   */
  lemma NextStepLandsInNextTier(total: int, sInvestment: real, sRoas: real, sSales: real, config: Config)
    requires CoverScores(SortTiers(config.tiers)) && 0 <= total <= 100
    ensures var step := BuildNextStep(total, sInvestment, sRoas, sSales, config);
            var tiers := SortTiers(config.tiers);
            var i := ScoreIndex(tiers, total);
            && (step.None? <==> i == |tiers| - 1)
            && (step.Some? ==>
                  && i + 1 < |tiers| && step.value.tier == tiers[i + 1].key && step.value.pointsToNext > 0
                  && ScoreIndex(tiers, total + step.value.pointsToNext) == i + 1
                  && Contains(tiers[i + 1], total + step.value.pointsToNext)
                  && forall points :: total <= points < total + step.value.pointsToNext ==> Contains(tiers[i], points))
  {
    var tiers := SortTiers(config.tiers);
    hide SortTiers, CoverScores, ScoreIndex, FindTier, Weakest;
    CoveringIsNotEmpty(tiers);
    FoundIsTheTier(tiers, total);
    if ScoreIndex(tiers, total) + 1 < |tiers| { NextTierBegins(tiers, total); }
  }

  lemma CoveringIsNotEmpty(tiers: seq<Tier>)
    requires CoverScores(tiers)
    ensures tiers != []
  {
  }

  lemma LastTierEnds(tiers: seq<Tier>, i: nat)
    requires CoverScores(tiers) && i < |tiers|
    ensures 0 <= tiers[i].scoreMin <= 100
  {
    if i > 0 { LowerTierEndsBelow(tiers, 0, i); }
    if i < |tiers| - 1 { LowerTierEndsBelow(tiers, i, |tiers| - 1); }
  }

  // ---------------------------------------------------------------- monotonicity

  predicate ScoresRise(brackets: seq<Bracket>) {
    forall i, j :: 0 <= i <= j < |brackets| ==> brackets[i].score <= brackets[j].score
  }

  predicate NoLess(a: Input, b: Input) { a.investment <= b.investment && a.roas <= b.roas && a.sales <= b.sales }

  lemma SubscoreRises(brackets: seq<Bracket>, a: real, b: real)
    requires ValidScale(brackets) && ScoresRise(brackets) && a <= b
    ensures Subscore(brackets, a) <= Subscore(brackets, b)
  {
    SubscoreIsBounded(brackets, a);
    SubscoreIsBounded(brackets, b);
    assert Below(brackets[BracketIndex(brackets, b)], a);
  }

  lemma PartRises(a: real, b: real, weight: real)
    requires a <= b && weight >= 0.0
    ensures Part(a, weight) <= Part(b, weight)
  {
    ProductIsNonNegative(b - a, weight);
    assert Part(b - a, weight) >= 0.0;
    hide Part;
    PartOfDifference(b, a, weight);
  }

  lemma TotalRises(config: Config, a: Input, b: Input)
    requires Valid(config) && NonNegativeWeights(config) && NoLess(a, b)
    requires ScoresRise(config.investment) && ScoresRise(config.roas) && ScoresRise(config.sales)
    ensures Total(config, a) <= Total(config, b)
  {
    hide Subscore, ValidScale, ScoresRise, CoverScores, HasKey, HasEdge, Tax.Round, Part;
    SubscoreRises(config.investment, a.investment, b.investment);
    SubscoreRises(config.roas, a.roas, b.roas);
    SubscoreRises(config.sales, a.sales, b.sales);
    PartRises(Subscore(config.investment, a.investment), Subscore(config.investment, b.investment), config.weightInvestment);
    PartRises(Subscore(config.roas, a.roas), Subscore(config.roas, b.roas), config.weightRoas);
    PartRises(Subscore(config.sales, a.sales), Subscore(config.sales, b.sales), config.weightSales);
    RoundRises(Weighted(config, a), Weighted(config, b));
  }

  lemma RoundRises(x: real, y: real)
    requires x <= y
    ensures Tax.Round(x) <= Tax.Round(y)
  {
  }

  lemma ScoreIndexRises(tiers: seq<Tier>, a: int, b: int)
    requires tiers != [] && a <= b
    ensures ScoreIndex(tiers, a) <= ScoreIndex(tiers, b)
  {
  }

  lemma CapIndexRises(config: Config, a: real, b: real)
    requires config.tiers != [] && a <= b
    ensures CapIndex(config, a, |config.tiers|) <= CapIndex(config, b, |config.tiers|)
  {
    var i := CapIndex(config, a, |config.tiers|);
    assert Enables(config, i, a) ==> Enables(config, i, b);
  }

  /** Investing more, earning more per unit spent or selling more never lowers the total or the tier. */
  lemma ScoringIsMonotone(config: Config, a: Input, b: Input, bureau: Option<Bureau>)
    requires Valid(config) && NonNegativeWeights(config) && NoLess(a, b) && config.tiers != []
    requires ScoresRise(config.investment) && ScoresRise(config.roas) && ScoresRise(config.sales)
    ensures Total(config, a) <= Total(config, b)
    ensures FinalIndex(config, a, bureau) <= FinalIndex(config, b, bureau)
  {
    hide Total, Subscore, ValidScale, ScoresRise, CoverScores, HasKey, HasEdge, ScoreIndex, CapIndex;
    TotalRises(config, a, b);
    SubscoreRises(config.roas, a.roas, b.roas);
    ScoreIndexRises(config.tiers, Total(config, a), Total(config, b));
    CapIndexRises(config, Subscore(config.roas, a.roas), Subscore(config.roas, b.roas));
  }

  // ---------------------------------------------------------------- the ceiling

  predicate CapsRise(config: Config) {
    forall i, j :: 0 <= i <= j < |config.tiers| ==> Required(config, config.tiers[i].key) <= Required(config, config.tiers[j].key)
  }

  /** The final tier is the highest up to the one by score that the ROAS subscore enables, or the first. */
  lemma FinalTierIsBestEnabled(config: Config, input: Input, bureau: Option<Bureau>)
    requires config.tiers != [] && CapsRise(config)
    ensures var s, i := Subscore(config.roas, input.roas), FinalIndex(config, input, bureau);
            && i <= ByScore(config, input, bureau)
            && (i > 0 ==> Enables(config, i, s))
            && forall k :: i < k <= ByScore(config, input, bureau) ==> !Enables(config, k, s)
  {
    hide ByScore, Subscore;
  }

  /**
   The final tier's requirement is met exactly when the first tier's is: the ceiling falls back on
   the first tier, whose own requirement nobody checks.
   */
  lemma RequirementIsMetIff(config: Config, input: Input, bureau: Option<Bureau>)
    requires config.tiers != [] && CapsRise(config)
    ensures var s := Subscore(config.roas, input.roas);
            Enables(config, FinalIndex(config, input, bureau), s) <==> Enables(config, 0, s)
  {
    hide Subscore, ByScore;
  }

  /** So it always is when the lowest tier carries no ceiling. */
  lemma RequirementIsAlwaysMet(config: Config, input: Input, bureau: Option<Bureau>)
    requires Valid(config) && config.tiers != [] && CapsRise(config)
    requires config.tiers[0].key !in {GROWTH_SELLER, PRO_MARKETER, ELITE}
    ensures Enables(config, FinalIndex(config, input, bureau), Subscore(config.roas, input.roas))
  {
    hide CoverScores, SortTiers, HasKey, HasEdge, Subscore, FinalIndex;
    SubscoreIsBounded(config.roas, input.roas);
    RequirementIsMetIff(config, input, bureau);
  }

  // ---------------------------------------------------------------- the shipped policy

  const V1: Config := Config(
    0.4, 0.4, 0.2,
    [Bracket(Some(2000000.0), 10.0), Bracket(Some(4000000.0), 30.0), Bracket(Some(6000000.0), 50.0),
     Bracket(Some(10000000.0), 70.0), Bracket(Some(18000000.0), 85.0), Bracket(None, 100.0)],
    [Bracket(Some(1.5), 0.0), Bracket(Some(2.0), 15.0), Bracket(Some(2.5), 30.0), Bracket(Some(3.0), 50.0),
     Bracket(Some(3.5), 65.0), Bracket(Some(4.5), 80.0), Bracket(Some(6.0), 92.0), Bracket(None, 100.0)],
    [Bracket(Some(5000000.0), 10.0), Bracket(Some(10000000.0), 30.0), Bracket(Some(20000000.0), 50.0),
     Bracket(Some(40000000.0), 70.0), Bracket(Some(70000000.0), 88.0), Bracket(None, 100.0)],
    3.0, 65.0, 80.0, 92.0,
    [Tier("no_eligible", 0, 39, 0.0, None), Tier("starter", 40, 54, 1000000.0, Some(0.035)),
     Tier("builder", 55, 64, 1500000.0, Some(0.03)), Tier(GROWTH_SELLER, 65, 74, 2000000.0, Some(0.025)),
     Tier(PRO_MARKETER, 75, 84, 2000000.0, Some(0.0225)), Tier(ELITE, 85, 100, 2000000.0, Some(0.02))]
  )

  lemma {:induction false} StepwiseScoresRise(brackets: seq<Bracket>, j: nat)
    requires forall i :: 0 < i < |brackets| ==> brackets[i - 1].score <= brackets[i].score
    requires j < |brackets|
    ensures forall i :: 0 <= i <= j ==> brackets[i].score <= brackets[j].score
  {
    if j > 0 { StepwiseScoresRise(brackets, j - 1); }
  }

  lemma ScoresRiseIfStepwise(brackets: seq<Bracket>)
    requires forall i :: 0 < i < |brackets| ==> brackets[i - 1].score <= brackets[i].score
    ensures ScoresRise(brackets)
  {
    forall j | 0 <= j < |brackets| ensures forall i :: 0 <= i <= j ==> brackets[i].score <= brackets[j].score {
      StepwiseScoresRise(brackets, j);
    }
  }

  lemma ShippedInvestmentQualifies()
    ensures ValidScale(V1.investment) && ScoresRise(V1.investment)
  {
    hide ScoresRise;
    ScoresRiseIfStepwise(V1.investment);
  }

  lemma ShippedRoasQualifies()
    ensures ValidScale(V1.roas) && ScoresRise(V1.roas) && HasEdge(V1.roas, V1.minRoas)
  {
    assert V1.roas[3].upTo == Some(3.0);
    hide ScoresRise;
    ScoresRiseIfStepwise(V1.roas);
  }

  lemma ShippedSalesQualify()
    ensures ValidScale(V1.sales) && ScoresRise(V1.sales)
  {
    hide ScoresRise;
    ScoresRiseIfStepwise(V1.sales);
  }

  lemma ShippedTiersQualify()
    ensures Rising(V1.tiers) && CoverScores(V1.tiers) && CapsRise(V1)
    ensures HasKey(V1.tiers, GROWTH_SELLER) && HasKey(V1.tiers, PRO_MARKETER) && HasKey(V1.tiers, ELITE)
  {
    assert V1.tiers[3].key == GROWTH_SELLER && V1.tiers[4].key == PRO_MARKETER && V1.tiers[5].key == ELITE;
  }

  /** The policy the system seeds meets every assumption made here. */
  lemma ShippedPolicyQualifies()
    ensures Valid(V1) && NonNegativeWeights(V1) && Rising(V1.tiers) && CapsRise(V1)
    ensures ScoresRise(V1.investment) && ScoresRise(V1.roas) && ScoresRise(V1.sales)
    ensures V1.tiers[0].key !in {GROWTH_SELLER, PRO_MARKETER, ELITE}
  {
    hide ValidScale, ScoresRise, Rising, CoverScores, CapsRise, HasKey, HasEdge, SortTiers;
    ShippedInvestmentQualifies();
    ShippedRoasQualifies();
    ShippedSalesQualify();
    ShippedTiersQualify();
    RisingIsSorted(V1.tiers);
  }

  /** The validator does not look at the sign of a weight: this policy passes it and scores 200. */
  lemma NegativeWeightEscapesRange()
    ensures var config := V1.(weightInvestment := 2.0, weightRoas := -1.0, weightSales := 0.0);
            Valid(config) && Total(config, Input(20000000.0, 0.0, 0.0)) == 200
  {
    ShippedPolicyQualifies();
    var config := V1.(weightInvestment := 2.0, weightRoas := -1.0, weightSales := 0.0);
    var input := Input(20000000.0, 0.0, 0.0);
    assert BracketIndex(config.investment, 20000000.0) == 5 by {
      var b := config.investment;
      assert !Below(b[0], 20000000.0) && !Below(b[1], 20000000.0) && !Below(b[2], 20000000.0)
             && !Below(b[3], 20000000.0) && !Below(b[4], 20000000.0);
    }
    assert BracketIndex(config.roas, 0.0) == 0;
    Tax.RoundIsUnique(200.0 + Subscore(config.sales, 0.0) * 0.0, 200);
  }
}
