/**
 The scoring policy: its shape (`src/credit/domain/scale-config.types.ts`), the validator that
 guards its activation and the versions it is stored in (`src/credit/scale-config.service.ts`).
 Weights, scores and edges are exact reals; tier bounds are integers.
 */
module ScaleConfigs {
  import opened Basics

  /** `upTo` is exclusive; without it the bracket is open. */
  datatype Bracket = Bracket(upTo: Option<real>, score: real)

  datatype Tier = Tier(key: string, scoreMin: int, scoreMax: int, disbursement: real, commission: Option<real>)

  datatype Scale = Investment | Roas | Sales

  datatype Config = Config(
    weightInvestment: real,
    weightRoas: real,
    weightSales: real,
    investment: seq<Bracket>,
    roas: seq<Bracket>,
    sales: seq<Bracket>,
    minRoas: real,
    capGrowthSeller: real,
    capProMarketer: real,
    capElite: real,
    tiers: seq<Tier>
  )

  const GROWTH_SELLER: string := "growth_seller"
  const PRO_MARKETER: string := "pro_marketer"
  const ELITE: string := "elite"

  const WEIGHT_TOLERANCE: real := 0.000000001

  function BracketsOf(config: Config, scale: Scale): seq<Bracket> {
    match scale
    case Investment => config.investment
    case Roas => config.roas
    case Sales => config.sales
  }

  // ---------------------------------------------------------------- sorting tiers

  function Insert(tier: Tier, sorted: seq<Tier>): seq<Tier> {
    if sorted == [] || tier.scoreMin <= sorted[0].scoreMin then [tier] + sorted
    else [sorted[0]] + Insert(tier, sorted[1..])
  }

  /** `sort((a, b) => a.scoreMin - b.scoreMin)` on a copy; equal minima keep their order. */
  function SortTiers(tiers: seq<Tier>): seq<Tier> {
    if tiers == [] then [] else Insert(tiers[0], SortTiers(tiers[1..]))
  }

  predicate Rising(tiers: seq<Tier>) { forall i, j :: 0 <= i < j < |tiers| ==> tiers[i].scoreMin <= tiers[j].scoreMin }

  lemma {:induction false} InsertAddsOne(tier: Tier, sorted: seq<Tier>)
    ensures |Insert(tier, sorted)| == |sorted| + 1
    ensures multiset(Insert(tier, sorted)) == multiset(sorted) + multiset{tier}
  {
    if sorted != [] && tier.scoreMin > sorted[0].scoreMin {
      InsertAddsOne(tier, sorted[1..]);
      assert sorted == [sorted[0]] + sorted[1..];
    }
  }

  lemma {:induction false} InsertRises(tier: Tier, sorted: seq<Tier>)
    requires Rising(sorted)
    ensures Rising(Insert(tier, sorted))
    ensures sorted != [] ==> Insert(tier, sorted)[0].scoreMin == Min(tier.scoreMin, sorted[0].scoreMin)
    ensures sorted == [] ==> Insert(tier, sorted) == [tier]
  {
    if sorted != [] && tier.scoreMin > sorted[0].scoreMin {
      InsertRises(tier, sorted[1..]);
    }
  }

  /** The sorted copy has the same tiers, in order of their minima. */
  lemma {:induction false} SortTiersSorts(tiers: seq<Tier>)
    ensures Rising(SortTiers(tiers)) && multiset(SortTiers(tiers)) == multiset(tiers) && |SortTiers(tiers)| == |tiers|
  {
    hide Insert;
    if tiers != [] {
      SortTiersSorts(tiers[1..]);
      InsertAddsOne(tiers[0], SortTiers(tiers[1..]));
      InsertRises(tiers[0], SortTiers(tiers[1..]));
      assert tiers == [tiers[0]] + tiers[1..];
    }
  }

  lemma {:induction false} RisingIsSorted(tiers: seq<Tier>)
    requires Rising(tiers)
    ensures SortTiers(tiers) == tiers
  {
    if tiers != [] {
      RisingIsSorted(tiers[1..]);
      assert tiers == [tiers[0]] + tiers[1..];
    }
  }

  // ---------------------------------------------------------------- what a valid policy is

  /** Brackets partition the line: rising edges, and the last bracket open. */
  predicate ValidScale(brackets: seq<Bracket>) {
    && brackets != []
    && brackets[|brackets| - 1].upTo.None?
    && (forall i :: 0 <= i < |brackets| - 1 ==> EdgeRises(brackets[i], brackets[i + 1]))
    && (forall i :: 0 <= i < |brackets| ==> 0.0 <= brackets[i].score <= 100.0)
  }

  predicate EdgeRises(a: Bracket, b: Bracket) { a.upTo.Some? && (b.upTo.None? || a.upTo.value < b.upTo.value) }

  /** Tiers in order cover 0 to 100 with neither gaps nor overlaps. */
  predicate CoverScores(tiers: seq<Tier>) {
    && tiers != [] && tiers[0].scoreMin == 0 && tiers[|tiers| - 1].scoreMax == 100
    && (forall i :: 0 <= i < |tiers| ==> tiers[i].scoreMin <= tiers[i].scoreMax)
    && (forall i :: 0 < i < |tiers| ==> tiers[i].scoreMin == tiers[i - 1].scoreMax + 1)
  }

  predicate WeightsSumToOne(config: Config) {
    -WEIGHT_TOLERANCE <= config.weightInvestment + config.weightRoas + config.weightSales - 1.0 <= WEIGHT_TOLERANCE
  }

  predicate HasKey(tiers: seq<Tier>, key: string) { exists i :: 0 <= i < |tiers| && tiers[i].key == key }

  predicate HasEdge(brackets: seq<Bracket>, edge: real) {
    exists i :: 0 <= i < |brackets| && brackets[i].upTo == Some(edge)
  }

  predicate Valid(config: Config) {
    && WeightsSumToOne(config)
    && ValidScale(config.investment) && ValidScale(config.roas) && ValidScale(config.sales)
    && HasEdge(config.roas, config.minRoas)
    && CoverScores(SortTiers(config.tiers))
    && HasKey(config.tiers, GROWTH_SELLER) && HasKey(config.tiers, PRO_MARKETER) && HasKey(config.tiers, ELITE)
  }

  // ---------------------------------------------------------------- the validator

  datatype Error =
    | WeightsDoNotSum
    | EmptyScale(scale: Scale)
    | ScaleNotOpen(scale: Scale)
    | EdgesNotRising(scale: Scale, at: nat)
    | ScoreOutOfRange(scale: Scale, score: real)
    | MinRoasOffEdge
    | TiersDoNotStartAtZero
    | TierUpsideDown(key: string)
    | GapOrOverlap(below: string, above: string)
    | TiersDoNotReachHundred
    | MissingTier(key: string)

  /** What each error about a scale says of it. */
  predicate ScaleFault(brackets: seq<Bracket>, e: Error) {
    match e
    case EmptyScale(_) => brackets == []
    case ScaleNotOpen(_) => brackets != [] && brackets[|brackets| - 1].upTo.Some?
    case EdgesNotRising(_, at) => at + 1 < |brackets| && !EdgeRises(brackets[at], brackets[at + 1])
    case ScoreOutOfRange(_, score) => !(0.0 <= score <= 100.0) && exists i :: 0 <= i < |brackets| && brackets[i].score == score
    case _ => false
  }

  /** What each error about the sorted tiers says of them. */
  predicate TierFault(tiers: seq<Tier>, e: Error) {
    match e
    case TiersDoNotStartAtZero => tiers == [] || tiers[0].scoreMin != 0
    case TierUpsideDown(key) => exists i :: 0 <= i < |tiers| && IsUpsideDown(tiers[i], key)
    case GapOrOverlap(below, above) => exists i :: 0 < i < |tiers| && DoNotMeet(tiers[i - 1], tiers[i], below, above)
    case TiersDoNotReachHundred => tiers != [] && tiers[|tiers| - 1].scoreMax != 100
    case _ => false
  }

  predicate IsUpsideDown(tier: Tier, key: string) { tier.key == key && tier.scoreMax < tier.scoreMin }

  predicate DoNotMeet(a: Tier, b: Tier, below: string, above: string) {
    a.key == below && b.key == above && b.scoreMin != a.scoreMax + 1
  }

  /** What each error says of the policy. */
  predicate Fault(config: Config, e: Error) {
    match e
    case WeightsDoNotSum => !WeightsSumToOne(config)
    case MinRoasOffEdge => !HasEdge(config.roas, config.minRoas)
    case MissingTier(key) => key in {GROWTH_SELLER, PRO_MARKETER, ELITE} && !HasKey(config.tiers, key)
    case EmptyScale(scale) => ScaleFault(BracketsOf(config, scale), e)
    case ScaleNotOpen(scale) => ScaleFault(BracketsOf(config, scale), e)
    case EdgesNotRising(scale, _) => ScaleFault(BracketsOf(config, scale), e)
    case ScoreOutOfRange(scale, _) => ScaleFault(BracketsOf(config, scale), e)
    case _ => TierFault(SortTiers(config.tiers), e)
  }

  predicate OfScale(e: Error, scale: Scale) {
    (e.EmptyScale? || e.ScaleNotOpen? || e.EdgesNotRising? || e.ScoreOutOfRange?) && e.scale == scale
  }

  predicate OfTiers(e: Error) { e.TiersDoNotStartAtZero? || e.TierUpsideDown? || e.GapOrOverlap? || e.TiersDoNotReachHundred? }

  method ValidateEdges(scale: Scale, brackets: seq<Bracket>) returns (errors: seq<Error>)
    requires brackets != []
    ensures forall e :: e in errors <==> e.EdgesNotRising? && e.scale == scale && ScaleFault(brackets, e)
  {
    errors := [];
    var i := 0;
    while i < |brackets| - 1
      invariant 0 <= i < |brackets|
      invariant forall e :: e in errors <==> e.EdgesNotRising? && e.scale == scale && e.at < i && ScaleFault(brackets, e)
    {
      var a, b := brackets[i].upTo, brackets[i + 1].upTo;
      if a.None? || (b.Some? && a.value >= b.value) {
        errors := errors + [EdgesNotRising(scale, i)];
      }
      i := i + 1;
    }
  }

  method ValidateScores(scale: Scale, brackets: seq<Bracket>) returns (errors: seq<Error>)
    ensures forall e :: e in errors <==> e.ScoreOutOfRange? && e.scale == scale && ScaleFault(brackets, e)
  {
    errors := [];
    for i := 0 to |brackets|
      invariant forall e :: e in errors <==> e.ScoreOutOfRange? && e.scale == scale && ScaleFault(brackets[..i], e)
    {
      assert forall e: Error :: e.ScoreOutOfRange? ==>
               (ScaleFault(brackets[..i + 1], e)
                <==> ScaleFault(brackets[..i], e) || (e.score == brackets[i].score && !(0.0 <= e.score <= 100.0))) by {
        assert brackets[..i + 1] == brackets[..i] + [brackets[i]];
        forall e: Error | e.ScoreOutOfRange? && ScaleFault(brackets[..i], e) ensures ScaleFault(brackets[..i + 1], e) {
          var k :| 0 <= k < i && brackets[..i][k].score == e.score;
          assert brackets[..i + 1][k].score == e.score;
        }
        assert brackets[..i + 1][i] == brackets[i];
      }
      if brackets[i].score < 0.0 || brackets[i].score > 100.0 {
        errors := errors + [ScoreOutOfRange(scale, brackets[i].score)];
      }
    }
    assert brackets[..|brackets|] == brackets;
  }

  /** Every error names a fault of the scale, and every fault has its error. */
  method ValidateScale(scale: Scale, brackets: seq<Bracket>) returns (errors: seq<Error>)
    ensures forall e :: e in errors <==> OfScale(e, scale) && ScaleFault(brackets, e)
    ensures errors == [] <==> ValidScale(brackets)
  {
    NoScaleFaultIffValid(scale, brackets);
    if brackets == [] {
      errors := [EmptyScale(scale)];
      assert errors[0] in errors;
      return;
    }
    errors := [];
    if brackets[|brackets| - 1].upTo.Some? { errors := errors + [ScaleNotOpen(scale)]; }
    var edges := ValidateEdges(scale, brackets);
    var scores := ValidateScores(scale, brackets);
    errors := errors + edges + scores;
    NoErrorsIff(errors);
  }

  lemma NoErrorsIff(errors: seq<Error>)
    ensures errors == [] <==> forall e :: e !in errors
  {
    if errors != [] { assert errors[0] in errors; }
  }

  lemma NoScaleFaultIffValid(scale: Scale, brackets: seq<Bracket>)
    ensures (forall e :: !(OfScale(e, scale) && ScaleFault(brackets, e))) <==> ValidScale(brackets)
  {
    if forall e :: !(OfScale(e, scale) && ScaleFault(brackets, e)) {
      assert !(OfScale(EmptyScale(scale), scale) && ScaleFault(brackets, EmptyScale(scale)));
      assert !(OfScale(ScaleNotOpen(scale), scale) && ScaleFault(brackets, ScaleNotOpen(scale)));
      forall i | 0 <= i < |brackets| - 1 ensures EdgeRises(brackets[i], brackets[i + 1]) {
        var e := EdgesNotRising(scale, i);
        assert !(OfScale(e, scale) && ScaleFault(brackets, e));
      }
      forall i | 0 <= i < |brackets| ensures 0.0 <= brackets[i].score <= 100.0 {
        var e := ScoreOutOfRange(scale, brackets[i].score);
        assert !(OfScale(e, scale) && ScaleFault(brackets, e));
      }
    }
  }

  lemma NoTierFaultIffCovered(tiers: seq<Tier>)
    ensures (forall e :: !(OfTiers(e) && TierFault(tiers, e))) <==> CoverScores(tiers)
  {
    if forall e :: !(OfTiers(e) && TierFault(tiers, e)) {
      assert !(OfTiers(TiersDoNotStartAtZero) && TierFault(tiers, TiersDoNotStartAtZero));
      assert !(OfTiers(TiersDoNotReachHundred) && TierFault(tiers, TiersDoNotReachHundred));
      forall i | 0 <= i < |tiers| ensures tiers[i].scoreMin <= tiers[i].scoreMax {
        var e := TierUpsideDown(tiers[i].key);
        assert !(OfTiers(e) && TierFault(tiers, e));
        assert IsUpsideDown(tiers[i], e.key) <==> tiers[i].scoreMax < tiers[i].scoreMin;
      }
      forall i | 0 < i < |tiers| ensures tiers[i].scoreMin == tiers[i - 1].scoreMax + 1 {
        var e := GapOrOverlap(tiers[i - 1].key, tiers[i].key);
        assert !(OfTiers(e) && TierFault(tiers, e));
        assert DoNotMeet(tiers[i - 1], tiers[i], e.below, e.above) <==> tiers[i].scoreMin != tiers[i - 1].scoreMax + 1;
      }
    }
  }

  /** What the loop over the tiers has found up to one of them. */
  predicate FoundBefore(tiers: seq<Tier>, n: nat, e: Error)
    requires n <= |tiers|
  {
    match e
    case TiersDoNotStartAtZero => tiers == [] || tiers[0].scoreMin != 0
    case TierUpsideDown(key) => exists i :: 0 <= i < n && IsUpsideDown(tiers[i], key)
    case GapOrOverlap(below, above) => exists i :: 0 < i < n && DoNotMeet(tiers[i - 1], tiers[i], below, above)
    case _ => false
  }

  lemma FindsOneMore(tiers: seq<Tier>, n: nat, e: Error)
    requires n < |tiers|
    ensures FoundBefore(tiers, n + 1, e) <==>
              || FoundBefore(tiers, n, e)
              || (e.TierUpsideDown? && IsUpsideDown(tiers[n], e.key))
              || (e.GapOrOverlap? && n > 0 && DoNotMeet(tiers[n - 1], tiers[n], e.below, e.above))
  {
  }

  /** Every error names a fault of the tiers, and every fault has its error. */
  method ValidateTiers(tiers: seq<Tier>) returns (errors: seq<Error>)
    ensures forall e :: e in errors <==> OfTiers(e) && TierFault(tiers, e)
    ensures errors == [] <==> CoverScores(tiers)
  {
    NoTierFaultIffCovered(tiers);
    errors := [];
    if tiers == [] || tiers[0].scoreMin != 0 { errors := errors + [TiersDoNotStartAtZero]; }
    for i := 0 to |tiers|
      invariant forall e :: e in errors <==> FoundBefore(tiers, i, e)
    {
      ghost var before := errors;
      if tiers[i].scoreMax < tiers[i].scoreMin { errors := errors + [TierUpsideDown(tiers[i].key)]; }
      if i > 0 && tiers[i].scoreMin != tiers[i - 1].scoreMax + 1 {
        errors := errors + [GapOrOverlap(tiers[i - 1].key, tiers[i].key)];
      }
      forall e ensures e in errors <==> FoundBefore(tiers, i + 1, e) {
        hide FoundBefore;
        FindsOneMore(tiers, i, e);
        assert e in before <==> FoundBefore(tiers, i, e);
      }
    }
    if tiers != [] && tiers[|tiers| - 1].scoreMax != 100 { errors := errors + [TiersDoNotReachHundred]; }
    NoErrorsIff(errors);
  }

  /**
   Every error names a fault of the policy and every fault has its error; so there are none exactly
   when the policy is valid.
   */
  method ValidateScaleConfig(config: Config) returns (errors: seq<Error>)
    ensures forall e :: e in errors <==> Fault(config, e)
    ensures errors == [] <==> Valid(config)
  {
    hide ValidScale, CoverScores, SortTiers, ScaleFault, TierFault;
    NoFaultIffValid(config);
    errors := [];
    var weightSum := config.weightInvestment + config.weightRoas + config.weightSales;
    if weightSum - 1.0 > WEIGHT_TOLERANCE || 1.0 - weightSum > WEIGHT_TOLERANCE { errors := errors + [WeightsDoNotSum]; }
    var scales := [Investment, Roas, Sales];
    for i := 0 to 3
      invariant forall e :: e in errors <==>
                  || (e.WeightsDoNotSum? && Fault(config, e))
                  || exists k :: 0 <= k < i && OfScale(e, scales[k]) && Fault(config, e)
    {
      var found := ValidateScale(scales[i], BracketsOf(config, scales[i]));
      assert forall e :: e in found <==> OfScale(e, scales[i]) && Fault(config, e);
      errors := errors + found;
    }
    assert forall e :: e in errors <==> Fault(config, e) && (e.WeightsDoNotSum? || ExistsScale(e)) by {
      assert scales[0] == Investment && scales[1] == Roas && scales[2] == Sales;
    }
    var roasEdges := set b | b in config.roas && b.upTo.Some? :: b.upTo.value;
    EdgesAreThere(config.roas, config.minRoas);
    if config.minRoas !in roasEdges { errors := errors + [MinRoasOffEdge]; }
    var tierErrors := ValidateTiers(SortTiers(config.tiers));
    errors := errors + tierErrors;
    var tierKeys := set t | t in config.tiers :: t.key;
    var keys := [GROWTH_SELLER, PRO_MARKETER, ELITE];
    ghost var before := errors;
    for i := 0 to 3
      invariant forall e :: e in errors <==> e in before || (e.MissingTier? && e.key in keys[..i] && !HasKey(config.tiers, e.key))
    {
      KeysAreThere(config.tiers, keys[i]);
      if keys[i] !in tierKeys { errors := errors + [MissingTier(keys[i])]; }
    }
    assert keys[..3] == keys;
    forall e ensures e in errors <==> Fault(config, e) {
      hide HasKey, HasEdge, WeightsSumToOne;
    }
    NoErrorsIff(errors);
  }

  predicate ExistsScale(e: Error) { OfScale(e, Investment) || OfScale(e, Roas) || OfScale(e, Sales) }

  lemma EdgesAreThere(brackets: seq<Bracket>, edge: real)
    ensures edge in (set b | b in brackets && b.upTo.Some? :: b.upTo.value) <==> HasEdge(brackets, edge)
  {
  }

  lemma KeysAreThere(tiers: seq<Tier>, key: string)
    ensures key in (set t | t in tiers :: t.key) <==> HasKey(tiers, key)
  {
  }

  lemma NoFaultIffValid(config: Config)
    ensures (forall e :: !Fault(config, e)) <==> Valid(config)
  {
    hide ValidScale, CoverScores, SortTiers, HasKey, HasEdge, WeightsSumToOne, ScaleFault, TierFault;
    NoScaleFaultIffValid(Investment, config.investment);
    NoScaleFaultIffValid(Roas, config.roas);
    NoScaleFaultIffValid(Sales, config.sales);
    NoTierFaultIffCovered(SortTiers(config.tiers));
    if forall e :: !Fault(config, e) {
      assert !Fault(config, WeightsDoNotSum) && !Fault(config, MinRoasOffEdge);
      assert !Fault(config, MissingTier(GROWTH_SELLER)) && !Fault(config, MissingTier(PRO_MARKETER)) && !Fault(config, MissingTier(ELITE));
      forall e ensures !(OfScale(e, Investment) && ScaleFault(config.investment, e)) { assert !Fault(config, e); }
      forall e ensures !(OfScale(e, Roas) && ScaleFault(config.roas, e)) { assert !Fault(config, e); }
      forall e ensures !(OfScale(e, Sales) && ScaleFault(config.sales, e)) { assert !Fault(config, e); }
      forall e ensures !(OfTiers(e) && TierFault(SortTiers(config.tiers), e)) { assert !Fault(config, e); }
    }
  }
}
