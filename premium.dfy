/** Mapping a composite risk to a named tier and a premium range. Both tables
    are first-match chains over the risk as a percentage, with inclusive upper
    bounds; each is also given here as data, a list of bands and a top tier,
    read by a generic first-match lookup. */
module PremiumTiers {

  /** `(risk_tier, min_premium, max_premium)` */
  datatype Quote = Quote(tier: string, minPremium: int, maxPremium: int)

  /** A tier that applies to every percentage up to and including `upper` not
      taken by an earlier band. */
  datatype Band = Band(upper: real, quote: Quote)

  /** The four-tier, dollar-scale table. */
  function PremiumFourTier(riskScore: real): (r: Quote)
    ensures r.minPremium < r.maxPremium
    ensures riskScore * 100.0 > 85.0 <==> r == FourTierTop
    ensures riskScore * 100.0 <= 50.0 <==> r.tier == "Low"
  {
    var riskPercentage := riskScore * 100.0;
    if riskPercentage <= 50.0 then Quote("Low", 320, 490)
    else if riskPercentage <= 65.0 then Quote("Medium", 580, 900)
    else if riskPercentage <= 85.0 then Quote("High", 950, 1500)
    else Quote("Critical", 1600, 2800)
  }

  /** The ten-tier table. */
  function PremiumTenTier(riskScore: real): (r: Quote)
    ensures r.minPremium < r.maxPremium
    ensures riskScore * 100.0 > 90.0 <==> r == TenTierTop
    ensures riskScore * 100.0 <= 10.0 <==> r.tier == "Very Low"
  {
    var riskPercentage := riskScore * 100.0;
    if riskPercentage <= 10.0 then Quote("Very Low", 3000, 13000)
    else if riskPercentage <= 20.0 then Quote("Low", 13000, 23000)
    else if riskPercentage <= 30.0 then Quote("Low-Medium", 23000, 33000)
    else if riskPercentage <= 40.0 then Quote("Medium", 33000, 43000)
    else if riskPercentage <= 50.0 then Quote("Medium-High", 43000, 53000)
    else if riskPercentage <= 60.0 then Quote("High", 53000, 63000)
    else if riskPercentage <= 70.0 then Quote("High-Risk", 63000, 73000)
    else if riskPercentage <= 80.0 then Quote("Very High", 73000, 83000)
    else if riskPercentage <= 90.0 then Quote("Critical", 83000, 93000)
    else Quote("Extremely Critical", 93000, 103000)
  }

  const FourTierBands: seq<Band> := [
    Band(50.0, Quote("Low", 320, 490)),
    Band(65.0, Quote("Medium", 580, 900)),
    Band(85.0, Quote("High", 950, 1500))]
  const FourTierTop: Quote := Quote("Critical", 1600, 2800)

  const TenTierBands: seq<Band> := [
    Band(10.0, Quote("Very Low", 3000, 13000)),
    Band(20.0, Quote("Low", 13000, 23000)),
    Band(30.0, Quote("Low-Medium", 23000, 33000)),
    Band(40.0, Quote("Medium", 33000, 43000)),
    Band(50.0, Quote("Medium-High", 43000, 53000)),
    Band(60.0, Quote("High", 53000, 63000)),
    Band(70.0, Quote("High-Risk", 63000, 73000)),
    Band(80.0, Quote("Very High", 73000, 83000)),
    Band(90.0, Quote("Critical", 83000, 93000))]
  const TenTierTop: Quote := Quote("Extremely Critical", 93000, 103000)

  /** The position of the first band whose upper bound is at least `p`, or
      `|bands|` (the top tier) when there is none. */
  function BandIndex(bands: seq<Band>, p: real): (r: nat)
    ensures r <= |bands|
    ensures r < |bands| ==> p <= bands[r].upper
    ensures forall i | 0 <= i < r :: p > bands[i].upper
  {
    if |bands| == 0 then 0
    else if p <= bands[0].upper then 0
    else 1 + BandIndex(bands[1..], p)
  }

  /** The quote of the tier a percentage falls in: the first band whose bound
      is at least `p`, or the top tier when there is none. */
  function TableQuote(bands: seq<Band>, top: Quote, p: real): (r: Quote)
    ensures exists i | 0 <= i <= |bands| ::
      && r == QuoteAt(bands, top, i)
      && (i < |bands| ==> p <= bands[i].upper)
      && forall k | 0 <= k < i :: p > bands[k].upper
    ensures r == top || exists i | 0 <= i < |bands| :: r == bands[i].quote && p <= bands[i].upper
    ensures (forall i | 0 <= i < |bands| :: p > bands[i].upper) ==> r == top
    ensures |bands| > 0 && p <= bands[0].upper ==> r == bands[0].quote
  {
    var i := BandIndex(bands, p);
    assert QuoteAt(bands, top, i) == if i < |bands| then bands[i].quote else top;
    if i < |bands| then bands[i].quote else top
  }

  /** The quote at each position, the top tier counting as position `|bands|`. */
  function QuoteAt(bands: seq<Band>, top: Quote, i: nat): Quote
    requires i <= |bands|
  {
    if i < |bands| then bands[i].quote else top
  }

  predicate Ascending(bands: seq<Band>) {
    forall i, j | 0 <= i < j < |bands| :: bands[i].upper < bands[j].upper
  }

  /** Percentage `p` belongs to position `j`: above the previous bound and at
      most its own (the top tier has no upper bound). */
  predicate InBand(bands: seq<Band>, j: nat, p: real)
    requires j <= |bands|
  {
    (j == 0 || p > bands[j - 1].upper) && (j == |bands| || p <= bands[j].upper)
  }

  /** With ascending bounds the bands partition the line: every percentage
      lies in exactly one band, the one the lookup picks. */
  lemma BandsPartition(bands: seq<Band>, p: real, j: nat)
    requires Ascending(bands)
    requires j <= |bands|
    ensures InBand(bands, BandIndex(bands, p), p)
    ensures InBand(bands, j, p) ==> BandIndex(bands, p) == j
  {
  }

  /** Upper bounds are inclusive: a percentage equal to a bound gets that band's tier. */
  lemma UpperBoundIsInclusive(bands: seq<Band>, top: Quote, i: nat)
    requires Ascending(bands)
    requires i < |bands|
    ensures TableQuote(bands, top, bands[i].upper) == bands[i].quote
  {
    if i > 0 {
      assert bands[i - 1].upper < bands[i].upper;
    }
    BandsPartition(bands, bands[i].upper, i);
  }

  /** A larger percentage never picks an earlier band. */
  lemma {:induction false} BandIndexMonotone(bands: seq<Band>, p: real, q: real)
    requires p <= q
    ensures BandIndex(bands, p) <= BandIndex(bands, q)
  {
    if |bands| > 0 && q > bands[0].upper && p > bands[0].upper {
      BandIndexMonotone(bands[1..], p, q);
    }
  }

  predicate MinPremiumsNondecreasing(bands: seq<Band>, top: Quote) {
    forall i, j | 0 <= i <= j <= |bands| :: QuoteAt(bands, top, i).minPremium <= QuoteAt(bands, top, j).minPremium
  }

  /** Each tier's minimum premium is the previous tier's maximum. */
  predicate Contiguous(bands: seq<Band>, top: Quote) {
    forall i | 0 < i <= |bands| :: QuoteAt(bands, top, i).minPremium == QuoteAt(bands, top, i - 1).maxPremium
  }

  predicate RangesNonEmpty(bands: seq<Band>, top: Quote) {
    forall i | 0 <= i <= |bands| :: QuoteAt(bands, top, i).minPremium < QuoteAt(bands, top, i).maxPremium
  }

  /** The chain as written is the first-match lookup of the table. */
  lemma PremiumFourTierIsTableLookup(riskScore: real)
    ensures PremiumFourTier(riskScore) == TableQuote(FourTierBands, FourTierTop, riskScore * 100.0)
  {
    var p := riskScore * 100.0;
    var b := FourTierBands;
    assert b[1..][1..][1..] == [];
    assert BandIndex(b[1..][1..], p) == if p <= 85.0 then 0 else 1;
    assert BandIndex(b[1..], p) == if p <= 65.0 then 0 else 1 + BandIndex(b[1..][1..], p);
  }

  lemma PremiumTenTierIsTableLookup(riskScore: real)
    ensures PremiumTenTier(riskScore) == TableQuote(TenTierBands, TenTierTop, riskScore * 100.0)
  {
    var p := riskScore * 100.0;
    var b := TenTierBands;
    var i := BandIndex(b, p);
    assert i < |b| ==> p <= b[i].upper;
    assert forall k | 0 <= k < i :: p > b[k].upper;
    if p <= 10.0 {
      assert i == 0;
    } else if p <= 20.0 {
      assert p > b[0].upper && p <= b[1].upper;
      assert i == 1;
    } else if p <= 30.0 {
      assert p > b[1].upper && p <= b[2].upper;
      assert i == 2;
    } else if p <= 40.0 {
      assert p > b[2].upper && p <= b[3].upper;
      assert i == 3;
    } else if p <= 50.0 {
      assert p > b[3].upper && p <= b[4].upper;
      assert i == 4;
    } else if p <= 60.0 {
      assert p > b[4].upper && p <= b[5].upper;
      assert i == 5;
    } else if p <= 70.0 {
      assert p > b[5].upper && p <= b[6].upper;
      assert i == 6;
    } else if p <= 80.0 {
      assert p > b[6].upper && p <= b[7].upper;
      assert i == 7;
    } else if p <= 90.0 {
      assert p > b[7].upper && p <= b[8].upper;
      assert i == 8;
    } else {
      assert p > b[8].upper;
      assert i == 9;
    }
  }

  /** Minimum premiums that never fall along the table make the looked-up
      minimum premium nondecreasing in the percentage. */
  lemma TableMinPremiumMonotone(bands: seq<Band>, top: Quote, p: real, q: real)
    requires MinPremiumsNondecreasing(bands, top)
    requires p <= q
    ensures TableQuote(bands, top, p).minPremium <= TableQuote(bands, top, q).minPremium
  {
    BandIndexMonotone(bands, p, q);
    var i, j := BandIndex(bands, p), BandIndex(bands, q);
    assert TableQuote(bands, top, p) == QuoteAt(bands, top, i);
    assert TableQuote(bands, top, q) == QuoteAt(bands, top, j);
  }

  /** The ten-tier table: bounds 10, 20, ..., 90 ascending, every range
      non-empty, and each tier starting where the previous one ends. */
  lemma TenTierTableWellFormed()
    ensures |TenTierBands| == 9
    ensures forall i | 0 <= i < |TenTierBands| :: TenTierBands[i].upper == 10.0 * (i + 1) as real
    ensures Ascending(TenTierBands)
    ensures RangesNonEmpty(TenTierBands, TenTierTop)
    ensures Contiguous(TenTierBands, TenTierTop)
    ensures MinPremiumsNondecreasing(TenTierBands, TenTierTop)
  {
    var b, t := TenTierBands, TenTierTop;
    forall i | 0 <= i <= |b|
      ensures QuoteAt(b, t, i).minPremium == 3000 + 10000 * i
      ensures QuoteAt(b, t, i).maxPremium == 13000 + 10000 * i
      ensures i < |b| ==> b[i].upper == 10.0 * (i + 1) as real
    {
    }
  }

  /** The four-tier table: bounds 50, 65, 85 ascending, every range non-empty,
      minimums rising, but with gaps between consecutive ranges. */
  lemma FourTierTableWellFormed()
    ensures Ascending(FourTierBands)
    ensures RangesNonEmpty(FourTierBands, FourTierTop)
    ensures MinPremiumsNondecreasing(FourTierBands, FourTierTop)
    ensures !Contiguous(FourTierBands, FourTierTop)
  {
    assert QuoteAt(FourTierBands, FourTierTop, 1).minPremium != QuoteAt(FourTierBands, FourTierTop, 0).maxPremium;
  }

  /** The position of the four-tier quote: Low 0, Medium 1, High 2, Critical 3. */
  function FourTierRank(riskScore: real): nat {
    BandIndex(FourTierBands, riskScore * 100.0)
  }

  /** The position of the ten-tier quote: Very Low 0 up to Extremely Critical 9. */
  function TenTierRank(riskScore: real): nat {
    BandIndex(TenTierBands, riskScore * 100.0)
  }

  /** A higher risk never gives a lower tier or a lower minimum premium. */
  lemma PremiumFourTierMonotone(r1: real, r2: real)
    requires r1 <= r2
    ensures FourTierRank(r1) <= FourTierRank(r2)
    ensures PremiumFourTier(r1).minPremium <= PremiumFourTier(r2).minPremium
  {
    BandIndexMonotone(FourTierBands, r1 * 100.0, r2 * 100.0);
    assert MinPremiumsNondecreasing(FourTierBands, FourTierTop) by { FourTierTableWellFormed(); }
    TableMinPremiumMonotone(FourTierBands, FourTierTop, r1 * 100.0, r2 * 100.0);
    PremiumFourTierIsTableLookup(r1);
    PremiumFourTierIsTableLookup(r2);
  }

  lemma PremiumTenTierMonotone(r1: real, r2: real)
    requires r1 <= r2
    ensures TenTierRank(r1) <= TenTierRank(r2)
    ensures PremiumTenTier(r1).minPremium <= PremiumTenTier(r2).minPremium
  {
    var p, q := r1 * 100.0, r2 * 100.0;
    BandIndexMonotone(TenTierBands, p, q);
    assert TableQuote(TenTierBands, TenTierTop, p).minPremium <= TableQuote(TenTierBands, TenTierTop, q).minPremium by {
      assert MinPremiumsNondecreasing(TenTierBands, TenTierTop) by { TenTierTableWellFormed(); }
      TableMinPremiumMonotone(TenTierBands, TenTierTop, p, q);
    }
    assert PremiumTenTier(r1) == TableQuote(TenTierBands, TenTierTop, p) by { PremiumTenTierIsTableLookup(r1); }
    assert PremiumTenTier(r2) == TableQuote(TenTierBands, TenTierTop, q) by { PremiumTenTierIsTableLookup(r2); }
  }

  /** Each four-tier band, with its inclusive upper bound. */
  lemma PremiumFourTierBands(riskScore: real)
    ensures riskScore * 100.0 <= 50.0 ==> PremiumFourTier(riskScore) == Quote("Low", 320, 490)
    ensures 50.0 < riskScore * 100.0 <= 65.0 ==> PremiumFourTier(riskScore) == Quote("Medium", 580, 900)
    ensures 65.0 < riskScore * 100.0 <= 85.0 ==> PremiumFourTier(riskScore) == Quote("High", 950, 1500)
    ensures 85.0 < riskScore * 100.0 ==> PremiumFourTier(riskScore) == Quote("Critical", 1600, 2800)
    ensures PremiumFourTier(0.5) == Quote("Low", 320, 490)
    ensures PremiumFourTier(0.42).tier == "Low" && PremiumFourTier(0.60).tier == "Medium"
    ensures PremiumFourTier(0.99).tier == "Critical"
  {
  }

  /** Every ten-tier bound is inclusive, so 10%, 20%, ..., 90% take the lower
      tier, and anything above 90% is Extremely Critical. */
  lemma PremiumTenTierBoundaries(riskScore: real)
    ensures forall i | 0 <= i < |TenTierBands| ::
      PremiumTenTier(TenTierBands[i].upper / 100.0) == TenTierBands[i].quote
    ensures riskScore * 100.0 > 90.0 ==> PremiumTenTier(riskScore) == Quote("Extremely Critical", 93000, 103000)
    ensures PremiumTenTier(0.9) == Quote("Critical", 83000, 93000)
  {
    forall i | 0 <= i < |TenTierBands|
      ensures PremiumTenTier(TenTierBands[i].upper / 100.0) == TenTierBands[i].quote
    {
      var bound := TenTierBands[i].upper;
      assert TableQuote(TenTierBands, TenTierTop, bound) == TenTierBands[i].quote by {
        assert Ascending(TenTierBands) by { TenTierTableWellFormed(); }
        UpperBoundIsInclusive(TenTierBands, TenTierTop, i);
      }
      assert (bound / 100.0) * 100.0 == bound;
      PremiumTenTierIsTableLookup(bound / 100.0);
    }
  }
}
