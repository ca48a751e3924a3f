/** Tiered prices: what a provider's usage costs and what a call reserves for it beforehand. */
module Tariff {
  import opened Outcomes
  import opened BudgetLedger

  /** CNY per million tokens. */
  datatype Rates = Rates(input: real, output: real, cacheHit: real)

  datatype Tier = Tier(maxInput: nat, rates: Rates)

  datatype Schedule = DeepSeek | FlatRate

  datatype ModelPrice = ModelPrice(base: Rates, schedule: Schedule, offPeakMultiplier: real, tiers: seq<Tier>)

  /** Whether the request started in Shanghai's busy hours. */
  datatype Clock = Busy | Quiet

  datatype PriceError = NegativeTokens | BadCacheHits | BeyondTiers

  datatype Priced = Priced(cost: real, bucket: Bucket, hits: int, misses: int)

  predicate RatesOk(r: Rates) { r.input >= 0.0 && r.output >= 0.0 && r.cacheHit >= 0.0 }

  /** What the configuration model enforces. */
  predicate ValidPrice(p: ModelPrice) {
    && RatesOk(p.base)
    && (forall i | 0 <= i < |p.tiers| :: RatesOk(p.tiers[i].rates) && p.tiers[i].maxInput > 0)
    && (forall i, j | 0 <= i < j < |p.tiers| :: p.tiers[i].maxInput < p.tiers[j].maxInput)
    && 0.0 < p.offPeakMultiplier <= 1.0
    && (p.schedule == FlatRate ==> p.offPeakMultiplier == 1.0)
  }

  /** The first tier, in list order, that the total input fits. */
  function SelectTier(tiers: seq<Tier>, n: int): Option<Tier> {
    if |tiers| == 0 then None
    else if n <= tiers[0].maxInput then Some(tiers[0])
    else SelectTier(tiers[1..], n)
  }

  function RatesFor(p: ModelPrice, n: int): Option<Rates> {
    if |p.tiers| == 0 then Some(p.base)
    else match SelectTier(p.tiers, n)
      case Some(tier) => Some(tier.rates)
      case None => None
  }

  function PeriodOf(schedule: Schedule, start: Option<Clock>): Bucket {
    if schedule == FlatRate then Flat
    else if start == Some(Quiet) then OffPeak
    else Peak
  }

  function Charge(r: Rates, factor: real, hits: int, misses: int, out: int): real {
    (hits as real * (r.cacheHit * factor) + misses as real * (r.input * factor) + out as real * (r.output * factor)) / 1000000.0
  }

  function PriceUsage(p: ModelPrice, tokensIn: int, tokensOut: int, hits: Option<int>, start: Option<Clock>): Result<Priced, PriceError> {
    if tokensIn < 0 || tokensOut < 0 then Err(NegativeTokens)
    else if hits.Some? && !(0 <= hits.value <= tokensIn) then Err(BadCacheHits)
    else match RatesFor(p, tokensIn)
      case None => Err(BeyondTiers)
      case Some(rates) =>
        var bucket := PeriodOf(p.schedule, start);
        var factor := if bucket == OffPeak then p.offPeakMultiplier else 1.0;
        var hit := if hits.Some? then hits.value else 0;
        Ok(Priced(Charge(rates, factor, hit, tokensIn - hit, tokensOut), bucket, hit, tokensIn - hit))
  }

  function LowerLimits(tiers: seq<Tier>, n: int): seq<int> {
    if |tiers| == 0 then []
    else (if tiers[0].maxInput < n then [tiers[0].maxInput] else []) + LowerLimits(tiers[1..], n)
  }

  /** The input counts a reservation prices: the reserved one and every lower tier limit. */
  function Candidates(p: ModelPrice, n: int): seq<int> {
    [n] + LowerLimits(p.tiers, n)
  }

  function Dearest(p: ModelPrice, counts: seq<int>, out: int): Result<real, PriceError>
    requires |counts| > 0
  {
    match PriceUsage(p, counts[0], out, None, None)
    case Err(e) => Err(e)
    case Ok(first) =>
      if |counts| == 1 then Ok(first.cost)
      else match Dearest(p, counts[1..], out)
        case Err(e) => Err(e)
        case Ok(rest) => Ok(if first.cost >= rest then first.cost else rest)
  }

  /** The reservation of a call: busy-hour rates, every input token a cache miss. */
  function CalculateCost(p: ModelPrice, tokensIn: int, tokensOut: int): Result<real, PriceError> {
    Dearest(p, Candidates(p, tokensIn), tokensOut)
  }

  // ------------------------------------------------------------ what a price is

  /** The rates of n tokens of input: the base rates of a price without tiers, or those of the tier with
      the least limit that n does not exceed. */
  ghost predicate Applies(p: ModelPrice, n: int, rates: Rates) {
    if p.tiers == [] then rates == p.base
    else exists t :: (t in p.tiers && n <= t.maxInput && t.rates == rates
                      && forall other | other in p.tiers && n <= other.maxInput :: t.maxInput <= other.maxInput)
  }

  lemma {:induction false} SelectsLeast(tiers: seq<Tier>, n: int)
    requires forall i, j | 0 <= i < j < |tiers| :: tiers[i].maxInput < tiers[j].maxInput
    ensures SelectTier(tiers, n).None? <==> forall t | t in tiers :: t.maxInput < n
    ensures SelectTier(tiers, n).Some? ==>
      var t := SelectTier(tiers, n).value;
      && t in tiers && n <= t.maxInput
      && forall other | other in tiers && n <= other.maxInput :: t == other || t.maxInput < other.maxInput
  {
    if |tiers| > 0 && n > tiers[0].maxInput {
      SelectsLeast(tiers[1..], n);
      assert tiers == [tiers[0]] + tiers[1..];
    }
  }

  lemma RatesAreLeastTiers(p: ModelPrice, n: int, rates: Rates)
    requires ValidPrice(p)
    ensures RatesFor(p, n) == Some(rates) <==> Applies(p, n, rates)
  {
    SelectsLeast(p.tiers, n);
  }

  /** Which usages have no price, and the error of each. */
  lemma PricedIff(p: ModelPrice, n: int, out: int, hits: Option<int>, start: Option<Clock>)
    requires ValidPrice(p)
    ensures var priced := PriceUsage(p, n, out, hits, start);
      && (priced == Err(NegativeTokens) <==> n < 0 || out < 0)
      && (priced == Err(BadCacheHits) <==> 0 <= n && 0 <= out && hits.Some? && (hits.value < 0 || n < hits.value))
      && (priced == Err(BeyondTiers) <==>
            && 0 <= n && 0 <= out && (hits.Some? ==> 0 <= hits.value <= n)
            && p.tiers != [] && forall t | t in p.tiers :: t.maxInput < n)
  {
    SelectsLeast(p.tiers, n);
  }

  /** What a usage costs: per million tokens of each kind the rate of the tier that applies, in full at busy
      and unknown hours and on flat schedules, times the multiplier at quiet hours. */
  lemma PriceIs(p: ModelPrice, n: int, out: int, hits: Option<int>, start: Option<Clock>, rates: Rates, priced: Priced)
    requires ValidPrice(p) && Applies(p, n, rates) && PriceUsage(p, n, out, hits, start) == Ok(priced)
    ensures priced.hits == (if hits.None? then 0 else hits.value) && priced.misses == n - priced.hits
    ensures priced.bucket ==
      if p.schedule == FlatRate then Flat else if start == Some(Quiet) then OffPeak else Peak
    ensures var full := priced.hits as real * rates.cacheHit + priced.misses as real * rates.input + out as real * rates.output;
      priced.cost * 1000000.0 ==
        if p.schedule == DeepSeek && start == Some(Quiet) then full * p.offPeakMultiplier else full
  {
    RatesAreLeastTiers(p, n, rates);
    var factor := if priced.bucket == OffPeak then p.offPeakMultiplier else 1.0;
    TakeOut(priced.hits as real, rates.cacheHit, factor);
    TakeOut(priced.misses as real, rates.input, factor);
    TakeOut(out as real, rates.output, factor);
  }

  lemma TakeOut(x: real, rate: real, factor: real)
    ensures x * (rate * factor) == (x * rate) * factor
  {
  }

  /** The share of the full price that a start is charged. */
  function Share(p: ModelPrice, start: Option<Clock>): real {
    if p.schedule == DeepSeek && start == Some(Quiet) then p.offPeakMultiplier else 1.0
  }

  /** Nothing costs nothing. */
  lemma NothingIsFree(p: ModelPrice, hits: Option<int>, start: Option<Clock>)
    requires ValidPrice(p) && (hits.Some? ==> hits.value == 0)
    ensures PriceUsage(p, 0, 0, hits, start).Ok? && PriceUsage(p, 0, 0, hits, start).value.cost == 0.0
  {
    SelectsLeast(p.tiers, 0);
    if p.tiers != [] { assert p.tiers[0] in p.tiers; }
    ChargeMillion(RatesFor(p, 0).value, Share(p, start), 0, 0, 0);
  }

  /** A million further output tokens cost the output rate. */
  lemma MillionOutput(p: ModelPrice, n: int, out: int, hits: Option<int>, start: Option<Clock>, rates: Rates, priced: Priced)
    requires ValidPrice(p) && Applies(p, n, rates) && PriceUsage(p, n, out, hits, start) == Ok(priced)
    ensures PriceUsage(p, n, out + 1000000, hits, start).Ok?
    ensures PriceUsage(p, n, out + 1000000, hits, start).value.cost == priced.cost + rates.output * Share(p, start)
  {
    assert RatesFor(p, n) == Some(rates) by { RatesAreLeastTiers(p, n, rates); }
    ChargeMillion(rates, Share(p, start), priced.hits, priced.misses, out);
  }

  /** A million further input tokens cost, in the same tier, the input rate when they miss the cache and the
      cache rate when they hit it. */
  lemma MillionInput(p: ModelPrice, n: int, out: int, hits: int, start: Option<Clock>, rates: Rates, priced: Priced)
    requires ValidPrice(p) && Applies(p, n, rates) && Applies(p, n + 1000000, rates)
    requires PriceUsage(p, n, out, Some(hits), start) == Ok(priced)
    ensures PriceUsage(p, n + 1000000, out, Some(hits), start).Ok?
    ensures PriceUsage(p, n + 1000000, out, Some(hits), start).value.cost == priced.cost + rates.input * Share(p, start)
    ensures PriceUsage(p, n + 1000000, out, Some(hits + 1000000), start).Ok?
    ensures PriceUsage(p, n + 1000000, out, Some(hits + 1000000), start).value.cost == priced.cost + rates.cacheHit * Share(p, start)
  {
    RatesAreLeastTiers(p, n, rates);
    RatesAreLeastTiers(p, n + 1000000, rates);
    MillionCharged(p, n, out, hits, start, rates);
  }

  lemma MillionCharged(p: ModelPrice, n: int, out: int, hits: int, start: Option<Clock>, rates: Rates)
    requires RatesFor(p, n) == RatesFor(p, n + 1000000) == Some(rates) && 0 <= hits <= n && 0 <= out
    ensures PriceUsage(p, n + 1000000, out, Some(hits), start).Ok? && PriceUsage(p, n, out, Some(hits), start).Ok?
    ensures PriceUsage(p, n + 1000000, out, Some(hits + 1000000), start).Ok?
    ensures PriceUsage(p, n + 1000000, out, Some(hits), start).value.cost ==
      PriceUsage(p, n, out, Some(hits), start).value.cost + rates.input * Share(p, start)
    ensures PriceUsage(p, n + 1000000, out, Some(hits + 1000000), start).value.cost ==
      PriceUsage(p, n, out, Some(hits), start).value.cost + rates.cacheHit * Share(p, start)
  {
    var misses := n - hits;
    ChargeMillion(rates, Share(p, start), hits, misses, out);
    assert n + 1000000 - hits == misses + 1000000;
    assert n + 1000000 - (hits + 1000000) == misses;
  }

  lemma ChargeMillion(r: Rates, factor: real, hits: int, misses: int, out: int)
    ensures hits == misses == out == 0 ==> Charge(r, factor, hits, misses, out) == 0.0
    ensures Charge(r, factor, hits, misses, out + 1000000) == Charge(r, factor, hits, misses, out) + r.output * factor
    ensures Charge(r, factor, hits, misses + 1000000, out) == Charge(r, factor, hits, misses, out) + r.input * factor
    ensures Charge(r, factor, hits + 1000000, misses, out) == Charge(r, factor, hits, misses, out) + r.cacheHit * factor
  {
    Million(hits, r.cacheHit * factor);
    Million(misses, r.input * factor);
    Million(out, r.output * factor);
  }

  lemma Million(x: int, rate: real)
    ensures (x + 1000000) as real * rate == x as real * rate + 1000000.0 * rate
  {
  }

  /** A quiet start costs the multiplier times the price of a busy start, never more than it, and nothing only
      where that is nothing; an unknown start is priced as a busy one. */
  lemma QuietIsCheaper(p: ModelPrice, n: int, out: int, hits: Option<int>, busy: Priced, quiet: Priced)
    requires ValidPrice(p) && PriceUsage(p, n, out, hits, Some(Busy)) == Ok(busy) && PriceUsage(p, n, out, hits, Some(Quiet)) == Ok(quiet)
    ensures PriceUsage(p, n, out, hits, None) == Ok(busy)
    ensures quiet == busy.(cost := p.offPeakMultiplier * busy.cost, bucket := quiet.bucket)
    ensures 0.0 <= quiet.cost <= busy.cost && (quiet.cost == 0.0 ==> busy.cost == 0.0)
    ensures p.schedule == DeepSeek ==> quiet.bucket == OffPeak && busy.bucket == Peak
    ensures p.schedule == FlatRate ==> quiet == busy && busy.bucket == Flat
  {
    var rates := RatesFor(p, n).value;
    RatesForOk(p, n);
    ChargeScales(rates, p.offPeakMultiplier, busy.hits, busy.misses, out);
    ChargeScales(rates, 1.0, busy.hits, busy.misses, out);
    Discount(p.offPeakMultiplier, busy.cost, quiet.cost);
  }

  lemma ChargeScales(r: Rates, factor: real, hits: int, misses: int, out: int)
    requires RatesOk(r) && 0.0 <= factor && 0 <= hits && 0 <= misses && 0 <= out
    ensures Charge(r, factor, hits, misses, out) == factor * Charge(r, 1.0, hits, misses, out)
    ensures 0.0 <= Charge(r, 1.0, hits, misses, out)
  {
    TakeOut(hits as real, r.cacheHit, factor);
    TakeOut(misses as real, r.input, factor);
    TakeOut(out as real, r.output, factor);
    assert r.cacheHit * 1.0 == r.cacheHit && r.input * 1.0 == r.input && r.output * 1.0 == r.output;
    NonNegative(hits, r.cacheHit);
    NonNegative(misses, r.input);
    NonNegative(out, r.output);
    DivideThrough(factor, hits as real * r.cacheHit + misses as real * r.input + out as real * r.output);
  }

  lemma NonNegative(x: int, rate: real)
    requires 0 <= x && 0.0 <= rate
    ensures 0.0 <= x as real * rate
  {
  }

  lemma DivideThrough(factor: real, full: real)
    ensures full * factor / 1000000.0 == factor * (full / 1000000.0)
  {
  }

  lemma Discount(factor: real, full: real, discounted: real)
    requires 0.0 <= full && 0.0 < factor <= 1.0 && discounted == factor * full
    ensures 0.0 <= discounted <= full && (discounted == 0.0 ==> full == 0.0)
  {
    MulMonotone(factor, 1.0, full);
    if full > 0.0 { PositiveProduct(factor, full); }
  }

  lemma PositiveProduct(a: real, b: real)
    requires a > 0.0 && b > 0.0
    ensures a * b > 0.0
  {
  }

  // ------------------------------------------------------------ what a reservation is

  lemma {:induction false} LowerLimitsExact(tiers: seq<Tier>, n: int, c: int)
    ensures c in LowerLimits(tiers, n) <==> c < n && exists t :: t in tiers && t.maxInput == c
  {
    if |tiers| > 0 {
      LowerLimitsExact(tiers[1..], n, c);
      assert tiers == [tiers[0]] + tiers[1..];
    }
  }

  lemma {:induction false} DearestAttained(p: ModelPrice, counts: seq<int>, out: int) returns (c: int)
    requires |counts| > 0 && Dearest(p, counts, out).Ok?
    ensures c in counts && PriceUsage(p, c, out, None, None).Ok?
    ensures PriceUsage(p, c, out, None, None).value.cost == Dearest(p, counts, out).value
  {
    c := counts[0];
    if |counts| > 1 && PriceUsage(p, c, out, None, None).value.cost < Dearest(p, counts[1..], out).value {
      c := DearestAttained(p, counts[1..], out);
    }
  }

  lemma {:induction false} DearestOkIff(p: ModelPrice, counts: seq<int>, out: int)
    requires |counts| > 0
    ensures Dearest(p, counts, out).Ok? <==> forall c | c in counts :: PriceUsage(p, c, out, None, None).Ok?
  {
    assert counts == [counts[0]] + counts[1..];
    if |counts| > 1 { DearestOkIff(p, counts[1..], out); }
  }

  /** A reservation can be priced exactly when its own count can, and is then the greatest price, at full
      rates and without hits, of its own count and of every tier limit below it. */
  lemma ReservationIsDearest(p: ModelPrice, n: int, out: int) returns (c: int)
    requires ValidPrice(p)
    ensures CalculateCost(p, n, out).Ok? <==> 0 <= n && 0 <= out && (p.tiers == [] || exists t :: t in p.tiers && n <= t.maxInput)
    ensures CalculateCost(p, n, out).Ok? ==>
      && (c == n || (c < n && exists t :: t in p.tiers && t.maxInput == c))
      && PriceUsage(p, c, out, None, Some(Busy)).Ok?
      && PriceUsage(p, c, out, None, Some(Busy)).value.cost == CalculateCost(p, n, out).value
      && forall d | d == n || (d < n && exists t :: t in p.tiers && t.maxInput == d) ::
           && PriceUsage(p, d, out, None, Some(Busy)).Ok?
           && PriceUsage(p, d, out, None, Some(Busy)).value.cost <= CalculateCost(p, n, out).value
  {
    SelectsLeast(p.tiers, n);
    forall d ensures d in Candidates(p, n) <==> d == n || (d < n && exists t :: t in p.tiers && t.maxInput == d) {
      LowerLimitsExact(p.tiers, n, d);
    }
    forall d | d in LowerLimits(p.tiers, n) ensures 0 <= d && RatesFor(p, d).Some? {
      LimitsAreTierLimits(p.tiers, n, d);
    }
    DearestOkIff(p, Candidates(p, n), out);
    c := n;
    assert Candidates(p, n)[0] == n;
    if CalculateCost(p, n, out).Ok? {
      c := DearestAttained(p, Candidates(p, n), out);
      forall d | d in Candidates(p, n)
        ensures PriceUsage(p, d, out, None, Some(Busy)).Ok? && PriceUsage(p, d, out, None, Some(Busy)).value.cost <= CalculateCost(p, n, out).value
      {
        var i :| 0 <= i < |Candidates(p, n)| && Candidates(p, n)[i] == d;
        DearestBounds(p, Candidates(p, n), out, i);
      }
    }
  }

  // ------------------------------------------------------------ the upper bound

  lemma {:induction false} DearestBounds(p: ModelPrice, counts: seq<int>, out: int, i: nat)
    requires i < |counts| && Dearest(p, counts, out).Ok?
    ensures PriceUsage(p, counts[i], out, None, None).Ok?
    ensures PriceUsage(p, counts[i], out, None, None).value.cost <= Dearest(p, counts, out).value
  {
    if i > 0 {
      DearestBounds(p, counts[1..], out, i - 1);
    }
  }

  /** Any smaller input falls in the tier of some priced candidate that is at least as large. */
  lemma {:induction false} TierReached(tiers: seq<Tier>, n: int, most: int) returns (c: int)
    requires n <= most && SelectTier(tiers, most).Some?
    ensures n <= c <= most && (c == most || c in LowerLimits(tiers, most))
    ensures SelectTier(tiers, n).Some? && SelectTier(tiers, c) == SelectTier(tiers, n)
  {
    if n <= tiers[0].maxInput {
      c := if most <= tiers[0].maxInput then most else tiers[0].maxInput;
    } else {
      c := TierReached(tiers[1..], n, most);
    }
  }

  lemma {:induction false} LimitsAreTierLimits(tiers: seq<Tier>, n: int, c: int)
    requires c in LowerLimits(tiers, n)
    ensures 0 <= c < n && SelectTier(tiers, c).Some?
  {
    if c in LowerLimits(tiers[1..], n) {
      LimitsAreTierLimits(tiers[1..], n, c);
    }
  }

  lemma RateReached(p: ModelPrice, n: int, most: int) returns (c: int)
    requires n <= most && RatesFor(p, most).Some?
    ensures n <= c <= most && c in Candidates(p, most)
    ensures RatesFor(p, n).Some? && RatesFor(p, c) == RatesFor(p, n)
  {
    if |p.tiers| == 0 {
      c := most;
    } else {
      c := TierReached(p.tiers, n, most);
    }
  }

  lemma MulMonotone(a: real, b: real, x: real)
    requires a <= b && 0.0 <= x
    ensures a * x <= b * x
  {
  }

  lemma TermBound(a: int, b: int, rate: real, top: real, factor: real)
    requires 0 <= a <= b && 0.0 <= rate <= top && 0.0 <= factor <= 1.0
    ensures a as real * (rate * factor) <= b as real * top
  {
  }

  lemma InputBound(r: Rates, factor: real, hits: int, misses: int, c: int, top: real)
    requires RatesOk(r) && 0.0 <= factor <= 1.0 && r.cacheHit <= top && r.input <= top
    requires 0 <= hits && 0 <= misses && hits + misses <= c
    ensures hits as real * (r.cacheHit * factor) + misses as real * (r.input * factor) <= c as real * top
  {
    TermBound(hits, hits, r.cacheHit, top, factor);
    TermBound(misses, misses, r.input, top, factor);
    MulMonotone((hits + misses) as real, c as real, top);
    Distribute(hits, misses, top);
    AddBounds(hits as real * (r.cacheHit * factor), misses as real * (r.input * factor),
              hits as real * top, misses as real * top, c as real * top);
  }

  lemma AddBounds(a: real, b: real, x: real, y: real, z: real)
    requires a <= x && b <= y && x + y <= z
    ensures a + b <= z
  {
  }

  lemma Distribute(a: int, b: int, x: real)
    ensures (a + b) as real * x == a as real * x + b as real * x
  {
  }

  /** Every split of the input costs at most the dearer of all hits and all misses. */
  lemma ChargeBound(r: Rates, factor: real, hits: int, misses: int, out: int, c: int, mostOut: int)
    requires RatesOk(r) && 0.0 <= factor <= 1.0
    requires 0 <= hits && 0 <= misses && hits + misses <= c && 0 <= out <= mostOut
    ensures Charge(r, factor, hits, misses, out) <=
      if r.cacheHit <= r.input then Charge(r, 1.0, 0, c, mostOut) else Charge(r, 1.0, c, 0, mostOut)
  {
    var top := if r.cacheHit <= r.input then r.input else r.cacheHit;
    InputBound(r, factor, hits, misses, c, top);
    TermBound(out, mostOut, r.output, r.output, factor);
    assert r.cacheHit * 1.0 == r.cacheHit && r.input * 1.0 == r.input && r.output * 1.0 == r.output;
  }

  /** Each candidate, priced as all cache hits, is covered too. */
  predicate AllHitsCovered(p: ModelPrice, most: int, out: int, reserved: real) {
    forall c | c in Candidates(p, most) && RatesFor(p, c).Some? :: Charge(RatesFor(p, c).value, 1.0, c, 0, out) <= reserved
  }

  predicate CheapHits(r: Rates) { r.cacheHit <= r.input }

  lemma CandidateCovered(p: ModelPrice, most: int, out: int, c: int)
    requires CalculateCost(p, most, out).Ok? && c in Candidates(p, most)
    ensures 0 <= most && 0 <= c && 0 <= out && RatesFor(p, c).Some?
    ensures Charge(RatesFor(p, c).value, 1.0, 0, c, out) <= CalculateCost(p, most, out).value
  {
    var i :| 0 <= i < |Candidates(p, most)| && Candidates(p, most)[i] == c;
    DearestBounds(p, Candidates(p, most), out, 0);
    DearestBounds(p, Candidates(p, most), out, i);
  }

  /** A usage inside the reserved bounds is priceable and costs at most the reservation. */
  lemma UsageCovered(p: ModelPrice, most: int, mostOut: int, n: int, out: int, hits: Option<int>, start: Option<Clock>)
    requires ValidPrice(p) && CalculateCost(p, most, mostOut).Ok?
    requires AllHitsCovered(p, most, mostOut, CalculateCost(p, most, mostOut).value)
    requires 0 <= n <= most && 0 <= out <= mostOut
    requires hits.Some? ==> 0 <= hits.value <= n
    ensures PriceUsage(p, n, out, hits, start).Ok?
    ensures PriceUsage(p, n, out, hits, start).value.cost <= CalculateCost(p, most, mostOut).value
  {
    CandidateCovered(p, most, mostOut, most);
    var c := RateReached(p, n, most);
    CandidateCovered(p, most, mostOut, c);
    var rates := RatesFor(p, n).value;
    RatesForOk(p, n);
    var priced := PriceUsage(p, n, out, hits, start).value;
    var factor := if priced.bucket == OffPeak then p.offPeakMultiplier else 1.0;
    ChargeBound(rates, factor, priced.hits, priced.misses, out, c, mostOut);
  }

  lemma {:induction false} SelectedTierListed(tiers: seq<Tier>, n: int)
    requires SelectTier(tiers, n).Some?
    ensures SelectTier(tiers, n).value in tiers
  {
    if n > tiers[0].maxInput {
      SelectedTierListed(tiers[1..], n);
    }
  }

  lemma RatesForOk(p: ModelPrice, n: int)
    requires ValidPrice(p) && RatesFor(p, n).Some?
    ensures RatesOk(RatesFor(p, n).value)
  {
    if |p.tiers| > 0 {
      SelectedTierListed(p.tiers, n);
    }
  }

  ghost predicate Conservative(p: ModelPrice, most: int, mostOut: int, reserved: real) {
    forall n, out, hits: Option<int>, start |
      0 <= n <= most && 0 <= out <= mostOut && (hits.Some? ==> 0 <= hits.value <= n) ::
      PriceUsage(p, n, out, hits, start).Ok? && PriceUsage(p, n, out, hits, start).value.cost <= reserved
  }

  /** The reservation bounds every usage inside its token bounds, whatever the cache split and the
      start time, exactly when it bounds its own candidates priced as all hits. */
  lemma ReservationConservativeIff(p: ModelPrice, most: int, mostOut: int)
    requires ValidPrice(p) && CalculateCost(p, most, mostOut).Ok?
    ensures var reserved := CalculateCost(p, most, mostOut).value;
      Conservative(p, most, mostOut, reserved) <==> AllHitsCovered(p, most, mostOut, reserved)
  {
    var reserved := CalculateCost(p, most, mostOut).value;
    if AllHitsCovered(p, most, mostOut, reserved) {
      forall n, out, hits: Option<int>, start |
        0 <= n <= most && 0 <= out <= mostOut && (hits.Some? ==> 0 <= hits.value <= n)
        ensures PriceUsage(p, n, out, hits, start).Ok? && PriceUsage(p, n, out, hits, start).value.cost <= reserved
      {
        UsageCovered(p, most, mostOut, n, out, hits, start);
      }
    }
    if Conservative(p, most, mostOut, reserved) {
      forall c | c in Candidates(p, most) && RatesFor(p, c).Some?
        ensures Charge(RatesFor(p, c).value, 1.0, c, 0, mostOut) <= reserved
      {
        CandidateCovered(p, most, mostOut, c);
        if c != most { LimitsAreTierLimits(p.tiers, most, c); }
        assert PriceUsage(p, c, mostOut, Some(c), None).Ok?;
      }
    }
  }

  /** Where no cache hit is dearer than a miss, every reservation is conservative. */
  lemma CheapHitsSuffice(p: ModelPrice, most: int, mostOut: int)
    requires ValidPrice(p) && CalculateCost(p, most, mostOut).Ok?
    requires CheapHits(p.base) && forall t | t in p.tiers :: CheapHits(t.rates)
    ensures Conservative(p, most, mostOut, CalculateCost(p, most, mostOut).value)
  {
    var reserved := CalculateCost(p, most, mostOut).value;
    forall c | c in Candidates(p, most) && RatesFor(p, c).Some?
      ensures Charge(RatesFor(p, c).value, 1.0, c, 0, mostOut) <= reserved
    {
      CandidateCovered(p, most, mostOut, c);
      if |p.tiers| > 0 { SelectedTierListed(p.tiers, c); }
      RatesForOk(p, c);
      ChargeBound(RatesFor(p, c).value, 1.0, c, 0, mostOut, c, mostOut);
    }
    ReservationConservativeIff(p, most, mostOut);
  }

  /** The configuration accepts prices whose hits cost more than misses; there the bound fails. */
  lemma DearHitsBreakReservation()
    ensures var p := ModelPrice(Rates(1.0, 0.0, 2.0), FlatRate, 1.0, []);
      && ValidPrice(p)
      && CalculateCost(p, 1000000, 0) == Ok(1.0)
      && PriceUsage(p, 1000000, 0, Some(1000000), None) == Ok(Priced(2.0, Flat, 1000000, 0))
  {
  }
}
