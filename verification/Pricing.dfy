/**
  The pricing engine: what a rating rule charges for a quantity of usage.

  `Amount` is the meaning of a rule. A graduated rule charges every single unit at
  the price of the first tier that reaches it; `ComputeAmountCents` is the tier loop
  that computes the same number without visiting units, validating tiers only as it
  reaches them and adding with wrap-around.
 */
module Pricing {
  import opened Common

  datatype Tier = Tier(upTo: int64, unitAmountCents: int64)

  datatype Mode = Flat | Graduated | Package | UnknownMode

  datatype Rule = Rule(
    mode: Mode,
    flatAmountCents: int64,
    graduatedTiers: seq<Tier>,
    packageSize: int64,
    packageAmountCents: int64,
    overageUnitAmountCents: int64)

  // ---------------------------------------------------------------------------
  // The meaning of a graduated rule, unit by unit
  // ---------------------------------------------------------------------------

  predicate Reaches(tier: Tier, unit: int) {
    tier.upTo == 0 || unit <= tier.upTo
  }

  /** The first tier that reaches a unit, or |tiers|. */
  function FirstTier(tiers: seq<Tier>, unit: int, from: nat := 0): (k: nat)
    requires from <= |tiers|
    ensures from <= k <= |tiers|
    ensures k < |tiers| ==> Reaches(tiers[k], unit)
    ensures forall i | from <= i < k :: !Reaches(tiers[i], unit)
    decreases |tiers| - from
  {
    if from == |tiers| || Reaches(tiers[from], unit) then from else FirstTier(tiers, unit, from + 1)
  }

  function UnitPrice(tiers: seq<Tier>, unit: int): int {
    var k := FirstTier(tiers, unit);
    if k < |tiers| then tiers[k].unitAmountCents else 0
  }

  /** The price of units after + 1 .. last, one by one. */
  function SumUnits(tiers: seq<Tier>, after: int, last: int): int
    decreases last - after
  {
    if last <= after then 0 else SumUnits(tiers, after, last - 1) + UnitPrice(tiers, last)
  }

  predicate SignsOk(tier: Tier) {
    tier.unitAmountCents >= 0 && tier.upTo >= 0
  }

  predicate InOrder(tiers: seq<Tier>, n: nat)
    requires n <= |tiers|
  {
    forall i, j | 0 <= i < j < n :: tiers[i].upTo <= tiers[j].upTo
  }

  /** Validation is lazy: only the tiers that carry usage must be in order, and the signs
      of one more are looked at when the last of them is bounded. */
  predicate GraduatedBillable(tiers: seq<Tier>, quantity: nat) {
    && tiers != []
    && if quantity == 0 then SignsOk(tiers[0]) else
         var k := FirstTier(tiers, quantity);
         && k < |tiers|
         && (forall i | 0 <= i <= k :: SignsOk(tiers[i]))
         && InOrder(tiers, k)
         && (tiers[k].upTo != 0 && k + 1 < |tiers| ==> SignsOk(tiers[k + 1]))
  }

  // ---------------------------------------------------------------------------
  // All modes
  // ---------------------------------------------------------------------------

  predicate Billable(rule: Rule, quantity: int) {
    && quantity >= 0
    && match rule.mode
       case Flat => rule.flatAmountCents >= 0
       case Graduated => GraduatedBillable(rule.graduatedTiers, quantity)
       case Package => rule.packageSize > 0 && rule.packageAmountCents >= 0 && rule.overageUnitAmountCents >= 0
       case UnknownMode => false
  }

  function PackagePrice(rule: Rule, quantity: nat): int
    requires rule.packageSize > 0
  {
    quantity / rule.packageSize * rule.packageAmountCents
    + quantity % rule.packageSize * rule.overageUnitAmountCents
  }

  /** The charge in exact arithmetic. */
  function ExactAmount(rule: Rule, quantity: nat): int
    requires Billable(rule, quantity)
  {
    match rule.mode
    case Flat => if quantity == 0 then 0 else rule.flatAmountCents
    case Graduated => SumUnits(rule.graduatedTiers, 0, quantity)
    case Package => PackagePrice(rule, quantity)
  }

  /** The charge as 64-bit code returns it. */
  function Amount(rule: Rule, quantity: int64): Result<int64> {
    if Billable(rule, quantity) then Ok(Wrap64(ExactAmount(rule, quantity))) else Err
  }

  // ---------------------------------------------------------------------------
  // The code
  // ---------------------------------------------------------------------------

  function MinInt64(a: int64, b: int64): int64 {
    if a < b then a else b
  }

  /** A flat rule charges once for any usage at all; a package rule charges every package that fits
      the quantity, and the rest by the unit; a graduated rule charges unit by unit. */
  method ComputeAmountCents(rule: Rule, quantity: int64) returns (r: Result<int64>)
    ensures r == Amount(rule, quantity)
    ensures quantity < 0 || rule.mode == UnknownMode ==> r == Err
    ensures rule.mode == Flat && quantity >= 0 ==>
              r == if rule.flatAmountCents < 0 then Err else if quantity == 0 then Ok(0) else Ok(rule.flatAmountCents)
    ensures rule.mode == Package && quantity >= 0 ==>
              (r.Ok? <==> rule.packageSize > 0 && rule.packageAmountCents >= 0 && rule.overageUnitAmountCents >= 0)
    ensures rule.mode == Package && r.Ok? ==>
              r.value == Wrap64(quantity / rule.packageSize * rule.packageAmountCents
                                + quantity % rule.packageSize * rule.overageUnitAmountCents)
  {
    hide Wrap64, GraduatedBillable, SumUnits, PackagePrice;
    if quantity < 0 {
      return Err;
    }
    match rule.mode {
      case Flat =>
        if rule.flatAmountCents < 0 { return Err; }
        if quantity == 0 { return Ok(0); }
        return Ok(rule.flatAmountCents);
      case Graduated =>
        r := ComputeGraduated(rule.graduatedTiers, quantity);
      case Package =>
        r := ComputePackage(rule, quantity);
      case UnknownMode =>
        return Err;
    }
  }

  /** Package by package, with the rest at the overage price. */
  method ComputePackage(rule: Rule, quantity: int64) returns (r: Result<int64>)
    requires rule.mode == Package && quantity >= 0
    ensures r == Amount(rule, quantity)
    ensures r.Ok? <==> rule.packageSize > 0 && rule.packageAmountCents >= 0 && rule.overageUnitAmountCents >= 0
    ensures r.Ok? ==>
              r.value == Wrap64(quantity / rule.packageSize * rule.packageAmountCents
                                + quantity % rule.packageSize * rule.overageUnitAmountCents)
  {
    if rule.packageSize <= 0 || rule.packageAmountCents < 0 || rule.overageUnitAmountCents < 0 {
      return Err;
    }
    PackagePriceIs(rule, quantity);
    hide Wrap64, PackagePrice;
    if quantity == 0 {
      return Ok(0);
    }
    var fullPackages := quantity / rule.packageSize;
    var remainder := quantity % rule.packageSize;
    var amount := Wrap64(fullPackages * rule.packageAmountCents);
    WrapsAdd(fullPackages * rule.packageAmountCents, remainder * rule.overageUnitAmountCents);
    amount := Wrap64(amount + Wrap64(remainder * rule.overageUnitAmountCents));
    return Ok(amount);
  }

  lemma PackagePriceIs(rule: Rule, quantity: nat)
    requires rule.packageSize > 0
    ensures PackagePrice(rule, quantity)
         == quantity / rule.packageSize * rule.packageAmountCents + quantity % rule.packageSize * rule.overageUnitAmountCents
    ensures PackagePrice(rule, 0) == 0
  {
  }

  /** Whole packages cost the package price each, and what is left over costs overage. */
  lemma PackageAmount(rule: Rule, packages: nat, extra: nat)
    requires rule.mode == Package && extra < rule.packageSize && packages * rule.packageSize + extra < TWO_63
    requires rule.packageAmountCents >= 0 && rule.overageUnitAmountCents >= 0
    ensures packages * rule.packageSize + extra >= 0
    ensures Amount(rule, packages * rule.packageSize + extra)
         == Ok(Wrap64(packages * rule.packageAmountCents + extra * rule.overageUnitAmountCents))
  {
    PackagePriceAt(rule, packages, extra);
    hide Wrap64, PackagePrice;
  }

  /** The tier loop. While usage remains, everything up to lastUpper has been priced. */
  method ComputeGraduated(tiers: seq<Tier>, quantity: int64) returns (r: Result<int64>)
    requires quantity >= 0
    ensures r.Ok? <==> GraduatedBillable(tiers, quantity)
    ensures r.Ok? ==> r.value == Wrap64(SumUnits(tiers, 0, quantity))
  {
    hide Wrap64, SumUnits, FirstTier, Settled;
    if |tiers| == 0 {
      return Err;
    }
    var remaining: int64 := quantity;
    var lastUpper: int64 := 0;
    var amount: int64 := 0;
    StartsSettled(tiers, quantity);
    for i := 0 to |tiers|
      invariant 0 <= lastUpper && 0 <= remaining <= quantity
      invariant forall j | 0 <= j < i :: SignsOk(tiers[j])
      invariant amount == Wrap64(SumUnits(tiers, 0, quantity - remaining))
      invariant remaining > 0 ==> Priced(tiers, i, lastUpper) && quantity - remaining == lastUpper
      invariant remaining == 0 ==> Settled(tiers, i, quantity)
    {
      var tier := tiers[i];
      if tier.unitAmountCents < 0 || tier.upTo < 0 {
        BadSigns(tiers, quantity, i);
        return Err;
      }
      if remaining == 0 {
        SettledIsBillable(tiers, i, quantity);
        return Ok(amount);
      }
      if tier.upTo == 0 {
        PriceRun(tiers, i, lastUpper, quantity);
        LastTier(tiers, i, lastUpper, quantity);
        return Ok(Wrap64(amount + Wrap64(remaining * tier.unitAmountCents)));
      }
      if tier.upTo < lastUpper {
        OutOfOrder(tiers, quantity, i);
        return Err;
      }
      var tierCapacity := if i == 0 then tier.upTo else tier.upTo - lastUpper;
      var consumed := MinInt64(remaining, tierCapacity);
      PriceRun(tiers, i, lastUpper, lastUpper + consumed);
      amount := Wrap64(amount + Wrap64(consumed * tier.unitAmountCents));
      remaining := remaining - consumed;
      if remaining == 0 {
        LastTier(tiers, i, lastUpper, quantity);
      }
      lastUpper := tier.upTo;
    }
    if remaining > 0 {
      FirstTierIs(tiers, quantity, |tiers|);
      return Err;
    }
    SettledIsBillable(tiers, |tiers|, quantity);
    return Ok(amount);
  }

  /** Tiers 0 .. i - 1 are bounded, in order, and end at lastUpper. */
  ghost predicate Priced(tiers: seq<Tier>, i: nat, lastUpper: int)
    requires i <= |tiers|
  {
    && (forall j | 0 <= j < i :: 0 < tiers[j].upTo <= lastUpper)
    && InOrder(tiers, i)
    && lastUpper == (if i == 0 then 0 else tiers[i - 1].upTo)
  }

  /** All usage has been priced, the last of it in the bounded tier i - 1. */
  ghost predicate Settled(tiers: seq<Tier>, i: nat, quantity: nat)
    requires i <= |tiers|
  {
    if quantity == 0 then i == 0 else
      0 < i && FirstTier(tiers, quantity) == i - 1 && tiers[i - 1].upTo != 0 && InOrder(tiers, i - 1)
  }

  lemma StartsSettled(tiers: seq<Tier>, quantity: nat)
    ensures quantity == 0 ==> Settled(tiers, 0, quantity)
    ensures SumUnits(tiers, 0, 0) == 0 && Wrap64(0) == 0
  {
  }

  lemma SettledIsBillable(tiers: seq<Tier>, i: nat, quantity: nat)
    requires tiers != [] && i <= |tiers| && Settled(tiers, i, quantity)
    requires forall j | 0 <= j < i :: SignsOk(tiers[j])
    requires i < |tiers| ==> SignsOk(tiers[i])
    ensures GraduatedBillable(tiers, quantity)
  {
  }

  /** Tier i takes the last unit. */
  lemma LastTier(tiers: seq<Tier>, i: nat, lastUpper: int, quantity: nat)
    requires i < |tiers| && Priced(tiers, i, lastUpper) && lastUpper < quantity
    requires Reaches(tiers[i], quantity)
    requires forall j | 0 <= j <= i :: SignsOk(tiers[j])
    ensures if tiers[i].upTo == 0 then GraduatedBillable(tiers, quantity) else Settled(tiers, i + 1, quantity)
  {
    FirstTierIs(tiers, quantity, i);
  }

  lemma FirstTierIs(tiers: seq<Tier>, unit: int, k: nat)
    requires k <= |tiers|
    requires forall i | 0 <= i < k :: !Reaches(tiers[i], unit)
    requires k < |tiers| ==> Reaches(tiers[k], unit)
    ensures FirstTier(tiers, unit) == k
  {
  }

  /** Units lastUpper + 1 .. last all fall in tier i, so one wrapping multiplication prices them. */
  lemma PriceRun(tiers: seq<Tier>, i: nat, lastUpper: int, last: int)
    requires i < |tiers| && 0 <= lastUpper <= last
    requires Priced(tiers, i, lastUpper)
    requires Reaches(tiers[i], last)
    ensures Wrap64(Wrap64(SumUnits(tiers, 0, lastUpper)) + Wrap64((last - lastUpper) * tiers[i].unitAmountCents))
         == Wrap64(SumUnits(tiers, 0, last))
  {
    hide Wrap64, SumUnits;
    var before, run := SumUnits(tiers, 0, lastUpper), (last - lastUpper) * tiers[i].unitAmountCents;
    SumInTier(tiers, i, lastUpper, last);
    WrapsAdd(before, run);
  }

  lemma SumInTier(tiers: seq<Tier>, i: nat, lastUpper: int, last: int)
    requires i < |tiers| && 0 <= lastUpper <= last
    requires Priced(tiers, i, lastUpper)
    requires Reaches(tiers[i], last)
    ensures SumUnits(tiers, 0, last) == SumUnits(tiers, 0, lastUpper) + (last - lastUpper) * tiers[i].unitAmountCents
  {
    forall u | lastUpper < u <= last ensures UnitPrice(tiers, u) == tiers[i].unitAmountCents {
      FirstTierIs(tiers, u, i);
    }
    SumAtOnePrice(tiers, lastUpper, last - lastUpper, tiers[i].unitAmountCents);
  }

  lemma {:induction false} SumAtOnePrice(tiers: seq<Tier>, after: nat, count: nat, price: int)
    requires forall u | after < u <= after + count :: UnitPrice(tiers, u) == price
    ensures SumUnits(tiers, 0, after + count) == SumUnits(tiers, 0, after) + count * price
  {
    hide UnitPrice;
    if count > 0 {
      SumAtOnePrice(tiers, after, count - 1, price);
      assert count * price == (count - 1) * price + price;
    }
  }

  /** A negative field is fatal in a tier that is reached and in the one after the last tier used. */
  lemma BadSigns(tiers: seq<Tier>, quantity: nat, i: nat)
    requires i < |tiers| && !SignsOk(tiers[i])
    requires Settled(tiers, i, quantity) || forall j | 0 <= j < i :: 0 < tiers[j].upTo < quantity
    ensures !GraduatedBillable(tiers, quantity)
  {
    if !Settled(tiers, i, quantity) {
      assert forall j | 0 <= j < i :: !Reaches(tiers[j], quantity);
    }
  }

  lemma OutOfOrder(tiers: seq<Tier>, quantity: nat, i: nat)
    requires 0 < i < |tiers| && 0 < tiers[i].upTo < tiers[i - 1].upTo
    requires forall j | 0 <= j < i :: 0 < tiers[j].upTo < quantity
    ensures !GraduatedBillable(tiers, quantity)
  {
    assert forall j | 0 <= j <= i :: !Reaches(tiers[j], quantity);
  }

  // ---------------------------------------------------------------------------
  // Graduated rules: domain, order, bound, splitting
  // ---------------------------------------------------------------------------

  lemma FirstTierGrows(tiers: seq<Tier>, u: int, v: int)
    requires u <= v
    ensures FirstTier(tiers, u) <= FirstTier(tiers, v)
  {
    var k := FirstTier(tiers, v);
    assert k < |tiers| ==> Reaches(tiers[k], u);
  }

  /** Despite lazy validation, a rule that prices a quantity prices every smaller one. */
  lemma GraduatedDownwardClosed(tiers: seq<Tier>, smaller: nat, quantity: nat)
    requires smaller <= quantity && GraduatedBillable(tiers, quantity)
    ensures GraduatedBillable(tiers, smaller)
  {
    FirstTierGrows(tiers, smaller, quantity);
    var k := FirstTier(tiers, smaller);
    if 0 < smaller && k == FirstTier(tiers, quantity) {
      assert tiers[k].upTo != 0 && k + 1 < |tiers| ==> SignsOk(tiers[k + 1]);
    }
  }

  lemma {:induction false} SumSplits(tiers: seq<Tier>, a: int, b: int, c: int)
    requires a <= b <= c
    ensures SumUnits(tiers, a, c) == SumUnits(tiers, a, b) + SumUnits(tiers, b, c)
    decreases c - b
  {
    if b < c {
      SumSplits(tiers, a, b, c - 1);
    }
  }

  /** A graduated charge is made up unit by unit: nothing for nothing, and each further unit costs
      the price of the first tier that is unbounded or goes that far. */
  lemma NextUnitCosts(rule: Rule, quantity: int64, k: nat)
    requires rule.mode == Graduated && quantity > 0 && Amount(rule, quantity).Ok? && k < |rule.graduatedTiers|
    requires rule.graduatedTiers[k].upTo == 0 || quantity <= rule.graduatedTiers[k].upTo
    requires forall i | 0 <= i < k :: rule.graduatedTiers[i].upTo != 0 && quantity > rule.graduatedTiers[i].upTo
    ensures Amount(rule, 0) == Ok(0)
    ensures Amount(rule, quantity - 1).Ok?
    ensures Amount(rule, quantity).value == Wrap64(Amount(rule, quantity - 1).value + rule.graduatedTiers[k].unitAmountCents)
  {
    var tiers := rule.graduatedTiers;
    GraduatedDownwardClosed(tiers, quantity - 1, quantity);
    GraduatedDownwardClosed(tiers, 0, quantity);
    FirstTierIs(tiers, quantity, k);
    assert SumUnits(tiers, 0, quantity) == SumUnits(tiers, 0, quantity - 1) + tiers[k].unitAmountCents;
    hide Wrap64, GraduatedBillable, FirstTier, SumUnits;
    WrapAbsorbs(SumUnits(tiers, 0, quantity - 1), tiers[k].unitAmountCents);
  }

  /** Tier k settles a quantity: it goes that far, none before it is unbounded or does, they are in
      order, and no sign is wrong up to there, nor in the tier behind it if it is bounded. */
  predicate Settles(tiers: seq<Tier>, quantity: nat, k: nat)
    requires k < |tiers|
  {
    && (tiers[k].upTo == 0 || quantity <= tiers[k].upTo)
    && (forall i | 0 <= i < k :: 0 < tiers[i].upTo < quantity)
    && (forall i, j | 0 <= i < j < k :: tiers[i].upTo <= tiers[j].upTo)
    && (forall i | 0 <= i <= k :: tiers[i].upTo >= 0 && tiers[i].unitAmountCents >= 0)
    && (tiers[k].upTo != 0 && k + 1 < |tiers| ==> tiers[k + 1].upTo >= 0 && tiers[k + 1].unitAmountCents >= 0)
  }

  /** For quantity 0 only the first tier's signs count. */
  lemma NoUsageSucceedsIff(rule: Rule)
    requires rule.mode == Graduated
    ensures Amount(rule, 0).Ok?
       <==> rule.graduatedTiers != [] && rule.graduatedTiers[0].upTo >= 0 && rule.graduatedTiers[0].unitAmountCents >= 0
  {
    hide Wrap64, SumUnits;
  }

  /** A positive quantity can be charged exactly when some tier settles it. */
  lemma GraduatedSucceedsIff(rule: Rule, quantity: int64)
    requires rule.mode == Graduated && quantity > 0
    ensures Amount(rule, quantity).Ok?
       <==> exists k :: 0 <= k < |rule.graduatedTiers| && Settles(rule.graduatedTiers, quantity, k)
  {
    hide Wrap64, SumUnits;
    var tiers := rule.graduatedTiers;
    if k :| 0 <= k < |tiers| && Settles(tiers, quantity, k) {
      FirstTierIs(tiers, quantity, k);
    }
    if GraduatedBillable(tiers, quantity) {
      var k := FirstTier(tiers, quantity);
      assert forall i | 0 <= i < k :: !Reaches(tiers[i], quantity) && SignsOk(tiers[i]);
      assert Settles(tiers, quantity, k);
    }
  }

  /** No tier that the quantity reaches charges more than maxPrice a unit. */
  ghost predicate PriceCap(tiers: seq<Tier>, quantity: nat, maxPrice: nat) {
    forall i | 0 <= i < |tiers| && i <= FirstTier(tiers, quantity) :: tiers[i].unitAmountCents <= maxPrice
  }

  /** Units after + 1 .. last of a billable quantity cost between nothing and maxPrice each. */
  lemma {:induction false} SumBounded(tiers: seq<Tier>, quantity: nat, after: nat, count: nat, maxPrice: nat)
    requires after + count <= quantity && GraduatedBillable(tiers, quantity)
    requires PriceCap(tiers, quantity, maxPrice)
    ensures 0 <= SumUnits(tiers, after, after + count) <= count * maxPrice
    decreases count
  {
    if count > 0 {
      SumBounded(tiers, quantity, after, count - 1, maxPrice);
      FirstTierGrows(tiers, after + count, quantity);
      assert 0 <= UnitPrice(tiers, after + count) <= maxPrice;
      assert count * maxPrice == (count - 1) * maxPrice + maxPrice;
    }
  }

  function MaxPrice(tiers: seq<Tier>): (m: nat)
    ensures forall i | 0 <= i < |tiers| :: tiers[i].unitAmountCents <= m
  {
    if tiers == [] then 0
    else
      var m, p := MaxPrice(tiers[1..]), tiers[0].unitAmountCents;
      assert forall i | 0 < i < |tiers| :: tiers[i] == tiers[1..][i - 1];
      if p > m then p else m
  }

  lemma GraduatedMonotone(tiers: seq<Tier>, smaller: nat, quantity: nat)
    requires smaller <= quantity && GraduatedBillable(tiers, quantity)
    ensures SumUnits(tiers, 0, smaller) <= SumUnits(tiers, 0, quantity)
  {
    SumSplits(tiers, 0, smaller, quantity);
    SumBounded(tiers, quantity, smaller, quantity - smaller, MaxPrice(tiers));
  }

  /** Wrap-around is harmless exactly while the exact charge fits: then, and only then, is it returned. */
  lemma ExactWhenItFits(rule: Rule, quantity: int64)
    requires Billable(rule, quantity)
    ensures Amount(rule, quantity) == Ok(ExactAmount(rule, quantity)) <==> InRange64(ExactAmount(rule, quantity))
  {
  }

  /** quantity * maxPrice below 2^63 rules out overflow: in the result, in every partial
      amount, and in every product of a part of the quantity with a tier it reaches. */
  lemma GraduatedNoOverflow(rule: Rule, quantity: int64, maxPrice: nat, part: nat, tier: nat)
    requires rule.mode == Graduated && Billable(rule, quantity) && part <= quantity
    requires PriceCap(rule.graduatedTiers, quantity, maxPrice) && quantity * maxPrice < TWO_63
    requires tier < |rule.graduatedTiers| && tier <= FirstTier(rule.graduatedTiers, quantity)
    ensures Amount(rule, quantity) == Ok(ExactAmount(rule, quantity))
    ensures 0 <= ExactAmount(rule, quantity) <= quantity * maxPrice
    ensures 0 <= SumUnits(rule.graduatedTiers, 0, part) < TWO_63
    ensures quantity > 0 ==> 0 <= part * rule.graduatedTiers[tier].unitAmountCents < TWO_63
  {
    var tiers := rule.graduatedTiers;
    SumBounded(tiers, quantity, 0, quantity, maxPrice);
    SumBounded(tiers, quantity, 0, part, maxPrice);
    ProductGrows(part, quantity, maxPrice, maxPrice);
    if quantity > 0 {
      ProductGrows(part, quantity, tiers[tier].unitAmountCents, maxPrice);
    }
  }

  ghost predicate CheaperLater(tiers: seq<Tier>, quantity: nat) {
    forall i, j | 0 <= i < j < |tiers| && j <= FirstTier(tiers, quantity) ::
      tiers[i].unitAmountCents >= tiers[j].unitAmountCents
  }

  ghost predicate DearerLater(tiers: seq<Tier>, quantity: nat) {
    forall i, j | 0 <= i < j < |tiers| && j <= FirstTier(tiers, quantity) ::
      tiers[i].unitAmountCents <= tiers[j].unitAmountCents
  }

  lemma {:induction false} ShiftedCheaper(tiers: seq<Tier>, quantity: nat, shift: nat, count: nat)
    requires shift + count <= quantity && FirstTier(tiers, quantity) < |tiers| && CheaperLater(tiers, quantity)
    ensures SumUnits(tiers, shift, shift + count) <= SumUnits(tiers, 0, count)
  {
    hide FirstTier;
    if count > 0 {
      ShiftedCheaper(tiers, quantity, shift, count - 1);
      FirstTierGrows(tiers, count, shift + count);
      FirstTierGrows(tiers, shift + count, quantity);
    }
  }

  lemma {:induction false} ShiftedDearer(tiers: seq<Tier>, quantity: nat, shift: nat, count: nat)
    requires shift + count <= quantity && FirstTier(tiers, quantity) < |tiers| && DearerLater(tiers, quantity)
    ensures SumUnits(tiers, shift, shift + count) >= SumUnits(tiers, 0, count)
  {
    hide FirstTier;
    if count > 0 {
      ShiftedDearer(tiers, quantity, shift, count - 1);
      FirstTierGrows(tiers, count, shift + count);
      FirstTierGrows(tiers, shift + count, quantity);
    }
  }

  /** Under volume discounts, splitting usage over two invoices never pays (both parts are billable, by the
      downward closure). */
  lemma SplittingWithDiscounts(tiers: seq<Tier>, a: nat, b: nat)
    requires GraduatedBillable(tiers, a + b) && CheaperLater(tiers, a + b)
    ensures SumUnits(tiers, 0, a + b) <= SumUnits(tiers, 0, a) + SumUnits(tiers, 0, b)
  {
    SumSplits(tiers, 0, a, a + b);
    if a + b > 0 {
      ShiftedCheaper(tiers, a + b, a, b);
    }
  }

  /** When later tiers are dearer, splitting never costs more. */
  lemma SplittingWithSurcharges(tiers: seq<Tier>, a: nat, b: nat)
    requires GraduatedBillable(tiers, a + b) && DearerLater(tiers, a + b)
    ensures SumUnits(tiers, 0, a + b) >= SumUnits(tiers, 0, a) + SumUnits(tiers, 0, b)
  {
    SumSplits(tiers, 0, a, a + b);
    if a + b > 0 {
      ShiftedDearer(tiers, a + b, a, b);
    }
  }

  // ---------------------------------------------------------------------------
  // Package rules
  // ---------------------------------------------------------------------------

  ghost predicate PackageMonotone(rule: Rule)
    requires rule.packageSize > 0
  {
    forall a: nat, b: nat | a <= b :: PackagePrice(rule, a) <= PackagePrice(rule, b)
  }

  /** Starting a new package must cost at least the overage it replaces, and that is enough. */
  lemma PackageMonotoneIff(rule: Rule)
    requires rule.mode == Package && Billable(rule, 0)
    ensures PackageMonotone(rule) <==> (rule.packageSize - 1) * rule.overageUnitAmountCents <= rule.packageAmountCents
  {
    PackagePriceAt(rule, 0, rule.packageSize - 1);
    PackagePriceAt(rule, 1, 0);
    if PackageMonotone(rule) {
      assert PackagePrice(rule, rule.packageSize - 1) <= PackagePrice(rule, rule.packageSize);
    }
    if (rule.packageSize - 1) * rule.overageUnitAmountCents <= rule.packageAmountCents {
      forall a: nat, b: nat | a <= b ensures PackagePrice(rule, a) <= PackagePrice(rule, b) {
        PackageGrows(rule, a, b);
      }
    }
  }

  lemma PackagePriceAt(rule: Rule, packages: nat, extra: nat)
    requires 0 <= extra < rule.packageSize
    ensures packages * rule.packageSize + extra >= 0
    ensures PackagePrice(rule, packages * rule.packageSize + extra)
         == packages * rule.packageAmountCents + extra * rule.overageUnitAmountCents
  {
    var q := packages * rule.packageSize + extra;
    DivModUnique(q, rule.packageSize, packages, extra);
  }

  lemma DivModUnique(q: int, size: int, d: int, m: int)
    requires q == d * size + m && 0 <= m < size
    ensures q / size == d && q % size == m
  {
    var d', m' := q / size, q % size;
    assert (d - d') * size == m' - m;
    OnlyZeroFits(d - d', size);
  }

  lemma OnlyZeroFits(x: int, size: int)
    requires -size < x * size < size
    ensures x == 0
  {
  }

  /** One more unit is one more overage unit, or completes a package. */
  lemma PackageStep(rule: Rule, q: nat)
    requires rule.mode == Package && Billable(rule, 0)
    ensures PackagePrice(rule, q + 1) == PackagePrice(rule, q) + rule.overageUnitAmountCents
         || PackagePrice(rule, q + 1)
            == PackagePrice(rule, q) + rule.packageAmountCents - (rule.packageSize - 1) * rule.overageUnitAmountCents
  {
    var size, d, m := rule.packageSize, q / rule.packageSize, q % rule.packageSize;
    if m + 1 < size {
      DivModUnique(q + 1, size, d, m + 1);
      assert (m + 1) * rule.overageUnitAmountCents == m * rule.overageUnitAmountCents + rule.overageUnitAmountCents;
    } else {
      assert m == size - 1;
      assert (d + 1) * size == d * size + size;
      DivModUnique(q + 1, size, d + 1, 0);
      assert (d + 1) * rule.packageAmountCents == d * rule.packageAmountCents + rule.packageAmountCents;
    }
  }

  lemma {:induction false} PackageGrows(rule: Rule, a: nat, b: nat)
    requires rule.mode == Package && Billable(rule, 0) && a <= b
    requires (rule.packageSize - 1) * rule.overageUnitAmountCents <= rule.packageAmountCents
    ensures PackagePrice(rule, a) <= PackagePrice(rule, b)
    decreases b - a
  {
    if a < b {
      PackageGrows(rule, a, b - 1);
      PackageStep(rule, b - 1);
    }
  }

  /** Up to the first package only overage is charged. */
  lemma OverageGrows(rule: Rule, a: nat, b: nat)
    requires rule.mode == Package && Billable(rule, 0) && a <= b < rule.packageSize
    ensures PackagePrice(rule, a) <= PackagePrice(rule, b)
  {
    PackagePriceAt(rule, 0, a);
    PackagePriceAt(rule, 0, b);
    ProductGrows(a, b, rule.overageUnitAmountCents, rule.overageUnitAmountCents);
  }

  // ---------------------------------------------------------------------------
  // What wrap-around leaves of these properties
  // ---------------------------------------------------------------------------

  lemma SmallerIsBillable(rule: Rule, smaller: nat, quantity: nat)
    requires smaller <= quantity && Billable(rule, quantity)
    ensures Billable(rule, smaller) && ExactAmount(rule, smaller) >= 0
  {
    if rule.mode == Graduated {
      GraduatedDownwardClosed(rule.graduatedTiers, smaller, quantity);
      SumBounded(rule.graduatedTiers, quantity, 0, smaller, MaxPrice(rule.graduatedTiers));
    } else if rule.mode == Package {
      ProductGrows(0, smaller / rule.packageSize, rule.packageAmountCents, rule.packageAmountCents);
      ProductGrows(0, smaller % rule.packageSize, rule.overageUnitAmountCents, rule.overageUnitAmountCents);
    }
  }

  /** One more unit adds less than 2^63. */
  lemma SmallSteps(rule: Rule, n: nat, quantity: nat)
    requires n < quantity && Billable(rule, quantity)
    ensures Billable(rule, n) && Billable(rule, n + 1)
    ensures ExactAmount(rule, n + 1) < ExactAmount(rule, n) + TWO_63
  {
    SmallerIsBillable(rule, n, quantity);
    SmallerIsBillable(rule, n + 1, quantity);
    if rule.mode == Package {
      PackageStep(rule, n);
      ProductGrows(0, rule.packageSize - 1, rule.overageUnitAmountCents, rule.overageUnitAmountCents);
    }
  }

  /** If the exact charge of a quantity does not fit, some first one does not, and is returned as
      less than nothing. */
  lemma {:induction false} FirstOverflow(rule: Rule, quantity: nat) returns (u: nat)
    requires Billable(rule, quantity) && ExactAmount(rule, quantity) >= TWO_63
    ensures 2 <= u <= quantity && Billable(rule, u - 1) && Billable(rule, u)
    ensures ExactAmount(rule, u - 1) < TWO_63 <= ExactAmount(rule, u) < ExactAmount(rule, u - 1) + TWO_63
    ensures Wrap64(ExactAmount(rule, u)) == ExactAmount(rule, u) - TWO_64 < 0
  {
    ZeroIsFree(rule, quantity);
    SmallSteps(rule, quantity - 1, quantity);
    if ExactAmount(rule, quantity - 1) >= TWO_63 {
      u := FirstOverflow(rule, quantity - 1);
    } else {
      u := quantity;
      WrapsNegative(ExactAmount(rule, u));
    }
  }

  lemma ZeroIsFree(rule: Rule, quantity: nat)
    requires Billable(rule, quantity)
    ensures Billable(rule, 0) && ExactAmount(rule, 0) == 0
  {
    SmallerIsBillable(rule, 0, quantity);
  }

  ghost predicate ReturnedMonotone(rule: Rule, quantity: int64) {
    forall a: int64, b: int64 | 0 <= a <= b <= quantity ::
      Amount(rule, a).Ok? && Amount(rule, b).Ok? && Amount(rule, a).value <= Amount(rule, b).value
  }

  /** The amounts returned for the quantities up to one grow if and only if the exact charge of that
      one fits 64 bits and, once it fills a package, a package costs at least the overage it replaces. */
  lemma ReturnedMonotoneIff(rule: Rule, quantity: int64)
    requires Billable(rule, quantity)
    ensures ReturnedMonotone(rule, quantity)
       <==> InRange64(ExactAmount(rule, quantity))
            && (rule.mode == Package && quantity >= rule.packageSize ==>
                  (rule.packageSize - 1) * rule.overageUnitAmountCents <= rule.packageAmountCents)
  {
    SmallerIsBillable(rule, quantity, quantity);
    if ExactAmount(rule, quantity) >= TWO_63 {
      var u := FirstOverflow(rule, quantity);
      ReturnedDrops(rule, u, quantity);
    } else if rule.mode == Package && quantity >= rule.packageSize && ReturnedMonotone(rule, quantity) {
      PackageReturnedMonotone(rule, quantity);
    } else if !(rule.mode == Package && quantity >= rule.packageSize)
              || (rule.packageSize - 1) * rule.overageUnitAmountCents <= rule.packageAmountCents {
      forall a: int64, b: int64 | 0 <= a <= b <= quantity
        ensures Amount(rule, a).Ok? && Amount(rule, b).Ok? && Amount(rule, a).value <= Amount(rule, b).value
      {
        SmallerIsBillable(rule, a, quantity);
        SmallerIsBillable(rule, b, quantity);
        ExactGrows(rule, a, b, quantity);
        ExactGrows(rule, b, quantity, quantity);
      }
    }
  }

  lemma PackageReturnedMonotone(rule: Rule, quantity: int64)
    requires rule.mode == Package && Billable(rule, quantity) && quantity >= rule.packageSize
    requires ReturnedMonotone(rule, quantity)
    ensures (rule.packageSize - 1) * rule.overageUnitAmountCents <= rule.packageAmountCents
  {
    var n := rule.packageSize;
    PackagePriceAt(rule, 0, n - 1);
    PackagePriceAt(rule, 1, 0);
    assert ExactAmount(rule, n - 1) == (n - 1) * rule.overageUnitAmountCents;
    assert ExactAmount(rule, n) == rule.packageAmountCents;
    SmallerIsBillable(rule, n - 1, quantity);
    hide PackagePrice, ExactAmount, Wrap64, Billable;
    if ExactAmount(rule, n - 1) >= TWO_63 {
      var u := FirstOverflow(rule, n - 1);
      ReturnedDrops(rule, u, quantity);
    } else {
      assert Amount(rule, n - 1).value <= Amount(rule, n).value;
    }
  }

  lemma ReturnedDrops(rule: Rule, u: nat, quantity: int64)
    requires 0 < u <= quantity && Billable(rule, quantity) && Billable(rule, u - 1) && Billable(rule, u)
    requires ExactAmount(rule, u - 1) < TWO_63 && Wrap64(ExactAmount(rule, u)) < 0
    ensures !ReturnedMonotone(rule, quantity)
  {
    SmallerIsBillable(rule, u - 1, quantity);
    hide Billable, ExactAmount, Wrap64;
    assert Amount(rule, u - 1).value > Amount(rule, u).value;
  }

  lemma ExactGrows(rule: Rule, a: nat, b: nat, quantity: nat)
    requires a <= b <= quantity && Billable(rule, quantity)
    requires rule.mode == Package && quantity >= rule.packageSize ==>
               (rule.packageSize - 1) * rule.overageUnitAmountCents <= rule.packageAmountCents
    ensures Billable(rule, a) && Billable(rule, b) && ExactAmount(rule, a) <= ExactAmount(rule, b)
  {
    SmallerIsBillable(rule, a, quantity);
    SmallerIsBillable(rule, b, quantity);
    if rule.mode == Graduated {
      GraduatedMonotone(rule.graduatedTiers, a, b);
    } else if rule.mode == Package {
      if quantity >= rule.packageSize { PackageGrows(rule, a, b); } else { OverageGrows(rule, a, b); }
    }
  }

  /** What is returned for a quantity and for its two parts: the parts cost at least, or at most, as much. */
  predicate PartsCostMore(rule: Rule, a: nat, b: nat)
    requires a + b < TWO_63
  {
    && Amount(rule, a).Ok? && Amount(rule, b).Ok? && Amount(rule, a + b).Ok?
    && Amount(rule, a + b).value <= Amount(rule, a).value + Amount(rule, b).value
  }

  predicate PartsCostLess(rule: Rule, a: nat, b: nat)
    requires a + b < TWO_63
  {
    && Amount(rule, a).Ok? && Amount(rule, b).Ok? && Amount(rule, a + b).Ok?
    && Amount(rule, a + b).value >= Amount(rule, a).value + Amount(rule, b).value
  }

  /** With dearer tiers later, no split of a quantity up to one is returned as costing more if and
      only if the exact charge of that one fits. */
  lemma SurchargesIff(rule: Rule, quantity: int64)
    requires rule.mode == Graduated && Billable(rule, quantity) && DearerLater(rule.graduatedTiers, quantity)
    ensures (forall a: nat, b: nat | a + b <= quantity :: PartsCostLess(rule, a, b)) <==> InRange64(ExactAmount(rule, quantity))
  {
    var tiers := rule.graduatedTiers;
    SmallerIsBillable(rule, quantity, quantity);
    hide SumUnits, GraduatedBillable, FirstTier;
    if InRange64(ExactAmount(rule, quantity)) {
      forall a: nat, b: nat | a + b <= quantity ensures PartsCostLess(rule, a, b) {
        SplitFits(rule, a, b, quantity);
        SurchargedSplit(rule, a, b, quantity);
      }
    } else {
      var u := FirstOverflow(rule, quantity);
      SplitFits(rule, u - 1, 1, u);
      assert !PartsCostLess(rule, u - 1, 1);
    }
  }

  lemma SurchargedSplit(rule: Rule, a: nat, b: nat, quantity: nat)
    requires rule.mode == Graduated && Billable(rule, quantity) && DearerLater(rule.graduatedTiers, quantity)
    requires a + b <= quantity && Billable(rule, a) && Billable(rule, b) && Billable(rule, a + b)
    ensures ExactAmount(rule, a + b) >= ExactAmount(rule, a) + ExactAmount(rule, b)
  {
    FirstTierGrows(rule.graduatedTiers, a + b, quantity);
    hide SumUnits, FirstTier;
    SplittingWithSurcharges(rule.graduatedTiers, a, b);
  }

  lemma ExactDiscountedSplit(rule: Rule, a: nat, b: nat, quantity: nat)
    requires rule.mode == Graduated && Billable(rule, quantity) && CheaperLater(rule.graduatedTiers, quantity)
    requires a + b <= quantity && Billable(rule, a) && Billable(rule, b) && Billable(rule, a + b)
    ensures ExactAmount(rule, a + b) <= ExactAmount(rule, a) + ExactAmount(rule, b)
  {
    FirstTierGrows(rule.graduatedTiers, a + b, quantity);
    hide SumUnits, FirstTier;
    SplittingWithDiscounts(rule.graduatedTiers, a, b);
  }

  /** The parts of a billable quantity are billable, and each fits if anything larger does. */
  lemma SplitFits(rule: Rule, a: nat, b: nat, quantity: nat)
    requires rule.mode == Graduated && Billable(rule, quantity) && a + b <= quantity
    ensures Billable(rule, a) && Billable(rule, b) && Billable(rule, a + b)
    ensures 0 <= ExactAmount(rule, a) <= ExactAmount(rule, a + b) <= ExactAmount(rule, quantity)
    ensures 0 <= ExactAmount(rule, b) <= ExactAmount(rule, a + b)
    ensures b == 1 ==> ExactAmount(rule, b) < TWO_63
  {
    hide SumUnits, GraduatedBillable;
    SmallerIsBillable(rule, a, quantity);
    SmallerIsBillable(rule, b, quantity);
    SmallerIsBillable(rule, a + b, quantity);
    ExactGrows(rule, a, a + b, quantity);
    ExactGrows(rule, b, a + b, quantity);
    ExactGrows(rule, a + b, quantity, quantity);
    if b == 1 {
      ZeroIsFree(rule, quantity);
      SmallSteps(rule, 0, quantity);
    }
  }

  /** With cheaper tiers later and no price above 2^62, no split of a quantity up to one is returned
      as costing less if and only if the exact charge of half of that one fits. */
  lemma DiscountsIff(rule: Rule, quantity: int64)
    requires rule.mode == Graduated && Billable(rule, quantity) && CheaperLater(rule.graduatedTiers, quantity)
    requires PriceCap(rule.graduatedTiers, quantity, TWO_63 / 2)
    ensures Billable(rule, quantity / 2)
    ensures (forall a: nat, b: nat | a + b <= quantity :: PartsCostMore(rule, a, b)) <==> InRange64(ExactAmount(rule, quantity / 2))
  {
    SplitFits(rule, quantity / 2, 0, quantity);
    hide SumUnits, GraduatedBillable, FirstTier;
    if InRange64(ExactAmount(rule, quantity / 2)) {
      forall a: nat, b: nat | a + b <= quantity ensures PartsCostMore(rule, a, b) {
        SplitFits(rule, a, b, quantity);
        if a <= b { DiscountedSplit(rule, b, a, quantity); } else { DiscountedSplit(rule, a, b, quantity); }
      }
    } else {
      var u := FirstOverflow(rule, quantity / 2);
      UnitBelow(rule, u, quantity);
      SplitFits(rule, u, u, quantity);
      assert 2 * Wrap64(ExactAmount(rule, u)) < -TWO_63;
      assert !PartsCostMore(rule, u, u);
    }
  }

  lemma UnitBelow(rule: Rule, u: nat, quantity: nat)
    requires rule.mode == Graduated && Billable(rule, quantity) && PriceCap(rule.graduatedTiers, quantity, TWO_63 / 2)
    requires 0 < u <= quantity
    ensures Billable(rule, u - 1) && Billable(rule, u)
    ensures ExactAmount(rule, u) <= ExactAmount(rule, u - 1) + TWO_63 / 2
  {
    SmallerIsBillable(rule, u - 1, quantity);
    SmallerIsBillable(rule, u, quantity);
    FirstTierGrows(rule.graduatedTiers, u, quantity);
  }

  lemma DiscountedSplit(rule: Rule, a: nat, b: nat, quantity: nat)
    requires rule.mode == Graduated && Billable(rule, quantity) && CheaperLater(rule.graduatedTiers, quantity)
    requires b <= a && a + b <= quantity
    requires Billable(rule, quantity / 2) && InRange64(ExactAmount(rule, quantity / 2))
    ensures Billable(rule, a) && Billable(rule, b) && Billable(rule, a + b)
    ensures Wrap64(ExactAmount(rule, a + b)) <= Wrap64(ExactAmount(rule, a)) + Wrap64(ExactAmount(rule, b))
  {
    hide Wrap64, CheaperLater, SumUnits, GraduatedBillable, Billable, ExactAmount;
    SplitFits(rule, a, b, quantity);
    ExactGrows(rule, b, quantity / 2, quantity);
    ExactDiscountedSplit(rule, a, b, quantity);
    assert InRange64(ExactAmount(rule, b));
    WrapGrowth(ExactAmount(rule, a), ExactAmount(rule, a + b), ExactAmount(rule, b));
  }
}
