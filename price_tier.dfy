/** The price indicator of a restaurant: the first tier, cheapest first,
    whose ceiling is not below the average price. */
module PriceTiers {
  datatype PriceTier = CHEAP | MODERATE | EXPENSIVE | LUXURY

  const IntMax := 2147483647

  /** The enum constants in declaration order. */
  const Tiers: seq<PriceTier> := [CHEAP, MODERATE, EXPENSIVE, LUXURY]

  function MaxPrice(t: PriceTier): int
  {
    match t
    case CHEAP => 10
    case MODERATE => 30
    case EXPENSIVE => 60
    case LUXURY => IntMax
  }

  function Symbol(t: PriceTier): string
  {
    match t
    case CHEAP => "€"
    case MODERATE => "€€"
    case EXPENSIVE => "€€€"
    case LUXURY => "€€€€"
  }

  /** The first of `ts` whose ceiling is not below the price, or LUXURY
      when none is. */
  function FirstFitting(ts: seq<PriceTier>, price: real): PriceTier
  {
    if ts == [] then LUXURY
    else if price <= MaxPrice(ts[0]) as real then ts[0]
    else FirstFitting(ts[1..], price)
  }

  function From(price: real): PriceTier
  {
    FirstFitting(Tiers, price)
  }

  /** The tier is fixed by the bands of the enum: up to 10, up to 30, up to
      60, and above. */
  lemma FromBands(price: real)
    ensures price <= 10.0 ==> From(price) == CHEAP
    ensures 10.0 < price <= 30.0 ==> From(price) == MODERATE
    ensures 30.0 < price <= 60.0 ==> From(price) == EXPENSIVE
    ensures 60.0 < price ==> From(price) == LUXURY
  {
    var rest := Tiers[1..];
    assert rest == [MODERATE, EXPENSIVE, LUXURY];
    assert rest[1..] == [EXPENSIVE, LUXURY];
    assert rest[1..][1..] == [LUXURY];
    assert rest[1..][1..][1..] == [];
    if price > 10.0 {
      assert From(price) == FirstFitting(rest, price);
      if price > 30.0 {
        assert FirstFitting(rest, price) == FirstFitting(rest[1..], price);
        if price > 60.0 {
          assert FirstFitting(rest[1..], price) == FirstFitting(rest[1..][1..], price);
          if price > IntMax as real {
            assert FirstFitting(rest[1..][1..], price) == FirstFitting(rest[1..][1..][1..], price);
          }
        }
      }
    }
  }

  /** The symbol by price band. */
  lemma SymbolBands(price: real)
    ensures price <= 10.0 ==> Symbol(From(price)) == "€"
    ensures 10.0 < price <= 30.0 ==> Symbol(From(price)) == "€€"
    ensures 30.0 < price <= 60.0 ==> Symbol(From(price)) == "€€€"
    ensures 60.0 < price ==> Symbol(From(price)) == "€€€€"
  {
    FromBands(price);
  }

  function Rank(t: PriceTier): nat
  {
    match t
    case CHEAP => 0
    case MODERATE => 1
    case EXPENSIVE => 2
    case LUXURY => 3
  }

  /** A higher price never gives a cheaper tier. */
  lemma FromMonotone(p: real, q: real)
    requires p <= q
    ensures Rank(From(p)) <= Rank(From(q))
  {
    FromBands(p);
    FromBands(q);
  }

  /** The scan returns the first tier in order whose ceiling fits: any
      earlier tier's ceiling is below the price. */
  lemma FromIsFirstFit(price: real)
    ensures From(price) in Tiers
    ensures price <= MaxPrice(From(price)) as real || From(price) == LUXURY
    ensures forall i :: 0 <= i < |Tiers| && Rank(Tiers[i]) < Rank(From(price)) ==> MaxPrice(Tiers[i]) as real < price
  {
    FromBands(price);
  }
}
