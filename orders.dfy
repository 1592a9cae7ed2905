/**
 * Orders of a DAO Cross batch and the reference prices they are matched
 * against: the order value, the implied exchange rate of a token pair and
 * the limit-price eligibility rule.
 */
module Orders {
  import opened Wrappers

  /** A token symbol such as "BTC" or "ETH". */
  type Token = string

  datatype Side = Buy | Sell

  /**
   * One limit order: trade `quantity` units of `base`, paying or receiving
   * `quote`, at a price of at most (buy) or at least (sell) `limitPrice`
   * units of `quote` per unit of `base`.
   */
  datatype Order = Order(base: Token, quote: Token, side: Side, quantity: real, limitPrice: real)

  /** Valuation of each token in one common reference currency. */
  type Prices = map<Token, real>

  /** An order that can be matched at all: positive size and limit, two different tokens. */
  predicate WellFormed(o: Order)
  {
    o.quantity > 0.0 && o.limitPrice > 0.0 && o.base != o.quote
  }

  /** The snapshot holds a usable (positive) valuation of `t`. */
  predicate Priced(prices: Prices, t: Token)
  {
    t in prices && prices[t] > 0.0
  }

  predicate PricedOrder(o: Order, prices: Prices)
  {
    Priced(prices, o.base) && Priced(prices, o.quote)
  }

  /** Why a batch is rejected before anything is matched. */
  datatype InputError =
    | MissingPrice(token: Token)
    | NonPositivePrice(token: Token)
    | MalformedOrder(index: nat)

  /** The error, if any, of looking up the valuation of `t`. */
  function PriceError(prices: Prices, t: Token): (e: Option<InputError>)
    ensures e.None? <==> Priced(prices, t)
    ensures e.Some? ==> !e.value.MalformedOrder? && e.value.token == t
    ensures e.Some? ==> (e.value.MissingPrice? <==> t !in prices)
  {
    if t !in prices then Some(MissingPrice(t))
    else if prices[t] <= 0.0 then Some(NonPositivePrice(t))
    else None
  }

  /**
   * Implied exchange rate of the pair, in `quote` per unit of `base`:
   * the quote token's valuation over the base token's.
   */
  function ResolveRate(prices: Prices, base: Token, quote: Token): (r: Result<real, InputError>)
    ensures r.Success? <==> Priced(prices, base) && Priced(prices, quote)
    ensures r.Success? ==> r.value > 0.0 && r.value * prices[base] == prices[quote]
    ensures r.Failure? ==> !r.error.MalformedOrder? && r.error.token in {base, quote}
    ensures r.Failure? ==> !Priced(prices, r.error.token) && (r.error.MissingPrice? <==> r.error.token !in prices)
    ensures r.Failure? && !Priced(prices, base) ==> r.error.token == base
  {
    match PriceError(prices, base)
    case Some(e) => Failure(e)
    case None =>
      match PriceError(prices, quote)
      case Some(e) => Failure(e)
      case None => Success(prices[quote] / prices[base])
  }

  /** The implied rate of an order's own pair. */
  function Rate(o: Order, prices: Prices): (r: real)
    requires PricedOrder(o, prices)
    ensures r > 0.0 && r * prices[o.base] == prices[o.quote]
  {
    prices[o.quote] / prices[o.base]
  }

  /**
   * A buy may execute only when the implied rate does not exceed its limit,
   * a sell only when the implied rate is not below its limit.
   */
  predicate Eligible(o: Order, prices: Prices)
    requires PricedOrder(o, prices)
  {
    match o.side
    case Buy => o.limitPrice >= Rate(o, prices)
    case Sell => o.limitPrice <= Rate(o, prices)
  }

  /** Largest quantity the order may execute: all of it when eligible, nothing otherwise. */
  function Bound(o: Order, prices: Prices): real
    requires PricedOrder(o, prices)
  {
    if Eligible(o, prices) then o.quantity else 0.0
  }

  /** A limit exactly at the implied rate is eligible, on either side. */
  lemma EligibleAtRate(o: Order, prices: Prices)
    requires PricedOrder(o, prices)
    requires o.limitPrice == Rate(o, prices)
    ensures Eligible(o, prices)
    ensures Bound(o, prices) == o.quantity
  {
  }

  /**
   * Eligibility without division: a buy's limit, valued in the reference
   * currency, covers the quote token's valuation, and a sell's does not
   * exceed it.
   */
  lemma EligibleCrossMultiplied(o: Order, prices: Prices)
    requires PricedOrder(o, prices)
    ensures Eligible(o, prices) <==>
      match o.side
      case Buy => o.limitPrice * prices[o.base] >= prices[o.quote]
      case Sell => o.limitPrice * prices[o.base] <= prices[o.quote]
  {
    var pb, r := prices[o.base], Rate(o, prices);
    assert o.limitPrice * pb - prices[o.quote] == (o.limitPrice - r) * pb;
    MulSign(o.limitPrice - r, pb);
  }

  /** Multiplying by a positive number keeps the sign. */
  lemma MulSign(x: real, p: real)
    requires p > 0.0
    ensures x >= 0.0 <==> x * p >= 0.0
    ensures x <= 0.0 <==> x * p <= 0.0
  {
    if x > 0.0 {
      assert x * p > 0.0;
    } else if x < 0.0 {
      assert (-x) * p > 0.0;
    }
  }
}
