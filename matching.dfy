/**
 * The batch matching rule. One execution quantity per order, position by
 * position; each quantity lies between zero and the order's bound; for every
 * base token the executed buys equal the executed sells; and the total traded
 * volume, each executed quantity valued at its base token's reference price,
 * is as large as possible.
 *
 * The optimum has a closed form, because base-token groups are independent:
 * the sum over base tokens t of 2 * price[t] * min(eligible buys of t,
 * eligible sells of t). `Match` attains it by filling both sides of every
 * group in batch order up to that minimum.
 */
module Matching {
  import opened Wrappers
  import opened Orders

  /** Every order of the batch refers only to tokens with a positive valuation. */
  predicate PricedBatch(orders: seq<Order>, prices: Prices)
  {
    forall i :: 0 <= i < |orders| ==> PricedOrder(orders[i], prices)
  }

  /** A batch the matcher accepts: priced and made of well-formed orders. */
  predicate ValidBatch(orders: seq<Order>, prices: Prices)
  {
    PricedBatch(orders, prices) && forall i :: 0 <= i < |orders| ==> WellFormed(orders[i])
  }

  /** The orders before position `k` are priced and well formed. */
  predicate ValidPrefix(orders: seq<Order>, prices: Prices, k: nat)
    requires k <= |orders|
  {
    forall j :: 0 <= j < k ==> PricedOrder(orders[j], prices) && WellFormed(orders[j])
  }

  function Min(a: real, b: real): real
  {
    if a <= b then a else b
  }

  /** Total of `q` over the orders with base token `t` on side `s`. */
  function SideTotal(orders: seq<Order>, q: seq<real>, t: Token, s: Side): real
    requires |q| == |orders|
  {
    if |orders| == 0 then 0.0
    else
      var n := |orders| - 1;
      SideTotal(orders[..n], q[..n], t, s) + (if orders[n].base == t && orders[n].side == s then q[n] else 0.0)
  }

  /** The bound of every order, position by position. */
  function Bounds(orders: seq<Order>, prices: Prices): (u: seq<real>)
    requires PricedBatch(orders, prices)
    ensures |u| == |orders|
  {
    seq(|orders|, i requires 0 <= i < |orders| && PricedBatch(orders, prices) => Bound(orders[i], prices))
  }

  /** The quantity of base token `t` that eligible orders on side `s` offer. */
  function EligibleQty(orders: seq<Order>, prices: Prices, t: Token, s: Side): real
    requires PricedBatch(orders, prices)
  {
    SideTotal(orders, Bounds(orders, prices), t, s)
  }

  /** The most of base token `t` that can change hands: the smaller eligible side. */
  function Cap(orders: seq<Order>, prices: Prices, t: Token): real
    requires PricedBatch(orders, prices)
  {
    Min(EligibleQty(orders, prices, t, Buy), EligibleQty(orders, prices, t, Sell))
  }

  /** Executed buys equal executed sells for every base token. */
  ghost predicate Balanced(orders: seq<Order>, q: seq<real>)
    requires |q| == |orders|
  {
    forall t :: SideTotal(orders, q, t, Buy) == SideTotal(orders, q, t, Sell)
  }

  /**
   * `q` is an admissible execution: one entry per order, each between zero
   * and the order's bound (so zero for an ineligible order), and balanced.
   */
  ghost predicate Feasible(orders: seq<Order>, prices: Prices, q: seq<real>)
    requires PricedBatch(orders, prices)
  {
    && |q| == |orders|
    && (forall i :: 0 <= i < |q| ==> 0.0 <= q[i] <= Bound(orders[i], prices))
    && Balanced(orders, q)
  }

  /** Total traded volume: every executed quantity valued at its base token's price. */
  function Volume(orders: seq<Order>, prices: Prices, q: seq<real>): real
    requires PricedBatch(orders, prices)
    requires |q| == |orders|
  {
    if |orders| == 0 then 0.0
    else
      var n := |orders| - 1;
      Volume(orders[..n], prices, q[..n]) + q[n] * prices[orders[n].base]
  }

  /** Every token listed has a positive valuation. */
  predicate AllPriced(prices: Prices, ts: seq<Token>)
  {
    forall k :: 0 <= k < |ts| ==> Priced(prices, ts[k])
  }

  predicate Distinct(ts: seq<Token>)
  {
    forall i, j :: 0 <= i < j < |ts| ==> ts[i] != ts[j]
  }

  /** Some order of the batch has `t` as its base token. */
  predicate NamedBase(orders: seq<Order>, t: Token)
  {
    exists i :: 0 <= i < |orders| && orders[i].base == t
  }

  /** The distinct base tokens of the batch, in order of first appearance. */
  function Bases(orders: seq<Order>): (ts: seq<Token>)
    ensures Distinct(ts)
    ensures forall i :: 0 <= i < |orders| ==> orders[i].base in ts
    ensures forall k :: 0 <= k < |ts| ==> NamedBase(orders, ts[k])
  {
    if |orders| == 0 then []
    else
      var n := |orders| - 1;
      var ts := Bases(orders[..n]);
      assert forall k :: 0 <= k < |ts| ==> NamedBase(orders, ts[k]) by {
        forall k | 0 <= k < |ts| ensures NamedBase(orders, ts[k]) {
          NamedBaseOfPrefix(orders, n, ts[k]);
        }
      }
      assert NamedBase(orders, orders[n].base);
      if orders[n].base in ts then ts else ts + [orders[n].base]
  }

  /** A token named by some order of a prefix is named by an order of the whole batch. */
  lemma NamedBaseOfPrefix(orders: seq<Order>, n: nat, t: Token)
    requires n <= |orders|
    requires NamedBase(orders[..n], t)
    ensures NamedBase(orders, t)
  {
    var i :| 0 <= i < n && orders[..n][i].base == t;
    assert orders[i].base == t;
  }

  /** The most volume base token `t` can contribute: both sides filled to its cap, at its price. */
  function Worth(orders: seq<Order>, prices: Prices, t: Token): real
    requires PricedBatch(orders, prices)
    requires Priced(prices, t)
  {
    2.0 * prices[t] * Cap(orders, prices, t)
  }

  /** Sum of the worths of the tokens `ts`. */
  function CapSum(orders: seq<Order>, prices: Prices, ts: seq<Token>): real
    requires PricedBatch(orders, prices)
    requires AllPriced(prices, ts)
  {
    if |ts| == 0 then 0.0
    else Worth(orders, prices, ts[0]) + CapSum(orders, prices, ts[1..])
  }

  /** The closed-form optimum of the batch. */
  function OptimalVolume(orders: seq<Order>, prices: Prices): real
    requires PricedBatch(orders, prices)
  {
    CapSum(orders, prices, Bases(orders))
  }

  /** Both sides' executed totals of base token `t`, valued at its price. */
  function Flow(orders: seq<Order>, prices: Prices, q: seq<real>, t: Token): real
    requires |q| == |orders|
    requires Priced(prices, t)
  {
    prices[t] * (SideTotal(orders, q, t, Buy) + SideTotal(orders, q, t, Sell))
  }

  /** Sum of the flows of the tokens `ts`. */
  function FlowSum(orders: seq<Order>, prices: Prices, q: seq<real>, ts: seq<Token>): real
    requires |q| == |orders|
    requires AllPriced(prices, ts)
  {
    if |ts| == 0 then 0.0
    else Flow(orders, prices, q, ts[0]) + FlowSum(orders, prices, q, ts[1..])
  }

  /**
   * The quantity the matcher gives order `i`: its share of what remains of
   * its group's cap on its side once the earlier eligible orders of the same
   * group and side have been served.
   */
  function Fill(orders: seq<Order>, prices: Prices, i: nat): real
    requires PricedBatch(orders, prices)
    requires i < |orders|
  {
    var o, u := orders[i], Bounds(orders, prices);
    var before := SideTotal(orders[..i], u[..i], o.base, o.side);
    var cap := Cap(orders, prices, o.base);
    Min(before + u[i], cap) - Min(before, cap)
  }

  /** The matcher: every order filled in batch order. */
  function Match(orders: seq<Order>, prices: Prices): (m: seq<real>)
    requires PricedBatch(orders, prices)
    ensures |m| == |orders|
  {
    seq(|orders|, i requires 0 <= i < |orders| && PricedBatch(orders, prices) => Fill(orders, prices, i))
  }

  // ---------------------------------------------------------------------
  // Sums

  /** Pointwise smaller quantities give a smaller side total. */
  lemma {:induction false} SideTotalMono(orders: seq<Order>, q: seq<real>, u: seq<real>, t: Token, s: Side)
    requires |q| == |orders| == |u|
    requires forall i :: 0 <= i < |orders| ==> q[i] <= u[i]
    ensures SideTotal(orders, q, t, s) <= SideTotal(orders, u, t, s)
  {
    if |orders| > 0 {
      var n := |orders| - 1;
      SideTotalMono(orders[..n], q[..n], u[..n], t, s);
    }
  }

  lemma {:induction false} SideTotalNonNeg(orders: seq<Order>, q: seq<real>, t: Token, s: Side)
    requires |q| == |orders|
    requires forall i :: 0 <= i < |orders| ==> q[i] >= 0.0
    ensures SideTotal(orders, q, t, s) >= 0.0
  {
    if |orders| > 0 {
      var n := |orders| - 1;
      SideTotalNonNeg(orders[..n], q[..n], t, s);
    }
  }

  /** The side total of two batches placed one after the other is the sum of their side totals. */
  lemma {:induction false} SideTotalAppend(a: seq<Order>, qa: seq<real>, b: seq<Order>, qb: seq<real>, t: Token, s: Side)
    requires |qa| == |a| && |qb| == |b|
    ensures SideTotal(a + b, qa + qb, t, s) == SideTotal(a, qa, t, s) + SideTotal(b, qb, t, s)
  {
    if |b| == 0 {
      assert a + b == a && qa + qb == qa;
    } else {
      var k := |b| - 1;
      SideTotalAppend(a, qa, b[..k], qb[..k], t, s);
      assert (a + b)[..|a| + k] == a + b[..k];
      assert (qa + qb)[..|a| + k] == qa + qb[..k];
    }
  }

  lemma CapNonNeg(orders: seq<Order>, prices: Prices, t: Token)
    requires ValidBatch(orders, prices)
    ensures Cap(orders, prices, t) >= 0.0
  {
    var u := Bounds(orders, prices);
    SideTotalNonNeg(orders, u, t, Buy);
    SideTotalNonNeg(orders, u, t, Sell);
  }

  // ---------------------------------------------------------------------
  // Regrouping the volume by base token

  lemma {:induction false} FlowSumEmpty(prices: Prices, ts: seq<Token>)
    requires AllPriced(prices, ts)
    ensures FlowSum([], prices, [], ts) == 0.0
  {
    if |ts| > 0 {
      FlowSumEmpty(prices, ts[1..]);
    }
  }

  /** Appending one order adds its valued quantity to the flow of its own base token only. */
  lemma FlowSnoc(orders: seq<Order>, prices: Prices, q: seq<real>, t: Token)
    requires |q| == |orders| > 0
    requires Priced(prices, t)
    ensures var n := |orders| - 1;
      Flow(orders, prices, q, t) ==
      Flow(orders[..n], prices, q[..n], t) + (if orders[n].base == t then q[n] * prices[t] else 0.0)
  {
    var n, p := |orders| - 1, prices[t];
    var b, s := SideTotal(orders[..n], q[..n], t, Buy), SideTotal(orders[..n], q[..n], t, Sell);
    var d := if orders[n].base == t then q[n] else 0.0;
    assert SideTotal(orders, q, t, Buy) + SideTotal(orders, q, t, Sell) == b + s + d;
    assert p * (b + s + d) == p * (b + s) + d * p;
  }

  /** Appending one order adds its valued quantity to the flow sum if its base token is listed. */
  lemma {:induction false} FlowSumSnoc(orders: seq<Order>, prices: Prices, q: seq<real>, ts: seq<Token>)
    requires |q| == |orders| > 0
    requires AllPriced(prices, ts)
    requires Distinct(ts)
    ensures var n := |orders| - 1;
      FlowSum(orders, prices, q, ts) ==
      FlowSum(orders[..n], prices, q[..n], ts) + (if orders[n].base in ts then q[n] * prices[orders[n].base] else 0.0)
  {
    if |ts| > 0 {
      var n, b := |orders| - 1, orders[|orders| - 1].base;
      FlowSnoc(orders, prices, q, ts[0]);
      FlowSumSnoc(orders, prices, q, ts[1..]);
      assert b in ts <==> b == ts[0] || b in ts[1..];
      assert b == ts[0] ==> b !in ts[1..];
    }
  }

  /** The volume is the sum, over the base tokens, of each token's price times its executed flow. */
  lemma {:induction false} Regroup(orders: seq<Order>, prices: Prices, q: seq<real>, ts: seq<Token>)
    requires PricedBatch(orders, prices)
    requires |q| == |orders|
    requires AllPriced(prices, ts)
    requires Distinct(ts)
    requires forall i :: 0 <= i < |orders| ==> orders[i].base in ts
    ensures Volume(orders, prices, q) == FlowSum(orders, prices, q, ts)
  {
    if |orders| == 0 {
      FlowSumEmpty(prices, ts);
    } else {
      var n := |orders| - 1;
      Regroup(orders[..n], prices, q[..n], ts);
      FlowSumSnoc(orders, prices, q, ts);
    }
  }

  /** A feasible execution's flow of one token is at most twice the token's price times its cap. */
  lemma FlowBound(orders: seq<Order>, prices: Prices, q: seq<real>, t: Token)
    requires PricedBatch(orders, prices)
    requires Feasible(orders, prices, q)
    requires Priced(prices, t)
    ensures Flow(orders, prices, q, t) <= Worth(orders, prices, t)
  {
    var u := Bounds(orders, prices);
    SideTotalMono(orders, q, u, t, Buy);
    SideTotalMono(orders, q, u, t, Sell);
    var flow, cap := SideTotal(orders, q, t, Buy), Cap(orders, prices, t);
    assert flow == SideTotal(orders, q, t, Sell);
    assert flow <= cap;
    MulSign(2.0 * cap - 2.0 * flow, prices[t]);
  }

  /** Over the tokens `ts`, flows each within their cap sum to at most the closed form. */
  lemma {:induction false} FlowSumBound(orders: seq<Order>, prices: Prices, q: seq<real>, ts: seq<Token>)
    requires PricedBatch(orders, prices)
    requires |q| == |orders|
    requires AllPriced(prices, ts)
    requires forall k :: 0 <= k < |ts| ==>
      Flow(orders, prices, q, ts[k]) <= Worth(orders, prices, ts[k])
    ensures FlowSum(orders, prices, q, ts) <= CapSum(orders, prices, ts)
  {
    if |ts| > 0 {
      FlowSumBound(orders, prices, q, ts[1..]);
    }
  }

  /** When every token's flow is twice its cap, the flow sum is the closed form. */
  lemma {:induction false} FlowSumAtCap(orders: seq<Order>, prices: Prices, q: seq<real>, ts: seq<Token>)
    requires PricedBatch(orders, prices)
    requires |q| == |orders|
    requires AllPriced(prices, ts)
    requires forall t :: SideTotal(orders, q, t, Buy) == Cap(orders, prices, t)
    requires forall t :: SideTotal(orders, q, t, Sell) == Cap(orders, prices, t)
    ensures FlowSum(orders, prices, q, ts) == CapSum(orders, prices, ts)
  {
    if |ts| > 0 {
      FlowSumAtCap(orders, prices, q, ts[1..]);
    }
  }

  // ---------------------------------------------------------------------
  // The matcher

  /** Each fill lies between zero and the order's bound. */
  lemma FillBounds(orders: seq<Order>, prices: Prices, i: nat)
    requires ValidBatch(orders, prices)
    requires i < |orders|
    ensures 0.0 <= Fill(orders, prices, i) <= Bound(orders[i], prices)
  {
  }

  /**
   * On every prefix, the matched total of a group's side is the prefix's
   * eligible quantity clipped at the group's cap.
   */
  lemma {:induction false} MatchPrefix(orders: seq<Order>, prices: Prices, n: nat, t: Token, s: Side)
    requires ValidBatch(orders, prices)
    requires n <= |orders|
    ensures var m, u := Match(orders, prices), Bounds(orders, prices);
      SideTotal(orders[..n], m[..n], t, s) == Min(SideTotal(orders[..n], u[..n], t, s), Cap(orders, prices, t))
  {
    var m, u := Match(orders, prices), Bounds(orders, prices);
    if n == 0 {
      CapNonNeg(orders, prices, t);
    } else {
      var k := n - 1;
      MatchPrefix(orders, prices, k, t, s);
      assert orders[..n][..k] == orders[..k];
      assert m[..n][..k] == m[..k];
      assert u[..n][..k] == u[..k];
    }
  }

  /** The matcher fills each group's two sides exactly up to the group's cap. */
  lemma MatchTotals(orders: seq<Order>, prices: Prices, t: Token, s: Side)
    requires ValidBatch(orders, prices)
    ensures SideTotal(orders, Match(orders, prices), t, s) == Cap(orders, prices, t)
  {
    var m, u := Match(orders, prices), Bounds(orders, prices);
    MatchPrefix(orders, prices, |orders|, t, s);
    assert orders[..|orders|] == orders;
    assert m[..|orders|] == m;
    assert u[..|orders|] == u;
  }

  /** The matcher's output is an admissible execution. */
  lemma MatchFeasible(orders: seq<Order>, prices: Prices)
    requires ValidBatch(orders, prices)
    ensures Feasible(orders, prices, Match(orders, prices))
  {
    var m := Match(orders, prices);
    forall i | 0 <= i < |m|
      ensures 0.0 <= m[i] <= Bound(orders[i], prices)
    {
      FillBounds(orders, prices, i);
    }
    forall t
      ensures SideTotal(orders, m, t, Buy) == SideTotal(orders, m, t, Sell)
    {
      MatchTotals(orders, prices, t, Buy);
      MatchTotals(orders, prices, t, Sell);
    }
  }

  /** The matcher reaches the closed-form optimum. */
  lemma MatchVolume(orders: seq<Order>, prices: Prices)
    requires ValidBatch(orders, prices)
    ensures Volume(orders, prices, Match(orders, prices)) == OptimalVolume(orders, prices)
  {
    var m, ts := Match(orders, prices), Bases(orders);
    Regroup(orders, prices, m, ts);
    forall t
      ensures SideTotal(orders, m, t, Buy) == Cap(orders, prices, t)
      ensures SideTotal(orders, m, t, Sell) == Cap(orders, prices, t)
    {
      MatchTotals(orders, prices, t, Buy);
      MatchTotals(orders, prices, t, Sell);
    }
    FlowSumAtCap(orders, prices, m, ts);
  }

  /** No admissible execution trades more than the closed-form optimum. */
  lemma VolumeAtMostOptimal(orders: seq<Order>, prices: Prices, q: seq<real>)
    requires PricedBatch(orders, prices)
    requires Feasible(orders, prices, q)
    ensures Volume(orders, prices, q) <= OptimalVolume(orders, prices)
  {
    var ts := Bases(orders);
    Regroup(orders, prices, q, ts);
    forall k | 0 <= k < |ts|
      ensures Flow(orders, prices, q, ts[k]) <= Worth(orders, prices, ts[k])
    {
      FlowBound(orders, prices, q, ts[k]);
    }
    FlowSumBound(orders, prices, q, ts);
  }

  /**
   * The closed form does not depend on how the base tokens are listed: any
   * duplicate-free list that names every base token gives the same sum.
   */
  lemma OptimalVolumeOver(orders: seq<Order>, prices: Prices, ts: seq<Token>)
    requires ValidBatch(orders, prices)
    requires AllPriced(prices, ts)
    requires Distinct(ts)
    requires forall i :: 0 <= i < |orders| ==> orders[i].base in ts
    ensures OptimalVolume(orders, prices) == CapSum(orders, prices, ts)
  {
    var m := Match(orders, prices);
    MatchVolume(orders, prices);
    Regroup(orders, prices, m, ts);
    forall t
      ensures SideTotal(orders, m, t, Buy) == Cap(orders, prices, t)
      ensures SideTotal(orders, m, t, Sell) == Cap(orders, prices, t)
    {
      MatchTotals(orders, prices, t, Buy);
      MatchTotals(orders, prices, t, Sell);
    }
    FlowSumAtCap(orders, prices, m, ts);
  }

  /** The volume of two batches placed one after the other is the sum of their volumes. */
  lemma {:induction false} VolumeAppend(a: seq<Order>, qa: seq<real>, b: seq<Order>, qb: seq<real>, prices: Prices)
    requires PricedBatch(a, prices) && PricedBatch(b, prices)
    requires |qa| == |a| && |qb| == |b|
    ensures PricedBatch(a + b, prices)
    ensures Volume(a + b, prices, qa + qb) == Volume(a, prices, qa) + Volume(b, prices, qb)
  {
    if |b| == 0 {
      assert a + b == a && qa + qb == qa;
    } else {
      var k := |b| - 1;
      VolumeAppend(a, qa, b[..k], qb[..k], prices);
      assert (a + b)[..|a| + k] == a + b[..k];
      assert (qa + qb)[..|a| + k] == qa + qb[..k];
    }
  }

  /** An order whose limit conflicts with the implied rate never executes. */
  lemma IneligibleIdle(orders: seq<Order>, prices: Prices, q: seq<real>, i: nat)
    requires PricedBatch(orders, prices)
    requires Feasible(orders, prices, q)
    requires i < |orders| && !Eligible(orders[i], prices)
    ensures q[i] == 0.0
  {
  }

  /** Every admissible execution trades at most the closed-form optimum. */
  lemma OptimalIsUpperBound(orders: seq<Order>, prices: Prices)
    requires PricedBatch(orders, prices)
    ensures forall q :: Feasible(orders, prices, q) ==> Volume(orders, prices, q) <= OptimalVolume(orders, prices)
  {
    forall q | Feasible(orders, prices, q)
      ensures Volume(orders, prices, q) <= OptimalVolume(orders, prices)
    {
      VolumeAtMostOptimal(orders, prices, q);
    }
  }

  // ---------------------------------------------------------------------
  // Entry point

  /** What a solved batch reports: the objective value and one executed quantity per order. */
  datatype Execution = Execution(objective: real, executed: seq<real>)

  /** Order `i` is well formed, every order before it is valid, and it uses `token`. */
  predicate PriceErrorAt(orders: seq<Order>, prices: Prices, token: Token, i: int)
  {
    && 0 <= i < |orders|
    && ValidPrefix(orders, prices, i)
    && WellFormed(orders[i])
    && token in {orders[i].base, orders[i].quote}
  }

  /** The first input error of the batch, orders taken in batch order. */
  function CheckBatch(orders: seq<Order>, prices: Prices): (e: Option<InputError>)
    ensures e.None? <==> ValidBatch(orders, prices)
    ensures e.Some? && e.value.MalformedOrder? ==>
      && e.value.index < |orders|
      && ValidPrefix(orders, prices, e.value.index)
      && !WellFormed(orders[e.value.index])
    ensures e.Some? && !e.value.MalformedOrder? ==>
      && !Priced(prices, e.value.token)
      && (e.value.MissingPrice? <==> e.value.token !in prices)
      && exists i :: PriceErrorAt(orders, prices, e.value.token, i)
  {
    if |orders| == 0 then None
    else
      var n := |orders| - 1;
      match CheckBatch(orders[..n], prices)
      case Some(e) =>
        if e.MalformedOrder? then Some(e)
        else
          var i :| PriceErrorAt(orders[..n], prices, e.token, i);
          assert PriceErrorAt(orders, prices, e.token, i);
          Some(e)
      case None =>
        if !WellFormed(orders[n]) then Some(MalformedOrder(n))
        else
          match ResolveRate(prices, orders[n].base, orders[n].quote)
          case Failure(e) =>
            assert PriceErrorAt(orders, prices, e.token, n);
            Some(e)
          case Success(_) => None
  }

  /**
   * Solve one batch: reject malformed input, otherwise report an admissible
   * execution that trades the optimal volume.
   */
  function RunSolver(orders: seq<Order>, prices: Prices): (r: Result<Execution, InputError>)
    ensures r.Success? <==> ValidBatch(orders, prices)
    ensures r.Failure? ==> CheckBatch(orders, prices) == Some(r.error)
    ensures r.Success? ==>
      && Feasible(orders, prices, r.value.executed)
      && r.value.objective == Volume(orders, prices, r.value.executed)
      && r.value.objective == OptimalVolume(orders, prices)
      && forall q :: Feasible(orders, prices, q) ==> Volume(orders, prices, q) <= r.value.objective
  {
    match CheckBatch(orders, prices)
    case Some(e) => Failure(e)
    case None =>
      var m := Match(orders, prices);
      MatchFeasible(orders, prices);
      MatchVolume(orders, prices);
      OptimalIsUpperBound(orders, prices);
      Success(Execution(Volume(orders, prices, m), m))
  }
}
