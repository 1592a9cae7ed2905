/**
 * The solver tests as lemmas: for each batch, the solver accepts it and
 * reports the expected volume, and the expected quantities form an optimal
 * admissible execution.
 */
module Scenarios {
  import opened Orders
  import opened Matching
  import opened Fixtures

  /**
   * What a test's check accepts: the solver succeeds and reports exactly the
   * expected objective and one quantity per order, and the expected
   * quantities are admissible and trade that volume. Which optimal split the
   * solver returns is left open.
   */
  ghost predicate CheckPasses(orders: seq<Order>, prices: Prices, expectedVolume: real, expected: seq<real>)
  {
    match RunSolver(orders, prices)
    case Failure(_) => false
    case Success(r) =>
      && r.objective == expectedVolume
      && |r.executed| == |expected|
      && Feasible(orders, prices, expected)
      && Volume(orders, prices, expected) == expectedVolume
  }

  // ---------------------------------------------------------------------
  // Evaluating sums over small batches

  /** What one order contributes to the side total of `t` and `s`. */
  function Part(o: Order, x: real, t: Token, s: Side): real
  {
    if o.base == t && o.side == s then x else 0.0
  }

  lemma SideTotalOfTwo(os: seq<Order>, xs: seq<real>, t: Token, s: Side)
    requires |os| == |xs| == 2
    ensures SideTotal(os, xs, t, s) == Part(os[0], xs[0], t, s) + Part(os[1], xs[1], t, s)
  {
    assert SideTotal(os[..1], xs[..1], t, s) == Part(os[0], xs[0], t, s);
  }

  lemma SideTotalOfFour(os: seq<Order>, xs: seq<real>, t: Token, s: Side)
    requires |os| == |xs| == 4
    ensures SideTotal(os, xs, t, s) ==
      Part(os[0], xs[0], t, s) + Part(os[1], xs[1], t, s) + Part(os[2], xs[2], t, s) + Part(os[3], xs[3], t, s)
  {
    assert os == os[..2] + os[2..] && xs == xs[..2] + xs[2..];
    SideTotalAppend(os[..2], xs[..2], os[2..], xs[2..], t, s);
    SideTotalOfTwo(os[..2], xs[..2], t, s);
    SideTotalOfTwo(os[2..], xs[2..], t, s);
  }

  lemma VolumeOfTwo(os: seq<Order>, prices: Prices, xs: seq<real>)
    requires PricedBatch(os, prices)
    requires |os| == |xs| == 2
    ensures Volume(os, prices, xs) == xs[0] * prices[os[0].base] + xs[1] * prices[os[1].base]
  {
    assert Volume(os[..1], prices, xs[..1]) == xs[0] * prices[os[0].base];
  }

  lemma VolumeOfFour(os: seq<Order>, prices: Prices, xs: seq<real>)
    requires PricedBatch(os, prices)
    requires |os| == |xs| == 4
    ensures Volume(os, prices, xs) ==
      xs[0] * prices[os[0].base] + xs[1] * prices[os[1].base]
      + xs[2] * prices[os[2].base] + xs[3] * prices[os[3].base]
  {
    assert os == os[..2] + os[2..] && xs == xs[..2] + xs[2..];
    VolumeAppend(os[..2], xs[..2], os[2..], xs[2..], prices);
    VolumeOfTwo(os[..2], prices, xs[..2]);
    VolumeOfTwo(os[2..], prices, xs[2..]);
  }

  lemma SideTotalOfEight(os: seq<Order>, xs: seq<real>, t: Token, s: Side)
    requires |os| == |xs| == 8
    ensures SideTotal(os, xs, t, s) ==
      Part(os[0], xs[0], t, s) + Part(os[1], xs[1], t, s) + Part(os[2], xs[2], t, s) + Part(os[3], xs[3], t, s)
      + Part(os[4], xs[4], t, s) + Part(os[5], xs[5], t, s) + Part(os[6], xs[6], t, s) + Part(os[7], xs[7], t, s)
  {
    assert os == os[..4] + os[4..] && xs == xs[..4] + xs[4..];
    SideTotalAppend(os[..4], xs[..4], os[4..], xs[4..], t, s);
    SideTotalOfFour(os[..4], xs[..4], t, s);
    SideTotalOfFour(os[4..], xs[4..], t, s);
  }

  lemma VolumeOfEight(os: seq<Order>, prices: Prices, xs: seq<real>)
    requires PricedBatch(os, prices)
    requires |os| == |xs| == 8
    ensures Volume(os, prices, xs) ==
      xs[0] * prices[os[0].base] + xs[1] * prices[os[1].base]
      + xs[2] * prices[os[2].base] + xs[3] * prices[os[3].base]
      + xs[4] * prices[os[4].base] + xs[5] * prices[os[5].base]
      + xs[6] * prices[os[6].base] + xs[7] * prices[os[7].base]
  {
    assert os == os[..4] + os[4..] && xs == xs[..4] + xs[4..];
    VolumeAppend(os[..4], xs[..4], os[4..], xs[4..], prices);
    VolumeOfFour(os[..4], prices, xs[..4]);
    VolumeOfFour(os[4..], prices, xs[4..]);
  }

  // ---------------------------------------------------------------------
  // TestRunSolver1.test1: two BTC/ETH orders; both limits are compatible
  // with the rate 4 / 2 = 2.

  const SolverOneBatch: seq<Order> := OrdersFromColumns(["BTC", "BTC"], ["ETH", "ETH"], [Buy, Sell], [8.0, 9.0], [3.0, 1.0])
  const SolverOnePrices: Prices := map["BTC" := 2.0, "ETH" := 4.0]

  lemma SolverOneBounds()
    ensures ValidBatch(SolverOneBatch, SolverOnePrices)
    ensures forall i :: 0 <= i < |SolverOneBatch| ==> SolverOneBatch[i].base in ["BTC"]
    ensures Bounds(SolverOneBatch, SolverOnePrices) == [8.0, 9.0]
  {
    assert SolverOneBatch == [Order("BTC", "ETH", Buy, 8.0, 3.0), Order("BTC", "ETH", Sell, 9.0, 1.0)];
    assert ValidBatch(SolverOneBatch, SolverOnePrices);
  }

  lemma SolverOneExpected()
    ensures PricedBatch(SolverOneBatch, SolverOnePrices)
    ensures Feasible(SolverOneBatch, SolverOnePrices, [8.0, 8.0])
    ensures Volume(SolverOneBatch, SolverOnePrices, [8.0, 8.0]) == 32.0
  {
    SolverOneBounds();
    var expected := [8.0, 8.0];
    forall t
      ensures SideTotal(SolverOneBatch, expected, t, Buy) == SideTotal(SolverOneBatch, expected, t, Sell)
    {
      SideTotalOfTwo(SolverOneBatch, expected, t, Buy);
      SideTotalOfTwo(SolverOneBatch, expected, t, Sell);
    }
    VolumeOfTwo(SolverOneBatch, SolverOnePrices, expected);
  }

  lemma SolverOneCaps()
    ensures PricedBatch(SolverOneBatch, SolverOnePrices)
    ensures Cap(SolverOneBatch, SolverOnePrices, "BTC") == 8.0
    ensures CapSum(SolverOneBatch, SolverOnePrices, ["BTC"]) == 32.0
  {
    SolverOneBounds();
    var u := Bounds(SolverOneBatch, SolverOnePrices);
    SideTotalOfTwo(SolverOneBatch, u, "BTC", Buy);
    SideTotalOfTwo(SolverOneBatch, u, "BTC", Sell);
  }

  lemma SolverOneClosedForm()
    ensures PricedBatch(SolverOneBatch, SolverOnePrices)
    ensures OptimalVolume(SolverOneBatch, SolverOnePrices) == 32.0
  {
    SolverOneBounds();
    SolverOneCaps();
    OptimalVolumeOver(SolverOneBatch, SolverOnePrices, ["BTC"]);
  }

  /**
   * The solver accepts the batch and reports the expected volume, and the
   * expected quantities are an optimal admissible execution.
   */
  lemma SolverOneTest()
    ensures CheckPasses(SolverOneBatch, SolverOnePrices, 32.0, [8.0, 8.0])
  {
    SolverOneBounds();
    SolverOneExpected();
    SolverOneClosedForm();
  }

  // ---------------------------------------------------------------------
  // TestRunSolver2.test1: four BTC/ETH orders at the rate 8 / 2 = 4; the
  // first buy's limit is the rate itself.

  const SolverTwoBatch: seq<Order> := OrdersFromColumns(Four("BTC"), Four("ETH"), [Buy, Buy, Sell, Sell], [2.0, 6.0, 7.0, 5.0], [4.0, 4.5, 2.1, 3.0])
  const SolverTwoPrices: Prices := map["BTC" := 2.0, "ETH" := 8.0]

  lemma SolverTwoBounds()
    ensures ValidBatch(SolverTwoBatch, SolverTwoPrices)
    ensures forall i :: 0 <= i < |SolverTwoBatch| ==> SolverTwoBatch[i].base in ["BTC"]
    ensures Bounds(SolverTwoBatch, SolverTwoPrices) == [2.0, 6.0, 7.0, 5.0]
  {
    assert SolverTwoBatch == [
      Order("BTC", "ETH", Buy, 2.0, 4.0), Order("BTC", "ETH", Buy, 6.0, 4.5),
      Order("BTC", "ETH", Sell, 7.0, 2.1), Order("BTC", "ETH", Sell, 5.0, 3.0)];
    assert ValidBatch(SolverTwoBatch, SolverTwoPrices);
  }

  lemma SolverTwoExpected()
    ensures PricedBatch(SolverTwoBatch, SolverTwoPrices)
    ensures Feasible(SolverTwoBatch, SolverTwoPrices, [2.0, 6.0, 7.0, 1.0])
    ensures Volume(SolverTwoBatch, SolverTwoPrices, [2.0, 6.0, 7.0, 1.0]) == 32.0
  {
    SolverTwoBounds();
    var expected := [2.0, 6.0, 7.0, 1.0];
    forall t
      ensures SideTotal(SolverTwoBatch, expected, t, Buy) == SideTotal(SolverTwoBatch, expected, t, Sell)
    {
      SideTotalOfFour(SolverTwoBatch, expected, t, Buy);
      SideTotalOfFour(SolverTwoBatch, expected, t, Sell);
    }
    VolumeOfFour(SolverTwoBatch, SolverTwoPrices, expected);
  }

  lemma SolverTwoCaps()
    ensures PricedBatch(SolverTwoBatch, SolverTwoPrices)
    ensures Cap(SolverTwoBatch, SolverTwoPrices, "BTC") == 8.0
    ensures CapSum(SolverTwoBatch, SolverTwoPrices, ["BTC"]) == 32.0
  {
    SolverTwoBounds();
    var u := Bounds(SolverTwoBatch, SolverTwoPrices);
    SideTotalOfFour(SolverTwoBatch, u, "BTC", Buy);
    SideTotalOfFour(SolverTwoBatch, u, "BTC", Sell);
  }

  lemma SolverTwoClosedForm()
    ensures PricedBatch(SolverTwoBatch, SolverTwoPrices)
    ensures OptimalVolume(SolverTwoBatch, SolverTwoPrices) == 32.0
  {
    SolverTwoBounds();
    SolverTwoCaps();
    OptimalVolumeOver(SolverTwoBatch, SolverTwoPrices, ["BTC"]);
  }

  /**
   * The solver accepts the batch and reports the expected volume, and the
   * expected quantities are an optimal admissible execution.
   */
  lemma SolverTwoTest()
    ensures PricedBatch(SolverTwoBatch, SolverTwoPrices)
    ensures SolverTwoBatch[0].limitPrice == Rate(SolverTwoBatch[0], SolverTwoPrices)
    ensures Eligible(SolverTwoBatch[0], SolverTwoPrices)
    ensures CheckPasses(SolverTwoBatch, SolverTwoPrices, 32.0, [2.0, 6.0, 7.0, 1.0])
  {
    SolverTwoBounds();
    SolverTwoExpected();
    SolverTwoClosedForm();
  }

  // ---------------------------------------------------------------------
  // TestRunSolver3.test1: eight orders in two independent groups, BTC/ETH
  // at the rate 6 / 3 = 2 and ETH/BTC at the rate 3 / 6 = 0.5.

  const SolverThreeBatch: seq<Order> := OrdersFromColumns(
      ["BTC", "BTC", "BTC", "BTC", "ETH", "ETH", "ETH", "ETH"],
      ["ETH", "ETH", "ETH", "ETH", "BTC", "BTC", "BTC", "BTC"],
      [Buy, Buy, Sell, Sell, Buy, Buy, Sell, Sell],
      [4.0, 2.0, 5.0, 3.0, 6.0, 2.0, 9.0, 1.0],
      [3.0, 3.5, 1.5, 1.9, 0.6, 2.0, 0.1, 0.25])
  const SolverThreePrices: Prices := map["BTC" := 3.0, "ETH" := 6.0]

  lemma SolverThreeBounds()
    ensures ValidBatch(SolverThreeBatch, SolverThreePrices)
    ensures forall i :: 0 <= i < |SolverThreeBatch| ==> SolverThreeBatch[i].base in ["BTC", "ETH"]
    ensures Bounds(SolverThreeBatch, SolverThreePrices) == [4.0, 2.0, 5.0, 3.0, 6.0, 2.0, 9.0, 1.0]
  {
    assert SolverThreeBatch == [
      Order("BTC", "ETH", Buy, 4.0, 3.0), Order("BTC", "ETH", Buy, 2.0, 3.5),
      Order("BTC", "ETH", Sell, 5.0, 1.5), Order("BTC", "ETH", Sell, 3.0, 1.9),
      Order("ETH", "BTC", Buy, 6.0, 0.6), Order("ETH", "BTC", Buy, 2.0, 2.0),
      Order("ETH", "BTC", Sell, 9.0, 0.1), Order("ETH", "BTC", Sell, 1.0, 0.25)];
    assert ValidBatch(SolverThreeBatch, SolverThreePrices);
  }

  lemma SolverThreeExpected()
    ensures PricedBatch(SolverThreeBatch, SolverThreePrices)
    ensures Feasible(SolverThreeBatch, SolverThreePrices, [4.0, 2.0, 5.0, 1.0, 6.0, 2.0, 8.0, 0.0])
    ensures Volume(SolverThreeBatch, SolverThreePrices, [4.0, 2.0, 5.0, 1.0, 6.0, 2.0, 8.0, 0.0]) == 132.0
  {
    SolverThreeBounds();
    var expected := [4.0, 2.0, 5.0, 1.0, 6.0, 2.0, 8.0, 0.0];
    forall t
      ensures SideTotal(SolverThreeBatch, expected, t, Buy) == SideTotal(SolverThreeBatch, expected, t, Sell)
    {
      SideTotalOfEight(SolverThreeBatch, expected, t, Buy);
      SideTotalOfEight(SolverThreeBatch, expected, t, Sell);
    }
    VolumeOfEight(SolverThreeBatch, SolverThreePrices, expected);
  }

  lemma SolverThreeCaps()
    ensures PricedBatch(SolverThreeBatch, SolverThreePrices)
    ensures Cap(SolverThreeBatch, SolverThreePrices, "BTC") == 6.0
    ensures Cap(SolverThreeBatch, SolverThreePrices, "ETH") == 8.0
    ensures CapSum(SolverThreeBatch, SolverThreePrices, ["BTC", "ETH"]) == 132.0
  {
    SolverThreeBounds();
    var u := Bounds(SolverThreeBatch, SolverThreePrices);
    SideTotalOfEight(SolverThreeBatch, u, "BTC", Buy);
    SideTotalOfEight(SolverThreeBatch, u, "BTC", Sell);
    SideTotalOfEight(SolverThreeBatch, u, "ETH", Buy);
    SideTotalOfEight(SolverThreeBatch, u, "ETH", Sell);
    assert ["BTC", "ETH"][1..] == ["ETH"];
    assert CapSum(SolverThreeBatch, SolverThreePrices, ["ETH"]) == Worth(SolverThreeBatch, SolverThreePrices, "ETH");
  }

  lemma SolverThreeClosedForm()
    ensures PricedBatch(SolverThreeBatch, SolverThreePrices)
    ensures OptimalVolume(SolverThreeBatch, SolverThreePrices) == 132.0
  {
    SolverThreeBounds();
    SolverThreeCaps();
    OptimalVolumeOver(SolverThreeBatch, SolverThreePrices, ["BTC", "ETH"]);
  }

  /**
   * The solver accepts the batch and reports the expected volume, and the
   * expected quantities are an optimal admissible execution.
   */
  lemma SolverThreeTest()
    ensures CheckPasses(SolverThreeBatch, SolverThreePrices, 132.0, [4.0, 2.0, 5.0, 1.0, 6.0, 2.0, 8.0, 0.0])
  {
    SolverThreeBounds();
    SolverThreeExpected();
    SolverThreeClosedForm();
  }

  // ---------------------------------------------------------------------
  // TestRunSolver4.test1: the BTC fixture followed by the ETH fixture, at
  // the rates 8 / 2 = 4 and 2 / 8 = 0.25; every limit is compatible.

  const SolverFourBatch: seq<Order> := BtcOrders([5.0, 5.5, 3.0, 2.0]) + EthOrders([0.3, 0.43, 0.1, 0.2])
  const SolverFourPrices: Prices := map["BTC" := 2.0, "ETH" := 8.0]

  lemma SolverFourBounds()
    ensures ValidBatch(SolverFourBatch, SolverFourPrices)
    ensures forall i :: 0 <= i < |SolverFourBatch| ==> SolverFourBatch[i].base in ["BTC", "ETH"]
    ensures Bounds(SolverFourBatch, SolverFourPrices) == [4.0, 5.0, 6.0, 2.0, 1.0, 9.0, 8.0, 6.0]
  {
    assert ValidBatch(SolverFourBatch, SolverFourPrices);
  }

  lemma SolverFourExpected()
    ensures PricedBatch(SolverFourBatch, SolverFourPrices)
    ensures Feasible(SolverFourBatch, SolverFourPrices, [3.0, 5.0, 6.0, 2.0, 1.0, 9.0, 8.0, 2.0])
    ensures Volume(SolverFourBatch, SolverFourPrices, [3.0, 5.0, 6.0, 2.0, 1.0, 9.0, 8.0, 2.0]) == 192.0
  {
    SolverFourBounds();
    var expected := [3.0, 5.0, 6.0, 2.0, 1.0, 9.0, 8.0, 2.0];
    forall t
      ensures SideTotal(SolverFourBatch, expected, t, Buy) == SideTotal(SolverFourBatch, expected, t, Sell)
    {
      SideTotalOfEight(SolverFourBatch, expected, t, Buy);
      SideTotalOfEight(SolverFourBatch, expected, t, Sell);
    }
    VolumeOfEight(SolverFourBatch, SolverFourPrices, expected);
  }

  lemma SolverFourCaps()
    ensures PricedBatch(SolverFourBatch, SolverFourPrices)
    ensures Cap(SolverFourBatch, SolverFourPrices, "BTC") == 8.0
    ensures Cap(SolverFourBatch, SolverFourPrices, "ETH") == 10.0
    ensures CapSum(SolverFourBatch, SolverFourPrices, ["BTC", "ETH"]) == 192.0
  {
    SolverFourBounds();
    var u := Bounds(SolverFourBatch, SolverFourPrices);
    SideTotalOfEight(SolverFourBatch, u, "BTC", Buy);
    SideTotalOfEight(SolverFourBatch, u, "BTC", Sell);
    SideTotalOfEight(SolverFourBatch, u, "ETH", Buy);
    SideTotalOfEight(SolverFourBatch, u, "ETH", Sell);
    assert ["BTC", "ETH"][1..] == ["ETH"];
    assert CapSum(SolverFourBatch, SolverFourPrices, ["ETH"]) == Worth(SolverFourBatch, SolverFourPrices, "ETH");
  }

  lemma SolverFourClosedForm()
    ensures PricedBatch(SolverFourBatch, SolverFourPrices)
    ensures OptimalVolume(SolverFourBatch, SolverFourPrices) == 192.0
  {
    SolverFourBounds();
    SolverFourCaps();
    OptimalVolumeOver(SolverFourBatch, SolverFourPrices, ["BTC", "ETH"]);
  }

  /**
   * The solver accepts the batch and reports the expected volume, and the
   * expected quantities are an optimal admissible execution.
   */
  lemma SolverFourTest()
    ensures CheckPasses(SolverFourBatch, SolverFourPrices, 192.0, [3.0, 5.0, 6.0, 2.0, 1.0, 9.0, 8.0, 2.0])
  {
    SolverFourBounds();
    SolverFourExpected();
    SolverFourClosedForm();
  }

  // ---------------------------------------------------------------------
  // TestRunSolver4.test2: the BTC fixture with the second buy's limit 2
  // below the rate 4.

  const SolverFourBuyOutBatch: seq<Order> := BtcOrders([5.0, 2.0, 3.0, 2.0])
  const SolverFourBuyOutPrices: Prices := map["BTC" := 2.0, "ETH" := 8.0]

  lemma SolverFourBuyOutBounds()
    ensures ValidBatch(SolverFourBuyOutBatch, SolverFourBuyOutPrices)
    ensures forall i :: 0 <= i < |SolverFourBuyOutBatch| ==> SolverFourBuyOutBatch[i].base in ["BTC"]
    ensures Bounds(SolverFourBuyOutBatch, SolverFourBuyOutPrices) == [4.0, 0.0, 6.0, 2.0]
  {
    assert ValidBatch(SolverFourBuyOutBatch, SolverFourBuyOutPrices);
  }

  lemma SolverFourBuyOutExpected()
    ensures PricedBatch(SolverFourBuyOutBatch, SolverFourBuyOutPrices)
    ensures Feasible(SolverFourBuyOutBatch, SolverFourBuyOutPrices, [4.0, 0.0, 4.0, 0.0])
    ensures Volume(SolverFourBuyOutBatch, SolverFourBuyOutPrices, [4.0, 0.0, 4.0, 0.0]) == 16.0
  {
    SolverFourBuyOutBounds();
    var expected := [4.0, 0.0, 4.0, 0.0];
    forall t
      ensures SideTotal(SolverFourBuyOutBatch, expected, t, Buy) == SideTotal(SolverFourBuyOutBatch, expected, t, Sell)
    {
      SideTotalOfFour(SolverFourBuyOutBatch, expected, t, Buy);
      SideTotalOfFour(SolverFourBuyOutBatch, expected, t, Sell);
    }
    VolumeOfFour(SolverFourBuyOutBatch, SolverFourBuyOutPrices, expected);
  }

  lemma SolverFourBuyOutCaps()
    ensures PricedBatch(SolverFourBuyOutBatch, SolverFourBuyOutPrices)
    ensures Cap(SolverFourBuyOutBatch, SolverFourBuyOutPrices, "BTC") == 4.0
    ensures CapSum(SolverFourBuyOutBatch, SolverFourBuyOutPrices, ["BTC"]) == 16.0
  {
    SolverFourBuyOutBounds();
    var u := Bounds(SolverFourBuyOutBatch, SolverFourBuyOutPrices);
    SideTotalOfFour(SolverFourBuyOutBatch, u, "BTC", Buy);
    SideTotalOfFour(SolverFourBuyOutBatch, u, "BTC", Sell);
  }

  lemma SolverFourBuyOutClosedForm()
    ensures PricedBatch(SolverFourBuyOutBatch, SolverFourBuyOutPrices)
    ensures OptimalVolume(SolverFourBuyOutBatch, SolverFourBuyOutPrices) == 16.0
  {
    SolverFourBuyOutBounds();
    SolverFourBuyOutCaps();
    OptimalVolumeOver(SolverFourBuyOutBatch, SolverFourBuyOutPrices, ["BTC"]);
  }

  /**
   * The solver accepts the batch and reports the expected volume, and the
   * expected quantities are an optimal admissible execution.
   */
  lemma SolverFourBuyOutTest()
    ensures CheckPasses(SolverFourBuyOutBatch, SolverFourBuyOutPrices, 16.0, [4.0, 0.0, 4.0, 0.0])
    ensures PricedBatch(SolverFourBuyOutBatch, SolverFourBuyOutPrices)
    ensures !Eligible(SolverFourBuyOutBatch[1], SolverFourBuyOutPrices)
    ensures forall q :: Feasible(SolverFourBuyOutBatch, SolverFourBuyOutPrices, q) ==> q[1] == 0.0
  {
    SolverFourBuyOutBounds();
    SolverFourBuyOutExpected();
    SolverFourBuyOutClosedForm();
    forall q | Feasible(SolverFourBuyOutBatch, SolverFourBuyOutPrices, q)
      ensures q[1] == 0.0
    {
      IneligibleIdle(SolverFourBuyOutBatch, SolverFourBuyOutPrices, q, 1);
    }
  }

  // ---------------------------------------------------------------------
  // TestRunSolver4.test3: the BTC fixture with the second sell's limit 6
  // above the rate 4.

  const SolverFourSellOutBatch: seq<Order> := BtcOrders([5.0, 5.5, 3.0, 6.0])
  const SolverFourSellOutPrices: Prices := map["BTC" := 2.0, "ETH" := 8.0]

  lemma SolverFourSellOutBounds()
    ensures ValidBatch(SolverFourSellOutBatch, SolverFourSellOutPrices)
    ensures forall i :: 0 <= i < |SolverFourSellOutBatch| ==> SolverFourSellOutBatch[i].base in ["BTC"]
    ensures Bounds(SolverFourSellOutBatch, SolverFourSellOutPrices) == [4.0, 5.0, 6.0, 0.0]
  {
    assert ValidBatch(SolverFourSellOutBatch, SolverFourSellOutPrices);
  }

  lemma SolverFourSellOutExpected()
    ensures PricedBatch(SolverFourSellOutBatch, SolverFourSellOutPrices)
    ensures Feasible(SolverFourSellOutBatch, SolverFourSellOutPrices, [1.0, 5.0, 6.0, 0.0])
    ensures Volume(SolverFourSellOutBatch, SolverFourSellOutPrices, [1.0, 5.0, 6.0, 0.0]) == 24.0
  {
    SolverFourSellOutBounds();
    var expected := [1.0, 5.0, 6.0, 0.0];
    forall t
      ensures SideTotal(SolverFourSellOutBatch, expected, t, Buy) == SideTotal(SolverFourSellOutBatch, expected, t, Sell)
    {
      SideTotalOfFour(SolverFourSellOutBatch, expected, t, Buy);
      SideTotalOfFour(SolverFourSellOutBatch, expected, t, Sell);
    }
    VolumeOfFour(SolverFourSellOutBatch, SolverFourSellOutPrices, expected);
  }

  lemma SolverFourSellOutCaps()
    ensures PricedBatch(SolverFourSellOutBatch, SolverFourSellOutPrices)
    ensures Cap(SolverFourSellOutBatch, SolverFourSellOutPrices, "BTC") == 6.0
    ensures CapSum(SolverFourSellOutBatch, SolverFourSellOutPrices, ["BTC"]) == 24.0
  {
    SolverFourSellOutBounds();
    var u := Bounds(SolverFourSellOutBatch, SolverFourSellOutPrices);
    SideTotalOfFour(SolverFourSellOutBatch, u, "BTC", Buy);
    SideTotalOfFour(SolverFourSellOutBatch, u, "BTC", Sell);
  }

  lemma SolverFourSellOutClosedForm()
    ensures PricedBatch(SolverFourSellOutBatch, SolverFourSellOutPrices)
    ensures OptimalVolume(SolverFourSellOutBatch, SolverFourSellOutPrices) == 24.0
  {
    SolverFourSellOutBounds();
    SolverFourSellOutCaps();
    OptimalVolumeOver(SolverFourSellOutBatch, SolverFourSellOutPrices, ["BTC"]);
  }

  /**
   * The solver accepts the batch and reports the expected volume, and the
   * expected quantities are an optimal admissible execution.
   */
  lemma SolverFourSellOutTest()
    ensures CheckPasses(SolverFourSellOutBatch, SolverFourSellOutPrices, 24.0, [1.0, 5.0, 6.0, 0.0])
    ensures PricedBatch(SolverFourSellOutBatch, SolverFourSellOutPrices)
    ensures !Eligible(SolverFourSellOutBatch[3], SolverFourSellOutPrices)
    ensures forall q :: Feasible(SolverFourSellOutBatch, SolverFourSellOutPrices, q) ==> q[3] == 0.0
  {
    SolverFourSellOutBounds();
    SolverFourSellOutExpected();
    SolverFourSellOutClosedForm();
    forall q | Feasible(SolverFourSellOutBatch, SolverFourSellOutPrices, q)
      ensures q[3] == 0.0
    {
      IneligibleIdle(SolverFourSellOutBatch, SolverFourSellOutPrices, q, 3);
    }
  }
}
