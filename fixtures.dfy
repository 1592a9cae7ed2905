/**
 * Construction of the test batches: the column-wise order generator and the
 * two fixed four-order fixtures of the toy-order tests.
 */
module Fixtures {
  import opened Wrappers
  import opened Orders

  /** Raised when a column has no entry at `index`. */
  datatype ColumnError = IndexOutOfRange(index: nat)

  /** Every column has an entry for each base token (longer columns are allowed). */
  predicate ColumnsCover(bases: seq<Token>, quotes: seq<Token>, sides: seq<Side>, quantities: seq<real>, limits: seq<real>)
  {
    |quotes| >= |bases| && |sides| >= |bases| && |quantities| >= |bases| && |limits| >= |bases|
  }

  /** The orders built from the columns: order `i` takes entry `i` of every column. */
  function OrdersFromColumns(bases: seq<Token>, quotes: seq<Token>, sides: seq<Side>, quantities: seq<real>, limits: seq<real>): (r: seq<Order>)
    requires ColumnsCover(bases, quotes, sides, quantities, limits)
    ensures |r| == |bases|
  {
    seq(|bases|, i requires 0 <= i < |bases| && ColumnsCover(bases, quotes, sides, quantities, limits) =>
      Order(bases[i], quotes[i], sides[i], quantities[i], limits[i]))
  }

  /**
   * Build one order per base token, in input order. The loop runs over the
   * base-token column, so a shorter column fails at its length and entries
   * of longer columns beyond it are ignored.
   */
  method GenerateTestOrders(bases: seq<Token>, quotes: seq<Token>, sides: seq<Side>, quantities: seq<real>, limits: seq<real>)
    returns (r: Result<seq<Order>, ColumnError>)
    ensures r.Success? <==> ColumnsCover(bases, quotes, sides, quantities, limits)
    ensures r.Success? ==> |r.value| == |bases|
    ensures r.Success? ==> forall i :: 0 <= i < |bases| ==>
      r.value[i] == Order(bases[i], quotes[i], sides[i], quantities[i], limits[i])
    ensures r.Success? ==> r.value == OrdersFromColumns(bases, quotes, sides, quantities, limits)
    ensures r.Failure? ==>
      && r.error.index < |bases|
      && r.error.index <= |quotes| && r.error.index <= |sides|
      && r.error.index <= |quantities| && r.error.index <= |limits|
      && r.error.index in {|quotes|, |sides|, |quantities|, |limits|}
  {
    var orders: seq<Order> := [];
    var i := 0;
    while i < |bases|
      invariant i <= |bases|
      invariant i <= |quotes| && i <= |sides| && i <= |quantities| && i <= |limits|
      invariant |orders| == i
      invariant forall j :: 0 <= j < i ==> orders[j] == Order(bases[j], quotes[j], sides[j], quantities[j], limits[j])
    {
      if i == |quotes| || i == |sides| || i == |quantities| || i == |limits| {
        return Failure(IndexOutOfRange(i));
      }
      orders := orders + [Order(bases[i], quotes[i], sides[i], quantities[i], limits[i])];
      i := i + 1;
    }
    return Success(orders);
  }

  /** Four copies of one token symbol, one per fixture order. */
  function Four(t: Token): seq<Token>
  {
    [t, t, t, t]
  }

  /**
   * Toy BTC/ETH orders: buys of 4 and 5 BTC, sells of 6 and 2 BTC, with the
   * given limits; the same batch the column generator builds.
   */
  function BtcOrders(limits: seq<real>): (r: seq<Order>)
    requires |limits| == 4
    ensures r == OrdersFromColumns(Four("BTC"), Four("ETH"), [Buy, Buy, Sell, Sell], [4.0, 5.0, 6.0, 2.0], limits)
  {
    [ Order("BTC", "ETH", Buy, 4.0, limits[0]),
      Order("BTC", "ETH", Buy, 5.0, limits[1]),
      Order("BTC", "ETH", Sell, 6.0, limits[2]),
      Order("BTC", "ETH", Sell, 2.0, limits[3]) ]
  }

  /**
   * Toy ETH/BTC orders: buys of 1 and 9 ETH, sells of 8 and 6 ETH, with the
   * given limits; the same batch the column generator builds.
   */
  function EthOrders(limits: seq<real>): (r: seq<Order>)
    requires |limits| == 4
    ensures r == OrdersFromColumns(Four("ETH"), Four("BTC"), [Buy, Buy, Sell, Sell], [1.0, 9.0, 8.0, 6.0], limits)
  {
    [ Order("ETH", "BTC", Buy, 1.0, limits[0]),
      Order("ETH", "BTC", Buy, 9.0, limits[1]),
      Order("ETH", "BTC", Sell, 8.0, limits[2]),
      Order("ETH", "BTC", Sell, 6.0, limits[3]) ]
  }
}
