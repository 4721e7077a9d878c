/**
 * The liquidity-position list of an account page: its page count, and the per-row share
 * arithmetic (pool ownership, USD value, token amounts, and the split of accrued fees).
 */
module PositionList {

  import opened Wrappers
  import opened Paging

  datatype Token = Token(symbol: string, derivedETH: real)

  datatype Pair = Pair(totalSupply: real, reserveUSD: real, reserve0: real, reserve1: real,
                       token0: Token, token1: Token)

  /** A user's liquidity-token balance in one pair, with the fees accrued to it (in USD). */
  datatype Position = Position(liquidityTokenBalance: real, pair: Pair, feesSum: real)

  // ---------------------------------------------------------------------------
  // Row arithmetic

  /** The fraction of the pool the position owns. */
  function PoolOwnership(p: Position): (r: real)
    requires p.pair.totalSupply != 0.0
    ensures r * p.pair.totalSupply == p.liquidityTokenBalance
  {
    p.liquidityTokenBalance / p.pair.totalSupply
  }

  /** The position's USD value: its share of the pool's USD reserve. */
  function ValueUSD(p: Position): (r: real)
    requires p.pair.totalSupply != 0.0
    ensures r * p.pair.totalSupply == p.liquidityTokenBalance * p.pair.reserveUSD
  {
    PoolOwnership(p) * p.pair.reserveUSD
  }

  /** The position's amount of token 0: its share of the pool's reserve of that token. */
  function Token0Amount(p: Position): (r: real)
    requires p.pair.totalSupply != 0.0
    ensures r * p.pair.totalSupply == p.liquidityTokenBalance * p.pair.reserve0
  {
    PoolOwnership(p) * p.pair.reserve0
  }

  /** The position's amount of token 1: its share of the pool's reserve of that token. */
  function Token1Amount(p: Position): (r: real)
    requires p.pair.totalSupply != 0.0
    ensures r * p.pair.totalSupply == p.liquidityTokenBalance * p.pair.reserve1
  {
    PoolOwnership(p) * p.pair.reserve1
  }

  /** The position holds the two tokens in the pool's own proportion. */
  lemma HoldingsInPoolProportion(p: Position)
    requires p.pair.totalSupply != 0.0
    ensures Token0Amount(p) * p.pair.reserve1 == Token1Amount(p) * p.pair.reserve0
  {
    var w := PoolOwnership(p);
    calc {
      Token0Amount(p) * p.pair.reserve1;
      (w * p.pair.reserve0) * p.pair.reserve1;
      w * (p.pair.reserve0 * p.pair.reserve1);
      (w * p.pair.reserve1) * p.pair.reserve0;
      Token1Amount(p) * p.pair.reserve0;
    }
  }

  /** A balance within the supply owns at most the whole pool, and so at most its reserves. */
  lemma ShareWithinPool(p: Position)
    requires 0.0 < p.pair.totalSupply
    requires 0.0 <= p.liquidityTokenBalance <= p.pair.totalSupply
    requires 0.0 <= p.pair.reserveUSD && 0.0 <= p.pair.reserve0 && 0.0 <= p.pair.reserve1
    ensures 0.0 <= PoolOwnership(p) <= 1.0
    ensures 0.0 <= ValueUSD(p) <= p.pair.reserveUSD
    ensures 0.0 <= Token0Amount(p) <= p.pair.reserve0
    ensures 0.0 <= Token1Amount(p) <= p.pair.reserve1
  {
    var w := PoolOwnership(p);
    assert 0.0 <= w <= 1.0 by {
      if w > 1.0 {
        assert w * p.pair.totalSupply > p.pair.totalSupply;
      }
    }
    ProductWithinBound(w, p.pair.reserveUSD);
    ProductWithinBound(w, p.pair.reserve0);
    ProductWithinBound(w, p.pair.reserve1);
  }

  lemma ProductWithinBound(w: real, x: real)
    requires 0.0 <= w <= 1.0 && 0.0 <= x
    ensures 0.0 <= w * x <= x
  {
  }

  /** Holding the whole supply is worth the whole pool. */
  lemma FullOwnership(p: Position)
    requires p.pair.totalSupply != 0.0 && p.liquidityTokenBalance == p.pair.totalSupply
    ensures ValueUSD(p) == p.pair.reserveUSD
    ensures Token0Amount(p) == p.pair.reserve0 && Token1Amount(p) == p.pair.reserve1
  {
  }

  /**
   * A token's share of the fees, in units of that token: half the fees converted at the token's
   * ETH price, and 0 when that price is 0.
   */
  function FeeShare(feesSum: real, derivedETH: real, ethPrice: real): (r: real)
    requires derivedETH != 0.0 ==> ethPrice != 0.0
    ensures derivedETH == 0.0 ==> r == 0.0
    ensures derivedETH != 0.0 ==> 2.0 * (r * (derivedETH * ethPrice)) == feesSum
  {
    if derivedETH != 0.0 then feesSum / (derivedETH * ethPrice) / 2.0 else 0.0
  }

  function Token0FeeShare(p: Position, ethPrice: real): real
    requires p.pair.token0.derivedETH != 0.0 ==> ethPrice != 0.0
  {
    FeeShare(p.feesSum, p.pair.token0.derivedETH, ethPrice)
  }

  function Token1FeeShare(p: Position, ethPrice: real): real
    requires p.pair.token1.derivedETH != 0.0 ==> ethPrice != 0.0
  {
    FeeShare(p.feesSum, p.pair.token1.derivedETH, ethPrice)
  }

  /** When both tokens are priced, the two shares are worth the accrued fees between them. */
  lemma FeeSharesAddUpToFees(p: Position, ethPrice: real)
    requires ethPrice != 0.0
    requires p.pair.token0.derivedETH != 0.0 && p.pair.token1.derivedETH != 0.0
    ensures Token0FeeShare(p, ethPrice) * (p.pair.token0.derivedETH * ethPrice)
          + Token1FeeShare(p, ethPrice) * (p.pair.token1.derivedETH * ethPrice) == p.feesSum
  {
    var a := Token0FeeShare(p, ethPrice) * (p.pair.token0.derivedETH * ethPrice);
    var b := Token1FeeShare(p, ethPrice) * (p.pair.token1.derivedETH * ethPrice);
    assert 2.0 * a == p.feesSum && 2.0 * b == p.feesSum;
  }

  /** The Remove action is offered only for a position that owns part of the pool. */
  predicate ShowsRemove(p: Position)
    requires p.pair.totalSupply != 0.0
  {
    PoolOwnership(p) > 0.0
  }

  /** A row is drawn at full opacity when the position owns part of the pool, faded otherwise. */
  function RowOpacity(p: Position): (r: real)
    requires p.pair.totalSupply != 0.0
    ensures r == 1.0 || r == 0.6
    ensures r == 1.0 <==> ShowsRemove(p)
  {
    if PoolOwnership(p) > 0.0 then 1.0 else 0.6
  }

  /** With a positive supply, the Remove action appears exactly for a positive balance. */
  lemma RemoveIffPositiveBalance(p: Position)
    requires p.pair.totalSupply > 0.0
    ensures ShowsRemove(p) <==> p.liquidityTokenBalance > 0.0
  {
    var w := PoolOwnership(p);
    if w > 0.0 {
      assert w * p.pair.totalSupply > 0.0;
    } else {
      assert w * p.pair.totalSupply <= 0.0;
    }
  }

  // ---------------------------------------------------------------------------
  // Pagination

  /** Whole pages plus one for a remainder; a sum of zero (an empty list) falls back to 1. */
  method MaxPageFor(n: nat) returns (maxPage: nat)
    ensures IsPageCount(n, maxPage)
  {
    var extraPages := 1;
    if n % ITEMS_PER_PAGE == 0 {
      extraPages := 0;
    }
    var pages := n / ITEMS_PER_PAGE + extraPages;
    maxPage := if pages == 0 then 1 else pages;
  }

  class Component {
    var positions: Option<seq<Position>>
    var page: nat
    var maxPage: nat

    ghost predicate Valid()
      reads this
    {
      && page >= 1
      && (positions.None? ==> maxPage == 1)
      && (positions.Some? ==> IsPageCount(|positions.value|, maxPage))
    }

    /** Mounting: page and page count start at 1, then the page count is computed. */
    constructor (positions: Option<seq<Position>>)
      ensures Valid() && this.positions == positions && page == 1
    {
      this.positions := positions;
      page, maxPage := 1, 1;
      new;
      CountPages();
    }

    /** The second effect on `positions`: recompute the page count when the list is present. */
    method CountPages()
      requires page >= 1 && maxPage >= 1
      modifies this`maxPage
      ensures positions.None? ==> maxPage == old(maxPage)
      ensures positions.Some? ==> IsPageCount(|positions.value|, maxPage)
    {
      if positions.Some? {
        maxPage := MaxPageFor(|positions.value|);
      }
    }

    /** A new `positions` prop: page and page count are reset to 1, then the page count is recomputed. */
    method SetPositions(p: Option<seq<Position>>)
      requires Valid()
      modifies this
      ensures Valid() && positions == p && page == 1
    {
      positions := p;
      maxPage := 1;
      page := 1;
      CountPages();
    }
  }
}
