/**
 * The transaction list of a pair or token page: raw subgraph mints, burns and swaps are
 * normalised into uniform records, filtered by type, counted into pages, sorted on a
 * numeric column and cut into ten-item pages.
 */
module TxnList {

  import opened Wrappers
  import opened Text
  import opened Paging

  // The values of TXN_TYPE: the record types and the filter choices.
  const ALL: string := "All"
  const SWAPS: string := "Swaps"
  const ADDS: string := "Adds"
  const REMOVES: string := "Removes"

  /** A pair as the list sees it: the token symbols after the (foreign) name override. */
  datatype Pair = Pair(token0Symbol: string, token1Symbol: string)

  datatype Mint = Mint(txId: string, timestamp: int, pair: Pair, to: string,
                       amount0: real, amount1: real, amountUSD: real)

  datatype Burn = Burn(txId: string, timestamp: int, pair: Pair, sender: string,
                       amount0: real, amount1: real, amountUSD: real)

  datatype Swap = Swap(txId: string, timestamp: int, pair: Pair, to: string,
                       amount0In: real, amount0Out: real, amount1In: real, amount1Out: real,
                       amountUSD: real)

  /** The `transactions` prop: each of the three event lists may be missing. */
  datatype Transactions = Transactions(mints: Option<seq<Mint>>, burns: Option<seq<Burn>>,
                                       swaps: Option<seq<Swap>>)

  /** A normalised record; the amounts and symbols of a swap stay unset when neither net is negative. */
  datatype Txn = Txn(hash: string, timestamp: int, kind: string,
                     token0Amount: Option<real>, token1Amount: Option<real>, account: string,
                     token0Symbol: Option<string>, token1Symbol: Option<string>, amountUSD: real)

  // ---------------------------------------------------------------------------
  // Labels

  /** A symbol longer than 8 characters is cut to its first 7 followed by "...". */
  function FormatSymbol(s: string): string
  {
    if |s| > 8 then s[..7] + "..." else s
  }

  lemma FormatSymbolShape(s: string)
    ensures |FormatSymbol(s)| <= 10
    ensures |s| <= 8 ==> FormatSymbol(s) == s
    ensures |s| > 8 ==> |FormatSymbol(s)| == 10 && StartsWith(FormatSymbol(s), s[..7])
                        && FormatSymbol(s)[7..] == "..."
  {
  }

  /** Formatting a formatted symbol changes nothing. */
  lemma FormatSymbolIdempotent(s: string)
    ensures FormatSymbol(FormatSymbol(s)) == FormatSymbol(s)
  {
    if |s| > 8 {
      var f := s[..7] + "...";
      assert f[..7] == s[..7];
    }
  }

  /** An unset symbol is concatenated as the text "undefined". */
  function SymbolText(symbol: Option<string>): string
  {
    match symbol
    case None => "undefined"
    case Some(s) => FormatSymbol(s)
  }

  /** `getTransactionType`: the label of a record of the given type. */
  function TransactionType(event: string, symbol0: Option<string>, symbol1: Option<string>): (r: string)
    ensures r == "" <==> event != ADDS && event != REMOVES && event != SWAPS
    ensures StartsWith(r, "Add ") <==> event == ADDS
    ensures StartsWith(r, "Remove ") <==> event == REMOVES
    ensures StartsWith(r, "Swap ") <==> event == SWAPS
    ensures event == ADDS ==> r == "Add " + SymbolText(symbol0) + " and " + SymbolText(symbol1)
    ensures event == REMOVES ==> r == "Remove " + SymbolText(symbol0) + " and " + SymbolText(symbol1)
    ensures event == SWAPS ==> r == "Swap " + SymbolText(symbol0) + " for " + SymbolText(symbol1)
  {
    var s0 := SymbolText(symbol0);
    var s1 := SymbolText(symbol1);
    if event == ADDS then
      var r := "Add " + s0 + " and " + s1;
      assert r[0] == 'A' && r[..4] == "Add ";
      r
    else if event == REMOVES then
      var r := "Remove " + s0 + " and " + s1;
      assert r[0] == 'R' && r[..7] == "Remove ";
      r
    else if event == SWAPS then
      var r := "Swap " + s0 + " for " + s1;
      assert r[0] == 'S' && r[..5] == "Swap ";
      r
    else ""
  }

  /** Two non-empty labels that are equal come from the same record type. */
  lemma LabelDeterminesType(e1: string, e2: string, a1: Option<string>, b1: Option<string>,
                            a2: Option<string>, b2: Option<string>)
    requires TransactionType(e1, a1, b1) == TransactionType(e2, a2, b2) != ""
    ensures e1 == e2
  {
  }

  /** The row label: the record's symbols are passed in the order token1, token0. */
  function RowLabel(t: Txn): string
  {
    TransactionType(t.kind, t.token1Symbol, t.token0Symbol)
  }

  // ---------------------------------------------------------------------------
  // Normalisation

  function Abs(x: real): real
  {
    if x < 0.0 then -x else x
  }

  function MintTxn(m: Mint): Txn
  {
    Txn(m.txId, m.timestamp, ADDS, Some(m.amount0), Some(m.amount1), m.to,
        Some(m.pair.token0Symbol), Some(m.pair.token1Symbol), m.amountUSD)
  }

  function BurnTxn(b: Burn): Txn
  {
    Txn(b.txId, b.timestamp, REMOVES, Some(b.amount0), Some(b.amount1), b.sender,
        Some(b.pair.token0Symbol), Some(b.pair.token1Symbol), b.amountUSD)
  }

  function NetToken0(s: Swap): real { s.amount0In - s.amount0Out }

  function NetToken1(s: Swap): real { s.amount1In - s.amount1Out }

  /**
   * A swap is oriented by net token flow: when token 0 leaves the pool (negative net) the pair's
   * order is kept; otherwise, when token 1 leaves it, the order is reversed; otherwise the
   * symbols and amounts stay unset.
   */
  function SwapTxn(s: Swap): Txn
  {
    var net0 := NetToken0(s);
    var net1 := NetToken1(s);
    var t := Txn(s.txId, s.timestamp, SWAPS, None, None, s.to, None, None, s.amountUSD);
    if net0 < 0.0 then
      t.(token0Symbol := Some(s.pair.token0Symbol), token1Symbol := Some(s.pair.token1Symbol),
         token0Amount := Some(Abs(net0)), token1Amount := Some(Abs(net1)))
    else if net1 < 0.0 then
      t.(token0Symbol := Some(s.pair.token1Symbol), token1Symbol := Some(s.pair.token0Symbol),
         token0Amount := Some(Abs(net1)), token1Amount := Some(Abs(net0)))
    else t
  }

  /**
   * The record's token 0 is a token the pool paid out, with the amount it paid out; token 1 is
   * the other token with the size of its net flow. Nothing is set when no token left the pool.
   */
  lemma SwapOrientation(s: Swap)
    ensures var t := SwapTxn(s);
      && (t.token0Amount.Some? <==> NetToken0(s) < 0.0 || NetToken1(s) < 0.0)
      && t.token0Amount.Some? == t.token1Amount.Some? == t.token0Symbol.Some? == t.token1Symbol.Some?
      && (t.token0Amount.Some? ==> t.token0Amount.value > 0.0 && t.token1Amount.value >= 0.0)
      && (NetToken0(s) < 0.0 ==>
            t.token0Symbol == Some(s.pair.token0Symbol) && t.token0Amount == Some(-NetToken0(s))
            && t.token1Symbol == Some(s.pair.token1Symbol) && t.token1Amount == Some(Abs(NetToken1(s))))
      && (NetToken0(s) >= 0.0 && NetToken1(s) < 0.0 ==>
            t.token0Symbol == Some(s.pair.token1Symbol) && t.token0Amount == Some(-NetToken1(s))
            && t.token1Symbol == Some(s.pair.token0Symbol) && t.token1Amount == Some(NetToken0(s)))
      && t.kind == SWAPS && t.account == s.to && t.hash == s.txId && t.amountUSD == s.amountUSD
      && t.timestamp == s.timestamp
  {
  }

  /** The row label of a swap reads "Swap <token the pool received> for <token it paid out>". */
  lemma SwapLabel(s: Swap)
    ensures NetToken0(s) < 0.0 ==>
      RowLabel(SwapTxn(s)) == "Swap " + FormatSymbol(s.pair.token1Symbol) + " for " + FormatSymbol(s.pair.token0Symbol)
    ensures NetToken0(s) >= 0.0 && NetToken1(s) < 0.0 ==>
      RowLabel(SwapTxn(s)) == "Swap " + FormatSymbol(s.pair.token0Symbol) + " for " + FormatSymbol(s.pair.token1Symbol)
    ensures NetToken0(s) >= 0.0 && NetToken1(s) >= 0.0 ==>
      RowLabel(SwapTxn(s)) == "Swap undefined for undefined"
  {
    var t := SwapTxn(s);
    assert RowLabel(t) == "Swap " + SymbolText(t.token1Symbol) + " for " + SymbolText(t.token0Symbol);
    if NetToken0(s) < 0.0 {
      assert SymbolText(t.token1Symbol) == FormatSymbol(s.pair.token1Symbol);
      assert SymbolText(t.token0Symbol) == FormatSymbol(s.pair.token0Symbol);
    } else if NetToken1(s) < 0.0 {
      assert SymbolText(t.token1Symbol) == FormatSymbol(s.pair.token0Symbol);
      assert SymbolText(t.token0Symbol) == FormatSymbol(s.pair.token1Symbol);
    } else {
      assert SymbolText(t.token1Symbol) == "undefined" && SymbolText(t.token0Symbol) == "undefined";
    }
  }

  /** The row label of a mint names the pair's token 1 first, then token 0. */
  lemma MintLabel(m: Mint)
    ensures RowLabel(MintTxn(m))
            == "Add " + FormatSymbol(m.pair.token1Symbol) + " and " + FormatSymbol(m.pair.token0Symbol)
  {
  }

  /** The row label of a burn names the pair's token 1 first, then token 0. */
  lemma BurnLabel(b: Burn)
    ensures RowLabel(BurnTxn(b))
            == "Remove " + FormatSymbol(b.pair.token1Symbol) + " and " + FormatSymbol(b.pair.token0Symbol)
  {
  }

  /** 0 in and 10 out of token 0, 5 in and 0 out of token 1: token 0 (10) and token 1 (5). */
  lemma SwapExample(pair: Pair)
    ensures var t := SwapTxn(Swap("0xabc", 0, pair, "0xdef", 0.0, 10.0, 5.0, 0.0, 20.0));
      t.token0Symbol == Some(pair.token0Symbol) && t.token0Amount == Some(10.0)
      && t.token1Symbol == Some(pair.token1Symbol) && t.token1Amount == Some(5.0)
  {
  }

  function MintTxns(mints: seq<Mint>): seq<Txn>
  {
    seq(|mints|, i requires 0 <= i < |mints| => MintTxn(mints[i]))
  }

  function BurnTxns(burns: seq<Burn>): seq<Txn>
  {
    seq(|burns|, i requires 0 <= i < |burns| => BurnTxn(burns[i]))
  }

  function SwapTxns(swaps: seq<Swap>): seq<Txn>
  {
    seq(|swaps|, i requires 0 <= i < |swaps| => SwapTxn(swaps[i]))
  }

  /** All mints, then all burns, then all swaps, each group in input order. */
  function Normalized(mints: seq<Mint>, burns: seq<Burn>, swaps: seq<Swap>): seq<Txn>
  {
    MintTxns(mints) + BurnTxns(burns) + SwapTxns(swaps)
  }

  /** The result of the parse effect: nothing unless all three lists are present. */
  function Parsed(transactions: Option<Transactions>): Option<seq<Txn>>
  {
    match transactions
    case Some(Transactions(Some(m), Some(b), Some(s))) => Some(Normalized(m, b, s))
    case _ => None
  }

  /**
   * The parse loop: each list is walked in order and one record is pushed per event.
   */
  method ParseTransactions(transactions: Option<Transactions>) returns (r: Option<seq<Txn>>)
    ensures r.Some? <==> transactions.Some? && transactions.value.mints.Some?
                         && transactions.value.burns.Some? && transactions.value.swaps.Some?
    ensures r == Parsed(transactions)
  {
    if transactions.None? || transactions.value.mints.None? || transactions.value.burns.None?
       || transactions.value.swaps.None? {
      return None;
    }
    var mints := transactions.value.mints.value;
    var burns := transactions.value.burns.value;
    var swaps := transactions.value.swaps.value;
    var newTxns: seq<Txn> := [];
    if |mints| > 0 {
      var i := 0;
      while i < |mints|
        invariant 0 <= i <= |mints|
        invariant newTxns == MintTxns(mints[..i])
      {
        newTxns := newTxns + [MintTxn(mints[i])];
        i := i + 1;
      }
      assert mints[..i] == mints;
    }
    assert newTxns == MintTxns(mints);
    if |burns| > 0 {
      var i := 0;
      while i < |burns|
        invariant 0 <= i <= |burns|
        invariant newTxns == MintTxns(mints) + BurnTxns(burns[..i])
      {
        newTxns := newTxns + [BurnTxn(burns[i])];
        i := i + 1;
      }
      assert burns[..i] == burns;
    }
    assert newTxns == MintTxns(mints) + BurnTxns(burns);
    if |swaps| > 0 {
      var i := 0;
      while i < |swaps|
        invariant 0 <= i <= |swaps|
        invariant newTxns == MintTxns(mints) + BurnTxns(burns) + SwapTxns(swaps[..i])
      {
        newTxns := newTxns + [SwapTxn(swaps[i])];
        i := i + 1;
      }
      assert swaps[..i] == swaps;
    }
    assert newTxns == Normalized(mints, burns, swaps);
    r := Some(newTxns);
  }

  /** One record per event, and each record is built from the event at the same place in its group. */
  lemma NormalizedLayout(mints: seq<Mint>, burns: seq<Burn>, swaps: seq<Swap>)
    ensures var r := Normalized(mints, burns, swaps);
      && |r| == |mints| + |burns| + |swaps|
      && (forall i :: 0 <= i < |mints| ==>
            r[i] == MintTxn(mints[i])
            && r[i].hash == mints[i].txId && r[i].timestamp == mints[i].timestamp
            && r[i].kind == ADDS && r[i].account == mints[i].to && r[i].amountUSD == mints[i].amountUSD
            && r[i].token0Amount == Some(mints[i].amount0) && r[i].token1Amount == Some(mints[i].amount1)
            && r[i].token0Symbol == Some(mints[i].pair.token0Symbol)
            && r[i].token1Symbol == Some(mints[i].pair.token1Symbol))
      && (forall i :: 0 <= i < |burns| ==>
            r[|mints| + i] == BurnTxn(burns[i])
            && r[|mints| + i].hash == burns[i].txId && r[|mints| + i].timestamp == burns[i].timestamp
            && r[|mints| + i].kind == REMOVES && r[|mints| + i].account == burns[i].sender
            && r[|mints| + i].amountUSD == burns[i].amountUSD
            && r[|mints| + i].token0Amount == Some(burns[i].amount0)
            && r[|mints| + i].token1Amount == Some(burns[i].amount1)
            && r[|mints| + i].token0Symbol == Some(burns[i].pair.token0Symbol)
            && r[|mints| + i].token1Symbol == Some(burns[i].pair.token1Symbol))
      && (forall i :: 0 <= i < |swaps| ==>
            r[|mints| + |burns| + i] == SwapTxn(swaps[i]) && r[|mints| + |burns| + i].kind == SWAPS)
  {
  }

  // ---------------------------------------------------------------------------
  // Type filter

  /** The filter's test: every record passes "All"; otherwise only records of that type. */
  predicate Keep(item: Txn, txFilter: string)
  {
    if txFilter != ALL then item.kind == txFilter else true
  }

  function FilterByType(txns: seq<Txn>, txFilter: string): (r: seq<Txn>)
    ensures |r| <= |txns|
    ensures forall x :: x in r ==> x in txns && Keep(x, txFilter)
  {
    if txns == [] then []
    else (if Keep(txns[0], txFilter) then [txns[0]] else []) + FilterByType(txns[1..], txFilter)
  }

  /** A record is kept exactly when it is in the input and passes the filter. */
  lemma {:induction false} FilterMembership(txns: seq<Txn>, txFilter: string, x: Txn)
    ensures x in FilterByType(txns, txFilter) <==> x in txns && Keep(x, txFilter)
  {
    if txns != [] {
      FilterMembership(txns[1..], txFilter, x);
      assert txns == [txns[0]] + txns[1..];
    }
  }

  /** Filtering keeps relative order: it distributes over concatenation. */
  lemma {:induction false} FilterAppend(a: seq<Txn>, b: seq<Txn>, txFilter: string)
    ensures FilterByType(a + b, txFilter) == FilterByType(a, txFilter) + FilterByType(b, txFilter)
  {
    if a == [] {
      assert a + b == b;
    } else {
      var head := if Keep(a[0], txFilter) then [a[0]] else [];
      assert (a + b)[0] == a[0] && (a + b)[1..] == a[1..] + b;
      calc {
        FilterByType(a + b, txFilter);
        head + FilterByType(a[1..] + b, txFilter);
        { FilterAppend(a[1..], b, txFilter); }
        head + (FilterByType(a[1..], txFilter) + FilterByType(b, txFilter));
        (head + FilterByType(a[1..], txFilter)) + FilterByType(b, txFilter);
        FilterByType(a, txFilter) + FilterByType(b, txFilter);
      }
    }
  }

  /** The filter "All" keeps every record in place. */
  lemma {:induction false} FilterAllKeepsEverything(txns: seq<Txn>)
    ensures FilterByType(txns, ALL) == txns
  {
    if txns != [] {
      FilterAllKeepsEverything(txns[1..]);
    }
  }

  /** A list whose records all pass the filter is kept whole; one where none does is emptied. */
  lemma {:induction false} FilterUniform(txns: seq<Txn>, txFilter: string)
    ensures (forall i :: 0 <= i < |txns| ==> Keep(txns[i], txFilter)) ==> FilterByType(txns, txFilter) == txns
    ensures (forall i :: 0 <= i < |txns| ==> !Keep(txns[i], txFilter)) ==> FilterByType(txns, txFilter) == []
  {
    if txns != [] {
      FilterUniform(txns[1..], txFilter);
    }
  }

  /** Filtering twice by the same type is filtering once. */
  lemma {:induction false} FilterIdempotent(txns: seq<Txn>, txFilter: string)
    ensures FilterByType(FilterByType(txns, txFilter), txFilter) == FilterByType(txns, txFilter)
  {
    var r := FilterByType(txns, txFilter);
    FilterUniform(r, txFilter);
  }

  ghost predicate AllOfKind(txns: seq<Txn>, kind: string)
  {
    forall i :: 0 <= i < |txns| ==> txns[i].kind == kind
  }

  /** Filtering a list of one type by a type keeps it whole or empties it. */
  lemma FilterOneKind(txns: seq<Txn>, kind: string, txFilter: string)
    requires AllOfKind(txns, kind) && txFilter != ALL
    ensures FilterByType(txns, txFilter) == if kind == txFilter then txns else []
  {
    FilterUniform(txns, txFilter);
  }

  lemma FilterThree(m: seq<Txn>, b: seq<Txn>, s: seq<Txn>, txFilter: string)
    ensures FilterByType(m + b + s, txFilter)
            == FilterByType(m, txFilter) + FilterByType(b, txFilter) + FilterByType(s, txFilter)
  {
    FilterAppend(m + b, s, txFilter);
    FilterAppend(m, b, txFilter);
  }

  /** Filtering mints, burns and swaps laid end to end by one type keeps that type's group only. */
  lemma FilterSelectsGroup(m: seq<Txn>, b: seq<Txn>, s: seq<Txn>, txFilter: string)
    requires AllOfKind(m, ADDS) && AllOfKind(b, REMOVES) && AllOfKind(s, SWAPS) && txFilter != ALL
    ensures FilterByType(m + b + s, txFilter)
            == (if txFilter == ADDS then m else []) + (if txFilter == REMOVES then b else [])
               + (if txFilter == SWAPS then s else [])
  {
    FilterThree(m, b, s, txFilter);
    FilterOneKind(m, ADDS, txFilter);
    FilterOneKind(b, REMOVES, txFilter);
    FilterOneKind(s, SWAPS, txFilter);
  }

  /** Filtering the parsed list by a type gives back exactly the records built from that event list. */
  lemma FilterRecoversEvents(mints: seq<Mint>, burns: seq<Burn>, swaps: seq<Swap>)
    ensures FilterByType(Normalized(mints, burns, swaps), ADDS) == MintTxns(mints)
    ensures FilterByType(Normalized(mints, burns, swaps), REMOVES) == BurnTxns(burns)
    ensures FilterByType(Normalized(mints, burns, swaps), SWAPS) == SwapTxns(swaps)
  {
    var m, b, s := MintTxns(mints), BurnTxns(burns), SwapTxns(swaps);
    assert AllOfKind(m, ADDS) && AllOfKind(b, REMOVES) && AllOfKind(s, SWAPS);
    FilterSelectsGroup(m, b, s, ADDS);
    assert m + [] + [] == m;
    FilterSelectsGroup(m, b, s, REMOVES);
    assert [] + b + [] == b;
    FilterSelectsGroup(m, b, s, SWAPS);
    assert [] + [] + s == s;
  }

  // ---------------------------------------------------------------------------
  // Page count

  /** The page count of the filtered list, computed with the `extraPages` adjustment. */
  method MaxPageFor(n: nat) returns (maxPage: nat)
    ensures IsPageCount(n, maxPage)
  {
    var extraPages := 1;
    if n % ITEMS_PER_PAGE == 0 {
      extraPages := 0;
    }
    if n == 0 {
      maxPage := 1;
    } else {
      maxPage := n / ITEMS_PER_PAGE + extraPages;
    }
  }

  // ---------------------------------------------------------------------------
  // Sorting

  /** The columns a list can be sorted on (SORT_FIELD). */
  datatype SortField = AmountUSD | Token0Amount | Token1Amount | Timestamp

  function AmountOrZero(a: Option<real>): real
  {
    match a
    case None => 0.0
    case Some(v) => v
  }

  /** The numeric value of a record's column. */
  function SortKey(t: Txn, field: SortField): real
  {
    match field
    case AmountUSD => t.amountUSD
    case Token0Amount => AmountOrZero(t.token0Amount)
    case Token1Amount => AmountOrZero(t.token1Amount)
    case Timestamp => t.timestamp as real
  }

  /** The position a record's key gives it: larger keys come first when the direction flag is set. */
  function Rank(t: Txn, field: SortField, descending: bool): real
  {
    if descending then -SortKey(t, field) else SortKey(t, field)
  }

  ghost predicate SortedBy(s: seq<Txn>, field: SortField, descending: bool)
  {
    forall i, j :: 0 <= i < j < |s| ==> Rank(s[i], field, descending) <= Rank(s[j], field, descending)
  }

  /**
   * The comparator as written: it answers -1 or 1 and never 0, so for two records with equal keys
   * it gives the same answer in both argument orders.
   */
  function SourceComparator(a: Txn, b: Txn, field: SortField, sortDirection: bool): (r: int)
    ensures r == 1 || r == -1
    ensures sortDirection ==> (r == -1 <==> SortKey(a, field) > SortKey(b, field))
    ensures !sortDirection ==> (r == 1 <==> SortKey(a, field) > SortKey(b, field))
  {
    var sign := if sortDirection then -1 else 1;
    if SortKey(a, field) > SortKey(b, field) then sign * 1 else sign * -1
  }

  /**
   * Two records with the same key: the answer is the same in both argument orders, so each is
   * reported as sorting after the other when descending and before the other when ascending.
   */
  lemma SourceComparatorInconsistentOnTies(a: Txn, b: Txn, field: SortField, sortDirection: bool)
    requires SortKey(a, field) == SortKey(b, field)
    ensures SourceComparator(a, b, field, sortDirection) == SourceComparator(b, a, field, sortDirection)
  {
  }

  /** Two swaps in the same block, sorted newest first: the comparator puts each after the other. */
  lemma SourceComparatorTieExample(pair: Pair)
    ensures var a := SwapTxn(Swap("0xa", 1600000000, pair, "0x1", 0.0, 1.0, 2.0, 0.0, 3.0));
            var b := SwapTxn(Swap("0xb", 1600000000, pair, "0x2", 0.0, 4.0, 8.0, 0.0, 9.0));
            SourceComparator(a, b, Timestamp, true) == 1 && SourceComparator(b, a, Timestamp, true) == 1
  {
  }

  /** A consistent comparator on the same column and direction: it answers 0 for equal keys. */
  function Compare(a: Txn, b: Txn, field: SortField, descending: bool): (r: int)
    ensures r < 0 <==> Rank(a, field, descending) < Rank(b, field, descending)
    ensures r == 0 <==> Rank(a, field, descending) == Rank(b, field, descending)
  {
    var x, y := Rank(a, field, descending), Rank(b, field, descending);
    if x < y then -1 else if x > y then 1 else 0
  }

  /** Swapping the arguments of the corrected comparator negates its answer. */
  lemma CompareAntisymmetric(a: Txn, b: Txn, field: SortField, descending: bool)
    ensures Compare(a, b, field, descending) == -Compare(b, a, field, descending)
  {
  }

  /** The corrected comparator agrees with the one as written wherever the keys differ. */
  lemma CompareAgreesOffTies(a: Txn, b: Txn, field: SortField, descending: bool)
    requires SortKey(a, field) != SortKey(b, field)
    ensures Compare(a, b, field, descending) == SourceComparator(a, b, field, descending)
  {
  }

  /** In a sorted list, key order follows the direction flag. */
  lemma SortedDirection(s: seq<Txn>, field: SortField, descending: bool, i: int, j: int)
    requires SortedBy(s, field, descending) && 0 <= i < j < |s|
    ensures descending ==> SortKey(s[i], field) >= SortKey(s[j], field)
    ensures !descending ==> SortKey(s[i], field) <= SortKey(s[j], field)
  {
  }

  /** The first n records are in order. */
  ghost predicate SortedPrefix(s: seq<Txn>, n: int, field: SortField, descending: bool)
    requires 0 <= n <= |s|
  {
    forall p, q :: 0 <= p < q < n ==> Rank(s[p], field, descending) <= Rank(s[q], field, descending)
  }

  /**
   * Midway through inserting s[j] into s[..i + 1]: apart from s[j] the records up to i are in order,
   * and s[j] is ranked no higher than any record after it.
   */
  ghost predicate Inserting(s: seq<Txn>, i: int, j: int, field: SortField, descending: bool)
    requires 0 <= j <= i < |s|
  {
    && (forall p, q :: 0 <= p < q <= i && p != j && q != j ==>
          Rank(s[p], field, descending) <= Rank(s[q], field, descending))
    && (forall q :: j < q <= i ==> Rank(s[j], field, descending) <= Rank(s[q], field, descending))
  }

  lemma InsertStart(s: seq<Txn>, i: int, field: SortField, descending: bool)
    requires 0 <= i < |s| && SortedPrefix(s, i, field, descending)
    ensures Inserting(s, i, i, field, descending)
  {
  }

  /** Moving the record being inserted one place down keeps the insertion invariant. */
  lemma InsertStep(s: seq<Txn>, i: int, j: int, field: SortField, descending: bool)
    requires 0 < j <= i < |s| && Inserting(s, i, j, field, descending)
    requires Rank(s[j - 1], field, descending) > Rank(s[j], field, descending)
    ensures Inserting(s[j - 1 := s[j]][j := s[j - 1]], i, j - 1, field, descending)
  {
  }

  /** Once the record before it ranks no higher, the insertion is done. */
  lemma InsertDone(s: seq<Txn>, i: int, j: int, field: SortField, descending: bool)
    requires 0 <= j <= i < |s| && Inserting(s, i, j, field, descending)
    requires j == 0 || Rank(s[j - 1], field, descending) <= Rank(s[j], field, descending)
    ensures SortedPrefix(s, i + 1, field, descending)
  {
  }

  /**
   * `filteredItems.sort(...)`: reorders the array in place by the column in the chosen direction,
   * with the corrected comparator `Compare`.
   */
  method SortByKey(a: array<Txn>, field: SortField, descending: bool)
    modifies a
    ensures SortedBy(a[..], field, descending)
    ensures multiset(a[..]) == old(multiset(a[..]))
  {
    var i := 0;
    while i < a.Length
      invariant 0 <= i <= a.Length
      invariant SortedPrefix(a[..], i, field, descending)
      invariant multiset(a[..]) == old(multiset(a[..]))
    {
      InsertAt(a, i, field, descending);
      i := i + 1;
    }
  }

  /** One insertion step: a[i] moves down past every record of higher rank in the sorted a[..i]. */
  method InsertAt(a: array<Txn>, i: nat, field: SortField, descending: bool)
    requires i < a.Length && SortedPrefix(a[..], i, field, descending)
    modifies a
    ensures SortedPrefix(a[..], i + 1, field, descending)
    ensures multiset(a[..]) == old(multiset(a[..]))
  {
    InsertStart(a[..], i, field, descending);
    var j := i;
    while j > 0 && Compare(a[j - 1], a[j], field, descending) > 0
      invariant 0 <= j <= i
      invariant Inserting(a[..], i, j, field, descending)
      invariant multiset(a[..]) == old(multiset(a[..]))
    {
      InsertStep(a[..], i, j, field, descending);
      SwapWithPrevious(a, j);
      j := j - 1;
    }
    InsertDone(a[..], i, j, field, descending);
  }

  method SwapWithPrevious(a: array<Txn>, j: nat)
    requires 0 < j < a.Length
    modifies a
    ensures a[..] == old(a[..])[j - 1 := old(a[j])][j := old(a[j - 1])]
    ensures multiset(a[..]) == old(multiset(a[..]))
  {
    a[j - 1], a[j] := a[j], a[j - 1];
  }

  // ---------------------------------------------------------------------------
  // The component's state

  class Component {
    var transactions: Option<Transactions>
    var page: nat
    var maxPage: nat
    var sortDirection: bool
    var sortedColumn: SortField
    var filteredItems: array?<Txn>
    var txFilter: string

    ghost predicate Valid()
      reads this
    {
      page >= 1 && maxPage >= 1
    }

    /** Mounting: the initial state, then every effect once in declaration order. */
    constructor (transactions: Option<Transactions>)
      ensures Valid()
      ensures this.transactions == transactions && page == 1 && txFilter == ALL
      ensures sortDirection && sortedColumn == Timestamp
      ensures Parsed(transactions).None? ==> filteredItems == null && maxPage == 1
      ensures Parsed(transactions).Some? ==>
                filteredItems != null && fresh(filteredItems)
                && filteredItems[..] == Parsed(transactions).value
                && IsPageCount(filteredItems.Length, maxPage)
    {
      this.transactions := transactions;
      page, maxPage := 1, 1;
      sortDirection, sortedColumn := true, Timestamp;
      filteredItems := null;
      txFilter := ALL;
      new;
      ParseEffect();
      if Parsed(transactions).Some? {
        FilterAllKeepsEverything(Parsed(transactions).value);
      }
      page := 1;
    }

    /** The parse effect: build, filter and count the records when all three lists are present. */
    method ParseEffect()
      requires Valid()
      modifies this
      ensures Valid()
      ensures transactions == old(transactions) && txFilter == old(txFilter) && page == old(page)
      ensures sortDirection == old(sortDirection) && sortedColumn == old(sortedColumn)
      ensures Parsed(transactions).None? ==>
                filteredItems == old(filteredItems) && maxPage == old(maxPage)
      ensures Parsed(transactions).Some? ==>
                filteredItems != null && fresh(filteredItems)
                && filteredItems[..] == FilterByType(Parsed(transactions).value, txFilter)
                && IsPageCount(filteredItems.Length, maxPage)
    {
      var newTxns := ParseTransactions(transactions);
      if newTxns.Some? {
        var filtered := FilterByType(newTxns.value, txFilter);
        filteredItems := new Txn[|filtered|](i requires 0 <= i < |filtered| => filtered[i]);
        maxPage := MaxPageFor(|filtered|);
      }
    }

    /** A new `transactions` prop: page and page count go back to 1, then the records are rebuilt. */
    method SetTransactions(t: Option<Transactions>)
      requires Valid()
      modifies this
      ensures Valid()
      ensures sortDirection == old(sortDirection) && sortedColumn == old(sortedColumn)
      ensures transactions == t && page == 1 && txFilter == old(txFilter)
      ensures Parsed(t).None? ==> filteredItems == old(filteredItems) && maxPage == 1
      ensures Parsed(t).Some? ==>
                filteredItems != null && fresh(filteredItems)
                && filteredItems[..] == FilterByType(Parsed(t).value, txFilter)
                && IsPageCount(filteredItems.Length, maxPage)
    {
      transactions := t;
      maxPage := 1;
      page := 1;
      ParseEffect();
    }

    /** A new type filter: the records are refiltered and the page goes back to 1. */
    method SetTxFilter(f: string)
      requires Valid()
      modifies this
      ensures Valid()
      ensures sortDirection == old(sortDirection) && sortedColumn == old(sortedColumn)
      ensures txFilter == f && page == 1 && transactions == old(transactions)
      ensures Parsed(transactions).None? ==>
                filteredItems == old(filteredItems) && maxPage == old(maxPage)
      ensures Parsed(transactions).Some? ==>
                filteredItems != null && fresh(filteredItems)
                && filteredItems[..] == FilterByType(Parsed(transactions).value, f)
                && IsPageCount(filteredItems.Length, maxPage)
    {
      txFilter := f;
      ParseEffect();
      page := 1;
    }

    /** `filteredList`: sort the stored records in place, then cut out the current page. */
    method FilteredList() returns (r: Option<seq<Txn>>)
      requires Valid()
      modifies filteredItems
      ensures r.None? <==> filteredItems == null
      ensures filteredItems != null ==>
                && SortedBy(filteredItems[..], sortedColumn, sortDirection)
                && multiset(filteredItems[..]) == old(multiset(filteredItems[..]))
                && r == Some(PageOf(filteredItems[..], page))
    {
      if filteredItems == null {
        return None;
      }
      SortByKey(filteredItems, sortedColumn, sortDirection);
      r := Some(PageOf(filteredItems[..], page));
    }
  }
}
