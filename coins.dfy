/**
 * Address helpers of src/utils.ts: the native-coin (ETH) lookup, coin
 * decimals, address de-duplication, the pool-registry lookups by swap
 * address, and the layout of allowance and balance reads around the
 * native coin, which has no token contract to ask.
 *
 * Reads from the chain are parameters: `allowanceOf(coin)` is the token's
 * `allowance(address, spender)`, `balanceOf(coin, address)` its
 * `balanceOf(address)` and `ethBalanceOf(address)` the native balance.
 */
module Coins {
  import opened Wrappers
  import opened Strings
  import opened Formatting

  const ETH_ADDRESS: string := "0xeeeeeeeeeeeeeeeeeeeeeeeeeeeeeeeeeeeeeeee"

  /** `isEth`: case-insensitive comparison with the native-coin placeholder address. */
  predicate IsEth(address: string) {
    ToLower(address) == ToLower(ETH_ADDRESS)
  }

  /**
   * The addresses `isEth` recognises are exactly "0x" followed by forty
   * e's, in any mix of letter case (so the checksummed "0xEeee…" too).
   */
  lemma IsEthSpelling(address: string)
    ensures IsEth(address) <==>
      |address| == 42 && address[0] == '0' && (address[1] == 'x' || address[1] == 'X') &&
      forall i :: 2 <= i < 42 ==> address[i] == 'e' || address[i] == 'E'
  {
    var eth := ToLower(ETH_ADDRESS);
    assert |eth| == 42 && eth[0] == '0' && eth[1] == 'x' && forall i :: 2 <= i < 42 ==> eth[i] == 'e';
    if IsEth(address) {
      forall i | 2 <= i < 42
        ensures address[i] == 'e' || address[i] == 'E'
      {
        assert LowerChar(address[i]) == eth[i];
      }
      assert LowerChar(address[0]) == '0' && LowerChar(address[1]) == 'x';
    } else if |address| == 42 {
      var k :| 0 <= k < 42 && ToLower(address)[k] != eth[k];
    }
  }

  /** `getEthIndex`: the first index holding the native coin, or -1. */
  function GetEthIndex(addresses: seq<string>): (r: int)
    ensures -1 <= r < |addresses|
    ensures r == -1 <==> forall i :: 0 <= i < |addresses| ==> !IsEth(addresses[i])
    ensures r >= 0 ==> IsEth(addresses[r]) && forall i :: 0 <= i < r ==> !IsEth(addresses[i])
  {
    if |addresses| == 0 then -1
    else if IsEth(addresses[0]) then 0
    else
      var k := GetEthIndex(addresses[1..]);
      if k == -1 then -1 else k + 1
  }

  /** `_getCoinDecimals`: each coin's decimals from the table, keyed by lower-cased address; 18 when absent. */
  function GetCoinDecimals(coins: seq<string>, decimals: map<string, nat>): (r: seq<nat>)
    ensures |r| == |coins|
    ensures forall i :: 0 <= i < |coins| && ToLower(coins[i]) !in decimals ==> r[i] == 18
    ensures forall i :: 0 <= i < |coins| && ToLower(coins[i]) in decimals ==> r[i] == decimals[ToLower(coins[i])]
  {
    seq(|coins|, i requires 0 <= i < |coins| =>
      var key := ToLower(coins[i]);
      if key in decimals then decimals[key] else 18)
  }

  // ------------------------------------------------------ _prepareAddresses

  predicate NoDuplicates(s: seq<string>) {
    forall i, j :: 0 <= i < j < |s| ==> s[i] != s[j]
  }

  /** Index of the first occurrence of `x` in `s`, or |s| when there is none (`indexOf`, with -1 read as |s|). */
  function FirstIndex(s: seq<string>, x: string): (i: nat)
    ensures i <= |s| && x !in s[..i]
    ensures i < |s| ==> s[i] == x
  {
    if |s| == 0 then 0
    else if s[0] == x then 0
    else
      var k := FirstIndex(s[1..], x);
      assert s[..k + 1] == [s[0]] + s[1..][..k];
      k + 1
  }

  /**
   * `filter((val, idx, arr) => arr.indexOf(val) === idx)`: each element at its
   * first occurrence, in the order of those occurrences.
   */
  function Dedup(s: seq<string>): (r: seq<string>)
    ensures forall x :: x in r <==> x in s
    ensures NoDuplicates(r)
  {
    if |s| == 0 then []
    else
      var init, last := s[..|s| - 1], s[|s| - 1];
      assert s == init + [last];
      var kept := Dedup(init);
      if last in init then kept else kept + [last]
  }

  lemma FirstIndexOfPrefix(s: seq<string>, n: nat, x: string)
    requires n <= |s| && x in s[..n]
    ensures FirstIndex(s, x) == FirstIndex(s[..n], x) < n
  {
    var j := FirstIndex(s[..n], x);
    assert s[..n][..j] == s[..j];
  }

  /** `r` lists its elements in the order of their first occurrences in `s`. */
  predicate InFirstOccurrenceOrder(r: seq<string>, s: seq<string>) {
    forall i, j :: 0 <= i < j < |r| ==> FirstIndex(s, r[i]) < FirstIndex(s, r[j])
  }

  /** Two elements of a prefix are ordered in the whole sequence as in the prefix. */
  lemma PrefixPairOrder(s: seq<string>, n: nat, x: string, y: string)
    requires n <= |s| && x in s[..n] && y in s[..n]
    requires FirstIndex(s[..n], x) < FirstIndex(s[..n], y)
    ensures FirstIndex(s, x) < FirstIndex(s, y)
  {
    FirstIndexOfPrefix(s, n, x);
    FirstIndexOfPrefix(s, n, y);
  }

  /** A kept element of the prefix comes before a last element that is new. */
  lemma KeptBeforeLast(s: seq<string>, kept: seq<string>, i: nat)
    requires |s| > 0 && kept == Dedup(s[..|s| - 1]) && s[|s| - 1] !in s[..|s| - 1]
    requires i < |kept|
    ensures FirstIndex(s, kept[i]) < FirstIndex(s, s[|s| - 1])
  {
    assert kept[i] in kept;
    FirstIndexOfPrefix(s, |s| - 1, kept[i]);
  }

  /** The de-duplicated list keeps the order of first occurrences in the input. */
  lemma {:induction false} DedupKeepsFirstOccurrenceOrder(s: seq<string>)
    ensures InFirstOccurrenceOrder(Dedup(s), s)
  {
    if |s| > 0 {
      var init, last := s[..|s| - 1], s[|s| - 1];
      var kept := Dedup(init);
      DedupKeepsFirstOccurrenceOrder(init);
      var r := Dedup(s);
      assert r == if last in init then kept else kept + [last];
      forall i, j | 0 <= i < j < |r|
        ensures FirstIndex(s, r[i]) < FirstIndex(s, r[j])
      {
        if j < |kept| {
          assert kept[i] in kept && kept[j] in kept;
          assert FirstIndex(init, kept[i]) < FirstIndex(init, kept[j]);
          PrefixPairOrder(s, |s| - 1, kept[i], kept[j]);
        } else {
          KeptBeforeLast(s, kept, i);
        }
      }
    }
  }

  /**
   * `_prepareAddresses`: with no addresses and a connected signer, the
   * signer alone; otherwise the given addresses without duplicates.
   */
  function PrepareAddresses(addresses: seq<string>, signerAddress: string): (r: seq<string>)
    ensures NoDuplicates(r)
    ensures |addresses| == 0 && signerAddress != "" ==> r == [signerAddress]
    ensures |addresses| > 0 || signerAddress == "" ==> forall x :: x in r <==> x in addresses
    ensures |addresses| > 0 || signerAddress == "" ==> r == Dedup(addresses)
  {
    var chosen := if |addresses| == 0 && signerAddress != "" then [signerAddress] else addresses;
    assert Dedup([signerAddress]) == [signerAddress] by {
      assert [signerAddress][..0] == [];
    }
    Dedup(chosen)
  }

  // ------------------------------------------------ lookups by swap address

  /** A pool's registry entry: the fields of the pool data these lookups use. */
  datatype PoolData = PoolData(swapAddress: string, tokenAddress: string, underlyingCoins: seq<string>)

  predicate SwapMatches(entry: (string, PoolData), swapAddress: string) {
    ToLower(entry.1.swapAddress) == ToLower(swapAddress)
  }

  /** Index of the first registry entry whose swap address matches, or |pools|. */
  function FirstPoolIndex(pools: seq<(string, PoolData)>, swapAddress: string): (k: nat)
    ensures k <= |pools|
    ensures k < |pools| ==> SwapMatches(pools[k], swapAddress)
    ensures forall j :: 0 <= j < k ==> !SwapMatches(pools[j], swapAddress)
  {
    if |pools| == 0 then 0
    else if SwapMatches(pools[0], swapAddress) then 0
    else 1 + FirstPoolIndex(pools[1..], swapAddress)
  }

  /** `getPoolIdBySwapAddress`: the id of the first entry matching case-insensitively; it fails when none does. */
  function GetPoolIdBySwapAddress(pools: seq<(string, PoolData)>, swapAddress: string): (r: Option<string>)
    ensures r.None? <==> forall j :: 0 <= j < |pools| ==> !SwapMatches(pools[j], swapAddress)
    ensures r.Some? ==> exists k :: 0 <= k < |pools| && SwapMatches(pools[k], swapAddress) && r.value == pools[k].0 &&
                                   forall j :: 0 <= j < k ==> !SwapMatches(pools[j], swapAddress)
  {
    var k := FirstPoolIndex(pools, swapAddress);
    if k < |pools| then Some(pools[k].0) else None
  }

  /** `_getTokenAddressBySwapAddress`: the token address of the first match, or "" when none matches. */
  function GetTokenAddressBySwapAddress(pools: seq<(string, PoolData)>, swapAddress: string): (r: string)
    ensures (forall j :: 0 <= j < |pools| ==> !SwapMatches(pools[j], swapAddress)) ==> r == ""
    ensures (exists j :: 0 <= j < |pools| && SwapMatches(pools[j], swapAddress)) ==>
      exists k :: 0 <= k < |pools| && SwapMatches(pools[k], swapAddress) && r == pools[k].1.tokenAddress &&
                  forall j :: 0 <= j < k ==> !SwapMatches(pools[j], swapAddress)
  {
    var k := FirstPoolIndex(pools, swapAddress);
    if k < |pools| then pools[k].1.tokenAddress else ""
  }

  // ------------------------------------------------------------ _getAllowance

  /** What `_getAllowance` reports per coin: MAX_ALLOWANCE at the ETH index, each other coin's on-chain allowance. */
  function AllowanceView(coins: seq<string>, allowanceOf: string -> nat): (r: seq<nat>)
    ensures |r| == |coins|
  {
    seq(|coins|, i requires 0 <= i < |coins| =>
      if i == GetEthIndex(coins) then MAX_ALLOWANCE else allowanceOf(coins[i]))
  }

  /**
   * `_getAllowance`: splices the ETH entry out of the coin list, reads the
   * allowance of the remaining tokens, and splices MAX_ALLOWANCE back in at
   * the ETH index, so each coin keeps its own position.
   */
  method GetAllowance(coins: seq<string>, allowanceOf: string -> nat) returns (allowance: seq<nat>)
    ensures |allowance| == |coins|
    ensures GetEthIndex(coins) >= 0 ==> allowance[GetEthIndex(coins)] == MAX_ALLOWANCE
    ensures forall i :: 0 <= i < |coins| && i != GetEthIndex(coins) ==> allowance[i] == allowanceOf(coins[i])
    ensures allowance == AllowanceView(coins, allowanceOf)
  {
    var tokens := coins;
    var ethIndex := GetEthIndex(tokens);
    if ethIndex != -1 {
      tokens := tokens[..ethIndex] + tokens[ethIndex + 1..];
    }
    allowance := seq(|tokens|, i requires 0 <= i < |tokens| => allowanceOf(tokens[i]));
    if ethIndex != -1 {
      allowance := allowance[..ethIndex] + [MAX_ALLOWANCE] + allowance[ethIndex..];
    }
  }

  /** Left fold of `&&` without an initial value, as `reduce((a, b) => a && b)`: an empty list has no result. */
  function ReduceAnd(bs: seq<bool>): (r: Option<bool>)
    ensures r.None? <==> |bs| == 0
    ensures r.Some? ==> (r.value <==> forall i :: 0 <= i < |bs| ==> bs[i])
  {
    if |bs| == 0 then None
    else if |bs| == 1 then Some(bs[0])
    else Some(ReduceAnd(bs[..|bs| - 1]).value && bs[|bs| - 1])
  }

  /** `amounts.map((a, i) => parseUnits(a, decimals[i]))`; past the decimals list the default of 18 applies. */
  function ScaleAmounts(amounts: seq<Dec>, decimals: seq<nat>): (r: seq<int>)
    ensures |r| == |amounts|
  {
    seq(|amounts|, i requires 0 <= i < |amounts| => Encode(amounts[i], if i < |decimals| then decimals[i] else 18))
  }

  /**
   * `hasAllowance`: whether every coin's allowance covers its amount. A
   * missing amount never counts as covered, and an empty coin list has no
   * answer (the reduce throws).
   */
  method HasAllowance(coins: seq<string>, amounts: seq<Dec>, decimals: map<string, nat>, allowanceOf: string -> nat)
    returns (r: Option<bool>)
    ensures r.None? <==> |coins| == 0
    ensures r.Some? ==> (r.value <==> forall i :: 0 <= i < |coins| ==>
      i < |amounts| && AllowanceView(coins, allowanceOf)[i] >= ScaleAmounts(amounts, GetCoinDecimals(coins, decimals))[i])
  {
    var coinDecimals := GetCoinDecimals(coins, decimals);
    var allowance := GetAllowance(coins, allowanceOf);
    var scaled := ScaleAmounts(amounts, coinDecimals);
    var covered := seq(|allowance|, i requires 0 <= i < |allowance| => i < |scaled| && allowance[i] >= scaled[i]);
    ghost var view := AllowanceView(coins, allowanceOf);
    assert allowance == view;
    assert forall i :: 0 <= i < |coins| ==> (covered[i] <==> i < |amounts| && view[i] >= scaled[i]);
    r := ReduceAnd(covered);
  }

  // ------------------------------------------------------------- _getBalances

  /** Position of the read for token `t` and address `a` when `n` addresses are read per token. */
  function Cell(t: nat, a: nat, n: nat): nat {
    a + t * n
  }

  lemma CellBelow(t: nat, a: nat, n: nat, c: nat)
    requires t < c && a < n
    ensures Cell(t, a, n) < c * n
  {
    MulLe(t + 1, c, n);
    assert (t + 1) * n == t * n + n;
  }

  lemma MulLe(x: nat, y: nat, n: nat)
    requires x <= y
    ensures x * n <= y * n
  {
  }

  /**
   * Reading the spliced batch: coins before the ETH index are where the
   * token reads put them, the ETH column holds the native reads, and later
   * coins sit one block of `n` further on.
   */
  /** Indexing into `read` with `eth` spliced in at position `b`. */
  lemma SplicedAt(read: seq<nat>, eth: seq<nat>, b: nat, x: nat)
    requires b <= |read| && x < |read| + |eth|
    ensures var spliced := read[..b] + eth + read[b..];
      |spliced| == |read| + |eth| &&
      (x < b ==> spliced[x] == read[x]) &&
      (b <= x < b + |eth| ==> spliced[x] == eth[x - b]) &&
      (b + |eth| <= x ==> spliced[x] == read[x - |eth|])
  {
  }

  /** Where cell (j, i) falls relative to the ETH block at e * n when c blocks of n were read. */
  lemma CellAround(c: nat, e: nat, n: nat, i: nat, j: nat)
    requires e <= c && j <= c && i < n
    ensures e * n <= c * n
    ensures Cell(j, i, n) < c * n + n
    ensures j < e ==> Cell(j, i, n) < e * n
    ensures j == e ==> Cell(j, i, n) == e * n + i
    ensures j > e ==> e * n + n <= Cell(j, i, n) && Cell(j, i, n) - n == Cell(j - 1, i, n)
  {
    MulLe(e, c, n);
    CellBelow(j, i, n, c + 1);
    assert (c + 1) * n == c * n + n;
    if j < e {
      CellBelow(j, i, n, e);
    } else if j > e {
      MulLe(e + 1, j, n);
      assert (e + 1) * n == e * n + n;
      assert j * n == (j - 1) * n + n;
    }
  }

  /** What `_getBalances` reports: for address i and coin j, the native balance at the ETH index, else the token balance. */
  function BalanceGrid(coins: seq<string>, addresses: seq<string>,
                       balanceOf: (string, string) -> nat, ethBalanceOf: string -> nat): (r: seq<seq<nat>>)
    ensures |r| == |addresses|
  {
    seq(|addresses|, i requires 0 <= i < |addresses| =>
      seq(|coins|, j requires 0 <= j < |coins| =>
        if j == GetEthIndex(coins) then ethBalanceOf(addresses[i]) else balanceOf(coins[j], addresses[i])))
  }

  /** The token reads of `_getBalances`: for each token, the balances of every address, token-major. */
  method ReadTokenBalances(tokens: seq<string>, addresses: seq<string>, balanceOf: (string, string) -> nat)
    returns (response: seq<nat>)
    ensures |response| == |tokens| * |addresses|
    ensures forall t, a :: 0 <= t < |tokens| && 0 <= a < |addresses| ==>
      Cell(t, a, |addresses|) < |response| && response[Cell(t, a, |addresses|)] == balanceOf(tokens[t], addresses[a])
  {
    var n := |addresses|;
    response := [];
    var c := 0;
    while c < |tokens|
      invariant 0 <= c <= |tokens|
      invariant |response| == c * n
      invariant forall t, a :: 0 <= t < c && 0 <= a < n ==>
        Cell(t, a, n) < |response| && response[Cell(t, a, n)] == balanceOf(tokens[t], addresses[a])
    {
      var block := seq(n, a requires 0 <= a < n => balanceOf(tokens[c], addresses[a]));
      forall t, a | 0 <= t < c && 0 <= a < n
        ensures Cell(t, a, n) < c * n
      {
        CellBelow(t, a, n, c);
      }
      response := response + block;
      c := c + 1;
    }
  }

  /** After the splice, cell (j, i) of the full batch holds address i's balance of coin j. */
  lemma SplicedCell(coins: seq<string>, addresses: seq<string>, balanceOf: (string, string) -> nat, ethBalanceOf: string -> nat,
                    ethIndex: nat, read: seq<nat>, ethBalances: seq<nat>, i: nat, j: nat)
    requires ethIndex < |coins| && i < |addresses| && j < |coins|
    requires |read| == (|coins| - 1) * |addresses|
    requires forall t, a :: 0 <= t < |coins| - 1 && 0 <= a < |addresses| ==>
      Cell(t, a, |addresses|) < |read| &&
      read[Cell(t, a, |addresses|)] == balanceOf((coins[..ethIndex] + coins[ethIndex + 1..])[t], addresses[a])
    requires |ethBalances| == |addresses| && forall k :: 0 <= k < |addresses| ==> ethBalances[k] == ethBalanceOf(addresses[k])
    ensures ethIndex * |addresses| <= |read|
    ensures var spliced := read[..ethIndex * |addresses|] + ethBalances + read[ethIndex * |addresses|..];
      Cell(j, i, |addresses|) < |spliced| &&
      spliced[Cell(j, i, |addresses|)] == if j == ethIndex then ethBalanceOf(addresses[i]) else balanceOf(coins[j], addresses[i])
  {
    var n := |addresses|;
    var tokens := coins[..ethIndex] + coins[ethIndex + 1..];
    CellAround(|tokens|, ethIndex, n, i, j);
    SplicedAt(read, ethBalances, ethIndex * n, Cell(j, i, n));
    if j < ethIndex {
      assert tokens[j] == coins[j];
    } else if j > ethIndex {
      assert tokens[j - 1] == coins[j];
    }
  }

  /**
   * `_getBalances` (before formatting): reads every token for every address
   * in one token-major batch, splices the native balances in at position
   * ethIndex * |addresses|, and reads address i's balance of coin j at
   * position i + j * |addresses|.
   */
  method GetBalances(coins: seq<string>, addresses: seq<string>,
                     balanceOf: (string, string) -> nat, ethBalanceOf: string -> nat)
    returns (balances: seq<seq<nat>>)
    ensures balances == BalanceGrid(coins, addresses, balanceOf, ethBalanceOf)
  {
    var n := |addresses|;
    var ethIndex := GetEthIndex(coins);
    var tokens := coins;
    if ethIndex != -1 {
      tokens := tokens[..ethIndex] + tokens[ethIndex + 1..];
    }
    var response := ReadTokenBalances(tokens, addresses, balanceOf);
    var read := response;
    var ethBalances: seq<nat> := [];
    if ethIndex != -1 {
      for a := 0 to n
        invariant |ethBalances| == a
        invariant forall k :: 0 <= k < a ==> ethBalances[k] == ethBalanceOf(addresses[k])
      {
        ethBalances := ethBalances + [ethBalanceOf(addresses[a])];
      }
      MulLe(ethIndex, |tokens|, n);
      response := response[..ethIndex * n] + ethBalances + response[ethIndex * n..];
    }
    forall i, j | 0 <= i < n && 0 <= j < |coins|
      ensures Cell(j, i, n) < |response|
      ensures response[Cell(j, i, n)] == BalanceGrid(coins, addresses, balanceOf, ethBalanceOf)[i][j]
    {
      if ethIndex != -1 {
        SplicedCell(coins, addresses, balanceOf, ethBalanceOf, ethIndex, read, ethBalances, i, j);
      }
    }
    balances := seq(n, i requires 0 <= i < n =>
      seq(|coins|, j requires 0 <= j < |coins| => response[Cell(j, i, n)]));
    assert forall i :: 0 <= i < n ==> balances[i] == BalanceGrid(coins, addresses, balanceOf, ethBalanceOf)[i];
  }
}
