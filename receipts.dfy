/**
 * Reading a deployed address back from a deployment's receipt, as the five
 * `getDeployed*Address` functions of src/factory/deploy.ts do. A receipt is
 * what `tx.wait()` yields: nothing, or the transaction's log records, of
 * which the decoded event logs carry their arguments. The registry of known
 * pools and the LP token's `minter()` read are parameters.
 */
module Receipts {
  import opened Wrappers
  import opened Strings
  import opened Coins

  /** A log record; `args` is present on the logs the contract ABI decoded into events. */
  datatype Log = Log(address: string, args: Option<seq<string>>)

  datatype ResolveError =
    | NoTxInfo          // "Can't get tx info"
    | MissingLog        // a log index past the end: the source fails reading `.address` of undefined
    | MissingArg        // an argument index past the end of an event's arguments
    | NoEventLog        // "Can't get deployed ... address": no log carries arguments
    | UnknownBasePool   // no registry entry has the swap address the event names

  /** Whether log `i` is the last one that carries arguments. */
  predicate LastEvent(logs: seq<Log>, i: int) {
    0 <= i < |logs| && logs[i].args.Some? && forall j :: i < j < |logs| ==> logs[j].args.None?
  }

  /** Index of the last log with arguments, if any. */
  function LastWithArgs(logs: seq<Log>): (r: Option<nat>)
    ensures r.None? <==> forall i :: 0 <= i < |logs| ==> logs[i].args.None?
    ensures r.Some? ==> LastEvent(logs, r.value)
  {
    if |logs| == 0 then None
    else if logs[|logs| - 1].args.Some? then Some(|logs| - 1)
    else LastWithArgs(logs[..|logs| - 1])
  }

  /** There is only one last log with arguments. */
  lemma LastEventUnique(logs: seq<Log>, i: int, k: int)
    requires LastEvent(logs, i) && LastEvent(logs, k)
    ensures i == k
  {
  }

  /**
   * The reverse scan `for (i = logs.length - 1; i > -1; i--)` of the metapool
   * and tricrypto resolvers, stopping at the first log with arguments.
   */
  method ScanForEvent(logs: seq<Log>) returns (found: Option<nat>)
    ensures found == LastWithArgs(logs)
  {
    var i := |logs| - 1;
    while i > -1
      invariant -1 <= i < |logs|
      invariant forall j :: i < j < |logs| ==> logs[j].args.None?
      decreases i
    {
      if logs[i].args.Some? {
        LastEventUnique(logs, i, LastWithArgs(logs).value);
        return Some(i);
      }
      i := i - 1;
    }
    return None;
  }

  // ------------------------------------------------------------- stable plain

  /** `getDeployedStablePlainPoolAddress`: the lower-cased address of the first log. */
  function StablePlainPoolAddress(receipt: Option<seq<Log>>): (r: Result<string, ResolveError>)
    ensures receipt.None? ==> r == Failure(NoTxInfo)
    ensures receipt.Some? && |receipt.value| == 0 ==> r == Failure(MissingLog)
    ensures r.Success? <==> receipt.Some? && |receipt.value| > 0
    ensures r.Success? ==> ToLower(r.value) == r.value &&
                           |r.value| == |receipt.value[0].address| && ToLower(receipt.value[0].address) == r.value
  {
    match receipt
    case None => Failure(NoTxInfo)
    case Some(logs) =>
      if |logs| == 0 then Failure(MissingLog)
      else
        ToLowerIdempotent(logs[0].address);
        Success(ToLower(logs[0].address))
  }

  // --------------------------------------------------------------- stable meta

  /**
   * Log `i` is the last event, it names a base pool as its second argument,
   * the registry knows that pool, and the receipt has a log just past the
   * base pool's underlying coins.
   */
  predicate MetaResolvable(logs: seq<Log>, i: int, pools: seq<(string, PoolData)>) {
    LastEvent(logs, i) && |logs[i].args.value| > 1 &&
    FirstPoolIndex(pools, logs[i].args.value[1]) < |pools| &&
    |pools[FirstPoolIndex(pools, logs[i].args.value[1])].1.underlyingCoins| < |logs|
  }

  /**
   * What the metapool resolver answers once log `i` is known to be the last
   * event: a missing second argument, an unknown base pool, a missing log
   * past the base pool's underlying coins, or that log's lower-cased address.
   */
  predicate MetaOutcome(logs: seq<Log>, i: int, pools: seq<(string, PoolData)>, r: Result<string, ResolveError>)
    requires LastEvent(logs, i)
  {
    var args := logs[i].args.value;
    (|args| < 2 ==> r == Failure(MissingArg)) &&
    (|args| >= 2 ==>
      var k := FirstPoolIndex(pools, args[1]);
      (k == |pools| ==> r == Failure(UnknownBasePool)) &&
      (k < |pools| && |pools[k].1.underlyingCoins| >= |logs| ==> r == Failure(MissingLog)) &&
      (k < |pools| && |pools[k].1.underlyingCoins| < |logs| ==> r == Success(ToLower(logs[|pools[k].1.underlyingCoins|].address))))
  }

  /**
   * `getDeployedStableMetaPoolAddress`: the last event names the base pool's
   * swap address as its second argument; the registry's first entry with
   * that swap address gives the base pool, and the log just past the base
   * pool's underlying coins (log N for N underlying coins) is the new pool.
   */
  function StableMetaPoolAddress(receipt: Option<seq<Log>>, pools: seq<(string, PoolData)>): (r: Result<string, ResolveError>)
    ensures receipt.None? ==> r == Failure(NoTxInfo)
    ensures receipt.Some? ==> (r == Failure(NoEventLog) <==> forall i :: 0 <= i < |receipt.value| ==> receipt.value[i].args.None?)
    ensures r.Success? ==> (
      receipt.Some? && ToLower(r.value) == r.value &&
      exists i, k :: LastEvent(receipt.value, i) && |receipt.value[i].args.value| > 1 &&
        0 <= k < |pools| && k == FirstPoolIndex(pools, receipt.value[i].args.value[1]) &&
        |pools[k].1.underlyingCoins| < |receipt.value| &&
        r.value == ToLower(receipt.value[|pools[k].1.underlyingCoins|].address))
  {
    match receipt
    case None => Failure(NoTxInfo)
    case Some(logs) =>
      match LastWithArgs(logs)
      case None => Failure(NoEventLog)
      case Some(i) =>
        var args := logs[i].args.value;
        if |args| < 2 then Failure(MissingArg)
        else
          var k := FirstPoolIndex(pools, args[1]);
          if k == |pools| then Failure(UnknownBasePool)
          else
            var n := |pools[k].1.underlyingCoins|;
            if n >= |logs| then Failure(MissingLog)
            else
              ToLowerIdempotent(logs[n].address);
              Success(ToLower(logs[n].address))
  }

  /**
   * The metapool resolver's answer in every case: it succeeds exactly when
   * the receipt is resolvable, and the last event decides which error it
   * reports otherwise.
   */
  lemma StableMetaPoolAddressCases(receipt: Option<seq<Log>>, pools: seq<(string, PoolData)>)
    ensures var r := StableMetaPoolAddress(receipt, pools);
      (r.Success? <==> receipt.Some? && exists i :: MetaResolvable(receipt.value, i, pools)) &&
      (receipt.Some? ==> forall i | LastEvent(receipt.value, i) :: MetaOutcome(receipt.value, i, pools, r))
  {
    if receipt.Some? {
      var logs := receipt.value;
      var r := StableMetaPoolAddress(receipt, pools);
      var last := LastWithArgs(logs);
      if last.Some? {
        forall i | LastEvent(logs, i)
          ensures MetaOutcome(logs, i, pools, r)
        {
          LastEventUnique(logs, i, last.value);
        }
        if r.Success? {
          assert MetaResolvable(logs, last.value, pools);
        }
        forall i | MetaResolvable(logs, i, pools)
          ensures r.Success?
        {
          LastEventUnique(logs, i, last.value);
        }
      }
    }
  }

  /** The resolver as the source runs it, with its reverse scan. */
  method GetDeployedStableMetaPoolAddress(receipt: Option<seq<Log>>, pools: seq<(string, PoolData)>)
    returns (r: Result<string, ResolveError>)
    ensures r == StableMetaPoolAddress(receipt, pools)
  {
    if receipt.None? {
      return Failure(NoTxInfo);
    }
    var logs := receipt.value;
    var found := ScanForEvent(logs);
    if found.None? {
      return Failure(NoEventLog);
    }
    var args := logs[found.value].args.value;
    if |args| < 2 {
      return Failure(MissingArg);
    }
    var basePoolId := GetPoolIdBySwapAddress(pools, args[1]);
    if basePoolId.None? {
      return Failure(UnknownBasePool);
    }
    var n := |pools[FirstPoolIndex(pools, args[1])].1.underlyingCoins|;
    if n >= |logs| {
      return Failure(MissingLog);
    }
    r := Success(ToLower(logs[n].address));
  }

  // -------------------------------------------------------------------- crypto

  /**
   * `getDeployedCryptoPoolAddress`: the first log is the LP token's; the pool
   * is its lower-cased `minter()`, read through `minterOf`.
   */
  function CryptoPoolAddress(receipt: Option<seq<Log>>, minterOf: string -> string): (r: Result<string, ResolveError>)
    ensures receipt.None? ==> r == Failure(NoTxInfo)
    ensures receipt.Some? && |receipt.value| == 0 ==> r == Failure(MissingLog)
    ensures r.Success? <==> receipt.Some? && |receipt.value| > 0
    ensures r.Success? ==> ToLower(r.value) == r.value && r.value == ToLower(minterOf(receipt.value[0].address))
  {
    match receipt
    case None => Failure(NoTxInfo)
    case Some(logs) =>
      if |logs| == 0 then Failure(MissingLog)
      else
        var minter := minterOf(logs[0].address);
        ToLowerIdempotent(minter);
        Success(ToLower(minter))
  }

  // ----------------------------------------------------------------- tricrypto

  /**
   * `getDeployedTricryptoPoolAddress`: the first argument of the last event,
   * exactly as the event gives it (no lower-casing).
   */
  function TricryptoPoolAddress(receipt: Option<seq<Log>>): (r: Result<string, ResolveError>)
    ensures receipt.None? ==> r == Failure(NoTxInfo)
    ensures receipt.Some? ==> (r == Failure(NoEventLog) <==> forall i :: 0 <= i < |receipt.value| ==> receipt.value[i].args.None?)
    ensures r.Success? <==> receipt.Some? && exists i :: LastEvent(receipt.value, i) && |receipt.value[i].args.value| > 0
    ensures r.Success? ==> exists i :: LastEvent(receipt.value, i) && r.value == receipt.value[i].args.value[0]
  {
    match receipt
    case None => Failure(NoTxInfo)
    case Some(logs) =>
      match LastWithArgs(logs)
      case None => Failure(NoEventLog)
      case Some(i) =>
        var args := logs[i].args.value;
        if |args| == 0 then Failure(MissingArg) else Success(args[0])
  }

  /** The resolver as the source runs it, with its reverse scan. */
  method GetDeployedTricryptoPoolAddress(receipt: Option<seq<Log>>) returns (r: Result<string, ResolveError>)
    ensures r == TricryptoPoolAddress(receipt)
  {
    if receipt.None? {
      return Failure(NoTxInfo);
    }
    var logs := receipt.value;
    var found := ScanForEvent(logs);
    if found.None? {
      return Failure(NoEventLog);
    }
    var args := logs[found.value].args.value;
    if |args| == 0 {
      return Failure(MissingArg);
    }
    r := Success(args[0]);
  }

  // --------------------------------------------------------------------- gauge

  /** `getDeployedGaugeAddress`: the lower-cased last argument of the first log. */
  function GaugeAddress(receipt: Option<seq<Log>>): (r: Result<string, ResolveError>)
    ensures receipt.None? ==> r == Failure(NoTxInfo)
    ensures receipt.Some? && |receipt.value| == 0 ==> r == Failure(MissingLog)
    ensures r.Success? <==> receipt.Some? && |receipt.value| > 0 && receipt.value[0].args.Some? && |receipt.value[0].args.value| > 0
    ensures r.Success? ==> ToLower(r.value) == r.value &&
                           r.value == ToLower(receipt.value[0].args.value[|receipt.value[0].args.value| - 1])
  {
    match receipt
    case None => Failure(NoTxInfo)
    case Some(logs) =>
      if |logs| == 0 then Failure(MissingLog)
      else if logs[0].args.None? || |logs[0].args.value| == 0 then Failure(MissingArg)
      else
        var args := logs[0].args.value;
        ToLowerIdempotent(args[|args| - 1]);
        Success(ToLower(args[|args| - 1]))
  }
}
