/**
 * `_ensureAllowance` and `ensureAllowanceEstimateGas` of src/utils.ts: for
 * every coin whose allowance does not cover its amount, an `approve` of the
 * spender, preceded by an `approve(0)` reset when the allowance is not
 * already zero. Each approve is estimated, its gas limit raised by 30% and
 * then sent; the estimating variant only adds up the estimates.
 */
module Allowance {
  import opened Transport
  import opened Formatting
  import opened Coins

  function ApproveCall(coin: string, spender: string, amount: int): Call {
    Call(coin, "approve", [Str(spender), Int(amount)])
  }

  /** Whether coin `i` needs an approval: the coin and its amount exist and its allowance is below the amount. */
  predicate NeedsApproval(coins: seq<string>, allowance: seq<nat>, amounts: seq<int>, i: nat) {
    i < |coins| && i < |allowance| && i < |amounts| && allowance[i] < amounts[i]
  }

  /** The approves sent for coin `i`, in order. */
  function CoinApprovals(coins: seq<string>, allowance: seq<nat>, amounts: seq<int>, spender: string, isMax: bool, i: nat)
    : seq<Call>
  {
    if !NeedsApproval(coins, allowance, amounts, i) then []
    else
      var approve := ApproveCall(coins[i], spender, if isMax then MAX_ALLOWANCE else amounts[i]);
      if allowance[i] > 0 then [ApproveCall(coins[i], spender, 0), approve] else [approve]
  }

  /** The shape of a coin's approves: none when covered, otherwise an optional reset to 0, then the approve itself. */
  lemma CoinApprovalsShape(coins: seq<string>, allowance: seq<nat>, amounts: seq<int>, spender: string, isMax: bool, i: nat)
    ensures var r := CoinApprovals(coins, allowance, amounts, spender, isMax, i);
      (|r| == 0 <==> !NeedsApproval(coins, allowance, amounts, i)) &&
      (|r| == 2 <==> NeedsApproval(coins, allowance, amounts, i) && allowance[i] > 0) &&
      (|r| <= 2) &&
      (|r| == 2 ==> r[0] == ApproveCall(coins[i], spender, 0)) &&
      (|r| > 0 ==> r[|r| - 1] == ApproveCall(coins[i], spender, if isMax then MAX_ALLOWANCE else amounts[i]))
  {
  }

  /** All approves for the first `n` coins, coin by coin. */
  function ApprovePlan(coins: seq<string>, allowance: seq<nat>, amounts: seq<int>, spender: string, isMax: bool, n: nat)
    : seq<Call>
  {
    if n == 0 then []
    else ApprovePlan(coins, allowance, amounts, spender, isMax, n - 1) + CoinApprovals(coins, allowance, amounts, spender, isMax, n - 1)
  }

  /** Each call estimated, then sent with `mulBy1_3` of the estimate as gas limit. */
  function SendAll(calls: seq<Call>, gasOf: Call -> nat): seq<Event> {
    if |calls| == 0 then []
    else
      var last := calls[|calls| - 1];
      SendAll(calls[..|calls| - 1], gasOf) + [Estimated(last), Sent(last, MulBy1_3(gasOf(last)))]
  }

  /** The interactions of `_ensureAllowance` for the first `n` coins: a fee refresh before each coin that needs approving. */
  function EnsureTrace(coins: seq<string>, allowance: seq<nat>, amounts: seq<int>, spender: string, isMax: bool,
                       gasOf: Call -> nat, n: nat): seq<Event>
  {
    if n == 0 then []
    else
      var approvals := CoinApprovals(coins, allowance, amounts, spender, isMax, n - 1);
      EnsureTrace(coins, allowance, amounts, spender, isMax, gasOf, n - 1) +
      (if |approvals| == 0 then [] else [FeesUpdated] + SendAll(approvals, gasOf))
  }

  /** Each call estimated, in order. */
  function EstimateAll(calls: seq<Call>): seq<Event> {
    if |calls| == 0 then [] else EstimateAll(calls[..|calls| - 1]) + [Estimated(calls[|calls| - 1])]
  }

  lemma AppendAssoc<T>(a: seq<T>, b: seq<T>, c: seq<T>)
    ensures (a + b) + c == a + (b + c)
  {
  }

  lemma {:induction false} EstimateAllAppend(a: seq<Call>, b: seq<Call>)
    ensures EstimateAll(a + b) == EstimateAll(a) + EstimateAll(b)
    decreases |b|
  {
    if |b| > 0 {
      assert (a + b)[..|a + b| - 1] == a + b[..|b| - 1];
      EstimateAllAppend(a, b[..|b| - 1]);
    } else {
      assert a + b == a;
    }
  }

  function TotalGas(calls: seq<Call>, gasOf: Call -> nat): nat {
    if |calls| == 0 then 0 else TotalGas(calls[..|calls| - 1], gasOf) + gasOf(calls[|calls| - 1])
  }

  lemma TotalGasAppend(a: seq<Call>, b: seq<Call>, gasOf: Call -> nat)
    ensures TotalGas(a + b, gasOf) == TotalGas(a, gasOf) + TotalGas(b, gasOf)
    decreases |b|
  {
    if |b| > 0 {
      assert (a + b)[..|a + b| - 1] == a + b[..|b| - 1];
      TotalGasAppend(a, b[..|b| - 1], gasOf);
    } else {
      assert a + b == a;
    }
  }

  lemma SendAllPair(reset: Call, approve: Call, gasOf: Call -> nat)
    ensures SendAll([approve], gasOf) == [Estimated(approve), Sent(approve, MulBy1_3(gasOf(approve)))]
    ensures SendAll([reset, approve], gasOf) ==
      [Estimated(reset), Sent(reset, MulBy1_3(gasOf(reset))), Estimated(approve), Sent(approve, MulBy1_3(gasOf(approve)))]
  {
    assert [reset, approve][..1] == [reset];
    assert [approve][..0] == [];
    assert [reset][..0] == [];
  }

  /** `SendAll` puts each call's `Sent` event just after its estimate: call k is sent at position 2k + 1. */
  lemma {:induction false} SendAllSentAt(calls: seq<Call>, gasOf: Call -> nat)
    ensures |SendAll(calls, gasOf)| == 2 * |calls|
    ensures forall k :: 0 <= k < |calls| ==> SendAll(calls, gasOf)[2 * k + 1] == Sent(calls[k], MulBy1_3(gasOf(calls[k])))
    decreases |calls|
  {
    if |calls| > 0 {
      SendAllSentAt(calls[..|calls| - 1], gasOf);
    }
  }

  /** After a fee refresh at position `|start|`, the k-th call of a round is sent at position `|start| + 2 + 2k`. */
  lemma RoundHandles(log: seq<Event>, start: seq<Event>, approvals: seq<Call>, gasOf: Call -> nat, txs: seq<TxHandle>)
    requires log == start + ([FeesUpdated] + SendAll(approvals, gasOf))
    requires |txs| == |approvals|
    requires forall k :: 0 <= k < |txs| ==> txs[k].position == |start| + 2 + 2 * k
    ensures HandlesSent(log, |start|, txs, approvals)
  {
    SendAllSentAt(approvals, gasOf);
    forall k | 0 <= k < |txs|
      ensures log[txs[k].position] == Sent(approvals[k], MulBy1_3(gasOf(approvals[k])))
    {
      assert log[|start| + 1 + (2 * k + 1)] == SendAll(approvals, gasOf)[2 * k + 1];
    }
  }

  /** `contract.approve.estimateGas(...)`, then `contract.approve(..., { gasLimit })` with the estimate plus 30%. */
  method EstimateAndSend(chain: Chain, call: Call) returns (tx: TxHandle)
    modifies chain
    ensures chain.log == old(chain.log) + [Estimated(call), Sent(call, MulBy1_3(chain.gasOf(call)))]
    ensures tx == TxHandle(|old(chain.log)| + 1)
  {
    var gas := chain.EstimateGas(call);
    tx := chain.Send(call, MulBy1_3(gas));
  }

  /** One pass of `_ensureAllowance`'s loop: the approves of coin `i`, each estimated and sent. */
  method ApproveCoin(chain: Chain, coins: seq<string>, allowance: seq<nat>, amounts: seq<int>, spender: string,
                     isMax: bool, i: nat)
    returns (txs: seq<TxHandle>)
    requires |allowance| == |coins| && i < |coins|
    modifies chain
    ensures var approvals := CoinApprovals(coins, allowance, amounts, spender, isMax, i);
      chain.log == old(chain.log) + (if |approvals| == 0 then [] else [FeesUpdated] + SendAll(approvals, chain.gasOf))
    ensures HandlesSent(chain.log, |old(chain.log)|, txs, CoinApprovals(coins, allowance, amounts, spender, isMax, i))
  {
    ghost var start := chain.log;
    ghost var approvals := CoinApprovals(coins, allowance, amounts, spender, isMax, i);
    txs := [];
    if i < |amounts| && allowance[i] < amounts[i] {
      var approveAmount := if isMax then MAX_ALLOWANCE else amounts[i];
      var approve := ApproveCall(coins[i], spender, approveAmount);
      chain.UpdateFeeData();
      if allowance[i] > 0 {
        var reset := ApproveCall(coins[i], spender, 0);
        var resetTx := EstimateAndSend(chain, reset);
        txs := [resetTx];
        SendAllPair(reset, approve, chain.gasOf);
        assert approvals == [reset, approve];
      } else {
        SendAllPair(approve, approve, chain.gasOf);
        assert approvals == [approve];
      }
      var tx := EstimateAndSend(chain, approve);
      txs := txs + [tx];
      RoundHandles(chain.log, start, approvals, chain.gasOf, txs);
    } else {
      assert approvals == [];
    }
  }

  lemma EnsureTraceStep(coins: seq<string>, allowance: seq<nat>, amounts: seq<int>, spender: string, isMax: bool,
                        gasOf: Call -> nat, start: seq<Event>, i: nat)
    ensures var approvals := CoinApprovals(coins, allowance, amounts, spender, isMax, i);
      start + EnsureTrace(coins, allowance, amounts, spender, isMax, gasOf, i + 1) ==
      (start + EnsureTrace(coins, allowance, amounts, spender, isMax, gasOf, i)) +
      (if |approvals| == 0 then [] else [FeesUpdated] + SendAll(approvals, gasOf))
  {
    var approvals := CoinApprovals(coins, allowance, amounts, spender, isMax, i);
    AppendAssoc(start, EnsureTrace(coins, allowance, amounts, spender, isMax, gasOf, i),
                if |approvals| == 0 then [] else [FeesUpdated] + SendAll(approvals, gasOf));
  }

  /** Every call `SendAll` handles is sent once. */
  lemma {:induction false} SendAllSubmissions(calls: seq<Call>, gasOf: Call -> nat)
    ensures Submissions(SendAll(calls, gasOf)) == |calls|
    decreases |calls|
  {
    if |calls| > 0 {
      var last := calls[|calls| - 1];
      SendAllSubmissions(calls[..|calls| - 1], gasOf);
      SubmissionsAppend(SendAll(calls[..|calls| - 1], gasOf), [Estimated(last), Sent(last, MulBy1_3(gasOf(last)))]);
      assert [Estimated(last), Sent(last, MulBy1_3(gasOf(last)))][..1] == [Estimated(last)];
      assert [Estimated(last)][..0] == [];
    }
  }

  /** `_ensureAllowance` sends exactly one transaction per approve of its plan. */
  lemma {:induction false} EnsureTraceSubmissions(coins: seq<string>, allowance: seq<nat>, amounts: seq<int>, spender: string,
                                                  isMax: bool, gasOf: Call -> nat, n: nat)
    ensures Submissions(EnsureTrace(coins, allowance, amounts, spender, isMax, gasOf, n)) ==
            |ApprovePlan(coins, allowance, amounts, spender, isMax, n)|
  {
    if n > 0 {
      var approvals := CoinApprovals(coins, allowance, amounts, spender, isMax, n - 1);
      var sends := SendAll(approvals, gasOf);
      var tail := if |approvals| == 0 then [] else [FeesUpdated] + sends;
      EnsureTraceSubmissions(coins, allowance, amounts, spender, isMax, gasOf, n - 1);
      assert Submissions(tail) == |approvals| by {
        SendAllSubmissions(approvals, gasOf);
        if |approvals| > 0 {
          SubmissionsAppend([FeesUpdated], sends);
          assert [FeesUpdated][..0] == [];
        }
      }
      SubmissionsAppend(EnsureTrace(coins, allowance, amounts, spender, isMax, gasOf, n - 1), tail);
    }
  }

  /** A pass of the loop: coin `i`'s transactions appended to those of the coins before it. */
  method ApproveNext(chain: Chain, coins: seq<string>, allowance: seq<nat>, amounts: seq<int>, spender: string,
                     isMax: bool, i: nat, ghost start: seq<Event>, sent: seq<TxHandle>)
    returns (txHashes: seq<TxHandle>)
    requires |allowance| == |coins| && i < |coins|
    requires chain.log == start + EnsureTrace(coins, allowance, amounts, spender, isMax, chain.gasOf, i)
    requires HandlesSent(chain.log, |start|, sent, ApprovePlan(coins, allowance, amounts, spender, isMax, i))
    modifies chain
    ensures chain.log == start + EnsureTrace(coins, allowance, amounts, spender, isMax, chain.gasOf, i + 1)
    ensures HandlesSent(chain.log, |start|, txHashes, ApprovePlan(coins, allowance, amounts, spender, isMax, i + 1))
  {
    ghost var mid := chain.log;
    var txs := ApproveCoin(chain, coins, allowance, amounts, spender, isMax, i);
    EnsureTraceStep(coins, allowance, amounts, spender, isMax, chain.gasOf, start, i);
    assert chain.log == mid + chain.log[|mid|..];
    HandlesSentConcat(mid, chain.log[|mid|..], |start|, sent, ApprovePlan(coins, allowance, amounts, spender, isMax, i),
                      txs, CoinApprovals(coins, allowance, amounts, spender, isMax, i));
    txHashes := sent + txs;
  }

  /** The loop of `_ensureAllowance`: every approve of the plan, coin by coin, each after a fee refresh for its coin. */
  method ApproveAll(chain: Chain, coins: seq<string>, allowance: seq<nat>, amounts: seq<int>, spender: string, isMax: bool)
    returns (txHashes: seq<TxHandle>)
    requires |allowance| == |coins|
    modifies chain
    ensures chain.log == old(chain.log) + EnsureTrace(coins, allowance, amounts, spender, isMax, chain.gasOf, |coins|)
    ensures HandlesSent(chain.log, |old(chain.log)|, txHashes, ApprovePlan(coins, allowance, amounts, spender, isMax, |coins|))
    ensures Submissions(chain.log[|old(chain.log)|..]) == |txHashes|
  {
    ghost var start := chain.log;
    txHashes := [];
    for i := 0 to |allowance|
      invariant chain.log == start + EnsureTrace(coins, allowance, amounts, spender, isMax, chain.gasOf, i)
      invariant HandlesSent(chain.log, |start|, txHashes, ApprovePlan(coins, allowance, amounts, spender, isMax, i))
    {
      txHashes := ApproveNext(chain, coins, allowance, amounts, spender, isMax, i, start, txHashes);
    }
    assert chain.log[|start|..] == EnsureTrace(coins, allowance, amounts, spender, isMax, chain.gasOf, |coins|);
    EnsureTraceSubmissions(coins, allowance, amounts, spender, isMax, chain.gasOf, |coins|);
  }

  /**
   * `_ensureAllowance`: walks the coins in order and, for each coin whose
   * allowance is below its amount, refreshes the fee data, resets a
   * non-zero allowance with `approve(0)`, and approves MAX_ALLOWANCE (or
   * the amount itself when `isMax` is false). Returns one transaction per
   * approve sent.
   */
  method EnsureAllowance(chain: Chain, coins: seq<string>, amounts: seq<int>, spender: string, isMax: bool,
                         allowanceOf: string -> nat)
    returns (txHashes: seq<TxHandle>)
    modifies chain
    ensures chain.log == old(chain.log) +
      EnsureTrace(coins, AllowanceView(coins, allowanceOf), amounts, spender, isMax, chain.gasOf, |coins|)
    ensures HandlesSent(chain.log, |old(chain.log)|, txHashes,
                        ApprovePlan(coins, AllowanceView(coins, allowanceOf), amounts, spender, isMax, |coins|))
    ensures Submissions(chain.log[|old(chain.log)|..]) == |txHashes|
  {
    var allowance := GetAllowance(coins, allowanceOf);
    txHashes := ApproveAll(chain, coins, allowance, amounts, spender, isMax);
  }

  lemma OneCall(call: Call, gasOf: Call -> nat)
    ensures TotalGas([call], gasOf) == gasOf(call)
    ensures EstimateAll([call]) == [Estimated(call)]
  {
    assert [call][..0] == [];
  }

  /** One pass of `ensureAllowanceEstimateGas`'s loop: the estimates of coin `i`'s approves. */
  method EstimateCoin(chain: Chain, coins: seq<string>, allowance: seq<nat>, amounts: seq<int>, spender: string,
                      isMax: bool, i: nat)
    returns (gas: nat)
    requires |allowance| == |coins| && i < |coins|
    modifies chain
    ensures var approvals := CoinApprovals(coins, allowance, amounts, spender, isMax, i);
      gas == TotalGas(approvals, chain.gasOf) && chain.log == old(chain.log) + EstimateAll(approvals)
  {
    ghost var approvals := CoinApprovals(coins, allowance, amounts, spender, isMax, i);
    gas := 0;
    if i < |amounts| && allowance[i] < amounts[i] {
      var approveAmount := if isMax then MAX_ALLOWANCE else amounts[i];
      var approve := ApproveCall(coins[i], spender, approveAmount);
      OneCall(approve, chain.gasOf);
      if allowance[i] > 0 {
        var reset := ApproveCall(coins[i], spender, 0);
        var resetGas := chain.EstimateGas(reset);
        gas := gas + resetGas;
        OneCall(reset, chain.gasOf);
        TotalGasAppend([reset], [approve], chain.gasOf);
        EstimateAllAppend([reset], [approve]);
        assert approvals == [reset] + [approve];
      } else {
        assert approvals == [approve];
      }
      var approveGas := chain.EstimateGas(approve);
      gas := gas + approveGas;
    } else {
      assert approvals == [];
    }
  }

  /** One more coin's approves: their estimates and gas follow those of the coins before. */
  lemma EstimatePlanStep(coins: seq<string>, allowance: seq<nat>, amounts: seq<int>, spender: string, isMax: bool,
                         gasOf: Call -> nat, start: seq<Event>, i: nat)
    ensures var done := ApprovePlan(coins, allowance, amounts, spender, isMax, i);
      var approvals := CoinApprovals(coins, allowance, amounts, spender, isMax, i);
      TotalGas(ApprovePlan(coins, allowance, amounts, spender, isMax, i + 1), gasOf) ==
        TotalGas(done, gasOf) + TotalGas(approvals, gasOf) &&
      start + EstimateAll(ApprovePlan(coins, allowance, amounts, spender, isMax, i + 1)) ==
        (start + EstimateAll(done)) + EstimateAll(approvals)
  {
    var done := ApprovePlan(coins, allowance, amounts, spender, isMax, i);
    var approvals := CoinApprovals(coins, allowance, amounts, spender, isMax, i);
    TotalGasAppend(done, approvals, gasOf);
    EstimateAllAppend(done, approvals);
    AppendAssoc(start, EstimateAll(done), EstimateAll(approvals));
  }

  /** A pass of the loop: coin `i`'s estimates added to those of the coins before it. */
  method EstimateNext(chain: Chain, coins: seq<string>, allowance: seq<nat>, amounts: seq<int>, spender: string,
                      isMax: bool, i: nat, ghost start: seq<Event>, gasSoFar: nat)
    returns (gas: nat)
    requires |allowance| == |coins| && i < |coins|
    requires gasSoFar == TotalGas(ApprovePlan(coins, allowance, amounts, spender, isMax, i), chain.gasOf)
    requires chain.log == start + EstimateAll(ApprovePlan(coins, allowance, amounts, spender, isMax, i))
    modifies chain
    ensures gas == TotalGas(ApprovePlan(coins, allowance, amounts, spender, isMax, i + 1), chain.gasOf)
    ensures chain.log == start + EstimateAll(ApprovePlan(coins, allowance, amounts, spender, isMax, i + 1))
  {
    var coinGas := EstimateCoin(chain, coins, allowance, amounts, spender, isMax, i);
    EstimatePlanStep(coins, allowance, amounts, spender, isMax, chain.gasOf, start, i);
    gas := gasSoFar + coinGas;
  }

  /** The loop of `ensureAllowanceEstimateGas`: the estimates of coin after coin's approves, summed. */
  method EstimateApprovals(chain: Chain, coins: seq<string>, allowance: seq<nat>, amounts: seq<int>, spender: string,
                           isMax: bool)
    returns (gas: nat)
    requires |allowance| == |coins|
    modifies chain
    ensures var plan := ApprovePlan(coins, allowance, amounts, spender, isMax, |coins|);
      gas == TotalGas(plan, chain.gasOf) && chain.log == old(chain.log) + EstimateAll(plan)
  {
    ghost var start := chain.log;
    gas := 0;
    for i := 0 to |allowance|
      invariant gas == TotalGas(ApprovePlan(coins, allowance, amounts, spender, isMax, i), chain.gasOf)
      invariant chain.log == start + EstimateAll(ApprovePlan(coins, allowance, amounts, spender, isMax, i))
    {
      gas := EstimateNext(chain, coins, allowance, amounts, spender, isMax, i, start, gas);
    }
  }

  /**
   * `ensureAllowanceEstimateGas`: the sum of the estimates of every approve
   * `ensureAllowance` would send for these amounts, sending nothing.
   */
  method EnsureAllowanceEstimateGas(chain: Chain, coins: seq<string>, amounts: seq<Dec>, decimals: map<string, nat>,
                                    spender: string, isMax: bool, allowanceOf: string -> nat)
    returns (gas: nat)
    modifies chain
    ensures var plan := ApprovePlan(coins, AllowanceView(coins, allowanceOf),
                                    ScaleAmounts(amounts, GetCoinDecimals(coins, decimals)), spender, isMax, |coins|);
      gas == TotalGas(plan, chain.gasOf) && chain.log == old(chain.log) + EstimateAll(plan)
  {
    var coinDecimals := GetCoinDecimals(coins, decimals);
    var scaled := ScaleAmounts(amounts, coinDecimals);
    var allowance := GetAllowance(coins, allowanceOf);
    gas := EstimateApprovals(chain, coins, allowance, scaled, spender, isMax);
  }

  // --------------------------------------------- effect of the approves

  /** Whether a call is an `approve(spender, amount)` on `coin`. */
  predicate SetsAllowance(call: Call, coin: string, spender: string) {
    call.target == coin && call.methodName == "approve" && |call.args| == 2 &&
    call.args[0] == Str(spender) && call.args[1].Int?
  }

  /** The allowance of `spender` on `coin` once `calls` have executed in order, starting from `before`. */
  function AllowanceAfter(calls: seq<Call>, coin: string, spender: string, before: int): int {
    if |calls| == 0 then before
    else
      var last := calls[|calls| - 1];
      if SetsAllowance(last, coin, spender) then last.args[1].number
      else AllowanceAfter(calls[..|calls| - 1], coin, spender, before)
  }

  lemma {:induction false} AllowanceAfterAppend(a: seq<Call>, b: seq<Call>, coin: string, spender: string, before: int)
    ensures AllowanceAfter(a + b, coin, spender, before) == AllowanceAfter(b, coin, spender, AllowanceAfter(a, coin, spender, before))
    decreases |b|
  {
    if |b| == 0 {
      assert a + b == a;
    } else {
      assert (a + b)[..|a + b| - 1] == a + b[..|b| - 1];
      AllowanceAfterAppend(a, b[..|b| - 1], coin, spender, before);
    }
  }

  /** Calls that approve nothing on `coin` leave its allowance as it was. */
  lemma {:induction false} AllowanceAfterUntouched(calls: seq<Call>, coin: string, spender: string, before: int)
    requires forall k :: 0 <= k < |calls| ==> calls[k].target != coin
    ensures AllowanceAfter(calls, coin, spender, before) == before
  {
    if |calls| > 0 {
      AllowanceAfterUntouched(calls[..|calls| - 1], coin, spender, before);
    }
  }

  /** The approves for coin `i` leave every other coin alone and bring coin `i` up to its amount. */
  lemma CoinApprovalsEffect(coins: seq<string>, allowance: seq<nat>, amounts: seq<int>, spender: string, isMax: bool,
                            i: nat, coin: string, before: int)
    requires |allowance| == |coins| && i < |coins|
    requires isMax ==> i < |amounts| ==> amounts[i] <= MAX_ALLOWANCE
    ensures var approvals := CoinApprovals(coins, allowance, amounts, spender, isMax, i);
      (coin != coins[i] ==> AllowanceAfter(approvals, coin, spender, before) == before) &&
      (coin == coins[i] && NeedsApproval(coins, allowance, amounts, i) ==> AllowanceAfter(approvals, coin, spender, before) >= amounts[i]) &&
      (!NeedsApproval(coins, allowance, amounts, i) ==> AllowanceAfter(approvals, coin, spender, before) == before)
  {
    var approvals := CoinApprovals(coins, allowance, amounts, spender, isMax, i);
    if coin != coins[i] {
      AllowanceAfterUntouched(approvals, coin, spender, before);
    } else if NeedsApproval(coins, allowance, amounts, i) {
      assert SetsAllowance(approvals[|approvals| - 1], coin, spender);
    }
  }

  /** One more coin's approves: coin `c` is brought up to its amount and every other coin keeps its allowance. */
  lemma CoverStep(coins: seq<string>, allowance: seq<nat>, amounts: seq<int>, spender: string, isMax: bool, c: nat, i: nat,
                  done: seq<Call>, plan: seq<Call>)
    requires |allowance| == |coins| && c < |coins| && i < |coins| && (i != c ==> coins[i] != coins[c])
    requires isMax ==> c < |amounts| ==> amounts[c] <= MAX_ALLOWANCE
    requires plan == done + CoinApprovals(coins, allowance, amounts, spender, isMax, c)
    requires var mid := AllowanceAfter(done, coins[i], spender, allowance[i]);
      (i < c && i < |amounts| ==> mid >= amounts[i]) && (c <= i ==> mid == allowance[i])
    ensures var after := AllowanceAfter(plan, coins[i], spender, allowance[i]);
      (i <= c && i < |amounts| ==> after >= amounts[i]) && (c < i ==> after == allowance[i])
  {
    var approvals := CoinApprovals(coins, allowance, amounts, spender, isMax, c);
    var mid := AllowanceAfter(done, coins[i], spender, allowance[i]);
    AllowanceAfterAppend(done, approvals, coins[i], spender, allowance[i]);
    CoinApprovalsEffect(coins, allowance, amounts, spender, isMax, c, coins[i], mid);
  }

  /**
   * Once the whole plan has executed, every coin with an amount holds an
   * allowance at least that amount, provided each coin is listed once and,
   * for unlimited approvals, every amount fits in MAX_ALLOWANCE.
   */
  lemma {:induction false} ApprovePlanCovers(coins: seq<string>, allowance: seq<nat>, amounts: seq<int>, spender: string,
                                             isMax: bool, n: nat)
    requires |allowance| == |coins| && n <= |coins| && NoDuplicates(coins)
    requires isMax ==> forall k :: 0 <= k < |amounts| ==> amounts[k] <= MAX_ALLOWANCE
    ensures var plan := ApprovePlan(coins, allowance, amounts, spender, isMax, n);
      (forall i :: 0 <= i < n && i < |amounts| ==> AllowanceAfter(plan, coins[i], spender, allowance[i]) >= amounts[i]) &&
      (forall i :: n <= i < |coins| ==> AllowanceAfter(plan, coins[i], spender, allowance[i]) == allowance[i])
  {
    if n > 0 {
      ApprovePlanCovers(coins, allowance, amounts, spender, isMax, n - 1);
      forall i | 0 <= i < |coins|
        ensures var after := AllowanceAfter(ApprovePlan(coins, allowance, amounts, spender, isMax, n), coins[i], spender, allowance[i]);
          (i < n && i < |amounts| ==> after >= amounts[i]) && (n <= i ==> after == allowance[i])
      {
        CoverStep(coins, allowance, amounts, spender, isMax, n - 1, i,
                  ApprovePlan(coins, allowance, amounts, spender, isMax, n - 1),
                  ApprovePlan(coins, allowance, amounts, spender, isMax, n));
      }
    }
  }
}
