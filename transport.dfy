/**
 * The chain as the library reaches it through its signer: a contract call
 * can be estimated for gas, the fee data can be refreshed, and a call can
 * be sent with a gas limit. The model keeps the ordered trace of these
 * interactions in `log`; what the chain answers for an estimate is the
 * fixed function `gasOf`, and a sent transaction is identified by its
 * position in the trace.
 */
module Transport {
  /** An argument of a contract call. */
  datatype Arg = Str(text: string) | Int(number: int) | Strs(texts: seq<string>) | Ints(numbers: seq<int>)

  /** A contract call: the contract's address, the method's name and its arguments. */
  datatype Call = Call(target: string, methodName: string, args: seq<Arg>)

  datatype Event =
    | Estimated(call: Call)
    | FeesUpdated
    | Sent(call: Call, gasLimit: int)

  /** A submitted transaction, identified by the position of its `Sent` event in the trace. */
  datatype TxHandle = TxHandle(position: nat)

  /** The number of submissions in a trace. */
  function Submissions(trace: seq<Event>): (n: nat)
    ensures n <= |trace|
  {
    if trace == [] then 0
    else Submissions(trace[..|trace| - 1]) + (if trace[|trace| - 1].Sent? then 1 else 0)
  }

  lemma {:induction false} SubmissionsAppend(a: seq<Event>, b: seq<Event>)
    ensures Submissions(a + b) == Submissions(a) + Submissions(b)
    decreases |b|
  {
    if b == [] {
      assert a + b == a;
    } else {
      assert (a + b)[..|a + b| - 1] == a + b[..|b| - 1];
      SubmissionsAppend(a, b[..|b| - 1]);
    }
  }

  /**
   * `txs` are the transactions sent for `calls`, one per call and in order:
   * each is the position of a `Sent` event of its call at or after `from`,
   * at increasing positions.
   */
  ghost predicate HandlesSent(log: seq<Event>, from: nat, txs: seq<TxHandle>, calls: seq<Call>) {
    |txs| == |calls| &&
    (forall k :: 0 <= k < |txs| ==>
      from <= txs[k].position < |log| && log[txs[k].position].Sent? && log[txs[k].position].call == calls[k]) &&
    (forall k :: 0 < k < |txs| ==> txs[k - 1].position < txs[k].position)
  }

  /** Handles into a log stay valid when the log grows, and those sent later follow them. */
  lemma HandlesSentConcat(log: seq<Event>, more: seq<Event>, from: nat, a: seq<TxHandle>, ca: seq<Call>,
                          b: seq<TxHandle>, cb: seq<Call>)
    requires from <= |log|
    requires HandlesSent(log, from, a, ca) && HandlesSent(log + more, |log|, b, cb)
    ensures HandlesSent(log + more, from, a + b, ca + cb)
  {
    var ab := a + b;
    forall k | 0 < k < |ab|
      ensures ab[k - 1].position < ab[k].position
    {
      if k >= |a| + 1 {
        assert ab[k - 1] == b[k - 1 - |a|] && ab[k] == b[k - |a|];
      }
    }
  }

  class Chain {
    /** The chain's answer to `estimateGas` for a call. */
    const gasOf: Call -> nat
    /** Every interaction so far, oldest first. */
    var log: seq<Event>

    constructor (gasOf: Call -> nat)
      ensures this.gasOf == gasOf && log == []
    {
      this.gasOf := gasOf;
      log := [];
    }

    /** `contract.method.estimateGas(...)`. */
    method EstimateGas(call: Call) returns (gas: nat)
      modifies this
      ensures gas == gasOf(call)
      ensures log == old(log) + [Estimated(call)]
    {
      gas := gasOf(call);
      log := log + [Estimated(call)];
    }

    /** `curve.updateFeeData()`. */
    method UpdateFeeData()
      modifies this
      ensures log == old(log) + [FeesUpdated]
    {
      log := log + [FeesUpdated];
    }

    /** `contract.method(..., { gasLimit })`: submits the call. */
    method Send(call: Call, gasLimit: int) returns (tx: TxHandle)
      modifies this
      ensures tx == TxHandle(|old(log)|)
      ensures log == old(log) + [Sent(call, gasLimit)]
    {
      tx := TxHandle(|log|);
      log := log + [Sent(call, gasLimit)];
    }
  }
}
