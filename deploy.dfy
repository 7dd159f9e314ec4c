/**
 * Pool and gauge deployment of src/factory/deploy.ts: the parameter checks
 * of the four pool kinds, which factory method a stable plain pool goes to
 * and with which arguments, the calls built for the other kinds, and the
 * estimate-then-submit protocol every deployment shares.
 *
 * Numeric inputs are decimal numbers (`Dec`); the checks compare their exact
 * values and the calls carry their `parseUnits` encodings. The network's
 * addresses, the keccak hash behind `ethers.id` and the floating-point
 * half-life transform `parseUnits(Math.floor(t / Math.log(2)), 0)` are
 * given by a `Network` value.
 */
module Deploy {
  import opened Wrappers
  import opened Formatting
  import opened Transport
  import opened Strings

  datatype Network = Network(
    chainId: int,
    factory: string,
    factoryAdmin: string,
    cryptoFactory: string,
    tricryptoFactory: string,
    zeroAddress: string,
    wrappedNative: string,
    id: string -> string,
    emaEncode: real -> int)

  // ------------------------------------------------------------ parameters

  datatype PlainParams = PlainParams(
    name: string, symbol: string, coins: seq<string>, A: Dec, fee: Dec,
    assetType: int, implementationIdx: int, emaTime: Dec, oracleAddress: string, methodName: string)

  datatype MetaParams = MetaParams(
    basePool: string, name: string, symbol: string, coin: string, A: Dec, fee: Dec, implementationIdx: int)

  datatype CryptoParams = CryptoParams(
    name: string, symbol: string, coins: seq<string>, A: Dec, gamma: Dec, midFee: Dec, outFee: Dec,
    allowedExtraProfit: Dec, feeGamma: Dec, adjustmentStep: Dec, maHalfTime: Dec, initialPrice: Dec)

  datatype TricryptoParams = TricryptoParams(
    name: string, symbol: string, coins: seq<string>, A: Dec, gamma: Dec, midFee: Dec, outFee: Dec,
    allowedExtraProfit: Dec, feeGamma: Dec, adjustmentStep: Dec, emaTime: Dec, initialPrices: seq<Dec>)

  /** The parameters the checks are about, in the order every kind checks them. */
  datatype Field =
    | Name | Symbol | Coins | A | Gamma | Fee | MidFee | OutFee | AssetType
    | AllowedExtraProfit | FeeGamma | AdjustmentStep | ImplementationIdx | EmaTime | MaHalfTime
    | InitialPrice | InitialPrices

  function Rank(f: Field): (r: nat)
    ensures r < 17
  {
    match f
    case Name => 0
    case Symbol => 1
    case Coins => 2
    case A => 3
    case Gamma => 4
    case Fee => 5
    case MidFee => 6
    case OutFee => 7
    case AssetType => 8
    case AllowedExtraProfit => 9
    case FeeGamma => 10
    case AdjustmentStep => 11
    case ImplementationIdx => 12
    case EmaTime => 13
    case MaHalfTime => 14
    case InitialPrice => 15
    case InitialPrices => 16
  }

  datatype Reason = TooLong | WrongCount | NotDistinct | BelowMin | AboveMax | NotAllowed | NotPositive

  /** The error a deployment throws before any contract call. */
  datatype Violation = Violation(field: Field, reason: Reason)

  predicate Within(x: Dec, lo: real, hi: real) {
    lo <= Value(x) <= hi
  }

  /** A parameter and the closed interval it must lie in. */
  datatype Range = Range(x: Dec, lo: real, hi: real)

  predicate InRange(b: Option<Range>) {
    b.None? || Within(b.value.x, b.value.lo, b.value.hi)
  }

  /** Why a value outside its interval is refused: the lower bound is tested first. */
  function RangeReason(x: Dec, lo: real): Reason {
    if Value(x) < lo then BelowMin else AboveMax
  }

  /** The parameter of the given rank: the inverse of `Rank`. */
  function FieldAt(i: nat): (f: Field)
    requires i < 17
    ensures Rank(f) == i
  {
    [Name, Symbol, Coins, A, Gamma, Fee, MidFee, OutFee, AssetType, AllowedExtraProfit, FeeGamma,
     AdjustmentStep, ImplementationIdx, EmaTime, MaHalfTime, InitialPrice, InitialPrices][i]
  }

  lemma FieldAtRank(f: Field)
    ensures Rank(f) < 17 && FieldAt(Rank(f)) == f
  {
  }

  // ------------------------------------------------------------ check chains

  /**
   * `check` inspects one parameter: it passes exactly when `ok` holds of
   * that parameter, and a failure names the parameter it inspected.
   */
  predicate Reports(check: Field -> Outcome<Violation>, ok: Field -> bool) {
    forall f :: (check(f).Pass? <==> ok(f)) && (check(f).Fail? ==> check(f).error.field == f)
  }

  /** Runs `check` on the parameters of rank below `n`, in rank order, and stops at the first failure. */
  function FirstFailure(check: Field -> Outcome<Violation>, n: nat): Outcome<Violation>
    requires n <= 17
  {
    if n == 0 then Pass
    else
      var r := FirstFailure(check, n - 1);
      if r.Fail? then r else check(FieldAt(n - 1))
  }

  /**
   * A chain of checks passes iff every parameter it inspects is acceptable,
   * and otherwise reports an unacceptable parameter all of whose
   * predecessors are acceptable.
   */
  lemma {:induction false} FirstFailureSpec(check: Field -> Outcome<Violation>, ok: Field -> bool, n: nat)
    requires n <= 17 && Reports(check, ok)
    ensures var r := FirstFailure(check, n);
      (r.Pass? <==> forall f :: Rank(f) < n ==> ok(f)) &&
      (r.Fail? ==> Rank(r.error.field) < n && !ok(r.error.field) && forall f :: Rank(f) < Rank(r.error.field) ==> ok(f)) &&
      (r.Fail? ==> r == check(r.error.field))
  {
    if n > 0 {
      FirstFailureSpec(check, ok, n - 1);
      var r := FirstFailure(check, n - 1);
      if r.Pass? {
        forall f | Rank(f) < n
          ensures ok(f) || f == FieldAt(n - 1)
        {
          FieldAtRank(f);
        }
      }
    }
  }

  // ------------------------------------------------------- stable plain checks

  /** The implementation indices a stable plain pool may use: 4 and 5 only for two coins on Ethereum. */
  predicate PlainIndexAllowed(chainId: int, coinCount: nat, idx: int) {
    if chainId != 1 || coinCount > 2 then 0 <= idx <= 3 else 0 <= idx <= 5
  }

  predicate PlainFieldOk(chainId: int, p: PlainParams, f: Field) {
    match f
    case Name => Utf16Length(p.name) <= 32
    case Symbol => Utf16Length(p.symbol) <= 10
    case Coins => 2 <= |p.coins| <= 4
    case Fee => Within(p.fee, 0.04, 1.0)
    case AssetType => 0 <= p.assetType <= 3
    case ImplementationIdx => PlainIndexAllowed(chainId, |p.coins|, p.implementationIdx)
    case EmaTime => Value(p.emaTime) > 0.0
    case _ => true
  }

  /** The checks `_deployStablePlainPool` makes on one parameter, in source order. */
  function PlainCheck(chainId: int, p: PlainParams, f: Field): (r: Outcome<Violation>)
    ensures r.Pass? <==> PlainFieldOk(chainId, p, f)
    ensures r.Fail? ==> r.error.field == f
    ensures r.Fail? && (f == Name || f == Symbol) ==> r.error.reason == TooLong
    ensures r.Fail? && f == Coins ==> r.error.reason == WrongCount
    ensures r.Fail? && f == Fee ==> r.error.reason == RangeReason(p.fee, 0.04)
    ensures r.Fail? && (f == AssetType || f == ImplementationIdx) ==> r.error.reason == NotAllowed
    ensures r.Fail? && f == EmaTime ==> r.error.reason == NotPositive
  {
    match f
    case Name => if Utf16Length(p.name) > 32 then Fail(Violation(Name, TooLong)) else Pass
    case Symbol => if Utf16Length(p.symbol) > 10 then Fail(Violation(Symbol, TooLong)) else Pass
    case Coins => if |p.coins| !in {2, 3, 4} then Fail(Violation(Coins, WrongCount)) else Pass
    case Fee => RangeCheck(p.fee, 0.04, 1.0, Fee)
    case AssetType => if p.assetType !in {0, 1, 2, 3} then Fail(Violation(AssetType, NotAllowed)) else Pass
    case ImplementationIdx =>
      if (chainId != 1 || |p.coins| > 2) && p.implementationIdx !in {0, 1, 2, 3} then Fail(Violation(ImplementationIdx, NotAllowed))
      else if !(chainId != 1 || |p.coins| > 2) && p.implementationIdx !in {0, 1, 2, 3, 4, 5} then Fail(Violation(ImplementationIdx, NotAllowed))
      else Pass
    case EmaTime => if Value(p.emaTime) <= 0.0 then Fail(Violation(EmaTime, NotPositive)) else Pass
    case _ => Pass
  }

  /**
   * The checks of `_deployStablePlainPool`, made before any contract call:
   * it passes iff every parameter is acceptable, and otherwise reports the
   * first unacceptable one.
   */
  function ValidateStablePlain(chainId: int, p: PlainParams): (r: Outcome<Violation>)
    ensures r.Pass? <==> forall f :: PlainFieldOk(chainId, p, f)
    ensures r.Fail? ==> !PlainFieldOk(chainId, p, r.error.field) && forall f :: Rank(f) < Rank(r.error.field) ==> PlainFieldOk(chainId, p, f)
    ensures r.Fail? ==> r == PlainCheck(chainId, p, r.error.field)
  {
    var check := f => PlainCheck(chainId, p, f);
    var ok := f => PlainFieldOk(chainId, p, f);
    FirstFailureSpec(check, ok, 17);
    assert forall f :: ok(f) == PlainFieldOk(chainId, p, f);
    FirstFailure(check, 17)
  }

  /** Implementation indices 4 and 5 get through only for a two-coin pool on Ethereum (chain 1). */
  lemma PlainHighIndexOnlyOnEthereum(chainId: int, p: PlainParams)
    requires ValidateStablePlain(chainId, p).Pass?
    ensures 0 <= p.implementationIdx <= 5
    ensures p.implementationIdx >= 4 ==> chainId == 1 && |p.coins| == 2
  {
    assert PlainFieldOk(chainId, p, Coins) && PlainFieldOk(chainId, p, ImplementationIdx);
  }

  // --------------------------------------------------------- stable meta checks

  predicate MetaFieldOk(p: MetaParams, f: Field) {
    match f
    case Name => Utf16Length(p.name) <= 32
    case Symbol => Utf16Length(p.symbol) <= 10
    case Fee => Within(p.fee, 0.04, 1.0)
    case ImplementationIdx => 0 <= p.implementationIdx <= 1
    case _ => true
  }

  /** The checks `_deployStableMetaPool` makes on one parameter, in source order. */
  function MetaCheck(p: MetaParams, f: Field): (r: Outcome<Violation>)
    ensures r.Pass? <==> MetaFieldOk(p, f)
    ensures r.Fail? ==> r.error.field == f
    ensures r.Fail? && (f == Name || f == Symbol) ==> r.error.reason == TooLong
    ensures r.Fail? && f == Fee ==> r.error.reason == RangeReason(p.fee, 0.04)
    ensures r.Fail? && f == ImplementationIdx ==> r.error.reason == NotAllowed
  {
    match f
    case Name => if Utf16Length(p.name) > 32 then Fail(Violation(Name, TooLong)) else Pass
    case Symbol => if Utf16Length(p.symbol) > 10 then Fail(Violation(Symbol, TooLong)) else Pass
    case Fee => RangeCheck(p.fee, 0.04, 1.0, Fee)
    case ImplementationIdx => if p.implementationIdx !in {0, 1} then Fail(Violation(ImplementationIdx, NotAllowed)) else Pass
    case _ => Pass
  }

  /** The checks of `_deployStableMetaPool`: pass iff all acceptable, else the first unacceptable parameter. */
  function ValidateStableMeta(p: MetaParams): (r: Outcome<Violation>)
    ensures r.Pass? <==> forall f :: MetaFieldOk(p, f)
    ensures r.Fail? ==> !MetaFieldOk(p, r.error.field) && forall f :: Rank(f) < Rank(r.error.field) ==> MetaFieldOk(p, f)
    ensures r.Fail? ==> r == MetaCheck(p, r.error.field)
  {
    var check := f => MetaCheck(p, f);
    var ok := f => MetaFieldOk(p, f);
    FirstFailureSpec(check, ok, 17);
    assert forall f :: ok(f) == MetaFieldOk(p, f);
    FirstFailure(check, 17)
  }

  // --------------------------------------------------------------- crypto checks

  predicate CryptoFieldOk(p: CryptoParams, f: Field) {
    match f
    case Name => Utf16Length(p.name) <= 32
    case Symbol => Utf16Length(p.symbol) <= 10
    case Coins => |p.coins| == 2 && p.coins[0] != p.coins[1]
    case _ => InRange(CryptoRange(p, f))
  }

  /** The interval each numeric parameter of a crypto pool must lie in. */
  function CryptoRange(p: CryptoParams, f: Field): Option<Range> {
    match f
    case A => Some(Range(p.A, 4000.0, 4000000000.0))
    case Gamma => Some(Range(p.gamma, 0.00000001, 0.02))
    case MidFee => Some(Range(p.midFee, 0.005, 100.0))
    case OutFee => Some(Range(p.outFee, Value(p.midFee), 100.0))
    case AllowedExtraProfit => Some(Range(p.allowedExtraProfit, 0.0, 0.01))
    case FeeGamma => Some(Range(p.feeGamma, 0.0, 1.0))
    case AdjustmentStep => Some(Range(p.adjustmentStep, 0.0, 1.0))
    case MaHalfTime => Some(Range(p.maHalfTime, 0.0, 604800.0))
    case InitialPrice => Some(Range(p.initialPrice, 0.000000000001, 1000000000000.0))
    case _ => None
  }

  /** The lower bound is checked before the upper one. */
  function RangeCheck(x: Dec, lo: real, hi: real, f: Field): (r: Outcome<Violation>)
    ensures r.Pass? <==> Within(x, lo, hi)
    ensures r.Fail? ==> r.error.field == f && r.error.reason == RangeReason(x, lo)
  {
    if Value(x) < lo then Fail(Violation(f, BelowMin))
    else if Value(x) > hi then Fail(Violation(f, AboveMax))
    else Pass
  }

  /** The checks `_deployCryptoPool` makes on one parameter, in source order. */
  function CryptoCheck(p: CryptoParams, f: Field): (r: Outcome<Violation>)
    ensures r.Pass? <==> CryptoFieldOk(p, f)
    ensures r.Fail? ==> r.error.field == f
    ensures r.Fail? && (f == Name || f == Symbol) ==> r.error.reason == TooLong
    ensures r.Fail? && f == Coins ==> r.error.reason == (if |p.coins| != 2 then WrongCount else NotDistinct)
    ensures r.Fail? && CryptoRange(p, f).Some? ==>
      r.error.reason == RangeReason(CryptoRange(p, f).value.x, CryptoRange(p, f).value.lo)
  {
    match f
    case Name => if Utf16Length(p.name) > 32 then Fail(Violation(Name, TooLong)) else Pass
    case Symbol => if Utf16Length(p.symbol) > 10 then Fail(Violation(Symbol, TooLong)) else Pass
    case Coins =>
      if |p.coins| != 2 then Fail(Violation(Coins, WrongCount))
      else if p.coins[0] == p.coins[1] then Fail(Violation(Coins, NotDistinct))
      else Pass
    case _ =>
      match CryptoRange(p, f)
      case Some(b) => RangeCheck(b.x, b.lo, b.hi, f)
      case None => Pass
  }

  /** The checks of `_deployCryptoPool`: pass iff all acceptable, else the first unacceptable parameter. */
  function ValidateCrypto(p: CryptoParams): (r: Outcome<Violation>)
    ensures r.Pass? <==> forall f :: CryptoFieldOk(p, f)
    ensures r.Fail? ==> !CryptoFieldOk(p, r.error.field) && forall f :: Rank(f) < Rank(r.error.field) ==> CryptoFieldOk(p, f)
    ensures r.Fail? ==> r == CryptoCheck(p, r.error.field)
  {
    var check := f => CryptoCheck(p, f);
    var ok := f => CryptoFieldOk(p, f);
    FirstFailureSpec(check, ok, 17);
    assert forall f :: ok(f) == CryptoFieldOk(p, f);
    FirstFailure(check, 17)
  }

  // ------------------------------------------------------------ tricrypto checks

  predicate TricryptoFieldOk(p: TricryptoParams, f: Field) {
    match f
    case Name => Utf16Length(p.name) <= 64
    case Symbol => Utf16Length(p.symbol) <= 32
    case Coins => |p.coins| == 3 && p.coins[0] != p.coins[1] && p.coins[1] != p.coins[2] && p.coins[0] != p.coins[2]
    case InitialPrices =>
      |p.initialPrices| == 2 &&
      Within(p.initialPrices[0], MIN_INITIAL_PRICE, MAX_INITIAL_PRICE) &&
      Within(p.initialPrices[1], MIN_INITIAL_PRICE, MAX_INITIAL_PRICE)
    case _ => InRange(TricryptoRange(p, f))
  }

  const MIN_INITIAL_PRICE: real := 0.000000000001
  const MAX_INITIAL_PRICE: real := 1000000000000.0

  /** The interval each single numeric parameter of a tricrypto pool must lie in. */
  function TricryptoRange(p: TricryptoParams, f: Field): Option<Range> {
    match f
    case A => Some(Range(p.A, 2700.0, 270000000.0))
    case Gamma => Some(Range(p.gamma, 0.00000001, 0.05))
    case MidFee => Some(Range(p.midFee, 0.0, 100.0))
    case OutFee => Some(Range(p.outFee, Value(p.midFee), 100.0))
    case AllowedExtraProfit => Some(Range(p.allowedExtraProfit, 0.0, 1.0))
    case FeeGamma => Some(Range(p.feeGamma, 0.0, 1.0))
    case AdjustmentStep => Some(Range(p.adjustmentStep, 0.0, 1.0))
    case EmaTime => Some(Range(p.emaTime, 60.0, 604800.0))
    case _ => None
  }

  /** The checks `_deployTricryptoPool` makes on one parameter, in source order. */
  function TricryptoCheck(p: TricryptoParams, f: Field): (r: Outcome<Violation>)
    ensures r.Pass? <==> TricryptoFieldOk(p, f)
    ensures r.Fail? ==> r.error.field == f
    ensures r.Fail? && (f == Name || f == Symbol) ==> r.error.reason == TooLong
    ensures r.Fail? && f == Coins ==> r.error.reason == (if |p.coins| != 3 then WrongCount else NotDistinct)
    ensures r.Fail? && TricryptoRange(p, f).Some? ==>
      r.error.reason == RangeReason(TricryptoRange(p, f).value.x, TricryptoRange(p, f).value.lo)
    ensures r.Fail? && f == InitialPrices ==>
      r.error.reason ==
        if |p.initialPrices| != 2 then WrongCount
        else if !Within(p.initialPrices[0], MIN_INITIAL_PRICE, MAX_INITIAL_PRICE) then RangeReason(p.initialPrices[0], MIN_INITIAL_PRICE)
        else RangeReason(p.initialPrices[1], MIN_INITIAL_PRICE)
  {
    match f
    case Name => if Utf16Length(p.name) > 64 then Fail(Violation(Name, TooLong)) else Pass
    case Symbol => if Utf16Length(p.symbol) > 32 then Fail(Violation(Symbol, TooLong)) else Pass
    case Coins =>
      if |p.coins| != 3 then Fail(Violation(Coins, WrongCount))
      else if p.coins[0] == p.coins[1] || p.coins[1] == p.coins[2] || p.coins[0] == p.coins[2] then Fail(Violation(Coins, NotDistinct))
      else Pass
    case InitialPrices =>
      if |p.initialPrices| != 2 then Fail(Violation(InitialPrices, WrongCount))
      else
        var first := RangeCheck(p.initialPrices[0], MIN_INITIAL_PRICE, MAX_INITIAL_PRICE, InitialPrices);
        if first.Fail? then first else RangeCheck(p.initialPrices[1], MIN_INITIAL_PRICE, MAX_INITIAL_PRICE, InitialPrices)
    case _ =>
      match TricryptoRange(p, f)
      case Some(b) => RangeCheck(b.x, b.lo, b.hi, f)
      case None => Pass
  }

  /** The checks of `_deployTricryptoPool`: pass iff all acceptable, else the first unacceptable parameter. */
  function ValidateTricrypto(p: TricryptoParams): (r: Outcome<Violation>)
    ensures r.Pass? <==> forall f :: TricryptoFieldOk(p, f)
    ensures r.Fail? ==> !TricryptoFieldOk(p, r.error.field) && forall f :: Rank(f) < Rank(r.error.field) ==> TricryptoFieldOk(p, f)
    ensures r.Fail? ==> r == TricryptoCheck(p, r.error.field)
  {
    var check := f => TricryptoCheck(p, f);
    var ok := f => TricryptoFieldOk(p, f);
    FirstFailureSpec(check, ok, 17);
    assert forall f :: ok(f) == TricryptoFieldOk(p, f);
    FirstFailure(check, 17)
  }

  /** An accepted crypto pool has two distinct coins and an outFee of at least its midFee. */
  lemma AcceptedCryptoShape(p: CryptoParams)
    requires ValidateCrypto(p).Pass?
    ensures |p.coins| == 2 && p.coins[0] != p.coins[1]
    ensures Value(p.midFee) <= Value(p.outFee)
  {
    assert CryptoFieldOk(p, Coins) && CryptoFieldOk(p, OutFee);
  }

  /** An accepted tricrypto pool has three pairwise distinct coins, outFee of at least midFee and two initial prices. */
  lemma AcceptedTricryptoShape(p: TricryptoParams)
    requires ValidateTricrypto(p).Pass?
    ensures |p.coins| == 3 && p.coins[0] != p.coins[1] && p.coins[1] != p.coins[2] && p.coins[0] != p.coins[2]
    ensures Value(p.midFee) <= Value(p.outFee)
    ensures |p.initialPrices| == 2
  {
    assert TricryptoFieldOk(p, Coins) && TricryptoFieldOk(p, OutFee) && TricryptoFieldOk(p, InitialPrices);
  }

  // ------------------------------------------------------ stable plain routing

  /** Whether the pool goes through the admin proxy so that a non-default emaTime is passed. */
  predicate UseProxy(net: Network, p: PlainParams) {
    (net.chainId == 1 && |p.coins| == 2 && p.implementationIdx == 4 && Value(p.emaTime) != 600.0) ||
    (net.chainId == 1 && |p.coins| == 2 && p.implementationIdx == 5 && Value(p.emaTime) != 600.0) ||
    ((net.chainId == 42161 || net.chainId == 10) && |p.coins| == 2 && p.implementationIdx == 0 && Value(p.emaTime) != 600.0)
  }

  /** Whether the pool is deployed together with a rate oracle (Arbitrum and Optimism, two coins, implementation 2). */
  predicate SetOracle(net: Network, p: PlainParams) {
    (net.chainId == 42161 || net.chainId == 10) && |p.coins| == 2 && p.implementationIdx == 2
  }

  function PlainTarget(net: Network, p: PlainParams): string {
    if UseProxy(net, p) || SetOracle(net, p) then net.factoryAdmin else net.factory
  }

  function PlainMethod(net: Network, p: PlainParams): string {
    if SetOracle(net, p) then "deploy_plain_pool_and_set_oracle" else "deploy_plain_pool"
  }

  /** The coin list filled up to four entries with the zero address. */
  function PadCoins(coins: seq<string>, zero: string): (r: seq<string>)
    requires |coins| <= 4
    ensures |r| == 4
    ensures r[..|coins|] == coins
    ensures forall i :: |coins| <= i < 4 ==> r[i] == zero
  {
    coins + seq(4 - |coins|, _ => zero)
  }

  const SENTINEL_METHOD_ID: string := "0x00000000"

  /** The oracle's method id: the sentinel passes through, any other name gives the first 10 characters of its hash. */
  function MethodId(methodName: string, id: string -> string): (r: string)
    ensures methodName == SENTINEL_METHOD_ID ==> r == SENTINEL_METHOD_ID
    ensures methodName != SENTINEL_METHOD_ID ==> r <= id(methodName) && |r| == Min(10, |id(methodName)|)
  {
    if methodName == SENTINEL_METHOD_ID then SENTINEL_METHOD_ID
    else
      var h := id(methodName);
      h[..Min(10, |h|)]
  }

  /** The seven arguments every stable plain deployment passes. */
  function PlainBaseArgs(net: Network, p: PlainParams): seq<Arg>
    requires |p.coins| <= 4
  {
    [Str(p.name), Str(p.symbol), Strs(PadCoins(p.coins, net.zeroAddress)),
     Int(Encode(p.A, 0)), Int(Encode(p.fee, 8)), Int(p.assetType), Int(p.implementationIdx)]
  }

  /**
   * The argument list by route: with the oracle, the encoded emaTime, the
   * method id and the oracle address follow the base arguments; through the
   * proxy only the encoded emaTime does; otherwise the base arguments alone.
   */
  function PlainArgList(net: Network, p: PlainParams): seq<Arg>
    requires |p.coins| <= 4
  {
    var ema := Int(net.emaEncode(Value(p.emaTime)));
    if SetOracle(net, p) then PlainBaseArgs(net, p) + [ema, Str(MethodId(p.methodName, net.id)), Str(p.oracleAddress)]
    else if UseProxy(net, p) then PlainBaseArgs(net, p) + [ema]
    else PlainBaseArgs(net, p)
  }

  function PlainCall(net: Network, p: PlainParams): Call
    requires |p.coins| <= 4
  {
    Call(PlainTarget(net, p), PlainMethod(net, p), PlainArgList(net, p))
  }

  /** The argument list as `_deployStablePlainPool` builds it, pushing onto the base arguments. */
  method StablePlainArgs(net: Network, p: PlainParams) returns (args: seq<Arg>)
    requires |p.coins| <= 4
    ensures args == PlainArgList(net, p)
  {
    var coins := PadCoins(p.coins, net.zeroAddress);
    args := [Str(p.name), Str(p.symbol), Strs(coins), Int(Encode(p.A, 0)), Int(Encode(p.fee, 8)), Int(p.assetType), Int(p.implementationIdx)];
    ghost var base := args;
    assert base == PlainBaseArgs(net, p);
    var ema := Int(net.emaEncode(Value(p.emaTime)));
    if UseProxy(net, p) || SetOracle(net, p) {
      args := args + [ema];
    }
    if SetOracle(net, p) {
      var methodId := MethodId(p.methodName, net.id);
      args := args + [Str(methodId), Str(p.oracleAddress)];
      assert args == base + [ema, Str(methodId), Str(p.oracleAddress)];
    }
    RoutesExclusive(net, p);
  }

  /** The proxy and the oracle routes never apply together. */
  lemma RoutesExclusive(net: Network, p: PlainParams)
    ensures !(UseProxy(net, p) && SetOracle(net, p))
  {
  }

  /**
   * The routing table of a stable plain deployment: the admin factory
   * exactly when a route applies, the oracle method exactly for the oracle
   * route, and 10, 8 or 7 arguments for the oracle route, the proxy route
   * and neither.
   */
  lemma PlainRouting(net: Network, p: PlainParams)
    requires |p.coins| <= 4 && net.factoryAdmin != net.factory
    ensures var call := PlainCall(net, p);
      (call.target == net.factoryAdmin <==> UseProxy(net, p) || SetOracle(net, p)) &&
      (call.methodName == "deploy_plain_pool_and_set_oracle" <==> SetOracle(net, p)) &&
      |call.args| == (if SetOracle(net, p) then 10 else if UseProxy(net, p) then 8 else 7) &&
      call.args[..7] == PlainBaseArgs(net, p)
  {
    RoutesExclusive(net, p);
    var base := PlainBaseArgs(net, p);
    var args := PlainArgList(net, p);
    assert |"deploy_plain_pool"| != |"deploy_plain_pool_and_set_oracle"|;
    if SetOracle(net, p) {
      assert |args| == 10 && args[..7] == base;
    } else if UseProxy(net, p) {
      assert |args| == 8 && args[..7] == base;
    } else {
      assert args == base;
    }
  }

  /** With the default emaTime of 600 seconds the proxy route is never taken. */
  lemma DefaultEmaTimeSkipsProxy(net: Network, p: PlainParams)
    requires Value(p.emaTime) == 600.0
    ensures !UseProxy(net, p)
  {
  }

  // ----------------------------------------------------- estimate, then submit

  /** What a deployment call returns: the gas estimate, or the submitted transaction. */
  datatype Submission = GasEstimate(gas: nat) | Submitted(tx: TxHandle)

  /**
   * The interactions of one estimate-then-submit round: the estimate alone
   * when only an estimate is asked for, otherwise the estimate, a fee
   * refresh and the submission with the padded gas limit.
   */
  function SubmitTrace(call: Call, gas: nat, estimateGas: bool): seq<Event> {
    if estimateGas then [Estimated(call)]
    else [Estimated(call), FeesUpdated, Sent(call, MulBy1_3(gas))]
  }

  /** The result of the round whose trace starts at position `start` of the log. */
  function SubmitResult(gas: nat, start: nat, estimateGas: bool): Submission {
    if estimateGas then GasEstimate(gas) else Submitted(TxHandle(start + 2))
  }

  /**
   * The shared tail of every deployment, `_setOracle` and `_deployGauge`:
   * estimate the call's gas and stop there when only an estimate is asked
   * for; otherwise refresh the fee data and submit the call once with the
   * estimate plus 30% as its gas limit.
   */
  method EstimateThenSend(chain: Chain, call: Call, estimateGas: bool) returns (s: Submission)
    modifies chain
    ensures chain.log == old(chain.log) + SubmitTrace(call, chain.gasOf(call), estimateGas)
    ensures s == SubmitResult(chain.gasOf(call), |old(chain.log)|, estimateGas)
  {
    var gas := chain.EstimateGas(call);
    if estimateGas {
      return GasEstimate(gas);
    }
    var gasLimit := MulBy1_3(gas);
    chain.UpdateFeeData();
    var tx := chain.Send(call, gasLimit);
    s := Submitted(tx);
  }

  /**
   * The protocol: an estimate is always taken first; an estimate-only round
   * neither refreshes fees nor submits; otherwise the call is submitted
   * exactly once, last, right after the fee refresh, with gas limit
   * floor(130 * gas / 100), which is at least the estimate.
   */
  lemma SubmitProtocol(call: Call, gas: nat, estimateGas: bool)
    ensures var t := SubmitTrace(call, gas, estimateGas);
      t[0] == Estimated(call) &&
      (estimateGas ==> Submissions(t) == 0 && FeesUpdated !in t) &&
      (!estimateGas ==> Submissions(t) == 1 && t[|t| - 2] == FeesUpdated && t[|t| - 1].Sent? && t[|t| - 1].call == call)
    ensures var limit := MulBy1_3(gas);
      limit >= gas && 100 * limit <= 130 * gas < 100 * limit + 100
  {
    var t := SubmitTrace(call, gas, estimateGas);
    assert t[..1][..0] == [];
    assert Submissions(t[..1]) == 0;
    if !estimateGas {
      assert t[..2][..1] == t[..1];
      assert Submissions(t[..2]) == 0;
      assert t[..|t| - 1] == t[..2];
    }
    MulBy1_3Margin(gas);
  }

  /** The submitted transaction is the `Sent` event of the round. */
  lemma SubmittedIsSent(call: Call, gas: nat, start: nat)
    ensures var t := SubmitTrace(call, gas, false);
      SubmitResult(gas, start, false).tx.position - start < |t| &&
      t[SubmitResult(gas, start, false).tx.position - start] == Sent(call, MulBy1_3(gas))
  {
  }

  // ------------------------------------------------------------ the deployments

  function StableMetaCall(net: Network, p: MetaParams): Call {
    Call(net.factory, "deploy_metapool",
      [Str(p.basePool), Str(p.name), Str(p.symbol), Str(p.coin), Int(Encode(p.A, 0)), Int(Encode(p.fee, 8)), Int(p.implementationIdx)])
  }

  /** parseUnits' default precision. */
  const WAD_DECIMALS: nat := 18

  /** The pool's admin fee, 50% in 1e10 units, which `_deployCryptoPool` always passes after `adjustment_step`. */
  const CRYPTO_ADMIN_FEE: int := 5000000000

  function CryptoCall(net: Network, p: CryptoParams): Call {
    Call(net.cryptoFactory, "deploy_pool",
      [Str(p.name), Str(p.symbol), Strs(p.coins), Int(Encode(p.A, 0)), Int(Encode(p.gamma, WAD_DECIMALS)),
       Int(Encode(p.midFee, 8)), Int(Encode(p.outFee, 8)), Int(Encode(p.allowedExtraProfit, WAD_DECIMALS)),
       Int(Encode(p.feeGamma, WAD_DECIMALS)), Int(Encode(p.adjustmentStep, WAD_DECIMALS)), Int(CRYPTO_ADMIN_FEE),
       Int(Encode(p.maHalfTime, 0)), Int(Encode(p.initialPrice, WAD_DECIMALS))])
  }

  /** Note the order: feeGamma is passed before allowedExtraProfit. */
  function TricryptoCall(net: Network, p: TricryptoParams): Call
    requires |p.initialPrices| == 2
  {
    Call(net.tricryptoFactory, "deploy_pool",
      [Str(p.name), Str(p.symbol), Strs(p.coins), Str(net.wrappedNative), Int(0), Int(Encode(p.A, 0)),
       Int(Encode(p.gamma, WAD_DECIMALS)), Int(Encode(p.midFee, 8)), Int(Encode(p.outFee, 8)),
       Int(Encode(p.feeGamma, WAD_DECIMALS)), Int(Encode(p.allowedExtraProfit, WAD_DECIMALS)),
       Int(Encode(p.adjustmentStep, WAD_DECIMALS)), Int(net.emaEncode(Value(p.emaTime))),
       Ints([Encode(p.initialPrices[0], WAD_DECIMALS), Encode(p.initialPrices[1], WAD_DECIMALS)])])
  }

  function SetOracleCall(net: Network, pool: string, oracleAddress: string, methodName: string): Call {
    Call(pool, "set_oracle", [Str(MethodId(methodName, net.id)), Str(oracleAddress)])
  }

  function GaugeCall(pool: string, factory: string): Call {
    Call(factory, "deploy_gauge", [Str(pool)])
  }

  /** `_deployStablePlainPool`: the checks, then the routed call, estimated and possibly submitted. */
  method DeployStablePlainPool(chain: Chain, net: Network, p: PlainParams, estimateGas: bool)
    returns (r: Result<Submission, Violation>)
    modifies chain
    ensures ValidateStablePlain(net.chainId, p).Fail? ==>
      r == Failure(ValidateStablePlain(net.chainId, p).error) && chain.log == old(chain.log)
    ensures ValidateStablePlain(net.chainId, p).Pass? ==> (
      |p.coins| <= 4 &&
      chain.log == old(chain.log) + SubmitTrace(PlainCall(net, p), chain.gasOf(PlainCall(net, p)), estimateGas) &&
      r == Success(SubmitResult(chain.gasOf(PlainCall(net, p)), |old(chain.log)|, estimateGas)))
  {
    var v := ValidateStablePlain(net.chainId, p);
    if v.Fail? {
      return Failure(v.error);
    }
    assert PlainFieldOk(net.chainId, p, Coins);
    var args := StablePlainArgs(net, p);
    var call := Call(PlainTarget(net, p), PlainMethod(net, p), args);
    var s := EstimateThenSend(chain, call, estimateGas);
    r := Success(s);
  }

  /** `_setOracle`: no checks; the method id and oracle go to the pool's `set_oracle`. */
  method SetPoolOracle(chain: Chain, net: Network, pool: string, oracleAddress: string, methodName: string, estimateGas: bool)
    returns (s: Submission)
    modifies chain
    ensures var call := SetOracleCall(net, pool, oracleAddress, methodName);
      chain.log == old(chain.log) + SubmitTrace(call, chain.gasOf(call), estimateGas) &&
      s == SubmitResult(chain.gasOf(call), |old(chain.log)|, estimateGas)
  {
    s := EstimateThenSend(chain, SetOracleCall(net, pool, oracleAddress, methodName), estimateGas);
  }

  /** `_deployStableMetaPool`. */
  method DeployStableMetaPool(chain: Chain, net: Network, p: MetaParams, estimateGas: bool)
    returns (r: Result<Submission, Violation>)
    modifies chain
    ensures ValidateStableMeta(p).Fail? ==> r == Failure(ValidateStableMeta(p).error) && chain.log == old(chain.log)
    ensures ValidateStableMeta(p).Pass? ==>
      chain.log == old(chain.log) + SubmitTrace(StableMetaCall(net, p), chain.gasOf(StableMetaCall(net, p)), estimateGas) &&
      r == Success(SubmitResult(chain.gasOf(StableMetaCall(net, p)), |old(chain.log)|, estimateGas))
  {
    var v := ValidateStableMeta(p);
    if v.Fail? {
      return Failure(v.error);
    }
    var s := EstimateThenSend(chain, StableMetaCall(net, p), estimateGas);
    r := Success(s);
  }

  /** `_deployCryptoPool`. */
  method DeployCryptoPool(chain: Chain, net: Network, p: CryptoParams, estimateGas: bool)
    returns (r: Result<Submission, Violation>)
    modifies chain
    ensures ValidateCrypto(p).Fail? ==> r == Failure(ValidateCrypto(p).error) && chain.log == old(chain.log)
    ensures ValidateCrypto(p).Pass? ==>
      chain.log == old(chain.log) + SubmitTrace(CryptoCall(net, p), chain.gasOf(CryptoCall(net, p)), estimateGas) &&
      r == Success(SubmitResult(chain.gasOf(CryptoCall(net, p)), |old(chain.log)|, estimateGas))
  {
    var v := ValidateCrypto(p);
    if v.Fail? {
      return Failure(v.error);
    }
    var s := EstimateThenSend(chain, CryptoCall(net, p), estimateGas);
    r := Success(s);
  }

  /** `_deployTricryptoPool`. */
  method DeployTricryptoPool(chain: Chain, net: Network, p: TricryptoParams, estimateGas: bool)
    returns (r: Result<Submission, Violation>)
    modifies chain
    ensures ValidateTricrypto(p).Fail? ==> r == Failure(ValidateTricrypto(p).error) && chain.log == old(chain.log)
    ensures ValidateTricrypto(p).Pass? ==> (
      |p.initialPrices| == 2 &&
      chain.log == old(chain.log) + SubmitTrace(TricryptoCall(net, p), chain.gasOf(TricryptoCall(net, p)), estimateGas) &&
      r == Success(SubmitResult(chain.gasOf(TricryptoCall(net, p)), |old(chain.log)|, estimateGas)))
  {
    var v := ValidateTricrypto(p);
    if v.Fail? {
      return Failure(v.error);
    }
    assert TricryptoFieldOk(p, InitialPrices);
    var s := EstimateThenSend(chain, TricryptoCall(net, p), estimateGas);
    r := Success(s);
  }

  /** `_deployGauge`: no checks; the pool goes to the named factory's `deploy_gauge`. */
  method DeployGauge(chain: Chain, pool: string, factory: string, estimateGas: bool) returns (s: Submission)
    modifies chain
    ensures chain.log == old(chain.log) + SubmitTrace(GaugeCall(pool, factory), chain.gasOf(GaugeCall(pool, factory)), estimateGas)
    ensures s == SubmitResult(chain.gasOf(GaugeCall(pool, factory)), |old(chain.log)|, estimateGas)
  {
    s := EstimateThenSend(chain, GaugeCall(pool, factory), estimateGas);
  }
}
