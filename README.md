# curve-js pool deployment, modelled in Dafny

This project models the pool-deployment code of the curve-js library
(`src/factory/deploy.ts`) and the helpers it relies on from `src/utils.ts`.

The deployment code covers four pool kinds: stable plain, stable meta, crypto (two coins) and tricrypto
(three coins). For each kind it:

- validates the user's parameters;
- encodes the numbers as fixed-point integers with `parseUnits`;
- estimates the gas of the factory call;
- either returns that estimate, or raises the limit by 30%, refreshes the fee data and submits the call once.

Stable plain pools are routed either to the factory or to the admin proxy. The proxy route carries an EMA
time, and on Arbitrum and Optimism a further route also carries a rate oracle. Five resolvers (plain, meta, crypto, tricrypto and gauge) read the new
pool's or gauge's address back from the deployment receipt.

The helpers it relies on from `src/utils.ts`:

- decimal truncation (`_cutZeros`, `formatNumber`) and the fixed-point encoder `parseUnits`;
- the 30% gas margin `mulBy1_3` and `MAX_ALLOWANCE`;
- the native-coin (ETH) lookup and the per-coin decimals table;
- address de-duplication;
- the way allowance and balance reads leave the ETH slot out and splice it back in;
- the approve sequence of `_ensureAllowance` and its gas-estimating twin;
- the pool-registry lookups by swap address.

Files, one module each:

- `wrappers.dfy` holds `Option`, `Result` and `Outcome` (pass, or fail with an error).
- `strings.dfy` holds ASCII lower-casing, JavaScript's UTF-16 `.length`, `indexOf` on characters and the integer value of a digit string.
- `formatting.dfy` covers `_cutZeros`, `formatNumber`, `parseUnits` (over a model of the ethers fixed-point parser), `mulBy1_3` and `MAX_ALLOWANCE`.
- `transport.dfy` holds the chain as the signer reaches it. The class `Chain` keeps the ordered log of estimates, fee refreshes and submissions.
- `coins.dfy` covers `isEth`, `getEthIndex`, `_getCoinDecimals`, `_prepareAddresses`, the swap-address lookups, `_getAllowance`, `hasAllowance` and `_getBalances`.
- `allowance.dfy` covers `_ensureAllowance` and `ensureAllowanceEstimateGas`.
- `deploy.dfy` covers the validators, the stable-plain routing, the estimate-then-submit protocol and the six deployment operations.
- `receipts.dfy` holds the five `getDeployed*Address` resolvers.

Modelling choices:

- **Numbers.** A numeric parameter is a `Dec`: a well-formed decimal string taken apart into its sign,
  integer digits and fraction digits.
  - The validators compare its exact value (`Value`, a `real`), as BigNumber does.
  - The encoders apply `ParseUnits` to its rendering, i.e. the real `formatNumber` followed by the parser.
  - `EncodeIsFloor` shows that this encoding is the sign times floor(abs(x)·10^k).
- **Validation.** Each validator is a chain of per-parameter checks run in the source's order that stops at the
  first failure.
  - One lemma, `FirstFailureSpec`, shows for every chain that the chain passes iff every parameter is acceptable.
  - On a failure it reports an unacceptable parameter, and every parameter checked before it is acceptable.
- **Chain interaction.** Estimates, fee refreshes and submissions are methods of `Chain`, which appends them to
  its `log`. The estimate the chain returns for a call is the fixed function `gasOf`. Chain reads (allowances,
  balances, `minter()`) are function parameters.
- **Resolvers.** A receipt is `None` (`tx.wait()` gave nothing) or the sequence of its logs. Decoded event logs
  carry their arguments. Every way the source throws is an error value, including reading past the end of
  `logs`.

## Model

| member | source | states |
|---|---|---|
| Formatting.MaxAllowanceIsAllOnes | src/utils.ts:13 | the MAX_ALLOWANCE literal is 2^256 - 1 |
| Formatting.TrimTrailingZeros | src/utils.ts:19 | the result is a prefix of the input, only '0's were removed, and it does not end in '0' (the maximal run is gone) |
| Formatting.CutZeros | src/utils.ts:18-20 | `_cutZeros` returns a prefix of its input. What it cut is a run of '0's, possibly headed by a single '.'. When no '.' was cut, the result ends in neither '0' nor '.' |
| Formatting.FormatNumber | src/utils.ts:28-33 | the result is a prefix of the input. Without a '.' or with an empty fraction it is the integer part. Otherwise it keeps the integer part, the '.' and min(decimals, fraction length) fraction characters (truncation, no rounding) |
| Formatting.FormatNumberOfRender | src/utils.ts:30-32 | on a rendered number, `formatNumber` keeps sign, integer digits and the first min(k, len(fraction)) fraction digits |
| Formatting.ParseUnitsIsTruncation | src/utils.ts:35-37 | `parseUnits(x, k)` never fails on a number. It returns sign(x) times Numerator·10^k div 10^len(fraction) |
| Formatting.Encode | src/utils.ts:35-37 | the encoding the deployments pass is the signed truncation above |
| Formatting.TruncatedIsFloor | src/utils.ts:35-37 | the truncated magnitude t satisfies t <= abs(x)·10^k < t + 1, i.e. it is floor(abs(x)·10^k) over the exact value |
| Formatting.EncodeIsFloor | src/utils.ts:35-37 | `parseUnits(x, k)` is sign(x)·floor(abs(x)·10^k) |
| Formatting.BareFractionRejected | src/utils.ts:30-36 | a string with no integer digits (".5") is rejected at 0 decimals, because `formatNumber` leaves just "." |
| Formatting.MulBy1_3Margin | src/utils.ts:60 | for n >= 0, mulBy1_3(n) = floor(130·n/100) >= n. Negative n rounds toward zero, as BigInt division does |
| Coins.IsEthSpelling | src/utils.ts:58 | `isEth` holds exactly for "0x" (either case of x) followed by forty e's in any mix of case |
| Coins.GetEthIndex | src/utils.ts:58-59 | -1 iff no address is the ETH placeholder (compared lower-cased). Otherwise the first index that is |
| Coins.GetCoinDecimals | src/utils.ts:79-84 | one entry per coin: the table's decimals for the lower-cased address, 18 when absent |
| Coins.Dedup | src/utils.ts:127 | the `indexOf` filter keeps exactly the input's elements, without duplicates |
| Coins.DedupKeepsFirstOccurrenceOrder | src/utils.ts:127 | the kept elements appear in the order of their first occurrences in the input |
| Coins.PrepareAddresses | src/utils.ts:122-128 | no duplicates. An empty list with a signer gives [signer]. Otherwise exactly `Dedup` of the addresses: the same set, in first-occurrence order |
| Coins.GetPoolIdBySwapAddress | src/utils.ts:235-238 | None iff no pool's swap address matches case-insensitively. Otherwise the id of the first matching entry |
| Coins.GetTokenAddressBySwapAddress | src/utils.ts:240-245 | "" when nothing matches. Otherwise the token address of the first match |
| Coins.GetAllowance | src/utils.ts:138-160 | after splicing ETH out and MAX_ALLOWANCE back in: one entry per coin, MAX_ALLOWANCE at the ETH index, each other coin's own allowance at its own position |
| Coins.ReduceAnd | src/utils.ts:178 | `reduce(&&)` has no value on an empty list. Otherwise it is true iff all entries are |
| Coins.HasAllowance | src/utils.ts:172-179 | no answer for no coins (the reduce throws). Otherwise true iff every coin has an amount and its allowance is at least its `parseUnits`-scaled amount |
| Coins.ReadTokenBalances | src/utils.ts:95-99 | the token-major batch: token t's balance for address a sits at a + t·len(addresses) |
| Coins.SplicedCell | src/utils.ts:101-111 | after splicing the native balances in at ethIndex·len(addresses), position i + j·len(addresses) holds address i's balance of coin j |
| Coins.GetBalances | src/utils.ts:86-112 | the balance grid: for address i and coin j, the native balance at the ETH index and the token balance elsewhere |
| Allowance.CoinApprovalsShape | src/utils.ts:186-197 | a covered coin gets no approve. Otherwise an approve(0) reset comes first iff the allowance is positive, and last comes approve(MAX_ALLOWANCE or the amount) |
| Allowance.EstimateAndSend | src/utils.ts:192-196 | an approve is estimated, then sent with limit mulBy1_3(estimate). The returned transaction is that `Sent` event |
| Allowance.ApproveCoin | src/utils.ts:187-197 | one loop pass: a fee refresh, then each approve estimated and sent. The k-th returned transaction is the `Sent` event of the coin's k-th approve |
| Allowance.ApproveAll | src/utils.ts:185-200 | the loop leaves the trace of every coin's approves in coin order. The k-th returned transaction is the `Sent` event of the plan's k-th approve, at increasing positions, and they are all the submissions the loop made |
| Allowance.EnsureTraceSubmissions | src/utils.ts:185-200 | the loop submits exactly one transaction per planned approve |
| Allowance.EnsureAllowance | src/utils.ts:181-201 | `_ensureAllowance` over the allowances `_getAllowance` reports: that trace, and `txHashes` are the handles of its submissions, one per planned approve and in order |
| Allowance.EstimateCoin | src/utils.ts:213-220 | one loop pass: exactly the coin's approves estimated, and their estimates summed |
| Allowance.EstimateApprovals | src/utils.ts:211-223 | the loop estimates exactly the approve plan of `_ensureAllowance`, in order, and returns the sum |
| Allowance.EnsureAllowanceEstimateGas | src/utils.ts:204-224 | the gas is the total over the same approves `_ensureAllowance` would send for the scaled amounts. Nothing is sent |
| Allowance.CoinApprovalsEffect | src/utils.ts:187-197 | executing a coin's approves lifts that coin's allowance to at least its amount and leaves every other coin's allowance unchanged |
| Allowance.ApprovePlanCovers | src/utils.ts:181-201 | once the whole plan has executed, every coin with an amount has an allowance at least that amount. This assumes distinct coins and amounts within MAX_ALLOWANCE |
| Strings.Utf16LengthIsCharCount | src/factory/deploy.ts:25-26 | JavaScript's `.length` (UTF-16 units) equals the character count iff no character lies outside the Basic Multilingual Plane |
| Deploy.FirstFailureSpec | src/factory/deploy.ts:25-36 | a check chain passes iff every parameter is acceptable. Otherwise it reports the violation of an unacceptable parameter, and all parameters before it are acceptable |
| Deploy.RangeCheck | src/factory/deploy.ts:28-29 | passes iff the value lies in the closed interval. A failure is BelowMin when the value is under the lower bound, else AboveMax: the lower bound is tested first |
| Deploy.PlainCheck | src/factory/deploy.ts:25-36 | each stable-plain check passes iff its parameter is acceptable (name <= 32 and symbol <= 10 UTF-16 units, 2-4 coins, 0.04 <= fee <= 1, assetType 0-3, the implementation index rule, emaTime > 0). It fails naming that parameter, with the reason the source's message gives (too long, wrong count, below or above the fee range, not allowed, not positive) |
| Deploy.ValidateStablePlain | src/factory/deploy.ts:25-36 | passes iff every stable-plain parameter is acceptable. Otherwise it reports the first unacceptable one in source order, with that parameter's own violation |
| Deploy.PlainHighIndexOnlyOnEthereum | src/factory/deploy.ts:31-35 | an accepted pool has index 0-5, and index 4 or 5 only on chain 1 with two coins |
| Deploy.MetaCheck | src/factory/deploy.ts:132-136 | each stable-meta check passes iff its parameter is acceptable (name <= 32 and symbol <= 10 UTF-16 units, fee range, index 0 or 1). A failure names the parameter and the reason (too long, below or above the fee range, not allowed) |
| Deploy.ValidateStableMeta | src/factory/deploy.ts:132-136 | passes iff all meta parameters are acceptable. Otherwise it reports the first unacceptable one, with that parameter's own violation |
| Deploy.CryptoCheck | src/factory/deploy.ts:206-227 | each crypto check passes iff its parameter is acceptable: name <= 32 and symbol <= 10 UTF-16 units, two distinct coins, each numeric parameter in its closed interval. A failure names the parameter and its reason: too long, a wrong coin count before duplicate coins, and BelowMin before AboveMax |
| Deploy.ValidateCrypto | src/factory/deploy.ts:206-227 | passes iff all crypto parameters are acceptable. Otherwise it reports the first unacceptable one, with that parameter's own violation |
| Deploy.TricryptoCheck | src/factory/deploy.ts:367-391 | each tricrypto check passes iff its parameter is acceptable: name <= 64 and symbol <= 32 UTF-16 units, three distinct coins, each numeric parameter in its interval, exactly two initial prices each within [1e-12, 1e12]. A failure names the parameter and its reason, the first price's before the second's |
| Deploy.ValidateTricrypto | src/factory/deploy.ts:367-391 | passes iff all tricrypto parameters are acceptable. Otherwise it reports the first unacceptable one, with that parameter's own violation |
| Deploy.AcceptedCryptoShape | src/factory/deploy.ts:208-217 | an accepted crypto pool has two distinct coins and outFee >= midFee |
| Deploy.AcceptedTricryptoShape | src/factory/deploy.ts:369-387 | an accepted tricrypto pool has three pairwise distinct coins, outFee >= midFee and two initial prices |
| Deploy.PadCoins | src/factory/deploy.ts:40 | the padded list has length 4, starts with the coins and is ZERO_ADDRESS after them |
| Deploy.MethodId | src/factory/deploy.ts:52 | the sentinel "0x00000000" passes through. Any other name gives the first 10 characters of its hash |
| Deploy.StablePlainArgs | src/factory/deploy.ts:49-54 | the pushes onto the seven base arguments build exactly the routed argument list |
| Deploy.RoutesExclusive | src/factory/deploy.ts:42-45 | `useProxy` and `setOracle` never both hold |
| Deploy.PlainRouting | src/factory/deploy.ts:42-55 | the target is factory_admin iff a route applies. The method is `deploy_plain_pool_and_set_oracle` iff the oracle route applies. There are 10, 8 or 7 arguments for oracle, proxy and neither, and the first 7 are always the base arguments |
| Deploy.DefaultEmaTimeSkipsProxy | src/factory/deploy.ts:42-44 | with emaTime = 600 the proxy route is never taken |
| Deploy.EstimateThenSend | src/factory/deploy.ts:56-61 | the shared tail: estimate. Then either return the estimate, or refresh fees and submit once with limit mulBy1_3(gas), returning that transaction |
| Deploy.SubmitProtocol | src/factory/deploy.ts:56-61 | the estimate comes first. An estimate-only round neither refreshes fees nor submits. Otherwise exactly one submission, last and right after the fee refresh, with limit floor(130·gas/100) >= gas |
| Deploy.SubmittedIsSent | src/factory/deploy.ts:59-61 | the returned transaction is the round's `Sent` event, carrying the call and the padded limit |
| Deploy.DeployStablePlainPool | src/factory/deploy.ts:12-62 | a failed check returns its violation and touches no chain state. Otherwise the routed call goes through the estimate-then-submit round |
| Deploy.SetPoolOracle | src/factory/deploy.ts:100-110 | `set_oracle(methodId, oracle)` on the pool goes through the estimate-then-submit round |
| Deploy.DeployStableMetaPool | src/factory/deploy.ts:122-148 | a failed check touches nothing. Otherwise `deploy_metapool` on the factory goes through the round |
| Deploy.DeployCryptoPool | src/factory/deploy.ts:191-276 | a failed check touches nothing. Otherwise the crypto factory's `deploy_pool`, with the fixed 5000000000 argument, goes through the round |
| Deploy.DeployTricryptoPool | src/factory/deploy.ts:352-442 | a failed check touches nothing. Otherwise the tricrypto factory's `deploy_pool` goes through the round, with feeGamma passed before allowedExtraProfit |
| Deploy.DeployGauge | src/factory/deploy.ts:521-529 | `deploy_gauge(pool)` on the given factory goes through the estimate-then-submit round |
| Receipts.LastWithArgs | src/factory/deploy.ts:177-184 | None iff no log carries arguments. Otherwise the index of the last log that does |
| Receipts.ScanForEvent | src/factory/deploy.ts:509-514 | the reverse index loop stops at exactly the last log with arguments |
| Receipts.StablePlainPoolAddress | src/factory/deploy.ts:94-98 | succeeds iff there is a receipt with at least one log, and then gives the lower-cased address of log 0. No receipt and no logs are distinct errors |
| Receipts.StableMetaPoolAddress | src/factory/deploy.ts:174-185 | fails with NoEventLog iff no log has arguments. On success the result is the lower-cased address of log N, where N is the underlying-coin count of the first registry pool whose swap address is the last event's second argument |
| Receipts.StableMetaPoolAddressCases | src/factory/deploy.ts:174-185 | succeeds iff the last event has a second argument, the registry knows that base pool, and a log exists past its underlying coins. Otherwise the last event decides the error: MissingArg, UnknownBasePool or MissingLog, in that order |
| Receipts.GetDeployedStableMetaPoolAddress | src/factory/deploy.ts:174-185 | the scanning resolver agrees with that specification on every receipt |
| Receipts.CryptoPoolAddress | src/factory/deploy.ts:340-346 | succeeds iff there is a receipt with at least one log, and then gives the lower-cased `minter()` of the LP token at log 0. No receipt and no logs are distinct errors |
| Receipts.TricryptoPoolAddress | src/factory/deploy.ts:506-516 | succeeds iff some log has arguments and the last one has at least one. The result is that log's first argument, not lower-cased |
| Receipts.GetDeployedTricryptoPoolAddress | src/factory/deploy.ts:506-516 | the scanning resolver agrees with that specification on every receipt |
| Receipts.GaugeAddress | src/factory/deploy.ts:535-540 | succeeds iff log 0 has at least one argument. The result is its last argument, lower-cased |

## Left out

- The NaN test of `formatNumber` and `checkNumber` is left out. Numbers are well-formed decimals (`Dec`), so the test never fires.
- `String(n)` of a JavaScript number in exponent form ("1e-7") is not modelled. A number reaches `formatNumber` as its plain decimal rendering.
- Strings with no integer digits (".5") are not a `Dec`. `BareFractionRejected` shows that the source rejects one at 0 decimals.
- BigNumber comparisons are exact rational comparisons over `Value`. The `BN(x).lt(1e-8)`-style literals are the exact decimals they print as.
- Formatting.Encode: `parseUnits` results are unbounded integers. The 512-bit (and `uint256`) limits of the ethers parser and of the contracts are not modelled.
- `toLowerCase` is ASCII-only, which covers hex addresses but not Unicode case mapping.
- `_getCoinAddresses` is left out. It is the symbol-to-address mapping with its availability check, which depends on the network constants tables. Coins arrive as addresses.
- `formatUnits` of the balances and allowances is left out. Balances and allowances are reported as raw integers.
- Allowance.EnsureAllowance: a chain call that throws (estimate, fee refresh or submission) is not modelled; every call here succeeds.
- Allowance.EnsureAllowanceEstimateGas: the source adds up `Number(...)` of each estimate as floats. The model adds the exact integers.
- Deploy.EstimateThenSend: `estimateGas` of a deployment that would revert throws in the source. Here `gasOf` answers every call, so the failing estimate is not modelled.
- Deploy.EstimateThenSend: `Number(gas)` turns the estimate into a float. The model returns the exact integer.
- Coins.PrepareAddresses: the source also accepts its addresses wrapped in a one-element array and unwraps them (src/utils.ts:123). The model takes the flat list.
- Coins.GetCoinDecimals: the same one-element-array unwrapping (src/utils.ts:80) is not modelled. The model takes the flat list.
- A transaction is identified by the position of its `Sent` event in the log, not by its hash.
- Coins.GetAllowance: the single-token path and the multicall path of `_getAllowance` both read each token's allowance; their difference (one RPC against a batch) is not modelled.
- `curve.setContract` (registering the oracle ABI in `_setOracle`) is not modelled, nor are the contract lookups by alias. The network's addresses are fields of `Network`.
- `getPool(basePoolId)` is modelled as the registry entry at the first matching swap address.
- Receipts.TricryptoPoolAddress: an event with no arguments makes the source return `undefined`. The model reports it as the `MissingArg` error.
- Deploy.PadCoins requires at most four coins. The source only pads after its own check has rejected more than four.
- The keccak hash behind `ethers.id` and the floating-point half-life transform `Math.floor(t / Math.log(2))` are uninterpreted functions of `Network` (`id`, `emaEncode`).
- `emaTime` and `maHalfTime` are JavaScript numbers in the source. They are modelled as decimals like the other numeric parameters.
- `getCoinsData`, the price and API functions, and `getBalances`' one-address unwrapping are left out. They involve HTTP, caches, floating-point or multicall plumbing.
- The public wrappers (`deployStablePlainPool`, `deployStablePlainPoolEstimateGas` and the like) only fix `estimateGas` and the defaults (emaTime 600, zero oracle, sentinel method name). They are not separate members.
- The tricrypto resolver returns the event's first argument without lower-casing it (src/factory/deploy.ts:512).
