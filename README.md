# Stealth Vault Analytics: the confidential-state encoding layer, in Dafny

This project models the part of Stealth Vault Analytics that turns plaintext
position data into what the confidential ledger accepts. It has three parts.

- **Metric calculator and portfolio aggregator** (`PortfolioUtils`,
  `portfolio_utils.dfy`). The calculator derives a position's value, pnl,
  pnl percentage, risk and diversification from its entry price, current
  price and amount. The aggregator sums value and pnl over a list of
  positions and averages risk and diversification. JavaScript numbers are
  reals. `Math.round` is `Floor(x + 0.5)`. The NaN that the calculator
  produces from 0/0 is an explicit value, `JsNumber.NaN`, and is not ruled
  out by a precondition. The aggregator loop is a method proved against the
  function `PortfolioMetrics`.
- **Encryption gateway** (`Fhe`, `fhe_utils.dfy`). The class `FheUtils`
  holds the lazily created backend handle. Its state moves one way only,
  from absent to set, and once set the handle is kept and the factory is not
  called again. The backend handle (`Backend`) is the three foreign
  operations `encrypt32`, `generateInputProof` and `decrypt`. Each is a
  function value that may fail. The factory `createFhevmInstance` is given
  as the outcome it would have (`create`). `encryptNumber`, `decryptNumber`
  and the three batch helpers are methods. Each is proved against a function
  (`EncryptNumberWith`, `EncryptPositionWith`, …) of what `getFhevmInstance`
  yields. `Promise.all` is `All`: every field is encrypted, and the batch
  fails with the first failure in list order.
- **Ledger client** (`Contract`, `contract.dfy`; `PortfolioManager`,
  `portfolio_manager.dfy`). The six write operations of
  `useStealthVaultContract` are methods of `StealthVaultContract`. Each
  checks the wallet address first and then hands one call to a
  `RecordingTransport`. Only the three writes with a payload
  (`createPosition`, `updatePosition`, `updatePortfolioMetrics`) encrypt
  through the gateway in between; `requestAnalytics`, `clearPrivateData` and
  `clearPositionData` encrypt nothing. The transport stands in for
  the ledger: it records the call and answers with a response given by the
  caller, standing for what an awaitable submission would return (the
  source's `writeContract` itself returns nothing; see "Left out"). The call each operation submits is a function
  (`CreatePositionRequest`, …) stated in terms of the backend's operations.
  `useStealthVaultData` is `StealthVaultData`, which maps disabled or
  undefined reads to 0 and `[]`. `PortfolioManager` builds and updates
  position records. Every record it returns satisfies `Derived`: its metrics
  are the calculator's metrics for its own prices and amount.

What the source does that a reader might not expect:

- Initialisation is not guarded against concurrent first callers.
  `initializeFHE` checks the handle, awaits the factory and only then
  assigns it (fhe-utils.ts:11-12).
- `decryptNumber` accepts a user address and never uses it
  (fhe-utils.ts:62). The two ledger reads return plaintext `uint256` and
  `uint256[]` (contract.ts:79, 86), so there is nothing to decrypt.
- `pnlPercentage` is 0 whenever the entry price is at most 0, not only when
  it equals 0 (fhe-utils.ts:234).
- With a positive entry price and a zero amount, the percentage is 0/0, so
  `pnlPercentage`, risk and diversification are NaN (fhe-utils.ts:234-236).
  The calculator does not fail; it returns NaN.
- The rounded risk plus the rounded diversification is 100, or 101 when the
  unrounded risk ends in exactly .5 (fhe-utils.ts:242-243). It is exactly
  100 only before rounding (`MetricBounds`, `DiversificationComplementsRisk`).
- The portfolio summary has no privacy flag (fhe-utils.ts:221-226).
- A read that has not yet succeeded is not reported. Its data is
  undefined, so it reads as the default (contract.ts:320-321).
- The writes return no transaction hash and never rethrow a ledger
  failure: `writeContract` from `useWriteContract` returns nothing
  (contract.ts:112, 131), so `hash` is `undefined` and only a failure of
  the gateway reaches the `catch` blocks.

## Model

| member | source | states |
|---|---|---|
| `PortfolioUtils.Round` | src/lib/fhe-utils.ts:222-225 | `Math.round`: the integer within half of x, so a half rounds upwards |
| `PortfolioUtils.RoundNumber` | src/lib/fhe-utils.ts:242-243 | `Math.round` on a number: a whole number within half of the input, and NaN exactly for NaN |
| `PortfolioUtils.RoundCents` | src/lib/fhe-utils.ts:241 | two-decimal rounding: a whole number of hundredths in (n − 0.005, n + 0.005], and NaN exactly for NaN |
| `PortfolioUtils.PnlRatio` | src/lib/fhe-utils.ts:233-234 | the unrounded percentage is NaN exactly when entryPrice > 0 and amount = 0, and 0 when entryPrice ≤ 0 |
| `PortfolioUtils.RawRisk` | src/lib/fhe-utils.ts:235 | the unrounded risk lies in [0, 80] and is NaN exactly when the percentage is |
| `PortfolioUtils.RawDiversification` | src/lib/fhe-utils.ts:236 | the clamped diversification lies in [0, 100] and is NaN exactly when the risk is |
| `PortfolioUtils.CalculatePositionMetrics` | src/lib/fhe-utils.ts:232-245 | value = currentPrice × amount; pnl = round((currentPrice − entryPrice) × amount); percentage, risk and diversification are NaN iff entryPrice > 0 and amount = 0; for entryPrice ≤ 0 they are 0, 0 and 100 |
| `PortfolioUtils.MetricBounds` | src/lib/fhe-utils.ts:235-243 | whenever defined, risk ∈ [0, 80], diversification ∈ [20, 100], and their sum ∈ [100, 101] |
| `PortfolioUtils.PnlRatioIndependentOfAmount` | src/lib/fhe-utils.ts:233-234 | for entryPrice > 0 and amount ≠ 0 the unrounded percentage is (currentPrice − entryPrice)/entryPrice × 100 |
| `PortfolioUtils.PnlPercentageClosedForm` | src/lib/fhe-utils.ts:233-241 | for entryPrice > 0 and amount ≠ 0 the returned percentage is (currentPrice − entryPrice)/entryPrice × 100 rounded to two decimals |
| `PortfolioUtils.PnlPercentageIndependentOfAmount` | src/lib/fhe-utils.ts:233-242 | two non-zero amounts give the same pnl percentage and the same risk |
| `PortfolioUtils.RiskCap` | src/lib/fhe-utils.ts:235-243 | risk is 80 and diversification 20 when the unrounded percentage exceeds 20 either way; otherwise risk is round(4 × \|p\|) and diversification round(100 − 4 × \|p\|) |
| `PortfolioUtils.DiversificationComplementsRisk` | src/lib/fhe-utils.ts:235-236 | before rounding, diversification is exactly 100 − risk: the clamp never binds |
| `PortfolioUtils.PositionMetricsExample` | src/lib/fhe-utils.ts:232-245 | (100, 130, 10) gives value 1300, pnl 300, percentage 30, risk 80, diversification 20 |
| `PortfolioUtils.MeanOrZero` | src/lib/fhe-utils.ts:224-225 | `Math.round(total / n) \|\| 0`: 0 for an empty list, otherwise within half of the mean |
| `PortfolioUtils.PortfolioMetrics` | src/lib/fhe-utils.ts:221-226 | the summary's totals lie within half of the sums of value and pnl, and its risk and diversification within half of their means, or 0 for an empty list |
| `PortfolioUtils.CalculatePortfolioMetrics` | src/lib/fhe-utils.ts:208-227 | the accumulating loop returns round(Σvalue), round(Σpnl), round(Σrisk/n), round(Σdiversification/n), with missing, NaN or zero fields counted as 0 and the means 0 for an empty list |
| `PortfolioUtils.EmptyPortfolio` | src/lib/fhe-utils.ts:221-226 | the empty list gives exactly 0 in all four fields |
| `PortfolioUtils.SumBounds` | src/lib/fhe-utils.ts:214-219 | a sum of n fields, each in [lo, hi], lies in [n·lo, n·hi] |
| `PortfolioUtils.MeanBounds` | src/lib/fhe-utils.ts:224-225 | a rounded mean of values in integer bounds [lo, hi] stays in [lo, hi] |
| `PortfolioUtils.PortfolioScoresBounded` | src/lib/fhe-utils.ts:208-227 | if every position's risk is in [0, 80] and diversification in [0, 100], so are the portfolio's averages |
| `PortfolioUtils.PortfolioMetricsExample` | src/lib/fhe-utils.ts:208-227 | values 100, 200, 300 with risks 10, 20, 30 give total value 600 and risk exposure 20 |
| `Errors.Message` | src/lib/contract.ts:120 | the missing-wallet error carries the text "No wallet connected"; a collaborator's error keeps its own message |
| `Fhe.EncryptNumberWith` | src/lib/fhe-utils.ts:30-49 | success iff the instance, `encrypt32` and `generateInputProof` all succeed; the proof is the one generated for the same contract, the same user and that ciphertext; otherwise the failing step's error, unchanged |
| `Fhe.DecryptNumberWith` | src/lib/fhe-utils.ts:54-67 | the result is the backend's decryption for the contract and ciphertext; the user address plays no part |
| `Fhe.All` | src/lib/fhe-utils.ts:81-86 | `Promise.all`: success iff every call succeeded, with every value in order; otherwise the error of the first failure |
| `Fhe.EncryptPositionWith` | src/lib/fhe-utils.ts:99-117 | each bundle field is `encryptNumber` of the matching input under the same contract and user; one failure fails the bundle with the first error |
| `Fhe.EncryptPortfolioWith` | src/lib/fhe-utils.ts:73-94 | as for the position bundle, over total value, pnl, risk exposure and diversification score |
| `Fhe.EncryptVaultMetricsWith` | src/lib/fhe-utils.ts:122-143 | as for the position bundle, over tvl, total shares, performance and risk score |
| `Fhe.FheUtils.constructor` | src/lib/fhe-utils.ts:5 | the handle starts absent, with no factory calls and no encryptions |
| `Fhe.FheUtils.InitializeFhe` | src/lib/fhe-utils.ts:10-15 | the factory is called only while no handle is held; once a handle is held it is returned and kept and the factory call count does not change |
| `Fhe.FheUtils.GetFhevmInstance` | src/lib/fhe-utils.ts:20-25 | initialises only when no handle is held, with the same result and state change as `InitializeFhe` |
| `Fhe.FheUtils.EncryptNumber` | src/lib/fhe-utils.ts:30-49 | returns `EncryptNumberWith` of what `getFhevmInstance` yields; the handle moves only from absent to set |
| `Fhe.FheUtils.DecryptNumber` | src/lib/fhe-utils.ts:54-68 | returns `DecryptNumberWith` of what `getFhevmInstance` yields |
| `Fhe.FheUtils.EncryptPositionData` | src/lib/fhe-utils.ts:99-117 | makes all three encryptions one after the other and returns `EncryptPositionWith`; the factory runs once if it succeeds, once per field if it fails, never when a handle is held |
| `Fhe.FheUtils.EncryptPortfolioData` | src/lib/fhe-utils.ts:73-94 | makes all four encryptions one after the other and returns `EncryptPortfolioWith` |
| `Fhe.FheUtils.EncryptVaultMetrics` | src/lib/fhe-utils.ts:122-143 | makes all four encryptions one after the other and returns `EncryptVaultMetricsWith` |
| `Contract.CreatePositionRequest` | src/lib/contract.ts:115-149 | no address gives "No wallet connected"; otherwise the call is `createPosition` with the amount, shares and entry-price ciphertexts, the amount's proof and value 0, or the first encryption error |
| `Contract.UpdatePositionRequest` | src/lib/contract.ts:152-185 | encrypts new amount, new shares and a placeholder 0, whose failure also fails the update; sends only the id, the two ciphertexts and the amount's proof |
| `Contract.UpdatePortfolioMetricsRequest` | src/lib/contract.ts:188-224 | sends the four ciphertexts in the order value, pnl, risk, diversification, then the total value's proof only |
| `Contract.PlainRequest` | src/lib/contract.ts:227-281 | the writes without payload send exactly the given function and arguments, and fail with "No wallet connected" without an address |
| `Contract.CreatePositionSends` | src/lib/contract.ts:123-142 | the submitted arguments are the backend's ciphertexts of amount, shares and entry price and the proof generated for the amount's ciphertext |
| `Contract.UpdatePositionSends` | src/lib/contract.ts:160-178 | the submitted arguments are the id, the ciphertexts of the new amount and shares, and the proof for the amount's ciphertext |
| `Contract.UpdatePortfolioMetricsSends` | src/lib/contract.ts:197-217 | the submitted arguments are the four ciphertexts in order and the proof for the total value's ciphertext |
| `Contract.RecordingTransport.WriteContract` | src/lib/contract.ts:112 | `writeContract` is recorded and answered with the given response |
| `Contract.StealthVaultContract.constructor` | src/lib/contract.ts:110-112 | the hook holds the session's address, the gateway and the transport |
| `Contract.StealthVaultContract.CreatePosition` | src/lib/contract.ts:115-149 | without an address: the error, no transport call and the gateway unchanged; otherwise exactly the request is sent and the transport's answer or the encryption error is returned unchanged |
| `Contract.StealthVaultContract.UpdatePosition` | src/lib/contract.ts:152-185 | as `CreatePosition`, for the update request |
| `Contract.StealthVaultContract.UpdatePortfolioMetrics` | src/lib/contract.ts:188-224 | as `CreatePosition`, for the portfolio-metrics request, with four encryptions |
| `Contract.StealthVaultContract.RequestAnalytics` | src/lib/contract.ts:227-243 | sends `requestAnalytics` with no arguments, and nothing without an address; never touches the gateway |
| `Contract.StealthVaultContract.ClearPrivateData` | src/lib/contract.ts:246-262 | sends `clearPrivateData` with no arguments, and nothing without an address |
| `Contract.StealthVaultContract.ClearPositionData` | src/lib/contract.ts:265-281 | sends `clearPositionData` with the id alone, and nothing without an address |
| `Contract.ReadQuery` | src/lib/contract.ts:298-317 | a read is issued iff an address is known, and then with that address as its argument |
| `Contract.StealthVaultData` | src/lib/contract.ts:294-323 | without an address the result is count 0 and ids []; with one, the ledger's data for that address, or those defaults when it is undefined |
| `PortfolioManager.CreatePosition` | src/lib/contract.ts:330-350 | current price = entry price, pnl 0, value = entry price × amount, and percentage, risk and diversification 0, 0, 100 (NaN when entry price > 0 and amount = 0); the record is derived |
| `PortfolioManager.UnmovedPriceMetrics` | src/lib/contract.ts:336 | at an unchanged price the metrics are (entry × amount, 0, 0, 0, 100) unless they are NaN |
| `PortfolioManager.UpdatePosition` | src/lib/contract.ts:355-379 | keeps the entry price and creation time; replaces amount, shares, current price and last update; the metrics are recomputed, so the record is derived |
| `PortfolioManager.UpdateOverridesUpdate` | src/lib/contract.ts:367-378 | a second update replaces everything the first one set |
| `PortfolioManager.UpdateWithSameInputs` | src/lib/contract.ts:361-378 | updating a derived record with its own amount, shares and price changes only its last-update time |
| `PortfolioManager.DerivedScoresBounded` | src/lib/contract.ts:361-376 | a derived record's risk and diversification, as the aggregator counts them, lie in [0, 80] and [0, 100] |
| `PortfolioManager.CalculatePortfolioSummary` | src/lib/contract.ts:384-386 | the aggregator over the records; for derived records risk exposure ∈ [0, 80] and diversification ∈ [0, 100] |
| `PortfolioManager.SummaryBounded` | src/lib/contract.ts:384-386 | the summary of derived records has risk exposure in [0, 80] and diversification score in [0, 100] |

## Left out

- The homomorphic cryptosystem (`createFhevmInstance`, `encrypt32`, `generateInputProof`, `decrypt`) is foreign. Its operations are abstract function values, so no encrypt/decrypt round trip is claimed. Encryption is modelled as deterministic: equal plaintexts give equal ciphertexts (for example a zero new amount and the placeholder 0 in `updatePosition`), whereas the real encryption is randomised.
- Concurrency is not modelled. The model runs the calls of a `Promise.all` one after the other. In the source, the parallel `encryptNumber` calls of a first batch each find the handle absent, and each may call the factory. The model shows a sequential first batch calling it once.
- Fhe.FheUtils.EncryptPositionData: when the factory fails, the model reports the same failure for every field. It treats the factory as deterministic, because its outcome is one parameter.
- `console.error` logging is omitted. Errors are returned unchanged.
- IEEE-754 arithmetic is replaced by exact reals: no float rounding, no overflow to Infinity, and no NaN inputs. The only NaN modelled is the 0/0 of the percentage.
- JavaScript's loose typing is not modelled. The aggregator's input is `Holding`, with optional numeric fields, not arbitrary objects.
- PortfolioManager.UpdatePosition: the object spread keeps untyped extra properties of the input. The record type has a fixed field set, so only its typed fields are shown to be kept.
- The `contract` argument of `PortfolioManager.createPosition` is unused in the source and is dropped.
- `Date.now()` is the parameter `now`.
- `generateRandomEncryptedData` is left out because it uses `Math.random`.
- `ContractUtils` is left out. It is a thin wrapper over ethers contract objects.
- Contract.StealthVaultContract.CreatePosition, Contract.StealthVaultContract.UpdatePosition, Contract.StealthVaultContract.UpdatePortfolioMetrics, Contract.StealthVaultContract.RequestAnalytics, Contract.StealthVaultContract.ClearPrivateData, Contract.StealthVaultContract.ClearPositionData: the `response` parameter stands for what an awaitable submission (`writeContractAsync`) would return. In the source, `writeContract` from `useWriteContract` is fire-and-forget: it returns nothing, so every write resolves to `undefined`, and a rejected or failed transaction is reported only through the hook's state, never through the `catch` blocks (contract.ts:145, 181, 220, 239, 258, 277). The model's answer is more informative than the source's.
- The ABI table is not modelled.
- Contract.StealthVaultContract.UpdatePosition, Contract.StealthVaultContract.ClearPositionData: the `BigInt(positionId)` conversion is not modelled. For a non-integer id it throws a RangeError, in `updatePosition` after the three encryptions (contract.ts:173) and in `clearPositionData` before any call (contract.ts:273). The model's id is an `int`, so neither error path can arise; the id is sent as `Uint(positionId)`.
- The model records the single proof that is sent with several ciphertexts. It does not judge whether one proof is valid for them all.
- The on-chain ledger, wallet signing and the presentation layer are not part of this model.
