# White Whale frontend: liquidity messages, swap transaction controller, slippage arithmetic

A Dafny model of four pieces of the White Whale decentralised-exchange frontend:

- **Withdraw-liquidity message builder** (`createWithdrawMsgs.ts`), modules `WithdrawMsgs`, `Messages`, `Json`, `Utf8`, `Base64`.
  - It builds the ordered list of contract calls that withdraw liquidity: an optional incentive claim, an allowance for a cw20 LP token, and the withdraw itself.
  - The withdraw is either a native `withdraw_liquidity` carrying funds, or a cw20 `send` whose `msg` is base64 of the JSON text of `{"withdraw_liquidity":{}}`.
  - `toBase64` is modelled end to end: compact `JSON.stringify` of string and object values, UTF-8 encoding, and standard base64 with padding (section 4 of RFC 4648). A parser, a decoder and a base64 decoder are proved to invert each of them.
- **Swap transaction controller** (`useTransaction.tsx`), modules `SwapTransaction` and `TextMatch`.
  - The hook's state cells (`txStep`, `txHash`, `error`, `gas`, `buttonLabel`), its props and the fee query's cache together form a `TxState`.
  - Every callback and effect is an `Event`, and `Next` gives the state after it.
  - One exception: for a signing failure, `Next` applies the handler as evidently intended (`OnSigningError`). As written, the handler throws at line 165 for a standard `Error` and the state stays `Posting`; `SigningRejectedAsWritten` models that, and "## Findings" records it.
  - `TransactionController` is the same machine as a class whose methods update its fields in place. Each method is proved to move to `Next` of the old state and to keep the invariant `Inv`.
  - The two error classifiers are case-insensitive substring searches over the error's text.
- **Provide-liquidity parameter selection** (`useProvideLP.ts`), module `ProvideLiquidity`.
  - Orders the tokens and typed amounts by the pool's `lpOrder`.
  - Picks the decimals for each conversion.
  - Decides when deposit messages exist, where the deposit goes, which amounts go to the two message builders and the transaction hook, and when the transaction is enabled.
- **Slippage arithmetic** (`hooks/helpers.ts`), module `Helpers`: `minAmountReceive` and `priceImpact` over exact reals, including the non-finite results of a zero divisor.

Apart from that signing-failure handler, wherever the controller's behaviour might be expected to differ from what the code does, the model follows the code:

- `submit()` checks only that there is a fee and a non-empty message list. It does not check that the step is `Ready`.
- A simulation that resolves after the input changed is not discarded. It still sets `Ready` and overwrites `gas`, as `LateSimulationStillApplies` shows. Its fee lands in the cache under the old input's key.
- The fee shown is the cached estimate for the current key (amount, debounced messages, error). After `reset()` an earlier estimate for the same input therefore reappears.

## Model

| member | source | states |
|---|---|---|
| `Utf8.EncodeChar` | components/Pages/Trade/Liquidity/hooks/createWithdrawMsgs.ts:6 | a character encodes to 1 to 4 bytes, the later ones continuation bytes; it is one byte exactly when it is below U+0080 |
| `Utf8.DecodeEncode` | components/Pages/Trade/Liquidity/hooks/createWithdrawMsgs.ts:6 | the strict UTF-8 decoder gives back every string that `Buffer.from` encodes |
| `Base64.IndexOfCharOf` | components/Pages/Trade/Liquidity/hooks/createWithdrawMsgs.ts:6 | every sextet's alphabet character maps back to that sextet |
| `Base64.EncodeForm` | components/Pages/Trade/Liquidity/hooks/createWithdrawMsgs.ts:6 | base64 of n bytes has 4·⌈n/3⌉ characters, all from the alphabet or the pad `=` |
| `Base64.DecodeEncode` | components/Pages/Trade/Liquidity/hooks/createWithdrawMsgs.ts:6 | decoding the padded base64 of any byte string gives that byte string |
| `Json.EscapeChar` | components/Pages/Trade/Liquidity/hooks/createWithdrawMsgs.ts:6 | every character is written either as a backslash escape or as itself, and only a character that is not a quote, a backslash or a control character is written as itself |
| `Json.ParseStringify` | components/Pages/Trade/Liquidity/hooks/createWithdrawMsgs.ts:6 | the JSON parser reads back every value from its compact `JSON.stringify` text |
| `WithdrawMsgs.FromBase64ToBase64` | components/Pages/Trade/Liquidity/hooks/createWithdrawMsgs.ts:6 | `toBase64` loses nothing: base64, UTF-8 and JSON decoding give back the object |
| `WithdrawMsgs.Lookup` | components/Pages/Trade/Liquidity/hooks/createWithdrawMsgs.ts:8-16 | a field found by key is one of the object's members |
| `WithdrawMsgs.ReadSendMsg` | components/Pages/Trade/Liquidity/hooks/createWithdrawMsgs.ts:8-16 | a cw20 `send` is read back as its amount, target contract and the decoded embedded message |
| `WithdrawMsgs.ReadWithdrawMsg` | components/Pages/Trade/Liquidity/hooks/createWithdrawMsgs.ts:8-20 | `createWithdrawMsg` sends `amount` to the pool with `{withdraw_liquidity:{}}` embedded |
| `WithdrawMsgs.CreateWithdrawExecuteMsgs` | components/Pages/Trade/Liquidity/hooks/createWithdrawMsgs.ts:22-68 | 1 + claim + cw20 calls, all from the sender; the claim first and only when asked; exactly one allowance, just before the last call, only for cw20; the last call is the native withdraw with funds or the cw20 send with none |
| `WithdrawMsgs.DefaultIsCw20` | components/Pages/Trade/Liquidity/hooks/createWithdrawMsgs.ts:28 | an omitted `isNative` builds the same calls as `false`: allowance and send |
| `WithdrawMsgs.Cw20WithdrawIsCovered` | components/Pages/Trade/Liquidity/hooks/createWithdrawMsgs.ts:34-66 | the cw20 send has no funds, targets the LP token, and embeds a withdraw for exactly the amount and spender of the allowance before it |
| `WithdrawMsgs.NativeWithdrawExample` | components/Pages/Trade/Liquidity/hooks/createWithdrawMsgs.ts:56-68 | a native withdraw of 1000000 uwhale with no claim is the single withdraw call carrying those funds |
| `TextMatch.MatchFound` | components/Pages/Trade/Swap/hooks/useTransaction.tsx:101-102 | the case-insensitive search finds the pattern wherever it occurs |
| `TextMatch.MatchWitness` | components/Pages/Trade/Swap/hooks/useTransaction.tsx:101-102 | the search succeeds only at a real occurrence |
| `TextMatch.ContainsLower` | components/Pages/Trade/Swap/hooks/useTransaction.tsx:101-102 | the search gives the same answer on the lower-cased text |
| `SwapTransaction.ClassifyIgnoresCase` | components/Pages/Trade/Swap/hooks/useTransaction.tsx:100-182 | both classifiers ignore the letter case of the error text |
| `SwapTransaction.ClassifiersAgree` | components/Pages/Trade/Swap/hooks/useTransaction.tsx:100-182 | the classifiers agree on funds and spread; a simulation falls back to its own message, a signing to "User Denied" or its own |
| `SwapTransaction.InsufficientFundsAnywhere` | components/Pages/Trade/Swap/hooks/useTransaction.tsx:100-108 | "insufficient funds" in any case anywhere in the text is reported as Insufficient Funds by both classifiers |
| `SwapTransaction.RejectionIsUserDenied` | components/Pages/Trade/Swap/hooks/useTransaction.tsx:167-178 | a wallet's "Request rejected" with no funds or spread complaint is "User Denied" when signing and a generic failure when simulating |
| `SwapTransaction.OnSigningError` | components/Pages/Trade/Swap/hooks/useTransaction.tsx:163-196 | a failed signing ends in `Failed` with the classified message and changes nothing else |
| `SwapTransaction.InitialInv` | components/Pages/Trade/Swap/hooks/useTransaction.tsx:77-82 | the first render satisfies the controller invariant |
| `SwapTransaction.NextInv` | components/Pages/Trade/Swap/hooks/useTransaction.tsx:84-270 | every callback keeps the invariant: estimates cached only under error-free keys, no error while estimating, only the five messages, only the funds label |
| `SwapTransaction.RunInv` | components/Pages/Trade/Swap/hooks/useTransaction.tsx:84-270 | the invariant holds after any sequence of callbacks |
| `SwapTransaction.ErrorBlocksSubmit` | components/Pages/Trade/Swap/hooks/useTransaction.tsx:241-247 | while an error is shown the fee is null, so `submit()` changes nothing |
| `SwapTransaction.PostingOnlyBySubmit` | components/Pages/Trade/Swap/hooks/useTransaction.tsx:241-247 | `Posting` is entered only by a `submit()` that finds a fee and at least one message |
| `SwapTransaction.ReadyOnlyBySimulation` | components/Pages/Trade/Swap/hooks/useTransaction.tsx:89-98 | `Ready` is entered only by a resolved simulation; the gas is its result and so is the fee when its key is current |
| `SwapTransaction.OutcomeOnlyByRecord` | components/Pages/Trade/Swap/hooks/useTransaction.tsx:249-259 | `Success` is entered only by a record for the current hash whose code is absent or zero |
| `SwapTransaction.NoPostingWithoutEstimate` | components/Pages/Trade/Swap/hooks/useTransaction.tsx:241-247 | with no simulation result ever, no callback sequence reaches `Posting` |
| `SwapTransaction.NoConfirmationWithoutSigning` | components/Pages/Trade/Swap/hooks/useTransaction.tsx:197-259 | with no signing result, no hash is recorded and neither `Broadcasting` nor `Success` is reached |
| `SwapTransaction.DebounceResets` | components/Pages/Trade/Swap/hooks/useTransaction.tsx:261-270 | new debounced messages return to `Idle` with no error, showing the fee cached for the new input, if any |
| `SwapTransaction.LateSimulationStillApplies` | components/Pages/Trade/Swap/hooks/useTransaction.tsx:89-98 | a simulation for an outdated input still sets `Ready` and its gas, while the fee shown stays that of the current input |
| `SwapTransaction.FailedRecordScenario` | components/Pages/Trade/Swap/hooks/useTransaction.tsx:84-259 | estimate to 180000 gas, Ready with that fee, Posting, Broadcasting with the hash, then a record with code 5 gives Failed |
| `SwapTransaction.SigningErrorLostAsWritten` | components/Pages/Trade/Swap/hooks/useTransaction.tsx:163-165 | for an error whose `message` is a string, the handler as written leaves `Posting` with no error |
| `SwapTransaction.SigningErrorWithMessageMethod` | components/Pages/Trade/Swap/hooks/useTransaction.tsx:163-196 | when `message` is a method, the handler as written does what was intended |
| `SwapTransaction.TransactionController.constructor` | components/Pages/Trade/Swap/hooks/useTransaction.tsx:72-82 | Idle, no hash, no error, gas 0, no label, empty fee cache, debounced messages equal to their input |
| `SwapTransaction.TransactionController.CurrentFee` | components/Pages/Trade/Swap/hooks/useTransaction.tsx:84-85 | the fee is the cache entry for the current key |
| `SwapTransaction.TransactionController.SetProps` | components/Pages/Trade/Swap/hooks/useTransaction.tsx:59-71 | new props replace the amount and messages and nothing else |
| `SwapTransaction.TransactionController.DebouncedMsgsChanged` | components/Pages/Trade/Swap/hooks/useTransaction.tsx:261-270 | the state becomes `Next` of the debounced-messages event, keeping the invariant |
| `SwapTransaction.TransactionController.StartEstimate` | components/Pages/Trade/Swap/hooks/useTransaction.tsx:84-137 | starts exactly when messages exist, the step is Idle, there is no error and the caller enables it; then clears the error and sets Estimating |
| `SwapTransaction.TransactionController.SimulationResolved` | components/Pages/Trade/Swap/hooks/useTransaction.tsx:89-98 | records gas, clears the label, sets Ready and caches the fee under the query's key |
| `SwapTransaction.TransactionController.SimulationFailed` | components/Pages/Trade/Swap/hooks/useTransaction.tsx:99-129 | back to Idle with the classified message, and the funds label when funds are short |
| `SwapTransaction.TransactionController.Submit` | components/Pages/Trade/Swap/hooks/useTransaction.tsx:241-247 | posts exactly when there is a fee and at least one message, entering `Posting` |
| `SwapTransaction.TransactionController.SigningSucceeded` | components/Pages/Trade/Swap/hooks/useTransaction.tsx:197-200 | Broadcasting, with `transactionHash` or else `txHash` as the hash |
| `SwapTransaction.TransactionController.SigningFailed` | components/Pages/Trade/Swap/hooks/useTransaction.tsx:163-196 | as intended, Failed with the classified execution message and nothing else changed; as written the handler throws at line 165 and the state stays as it was (`SigningRejectedAsWritten`) |
| `SwapTransaction.TransactionController.RecordArrived` | components/Pages/Trade/Swap/hooks/useTransaction.tsx:249-259 | for the current hash, a nonzero code gives Failed and otherwise Success; other records change nothing |
| `SwapTransaction.TransactionController.Reset` | components/Pages/Trade/Swap/hooks/useTransaction.tsx:235-239 | clears the error and hash and returns to Idle |
| `ProvideLiquidity.Ordered` | components/Pages/Trade/Liquidity/hooks/useProvideLP.ts:51-69 | the pair comes out as a permutation of its inputs, swapped (flipped) exactly when a pool order exists and does not start with the first item's symbol |
| `ProvideLiquidity.OrdersAgree` | components/Pages/Trade/Liquidity/hooks/useProvideLP.ts:51-69 | when each typed amount carries its token's symbol, both memos order alike and each amount stays with its token |
| `ProvideLiquidity.DecimalsFollowTokens` | components/Pages/Trade/Liquidity/hooks/useProvideLP.ts:74-77 | each chain amount is converted with the decimals of the token ordered beside it, B's first when flipped |
| `ProvideLiquidity.Simulated` | components/Pages/Trade/Liquidity/hooks/useProvideLP.ts:78-107 | no quote exactly when the driving amount (B in reverse, else A) is missing or either reserve is zero |
| `ProvideLiquidity.MinUnbondingDuration` | components/Pages/Trade/Liquidity/hooks/useProvideLP.ts:41-44 | 0 without a factory configuration, else the configuration's value, which may be missing |
| `ProvideLiquidity.DepositTarget` | components/Pages/Trade/Liquidity/hooks/useProvideLP.ts:143-144 | the pair when `bondingDays` is 0, else the frontend helper |
| `ProvideLiquidity.AmountsAgree` | components/Pages/Trade/Liquidity/hooks/useProvideLP.ts:126-196 | the three amount selections agree in all four (reverse, flipped) cases; a flipped pair deposits both typed amounts, otherwise the quote replaces the non-driving one |
| `ProvideLiquidity.ProvideLP` | components/Pages/Trade/Liquidity/hooks/useProvideLP.ts:78-210 | `simulated` is the guarded quote; both message sets or neither, absent exactly when the guard of lines 110-116 fails; the messages carry the pair address, the pool-ordered tokens, the minimum unbonding duration and `bondingDays`, and the execute messages the staking proxy (the transaction target, which follows `bondingDays`) and the sender; the messages and the transaction hook all receive `DepositAmounts`; enabled exactly with messages and two positive chain amounts; the label is "No Matching Pool" exactly when there is no pair once loaded |
| `ProvideLiquidity.ProvideLPDeposits` | components/Pages/Trade/Liquidity/hooks/useProvideLP.ts:126-196 | the hook deposits the two typed chain amounts when the pair is flipped; otherwise the quote, converted with the token's decimals, replaces token B's amount (token A's in reverse) |
| `Helpers.MinAmountReceive` | hooks/helpers.ts:9-18 | the amount itself without spread and 0 at full spread; within [0, amount] for a spread in [0, 1]; the amount is recovered by dividing by 1 − spread |
| `Helpers.MinAmountMonotone` | hooks/helpers.ts:13-17 | a larger spread never raises the minimum received |
| `Helpers.PriceImpact` | hooks/helpers.ts:25-33 | finite exactly with a nonzero divisor, and then impact × (offer + spread) = 100 × spread; NaN exactly when both are zero |
| `Helpers.PriceImpactBounds` | hooks/helpers.ts:29-32 | with a positive offer and a non-negative spread, 0 ≤ impact < 100, and the impact is 0 exactly when the spread is |
| `Helpers.PriceImpactMonotone` | hooks/helpers.ts:29-32 | with a positive offer, the impact grows with the spread |
| `Helpers.SpreadFromImpact` | hooks/helpers.ts:29-32 | the spread is recovered from the offer and the impact: spread = impact × offer / (100 − impact) |

## Left out

- `Json`: only string and object values are modelled, because the builder embeds nothing else. Object keys are kept in insertion order and taken as distinct. The parser accepts exactly the compact form `JSON.stringify` writes: no whitespace, and no `\u` surrogate-pair escapes.
- `Utf8`: the input is a sequence of Unicode scalar values. The UTF-16 code units that `Buffer.from` would see, including lone surrogates, are not modelled.
- `createExecuteMessage`, `createIncreaseAllowanceMessage` and `coin` (util/messages, @cosmjs/stargate) are not part of this model. `Messages.Call` and `Messages.Coin` are plain records of their call-site arguments.
- `SwapTransaction`: toasts, `console.error`, `queryClient.invalidateQueries`, the `onBroadcasting`/`onSuccess`/`onError` props and the Finder link have no effect on the state, so they are not modelled.
- `SwapTransaction`: `directTokenSwap`, `client.simulate` and `client.getTx` are not part of this model. Their outcomes are the events `Simulated`, `SimulationRejected`, `Signed`, `SigningRejected` and `RecordFetched`.
- `SwapTransaction`: the `code` carried by `RecordFetched` is taken as given. The wallet adapter's fallback `getTx` (util/wallet-adapters/offlineSigningWallet.ts:119-153) builds records without a `txResponse` field. Through it, `txInfo?.txResponse?.code` is undefined and the effect always sets `Success`. So the failed-record path of `FailedRecordScenario` is not reachable through that fallback.
- `SwapTransaction`: the polling of `getTx` (`retry: true`) is modelled as a record that may or may not arrive, with no timing.
- `SwapTransaction`: the 200 ms debounce is the `MsgsDebounced` event, with no timing. React's re-renders, the effect dependency lists and the stale closures of the callbacks are not modelled: every event reads the current state.
- `SwapTransaction`: react-query's cache is a map that never evicts. Its refetch rules (`staleTime`, `retry: false`, window focus) are reduced to "the estimate may start whenever its guard holds".
- `SwapTransaction.Thrown`: an error value is reduced to its `toString()` text and whether its `message` member is callable.
- `ProvideLiquidity`: `toChainAmount`, `Number(x) > 0` and the quote of lines 88-98 are parameters, because they are float and rounding arithmetic from `libs/num`. So are the builders `createLpMsg` and `createLPExecuteMsgs`, which are not part of this model: the model records the arguments passed to them.
- `ProvideLiquidity`: the atoms and queries are inputs: `tokenLpAtom`, `walletState`, `useConfig`, `useTokenInfo`, `useQueryMatchingPoolForSwap` (including the choice of `poolId` and `lpOrder` between the two streamline pools), `useIsNewPosition`, `useFactoryConfig` and `useQueryPoolLiquidity`.
- `ProvideLiquidity`: the deposit transaction hook that receives the arguments (`useDepositTransaction`) is not part of this model.
- `ProvideLiquidity`: every memo is modelled as recomputed from the current inputs on each render. The dependency lists are not modelled. They are incomplete in the source: the messages memo (lines 163-173) omits `swapAddress`, `minUnbondingDuration`, `address` and `flipped`, and the `simulated` memo (lines 99-107) omits `tokenInfoA` and `tokenInfoB`. So the hook can keep stale messages, for instance the empty result or a minimum unbonding duration of 0 from before the factory configuration loads, or an earlier wallet's sender.
- `ProvideLiquidity`: reserves are compared with `=== 0` as numbers; a reserve that arrives as a string is not modelled.
- `Helpers`: `num` parsing of decimal strings, `toString` formatting, `console.log` and the decimal library's rounding of quotients are not modelled. The arithmetic is on exact reals.

## Findings

| source | as written | input that shows it | evidently intended | confidence | as-written member | corrected member |
|---|---|---|---|---|---|---|
| components/Pages/Trade/Swap/hooks/useTransaction.tsx:165 | the signing failure handler first evaluates `e?.message()`, calling `message` as a method; on an `Error` it is a string, so the call throws and the handler stops before it sets the error or the `Failed` step | `directTokenSwap` rejects with `new Error("Request rejected")` while the step is `Posting`: the controller stays `Posting` with no error | log `e?.message` and go on to classify the error and set `Failed` | high for standard `Error` values; not executed | `SwapTransaction.SigningErrorLostAsWritten` | `SwapTransaction.OnSigningError` |
