# go-web3: EIP-55 checksums and contract transactions, modelled in Dafny

This project models two pieces of the Go library go-web3 and proves properties of them.

- **The EIP-55 checksum codec (`utils.go`).**
  - `ToChecksumAddress` checks that an address is `0x` followed by 40 hex characters.
  - It lower-cases the 40 characters and hashes them with Keccak-256.
  - It then upper-cases character `i` exactly when hex digit `i` of the digest exceeds 7.
  - `IsChecksumAddress` recomputes the checksum and compares it with its input.
- **The contract layer (`contract/contract.go`).**
  - A `Txn` is a transaction draft that its methods fill in step by step:
    - `Validate` builds `Data` from the bytecode, the method selector and the encoded arguments;
    - a gas price of 0 is fetched from the node, and a gas limit of 0 is estimated;
    - the nonce is fetched, and the transaction is assembled, signed and broadcast.
  - A `Contract` binds an address and an ABI. It makes read-only calls and creates drafts.

The files:

| file | module | contents |
|---|---|---|
| `wrappers.dfy` | `Wrappers` | `Option` (a Go nil pointer or slice) and `Result` (Go's `(value, error)`) |
| `eip55.dfy` | `Eip55` | the checksum codec as functions, the loop of `ToChecksumAddress` as a method, and its lemmas |
| `web3.dfy` | `Web3` | the byte type shared by both parts, the values of the contract layer, and the `Oracle` class standing for the node, the ABI codec and the signer |
| `contract_spec.dfy` | `ContractSpec` | the drafts as `Draft` values, the runs that specify the `Txn` operations and `Contract.Call`, and the lemmas about them |
| `contract.dfy` | `Contract` | the classes `Txn` and `Contract` |

**How the contract layer is modelled.**

- **The oracle.** An `Oracle` answers every question from a fixed `Replies` record of total functions, so the same question always gets the same answer. Each question is also appended to the oracle's ghost `log`.
- **The specification.** `ContractSpec` describes each operation as a *run*: the result, the draft's fields afterwards, and the requests made, in order.
- **The link to the classes.** The methods `Validate`, `EstimateGas`, `FillGasPrice`, `FillGasLimit`, `ConvertToWeb3Transaction` and `SignAndSend` of the `Txn` class are each proved to do exactly their run. Each returns the run's result, leaves `Snapshot()` equal to the run's draft, and extends the log by the run's requests. The other methods are tied to the specification differently:
  - the setters state the one field they change;
  - `QueryGasEstimate` asks `EstimateRequest` of the draft and changes no field;
  - `AssembleWithNonce` does `AssembleRun`'s result and requests and changes no field;
  - `Wait` asks nothing when `maxPolls` is 0; otherwise its first poll is `WaitStepRun`, and a pending wait logs `maxPolls` receipt requests.
- **Go nil slices.** These are `None`, and `Append` follows Go's `append`. Appending nothing to a nil slice leaves it nil, and the code's checks such as `t.Data != nil` depend on this.
- **Go integers.** The `uint64` fields are the subset type `U64`.

**The send pipeline.** Each request has a *stage*:

| stage | request |
|---|---|
| 0 | encode |
| 1 | gas price |
| 2 | gas estimate |
| 3 | nonce |
| 4 | sign |
| 5 | broadcast |

`PipelineOutcome(rs, run, lo, hi)` states the contract of the part of the pipeline from stage `lo` to stage `hi`:

- its requests come in strictly increasing stage order, all within those stages;
- a success means every request succeeded;
- a failure means every request but the last succeeded, and the run fails with the last request's error.

The whole of `ConvertToWeb3Transaction` is proved to be the part from stage 0 to stage 3, and the whole of `SignAndSend` the part from stage 0 to stage 5.

**The `0x` prefix.** The regular expression at `utils.go:15` requires the `0x` prefix, so an address without it is invalid. The model follows it.

## Model

| member | source | states |
|---|---|---|
| `Eip55.IsAddress` | utils.go:15-16 | an accepted address has 42 characters and starts with "0x", and stripping the prefix leaves its 40-character body |
| `Eip55.StripHexPrefix` | utils.go:21-22 | replacing `^0x` with "" removes exactly a leading "0x" and leaves any other string as it is |
| `Eip55.HexEncode` | utils.go:29 | `%x` gives two characters per byte, each a decimal digit or a lower-case letter |
| `Eip55.Checksum` | utils.go:13-48 | the checksum is "" exactly for an invalid address, and otherwise 42 characters starting with "0x"; it is built from the helpers `Body` (the lower-cased body, utils.go:21-23), `AddressDigest` (its Keccak-256 digest, utils.go:26-28) and `ApplyCase` with `CaseChar` (the per-character case rule, utils.go:35-46) |
| `Eip55.ParseHexDigit` | utils.go:36-40 | parsing one character in base 16 succeeds exactly on `[0-9a-fA-F]`, and gives a value in 0..15 |
| `Eip55.ToLower` | utils.go:23 | lower-casing keeps the length and maps every character through ASCII lower-casing |
| `Eip55.HexDigit` | utils.go:29 | `%x` renders a value below 16 as a decimal digit or a lower-case letter |
| `Eip55.ToChecksumAddress` | utils.go:13-48 | the loop builds exactly `Checksum(address, keccak)`: "" for an invalid address, else "0x" followed by the case rule applied to the lower-cased body; the parse-error branch is unreachable |
| `Eip55.IsChecksumAddress` | utils.go:51-58 | the error part of the result is always nil |
| `Eip55.HexEncodeAt` | utils.go:29-36 | character `i` of the `%x` rendering is the hex digit of nibble `i` of the digest, and parses back to that nibble |
| `Eip55.HexEncodeHasNoPrefix` | utils.go:30 | stripping `^0x` from the digest's rendering changes nothing |
| `Eip55.ChecksumCaseRule` | utils.go:41-45 | output character `i + 2` is an upper-case letter exactly when digest digit `i` exceeds 7 and input character `i + 2` is a letter; digits pass through unchanged; only the case differs from the input |
| `Eip55.ChecksumOnlyChangesCase` | utils.go:22-45 | lower-casing the checksum gives "0x" followed by the lower-cased body of the input |
| `Eip55.ChecksumIsAddress` | utils.go:33-47 | the checksum of a valid address is again a valid address |
| `Eip55.ChecksumCaseInsensitive` | utils.go:23-29 | two valid addresses that differ only in letter case have the same checksum |
| `Eip55.ChecksumIdempotent` | utils.go:13-48 | taking the checksum of a checksum changes nothing |
| `Eip55.ChecksumRoundTrip` | utils.go:51-58 | the checksum of any valid address passes `IsChecksumAddress` with a nil error |
| `Eip55.IsChecksumAddressIff` | utils.go:51-58 | `IsChecksumAddress` is true exactly for "" and for the valid addresses whose every character already has the case its digest digit dictates |
| `Eip55.UsdcRoundTrip` | utils/utils_test.go:8-24 | the test's USDC address is valid, and its checksum passes `IsChecksumAddress` |
| `Web3.Append` | contract/contract.go:305 | Go's `append`: the contents are the old contents followed by the extra bytes; the result is nil exactly when the slice was nil and nothing was appended |
| `ContractSpec.IsContractDeployment` | contract/contract.go:140-142 | a draft is a deployment whenever it has bytecode, even empty bytecode; only a nil `Bin` makes it a call |
| `ContractSpec.ValidateRun` | contract/contract.go:299-319 | Validate changes only `Data`; it asks the encoder exactly when `Data` is nil and there is a method |
| `ContractSpec.ValidateFailsIffEncodingFails` | contract/contract.go:307-311 | Validate fails exactly when it must encode and the encoder fails, returning the error wrapped by the helper `EncodingError` (contract/contract.go:310) as "failed to encode arguments: …" |
| `ContractSpec.ValidateNoOpWhenDataSet` | contract/contract.go:300-303 | with `Data` set, Validate returns nil, changes no field and asks nothing |
| `ContractSpec.ValidateIdempotent` | contract/contract.go:299-319 | a second Validate after a successful one succeeds and changes nothing |
| `ContractSpec.ValidateCallData` | contract/contract.go:312-313 | for a call, a successful Validate sets `Data` to the selector followed by the encoded arguments |
| `ContractSpec.ValidateDeployData` | contract/contract.go:304-316 | for a deployment, a successful Validate sets `Data` to the bytecode followed by the encoded arguments, nil only when both are empty |
| `ContractSpec.ValidateFailureLeavesBytecode` | contract/contract.go:304-311 | a failed encoding leaves `Data` holding the bytecode; on a deployment with non-empty bytecode, a later Validate then no-ops on it |
| `ContractSpec.Reported` | contract/contract.go:308-310 | a pipeline request reports an error exactly when the oracle fails it; encoding errors are wrapped |
| `ContractSpec.EstimateRequest` | contract/contract.go:164-176 | `estimateGas` asks the creation estimator with `Data` exactly for a deployment, else the call estimator with `From`, `Addr`, `Data` and `Value` |
| `ContractSpec.EstimateReply` | contract/contract.go:164-176 | the estimator's answer carries an error exactly when the request is reported as failed |
| `ContractSpec.GasPriceRun` | contract/contract.go:199-205 | the gas price is asked for exactly when it is 0; then the node's price is stored even with an error, and the step fails exactly when the reply carries an error; a nonzero price means no request and no change |
| `ContractSpec.GasLimitRun` | contract/contract.go:207-213 | the gas limit is estimated exactly when it is 0; then the estimate is stored even with an error, and the step fails exactly when the estimate carries an error; a nonzero limit means no request and no change |
| `ContractSpec.Assemble` | contract/contract.go:223-233 | the transaction carries `From`, `Data` as input, the gas price, the gas limit as gas, `Value` and the nonce, and has a recipient exactly when the draft has an address |
| `ContractSpec.AssembleRun` | contract/contract.go:216-233 | one nonce request for `From` at the latest block; on success, the transaction is assembled from the draft and that nonce |
| `ContractSpec.LimitedRun` | contract/contract.go:207-233 | from the gas limit on, only the gas limit changes, and a nonzero one is kept |
| `ContractSpec.PricedRun` | contract/contract.go:199-233 | from the gas price on, only the gas price and the gas limit change, and nonzero ones are kept |
| `ContractSpec.ConvertRun` | contract/contract.go:190-236 | ConvertToWeb3Transaction changes only `Data`, the gas price and the gas limit, and keeps nonzero gas values |
| `ContractSpec.SignRun` | contract/contract.go:284-288 | one signing request; the result is the signer's answer |
| `ContractSpec.SendRun` | contract/contract.go:290-295 | one broadcast request; the hash is stored even when the broadcast fails |
| `ContractSpec.SignedRun` | contract/contract.go:284-295 | signing and broadcasting change only the hash |
| `ContractSpec.SignAndSendRun` | contract/contract.go:239-296 | SignAndSend changes what ConvertToWeb3Transaction changes, plus the hash |
| `ContractSpec.ValidateOutcome` | contract/contract.go:299-319 | Validate is the pipeline part at stage 0 |
| `ContractSpec.GasPriceOutcome` | contract/contract.go:199-205 | the gas price step is the pipeline part at stage 1 |
| `ContractSpec.GasLimitOutcome` | contract/contract.go:207-213 | the gas limit step is the pipeline part at stage 2 |
| `ContractSpec.AssembleOutcome` | contract/contract.go:216-220 | the nonce step is the pipeline part at stage 3 |
| `ContractSpec.SignOutcome` | contract/contract.go:284-288 | signing is the pipeline part at stage 4 |
| `ContractSpec.SendOutcome` | contract/contract.go:290-295 | broadcasting is the pipeline part at stage 5 |
| `ContractSpec.LimitedOrder` | contract/contract.go:207-233 | the steps from the gas limit on are the pipeline part of stages 2 to 3 |
| `ContractSpec.PricedOrder` | contract/contract.go:199-233 | the steps from the gas price on are the pipeline part of stages 1 to 3 |
| `ContractSpec.ConvertOrder` | contract/contract.go:190-236 | ConvertToWeb3Transaction asks in the order validate, gas price, gas limit, nonce; it stops at the first failure and returns that failure's error |
| `ContractSpec.SignedOrder` | contract/contract.go:284-295 | signing then broadcasting is the pipeline part of stages 4 to 5 |
| `ContractSpec.SignAndSendOrder` | contract/contract.go:239-296 | SignAndSend asks in the order validate, gas price, gas limit, nonce, sign, broadcast; every request before a failure succeeded, and the failure's error is returned |
| `ContractSpec.SignedSucceedsIff` | contract/contract.go:284-295 | signing and broadcasting succeed exactly when both requests succeed, with the broadcast last |
| `ContractSpec.SignAndSendSucceedsIff` | contract/contract.go:239-296 | SignAndSend succeeds exactly when every request it made succeeded and the last one was the broadcast |
| `ContractSpec.EncodingFailureStopsSignAndSend` | contract/contract.go:240-244 | when Validate fails, SignAndSend returns its error and asks only the encoder: no network request at all |
| `ContractSpec.HashRecordedOnlyBySend` | contract/contract.go:290 | the hash keeps its old value unless the transaction was assembled and signed; then it is the broadcast's answer, and the broadcast was the last request |
| `ContractSpec.StageAbsent` | contract/contract.go:239-296 | a request whose stage lies outside a run's stages is not among its requests |
| `ContractSpec.LimitedAsks` | contract/contract.go:207-213 | the estimate is requested exactly when the gas limit is 0, and it is stored |
| `ContractSpec.PricedAsks` | contract/contract.go:199-213 | the gas price is requested exactly when it is 0, and the node's price is then stored; the estimate is requested exactly when the gas limit is 0 and the price step succeeded, and is then stored |
| `ContractSpec.ConvertAsks` | contract/contract.go:192-213 | the same, after a successful Validate, for ConvertToWeb3Transaction |
| `ContractSpec.SignAndSendTail` | contract/contract.go:284-295 | SignAndSend asks nothing before signing that ConvertToWeb3Transaction does not |
| `ContractSpec.GasPriceFetchedOnlyWhenUnset` | contract/contract.go:246-253 | SignAndSend fetches the gas price exactly when Validate succeeded and the price was 0, and then stores the node's price; a price set with SetGasPrice is kept |
| `ContractSpec.GasLimitEstimatedOnlyWhenUnset` | contract/contract.go:254-261 | SignAndSend estimates the gas exactly when Validate and the price step succeeded and the limit was 0, with the estimator `estimateGas` picks; the estimate is stored even with an error; a limit set with SetGasLimit is kept |
| `ContractSpec.ConvertAssembles` | contract/contract.go:223-233 | the transaction carries `From`, the validated `Data` as input, the gas price and limit (the node's price when the draft's was 0), `Value`, the fetched nonce, and `To` exactly as `Addr` |
| `ContractSpec.SignAndSendSignsConverted` | contract/contract.go:270-290 | SignAndSend signs the transaction ConvertToWeb3Transaction assembles, and broadcasts that signature last |
| `ContractSpec.DeployTransaction` | contract/contract.go:23-31 | a DeployContract draft (the helper `DeployDraft`, contract/contract.go:24-30) becomes a creation with no recipient, whose input is the bytecode followed by the constructor's encoded arguments |
| `ContractSpec.CallTransaction` | contract/contract.go:108-122 | a `Contract.Txn` draft (the helper `CallDraft`, contract/contract.go:116-121) is sent to the contract, with the selector followed by the encoded arguments as input |
| `ContractSpec.EstimateGasRun` | contract/contract.go:157-162 | Txn.EstimateGas changes only `Data` |
| `ContractSpec.EstimateGasAsks` | contract/contract.go:157-176 | Txn.EstimateGas returns a Validate failure having asked nothing more; otherwise it asks exactly the estimator `estimateGas` picks and returns its answer, without storing it |
| `ContractSpec.ContractEstimateGasAsWritten` | contract/contract.go:58-60 | as written, the draft's arguments are the single argument wrapping the caller's arguments, and its recipient is the contract |
| `ContractSpec.ContractEstimateGas` | contract/contract.go:58-60 | as intended, the draft's arguments are the caller's arguments, and its recipient is the contract |
| `ContractSpec.ContractEstimateGasEncodesWrappedArgs` | contract/contract.go:58-60 | as written, the encoder receives one argument wrapping the caller's arguments, never the caller's arguments themselves |
| `ContractSpec.ContractEstimateGasEncodesArgs` | contract/contract.go:58-60 | as intended, the encoder receives the caller's arguments; the call estimator then gets the zero sender, the contract and the selector-prefixed encoding |
| `ContractSpec.WaitStepRun` | contract/contract.go:341-349 | one poll asks for the receipt of the hash and records the answer whatever it is |
| `ContractSpec.WaitStepOutcome` | contract/contract.go:341-349 | a poll fails exactly on an error other than "not found"; it ends the wait exactly when there is no such error and a receipt came back; "pending" leaves no receipt |
| `ContractSpec.WaitStepStable` | contract/contract.go:340-350 | a fact about the fixed oracle: polling an unchanged node again gives the same answer, so against it a pending wait never ends; a node whose answer changes is not modelled |
| `ContractSpec.CallRun` | contract/contract.go:63-105 | Call makes at most three requests, none for an unknown method, and the first is always the encoding of the arguments; the message it sends is built by the helper `CallMessage` (contract/contract.go:77-83) |
| `ContractSpec.CallUnknownMethod` | contract/contract.go:64-67 | an unknown method name fails with "method … not found" before any request |
| `ContractSpec.CallEmptyResponse` | contract/contract.go:95-97 | an empty response is the error "empty response", and nothing is decoded |
| `ContractSpec.CallSucceedsIff` | contract/contract.go:63-105 | Call returns fields exactly when the method exists, the arguments encode, the node answers the selector-prefixed call with non-empty bytes, and they decode to those fields; Call never signs or sends |
| `Contract.Txn.constructor` | contract/contract.go:125-138 | the draft holds the given fields |
| `Contract.Txn.AddArgs` | contract/contract.go:145-148 | replaces the arguments, changes nothing else, and returns the draft |
| `Contract.Txn.SetValue` | contract/contract.go:151-154 | sets the value, changes nothing else, and returns the draft |
| `Contract.Txn.SetGasPrice` | contract/contract.go:322-325 | sets the gas price, changes nothing else, and returns the draft |
| `Contract.Txn.SetGasLimit` | contract/contract.go:328-331 | sets the gas limit, changes nothing else, and returns the draft |
| `Contract.Txn.Validate` | contract/contract.go:299-319 | does exactly `ValidateRun`: the same error, fields and requests |
| `Contract.Txn.QueryGasEstimate` | contract/contract.go:164-176 | asks exactly `EstimateRequest` of the draft and returns the estimator's answer, changing no field |
| `Contract.Txn.EstimateGas` | contract/contract.go:157-162 | does exactly `EstimateGasRun` |
| `Contract.Txn.FillGasPrice` | contract/contract.go:199-205 | does exactly `GasPriceRun` |
| `Contract.Txn.FillGasLimit` | contract/contract.go:207-213 | does exactly `GasLimitRun` |
| `Contract.Txn.AssembleWithNonce` | contract/contract.go:216-235 | does exactly `AssembleRun`, changing no field |
| `Contract.Txn.ConvertToWeb3Transaction` | contract/contract.go:190-236 | does exactly `ConvertRun` |
| `Contract.Txn.SignAndSend` | contract/contract.go:239-296 | does exactly `SignAndSendRun` |
| `Contract.Txn.Wait` | contract/contract.go:334-352 | after one poll, the result and fields are those of `WaitStepRun`; pending polls only repeat the receipt request; `Mined` means a receipt is recorded; the zero hash is excluded |
| `Contract.DeployContract` | contract/contract.go:23-31 | a fresh draft with the sender, the ABI's constructor, the arguments and the bytecode, and no address |
| `Contract.Contract.constructor` | contract/contract.go:34-40 | NewContract: the address, ABI and provider, with no sender |
| `Contract.Contract.SetFrom` | contract/contract.go:53-55 | sets the sender of calls |
| `Contract.Contract.Call` | contract/contract.go:63-105 | does exactly `CallRun`: the same result and requests, and no change to the contract |
| `Contract.Contract.Txn` | contract/contract.go:108-122 | a fresh draft for the named method: that method, the arguments and the contract's address, with the zero sender |
| `Contract.Contract.EstimateGas` | contract/contract.go:58-60 | does exactly `ContractEstimateGas`, the corrected form described under Findings |

## Left out

- **Keccak-256.** It is a parameter `keccak` of the codec, of which the model uses nothing but its 32-byte result.
- **The regular expressions.** `regexp` is written out as the character predicates `IsAddress` and `StripHexPrefix`.
- **`fmt.Printf` and `fmt.Println` logging.** It is not modelled.
- **Unicode case mapping.** `strings.ToLower` and `strings.ToUpper` are modelled on ASCII. The codec applies them only to ASCII hex characters, where the two agree.
- **The test's signature.** `utils/utils_test.go` calls a `ToChecksumAddress` that returns `(string, error)`, from a `utils` package that is not part of this model. The model follows `utils.go`, where it returns a string.
- **The oracle.** The ABI codec (`abi.Encode` and `abi.Decode`), the JSON-RPC node and the EIP-155 signer with RLP encoding are the `Oracle`:
  - it answers from fixed `Replies`;
  - its answers are deterministic;
  - the ABI and the bytes are opaque.
- **`Method.ID()`.** It is a stored selector.
- **`hex.DecodeString(rawStr[2:])` in `Contract.Call`.** It is part of the `call` reply. The panic on a response shorter than two characters is not modelled.
- **The type assertion `respInterface.(map[string]interface{})` in `Contract.Call` (contract/contract.go:103).** The `decode` reply is already a map of fields, so the panic when the decoded value is not a map is not modelled.
- **Concurrency.** A shared provider and reentrancy are not modelled.
- **A nil provider.** The panic it would cause is not modelled.
- **A nil `Method` with a nil `abi.Constructor`.** This is `None`.
- **`Value`.** A `*big.Int` is `Option<int>`, with no arithmetic.
- **`Contract.Txn.SetValue`:** the panic of `Set` on a nil `*big.Int` is not modelled, because the argument is always an integer.
- **`Contract.Contract.Txn`:** its panic on an unknown method name is the precondition `name in abi.methods`.
- **`Contract.Contract.EstimateGas`:** requires `name in abi.methods` for the same reason, since it calls `Contract.Txn`.
- **`Contract.Txn.Wait`:** its endless polling loop is cut off after `maxPolls` polls. With fixed replies, the first poll decides the outcome. If `maxPolls` runs out while still pending, the result is `StillPending`, an outcome the source loops on forever. The panic on the zero hash is the precondition `hash != ZeroHash`.
- **`SignSendAndWait` (contract/contract.go:180-188).** It is the composition of `SignAndSend` and `Wait`, each modelled. It is not modelled itself because of `Wait`'s unbounded loop.
- **`SignAndSend`'s copy of the steps (contract/contract.go:239-296).** The source repeats the steps of `ConvertToWeb3Transaction` line for line. The model calls `ConvertToWeb3Transaction` instead, and `SignAndSendRun` is specified through `ConvertRun`.
- **`Event`, `ParseLog` and `Encode` (contract/contract.go:359-381).** These are thin wrappers over the ABI library and are not modelled.
- **`ABI()` and `Addr()`.** These accessors are the `const` fields `abi` and `addr` of `Contract.Contract`.
- **`ContractSpec.EstimateGasRun`:** on an estimator error, contract/contract.go:161 returns the estimator's `(uint64, error)` unchanged, so a Go caller also gets the value. The run's `Result` keeps only the error, and so does `Contract.Txn.EstimateGas`. No other operation uses that value.
- **`GetReceipt`.** It is the plain accessor `Contract.Txn.GetReceipt`, used in `Wait`'s contract.

## Findings

| source | as written | input that shows it | evidently intended | confidence | as-written member | corrected member |
|---|---|---|---|---|---|---|
| contract/contract.go:58-60 | `Contract.EstimateGas` passes its variadic `args` to `c.Txn(method, args)` without `...`, so the draft's arguments are one element: the caller's whole argument slice | any call with arguments, e.g. `EstimateGas("transfer", to, amount)`: the encoder gets `[[to, amount]]` instead of `[to, amount]` | pass `args...`, so the estimate is for the call with the caller's arguments, as `Contract.Call` encodes them | not executed | `ContractSpec.ContractEstimateGasAsWritten`, `ContractSpec.ContractEstimateGasEncodesWrappedArgs` | `ContractSpec.ContractEstimateGas`, `ContractSpec.ContractEstimateGasEncodesArgs`, `Contract.Contract.EstimateGas` |
