# xSuite core, modelled in Dafny

This project models the logic at the centre of the xSuite SDK for MultiversX
smart contracts, with proofs. It covers three parts:

- **The gateway client `Proxy`** (`xsuite/src/proxy/proxy.ts`). It covers:
  - how the four transaction kinds (transfer, deploy, call, upgrade) become a
    receiver and an `@`-joined `data` payload;
  - the `fetch` envelope check;
  - the `awaitTx` polling loop;
  - the ordered decision list of `resolveTx` that classifies a settled
    transaction;
  - return-data extraction (`getTxReturnData`) and the `query` return-code check;
  - the conversions `broadTxToRawTx`, `broadQueryToRawQuery`,
    `getSerializableAccount` and `getValuesInOrder`.
- **The simulated-network world `FSWorld`** (`xsuite/src/world/fsworld.ts`). It
  covers option validation in `new`, the simulator's command line in `start`,
  in-place code expansion in `setAccounts`, and the handle order of
  `createWallets`/`createContracts`. It also covers `advanceEpoch` and
  `terminate`.
- **Contract discovery of the build command** (`xsuite/src/cli/buildUtils.ts`).
  This is the depth-first search for buildable contract directories over a
  file tree.

Layout, one module per file:

| file | module | contents |
|---|---|---|
| `base.dfy` | `Base` | `Option` (`undefined`, `??`), `Outcome`/`Failure` (what the SDK throws), `Find` (`Array.prototype.find`) |
| `strings.dfy` | `Strings` | JavaScript `join`, `split`, `slice` and `startsWith` with a one-character separator, and decimal rendering, with their round trips |
| `codec.dfy` | `Codecs` | the encoders the SDK calls but which are not modelled (top-encoding, address conversion, base64, `BigInt`), as one record of functions passed to every operation |
| `encoder.dfy` | `Encoder` | transaction payloads |
| `gateway.dfy` | `Gateway` | `fetch`, the `Proxy` settings, and the raw transaction, query and account conversions |
| `decoder.dfy` | `Decoder` | `resolveTx`, `getTxReturnData`, `resolveCallContract`, `resolveDeployContract`, `query` |
| `polling.dfy` | `Polling` | `awaitTx` over a class holding the gateway's future answers |
| `fsworld.dfy` | `FsWorld` | `FSWorld` as a class with its server and a log of requests sent to the simulator |
| `buildutils.dfy` | `BuildUtils` | `isDirBuildable`, `defaultIgnore`, `findBuildableDirs`, `findBuildableContractDirs` |

Every collaborator the model cannot see is a parameter, so every property holds
whatever that collaborator computes, except where a lemma says otherwise: the
decoding lemmas require the encoders to produce hexadecimal text
(`Codecs.HexEncoders`). The collaborators are:

- the encoders (`Codecs.Codec`);
- the signer (`sign`);
- the gateway's answers (`Envelope` values, `StatusOracle.responses`);
- the addresses `createAddressLike` derives (`derived`);
- `expandCode` (`expand`);
- the current epoch;
- the address the simulator announces;
- the file tree;
- the compiled ignore pattern.

Some facts are stated as definitions rather than contracts; the lemmas and
methods below prove the properties about them:

- `BuildUtils.IsDirBuildable`: a `multiversx.json` or `elrond.json` file, and a
  `meta` directory (`xsuite/src/cli/buildUtils.ts:54-65`).
- `BuildUtils.DefaultIgnore`: the anchored pattern
  `^(target|node_modules|(\..*))$` (`xsuite/src/cli/buildUtils.ts:27`). `.` does
  not match line terminators.
- `Decoder.Classify`: the decision list of `xsuite/src/proxy/proxy.ts:163-176`.
  Its contract states when no rule fires; lemmas state each rule.

A transfer without tokens sends no `data`. `TransferTx` has no `data` field and
`sendTransfer` leaves it undefined (`xsuite/src/proxy/proxy.ts:57`, `70-73`).

## Model

| member | source | states |
|---|---|---|
| Base.Find | xsuite/src/proxy/proxy.ts:170-172 | `find` gives nothing exactly when no element matches, otherwise the element at the first matching index |
| Base.FindFirst | xsuite/src/proxy/proxy.ts:170-172 | when index i is the first match, `find` returns the element at i |
| Strings.Split | xsuite/src/proxy/proxy.ts:472 | `split` yields at least one piece and no piece contains the separator |
| Strings.JoinSplit | xsuite/src/proxy/proxy.ts:472 | joining the pieces of a split restores the string |
| Strings.SplitJoin | xsuite/src/proxy/proxy.ts:69 | splitting a join of separator-free segments returns exactly those segments |
| Strings.Slice | xsuite/src/proxy/proxy.ts:472 | `slice(k)` keeps the elements from index k on, and is empty when the list is shorter |
| Strings.NatToDecimal | xsuite/src/proxy/proxy.ts:412 | decimal rendering is a non-empty digit string with no leading zero |
| Strings.DecimalRoundTrip | xsuite/src/proxy/proxy.ts:412 | reading a rendered number back gives the number |
| Strings.DecimalInjective | xsuite/src/proxy/proxy.ts:486 | distinct numbers render to distinct keys |
| Codecs.HexHasNoSeparator | xsuite/src/proxy/proxy.ts:69 | hexadecimal text never contains `@`, so hex-encoded segments cannot break the payload |
| Gateway.Fetch | xsuite/src/proxy/proxy.ts:40-48 | the data is returned exactly when the code is "successful"; any other code raises "Unsuccessful proxy request. Response: " followed by the rendered response |
| Gateway.NewProxy | xsuite/src/proxy/proxy.ts:23-28 | a bare URL gets no headers and an empty explorer base; settings keep the URL, and headers and explorer base default to empty |
| Encoder.EsdtSegments | xsuite/src/proxy/proxy.ts:64-68 | 3 segments per token; the i-th triple is token i's identifier, nonce (0 when absent) and amount, in input order |
| Encoder.PushMultiTransfer | xsuite/src/proxy/proxy.ts:60-68 | the push loop builds exactly the tag, the hex receiver, the token count and the token triples |
| Encoder.SendTransfer | xsuite/src/proxy/proxy.ts:55-74 | with tokens the receiver becomes the sender and `data` carries the true receiver; without tokens the receiver is kept and there is no `data`; the other fields pass through |
| Encoder.SendCallContract | xsuite/src/proxy/proxy.ts:94-126 | with tokens the receiver is the sender and the payload names the callee; without tokens the receiver is the callee; `data` is the joined call segments |
| Encoder.SendDeployContract | xsuite/src/proxy/proxy.ts:76-92 | a deploy goes to the zero address from the sender, with data `code@0500@metadata@args` |
| Encoder.SendUpgradeContract | xsuite/src/proxy/proxy.ts:128-145 | an upgrade goes to the callee, with data `upgradeContract@code@metadata@args` |
| Encoder.TransferLayout | xsuite/src/proxy/proxy.ts:58-69 | a transfer of n tokens has 3+3n segments: the tag, the hex receiver, topHex(n), then identifier, nonce (0 when absent) and amount for each token |
| Encoder.AbsentListsAreEmpty | xsuite/src/proxy/proxy.ts:104-119 | an absent and an empty token or argument list encode identically, and neither counts as carrying tokens |
| Encoder.CallWithoutTokensLayout | xsuite/src/proxy/proxy.ts:115-119 | a call without tokens is the verbatim function name, then the encoded arguments; with no arguments `data` is exactly the function name, with no trailing `@` |
| Encoder.CallWithTokensLayout | xsuite/src/proxy/proxy.ts:104-119 | a call with n tokens is the 3+3n transfer segments naming the callee, then topHex(funcName), then the arguments |
| Encoder.DeployLayout | xsuite/src/proxy/proxy.ts:84-89 | deploy segments are the code, "0500" and the code metadata, then the arguments |
| Encoder.UpgradeLayout | xsuite/src/proxy/proxy.ts:137-142 | upgrade segments are "upgradeContract", the code and the code metadata, then the arguments |
| Encoder.ArgsSeparatorFree | xsuite/src/proxy/proxy.ts:119 | hex-encoded arguments contain no `@` |
| Encoder.TransferSeparatorFree | xsuite/src/proxy/proxy.ts:60-68 | every transfer segment is free of `@` |
| Encoder.TransferDataDecodes | xsuite/src/proxy/proxy.ts:69 | splitting a token transfer's `data` on `@` gives back its 3+3n segments; the third is the encoded token count |
| Encoder.CallDataDecodes | xsuite/src/proxy/proxy.ts:102-123 | a call's `data` splits back into its segments when a verbatim function name has no `@` |
| Encoder.DeployDataDecodes | xsuite/src/proxy/proxy.ts:84-89 | a deploy's `data` splits back into its segments when the code is hexadecimal |
| Encoder.UpgradeDataDecodes | xsuite/src/proxy/proxy.ts:137-142 | an upgrade's `data` splits back into its segments when the code is hexadecimal |
| Gateway.BroadTxToRawTx | xsuite/src/proxy/proxy.ts:406-427 | a raw transaction passes through; otherwise: value in decimal (0 when absent), addresses in bech32, `data` base64-encoded only when present, version 1 by default, and the signature is the sender's over the unsigned form; an unencodable `data` throws an `InvalidCharacterError` |
| Gateway.RawValueRoundTrip | xsuite/src/proxy/proxy.ts:412 | the raw transaction's decimal value reads back as the given value, or 0 when none was given |
| Gateway.BroadQueryToRawQuery | xsuite/src/proxy/proxy.ts:429-443 | a raw query passes through; a structured one has the callee in bech32, the arguments encoded in order, the caller and value present exactly when given (bech32 and decimal) |
| Gateway.GetSerializableAccount | xsuite/src/proxy/proxy.ts:445-465 | scalar fields are copied; code hash and metadata are converted from base64 to hex, absent ones as ""; the owner is the owner address; storage defaults to empty |
| Gateway.GetValuesInOrder | xsuite/src/proxy/proxy.ts:483-489 | one value per key of the record, the i-th read under the key "i" (undefined when that key is missing) |
| Gateway.ListRecordInOrder | xsuite/src/proxy/proxy.ts:483-489 | a list stored as a record keyed by position has one key per element, and reading it in order gives back every element in order |
| Decoder.ResolveTx | xsuite/src/proxy/proxy.ts:155-180 | success exactly when the status is settled, the transaction was fetched, the decision list passes and the fee parses; the result carries `base/transactions/hash`, the hash, gas used, the parsed fee and the transaction; a gateway failure of either request is passed on unchanged, "pending" fails with the pending message, a failing step of the decision list is the failure, and an unparsable fee fails with a `SyntaxError` |
| Decoder.PendingComesFirst | xsuite/src/proxy/proxy.ts:156-158 | a "pending" status fails with "Transaction still pending." whatever the transaction |
| Decoder.PendingErrorOnlyWhenPending | xsuite/src/proxy/proxy.ts:156-176 | the pending failure occurs exactly when the status is "pending" |
| Decoder.StatusComesBeforeReceiptAndSignal | xsuite/src/proxy/proxy.ts:163-165 | a status other than "success" is an `errorStatus` error carrying the status, even when a receipt code or a `signalError` event is also present |
| Decoder.ReceiptComesBeforeSignal | xsuite/src/proxy/proxy.ts:166-169 | with status "success", a non-empty receipt return code is the error, with its message, even when a `signalError` event is present |
| Decoder.Classify | xsuite/src/proxy/proxy.ts:163-176 | no rule fires exactly when the status is "success", the receipt does not fail and there is no `signalError` event |
| Decoder.SuccessWhenNoRuleFires | xsuite/src/proxy/proxy.ts:155-180 | a settled transaction with status "success", no failing receipt, no `signalError` event and a parsable fee resolves to its explorer link, hash, gas used, fee and transaction |
| Decoder.SignalErrorFailure | xsuite/src/proxy/proxy.ts:173-175 | a `signalError` event fails with code "signalError" and the decoded second topic exactly when that topic exists and is base64; otherwise `atob` throws an `InvalidCharacterError` |
| Decoder.SignalErrorMessage | xsuite/src/proxy/proxy.ts:170-176 | otherwise the first `signalError` event fails the transaction with code "signalError" and the base64-decoding of its second topic |
| Decoder.ResolveDependsOnlyOnSnapshot | xsuite/src/proxy/proxy.ts:156-159 | any two settled statuses resolve the same transaction to the same result |
| Decoder.GetTxReturnData | xsuite/src/proxy/proxy.ts:467-481 | fails exactly when the first `writeLog` event's data is not base64 (`InvalidCharacterError`) or when there is no `writeLog` event and no smart-contract results (`TypeError`); every returned value is free of `@` |
| Decoder.WriteLogComesFirst | xsuite/src/proxy/proxy.ts:468-473 | when a `writeLog` event exists, smart-contract results are not read |
| Decoder.SplitMarked | xsuite/src/proxy/proxy.ts:478 | `@m@v1@...@vn` splits into "", m, v1, ..., vn |
| Decoder.OkMarkedValues | xsuite/src/proxy/proxy.ts:475-478 | values written behind `@6f6b@` make an ok result, and dropping the first two segments gives back the values |
| Decoder.OkScrRoundTrip | xsuite/src/proxy/proxy.ts:474-479 | without `writeLog`, the first ok smart-contract result returns exactly the values written behind its marker |
| Decoder.OkMarkerAloneIsEmpty | xsuite/src/proxy/proxy.ts:474-479 | without `writeLog`, a first ok smart-contract result that is the marker `@6f6b` alone, at any position, gives no values |
| Decoder.WriteLogMarkerAloneIsEmpty | xsuite/src/proxy/proxy.ts:468-473 | a first `writeLog` event whose data decodes to a marker alone gives no values |
| Decoder.NoSourceIsEmpty | xsuite/src/proxy/proxy.ts:474-480 | with neither a `writeLog` event nor an ok result the return data is empty, not an error |
| Decoder.WriteLogRoundTrip | xsuite/src/proxy/proxy.ts:468-473 | the first `writeLog` event whose data decodes to `@m@v1@...@vn` returns exactly the values v1, ..., vn |
| Decoder.WriteLogExample | xsuite/src/proxy/proxy.ts:471-473 | an instance of `WriteLogRoundTrip`: a `writeLog` event decoding to "@6f6b@0041" returns ["0041"] |
| Decoder.ResolveCallContract | xsuite/src/proxy/proxy.ts:195-199 | a call result is the resolved transaction plus its return data; it succeeds exactly when both `resolveTx` and `getTxReturnData` succeed, and otherwise passes on the first failure |
| Decoder.ResolveDeployContract | xsuite/src/proxy/proxy.ts:186-193 | a deploy result is the call result plus the address of an `SCDeploy` event of the transaction; a failed call passes its failure on, and a succeeded call fails with a `TypeError` exactly when the transaction has no `SCDeploy` event |
| Decoder.DeployAddressFromEvent | xsuite/src/proxy/proxy.ts:189-191 | the deployed address is the one the first `SCDeploy` event carries |
| Decoder.Query | xsuite/src/proxy/proxy.ts:235-247 | a `QueryError` with the code and message exactly when the return code is neither 0 nor "ok"; otherwise as many values as returned, each converted from base64 to hex in order |
| Decoder.QueryAcceptsOnlyZeroOrOk | xsuite/src/proxy/proxy.ts:240 | the number 0 and the string "ok" are accepted; the string "0" is not |
| Polling.SettleIndex | xsuite/src/proxy/proxy.ts:147-153 | the first answer from a position on that is not "pending" |
| Polling.StatusOracle.GetTxProcessStatus | xsuite/src/proxy/proxy.ts:281-284 | reads the next answer through `fetch` |
| Polling.StatusOracle.AwaitTx | xsuite/src/proxy/proxy.ts:147-153 | stops right after the first answer that is not "pending": every earlier answer was pending and re-queried, one 1000 ms wait per re-query, and an unsuccessful answer is thrown |
| Polling.StatusOracle.AwaitAndResolve | xsuite/src/proxy/proxy.ts:205-209 | a failed wait is the result; otherwise the status is read once more and the fetched transaction is resolved; the wait is one interval per re-read pending answer |
| FsWorld.NewWorldConfig | xsuite/src/world/fsworld.ts:39-50 | fails with "chainId is not undefined." exactly when a chain identifier is given; otherwise chain "chain", gas price 1 000 000 000 by default, and the proxy on the given URL and explorer with no headers |
| FsWorld.FSWorld.New | xsuite/src/world/fsworld.ts:39-50 | a new world with that configuration, the given server and no requests sent |
| FsWorld.StartArgs | xsuite/src/world/fsworld.ts:87-115 | the binary defaults to the package's; the argument vector has the layout of `IsLaunchArgs` |
| FsWorld.LaunchArgsUnique | xsuite/src/world/fsworld.ts:100-115 | that layout determines one argument vector: the fixed options in order (port 0 by default), `--node-override-config` with the comma-joined list exactly when the list is non-empty, `--skip-configs-download` last exactly when downloads are not requested |
| FsWorld.DefaultOverrides | xsuite/src/world/fsworld.ts:92-98 | without caller paths the overrides are the default file then `nodeOverride.toml`; a single extra path is appended last |
| FsWorld.OverridesRecoverable | xsuite/src/world/fsworld.ts:110-112 | splitting the override argument on commas gives back the override list when no path contains a comma |
| FsWorld.FSWorld.Start | xsuite/src/world/fsworld.ts:64-138 | spawns the binary with the launch arguments, and builds the world on `http://` plus the announced address |
| FsWorld.FSWorld.SetAccountsInPlace | xsuite/src/world/fsworld.ts:187-194 | expands every account's code in the caller's own array, then sends the expanded list |
| FsWorld.FSWorld.CreateAccounts | xsuite/src/world/fsworld.ts:153-177 | one handle per request, in request order, each on its derived address; all accounts are sent in one request with their code expanded |
| FsWorld.FSWorld.CreateWallets | xsuite/src/world/fsworld.ts:153-162 | one wallet per request, in order, on its derived address; one request with the expanded accounts; the server kept |
| FsWorld.FSWorld.CreateContracts | xsuite/src/world/fsworld.ts:168-177 | one contract per request, in order, on its derived address; one request with the expanded accounts; the server kept |
| FsWorld.FSWorld.AdvanceToEpochRequest | xsuite/src/world/fsworld.ts:204-206 | sends one request for the given epoch |
| FsWorld.FSWorld.AdvanceEpoch | xsuite/src/world/fsworld.ts:208-211 | requests epoch current + k |
| FsWorld.FSWorld.Terminate | xsuite/src/world/fsworld.ts:245-248 | fails with "No server defined." when there is no server, otherwise kills it |
| BuildUtils.DefaultIgnoreWholeNames | xsuite/src/cli/buildUtils.ts:27 | the default pattern matches `target`, `node_modules` and hidden names only as whole names |
| BuildUtils.FindBuildableDirs | xsuite/src/cli/buildUtils.ts:37-52 | the recursive search with its loop lists exactly `BuildableDirs`: a buildable directory alone, else its non-ignored child directories' results in listing order |
| BuildUtils.BuildableDirsFound | xsuite/src/cli/buildUtils.ts:37-52 | a path is listed exactly when it is a buildable directory reached through non-buildable, non-ignored directories |
| BuildUtils.ChildrenDirsFound | xsuite/src/cli/buildUtils.ts:42-49 | the first k children contribute exactly the paths found through one of them |
| BuildUtils.FoundBelow | xsuite/src/cli/buildUtils.ts:44-47 | a directory found from p is p or lies under `p/` |
| BuildUtils.ResultsBelowStart | xsuite/src/cli/buildUtils.ts:37-52 | every listed directory is the start directory or lies under it |
| BuildUtils.SiblingsApart | xsuite/src/cli/buildUtils.ts:44 | paths under two differently named siblings never coincide |
| BuildUtils.BuildableDirsDistinct | xsuite/src/cli/buildUtils.ts:37-52 | in a tree with unique names, no directory is listed twice |
| BuildUtils.FindBuildableContractDirs | xsuite/src/cli/buildUtils.ts:5-25 | recursively, the search with the given or default ignore test, and a missing or non-directory start throws; otherwise `[dir]` when it is buildable, else `[]`; "No valid contract found." is logged exactly when the result is empty |

## Left out

- HTTP transport (`fetchRaw`, headers, JSON bodies and parsing): the gateway's answers are parameters (`Envelope` values and `StatusOracle.responses`).
- `sendTx` posting and hash extraction, `getTx`/`_getTx` path building, `getNetworkStatus` field renaming and the account getters (`getAccountNonce`, `getAccountBalance`, `getAccountKvs`, `getAccount*`, the deprecated aliases). These are thin path-building wrappers over `fetch`.
- Signing in `broadTxToRawTx` (`sign`, `TextEncoder`, `u8aToHex`) is a parameter. The JSON serialisation the signature covers is not modelled.
- The top-encoders, address conversion, base64 and `BigInt` parsing are uninterpreted fields of `Codecs.Codec`. The decoding lemmas assume hexadecimal output (`HexEncoders`).
- `InteractionError` message text: the JSON rendering of the failed result is not kept. A failure carries its interaction, code and message.
- Decoder.ResolveTx: the transaction in the result is the snapshot as fetched. The copy with `explorerUrl` and `hash` spread in is not modelled.
- Decoder.GetTxReturnData, Decoder.Classify, Decoder.ResolveTx, Decoder.ResolveDeployContract: a transaction with `logs` but no `events`, for which the `writeLog`, `signalError` and `SCDeploy` lookups (`xsuite/src/proxy/proxy.ts:168`, `170`, `188`) throw a `TypeError`, is not modelled. `events` is absent only when `logs` is.
- JavaScript numbers and bigints are unbounded integers. Amounts, gas prices and limits and the nonces of outgoing transactions are `nat`. Epochs (`AdvanceEpoch`, `Request.AdvanceToEpoch`), the gas used of a fetched transaction and the nonce of a fetched account (`RawAccount.nonce`) are `int`, as the source puts no sign restriction on them. Floating point is not modelled.
- Strings.NatToDecimal: renders every digit. A `number`-typed value of 1e21 or more renders in exponent form in the source (`(tx.value ?? 0n).toString()`, `xsuite/src/proxy/proxy.ts:412`), which the model does not capture.
- Polling.StatusOracle.AwaitTx: the wait itself is a counter of milliseconds. A transaction that never settles, where the source polls forever, is excluded by the requirement that a later answer is not "pending".
- Polling.StatusOracle.AwaitAndResolve: requires one more answer after the settling one, for the status read of `resolveTx`.
- FsWorld.FSWorld.Start: `spawn`, the stderr and error handlers that throw, and the ready-line regular expression are not modelled. The matched address is a parameter, and a simulator that never announces its URL is not modelled.
- FsWorld.StartArgs: when the caller passes `nodeOverrideConfigPaths`, the source appends `nodeOverrideConfigPath` to the caller's own array. The model appends to a copy, so that aliasing is not captured.
- FsWorld.FSWorld.Terminate: the kill signal is a flag on the process. Process exit is not modelled.
- The `FSProxy` calls are recorded as requests in `FSWorld.requests`; their HTTP exchange is not modelled.
- `createAddressLike` and `expandCode` are parameters (`derived` and `expand`). `newWallet`/`newContract` are handle values.
- The thin forwarders `generateBlocks`, `processTx` and `getInitialAddresses` are left out. So are the `resolveDeployContract`/`deployContract` overrides that attach a contract handle, the `newDevnet`/`newTestnet`/`newMainnet` stubs, which only throw, and `Symbol.dispose`.
- BuildUtils: `path.join` normalisation, symbolic links and file system errors other than a missing path or a non-directory are not modelled. `getUid`/`getGid` are operating-system queries and are left out too.
- BuildUtils.FindBuildableContractDirs: a custom ignore pattern that fails to compile, which throws a `SyntaxError`, is not modelled. The compiled pattern's test is a parameter.
