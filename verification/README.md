# Time capsule: a verified model

Time Capsule lets a user store a message on a CosmWasm chain together with an
unlock time, and read it back later. The contract keeps one capsule per owner
address. It answers a query with the real text only once the block time has
reached the unlock second. Before that, it answers with the placeholder
"This message is still locked." Two React components form the web client:

- `MessageStore` converts the chosen date to Unix seconds, checks the form and
  submits a `store_message` transaction through the Leap wallet.
- `MessageRetriever` queries the capsule, keeps the reader's view of it, runs a
  one-second countdown and decides what is rendered.

This project models all three in Dafny and proves what they promise.

Modules, one per source file, plus the support they need:

- `State` (`contract/src/state.rs`): the `Capsule` record and the `CAPSULES` map, the contract's only state.
- `Msg` (`src/msg.rs`): the request and response types, and the JSON shape `cw_serde` gives them
  (snake_case externally tagged variants, exact field sets, `u64` as an in-range number), with decoders
  and round-trip lemmas.
- `Contract` (`src/contract.rs`): the storage is a class `TimeCapsule` with a `map` field. `Instantiate`,
  `Execute` and `ExecuteStoreMessage` are methods that update it. `QueryGetMessage` and `Query` are pure
  functions of the map, just as the Rust query only receives read-only `Deps`.
- `MessageRetriever` (`MessageRetriever.tsx`): `CalculateTimeRemaining` has the clock as a parameter. The class
  `Retriever` holds the component state, with `GetMessage`, `Tick`, `UnlockTimestampChanged` and `Render`.
- `MessageStore` (`MessageStore.tsx`): the class `StoreForm` has `HandleDateChange` and `StoreMessage`.
  `Submit` issues the wallet and chain calls in order.
- `ClientContract`: lemmas that join the client and the contract.
- Support modules:
  - `CosmWasmStd`: `u64`, `Addr`, `Timestamp` in nanoseconds, `Env`, `MessageInfo`, `Response`, `StdError`.
  - `Json`: JSON values.
  - `JsNumber`: `Math.floor(x / d)`, `Number.prototype.toString`, `parseInt` and `JSON.stringify` for
    integral numbers and NaN.
  - `Wrappers`: Option and Result.

External collaborators become parameters:

- the chain's address check (`addr_validate`) is a predicate `addrValid: string -> bool`;
- the block time is an `Env`;
- the wall clock (`Date.now()`) is an integer `nowMs`;
- the value `new Date(value).getTime()` gives for the date input is a `Number` (an integer or NaN);
- the chain query's outcome is a `QueryAnswer`;
- the outcome of each wallet and signing-client call is a `WalletAnswers` record;
- the chain id and RPC endpoint are strings.

Three behaviours of the code worth knowing:

- The countdown lists every unit from the largest non-zero one down to seconds. It does not keep only
  the two largest.
- A query for an owner with no capsule fails with a storage `NotFound` error. The client treats that as
  a failed retrieval (error toast, `hasMessage` false), not as a separate "no capsule" outcome.
- The form only checks that the unlock-time field is non-empty. It does not require a positive time;
  a negative timestamp is refused later, by the contract's `u64` decoding.

## Model

| member | source | states |
|---|---|---|
| `Contract.StoreCapsule` | src/contract.rs:46-53 | The sender's key holds exactly `Capsule{owner: sender, message, unlock_time}`. The key set grows by at most the sender. Every other owner's entry is unchanged. |
| `Contract.TimeCapsule.ExecuteStoreMessage` | src/contract.rs:39-58 | Replaces the map by `StoreCapsule(old map, sender, message, unlock_time)` for any unlock time, past ones included. Keeps every capsule under its owner's address. Answers with attributes `action=store_message`, `owner=sender`. |
| `Contract.TimeCapsule.Execute` | src/contract.rs:25-37 | The single `StoreMessage` variant always dispatches to the store, with the same new state and response. |
| `Contract.TimeCapsule.Instantiate` | src/contract.rs:14-23 | Records the contract version `crates.io:time_capsule` with the package version. Stores no capsule. Answers with the attribute `method=instantiate`. |
| `Contract.QueryGetMessage` | src/contract.rs:69-89 | An invalid address gives `InvalidAddress`, and an address with no capsule gives `NotFound`. Otherwise the answer echoes the owner and `unlock_time`. `is_unlocked` holds iff block seconds >= `unlock_time`, with equality counting as unlocked. The stored text is returned when unlocked, the exact placeholder when locked. |
| `Contract.Query` | src/contract.rs:60-67 | Fails exactly when `GetMessage` fails, with the same error. On success it returns JSON that decodes back to the `GetMessage` answer. |
| `Contract.UnlockIsMonotone` | src/contract.rs:74 | An answer that is unlocked at one block time is the same answer at every later block time. |
| `Contract.LockedNeverLeaks` | src/contract.rs:76-81 | Before the unlock second, a successful answer is locked and carries only the placeholder. |
| `Contract.StoreOnlyAffectsSender` | src/contract.rs:53 | A store leaves every other owner's query answer unchanged. |
| `Contract.StoreOverwrites` | src/contract.rs:53 | A second store by the same sender fully replaces the first. |
| `Contract.StoresCommute` | src/contract.rs:53 | Stores by different senders can be reordered. |
| `Contract.StoreThenQuery` | src/contract.rs:39-89 | After a store, the sender's query returns the placeholder before the unlock second and the text from it on. |
| `Contract.StoreAndRetrieveScenario` | src/contract.rs:112-166 | The unit test's scenario: unlock one day ahead, locked now, readable 100000 seconds later. |
| `Contract.IntegrationScenario` | contract/src/integration_tests.rs:63-89 | The multi-contract test's scenario: unlock 100000 seconds ahead, locked now, readable after the block moves 150000 seconds on. |
| `State.OwnersMatchKeys` | contract/src/state.rs:14-15 | The storage invariant: every capsule is filed under its owner's address. `Contract.StoreKeepsOwnersMatchKeys` proves the store keeps it, `Contract.TimeCapsule.Valid` carries it, and `Contract.QueryAnswersOwnersCapsule` relies on it. |
| `Contract.StoreKeepsOwnersMatchKeys` | contract/src/state.rs:14-15 | Storing keeps each capsule under its owner's address, so one address holds at most one capsule. |
| `Contract.QueryAnswersOwnersCapsule` | contract/src/state.rs:7-12 | In well-formed storage, the capsule a query reads belongs to the queried owner. |
| `CosmWasmStd.Timestamp.Seconds` | src/contract.rs:74 | Block seconds are the whole seconds of the nanosecond time: s·10^9 <= nanos < (s+1)·10^9. |
| `CosmWasmStd.SecondsMonotone` | src/contract.rs:74 | Block seconds (nanoseconds / 10^9, rounded down) never decrease as block time grows. |
| `Msg.ExecuteMsgToJson` | src/msg.rs:9-16 | The externally tagged `{store_message:{message, unlock_time}}`. `Msg.ExecuteMsgRoundTrip` proves it decodes back to the message. |
| `Msg.QueryMsgToJson` | src/msg.rs:18-24 | The externally tagged `{get_message:{owner}}`. `Msg.QueryMsgRoundTrip` proves it decodes back to the query. |
| `Msg.MessageResponseToJson` | src/msg.rs:26-33 | The object with the four response fields. `Msg.MessageResponseRoundTrip` proves it decodes back to the answer. |
| `Msg.ParseInstantiateMsg` | src/msg.rs:4-7 | Accepts exactly the empty object `{}`: any field is unknown and refused. |
| `Msg.ParseExecuteMsg` | src/msg.rs:9-16 | A decoded execute message carries the tag `store_message`, and its text and `u64` come from that body. The body has no other field and no repeated one. |
| `Msg.ParseQueryMsg` | src/msg.rs:18-24 | A decoded query carries the tag `get_message` and its owner string. The body has no other field and no repeated one. |
| `Msg.ParseMessageResponse` | src/msg.rs:26-33 | A decoded answer carries the values of its fields message, owner, unlock_time and is_unlocked. It has no other field and no repeated one. |
| `Msg.ExecuteMsgRoundTrip` | src/msg.rs:9-16 | Decoding the serialised `StoreMessage` gives it back. |
| `Msg.QueryMsgRoundTrip` | src/msg.rs:18-24 | Decoding the serialised `GetMessage` gives it back. |
| `Msg.MessageResponseRoundTrip` | src/msg.rs:26-33 | Decoding the serialised `MessageResponse` gives it back. |
| `Msg.InstantiateMsgRoundTrip` | src/msg.rs:5-7 | The parameterless instantiate message is `{}` and decodes back. |
| `Msg.StoreMessageNeedsU64` | src/msg.rs:12-15 | A `store_message` whose `unlock_time` is not a number in `[0, 2^64)` is refused. |
| `MessageRetriever.Split` | frontend/src/components/MessageRetriever.tsx:109-112 | days·86400 + hours·3600 + minutes·60 + seconds equals the remaining time, with hours < 24 and minutes, seconds < 60. |
| `MessageRetriever.SplitUnique` | frontend/src/components/MessageRetriever.tsx:109-112 | The split is the only breakdown with those bounds. |
| `MessageRetriever.CalculateTimeRemaining` | frontend/src/components/MessageRetriever.tsx:101-107 | null iff the unlock timestamp is 0. Otherwise "Unlocked now" iff `unlockTimestamp - floor(nowMs/1000) <= 0`. For a positive remaining time the text is the countdown of its `Split`, so `Split`'s bounds and `FormatReadsBack` apply to it. |
| `MessageRetriever.Format` | frontend/src/components/MessageRetriever.tsx:114-122 | The four template literals. `MessageRetriever.FormatReadsBack` proves the text reads back as its duration with the units from the largest non-zero one down, and `MessageRetriever.FormatLeadsWithNonZero` that it never leads with a zero. |
| `MessageRetriever.FormatReadsBack` | frontend/src/components/MessageRetriever.tsx:114-122 | The countdown text reads back as exactly the duration. Its unit letters run from the largest non-zero unit down to seconds (`dhms`, `hms`, `ms` or `s`). |
| `MessageRetriever.FormatLeadsWithNonZero` | frontend/src/components/MessageRetriever.tsx:114-122 | For a positive duration the leading piece is never zero. |
| `MessageRetriever.CountdownMeaning` | frontend/src/components/MessageRetriever.tsx:101-123 | For positive remaining time, the result is a countdown (not "Unlocked now"). It reads back as exactly the remaining seconds and starts at a non-zero unit. |
| `MessageRetriever.GetMessageRequest` | frontend/src/components/MessageRetriever.tsx:49-53 | The query object. `ClientContract.GetMessageRequestIsQueryMsg` proves it is the contract's serialised `GetMessage(address)`. |
| `MessageRetriever.Retriever.constructor` | frontend/src/components/MessageRetriever.tsx:25-32 | The initial component state. |
| `MessageRetriever.Retriever.GetMessage` | frontend/src/components/MessageRetriever.tsx:35-99 | With no address: no query and no state change. Otherwise builds the query `{get_message:{owner}}`. A response replaces the text, the unlocked flag and the timestamp, and sets `hasMessage` and `expanded`. A throw or a falsy result sets `hasMessage` false and keeps those fields. Both loading flags end false. |
| `MessageRetriever.Retriever.CountdownRunning` | frontend/src/components/MessageRetriever.tsx:126 | The interval runs iff the unlock timestamp is non-zero and the capsule is locked. `MessageRetriever.Retriever.Tick`'s contract uses it as the condition for recomputing the countdown. |
| `MessageRetriever.Retriever.Tick` | frontend/src/components/MessageRetriever.tsx:125-133 | Only while the timestamp is non-zero and the capsule is locked, a tick recomputes `timeRemaining`. It never changes `isUnlocked`. |
| `MessageRetriever.Retriever.UnlockTimestampChanged` | frontend/src/components/MessageRetriever.tsx:135-139 | A non-zero new timestamp shows its countdown at once. |
| `MessageRetriever.Retriever.ToggleExpanded` | frontend/src/components/MessageRetriever.tsx:141 | Flips `expanded`. |
| `MessageRetriever.Retriever.Render` | frontend/src/components/MessageRetriever.tsx:143-273 | The stored text is rendered iff a capsule is present, expanded and unlocked. The countdown badge appears only while locked. It also gives the status and the retrieve and refresh buttons' enabled rule. |
| `JsNumber.FloorDiv` | frontend/src/components/MessageStore.tsx:26 | `Math.floor(x/d)` is the integer q with q·d <= x < q·d + d. NaN stays NaN. |
| `JsNumber.ToString` | frontend/src/components/MessageStore.tsx:27 | `Number.prototype.toString` of an integer or NaN: never empty, and only digits for a non-negative number. `JsNumber.ParseIntOfToString` proves `parseInt` reads it back, and `JsNumber.ToStringInjective` that distinct integers give distinct strings. |
| `JsNumber.ToStringInjective` | frontend/src/components/MessageStore.tsx:27 | Distinct integers never give the same string. |
| `JsNumber.ParseInt` | frontend/src/components/MessageStore.tsx:50 | `parseInt` with no radix: skip leading white space, an optional sign, the longest digit prefix, NaN when there is none. `JsNumber.ParseIntOfToString` and `JsNumber.ParseIntOfNaN` state what it gives on the strings the form holds. |
| `JsNumber.ParseIntOfNaN` | frontend/src/components/MessageStore.tsx:50 | `parseInt("NaN")` is NaN. |
| `JsNumber.ParseIntOfToString` | frontend/src/components/MessageStore.tsx:50 | `parseInt(String(t)) == t` for every integer timestamp. |
| `JsNumber.ToJson` | frontend/src/components/MessageStore.tsx:47-52 | `JSON.stringify` sends a finite number as itself and NaN as `null`. |
| `MessageStore.StoreForm.constructor` | frontend/src/components/MessageStore.tsx:20-21 | Both form fields start empty. |
| `MessageStore.StoreForm.SetMessage` | frontend/src/components/MessageStore.tsx:101 | The text area sets the message. |
| `MessageStore.StoreForm.HandleDateChange` | frontend/src/components/MessageStore.tsx:24-28 | The field becomes the decimal string of `floor(ms/1000)`, and `parseInt` reads it back as that number. An invalid date gives "NaN". |
| `MessageStore.StoreForm.HandleDateChangeChecked` | frontend/src/components/MessageStore.tsx:24-28 | The corrected handler: an invalid date leaves the field empty. Any non-empty field is a number `parseInt` reads. |
| `MessageStore.Submit` | frontend/src/components/MessageStore.tsx:54-74 | Issues the wallet check, then `enable`, `getOfflineSigner`, signing-client connection and `execute`, in order. It stops at the first throw and returns that failure. A missing wallet fails before any call. |
| `MessageStore.StoreForm.StoreMessage` | frontend/src/components/MessageStore.tsx:30-87 | Checks, in order: no address, empty message, empty unlock time. Each rejects with its alert and no call or state change. Past them, it executes `{store_message:{message, unlock_time: parseInt(unlockTime)}}` from the address with fee "auto", the memo and no funds. Success clears both fields. Failure keeps them and alerts the reason. The success alert is shown iff no call threw. `isLoading` ends false. |
| `MessageStore.AlertsDistinct` | frontend/src/components/MessageStore.tsx:77-83 | The failure alert can never read as the success alert. |
| `MessageStore.StorePayload` | frontend/src/components/MessageStore.tsx:47-52 | The object `{store_message:{message, unlock_time: parseInt(unlockTime)}}`. `ClientContract.StorePayloadIsExecuteMsg`, `ClientContract.NegativeTimestampRefused` and `ClientContract.ClearedDateReachesChain` state how the contract decodes it. |
| `ClientContract.StorePayloadIsExecuteMsg` | frontend/src/components/MessageStore.tsx:47-52 | For a timestamp in `u64` range, the form's request is exactly the serialised `StoreMessage(message, t)` and decodes to it. |
| `ClientContract.NegativeTimestampRefused` | src/msg.rs:14 | A timestamp before 1970 reaches the contract as a negative number, and the contract refuses it. |
| `ClientContract.GetMessageRequestIsQueryMsg` | frontend/src/components/MessageRetriever.tsx:49-53 | The retriever's query is exactly the serialised `GetMessage(address)` and decodes to it. |
| `ClientContract.ClientAnswer` | frontend/src/components/MessageRetriever.tsx:62-71 | A contract error throws, and a falsy result is reported as such. Anything read as a response is the decoding of the returned JSON. |
| `ClientContract.ContractAnswerReachesClient` | frontend/src/components/MessageRetriever.tsx:62-76 | The retriever receives exactly the contract's `GetMessage` answer, or a throw when the contract fails. |
| `ClientContract.StoreThenRetrieve` | frontend/src/components/MessageStore.tsx:47-74 | A form submission is executed as `StoreMessage(message, t)` for its address. A later query delivers the placeholder before second t and the text from then on. |
| `ClientContract.RetrieveLocked` | frontend/src/components/MessageRetriever.tsx:253-266 | Retrieving a capsule that is still locked stores only the placeholder, and the rendered body is never message text. |
| `ClientContract.ClearedDateReachesChain` | frontend/src/components/MessageStore.tsx:24-42 | An invalid date makes the field "NaN". That passes the empty-field check, is sent as `null`, and is refused by the contract. |
| `ClientContract.CheckedDateNeverSendsNull` | frontend/src/components/MessageStore.tsx:39-50 | With the corrected handler, a field that passes the checks and lies in `u64` range reaches the contract as `StoreMessage(message, t)`. |

## Findings

| source | as written | input that shows it | evidently intended | confidence | as-written member | corrected member |
|---|---|---|---|---|---|---|
| frontend/src/components/MessageStore.tsx:24-28 | `Math.floor(new Date(value).getTime() / 1000).toString()` turns an empty or incomplete date input into the string "NaN", and "NaN" passes the `!unlockTime` check at line 39 | the user clears the date input (its value becomes ""), types a message and presses Store: the wallet's `enable` and the signing client's `execute` are called, `unlock_time` is sent as `null`, and the chain refuses the message | a missing unlock time is stopped by "Please set an unlock time" before any wallet call | medium, not executed | `ClientContract.ClearedDateReachesChain` | `MessageStore.StoreForm.HandleDateChangeChecked` with `ClientContract.CheckedDateNeverSendsNull` |

## Left out

- Storage write failures (`CAPSULES.save`, `set_contract_version`) are not modelled, so `Instantiate` and `Execute` always succeed. The contract never produces `ContractError`'s own variants (`Unauthorized`, `MessageLocked`, `NoMessageFound`).
- `addr_validate` is an abstract predicate. Address canonicalisation and bech32 rules are not modelled. A valid address is taken to be returned unchanged.
- The contract-version record is a field. Its storage layout under cw2's key is not modelled. `CONTRACT_VERSION` comes from the build, so it is a parameter.
- The block height, the chain id and the attached funds are not read by the contract and are not modelled beyond `MessageInfo.funds`.
- `Response` has no sub-messages or events, because no entry point emits any.
- JSON is modelled as values. The text layer (`JSON.stringify` and `JSON.parse` on the client, serde-json on the contract) is taken to round-trip. JSON arrays are not modelled, and neither is serde's acceptance of a struct written as an array.
- JsNumber.ParseInt: only space, tab, line feed and carriage return are skipped as leading white space (`IsLeadingSpace`). The other characters JavaScript counts as white space or line terminators (vertical tab, form feed, no-break space, the Unicode space separators, line and paragraph separators, the byte order mark) are not, because the strings it reads come from `toString` of a number. The `0x` hexadecimal prefix is not modelled, because the strings it reads come from `toString` of an integer. `toString`'s exponent form for magnitudes of 10^21 and above is not modelled either, because date timestamps stay far below that.
- JavaScript numbers lose precision above 2^53. The model treats them as exact integers, so an `unlock_time` above 2^53 would be shown differently by the real client.
- MessageRetriever.Retriever.GetMessage: the `unlockDate` field (`toLocaleString`) and the dates formatted with date-fns are not modelled. They are timezone-dependent display text, and no rule reads them. The error toast's description (the thrown error's text) is not carried.
- MessageRetriever.Retriever.GetMessage: `QueryThrew` stands both for a query the contract refused and for `NibiruQuerier.connect` throwing before any query left the client. The `request` out-parameter is the query the client built; the model does not say whether it was sent.
- MessageRetriever.QueryAnswer: a truthy result that lacks the response fields is not modelled. JavaScript would set the state to `undefined`; the contract never returns such a value (`ClientContract.ContractAnswerReachesClient`).
- React scheduling is not modelled: asynchronous interleaving of clicks while a call is pending, the `setInterval` timing, interval cleanup on unmount, and the moment effects run. `Tick` and `UnlockTimestampChanged` are the effects' bodies, called by the environment.
- The network clients (`NibiruQuerier.connect`, `NibiruTxClient.connectWithSigner`), the `Testnet(2)` configuration and the transaction hash are oracles or parameters. The console logs and the text of `alert` dialogs beyond their message are not modelled.
- `WalletConnect.tsx`, `App.tsx`, the pages and the decorative components are not part of this model: they are wallet-extension calls, routing and animation. `helpers.rs` wraps serialisation. `integration_tests.rs` asserts nothing beyond the calls' success; its store-then-advance scenario is `Contract.IntegrationScenario`, and `Contract.StoreThenQuery` covers every such scenario.
