# SBT tutorial dApp: verified model of its local logic

This project models the local logic of a soulbound-token (SBT) tutorial dApp.
The app consists of an API adapter around a deployed contract, a React front
end, and the witness that gives the contract runtime the user's secret key.
Proofs, transactions and the ledger live on an external blockchain platform.
What remains locally, and what is modelled here:

- **The derived-state combiner** (`SbtApi.CombineStates`). It runs on every
  ledger snapshot. It derives the user's public key from the secret key,
  files one `SbtToken` record per ledger token, normalises each token's
  metadata to text, and collects the ids the user owns. A token whose
  metadata conversion throws is skipped. The ledger's token
  counter and clock pass through unchanged.
- **Call-result unwrapping** for `mint` and `getMyTokens`: what each returns,
  given the data the finalized call resolved with.
- **The deployment context**: every `resolve` emits `in-progress` and then
  `complete` (with the handle) or `failed` (with an error text). The model
  keeps the emitted events in a `DeploymentSubject` and proves that start and
  settling events alternate.
- **The token-list component**: its state hooks as fields of
  `SbtTokenListState`, with one method per handler and effect:
  - how it reacts to deployment events;
  - the mint, update and revoke handlers and their input guards;
  - the dialog handlers;
  - which tokens it lists;
  - how it shortens the contract address.
- **The private state and its witness** (`Witnesses`).

Platform functions are parameters of the model, not reimplementations:
`pureCircuits.public_key`, `toHex` and the text `JSON.stringify` produces.
That `JSON.stringify` throws on a bigint is modelled, because the combiner
then skips the token. The outcome of a
remote call (deploy, mint, revoke) is an input `Outcome<T>`: it either
returns a value or throws. Token ids, timestamps and counters are JavaScript
`bigint`s, so they are unbounded `int`s here.

Files: `js_runtime.dfy` (optional values, bytes, thrown values, `substring`),
`common_types.dfy`, `witnesses.dfy`, `sbt_api.dfy`,
`deployed_sbt_context.dfy`, `sbt_token_list.dfy`.

## Model

| member | source | states |
|---|---|---|
| `CommonTypes.CoherentMineAreKnown` | examples/bboard-tutorial/api/src/common-types.ts:15-55 | In a coherent derived state an id is among the user's tokens exactly when it has a record marked as owned, so the user's ids are all known token ids. |
| `Witnesses.CreateSbtPrivateState` | examples/bboard-tutorial/contract/src/witnesses.ts:21-23 | The private state built from a key holds that key. |
| `Witnesses.LocalSecretKey` | examples/bboard-tutorial/contract/src/witnesses.ts:52-57 | The witness returns the private state unchanged and, second, that state's secret key. |
| `Witnesses.WitnessReturnsCreatedKey` | examples/bboard-tutorial/contract/src/witnesses.ts:21-56 | On a private state created from key `k`, the witness returns `k` and leaves the state equal to `{secretKey: k}`, whatever the ledger and address. |
| `Witnesses.WitnessIsStable` | examples/bboard-tutorial/contract/src/witnesses.ts:53-56 | Feeding the witness's returned state back in yields the same key again. |
| `SbtApi.NormalizeMetadata` | examples/bboard-tutorial/api/src/index.ts:108-118 | String metadata is kept as is. An object (or array) with a string `value` yields that value. Any other object yields its JSON text, unless a bigint is reachable from it: then the JSON conversion throws, and that is the only way normalisation fails. Anything else (absent, null, number, boolean, bigint) yields `''`. |
| `SbtApi.NormalizeRecoversWrappedText` | examples/bboard-tutorial/api/src/index.ts:109-114 | A string comes back unchanged whether it is stored bare or as the `value` of an object or array, whatever other fields that holds, bigints included. |
| `SbtApi.CombineStates` | examples/bboard-tutorial/api/src/index.ts:87-152 | The derived `tokens` map has as keys exactly the ids of the ledger tokens whose metadata normalises without throwing. Each such record carries its own id, the hex of the ledger owner, the normalised metadata and the unchanged `issuedAt`. `isOwner` is true exactly when the owner's hex equals the hex of `public_key(secretKey)`. A token whose metadata conversion throws is caught and skipped: it is in neither `tokens` nor `myTokens`. `myTokens` is exactly the set of owned ids, so it is a subset of the keys. A missing or non-iterable `tokens` gives an empty map and set. `tokenCounter` and `currentTime` pass through. |
| `SbtApi.WithoutBigIntEveryTokenIsFiled` | examples/bboard-tutorial/api/src/index.ts:103-136 | When no token's metadata holds a bigint, every ledger token gets a record. |
| `SbtApi.FiledIdsAreLedgerIds` | examples/bboard-tutorial/api/src/index.ts:103-136 | Every filed id is a ledger id. A ledger token is left without a record exactly when its metadata is an object without a string `value` that holds a bigint. |
| `SbtApi.MintedTokenId` | examples/bboard-tutorial/api/src/index.ts:235-241 | `mint` returns the first private result when the private part holds a non-empty result list, and `0` otherwise (no private part, no result, an empty list, or a result without a length). |
| `SbtApi.MyTokensResult` | examples/bboard-tutorial/api/src/index.ts:347-362 | `getMyTokens` returns the first private result when there is one. Otherwise it returns the first public output's `value`, or `undefined` when `outputs` is missing. It throws exactly when there is no private result and `outputs` is an empty list. |
| `SbtApi.PrivateResultTakesPrecedence` | examples/bboard-tutorial/api/src/index.ts:235-362 | With a private result, `getMyTokens` returns the same value `mint` would, and replacing the public outputs changes nothing. |
| `DeployedSbtContext.ResolveEvents` | examples/bboard-tutorial/bboard-ui/src/contexts/DeployedSbtContext.tsx:32-46 | A `resolve` emits exactly two events. The first is `{status: 'in-progress'}`. The second is `complete` exactly when deploy returned: it carries the api and no error. Otherwise it is `failed`, with no api and an error whose message is the `Error`'s message or `String(value)`. |
| `DeployedSbtContext.ResolveKeepsAlternation` | examples/bboard-tutorial/bboard-ui/src/contexts/DeployedSbtContext.tsx:34-43 | Appending one `resolve`'s events to an alternating stream (start, settle, start, settle, ...) keeps it alternating. |
| `DeployedSbtContext.EveryStartSettles` | examples/bboard-tutorial/bboard-ui/src/contexts/DeployedSbtContext.tsx:36-41 | In an alternating stream every `in-progress` event is followed at once by a `complete` event with an api or a `failed` event with an error. |
| `DeployedSbtContext.DeploymentSubject.constructor` | examples/bboard-tutorial/bboard-ui/src/contexts/DeployedSbtContext.tsx:30 | A new subject has emitted nothing. |
| `DeployedSbtContext.DeploymentSubject.Resolve` | examples/bboard-tutorial/bboard-ui/src/contexts/DeployedSbtContext.tsx:32-46 | A `resolve` run to its end appends exactly its two events to what was emitted, and the stream stays alternating. |
| `SbtTokenList.FailureMessage` | examples/bboard-tutorial/bboard-ui/src/components/SbtTokenList.tsx:152-156 | The error text of a failed deployment is never empty. It is the error's message when that is non-empty, and the fixed default text otherwise. |
| `SbtTokenList.FailedDeploymentMessage` | examples/bboard-tutorial/bboard-ui/src/components/SbtTokenList.tsx:152-156 | A deployment whose deploy threw ends in a `failed` event. The component shows the thrown value's text for it, or the default text when that text is empty. |
| `JsRuntime.ErrorText` | examples/bboard-tutorial/bboard-ui/src/contexts/DeployedSbtContext.tsx:40 | The text a `catch` block shows: an `Error`'s `message`, or `String(value)` of any other thrown value. |
| `SbtTokenList.ListedIds` | examples/bboard-tutorial/bboard-ui/src/components/SbtTokenList.tsx:266-270 | The list renders exactly the ids that are in `myTokens` and have a record in `tokens`. An id without a record is skipped and the others are still rendered. When every id in `myTokens` has a record, it renders all of them. |
| `SbtTokenList.ShowsEmptyNotice` | examples/bboard-tutorial/bboard-ui/src/components/SbtTokenList.tsx:266-323 | The "no tokens yet" notice appears when `myTokens` is empty, and then no token is listed. |
| `SbtTokenList.ListedAreExactlyOwned` | examples/bboard-tutorial/bboard-ui/src/components/SbtTokenList.tsx:264-318 | The list shows only ids in `myTokens` that have a record in `tokens`. On a coherent derived state these are exactly the owned tokens, and each of them offers the edit and revoke actions. |
| `SbtTokenList.EmptyNoticeIffNothingListed` | examples/bboard-tutorial/bboard-ui/src/components/SbtTokenList.tsx:266-324 | On a coherent derived state the "no tokens yet" notice appears exactly when no token is listed. |
| `SbtTokenList.ShortAddress` | examples/bboard-tutorial/bboard-ui/src/components/SbtTokenList.tsx:390-398 | A missing or empty address has no short form. Otherwise the short form is the first min(8, len) characters, then `...`, then the last min(8, len) characters, with length 2·min(8, len)+3. |
| `SbtTokenList.ShortAddressOfShortAddress` | examples/bboard-tutorial/bboard-ui/src/components/SbtTokenList.tsx:393-396 | An address of one to eight characters appears whole on both sides of the ellipsis. |
| `SbtTokenList.HeaderCaption` | examples/bboard-tutorial/bboard-ui/src/components/SbtTokenList.tsx:241 | With a handle whose address is non-empty, the header shows the address's short form. With no handle or an empty address it shows the loading text. |
| `SbtTokenList.CaptionLoadingIffNoAddress` | examples/bboard-tutorial/bboard-ui/src/components/SbtTokenList.tsx:241 | The header shows the loading text exactly when there is no api handle or its address is empty. A short address never reads as the loading text. |
| `SbtTokenList.SbtTokenListState.constructor` | examples/bboard-tutorial/bboard-ui/src/components/SbtTokenList.tsx:46-56 | Initial state: nothing deployed, no error, both dialogs closed, no selection, empty metadata. The component is working exactly when it was given a deployment stream. |
| `SbtTokenList.SbtTokenListState.OnDeployment` | examples/bboard-tutorial/bboard-ui/src/components/SbtTokenList.tsx:129-167 | Each event is stored. An `in-progress` event leaves the rest of the state unchanged. A `failed` event clears `isWorking` and sets the error text. A `complete` event clears `isWorking` and stores the event's api. Dialogs, selection and metadata never change. |
| `SbtTokenList.SbtTokenListState.OnStateUpdate` | examples/bboard-tutorial/bboard-ui/src/components/SbtTokenList.tsx:160-165 | A derived state delivered by the handle's state stream becomes the component's `sbtState`. |
| `SbtTokenList.SbtTokenListState.OnMintToken` | examples/bboard-tutorial/bboard-ui/src/components/SbtTokenList.tsx:66-83 | With empty metadata nothing changes. Otherwise `isWorking` ends false. With a handle, a successful mint closes the dialog and clears the metadata, and a failed mint sets the error text. Without a handle nothing else changes. |
| `SbtTokenList.SbtTokenListState.OnUpdateToken` | examples/bboard-tutorial/bboard-ui/src/components/SbtTokenList.tsx:86-105 | With empty metadata or a falsy selected id (null or `0n`) nothing changes. Otherwise `isWorking` ends false, and with a handle the dialog closes and the metadata and selection are cleared. No contract call is made and the error text is kept. |
| `SbtTokenList.SbtTokenListState.OnRevokeToken` | examples/bboard-tutorial/bboard-ui/src/components/SbtTokenList.tsx:108-119 | `isWorking` ends false. With a handle, a failed revoke sets the error text. Dialogs, selection and metadata never change. |
| `SbtTokenList.SbtTokenListState.OpenMintDialog` | examples/bboard-tutorial/bboard-ui/src/components/SbtTokenList.tsx:170-173 | Opening the mint dialog clears the metadata. |
| `SbtTokenList.SbtTokenListState.OpenUpdateDialog` | examples/bboard-tutorial/bboard-ui/src/components/SbtTokenList.tsx:176-180 | Opening the update dialog selects the given id and loads the given metadata. |
| `SbtTokenList.SbtTokenListState.EditMetadata` | examples/bboard-tutorial/bboard-ui/src/components/SbtTokenList.tsx:346 | Typing replaces the metadata. |
| `SbtTokenList.SbtTokenListState.CloseMintDialog` | examples/bboard-tutorial/bboard-ui/src/components/SbtTokenList.tsx:330 | Cancelling closes the mint dialog and keeps everything else. |
| `SbtTokenList.SbtTokenListState.CloseUpdateDialog` | examples/bboard-tutorial/bboard-ui/src/components/SbtTokenList.tsx:358 | Cancelling closes the update dialog and keeps the selection, so an open update dialog always names a token. |
| `SbtTokenList.ReceiveResolve` | examples/bboard-tutorial/bboard-ui/src/components/SbtTokenList.tsx:129-167 | Once the component has received both events of one `resolve`, it holds the settling event and is no longer working. It holds the api of a successful deployment, or the error text of a failed one; the other of the two is kept. The derived state, the metadata, the selection and both dialogs are unchanged. |

`SbtTokenListState.Valid()` is kept by every method. It says two things:
an open update dialog always has a selected id, and the working indicator is
never up once the last deployment event has settled.

Where the code and its declared types differ, the model follows the code.
The `SbtDerivedState` interface declares only `tokens` and `myTokens`, but the
combiner also returns `tokenCounter` and `currentTime`, and the model keeps
them.

## Left out

- Remote and SDK calls are not modelled; their outcomes are inputs. This covers `deployContract`, `findDeployedContract`, `callTx.*`, the indexer, and the proof, wallet and private-state providers.
- `updateMetadata`, `revoke` and `verifyOwnership` in the API adapter are not modelled. They forward to a remote circuit call and log; `verifyOwnership`'s cast of the first public output is not modelled either.
- `getPrivateState` is not modelled: it draws random bytes and reads and writes private-state storage.
- The rxjs wiring is not modelled: `combineLatest`, `from`, subscribing and unsubscribing. Only the functions the streams call are modelled.
- Logging is not modelled, including `jsonStringifyWithBigInt` and the pino logger. It has no effect on behaviour.
- `public_key` and `toHex` are parameters and are taken never to throw. If `toHex` threw, the token in hand would be skipped like one whose metadata conversion throws. If `public_key` threw, the whole combiner would throw, since it is called outside the per-token `try`. `JSON.stringify`'s text is a parameter; its `TypeError` on a bigint is modelled. `String(value)` of a thrown non-`Error` is carried with the thrown value. `ledger()` decoding is replaced by the `LedgerState` input.
- SbtApi.CombineStates: of the throws the per-token `try/catch` can catch, only the bigint `TypeError` of `JSON.stringify` is modelled, as a skipped token. Other `JSON.stringify` failures (a cycle, a throwing `toJSON`) are not.
- SbtApi.CombineStates: the ledger's tokens are an ordered entry list with distinct ids, because a map's iterator yields each key once. The resulting `Map` and `Set` are a Dafny `map` and `set`, so their insertion order, and with it the order of the rendered list, is not modelled.
- SbtApi.MintedTokenId: `BigInt(...)` of a result element is not modelled. Results are taken to be integers already, so the error `BigInt` raises on a non-integer is not modelled.
- SbtApi.MyTokensResult: `BigInt(...)` of the first private result is not modelled either. Results are taken to be integers already, so the error `BigInt` raises on a non-integer is not modelled.
- SbtApi.MyTokensResult: the thrown `TypeError` carries V8's message text. The `as bigint` cast does not check the value's type at run time, and the model keeps the value as it is.
- DeployedSbtContext.DeploymentSubject.Resolve: each `resolve` runs to its end before the next one starts. Overlapping calls, whose events can interleave on the stream, are not modelled. The `contractAddress` argument only reaches `deploy`, whose outcome is an input.
- SbtTokenList.SbtTokenListState.OnMintToken: only the state after the awaited call is stated. The transient `isWorking = true` while the call is pending is not, and neither are handlers that overlap.
- SbtTokenList.SbtTokenListState.OnRevokeToken: only the state after the awaited call is stated, as for minting.
- SbtTokenList.SbtTokenListState.OnDeployment: the subscription to the handle's state stream, and its cleanup, are not modelled. What it delivers is `OnStateUpdate`.
- `App.tsx` renders the token list without a deployment stream, and the deployment context's `SbtSubject` renders nothing. So as the app is wired, the list never receives deployment events. The model covers the component as written for a caller that passes it a stream.
- React rendering, JSX, MUI layout, the clipboard copy, `onCreateSbt` / `onJoinSbt` (they only call `resolve`), `main.tsx`, `App.tsx` and the provider-context null check are not modelled.
- SbtTokenList.ShortAddress: a Dafny string is a sequence of Unicode scalar values, while `substring` and `length` count UTF-16 code units. The two agree on the hex addresses the component receives, but would differ on text outside the Basic Multilingual Plane.
- SbtTokenList.ShortAddress: the result is the text of the `<span>` element. The element and its `title` attribute are not modelled.
- The ledger's `ownerTokens` field is not modelled: the adapter only logs it.
