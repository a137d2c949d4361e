# Explorer transaction flows — a Dafny model

This project models the decision logic inside the explorer and pool-management
views of a web front-end for an on-chain gambling protocol, and the play hook
of its React package. The on-chain program, its SDK, the wallet adapter and the
RPC client stay outside the model. The SDK's calls (`getPoolAddress`,
`createPool`, `depositToPool`, `mintBonusTokens`, `wrapSol`, `play`,
`isNativeMint`, `NATIVE_MINT`) are the fields of one record, `Common.Sdk`. Each
field is an uninterpreted total function, and each instruction is an opaque
value. What a view does to the outside world goes into an ordered log,
`Common.World.log`. The log records sends, cache invalidations, navigation,
toasts, logged errors, loading-flag changes and event fetches.

- `TokenList` (create-pool view) covers two things:
  - the merge of wallet tokens with the token registry (`matchedTokens`);
  - the four-key comparator (native mint, standard token list, balance
    descending, base58 mint ascending) and the in-place `tokens.sort`, modelled
    as an insertion sort over an array.

  Read as "may stand before", the comparator is a total preorder. The sort is
  proved to produce that order and a permutation of its input. The view renders
  `matchedTokens`, which maps over the same array that the sort reorders in
  place. The sorted result itself is not rendered.
- `CreatePool` (create-pool view) covers the pool authority (the wallet for a
  private pool, the system program for a public one), the derived pool address,
  the Create button and the create action. The action sends a batch with the
  400000-unit compute-budget directive first.
- `Dashboard` covers `timeAgo` on the millisecond difference, the `results`
  filter, the `load` action and the one-shot mount effect.
- `PoolFunding` holds what the deposit and bonus-mint flows share:
  - the `??` decimals fallback;
  - the wrap prefix, which is sent only for the native mint and asks for the
    wSOL account to be created exactly when none exists.
- `PoolDeposit` covers the decimals, the LP amount and the Deposit button. It
  also covers the deposit action, which keeps its loading flag raised around
  the send and lowers it on both paths. The LP amount uses BigInt division,
  which truncates toward zero and throws on a zero divisor.
- `PoolMintBonus` covers the bonus-mint action. Its native branch sends and
  returns, with no cache invalidation and no toast.
- `GambaPlay` (play hook) covers request normalisation (the defaults, metadata
  joined with `:`, the pool derived from the normalised token) and the
  NOT_CONNECTED guard that runs before anything is sent. It also covers
  `isPlaying`, `userCreated` and the previous-nonce default.
- `Text` holds the JavaScript string behaviour the views rely on: decimal
  rendering of safe integers, `join(':')` and `<` on strings. It also defines
  `split(':')`, which no view calls. `split` is there only to state that the
  joined metadata can be taken apart again.

## Model

| member | source | states |
|---|---|---|
| `TokenList.FindByMint` | apps/explorer/src/views/CreatePool/CreatePoolView.tsx:46 | returns None exactly when no registry entry has the mint; otherwise returns the first entry with that mint |
| `TokenList.Enrich` | apps/explorer/src/views/CreatePool/CreatePoolView.tsx:47-51 | an enriched token keeps the wallet token's mint, amount and decimals |
| `TokenList.EnrichNameAndLogo` | apps/explorer/src/views/CreatePool/CreatePoolView.tsx:49-50 | the name and logo come from the first registry match when non-empty; otherwise they are the token's own |
| `TokenList.EnrichUnmatched` | apps/explorer/src/views/CreatePool/CreatePoolView.tsx:46-51 | a token with no registry match is left unchanged |
| `TokenList.MatchTokens` | apps/explorer/src/views/CreatePool/CreatePoolView.tsx:44-53 | the merged list is no longer than the wallet list, and every entry in it has a non-empty name |
| `TokenList.MatchTokensAppend` | apps/explorer/src/views/CreatePool/CreatePoolView.tsx:45-52 | the merge is order-preserving: it commutes with concatenation |
| `TokenList.MatchTokensOne` | apps/explorer/src/views/CreatePool/CreatePoolView.tsx:52 | a token is kept exactly when its resolved name is non-empty; it is dropped exactly when both its own name and the registry name are empty |
| `TokenList.MatchTokensIdempotent` | apps/explorer/src/views/CreatePool/CreatePoolView.tsx:44-53 | merging an already merged list changes nothing |
| `TokenList.Compare` | apps/explorer/src/views/CreatePool/CreatePoolView.tsx:62-72 | the comparator never returns 0 |
| `TokenList.NativeFirst` | apps/explorer/src/views/CreatePool/CreatePoolView.tsx:63-64 | a native-mint token compares before any non-native token, in both argument orders |
| `TokenList.KnownFirst` | apps/explorer/src/views/CreatePool/CreatePoolView.tsx:65-68 | with equal native status, a standard-list token compares before one that is not on the list |
| `TokenList.LargerBalanceFirst` | apps/explorer/src/views/CreatePool/CreatePoolView.tsx:69-70 | with native and known status tied, the larger balance compares first |
| `TokenList.SmallerMintFirst` | apps/explorer/src/views/CreatePool/CreatePoolView.tsx:71 | with the balance also tied, the smaller base58 mint string gets -1 and the other order gets 1 |
| `TokenList.CompareAntisymmetric` | apps/explorer/src/views/CreatePool/CreatePoolView.tsx:63-71 | for distinct mints, `compare(a, b) < 0` exactly when `compare(b, a) > 0` |
| `TokenList.CompareSameMint` | apps/explorer/src/views/CreatePool/CreatePoolView.tsx:71 | for equal mints and balances, both orders give -1 |
| `TokenList.BeforeTotal` | apps/explorer/src/views/CreatePool/CreatePoolView.tsx:62-72 | of any two tokens, at least one may stand before the other |
| `TokenList.BeforeTransitive` | apps/explorer/src/views/CreatePool/CreatePoolView.tsx:62-72 | "may stand before" is transitive |
| `TokenList.SortedNativeFirst` | apps/explorer/src/views/CreatePool/CreatePoolView.tsx:59-75 | in a sorted list, every native-mint token precedes every non-native token |
| `TokenList.SortedKnownFirst` | apps/explorer/src/views/CreatePool/CreatePoolView.tsx:59-75 | in a sorted list, among tokens of equal native status, standard-list tokens come first |
| `TokenList.SortTokens` | apps/explorer/src/views/CreatePool/CreatePoolView.tsx:59-75 | sorting in place leaves the array in comparator order and a permutation of its old contents |
| `TokenList.SwapStep` | apps/explorer/src/views/CreatePool/CreatePoolView.tsx:59-75 | exchanging a pair the comparator puts the other way round keeps the prefix in order except at the one pair that is still to be checked |
| `TokenList.InsertAt` | apps/explorer/src/views/CreatePool/CreatePoolView.tsx:59-75 | one pass leaves the first i + 1 elements in comparator order, leaves the rest of the array unchanged and permutes the array |
| `Text.StrLessTotal` | apps/explorer/src/views/CreatePool/CreatePoolView.tsx:71 | two different mint strings are always ordered one way or the other |
| `Text.StrLessTransitive` | apps/explorer/src/views/CreatePool/CreatePoolView.tsx:71 | string `<` is transitive |
| `Text.StrLess` | apps/explorer/src/views/CreatePool/CreatePoolView.tsx:71 | no string is below the empty string, and the empty string is below exactly the non-empty ones |
| `Text.StrLessProperPrefix` | apps/explorer/src/views/CreatePool/CreatePoolView.tsx:71 | a proper prefix compares below the longer string |
| `CreatePool.Authority` | apps/explorer/src/views/CreatePool/CreatePoolView.tsx:28 | the authority is the wallet for a private pool and the system program for a public one |
| `CreatePool.SelectedPoolId` | apps/explorer/src/views/CreatePool/CreatePoolView.tsx:29 | there is a pool id exactly when a token is selected, and it is `getPoolAddress(mint, authority)` |
| `CreatePool.PoolIdAuthority` | apps/explorer/src/views/CreatePool/CreatePoolView.tsx:28-29 | a public pool's id does not depend on the wallet; a private pool's id is derived with the wallet as authority |
| `CreatePool.CreatePoolBatch` | apps/explorer/src/views/CreatePool/CreatePoolView.tsx:83-90 | the batch is the 400000-unit compute limit followed by the SDK's create-pool instructions in order |
| `CreatePool.CreateDisabledAsWritten` | apps/explorer/src/views/CreatePool/CreatePoolView.tsx:152 | the as-written `disabled` expression throws exactly when a token is selected, the lookup has settled and the program state is absent |
| `CreatePool.CreateDisabledAsWrittenThrows` | apps/explorer/src/views/CreatePool/CreatePoolView.tsx:152 | concrete case: selected, not loading, no state gives a TypeError |
| `CreatePool.CreateDisabled` | apps/explorer/src/views/CreatePool/CreatePoolView.tsx:152 | with optional chaining, an absent program state disables the button; an enabled button means a token is selected, the lookup has settled and no pool exists |
| `CreatePool.CreateDisabledCases` | apps/explorer/src/views/CreatePool/CreatePoolView.tsx:152 | the button is enabled exactly when a token is selected, the lookup has settled, creation is allowed and no pool exists; the corrected value agrees with the as-written one wherever that one does not throw |
| `CreatePool.CreatePoolView.constructor` | apps/explorer/src/views/CreatePool/CreatePoolView.tsx:24-27 | no token is selected and the pool is public |
| `CreatePool.CreatePoolView.SelectToken` | apps/explorer/src/views/CreatePool/CreatePoolView.tsx:127 | selecting a token replaces the selection and keeps the private flag |
| `CreatePool.CreatePoolView.SetPrivate` | apps/explorer/src/views/CreatePool/CreatePoolView.tsx:144 | the switch sets the private flag and keeps the selection |
| `CreatePool.CreatePoolView.CreatePool` | apps/explorer/src/views/CreatePool/CreatePoolView.tsx:77-101 | with no selection nothing happens; a failed slot fetch is logged; otherwise the compute-limit batch is sent, then navigation to `/pool/<id>` on success or a logged error on failure |
| `Dashboard.MinutesOfMillis` | apps/explorer/src/Dashboard.tsx:11-12 | flooring to seconds and then to minutes equals flooring by 60000 |
| `Dashboard.HoursOfMillis` | apps/explorer/src/Dashboard.tsx:12-13 | flooring minutes to hours equals flooring milliseconds by 3600000 |
| `Dashboard.Bucket` | apps/explorer/src/Dashboard.tsx:10-20 | hours exactly when diff >= 3600000, with h = diff / 3600000; minutes exactly when 60000 <= diff < 3600000, with 1 <= m < 60; "Just now" exactly when diff < 60000, negative differences included |
| `Dashboard.Render` | apps/explorer/src/Dashboard.tsx:14-20 | an hours or minutes label is the decimal count followed by `h ago` or `m ago`; the label is `Just now` exactly for that bucket |
| `Dashboard.TimeAgo` | apps/explorer/src/Dashboard.tsx:9-21 | the label is `<h>h ago`, `<m>m ago` or `Just now`, with the counts of `Bucket`; it is "Just now" exactly when diff < 60000 |
| `Dashboard.TimeAgoRoundTrip` | apps/explorer/src/Dashboard.tsx:14-20 | parsing a label gives back its bucket and count, so distinct buckets never share a label |
| `Dashboard.Results` | apps/explorer/src/Dashboard.tsx:37-40 | a transaction is in the results exactly when it was fetched and carries a game result |
| `Dashboard.ResultsAppend` | apps/explorer/src/Dashboard.tsx:38 | the filter keeps the original order: it commutes with concatenation |
| `Dashboard.ResultsGrow` | apps/explorer/src/Dashboard.tsx:37-40 | appending fetched transactions only extends the results |
| `Dashboard.RecentPlays.constructor` | apps/explorer/src/Dashboard.tsx:24-26 | the component starts not loading, with the initial-fetch flag down |
| `Dashboard.RecentPlays.Load` | apps/explorer/src/Dashboard.tsx:28-35 | loading is raised, 40 signatures are fetched and loading is lowered, whether the fetch succeeds or throws |
| `Dashboard.RecentPlays.MountEffect` | apps/explorer/src/Dashboard.tsx:42-49 | the first run raises the one-shot flag and performs one load: the loading flag ends lowered and a fetched page is appended; later runs change nothing, so at most one initial load ever starts |
| `Dashboard.EffectRunsTwice` | apps/explorer/src/Dashboard.tsx:42-49 | running the mount effect twice on a new table starts one load only: one fetch in the log, the flag lowered, and only the first page's transactions kept |
| `PoolFunding.FirstDecimals` | apps/explorer/src/views/Pool/PoolDeposit.tsx:32 | the result is the first value present, or 0 when none is present; a present 0 is kept |
| `PoolFunding.WrapPrefix` | apps/explorer/src/views/Pool/PoolDeposit.tsx:49-54 | for the native mint, the prefix is `wrapSol(user, amount, !wsolExists)`; for any other mint it is empty |
| `PoolFunding.FundedBatch` | apps/explorer/src/views/Pool/PoolDeposit.tsx:47-59 | the pool instruction is last and is preceded exactly by the wrap prefix; a non-native batch is that instruction alone |
| `PoolFunding.FundedBatchNative` | apps/explorer/src/views/Pool/PoolMintBonus.tsx:38-44 | a native batch is the SDK's wrap instructions plus one pool instruction |
| `PoolDeposit.DepositDecimals` | apps/explorer/src/views/Pool/PoolDeposit.tsx:29-32 | the registry match's decimals when present; else the metadata's; else 0 |
| `PoolDeposit.Quot` | apps/explorer/src/views/Pool/PoolDeposit.tsx:80 | the natural quotient q satisfies q * d <= n < q * d + d |
| `PoolDeposit.TruncDiv` | apps/explorer/src/views/Pool/PoolDeposit.tsx:80 | BigInt division throws exactly on a zero divisor; otherwise the quotient's magnitude q satisfies q * abs(b) <= abs(a) < (q + 1) * abs(b), so it truncates toward zero, and a non-zero quotient is positive exactly when the signs agree |
| `PoolDeposit.LpAmount` | apps/explorer/src/views/Pool/PoolDeposit.tsx:78-80 | the LP amount is an error exactly when the scaled ratio is 0 |
| `PoolDeposit.LpAmountFloor` | apps/explorer/src/views/Pool/PoolDeposit.tsx:78-80 | for amount >= 0 and ratio > 0, q = floor(amount * 10^d / ratioScaled): q * ratio <= amount * 10^d < (q + 1) * ratio |
| `PoolDeposit.LpAmountNegated` | apps/explorer/src/views/Pool/PoolDeposit.tsx:80 | negating the amount negates the LP amount, because the division truncates |
| `PoolDeposit.LpAmountTruncates` | apps/explorer/src/views/Pool/PoolDeposit.tsx:80 | concrete case: -1 unit at ratio 2 gives 0 LP, not -1 |
| `PoolDeposit.DepositDisabled` | apps/explorer/src/views/Pool/PoolDeposit.tsx:126 | the button is enabled exactly when not loading and the amount is non-zero; an amount of 0 always disables it |
| `PoolDeposit.DepositBatchShape` | apps/explorer/src/views/Pool/PoolDeposit.tsx:47-59 | the deposit batch is the wrap instructions then the deposit instruction for the native mint, and the deposit instruction alone otherwise |
| `PoolDeposit.DepositEffects` | apps/explorer/src/views/Pool/PoolDeposit.tsx:39-74 | a call has 6 effects after a successful send and 3 after a failed one; loading is raised first and lowered last, the batch is sent second, and nothing after it is another send or a loading change |
| `PoolDeposit.DepositFollowUp` | apps/explorer/src/views/Pool/PoolDeposit.tsx:63-70 | after a successful send the `pool-<key>` invalidation comes before the navigation to `/pool/<key>`, and the toast follows them; after a failed send there is no invalidation, navigation or toast |
| `PoolDeposit.AnnounceDeposit` | apps/explorer/src/views/Pool/PoolDeposit.tsx:63-70 | appends exactly the invalidation, the navigation and the toast, in that order |
| `PoolDeposit.PoolDepositView.constructor` | apps/explorer/src/views/Pool/PoolDeposit.tsx:20 | the view starts not loading |
| `PoolDeposit.PoolDepositView.Deposit` | apps/explorer/src/views/Pool/PoolDeposit.tsx:35-75 | appends exactly `DepositEffects` of the deposit batch to the log; the loading flag ends false on both paths, and a failed send is reported to the caller |
| `PoolDeposit.DepositLeavesButton` | apps/explorer/src/views/Pool/PoolDeposit.tsx:126 | after a deposit finishes, on either path, the button is disabled exactly when the amount is 0 |
| `PoolMintBonus.BonusDecimals` | apps/explorer/src/views/Pool/PoolMintBonus.tsx:25 | the registry token's decimals, or 0 when there is no registry token or it has no decimals |
| `PoolMintBonus.BonusBatch` | apps/explorer/src/views/Pool/PoolMintBonus.tsx:38-47 | the bonus batch is the wrap instructions then the mint instruction for the native mint, and the mint instruction alone otherwise |
| `PoolMintBonus.MintBonusAsWritten` | apps/explorer/src/views/Pool/PoolMintBonus.tsx:23-55 | the as-written action always starts by sending the funded bonus batch; for the native mint the send is its only effect, whether it succeeds or fails |
| `PoolMintBonus.MintBonus` | apps/explorer/src/views/Pool/PoolMintBonus.tsx:23-55 | the corrected action: the batch is sent first, no error escapes, an error is logged exactly when the send fails, a failed send is followed by the logged error alone, with no invalidation and no toast, and a successful native send is followed by nothing |
| `PoolMintBonus.NativeBranch` | apps/explorer/src/views/Pool/PoolMintBonus.tsx:38-44 | for the native mint, it sends the wrap instructions followed by the mint instruction; a successful send is followed by nothing, so the action returns right after it; a failed send is followed by the logged error alone |
| `PoolMintBonus.OtherBranch` | apps/explorer/src/views/Pool/PoolMintBonus.tsx:47-54 | for other mints, it sends the mint instruction alone, then on success invalidates `pool-<key>` and then toasts; on failure it logs the error and does nothing else |
| `PoolMintBonus.AsWrittenDiffers` | apps/explorer/src/views/Pool/PoolMintBonus.tsx:44 | the as-written action lets an error escape exactly when a native send fails, and then the send is its only effect; otherwise it equals the corrected action |
| `PoolMintBonus.MintBonusTokens` | apps/explorer/src/views/Pool/PoolMintBonus.tsx:23-55 | the world's log grows by exactly the corrected action's effects |
| `Text.SplitJoin` | packages/react/src/hooks/useGamba.ts:61 | splitting a `:`-join gives back the pieces when there is at least one piece and none contains `:` |
| `Text.Join` | packages/react/src/hooks/useGamba.ts:61 | joining no pieces gives "" and one piece gives that piece; the first piece is a prefix of the result, and with two or more pieces a `:` follows it |
| `GambaPlay.Metadata` | packages/react/src/hooks/useGamba.ts:61 | absent metadata gives ""; a single element gives its own text |
| `GambaPlay.MetadataSplits` | packages/react/src/hooks/useGamba.ts:61 | the joined metadata splits back into the elements' texts (numbers in decimal) |
| `GambaPlay.Normalize` | packages/react/src/hooks/useGamba.ts:58-82 | the token defaults to the native mint; the pool is `getPoolAddress` of the normalised token; wager, bet and creator pass through; the metadata is the `:`-join of the given list |
| `GambaPlay.NormalizeMetadata` | packages/react/src/hooks/useGamba.ts:61 | the metadata handed to the provider splits back into the given elements' texts when no string element holds `:` |
| `GambaPlay.NormalizeDefaults` | packages/react/src/hooks/useGamba.ts:59-80 | the defaults are creatorFee 0, jackpotFee 0, clientSeed "", useBonus false, metadata "" and the native mint's pool; a value that is given is used as is |
| `GambaPlay.PlayRequest` | packages/react/src/hooks/useGamba.ts:63-65 | the request is refused with NotConnected exactly when no wallet is connected; otherwise it is the normalised request |
| `GambaPlay.Play` | packages/react/src/hooks/useGamba.ts:57-83 | when not connected, nothing is sent; when connected, exactly one send of the provider's play instruction for the normalised request |
| `GambaPlay.IsPlaying` | packages/react/src/hooks/useGamba.ts:36 | playing exactly when the state is sending or the game has a result requested |
| `GambaPlay.UserCreated` | packages/react/src/hooks/useGamba.ts:33 | the user counts as created exactly when the game account exists; without it the nonce is 0 and only a pending send counts as playing |
| `GambaPlay.PrevNonce` | packages/react/src/hooks/useGamba.ts:25 | 0 without a game or without a nonce; the game's nonce when it has one |
| `GambaPlay.NoGameAccount` | packages/react/src/hooks/useGamba.ts:33-36 | without a game account, playing means only a pending send, the user is not created and the nonce is 0 |

## Left out

- React rendering, hooks, SWR caching, effect scheduling and the router are not modelled. Their observable results are entries in the effect log: a send, an invalidation, a navigation, a toast, a logged error, a loading change.
- The wallet adapter, `connection.getSlot` and `sendTransaction` with its confirmation are I/O. They become inputs: `slot` (None when the fetch throws) and `sendOk`. The `{ confirmation: "confirmed" }` option is not recorded.
- The SDK's internals are foreign calls and stay uninterpreted `Sdk` fields: PDA derivation, `wrapSol`, the instruction builders, `isNativeMint`, `getNextResult`, the account decoders. The SDK calls are taken not to throw; only the send can fail. `getPoolAddress(token)` with one argument uses the SDK's default authority, written `None`.
- Floating point is left out: `Math.round(Number(amountText) * 10 ** d)`, `pool.ratio * 10 ** d`, the MAX buttons, the SOL and multiplier badges. The amount and the scaled ratio are integer inputs, and `BigInt(10 ** d)` is taken to be exact.
- `Date.now()` is a clock: `timeAgo` takes the millisecond difference.
- The token registry fetch and `console.log(matchedTokens)` are I/O.
- `useEventFetcher`, `useSendTransaction` and the transaction store are not part of this model. `Load` assumes a successful fetch appends one page to the fetched list. `Play` records only the send; how the store's state moves is not modelled.
- The explorer's constants file is not part of this model. `SYSTEM_PROGRAM` is taken to be the system program id `11111111111111111111111111111111`.
- Addresses are base58 strings and are not validated, so `new PublicKey(...)` throwing on a malformed address is not modelled. Mint strings are ASCII, so JavaScript's comparison by UTF-16 code unit is the same as comparison by character.
- Falsy names and logos are modelled as the empty string, which covers both undefined and "".
- Metadata numbers and the `timeAgo` counts are taken to be safe integers, with magnitude below 2^53, and are written in plain decimal. JavaScript numbers beyond that are not exact, and from 10^21 up `String` and `join` use exponent form (`1e+21`). Those cases are not modelled, and neither is the rendering of non-integer numbers, which is floating point.
- The engine's sort algorithm is not modelled; an insertion sort stands in for it. The model proves comparator order and a permutation. The comparator answers -1 when a token is compared with itself (`TokenList.CompareSameMint`), so under the definition that accompanies `Array.prototype.sort` in ECMA-262 (section 23.1.3.30 of the 2023 edition) it is not a consistent comparator, and the resulting order is implementation-defined. The model assumes the engine nonetheless sorts consistently with `TokenList.Before`.
- `getPoolBonusAddress` in the bonus-mint action computes a value that is never used, so it is not modelled.
- `useNextResult` is modelled only for its previous-nonce default (`GambaPlay.PrevNonce`). Its `getNextResult` call is a foreign call and is left out. The `nonce` field of `useGamba` and `nextRngSeedHashed` only forward decoded values and are not modelled.
- apps/platform/src/constants.ts holds only constants. The commented-out creators and plays tables of the dashboard are dead code.
- PoolFunding.FundedBatch: does not state that the batch holds exactly one deposit or mint instruction, because the SDK's wrap instructions are uninterpreted. It states that the pool instruction is last and that everything before it is the wrap prefix.
- PoolMintBonus.MintBonusTokens: applies the corrected error handling, under which a failed native send is logged. The as-written escape is stated by `PoolMintBonus.MintBonusAsWritten` and `PoolMintBonus.AsWrittenDiffers`.

## Findings

| source | as written | input that shows it | evidently intended | confidence | as-written member | corrected member |
|---|---|---|---|---|---|---|
| apps/explorer/src/views/CreatePool/CreatePoolView.tsx:152 | `!gambaState.poolCreationAllowed` reads the program state without optional chaining | a token is selected, the pool lookup has settled and the program-state account is not loaded yet (undefined): evaluating `disabled` throws a TypeError | treat an absent state as "creation not allowed", as the banner at line 110 does with `?.` | medium, not executed | `CreatePool.CreateDisabledAsWritten` | `CreatePool.CreateDisabled` |
| apps/explorer/src/views/Pool/PoolMintBonus.tsx:44 | the native branch does `return sendTransaction(...)` inside `try` without `await` | native mint and a rejected send: the rejection bypasses the `catch` at lines 52-54, is not logged and escapes as an unhandled rejection | `return await`, so that both branches log failures | medium, not executed | `PoolMintBonus.MintBonusAsWritten` | `PoolMintBonus.MintBonus` |
