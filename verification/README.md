# A proof-of-work ledger, modelled in Dafny

The repository implements a small blockchain ledger three times over, each version a
refinement of the one before:

* **app.js** (the oldest) has a `Block` holding one data item and a `BlockChain` that mines
  one item per call. Its `addBlockToChain` re-runs `validateChain()` after every push and pops
  the block again when the chain fails. `minePending` appends one unmined block per pending
  payout record.
* **lib/** has a three-field `Transaction` record and a `Block` that holds a list of
  transactions. Its `BlockChain` mines the whole pending pool into one block, then pays a
  reward and lowers the supply.
* **src/** has a `Transaction` with a hash fixed at construction and an optional signature,
  and a `BlockChain` of the same shape as lib's. Its pool admission has a debug bypass, and
  its observer snapshot includes the pool.

In every version:

* a block stores prev, contents, timestamp, nonce, hash and next;
* mining raises the nonce until the hash starts with `difficulty` zeros;
* a mining round links the old tip and the new block both ways;
* subscribed observers are called after every push with a snapshot of the chain.

The chains in lib/ and src/ validate themselves by walking the chain. At each index the walk
runs a list of check functions and stops at the first failure.

## Modules

* `Js` (js.dfy): the JavaScript values the code relies on:
  * link slots: `undefined`, `null`, `0` or a digest;
  * addresses;
  * `[ok, message]` pairs;
  * decimal rendering of the nonce;
  * the zero-prefix test.
* `Transactions` (transaction.dfy): src/Transaction.js. The object is a class whose only
  mutable field is the signature; pools and blocks hold its value `Tx`.
* `LegacyTransactions` (legacy_transaction.dfy): lib/Transaction.js, as a datatype.
* `Blocks` (block.dfy): lib/Block.js as a generic class `Block<T>`. It is also the block of
  src/BlockChain.js, because src/Block.js is not part of this model and every method that
  chain calls exists in lib/Block.js.
* `ChainSpec` (chain_spec.dfy): what the lib and src chains compute, stated over the values
  of their blocks:
  * the prev/next link invariant and one mining round;
  * observer delivery;
  * the `validator` walk;
  * the address-balance fold.
* `Ledger` (blockchain.dfy): src/BlockChain.js as a class.
* `LegacyLedger` (legacy_blockchain.dfy): lib/BlockChain.js as a class.
* `AppSpec` (app_spec.dfy): app.js's chain operations on block values:
  * `validateChain`;
  * push-and-maybe-pop;
  * one `minePending` step and the whole loop;
  * the address total.
* `App` (app.dfy): the `Block` and `BlockChain` classes of app.js, lines 3-161.

Modelling choices:

* SHA-256 and `JSON.stringify` are opaque functions, carried by each block as a `Hashing`
  value.
* Every clock reading is a parameter.
* Each chain class keeps a `notices` log of the observer calls it has made. Observers are
  numbered in subscription order.
* Mining ends only if some nonce meets the target. The mining methods therefore take a
  ghost `bound`: a nonce known to meet the target. This bound is the loop's termination
  measure.

## Model

| member | source | states |
|---|---|---|
| Js.NatToString | lib/Block.js:25 | the nonce rendered into the hash preimage is a non-empty string of decimal digits |
| Js.NatToStringRoundTrip | lib/Block.js:25 | reading the rendered digits back gives the nonce: the rendering loses nothing |
| Js.NatToStringInjective | lib/Block.js:25 | two nonces render to the same text iff they are equal |
| Js.Zeros | lib/Block.js:31 | `Array(d + 1).join('0')` is exactly `d` characters, all `'0'` |
| Js.Prefix | lib/Block.js:32 | `substring(0, d)` has exactly `d` characters when the hash has at least `d`, and otherwise all of them |
| Js.PrefixIsPrefix | lib/Block.js:32 | what `substring(0, d)` returns is a prefix of the hash |
| Js.HasZeroPrefix | lib/Block.js:32 | the exit test can hold only for a hash at least `d` characters long |
| Js.ZeroPrefixMeans | lib/Block.js:30-36 | mining's exit test holds iff the hash has at least `d` characters and its first `d` are all `'0'` |
| Js.ZeroDifficultyAlwaysMet | lib/Block.js:31-32 | at difficulty 0 the exit test holds for every hash |
| Js.ZeroPrefixMonotone | lib/Block.js:30-36 | a hash meeting difficulty `d` meets every smaller difficulty |
| Transactions.ValidateSignature | src/Transaction.js:67-75 | a `null` sender always passes with the fixed message; otherwise it passes iff the signature is truthy, and then returns the signature; a failure's message ends with the transaction hash |
| Transactions.Signed | src/Transaction.js:56-65 | signing never changes sender, receiver, amount, timestamp or hash; a key whose public id is not the sender changes nothing; the sender's key stores its signature of the hash |
| Transactions.DetailsOf | src/Transaction.js:18-26 | the details carry the stored sender, receiver, amount, signature and timestamp |
| Transactions.DetailsAndHashDetermine | src/Transaction.js:18-26 | details plus hash determine the transaction: the details omit the hash and nothing else |
| Transactions.SignedBySenderValidates | src/Transaction.js:56-75 | after signing with the sender's key (non-empty signature) validation passes with that signature |
| Transactions.MismatchedSignerLeavesInvalid | src/Transaction.js:56-73 | an unsigned transaction signed with another's key stays unsigned and fails with `INVALID SIGNATURE. HASH: ` plus its hash |
| Transactions.NullSenderValidWhateverSignature | src/Transaction.js:68-70 | a `null` sender passes validation whatever the signature slot holds |
| Transactions.Transaction.constructor | src/Transaction.js:10-16 | the new object holds the arguments, the creation time, the hash of those four values and no signature |
| Transactions.Transaction.Sign | src/Transaction.js:56-65 | the new state is `Signed(old state, key)`; on a key mismatch the signature is unchanged; only the signature field may change, so the hash is the same for the object's whole life |
| LegacyTransactions.GenerateTransactionDetails | lib/Transaction.js:8-14 | the details hold exactly sender, receiver and amount as stored |
| LegacyTransactions.DetailsRoundTrip | lib/Transaction.js:2-14 | record and details convert into each other without loss, both ways |
| Blocks.NoncePreimagesDistinct | lib/Block.js:19-28 | `generateHash()` digests a different string at every nonce: two nonces give the same preimage iff they are equal |
| Blocks.ConstructionPreimageIsNoNonce | lib/Block.js:11-28 | the constructor's hash digests the nonce text `undefined`, a preimage no numeric nonce reproduces |
| Blocks.NoneMeetsBelowMeans | lib/Block.js:30-36 | the top-down statement that no nonce below `nonce` met the target agrees with the quantified one |
| Blocks.BlockView.ValidateBlock | lib/Block.js:82-97 | passes iff stored prev and next equal the expected pair; a failure carries the expected and the actual pairs |
| Blocks.FirstInvalid | lib/Block.js:72-78 | the index of the first transaction failing the check: all before it pass, it fails (or is past the end) |
| Blocks.TransactionsVerdict | lib/Block.js:72-80 | passes iff every transaction passes (the empty list included), with `All transactions are valid`; otherwise the message of the first failing transaction |
| Blocks.Block.constructor | lib/Block.js:11-17 | the new block holds prev, transactions and time, nonce 0, next `undefined`, and the hash computed with the nonce rendered as `undefined` |
| Blocks.Block.Mine | lib/Block.js:30-36 | afterwards the hash meets the difficulty; a hash that already met it is untouched; otherwise the nonce rose and the hash is `generateHash()` at the new nonce, and no nonce in between met the target; difficulty 0 changes nothing; only nonce and hash change |
| Blocks.Block.SetNext | lib/Block.js:46-48 | only `next` changes, to the argument |
| Blocks.Block.GenerateBlockData | lib/Block.js:62-70 | the object holds the block's current prev, next, transactions, timestamp and hash |
| Blocks.Block.ValidateTransactions | lib/Block.js:72-80 | on a list, the verdict `TransactionsVerdict` defines; on a text, success iff the text is empty, and otherwise the TypeError of calling `validateSignature` on a character |
| ChainSpec.Extend | src/BlockChain.js:68-72 | a mining round's effect on the blocks: one more block, the new one last, the old tip's next set to its hash, everything else unchanged |
| ChainSpec.ExtendKeepsLinked | src/BlockChain.js:59-72 | a round whose block names the old tip's hash as prev keeps the chain linked both ways with the tip's next `undefined` |
| ChainSpec.ExtendKeepsBatches | src/BlockChain.js:68-72 | a round mining a list keeps every block after genesis a list |
| ChainSpec.Deliveries | src/BlockChain.js:88-91 | every observer is called once, in subscription order, each with the same snapshot |
| ChainSpec.RunCheck | src/BlockChain.js:153-180 | the position check passes iff the block's prev is prev's hash and its next is the given next, and fails with the links message; the transaction check passes iff every transaction passes, and fails with the first failure's message |
| ChainSpec.FirstFailingCheck | src/BlockChain.js:206-211 | the checks before the returned index pass and the one at it fails |
| ChainSpec.FirstFailingIndex | src/BlockChain.js:198-212 | every index before the returned one passes all checks, and the one at it (if inside the chain) does not |
| ChainSpec.Walk | src/BlockChain.js:197-214 | success iff every index from 1 passes all checks, with `Successfully validated length-1 blocks`; a failure names the first failing index, carries the first failing check's message and prev/block/next hashes |
| ChainSpec.Validator | src/BlockChain.js:197-214 | as written, every failure reports next `undefined`, and the checks fail at the reported index when run with next `undefined` |
| ChainSpec.IntendedValidator | src/BlockChain.js:197-214 | as intended, a failure before the tip reports the successor's hash as next, and one at the tip reports `undefined` |
| ChainSpec.IntegrityRejectsLongChains | src/BlockChain.js:182-214 | on a linked chain, `validateChainIntegrity` as written succeeds iff the chain has at most two blocks, and from three blocks fails at index 1 |
| ChainSpec.IntendedAcceptsLinked | src/BlockChain.js:182-214 | with the successor's hash passed as next, every linked chain passes `validateChainIntegrity` |
| ChainSpec.IntendedDetectsTamper | src/BlockChain.js:182-214 | with the successor's hash passed as next, overwriting the hash of any non-tip block of a linked chain makes the integrity walk fail, at the first index whose check reads that hash |
| ChainSpec.TransactionsWalkMeans | src/BlockChain.js:186-214 | `validateTransactions` succeeds iff every transaction of every block after genesis passes `validateSignature` |
| ChainSpec.AddressTotal | src/BlockChain.js:136-151 | a chain of genesis alone gives every address 0 |
| ChainSpec.UninvolvedAddressTotal | src/BlockChain.js:136-151 | an address that no transaction after genesis sends from or to has total 0 |
| ChainSpec.BatchTotalAppend | src/BlockChain.js:139-148 | a block's balance contribution is additive over concatenated transaction lists |
| ChainSpec.SelfTransfersNetZero | src/BlockChain.js:139-148 | transactions whose sender is their receiver change no balance |
| ChainSpec.GenesisNotCounted | src/BlockChain.js:136-151 | replacing the genesis block changes no balance |
| ChainSpec.ExtendAddsBatch | src/BlockChain.js:136-151 | a mining round raises each balance by exactly the mined list's net effect on that address |
| Ledger.GenerateGenesisBlock | src/BlockChain.js:52-57 | a fresh unmined block with prev `null` holding one `Transaction(null, null, 0)` |
| Ledger.BlockChain.GenerateChainData | src/BlockChain.js:24-34 | the snapshot carries the settings, the supply, the current chain and the current pool |
| Ledger.BlockChain.constructor | src/BlockChain.js:13-22 | one genesis block (linked), settings as given, empty pool, no observers |
| Ledger.BlockChain.Subscribe | src/BlockChain.js:84-86 | the observer joins the end of the list |
| Ledger.BlockChain.ExecuteObservers | src/BlockChain.js:88-91 | the log grows by one call per observer, in order, with the current snapshot including the pool |
| Ledger.BlockChain.AddBlockToChain | src/BlockChain.js:79-82 | the block is appended, observers see the chain with it, pool, supply and observers are unchanged |
| Ledger.BlockChain.AddTransactionToPending | src/BlockChain.js:93-104 | the transaction is appended iff its signature check passes or debugging is on; otherwise the pool is unchanged |
| Ledger.BlockChain.ResetPending | src/BlockChain.js:106-108 | the pool becomes empty |
| Ledger.BlockChain.CalculateNewSupply | src/BlockChain.js:114-116 | supply falls by exactly the payout, with no floor |
| Ledger.BlockChain.GenerateNewBlock | src/BlockChain.js:59-62 | a fresh unmined block whose prev is the tip's hash |
| Ledger.BlockChain.MineNewBlock | src/BlockChain.js:69-70 | a fresh block on the tip holding the data, whose hash meets the difficulty: nonce 0 with the construction hash if that already met it, otherwise the first nonce that does, with its hash |
| Ledger.BlockChain.SetLastBlockNext | src/BlockChain.js:64-66 | only the tip's next changes |
| Ledger.BlockChain.PushMinedBlock | src/BlockChain.js:68-72 | the chain becomes `Extend` of the old one with a block of the pool, mined to the first nonce that meets the target (`MinedAfter`), linked both ways; linkage is preserved; observers see the new chain |
| Ledger.BlockChain.PayReward | src/BlockChain.js:73-76 | the pool becomes exactly the reward transaction from `null`, supply falls by the payout, blocks unchanged |
| Ledger.BlockChain.MinePending | src/BlockChain.js:68-77 | one block holding the old pool is mined to the first nonce that meets the target and linked both ways to the old tip; linkage is preserved; the pool is exactly the reward; supply falls by the payout; observers ran once each with the new chain and the old pool |
| Ledger.BlockChain.GetBlockTransactions | src/BlockChain.js:130-134 | the transactions of the first block with that hash; the TypeError exactly when no block has it |
| Ledger.BlockChain.GetAddressTotal | src/BlockChain.js:136-151 | the result is the balance fold `AddressTotal` over the blocks |
| Ledger.BlockChain.ValidateBlockPosition | src/BlockChain.js:153-167 | passes iff the block's prev is prev's hash and its next is the given next; fails with the links message |
| Ledger.BlockChain.ValidateBlockTransactions | src/BlockChain.js:169-180 | passes iff every transaction passes `validateSignature`; otherwise carries the first failure's message |
| Ledger.BlockChain.RunChecksAt | src/BlockChain.js:206-211 | the checks run in order on the blocks at `i - 1` and `i`, and the first failure is returned |
| Ledger.BlockChain.Validator | src/BlockChain.js:197-214 | the result is the walk `ChainSpec.Validator` defines, with next always `undefined` |
| Ledger.BlockChain.ValidateChainIntegrity | src/BlockChain.js:182-184 | the position walk; on a linked chain it succeeds iff the chain has at most two blocks, and otherwise fails at index 1 |
| Ledger.BlockChain.ValidateTransactions | src/BlockChain.js:186-188 | succeeds iff every transaction after genesis passes `validateSignature` |
| Ledger.BlockChain.ValidateAll | src/BlockChain.js:190-195 | the walk with the position check before the transaction check at each index |
| LegacyLedger.GenerateGenesisBlock | lib/BlockChain.js:21-23 | a fresh unmined block with prev `0` holding the text `Genesis block of <name> chain` |
| LegacyLedger.BlockChain.GenerateChainData | lib/BlockChain.js:16-19 | the snapshot carries the settings, the supply and the current chain, and no pool |
| LegacyLedger.BlockChain.constructor | lib/BlockChain.js:5-14 | one genesis block (linked), settings as given, empty pool, no observers |
| LegacyLedger.BlockChain.Subscribe | lib/BlockChain.js:50-52 | the observer joins the end of the list |
| LegacyLedger.BlockChain.ExecuteObservers | lib/BlockChain.js:54-57 | one call per observer, in order, with a snapshot of name, timestamp, settings, supply and chain, without the pool |
| LegacyLedger.BlockChain.AddBlockToChain | lib/BlockChain.js:45-48 | the block is appended and observers see the chain with it; pool, supply and observers are unchanged |
| LegacyLedger.BlockChain.AddTransactionToPending | lib/BlockChain.js:59-67 | the transaction is appended iff its check passes; there is no bypass |
| LegacyLedger.BlockChain.ResetPending | lib/BlockChain.js:69-71 | the pool becomes empty |
| LegacyLedger.BlockChain.CalculateNewSupply | lib/BlockChain.js:77-79 | supply falls by exactly the payout |
| LegacyLedger.BlockChain.GenerateNewBlock | lib/BlockChain.js:25-28 | a fresh unmined block whose prev is the tip's hash |
| LegacyLedger.BlockChain.MineNewBlock | lib/BlockChain.js:35-36 | a fresh block on the tip holding the data, whose hash meets the difficulty: nonce 0 with the construction hash if that already met it, otherwise the first nonce that does, with its hash |
| LegacyLedger.BlockChain.SetLastBlockNext | lib/BlockChain.js:30-32 | only the tip's next changes |
| LegacyLedger.BlockChain.PushMinedBlock | lib/BlockChain.js:34-38 | the chain becomes `Extend` of the old one with a block of the pool mined to the first nonce that meets the target (`MinedAfter`), linked both ways; observers see the new chain |
| LegacyLedger.BlockChain.PayReward | lib/BlockChain.js:39-42 | the pool becomes the reward from `null` if it passes the check, else empty; supply falls by the payout; blocks unchanged |
| LegacyLedger.BlockChain.MinePending | lib/BlockChain.js:34-43 | one block of the old pool is mined to the first nonce that meets the target and linked both ways; the pool is replaced before the reward is offered; supply falls by the payout; observers ran once each |
| LegacyLedger.BlockChain.GetAddressTotal | lib/BlockChain.js:97-112 | as written: the TypeError exactly when there is a block after genesis, otherwise 0 |
| LegacyLedger.BlockChain.IntendedAddressTotal | lib/BlockChain.js:97-112 | as intended: the balance fold `AddressTotal` over the blocks |
| LegacyLedger.BlockChain.ValidateBlockPosition | lib/BlockChain.js:114-123 | passes iff the block's prev is prev's hash and its next is the given next |
| LegacyLedger.BlockChain.ValidateBlockTransactions | lib/BlockChain.js:125-132 | passes iff every transaction passes the check; otherwise carries the first failure's message |
| LegacyLedger.BlockChain.RunChecksAt | lib/BlockChain.js:158-163 | the checks run in order on the blocks at `i - 1` and `i`, and the first failure is returned |
| LegacyLedger.BlockChain.Validator | lib/BlockChain.js:149-166 | the result is the walk `ChainSpec.Validator` defines, with next always `undefined` |
| LegacyLedger.BlockChain.ValidateChainIntegrity | lib/BlockChain.js:134-136 | on a linked chain it succeeds iff the chain has at most two blocks, and otherwise fails at index 1 |
| LegacyLedger.BlockChain.ValidateTransactions | lib/BlockChain.js:138-140 | succeeds iff every transaction after genesis passes the check |
| LegacyLedger.BlockChain.ValidateAll | lib/BlockChain.js:142-147 | the walk with the position check before the transaction check |
| AppSpec.AppNoncePreimagesDistinct | app.js:12-21 | `generateHash()` digests a different string at every nonce: two nonces give the same preimage iff they are equal |
| AppSpec.AppConstructionPreimageIsNoNonce | app.js:4-21 | the constructor's hash digests the nonce text `undefined`, a preimage no numeric nonce reproduces |
| AppSpec.AppNoneMeetsBelowMeans | app.js:23-28 | the top-down statement that no nonce below `nonce` met the target agrees with the quantified one |
| AppSpec.ChainValid | app.js:150-160 | a chain of genesis alone always passes `validateChain` |
| AppSpec.ChainValidPrefixClosed | app.js:150-160 | every prefix of a chain that passes `validateChain` passes too, so popping keeps a valid chain valid |
| AppSpec.Relink | app.js:77-79 | setting the tip's next keeps the length and every other block, and the tip's next becomes the hash |
| AppSpec.Push | app.js:91-95 | push-then-maybe-pop yields the pushed chain iff it passes `validateChain`, and otherwise the chain before the push |
| AppSpec.NewBlockOn | app.js:73-75 | the new block names the tip's hash as prev, holds the data, has nonce 0, next `undefined` and the hash computed with the nonce text `undefined` |
| AppSpec.PendingStep | app.js:113-118 | one `forEach` step lengthens the chain by one block or leaves its length unchanged |
| AppSpec.MineAll | app.js:112-119 | the whole loop adds at most one block per item and never shortens the chain |
| AppSpec.ValidChainKeepsBlock | app.js:81-97 | on a valid chain, a block built on the tip is kept after relinking, and the chain stays valid |
| AppSpec.InvalidChainDropsBlock | app.js:91-95 | on an invalid chain the pushed block is always popped, while the tip keeps its new next link |
| AppSpec.PushOnTip | app.js:81-97 | relinking the tip to a block built on it and pushing the block keeps the block and a valid chain when the chain was valid, and drops the block otherwise |
| AppSpec.TamperedHashDetected | app.js:150-160 | changing the stored hash of any block, the tip included, of a valid chain of two or more blocks makes `validateChain` false |
| AppSpec.TamperedDataUndetected | app.js:150-160 | changing a block's data never makes a valid chain invalid: no hash is recomputed |
| AppSpec.PendingStepOnValid | app.js:113-118 | on a valid chain one step appends one unmined block carrying the item and keeps the chain valid, changing no earlier block's data or nonce |
| AppSpec.MineAllAppends | app.js:112-119 | on a valid chain `minePending` appends exactly one unmined block per pending item, carrying that item in order; the result is valid and the earlier blocks are unchanged |
| AppSpec.RelinkKeepsInvalid | app.js:150-160 | setting the tip's next cannot repair an invalid chain |
| AppSpec.MineAllOnInvalidChain | app.js:112-119 | on an invalid chain `minePending` keeps the length, stays invalid, and changes at most the tip's next |
| AppSpec.PushCredits | app.js:141-148 | pushing a block adds its data's credit to every address's total |
| AppSpec.RelinkKeepsTotal | app.js:141-148 | relinking the tip changes no total |
| AppSpec.AppAddressTotal | app.js:141-148 | an address that no block's payment names has total 0 |
| AppSpec.GenesisCountsForNobody | app.js:141-148 | a chain holding only the genesis text has total 0 for every address |
| AppSpec.MineAllCredits | app.js:141-148 | on a valid chain `minePending` raises each address's total by exactly the pending payments to it |
| App.Block.constructor | app.js:4-10 | the new block holds prev, data and time, nonce 0, next `undefined`, and the hash computed before the nonce was set |
| App.Block.MineBlock | app.js:23-28 | afterwards the hash meets the difficulty; a hash that already met it is untouched; otherwise the nonce rose and the hash is `generateHash()` at the new nonce, no nonce in between met the target; only nonce and hash change |
| App.Block.SetNext | app.js:38-40 | only `next` changes, to the argument |
| App.BlockChain.GenerateMetaData | app.js:63-66 | the metadata carries the settings, the total and the current chain |
| App.BlockChain.constructor | app.js:52-61 | one genesis block with prev `0` and the genesis text (a valid chain), settings as given, empty pending, no observers |
| App.BlockChain.Subscribe | app.js:99-101 | the observer joins the end of the list |
| App.BlockChain.ExecuteObservers | app.js:103-106 | one call per observer, in order, with the current metadata |
| App.BlockChain.AddDataToPending | app.js:108-110 | the item joins the end of pending |
| App.BlockChain.CalculateNewTotal | app.js:121-123 | the total falls by exactly the payout, with no floor |
| App.BlockChain.ValidateChain | app.js:150-160 | true iff every adjacent pair passes the prev/next test (`ChainValid`) |
| App.BlockChain.AddBlockToChain | app.js:91-97 | the block is kept iff the pushed chain passes `validateChain`, otherwise the chain is as before; observers run either way; pending, total and observers unchanged |
| App.BlockChain.GenerateNewBlock | app.js:73-75 | the new block is `NewBlockOn` the tip |
| App.BlockChain.SetLastBlockNext | app.js:77-79 | the blocks become `Relink` of the old ones |
| App.BlockChain.GenerateMinedBlock | app.js:82-84 | a fresh block on the tip holding the data: nonce 0 with the construction hash if that already met the target, otherwise the first nonce that does, with its hash |
| App.BlockChain.PushMinedBlock | app.js:82-86 | a block on the tip mined to the first nonce that meets the target (`AppMinedFrom`), with the tip relinked to it and the push kept or popped as `Push` says |
| App.BlockChain.MineNewBlock | app.js:81-89 | the block is mined to the first nonce that meets the target; on a valid chain the mined block is appended and linked both ways and the chain stays valid; on an invalid one it is dropped but the tip keeps the link; the total falls by the payout; `{address, value: payout}` joins pending; observers see the old total |
| App.BlockChain.AppendPendingItem | app.js:114-117 | the blocks become `PendingStep` of the old ones; the tip is the old tip or a new block |
| App.BlockChain.MinePendingItem | app.js:113-118 | after the `k`th turn the blocks are `MineAll` of the first `k + 1` items |
| App.BlockChain.MinePending | app.js:112-119 | the blocks become `MineAll` of the pending items; on a valid chain the length grows by the number of items and the chain stays valid; on an invalid one the length is unchanged; pending is not cleared |
| App.BlockChain.GetBlockData | app.js:137-139 | the data of the first block with that hash; the TypeError exactly when no block has it |
| App.BlockChain.GetAddressTotal | app.js:141-148 | the result is the fold `AppAddressTotal` over every block, genesis included |

## Left out

- src/Block.js is not part of this model. `Blocks.Block` (lib/Block.js) stands in for it, since every method src/BlockChain.js calls exists there.
- SHA-256 (crypto-js) and `JSON.stringify` are opaque deterministic functions, so nothing about collisions or digest format is claimed. src/Transaction.js:49 passes four arguments to the hasher; the model does not claim the hash covers all four.
- `new Date()` readings are string parameters. Date-to-string rendering is not modelled.
- Mining termination depends on the hash function, so the mining methods take a ghost `bound`: a nonce at which the target is met.
- Observers are numbered callbacks, and each call is recorded in `notices`. What a callback does, and any exception it throws, is not modelled.
- `console.error` output is not modelled. Where the source logs and carries on, the model carries on.
- The getters (`getHash`, `getPrev`, `getNext`, `getData`, `getChain`, `getLastBlock`, `getSupply`, `getTotal`, `getPendingTransactions`, the getters of src/Transaction.js) are field reads. `getTransactions` returns a copy; a payload here is a value, so the copy is implicit.
- A block already in the chain cannot be pushed again (`block !in chain`). Aliasing between chain positions is not modelled.
- src transactions enter pools and blocks as values. Signing a transaction object after it was admitted is not reflected in the pool.
- lib/BlockChain.js:93-95 `getBlockData` is not modelled: it reads a `data` field that lib/Block.js does not have.
- lib/Transaction.js has no `validateSignature`, although lib/BlockChain.js:60 calls it. The older chain takes that check as a parameter.
- The older chain's tests expect the reward to be sent by the chain's name. The code sends it from `null`, and the model follows the code.
- Amounts, payouts, supply, totals and nonces are unbounded integers; JavaScript's floating-point numbers are not modelled. In the source, `nonce++` stops changing the nonce past 2^53, and from 10^21 on the nonce renders in exponent form; the model's nonce counts on and always renders as plain decimal digits.
- App data is either a text or a payment object `{address, value}` with a string address. Other JavaScript values, `undefined` addresses and non-numeric values are not modelled.
- Ledger.BlockChain.ValidateBlockTransactions: requires a block holding a list. On the text-holding genesis block of the older chain the source would throw, but `validator` never reaches index 0. The same holds for `LegacyLedger.BlockChain.ValidateBlockTransactions`.
- App.BlockChain.MinePending: does not state how many observer calls the loop makes. `App.BlockChain.AppendPendingItem` states the count for one step, and `App.BlockChain.AddBlockToChain` states the calls themselves. The loop's total count is a product of two lengths, and that nonlinear arithmetic is out of reach of the solver here.
- App.BlockChain.MinePending: each block's timestamp comes from a `stamps` list with one entry per pending item.

## Findings

| source | as written | input that shows it | evidently intended | confidence | as-written member | corrected member |
|---|---|---|---|---|---|---|
| src/BlockChain.js:199 | `chain.slice(i - 1, i + 1)` has two elements, so every check gets `next === undefined`; `validateChainIntegrity` then rejects every linked chain of three or more blocks, at index 1 (lib/BlockChain.js:151 is the same) | a new chain after two `minePending` calls: block 1's next holds block 2's hash, but the check expects `undefined` | `slice(i - 1, i + 2)`, so the check compares next with the successor's hash; then every linked chain passes and a tampered hash is caught | not executed; high | ChainSpec.IntegrityRejectsLongChains | ChainSpec.IntendedAcceptsLinked |
| lib/BlockChain.js:100 | reads `this.chain[i].transactions`, but lib/Block.js keeps the list in the private `#transactions`, so the value is `undefined` and `reduce` throws | any chain after one `minePending` call, any address | read the list through `getTransactions()`, as src/BlockChain.js:139 does | not executed; high | LegacyLedger.BlockChain.GetAddressTotal | LegacyLedger.BlockChain.IntendedAddressTotal |
