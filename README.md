# Unspent-state tracking of a ledger node, modelled in Dafny

This project models three sequential pieces of a distributed-ledger node and proves properties of
them:

- **The client's contract-state projection** (`contract_state_model.dfy`). Each vault update
  becomes a `Diff` of added entries and removed references. That diff is narrowed to cash entries;
  the removed references pass through untouched, because references carry no type. The cash diffs
  are folded, in order, into the `cashStates` list, which is updated in place: first every entry
  whose reference was removed is dropped, then the added entries are appended.
- **The node wallet's `notify` semantics** (`node_wallet_service.dfy`), as the node's wallet tests
  pin them down, and those tests replayed against the model (`wallet_with_cash_test.dfy`).
  Applying a transaction:
  - consumes the held states it spends;
  - appends the outputs that are ours;
  - is refused, with the wallet left unchanged, if a linear thread would then be held twice.

  `cashBalances` sums cash per currency.
- **The mock services** (`mock_services.dfy`):
  - the dummy timestamper's time-window check;
  - `freshKey` popping from the end of `nextKeys`;
  - `getMap` as get-or-create on the table map;
  - the contract-factory and identity lookups;
  - the fixed mock wallet;
  - the service-hub accessors that fail for missing collaborators.

Shared value types are in `ledger.dfy`: `StateRef`, a `ContractState` variant (cash, linear, or any
other kind of state, which is neither) and `StateAndRef`. `sequences.dfy` holds an order-preserving
`Filter` and a `Count`, with their lemmas. `wrappers.dfy` holds `Option`, `Result` and `Outcome`.
Exceptions of the source become `Err`/`Fail` values.

Modelling choices:
- Amounts are whole minor units (cents): `100.DOLLARS` is `100_00`.
- Instants and durations are integers in nanoseconds, the precision of `java.time.Duration`.
- Hashes and keys are integers compared only for equality.
- The "is this output ours" rule of the wallet is a function the wallet is constructed with.
- Transactions are their id, inputs and outputs.

Modelling choices that follow the source:
- The timestamp command's bound is the field `before`. The check fails when `now - before` exceeds
  the tolerance.
- `single()` fails differently for "no timestamp command" and "several". The model keeps these as
  two errors rather than one malformed-transaction error.
- The `NodeWalletService` source is not part of this model. Its `notify` follows the rule the
  wallet tests imply: consumed = held inputs, produced = our outputs, new = held minus consumed
  followed by produced, refused when a produced linear thread would then occur more than once.
- The wallet tests build their services with a newer `MockServices` and `MockKeyManagementService`
  than `src/test/kotlin/core/MockServices.kt`. In that file the wallet collaborator defaults to
  null. So the models of the test scenarios construct the wallet directly and do not go through the
  modelled service hub.

## Model

| member | source | states |
|---|---|---|
| `ContractStateModel.ContractStatesDiff` | client/src/main/kotlin/net/corda/client/model/ContractStateModel.kt:25-27 | the diff of a vault update adds exactly the produced entries and removes exactly the consumed references |
| `ContractStateModel.MapAsCash` | client/src/main/kotlin/net/corda/client/model/ContractStateModel.kt:41-48 | one slot per entry, in order; a slot is filled iff its entry is cash, and then holds that very entry |
| `ContractStateModel.FilterNotNull` | client/src/main/kotlin/net/corda/client/model/ContractStateModel.kt:49 | holds a value iff some slot holds it; never longer than the input |
| `ContractStateModel.MapNotNullIsFilter` | client/src/main/kotlin/net/corda/client/model/ContractStateModel.kt:41-49 | mapping each entry to itself-if-cash-else-null and dropping the nulls is the order-preserving filter by the cash test |
| `ContractStateModel.FilterCashStateAndRefs` | client/src/main/kotlin/net/corda/client/model/ContractStateModel.kt:40-50 | the result holds an entry iff the input holds it and it is cash; every result entry is cash; the result is the order-preserving cash filter of the input |
| `ContractStateModel.CashStatesDiff` | client/src/main/kotlin/net/corda/client/model/ContractStateModel.kt:28-31 | the cash diff passes `removed` through unchanged and keeps only the cash entries of `added`, in order |
| `ContractStateModel.FoldStep` | client/src/main/kotlin/net/corda/client/model/ContractStateModel.kt:34-35 | the added entries end the new list, exactly and in the given order |
| `ContractStateModel.FoldAllEndsWithLastAdded` | client/src/main/kotlin/net/corda/client/model/ContractStateModel.kt:32-36 | after any non-empty stream of diffs the list ends with exactly what the last diff added, in order |
| `ContractStateModel.FoldStepMembership` | client/src/main/kotlin/net/corda/client/model/ContractStateModel.kt:34-35 | after a fold step an entry is held iff it was held and its ref is not removed, or it was added |
| `ContractStateModel.FoldStepLayout` | client/src/main/kotlin/net/corda/client/model/ContractStateModel.kt:34-35 | the new list ends with exactly the added entries in the given order; every entry before them was held before and has no removed ref |
| `ContractStateModel.FoldStepKeepsOrder` | client/src/main/kotlin/net/corda/client/model/ContractStateModel.kt:34-35 | for any split of the old list, the survivors of the first part come before those of the second, and both come before the added entries |
| `ContractStateModel.FoldStepLength` | client/src/main/kotlin/net/corda/client/model/ContractStateModel.kt:34-35 | new length = old length − number of old entries whose ref is removed + number added |
| `ContractStateModel.FoldStepEmptyDiff` | client/src/main/kotlin/net/corda/client/model/ContractStateModel.kt:34-35 | a diff with nothing added and nothing removed leaves the list unchanged |
| `ContractStateModel.FoldStepKeepsCash` | client/src/main/kotlin/net/corda/client/model/ContractStateModel.kt:28-36 | folding a cash diff into a cash-only list gives a cash-only list, although `removed` is untyped |
| `ContractStateModel.CashStatesOnlyCash` | client/src/main/kotlin/net/corda/client/model/ContractStateModel.kt:32-36 | after any stream of vault updates, `cashStates` holds only cash entries |
| `ContractStateModel.FoldStepCommutesWithCashFilter` | client/src/main/kotlin/net/corda/client/model/ContractStateModel.kt:28-35 | narrowing to cash after a fold step equals folding the narrowed diff into the narrowed list |
| `ContractStateModel.FoldAllCommutesWithCashFilter` | client/src/main/kotlin/net/corda/client/model/ContractStateModel.kt:28-36 | the same agreement holds for any sequence of diffs folded in order |
| `ContractStateModel.CashStatesAfterIsFilteredFold` | client/src/main/kotlin/net/corda/client/model/ContractStateModel.kt:25-36 | the incrementally folded cash list equals the cash entries of the list folded from the unnarrowed diffs |
| `ContractStateModel.ContractStateModel.constructor` | client/src/main/kotlin/net/corda/client/model/ContractStateModel.kt:32-33 | the projection starts empty, with no update seen, and cash-only |
| `ContractStateModel.ContractStateModel.OnVaultUpdate` | client/src/main/kotlin/net/corda/client/model/ContractStateModel.kt:32-36 | the in-place `removeIf` loop then `addAll` makes `cashStates` the fold step of the old list with the update's cash diff; the list stays cash-only and equal to the fold of the whole update history |
| `Ledger.CashBalances` | node/src/test/kotlin/com/r3corda/node/services/WalletWithCashTest.kt:91-97 | a currency has a balance entry iff some held cash state is in it; the entry is the sum of those amounts; absent currencies sum to zero |
| `Ledger.CashBalance` | node/src/test/kotlin/com/r3corda/node/services/WalletWithCashTest.kt:91-97 | `cashBalances[currency]` is null iff no cash of that currency is held, and otherwise the sum of its amounts |
| `Ledger.EmptyWalletHasNoBalance` | node/src/test/kotlin/com/r3corda/node/services/WalletWithCashTest.kt:91 | a fresh wallet has no balance entry for any currency |
| `NodeWalletService.OutRefs` | node/src/test/kotlin/com/r3corda/node/services/WalletWithCashTest.kt:75 | `outRef(i)` for every output: one entry per output, in order, pairing output `i` with the reference (tx id, `i`) |
| `NodeWalletService.Produced` | node/src/test/kotlin/com/r3corda/node/services/WalletWithCashTest.kt:92-95 | holds an entry iff it is an output reference of the transaction whose state is ours; at most one per output |
| `NodeWalletService.Consumed` | node/src/test/kotlin/com/r3corda/node/services/WalletWithCashTest.kt:96-97 | a reference is consumed iff it is an input of the transaction and some held state has it |
| `NodeWalletService.Apply` | node/src/test/kotlin/com/r3corda/node/services/WalletWithCashTest.kt:117-129 | a refusal names the thread of one of the transaction's own produced linear states; a success removes only held references and adds at most one entry per output |
| `NodeWalletService.BranchedThread` | node/src/test/kotlin/com/r3corda/node/services/WalletWithCashTest.kt:126-128 | finds nothing iff every produced linear state's thread is held at most once afterwards; what it finds is a produced thread held more than once |
| `NodeWalletService.ApplyDiff` | node/src/test/kotlin/com/r3corda/node/services/WalletWithCashTest.kt:92-97 | a successful notify reports removed = the inputs the wallet held and added = exactly our outputs; the new states are the fold of that diff |
| `NodeWalletService.ApplyContents` | node/src/test/kotlin/com/r3corda/node/services/WalletWithCashTest.kt:96-97 | afterwards the wallet holds exactly the old states the transaction does not spend, and our outputs |
| `NodeWalletService.ApplyRejectsExactlyBranching` | node/src/test/kotlin/com/r3corda/node/services/WalletWithCashTest.kt:120-128 | notify fails iff some produced linear state's thread would be held more than once |
| `NodeWalletService.ApplyPreservesNoBranching` | node/src/test/kotlin/com/r3corda/node/services/WalletWithCashTest.kt:146-157 | a successful notify keeps the invariant that every thread is held at most once |
| `NodeWalletService.IrrelevantTransactionChangesNothing` | node/src/test/kotlin/com/r3corda/node/services/WalletWithCashTest.kt:94-95 | a transaction that spends nothing we hold and pays nothing to us leaves the states unchanged and reports an empty diff |
| `NodeWalletService.ApplyConservesCash` | node/src/test/kotlin/com/r3corda/node/services/WalletWithCashTest.kt:96-97 | after a successful notify, new balance + consumed amounts = old balance + produced amounts, in every currency |
| `NodeWalletService.NodeWallet.constructor` | node/src/test/kotlin/com/r3corda/node/services/WalletWithCashTest.kt:38-41 | a new wallet is empty, has reported no diffs and uses the given relevance rule |
| `NodeWalletService.NodeWallet.Notify` | node/src/test/kotlin/com/r3corda/node/services/WalletWithCashTest.kt:117-129 | on success the snapshot is replaced and the diff reported and recorded; on failure the error is returned and the wallet is exactly as before; the no-branching invariant holds throughout |
| `NodeWalletService.ProjectionMatchesWallet` | client/src/main/kotlin/net/corda/client/model/ContractStateModel.kt:28-36 | a cash projection folded from every diff the wallet reported equals the cash entries of the current wallet |
| `WalletWithCashTest.IssueOne` | node/src/test/kotlin/com/r3corda/node/services/WalletWithCashTest.kt:117-118 | issuing one output of ours, spending nothing, appends just that output and reports it as the only addition, unless a linear output's thread is already held |
| `WalletWithCashTest.BalanceOfOne` | node/src/test/kotlin/com/r3corda/node/services/WalletWithCashTest.kt:93 | a wallet holding one cash state has that state's amount as its balance |
| `WalletWithCashTest.SpendWithChange` | node/src/test/kotlin/com/r3corda/node/services/WalletWithCashTest.kt:96-97 | the spend removes our state and leaves exactly the change |
| `WalletWithCashTest.BranchRefused` | node/src/test/kotlin/com/r3corda/node/services/WalletWithCashTest.kt:120-128 | a second state on a held thread, nothing consumed, is refused with that thread |
| `WalletWithCashTest.SuccessorAccepted` | node/src/test/kotlin/com/r3corda/node/services/WalletWithCashTest.kt:149-156 | consuming the held linear state while producing its successor is accepted and leaves only the successor |
| `WalletWithCashTest.IssueToUs` | node/src/test/kotlin/com/r3corda/node/services/WalletWithCashTest.kt:91-93 | the issue to our key lands in the empty wallet as its only state; the USD balance is then 100.00 |
| `WalletWithCashTest.IssueToBob` | node/src/test/kotlin/com/r3corda/node/services/WalletWithCashTest.kt:94-95 | the issue to Bob leaves the wallet as it was, with 100.00 USD |
| `WalletWithCashTest.SpendToBob` | node/src/test/kotlin/com/r3corda/node/services/WalletWithCashTest.kt:96-97 | after the spend the change is the only state held and the USD balance is 20.00 |
| `WalletWithCashTest.Basics` | node/src/test/kotlin/com/r3corda/node/services/WalletWithCashTest.kt:65-100 | balance absent, then 100.00 USD, still 100.00 after the irrelevant transaction, 20.00 after the spend; the change is the only state held |
| `WalletWithCashTest.BranchingLinearStatesFails` | node/src/test/kotlin/com/r3corda/node/services/WalletWithCashTest.kt:103-130 | one state after the issue; the second issue on the thread fails; still one state |
| `WalletWithCashTest.SequencingLinearStatesWorks` | node/src/test/kotlin/com/r3corda/node/services/WalletWithCashTest.kt:132-158 | one state after the issue; the move succeeds; exactly the successor is held |
| `MockServices.TimestampCommands` | src/test/kotlin/core/MockServices.kt:46 | exactly the order-preserving filter of the commands by "is a timestamp command": every timestamp command is kept, once each and in order, and nothing else; its length is the number of such commands |
| `MockServices.DummyTimestamper.constructor` | src/test/kotlin/core/MockServices.kt:40-41 | the clock is the given fixed instant; the tolerance defaults to 30 seconds |
| `MockServices.DummyTimestamper.Timestamp` | src/test/kotlin/core/MockServices.kt:44-50 | no timestamp command, several, missing `before` and not-on-time are four distinct failures; not on time iff `now − before > tolerance`; passes iff there is exactly one command, its `before` is present and `now − before ≤ tolerance` |
| `MockServices.TimestampIgnoresOtherCommands` | src/test/kotlin/core/MockServices.kt:46 | inserting a non-timestamp command anywhere does not change the outcome |
| `MockServices.FutureBoundIsOnTime` | src/test/kotlin/core/MockServices.kt:47-48 | a lone timestamp command whose `before` is not behind the clock passes |
| `MockServices.MockKeyManagementService.constructor` | src/test/kotlin/core/MockServices.kt:59-62 | holds the given keys and queue of next keys |
| `MockServices.MockKeyManagementService.FreshKey` | src/test/kotlin/core/MockServices.kt:63 | returns and removes the last of `nextKeys`, keeping the rest in order; on an empty list fails with index-out-of-bounds and changes nothing |
| `MockServices.FreshKeysComeFromTheEnd` | src/test/kotlin/core/MockServices.kt:59-64 | keys queued `[a, b]` come out `b`, then `a`, then the call fails |
| `MockServices.StorageTable.constructor` | src/test/kotlin/core/MockServices.kt:86 | a new table is empty |
| `MockServices.MockStorageService.constructor` | src/test/kotlin/core/MockServices.kt:71-75 | a new store has no tables |
| `MockServices.MockStorageService.GetMap` | src/test/kotlin/core/MockServices.kt:83-92 | on first use of a name, a fresh empty table is added under it; later, the same table object is returned and the table map is unchanged; other tables are never touched |
| `MockServices.MockStorageService.ValidatedTransactions` | src/test/kotlin/core/MockServices.kt:77-78 | get-or-create of the table named "validated-transactions" |
| `MockServices.GetMapIsGetOrCreate` | src/test/kotlin/core/MockServices.kt:83-92 | two calls with one name give the same empty table; another name gives a different table |
| `MockServices.GetContract` | src/test/kotlin/core/MockServices.kt:96-98 | succeeds iff the hash is registered, with the registered program; otherwise fails with unknown-contract |
| `MockServices.PartyFromKey` | src/test/kotlin/core/MockServices.kt:55-56 | the party registered for the key, or null iff none is |
| `MockServices.MockWalletService.CurrentWallet` | src/test/kotlin/core/MockServices.kt:66-67 | the wallet holds exactly the given states; it has a balance in a currency iff those states hold cash in it |
| `MockServices.Configured` | src/test/kotlin/core/MockServices.kt:112-123 | a configured collaborator is returned as is; a missing one fails with unsupported-operation |
| `MockServices.MockServices.WalletService` | src/test/kotlin/core/MockServices.kt:112-113 | succeeds iff a wallet is configured, returning it; otherwise fails with unsupported-operation |
| `MockServices.MockServices.KeyManagementService` | src/test/kotlin/core/MockServices.kt:114-115 | succeeds iff a key manager is configured, returning it; otherwise fails with unsupported-operation |
| `MockServices.MockServices.IdentityService` | src/test/kotlin/core/MockServices.kt:116-117 | succeeds iff an identity service is configured, returning it; otherwise fails with unsupported-operation |
| `MockServices.MockServices.NetworkService` | src/test/kotlin/core/MockServices.kt:118-119 | succeeds iff a messaging service is configured, returning it; otherwise fails with unsupported-operation |
| `MockServices.MockServices.NetworkMapService` | src/test/kotlin/core/MockServices.kt:120-121 | succeeds iff a network map is configured, returning it; otherwise fails with unsupported-operation |
| `MockServices.MockServices.StorageService` | src/test/kotlin/core/MockServices.kt:122-123 | succeeds iff a storage service is configured, returning it; otherwise fails with unsupported-operation |
| `MockServices.AccessorsReturnConfigured` | src/test/kotlin/core/MockServices.kt:112-123 | each of the six accessors returns its configured collaborator, or fails with unsupported-operation when there is none |

## Left out

- The reactive plumbing (`Observable`, `ObservableList`, the `observable(...)` delegate, `foldToObservableList` subscriptions) is not modelled. One fold step and the fold over a list of updates stand for it.
- The vault's `produced` collection is a set in the source. Here it is a sequence in its iteration order, so "appended in the given order" has a meaning.
- `StateAndRef.state` is a transaction state that wraps the data and its notary. Here the wrapper is flattened and `state` is the data itself.
- `cashBalances` sums with arbitrary-precision naturals. The 64-bit quantity of an amount, and an overflow in summing, are not modelled.
- The relevance rule of the real wallet service (owner or participant keys) is not visible. It is a parameter; the test scenarios use "owned by, or a participant is, our fresh key".
- The wallet does not check that transaction ids are unique. So "a consumed reference never reappears" holds only while ids do not repeat. No lemma states it.
- The `splits` wallet test is not modelled: its amounts come from a seeded random split that is not part of this model.
- Key generation, transaction building and signing, `verifyToLedgerTransaction` and the identity of `MEGA_CORP` are foreign calls. Transactions are given directly as id, inputs and outputs.
- `DummyTimestamper.timestamp` does not deserialize bytes or sign. It takes the command list and returns pass or one of the failures.
- The value of `TEST_TX_TIME` is not in this source. The fixed clock is a constructor argument.
- `java.time` clocks, instants and durations are plain integers in nanoseconds.
- `synchronized`, synchronized maps and thread safety are not modelled. `getMap` is single-threaded get-or-create.
- `RecordingMap` logging is not modelled; `recordingAs` is kept but has no effect. Logging in general is left out.
- `MockStorageService`'s generated legal identity key and party are not modelled (key generation). Its `contractPrograms` is `GetContract` over a given program map.
- `MockContractFactory.get` returns the registered program itself: reflective instantiation (`newInstance`) is a foreign call.
- `TEST_KEYS_TO_CORP_MAP` and `TEST_PROGRAM_MAP` are parameters.
- The service hub's default collaborators (`MockIdentityService`, `MockStorageService()`, `MockNetworkMap()`) are not filled in. Collaborator types are type parameters.
- The `DataVendingService` network registration in the hub's initialiser is not modelled.
- `MockKeyManagementService`'s default `nextKeys` (one generated key pair) is not modelled; the constructor takes the list.
