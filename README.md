# NFT registry of the `nfts` pallet

This project models the core of the `nfts` pallet: the NFT registry state machine behind the `NFTs` and
`LockableNFTs` traits. The registry maps each sequentially allocated `NftId` to a record with an owner, a
lock flag, an opaque byte payload and an optional series id. It also maps each series id to a `completed`
flag. The operations are:

- `create` allocates the next id for an unlocked NFT. A series named for the first time is created as not
  completed.
- `lock` and `set_owner` fail with `InvalidNFTId` for an id that was never allocated. They fail with
  `Locked` for a locked NFT. A failure leaves storage untouched (the tests' `assert_noop!`).
- `unlock` clears the flag and returns whether the NFT exists.
- `finish_series` marks a series completed.
- `locked`, `owner` and `is_series_completed` are queries. They return `None` for an unknown id.

The pallet's implementation is not modelled directly; the behaviour is what the trait tests in
`pallets/nfts/src/tests/traits.rs` assert, plus the decisions listed below.

Layout:

- `nft_types.dfy`: identifiers, the NFT record, the error kinds and `Outcome` (Rust's `DispatchResult`).
- `registry_store.dfy`: the storage as a value (`Store`), its consistency invariant `Valid` and the
  queries. `Valid` says that ids `0 .. nextId-1` are exactly the allocated ones and that every series an
  NFT names exists.
- `registry_ops.dfy`: each mutating operation as a transition function (store before, store after, and
  the result), plus serialised call streams (`Run`) and lemmas about every stream.
- `nfts_pallet.dfy`: class `Nfts`, the storage updated in place. Its fields are the two maps and the id
  counter. Its methods are proved to perform exactly the transitions of `registry_ops.dfy`.
- `traits_tests.dfy`: one method per test of the suite. Each starts from an empty genesis store and
  drives the class the way the test does. Its postcondition states at least the test's assertions.

Decisions where the tests say nothing:

- Ids start at 0 in an empty genesis store. They are unbounded naturals.
- `create` with a series that already exists leaves that series' flag as it is. It neither rejects the
  call nor resets the flag.
- `finish_series` on a series that is already completed succeeds, and the series stays completed.
- `finish_series` on an unknown series fails with `SeriesNotFound` and changes nothing.
- `is_series_completed` of an NFT without a series is `Some(false)`.

## Model

| member | source | states |
|---|---|---|
| `RegistryOps.Create` | pallets/nfts/src/tests/traits.rs:17 | the new id is the allocator's value, which was not in use; afterwards the id's owner is the creator, it is unlocked, it holds the given payload and series; a new series starts not completed; existing records and series flags are untouched; consistency is preserved |
| `RegistryOps.Lock` | pallets/nfts/src/tests/traits.rs:17-37 | succeeds exactly on an existing unlocked NFT and then it is locked with only that flag changed; `InvalidNFTId` exactly for an unknown id, `Locked` exactly for a locked NFT, and on failure the store is unchanged |
| `RegistryOps.Unlock` | pallets/nfts/src/tests/traits.rs:50-64 | returns true exactly when the NFT exists, and then it is unlocked with only that flag changed (so a second unlock again returns true); an unknown id returns false and changes nothing |
| `RegistryOps.SetOwner` | pallets/nfts/src/tests/traits.rs:101-121 | succeeds exactly on an existing unlocked NFT and then `owner` of it is the new account, only the owner changed; `Locked` exactly for a locked NFT, `InvalidNFTId` exactly for an unknown id, store unchanged on failure |
| `RegistryOps.FinishSeries` | pallets/nfts/src/tests/traits.rs:159-160 | succeeds exactly for an existing series and then every NFT of that series reports completed; only that flag changes; an unknown series fails with no change |
| `RegistryStore.Store.Data` | pallets/nfts/src/tests/traits.rs:19 | on a consistent store the record is absent exactly for ids not yet allocated, and an allocated id yields its stored record |
| `RegistryStore.Store.Locked` | pallets/nfts/src/tests/traits.rs:78-88 | on a consistent store the result is `None` exactly for ids not yet allocated |
| `RegistryStore.Store.Owner` | pallets/nfts/src/tests/traits.rs:135-143 | on a consistent store the result is `None` exactly for ids not yet allocated |
| `RegistryStore.Store.IsSeriesCompleted` | pallets/nfts/src/tests/traits.rs:158-168 | `None` exactly for ids not yet allocated; an NFT with a series reports that series' completed flag; an NFT without a series reports `Some(false)` |
| `RegistryStore.Empty` | pallets/nfts/src/tests/traits.rs:61-64 | the genesis store holds no NFT and no series and is consistent |
| `RegistryOps.RunPreservesValid` | pallets/nfts/src/tests/traits.rs:37 | every stream of calls keeps the store consistent: allocated ids are exactly those below the counter, series references resolve |
| `RegistryOps.RunAllocatesSequentially` | pallets/nfts/src/tests/traits.rs:17 | after any stream the id counter has advanced by exactly the number of creations in it |
| `RegistryOps.RunKeepsRecord` | pallets/nfts/src/tests/traits.rs:157-160 | no stream deletes an NFT or changes its payload or its series |
| `RegistryOps.RunCompletedIsPermanent` | pallets/nfts/src/tests/traits.rs:159-160 | a completed series stays completed under every stream |
| `RegistryOps.RunLockFreezesOwner` | pallets/nfts/src/tests/traits.rs:116-118 | a locked NFT stays locked and keeps its owner under every stream that does not unlock it |
| `NftsPallet.Nfts.constructor` | pallets/nfts/src/tests/traits.rs:61-64 | the storage starts as the empty genesis store |
| `NftsPallet.Nfts.Create` | pallets/nfts/src/tests/traits.rs:17 | updates storage in place as `RegistryOps.Create` specifies and returns its id; keeps consistency |
| `NftsPallet.Nfts.Lock` | pallets/nfts/src/tests/traits.rs:18-37 | updates storage in place as `RegistryOps.Lock` specifies and returns its outcome |
| `NftsPallet.Nfts.Unlock` | pallets/nfts/src/tests/traits.rs:52-64 | updates storage in place as `RegistryOps.Unlock` specifies and returns its flag |
| `NftsPallet.Nfts.SetOwner` | pallets/nfts/src/tests/traits.rs:102-121 | updates storage in place as `RegistryOps.SetOwner` specifies and returns its outcome |
| `NftsPallet.Nfts.FinishSeries` | pallets/nfts/src/tests/traits.rs:159 | updates storage in place as `RegistryOps.FinishSeries` specifies and returns its outcome |
| `TraitsTests.LockHappy` | pallets/nfts/src/tests/traits.rs:9-21 | lock of a fresh NFT succeeds and its record is then locked |
| `TraitsTests.LockUnhappy` | pallets/nfts/src/tests/traits.rs:24-39 | a second lock fails with `Locked`, lock of id 1001 fails with `InvalidNFTId`, both leave storage unchanged |
| `TraitsTests.UnlockHappy` | pallets/nfts/src/tests/traits.rs:42-58 | unlock after lock returns true and the record is unlocked; a second unlock returns true |
| `TraitsTests.UnlockUnhappy` | pallets/nfts/src/tests/traits.rs:61-66 | unlock of id 1001 returns false and changes nothing |
| `TraitsTests.LockedHappy` | pallets/nfts/src/tests/traits.rs:69-82 | `locked` is `Some(false)` after create and `Some(true)` after lock |
| `TraitsTests.LockedUnhappy` | pallets/nfts/src/tests/traits.rs:85-90 | `locked(1001)` is `None` |
| `TraitsTests.SetOwnerHappy` | pallets/nfts/src/tests/traits.rs:93-105 | set_owner on a fresh NFT succeeds and the record's owner is the new account |
| `TraitsTests.SetOwnerUnhappy` | pallets/nfts/src/tests/traits.rs:108-123 | set_owner on a locked NFT fails with `Locked`, on id 1000 with `InvalidNFTId`, both leave storage unchanged |
| `TraitsTests.OwnerHappy` | pallets/nfts/src/tests/traits.rs:126-137 | `owner` of a fresh NFT is its creator |
| `TraitsTests.OwnerUnhappy` | pallets/nfts/src/tests/traits.rs:140-145 | `owner(1000)` is `None` |
| `TraitsTests.IsSeriesCompletedHappy` | pallets/nfts/src/tests/traits.rs:148-162 | an NFT created in a new series reports `Some(false)`; after `finish_series` succeeds it reports `Some(true)` |
| `TraitsTests.IsSeriesCompletedUnhappy` | pallets/nfts/src/tests/traits.rs:165-170 | `is_series_completed(1001)` is `None` |

## Left out

- The pallet's implementation, `mock.rs` and the `help::create` helper are not part of this model; the
  behaviour is what the trait tests assert, plus the decisions listed above.
- Capability and fee accounting that funds `create` (`.caps(...)`) is left out. `create` is always
  allowed.
- Origin authentication and authorisation are left out. `finish_series` takes the caller as an opaque
  account and does not inspect it. `create` takes the owner account directly.
- The mock runtime, `ExtBuilder`, `execute_with` and Substrate storage encoding and persistence are left
  out. Storage is in-memory maps and a counter, and genesis is empty.
- The contents of the data payload are opaque bytes. They are stored and never inspected.
- `RegistryOps.Create`: the id counter is an unbounded natural. The source's fixed-width id type and any
  overflow handling of its counter are not modelled.
- `RegistryOps.Create`: joining a series that is already completed is allowed and keeps the flag. Nothing
  in the tests says whether the source rejects this.
- `RegistryOps.FinishSeries`: the tests do not exercise an unknown series. Its failure kind,
  `SeriesNotFound`, is this model's choice.
- Burning, transfer fees and series ownership are not part of this model.
