# Pet pallet ledger

This project models the `pet` pallet of SuperPetChain. The pallet is a small ledger. Each account owns at most one pet, and each pet is an id plus a bounded name and a species. The ledger also records, per pet id, the block at which the pet was last fed and last put to sleep. Four dispatchables act on it:

- `mint` creates the sender's pet.
- `transfer` moves the sender's pet to another account.
- `feed` and `sleep` stamp the current block on the sender's pet id.

Each call either fails with a typed error (`AccountAlreadyHasPet`, `AccountHasNoPet`) and writes nothing, or performs its writes and deposits exactly one event.

The model has three modules:

- `PetTypes` (`pet_types.dfy`) holds the value types: `Species`, `PetInfo`, `Event`, `Error`, the dispatch result and the `Call` enum of the four dispatchables.
- `PetSpec` (`pet_spec.dfy`) is the pallet as a pure state machine. `Storage` is a value holding the three storage maps (`PetsInfo`, `LastFeedTime`, `LastSleepTime`) and the event log. Each dispatchable is a step function, and `Dispatch` and `Run` apply calls one at a time. It also holds the invariant that every reachable storage satisfies, and the lemmas about all of these.
- `PetPallet` (`pet_pallet.dfy`) is the pallet as it runs. The class `Pallet` has the three maps and the event log as fields. Its methods update them in place, as the dispatchables do. Each method is proved to produce exactly the storage and the result of its step function, and to keep the invariant.

The two timestamp maps differ in how a missing key reads. `LastFeedTime` is a value query, so a missing id reads as block 0 (`FeedTimeOf`). `LastSleepTime` is an option query, so a missing id reads as absent (`SleepTimeOf`).

The doc comment of `mint` (lib.rs:83-84) says that one user can have many pets and that pet ids are unique. The code does neither. `mint` refuses a sender who already has a pet (lib.rs:99), and it never compares the id with other accounts' pets. The model follows the code: one pet per account, and ids may repeat across accounts (`MintIdsNotUnique`).

The sender (the signed origin) and the current block number are inputs of each operation.

## Model

| member | source | states |
|---|---|---|
| PetSpec.FeedTimeOf | projects/48-SuperPetGame/src/SuperPetChain/pallets/pet/src/lib.rs:49-52 | reading LastFeedTime (a value query) gives 0 for an id with no entry and the stored block number otherwise |
| PetSpec.SleepTimeOf | projects/48-SuperPetGame/src/SuperPetChain/pallets/pet/src/lib.rs:54-56 | reading LastSleepTime (an option query) gives nothing exactly when the id has no entry, and otherwise the stored block number |
| PetSpec.MintStep | projects/48-SuperPetGame/src/SuperPetChain/pallets/pet/src/lib.rs:91-111 | mint fails with AccountAlreadyHasPet exactly when the sender already has an entry, and then the storage and log are unchanged; on success the sender maps to (id, PetInfo{name, species}), every other account's entry and both time maps are unchanged, and exactly PetMinted(sender, id) is appended |
| PetSpec.TransferStep | projects/48-SuperPetGame/src/SuperPetChain/pallets/pet/src/lib.rs:119-134 | a sender with no pet gets AccountHasNoPet; otherwise a receiver with a pet gets AccountAlreadyHasPet; both failures leave the state unchanged; success happens exactly when the sender has a pet and the receiver has none; the receiver then holds the sender's old (id, pet), the sender's key is gone, other accounts and both time maps are untouched, and exactly PetTransfered(sender, receiver, id) is appended; a transfer to oneself never succeeds |
| PetSpec.FeedStep | projects/48-SuperPetGame/src/SuperPetChain/pallets/pet/src/lib.rs:141-150 | feed fails with AccountHasNoPet exactly when the sender has no pet, writing nothing; on success the feed time of the sender's pet id becomes now, no other feed time, no PetsInfo entry and no sleep time changes, and exactly PetFeeded(sender, id) is appended |
| PetSpec.SleepStep | projects/48-SuperPetGame/src/SuperPetChain/pallets/pet/src/lib.rs:157-166 | sleep fails with AccountHasNoPet exactly when the sender has no pet, writing nothing; on success the sleep time of the sender's pet id is present and equal to now, nothing else changes, and exactly PetSleeped(sender, id) is appended |
| PetSpec.Dispatch | projects/48-SuperPetGame/src/SuperPetChain/pallets/pet/src/lib.rs:89-166 | a call succeeds exactly when its precondition holds; a failed call changes nothing; a successful call appends exactly one event: PetMinted with the sender and the minted id, or PetTransfered, PetFeeded or PetSleeped with the sender (and receiver) and the id of the pet the sender held |
| PetSpec.TransferConservesPetCount | projects/48-SuperPetGame/src/SuperPetChain/pallets/pet/src/lib.rs:125-131 | transfer leaves the number of PetsInfo entries unchanged |
| PetSpec.TransferBackRestores | projects/48-SuperPetGame/src/SuperPetChain/pallets/pet/src/lib.rs:125-131 | after a successful A to B transfer, B to A succeeds and restores PetsInfo to its value before both, with the two PetTransfered events appended |
| PetSpec.MintIdsNotUnique | projects/48-SuperPetGame/src/SuperPetChain/pallets/pet/src/lib.rs:99-106 | two distinct accounts without pets can both mint the same id, and both then hold it |
| PetSpec.LaterActivityOverwrites | projects/48-SuperPetGame/src/SuperPetChain/pallets/pet/src/lib.rs:141-166 | feeding (sleeping) at t1 and then at t2 leaves the feed (sleep) time at t2 |
| PetSpec.GenesisInvariant | projects/48-SuperPetGame/src/SuperPetChain/pallets/pet/src/lib.rs:45-56 | the empty storage satisfies the invariant, has no overlong names and no timestamps |
| PetSpec.MintPreservesInvariant | projects/48-SuperPetGame/src/SuperPetChain/pallets/pet/src/lib.rs:99-108 | mint keeps the invariant: pets equal minted events, a timestamp key exists exactly for fed (slept) ids, and timestamps belong to held ids |
| PetSpec.TransferPreservesInvariant | projects/48-SuperPetGame/src/SuperPetChain/pallets/pet/src/lib.rs:125-131 | transfer keeps the invariant; the moved pet's id is still held, by the receiver |
| PetSpec.FeedPreservesInvariant | projects/48-SuperPetGame/src/SuperPetChain/pallets/pet/src/lib.rs:143-147 | feed keeps the invariant; the newly stamped id is the sender's held pet id and is now recorded as fed |
| PetSpec.SleepPreservesInvariant | projects/48-SuperPetGame/src/SuperPetChain/pallets/pet/src/lib.rs:159-163 | sleep keeps the invariant; the newly stamped id is the sender's held pet id and is now recorded as slept |
| PetSpec.DispatchPreservesInvariant | projects/48-SuperPetGame/src/SuperPetChain/pallets/pet/src/lib.rs:89-166 | every dispatch keeps the invariant |
| PetSpec.DispatchKeepsNamesWithin | projects/48-SuperPetGame/src/SuperPetChain/pallets/pet/src/lib.rs:41-43 | every stored name stays within StringLimit when minted names are |
| PetSpec.DispatchKeepsTimesNotAfter | projects/48-SuperPetGame/src/SuperPetChain/pallets/pet/src/lib.rs:145-161 | with a non-decreasing block number, no stored feed or sleep time lies after the current block |
| PetSpec.RunPreservesInvariant | projects/48-SuperPetGame/src/SuperPetChain/pallets/pet/src/lib.rs:89-166 | any sequence of dispatches keeps the invariant |
| PetSpec.ReachableStorage | projects/48-SuperPetGame/src/SuperPetChain/pallets/pet/src/lib.rs:49-56 | after any sequence of calls from empty storage: the number of pets equals the number of PetMinted events; an id never fed reads feed time 0; an id's sleep time is absent exactly when it was never slept, and when present it belongs to a pet some account holds |
| PetPallet.Pallet.constructor | projects/48-SuperPetGame/src/SuperPetChain/pallets/pet/src/lib.rs:45-56 | the pallet starts with empty maps, an empty event log and the configured StringLimit, and satisfies its invariant |
| PetPallet.Pallet.Mint | projects/48-SuperPetGame/src/SuperPetChain/pallets/pet/src/lib.rs:91-111 | the in-place mint yields exactly MintStep's new storage and result, and keeps the invariant |
| PetPallet.Pallet.Transfer | projects/48-SuperPetGame/src/SuperPetChain/pallets/pet/src/lib.rs:119-134 | the in-place transfer (insert for the receiver, then remove the sender) yields exactly TransferStep's new storage and result, and keeps the invariant |
| PetPallet.Pallet.Feed | projects/48-SuperPetGame/src/SuperPetChain/pallets/pet/src/lib.rs:141-150 | the in-place feed yields exactly FeedStep's new storage and result, and keeps the invariant |
| PetPallet.Pallet.Sleep | projects/48-SuperPetGame/src/SuperPetChain/pallets/pet/src/lib.rs:157-166 | the in-place sleep yields exactly SleepStep's new storage and result, and keeps the invariant |

## Left out

- Origin handling (`ensure_signed`) is not modelled. The sender is a plain input, so the `BadOrigin` failure of an unsigned origin is not modelled.
- The block number is a plain input `now`. In the model it is unbounded, because the pallet only stores it.
- `AccountId` is modelled as a natural number. The pallet only compares accounts and uses them as keys.
- The length bound on names (`BoundedVec<u8, StringLimit>`) is checked when a call is decoded. Here it is a precondition of `Pallet.Mint`.
- Storage hashers, SCALE encoding, weights (all 0), the `RuntimeEvent` conversion and the storage-layer transaction are not modelled. Every failing path in the pallet returns before its first write, so rollback never has anything to undo.
- The event log is one append-only sequence. The system pallet clears its events at the start of each block, and that clearing is outside this pallet. So the count lemmas are stated over the log the pallet has appended since genesis.
- The client's `mint` in `SuperPetGame/src/menu.rs` is not part of this model: it is a network client outside the pallet. It returns `Err` when connecting, submitting, reading a status, fetching the block's events or decoding them fails. Otherwise it returns `Ok(())` once the status stream ends, whether or not a `PetMinted` event was found, and it reports that only by printing a message. It ignores `Ready` and `InBlock` and prints any other status.
- The Bevy menus, scenes and input handling in `menu.rs`, `game.rs` and `main.rs` are presentation code and are not part of this model.
- Concurrency is out of scope: the pallet dispatches one call at a time.
