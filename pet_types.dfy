/** The value types of the pet pallet: its ids, its pet record, its events,
    its errors and the calls that can be dispatched to it. */
module PetTypes {

  /** An account. The pallet only compares accounts and uses them as map
      keys, so any type with equality would do. */
  type AccountId = nat

  /** `PetId` is a `u32`, chosen freely by the minting account. */
  type PetId = x: int | 0 <= x < 0x1_0000_0000

  /** The chain's block number. The pallet only stores and copies it; it does
      no arithmetic on it, so its width does not matter here. */
  type BlockNumber = nat

  datatype Species = Turtle | Snake | Rabbit

  /** The record kept for a pet. Its name is a byte vector whose length is
      bounded by the pallet's `StringLimit`; that bound is enforced when the
      call is decoded, so the dispatchables receive it as a precondition. */
  datatype PetInfo = PetInfo(name: seq<bv8>, species: Species)

  /** The events the pallet deposits, one per successful dispatch. The
      variant names keep the spelling of the pallet. */
  datatype Event =
    | PetMinted(owner: AccountId, id: PetId)
    | PetTransfered(from: AccountId, to: AccountId, id: PetId)
    | PetFeeded(owner: AccountId, id: PetId)
    | PetSleeped(owner: AccountId, id: PetId)

  datatype Error = AccountAlreadyHasPet | AccountHasNoPet

  /** The outcome of a dispatchable: success, or one of the pallet's errors. */
  datatype DispatchResult = Ok | Err(error: Error)

  datatype Option<T> = None | Some(value: T)

  /** The pallet's four dispatchables with their arguments (call indices 0 to 3).
      The signed origin is passed separately, as the sender. */
  datatype Call =
    | Mint(name: seq<bv8>, species: Species, id: PetId)
    | Transfer(receiver: AccountId)
    | Feed
    | Sleep
}
