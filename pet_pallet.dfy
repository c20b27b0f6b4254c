/** The pet pallet as it runs: its storage maps and the event log are fields
    that each dispatchable updates in place. Each method is proved to
    produce exactly the storage and outcome of the matching step function
    in PetSpec, and to keep the pallet's invariant. */
module PetPallet {
  import opened PetTypes
  import opened PetSpec

  class Pallet {
    /** `StringLimit`: the maximum length of a pet name. */
    const stringLimit: nat

    /** `PetsInfo`: account -> (pet id, pet record). */
    var petsInfo: map<AccountId, (PetId, PetInfo)>
    /** `LastFeedTime`: pet id -> block number (value query, default 0). */
    var lastFeedTime: map<PetId, BlockNumber>
    /** `LastSleepTime`: pet id -> block number (option query). */
    var lastSleepTime: map<PetId, BlockNumber>
    /** The events deposited so far, in dispatch order. */
    var events: seq<Event>

    function State(): Storage
      reads this
    {
      Storage(petsInfo, lastFeedTime, lastSleepTime, events)
    }

    ghost predicate Valid()
      reads this
    {
      Invariant(State()) && NamesWithin(State(), stringLimit)
    }

    constructor (stringLimit: nat)
      ensures Valid()
      ensures this.stringLimit == stringLimit
      ensures State() == Genesis
    {
      this.stringLimit := stringLimit;
      petsInfo, lastFeedTime, lastSleepTime := map[], map[], map[];
      events := [];
      GenesisInvariant();
    }

    /** `mint` (call index 0). */
    method Mint(sender: AccountId, name: seq<bv8>, species: Species, id: PetId) returns (r: DispatchResult)
      requires Valid()
      requires |name| <= stringLimit
      modifies this
      ensures Valid()
      ensures (State(), r) == MintStep(old(State()), sender, name, species, id)
    {
      ghost var s0 := State();
      if sender in petsInfo {
        return Err(AccountAlreadyHasPet);
      }
      var pet := PetInfo(name, species);
      petsInfo := petsInfo[sender := (id, pet)];
      events := events + [PetMinted(sender, id)];
      r := Ok;
      MintPreservesInvariant(s0, sender, name, species, id);
      DispatchKeepsNamesWithin(s0, sender, 0, Call.Mint(name, species, id), stringLimit);
    }

    /** `transfer` (call index 1). */
    method Transfer(sender: AccountId, receiver: AccountId) returns (r: DispatchResult)
      requires Valid()
      modifies this
      ensures Valid()
      ensures (State(), r) == TransferStep(old(State()), sender, receiver)
    {
      ghost var s0 := State();
      if sender !in petsInfo {
        return Err(AccountHasNoPet);
      }
      var (id, pet) := petsInfo[sender];
      if receiver in petsInfo {
        return Err(AccountAlreadyHasPet);
      }
      petsInfo := petsInfo[receiver := (id, pet)];
      petsInfo := petsInfo - {sender};
      events := events + [PetTransfered(sender, receiver, id)];
      r := Ok;
      TransferPreservesInvariant(s0, sender, receiver);
      DispatchKeepsNamesWithin(s0, sender, 0, Call.Transfer(receiver), stringLimit);
    }

    /** `feed` (call index 2), at block `now`. */
    method Feed(sender: AccountId, now: BlockNumber) returns (r: DispatchResult)
      requires Valid()
      modifies this
      ensures Valid()
      ensures (State(), r) == FeedStep(old(State()), sender, now)
    {
      ghost var s0 := State();
      if sender !in petsInfo {
        return Err(AccountHasNoPet);
      }
      var (id, _) := petsInfo[sender];
      lastFeedTime := lastFeedTime[id := now];
      events := events + [PetFeeded(sender, id)];
      r := Ok;
      FeedPreservesInvariant(s0, sender, now);
    }

    /** `sleep` (call index 3), at block `now`. */
    method Sleep(sender: AccountId, now: BlockNumber) returns (r: DispatchResult)
      requires Valid()
      modifies this
      ensures Valid()
      ensures (State(), r) == SleepStep(old(State()), sender, now)
    {
      ghost var s0 := State();
      if sender !in petsInfo {
        return Err(AccountHasNoPet);
      }
      var (id, _) := petsInfo[sender];
      lastSleepTime := lastSleepTime[id := now];
      events := events + [PetSleeped(sender, id)];
      r := Ok;
      SleepPreservesInvariant(s0, sender, now);
    }
  }
}
