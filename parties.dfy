/**
 * The party cache in browser storage: storing the imported parties under one
 * key, reading them back through the (external) JSON converter, dropping an
 * entry the converter rejects, and the list of user parties.
 */
module Parties {
  import opened Wrappers
  import opened Seqs
  import opened Daml

  /** A party's login details as the JSON file lists them. */
  datatype PartyDetails = PartyDetails(party: Party, partyName: string, token: string)

  /** What `convertPartiesJson` answers: the parties (possibly undefined) and an error, if any. */
  datatype Conversion = Conversion(parties: Option<seq<PartyDetails>>, error: Option<string>)

  const PartiesStorageKey: string := "imported_parties"

  const AdminPartyName: string := "UserAdmin"

  /** `parties.find(p => p.partyName === 'UserAdmin')`. */
  function AdminParty(parties: seq<PartyDetails>): (r: Option<PartyDetails>)
    ensures r.None? <==> forall i :: 0 <= i < |parties| ==> parties[i].partyName != AdminPartyName
    ensures r.Some? ==>
      exists i :: 0 <= i < |parties| && parties[i] == r.value && r.value.partyName == AdminPartyName &&
        forall j :: 0 <= j < i ==> parties[j].partyName != AdminPartyName
  {
    Find(parties, (p: PartyDetails) => p.partyName == AdminPartyName)
  }

  /** Party `p` survives the filter: it is neither the admin party (if any) nor the public party. */
  predicate IsUserParty(p: PartyDetails, admin: Option<PartyDetails>, publicParty: Party) {
    (admin.None? || p.party != admin.value.party) && p.party != publicParty
  }

  /**
   * The filter of `retrieveUserParties`: drops every entry whose party is that of
   * the first 'UserAdmin' entry, and every entry of the public party; keeps the
   * rest in order.
   */
  function UserParties(parties: seq<PartyDetails>, publicParty: Party): (r: seq<PartyDetails>)
    ensures forall p :: p in r <==> p in parties && IsUserParty(p, AdminParty(parties), publicParty)
    ensures AdminParty(parties).None? ==> forall p :: p in r <==> p in parties && p.party != publicParty
    ensures AdminParty(parties).Some? ==> forall p :: p in r ==> p.party != AdminParty(parties).value.party
  {
    var admin := AdminParty(parties);
    Filter(parties, (p: PartyDetails) => IsUserParty(p, admin, publicParty))
  }

  /** Dropping entries keeps the survivors' order: the filter distributes over concatenation. */
  lemma UserPartiesKeepOrder(a: seq<PartyDetails>, b: seq<PartyDetails>, publicParty: Party)
    ensures var admin := AdminParty(a + b);
      UserParties(a + b, publicParty) ==
        Filter(a, (p: PartyDetails) => IsUserParty(p, admin, publicParty)) +
        Filter(b, (p: PartyDetails) => IsUserParty(p, admin, publicParty))
  {
    var admin := AdminParty(a + b);
    FilterConcat(a, b, (p: PartyDetails) => IsUserParty(p, admin, publicParty));
  }

  /** Nothing is dropped when no entry is the admin or the public party. */
  lemma UserPartiesKeepsAll(parties: seq<PartyDetails>, publicParty: Party)
    requires AdminParty(parties).None?
    requires forall i :: 0 <= i < |parties| ==> parties[i].party != publicParty
    ensures UserParties(parties, publicParty) == parties
  {
    var admin := AdminParty(parties);
    FilterKeepsAll(parties, (p: PartyDetails) => IsUserParty(p, admin, publicParty));
  }

  /**
   * The party cache over `localStorage`, with the configured ledger id and public
   * party. `stringify` stands for JSON.stringify and `convert` for
   * convertPartiesJson(json, ledgerId, validate); both are external.
   */
  class PartyCache {
    var storage: map<string, string>

    const ledgerId: string
    const publicParty: Party
    const stringify: seq<PartyDetails> -> string
    const convert: (string, string, bool) -> Conversion

    constructor (storage: map<string, string>, ledgerId: string, publicParty: Party,
                 stringify: seq<PartyDetails> -> string, convert: (string, string, bool) -> Conversion)
      ensures this.storage == storage && this.ledgerId == ledgerId && this.publicParty == publicParty
      ensures this.stringify == stringify && this.convert == convert
    {
      this.storage := storage;
      this.ledgerId := ledgerId;
      this.publicParty := publicParty;
      this.stringify := stringify;
      this.convert := convert;
    }

    /** `localStorage.getItem(key)` is null or "": nothing usable is cached. */
    static predicate NothingCached(stored: map<string, string>) {
      PartiesStorageKey !in stored || stored[PartiesStorageKey] == ""
    }

    /** The converter's answer for the cached text. */
    function Converted(stored: map<string, string>, validate: bool): Conversion
      requires !NothingCached(stored)
    {
      convert(stored[PartiesStorageKey], ledgerId, validate)
    }

    /**
     * The cached entry is invalid and gets removed: with validation on, the converter
     * reported an error, that is a non-empty error text (`if (error)` ignores "").
     */
    function Rejected(stored: map<string, string>, validate: bool): bool {
      && !NothingCached(stored)
      && Converted(stored, validate).error.Some? && Converted(stored, validate).error.value != ""
      && validate
    }

    /** What `retrieveParties(validate)` answers for storage contents `stored`. */
    function Retrieved(stored: map<string, string>, validate: bool): (r: Option<seq<PartyDetails>>)
      ensures NothingCached(stored) ==> r.None?
      ensures !NothingCached(stored) && !validate ==> r == Converted(stored, validate).parties
      ensures !NothingCached(stored) && Converted(stored, validate).error in {None, Some("")} ==>
        r == Converted(stored, validate).parties
    {
      if NothingCached(stored) || Rejected(stored, validate) then None
      else Converted(stored, validate).parties
    }

    /** `storeParties`: writes the serialised list under 'imported_parties' and nothing else. */
    method StoreParties(parties: seq<PartyDetails>)
      modifies this
      ensures storage == old(storage)[PartiesStorageKey := stringify(parties)]
      ensures forall k :: k != PartiesStorageKey ==> (k in storage <==> k in old(storage))
      ensures forall k :: k in storage && k != PartiesStorageKey ==> storage[k] == old(storage)[k]
    {
      storage := storage[PartiesStorageKey := stringify(parties)];
    }

    /**
     * `retrieveParties(validate)`: undefined, touching nothing, when nothing is
     * cached; when the converter reports an error and validation is on, removes
     * the entry and answers undefined; otherwise answers the converted parties.
     */
    method RetrieveParties(validate: bool) returns (r: Option<seq<PartyDetails>>)
      modifies this
      ensures r == Retrieved(old(storage), validate)
      ensures NothingCached(old(storage)) ==> r.None? && storage == old(storage)
      ensures Rejected(old(storage), validate) ==> r.None? && storage == old(storage) - {PartiesStorageKey}
      ensures !NothingCached(old(storage)) && !Rejected(old(storage), validate) ==>
        r == Converted(old(storage), validate).parties && storage == old(storage)
    {
      if PartiesStorageKey !in storage || storage[PartiesStorageKey] == "" {
        return None;
      }
      var conversion := convert(storage[PartiesStorageKey], ledgerId, validate);
      if conversion.error.Some? && conversion.error.value != "" {
        if validate {
          storage := storage - {PartiesStorageKey};
          return None;
        }
      }
      return conversion.parties;
    }

    /**
     * `retrieveUserParties()`: retrieves with validation on, treats an undefined
     * answer as the empty list, and drops the admin and public parties.
     */
    method RetrieveUserParties() returns (r: seq<PartyDetails>)
      modifies this
      ensures r == UserParties(Retrieved(old(storage), true).GetOr([]), publicParty)
      ensures Retrieved(old(storage), true).None? ==> r == []
      ensures storage == if Rejected(old(storage), true) then old(storage) - {PartiesStorageKey} else old(storage)
    {
      var parties := RetrieveParties(true);
      r := UserParties(parties.GetOr([]), publicParty);
    }
  }

  /** Storing then retrieving hands the stored text to the converter. */
  lemma StoreThenRetrieve(cache: PartyCache, stored: map<string, string>, parties: seq<PartyDetails>, validate: bool)
    requires cache.stringify(parties) != ""
    ensures var after := stored[PartiesStorageKey := cache.stringify(parties)];
      var c := cache.convert(cache.stringify(parties), cache.ledgerId, validate);
      cache.Retrieved(after, validate) == if c.error.Some? && c.error.value != "" && validate then None else c.parties
  {
  }
}
