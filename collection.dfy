/**
 * The example collection (erc721-example/src/lib.rs): a front end on the
 * library ledger that keeps a token-id counter under the short symbol "id"
 * and a base URI under "base", both straight in the Instance tier.
 *
 * initialize stores the base URI and initializes the ledger as
 * "Non-Fungible Token" / "NFT". mint asks the recipient for authorization,
 * takes the counter's value as the id, stores the counter plus one, writes
 * the base URI as that token's URI — into the Persistent tier, whereas
 * token_uri reads `DatakeyMetadata::Uri` through its routing, which is the
 * Instance tier — and mints. The other entry points hand their arguments to
 * the ledger unchanged.
 */
module Collection {
  import opened Types
  import opened Store
  import opened Ledger
  import opened Frames
  import opened Facts
  import opened Minting
  import opened Erc721

  const COLLECTION_NAME: string := "Non-Fungible Token"
  const COLLECTION_SYMBOL: string := "NFT"

  /** `env.storage().instance().get(&ID).unwrap_or(0)`: the id the next mint hands out. */
  function NextId(s: Tiers): nat
  {
    var n := AsNum(Get(s, Instance, Short(Id)));
    if n.Some? then n.value else 0
  }

  /** The base URI under "base"; a value of another type reads as absent. */
  function BaseUri(s: Tiers): Option<string>
  {
    AsText(Get(s, Instance, Short(Base)))
  }

  /** initialize: base := uri, then the ledger's initialize; a failure rolls the base write back. */
  function CollectionInitializeOn(b: Build, s: Tiers, admin: Address, uri: string): Result<Tiers>
  {
    InitializeOn(b, Put(s, Instance, Short(Base), Text(uri)), admin, COLLECTION_NAME, COLLECTION_SYMBOL)
  }

  /**
   * The collection's own part of mint: counter := id + 1, then Persistent
   * `Uri(id)` := the base URI. None when there is no base URI, where the
   * source's `unwrap` aborts.
   */
  function Prepared(s: Tiers): Option<Tiers>
  {
    var id := NextId(s);
    var s1 := Put(s, Instance, Short(Id), Num(id + 1));
    match BaseUri(s1)
    case None => None
    case Some(base) => Some(Put(s1, Persistent, Metadata(Uri(id)), Text(base)))
  }

  /** mint: the collection's own writes, then the ledger's mint of the counter's old value. */
  function CollectionMintOn(b: Build, s: Tiers, to: Address): Result<Tiers>
  {
    match Prepared(s)
    case None => Err(Abort(Missing))
    case Some(s2) => MintOn(b, s2, to, NextId(s))
  }

  /** Successive mints for the recipients `tos`, in order, stopping at the first failure. */
  function CollectionMintAll(b: Build, s: Tiers, tos: seq<Address>): Result<Tiers>
  {
    RunMints((s': Tiers, to: Address) => CollectionMintOn(b, s', to), s, tos)
  }

  /** No URI entry is in the Instance tier, the one token_uri reads. */
  ghost predicate NoInstanceUris(s: Tiers)
  {
    forall t: TokenId :: Get(s, Instance, Metadata(Uri(t))) == None
  }

  /** The collection's own writes keep the ledger's invariants and the absence of Instance URIs. */
  lemma OwnWriteKeepsLedger(b: Build, s: Tiers, p: Slot, v: Value)
    requires Healthy(b, s) && !p.1.Data?
    requires !(p.0 == Instance && p.1.Metadata? && p.1.meta.Uri?)
    ensures Healthy(b, Put(s, p.0, p.1, v))
    ensures NoInstanceUris(s) ==> NoInstanceUris(Put(s, p.0, p.1, v))
  {
    ForeignWriteKeepsHealthy(b, s, p.0, p.1, v);
  }

  /**
   * The collection's own writes before the ledger's mint: they exist exactly
   * when there is a base URI, move the counter up by one, store the base URI
   * as the token's Persistent URI, and leave the base URI, every owner, the
   * global list and map, every Instance URI and the invariants as they were.
   */
  lemma PreparedWrites(b: Build, s: Tiers)
    requires b.variant == Library
    ensures Prepared(s).Some? <==> BaseUri(s).Some?
    ensures var p := Prepared(s);
            p.Some? ==>
              && NextId(p.value) == NextId(s) + 1
              && BaseUri(p.value) == BaseUri(s)
              && Get(p.value, Persistent, Metadata(Uri(NextId(s)))) == Some(Text(BaseUri(s).value))
              && AllTokensIn(b, p.value) == AllTokensIn(b, s) && AllPositionsIn(b, p.value) == AllPositionsIn(b, s)
              && (forall t: TokenId :: OwnerIn(b, p.value, t) == OwnerIn(b, s, t))
              && (forall t: TokenId :: Get(p.value, Instance, Metadata(Uri(t))) == Get(s, Instance, Metadata(Uri(t))))
              && (Healthy(b, s) ==> Healthy(b, p.value))
  {
    var c := NextId(s);
    var s1 := Put(s, Instance, Short(Id), Num(c + 1));
    if BaseUri(s1).Some? {
      var s2 := Put(s1, Persistent, Metadata(Uri(c)), Text(BaseUri(s1).value));
      if Healthy(b, s) {
        OwnWriteKeepsLedger(b, s, (Instance, Short(Id)), Num(c + 1));
        OwnWriteKeepsLedger(b, s1, (Persistent, Metadata(Uri(c))), Text(BaseUri(s1).value));
      }
    }
  }

  /**
   * initialize fails exactly when the ledger is already initialized;
   * otherwise the base URI is stored, the admin too, and name and symbol
   * read "Non-Fungible Token" and "NFT".
   */
  lemma CollectionInitializeOutcome(b: Build, s: Tiers, admin: Address, uri: string)
    requires b.variant == Library && b.metadata
    ensures var r := CollectionInitializeOn(b, s, admin, uri);
            && (r.Err? <==> Has(s, AdminSlot(b).0, AdminSlot(b).1))
            && (r.Err? ==> r.failure == Abort(AlreadyInitialized))
            && (r.Ok? ==>
                  && BaseUri(r.value) == Some(uri)
                  && NextId(r.value) == NextId(s)
                  && AdminIn(b, r.value) == Some(admin)
                  && Ledger.Name(b, r.value) == Ok(COLLECTION_NAME)
                  && Ledger.Symbol(b, r.value) == Ok(COLLECTION_SYMBOL))
  {
    var s1 := Put(s, Instance, Short(Base), Text(uri));
    InitializeSparesSlot(b, s1, admin, COLLECTION_NAME, COLLECTION_SYMBOL, (Instance, Short(Base)));
    InitializeSparesSlot(b, s1, admin, COLLECTION_NAME, COLLECTION_SYMBOL, (Instance, Short(Id)));
  }

  /** initialize leaves the Instance tier without URI entries if it had none. */
  lemma CollectionInitializeKeepsNoUris(b: Build, s: Tiers, admin: Address, uri: string)
    requires NoInstanceUris(s)
    ensures var r := CollectionInitializeOn(b, s, admin, uri);
            r.Ok? ==> NoInstanceUris(r.value)
  {
    var s1 := Put(s, Instance, Short(Base), Text(uri));
    var r := CollectionInitializeOn(b, s, admin, uri);
    if r.Ok? {
      InitializeFrame(b, s1, admin, COLLECTION_NAME, COLLECTION_SYMBOL);
      forall t: TokenId
        ensures Get(r.value, Instance, Metadata(Uri(t))) == None
      {
        assert (Instance, Metadata(Uri(t))) !in InitializeFootprint(b);
      }
    }
  }

  /**
   * One mint in the library: it aborts without a base URI; otherwise it
   * hands the counter's value c to `to` (see Minting.Stepped) and moves the
   * counter to c + 1. With `enumerable` it may also abort for a missing
   * global list or map.
   */
  lemma CollectionMintStep(b: Build, s: Tiers, to: Address)
    requires b.variant == Library && Healthy(b, s)
    ensures var r, c := CollectionMintOn(b, s, to), NextId(s);
            && (r.Err? ==> r.failure == Abort(Missing))
            && (BaseUri(s).None? ==> r.Err?)
            && (!b.enumerable && BaseUri(s).Some? ==> r.Ok?)
            && (r.Ok? ==> NextId(r.value) == c + 1 && Stepped(b, c, s, r.value, to))
  {
    var c := NextId(s);
    PreparedWrites(b, s);
    var r := CollectionMintOn(b, s, to);
    if Prepared(s).Some? {
      var s2 := Prepared(s).value;
      LibraryMintNeverSkips(b, s2, to, c);
      if r.Ok? {
        CollectionMintOwners(b, s, to);
        MintKeepsHealthy(b, s2, to, c);
        MintSparesSlot(b, s2, to, c, (Instance, Short(Id)));
      }
    }
  }

  /** A mint keeps the base URI and stores it as the new token's URI in the Persistent tier. */
  lemma CollectionMintUri(b: Build, s: Tiers, to: Address)
    requires b.variant == Library
    ensures var r, c := CollectionMintOn(b, s, to), NextId(s);
            r.Ok? ==>
              && BaseUri(s).Some?
              && BaseUri(r.value) == BaseUri(s)
              && Get(r.value, Persistent, Metadata(Uri(c))) == Some(Text(BaseUri(s).value))
  {
    PreparedWrites(b, s);
    if Prepared(s).Some? {
      var s2 := Prepared(s).value;
      MintSparesSlot(b, s2, to, NextId(s), (Instance, Short(Base)));
      MintSparesSlot(b, s2, to, NextId(s), (Persistent, Metadata(Uri(NextId(s)))));
    }
  }

  /** The owners after one mint: the minted id goes to `to`, every other keeps its owner. */
  lemma CollectionMintOwners(b: Build, s: Tiers, to: Address)
    requires b.variant == Library && Healthy(b, s)
    ensures var r, c := CollectionMintOn(b, s, to), NextId(s);
            r.Ok? ==>
              && OwnerIn(b, r.value, c) == Some(to)
              && (forall t: TokenId :: t != c ==> OwnerIn(b, r.value, t) == OwnerIn(b, s, t))
  {
    var c := NextId(s);
    PreparedWrites(b, s);
    if Prepared(s).Some? {
      var s2 := Prepared(s).value;
      LibraryMintNeverSkips(b, s2, to, c);
      forall t: TokenId | t != c
        ensures MintOn(b, s2, to, c).Ok? ==> OwnerIn(b, MintOn(b, s2, to, c).value, t) == OwnerIn(b, s2, t)
      {
        MintSparesOtherOwners(b, s2, to, c, t);
      }
    }
  }

  /**
   * mint never writes a URI where token_uri looks: an image without
   * Instance URI entries keeps none.
   */
  lemma CollectionMintKeepsNoUris(b: Build, s: Tiers, to: Address)
    requires b.variant == Library && NoInstanceUris(s)
    ensures var r := CollectionMintOn(b, s, to);
            r.Ok? ==> NoInstanceUris(r.value)
  {
    PreparedWrites(b, s);
    var r := CollectionMintOn(b, s, to);
    if r.Ok? {
      var s2 := Prepared(s).value;
      forall t: TokenId
        ensures Get(r.value, Instance, Metadata(Uri(t))) == None
      {
        MintSparesSlot(b, s2, to, NextId(s), (Instance, Metadata(Uri(t))));
      }
    }
  }

  /**
   * Hence token_uri answers the "no uri" default for every token of a
   * collection whose Instance tier holds no URI entry, although each minted
   * token's Persistent URI entry holds the base URI.
   */
  lemma CollectionTokenUriIsDefault(b: Build, s: Tiers, t: TokenId)
    requires b.variant == Library && b.metadata && NoInstanceUris(s)
    ensures TokenUri(b, s, t) == Ok(NO_URI)
  {
    assert Get(s, Instance, Metadata(Uri(t))) == None;
  }

  /**
   * Minting for `tos` one after the other from counter c hands token c + i
   * to tos[i], so the ids are pairwise distinct; the counter ends at
   * c + |tos|.
   */
  lemma CollectionMintAllAssigns(b: Build, s: Tiers, tos: seq<Address>)
    requires b.variant == Library && Healthy(b, s)
    ensures var r := CollectionMintAll(b, s, tos);
            r.Ok? ==> NextId(r.value) == NextId(s) + |tos| && Assigned(b, NextId(s), s, r.value, tos)
  {
    var step := (s': Tiers, to: Address) => CollectionMintOn(b, s', to);
    forall s': Tiers, to: Address | Healthy(b, s') && step(s', to).Ok?
      ensures NextId(step(s', to).value) == NextId(s') + 1 && Stepped(b, NextId(s'), s', step(s', to).value, to)
    {
      CollectionMintStep(b, s', to);
    }
    RunAssigns(b, step, NextId, s, tos);
  }

  /** With a base URI and without `enumerable`, a run of mints cannot fail. */
  lemma CollectionMintAllSucceeds(b: Build, s: Tiers, tos: seq<Address>)
    requires b.variant == Library && !b.enumerable && Healthy(b, s) && BaseUri(s).Some?
    ensures CollectionMintAll(b, s, tos).Ok?
  {
    var step := (s': Tiers, to: Address) => CollectionMintOn(b, s', to);
    var inv := (s': Tiers) => Healthy(b, s') && BaseUri(s').Some?;
    forall s': Tiers, to: Address | inv(s')
      ensures step(s', to).Ok? && inv(step(s', to).value)
    {
      CollectionMintStep(b, s', to);
      CollectionMintUri(b, s', to);
    }
    RunSucceeds(step, inv, s, tos);
  }

  /**
   * The example collection over the library ledger. It shares the ledger's
   * storage: "id" and "base" are two more Instance-tier keys beside the
   * ledger's.
   */
  class NftCollection {
    const ledger: Contract

    ghost predicate Valid()
      reads this, ledger
    {
      ledger.Valid() && ledger.build.variant == Library
    }

    constructor (build: Build)
      requires build.variant == Library
      ensures Valid() && fresh(ledger)
      ensures ledger.build == build && ledger.db == Empty && ledger.auths == []
    {
      ledger := new Contract(build);
    }

    /** initialize(admin, uri): base := uri, then the ledger's initialize with "Non-Fungible Token" / "NFT". */
    method Initialize(admin: Address, uri: string) returns (r: Outcome)
      requires Valid()
      modifies ledger
      ensures Valid() && ledger.auths == old(ledger.auths)
      ensures Applied(old(ledger.db), ledger.db, r, CollectionInitializeOn(ledger.build, old(ledger.db), admin, uri))
    {
      var saved := ledger.db;
      OwnWriteKeepsLedger(ledger.build, ledger.db, (Instance, Short(Base)), Text(uri));
      ledger.db := Put(ledger.db, Instance, Short(Base), Text(uri));
      r := ledger.Initialize(admin, COLLECTION_NAME, COLLECTION_SYMBOL);
      if r.Failed? {
        ledger.db := saved;
      }
    }

    /**
     * mint(to): asks `to` for authorization, takes the counter's value as
     * the id, stores the counter plus one and the base URI as the id's
     * Persistent URI, then mints. The u32 counter and balance are taken
     * not to overflow.
     */
    method Mint(to: Address) returns (r: Outcome)
      requires Valid()
      requires NextId(ledger.db) + 1 < U32_LIMIT
      requires !ledger.build.enumerable ==> BalanceOf(ledger.build, ledger.db, to) + 1 < U32_LIMIT
      modifies ledger
      ensures Valid()
      ensures Applied(old(ledger.db), ledger.db, r, CollectionMintOn(ledger.build, old(ledger.db), to))
      ensures ledger.auths == old(ledger.auths) + [to]
    {
      ledger.auths := ledger.auths + [to];
      var saved := ledger.db;
      var id := NextId(ledger.db);
      OwnWriteKeepsLedger(ledger.build, ledger.db, (Instance, Short(Id)), Num(id + 1));
      ledger.db := Put(ledger.db, Instance, Short(Id), Num(id + 1));
      var base := BaseUri(ledger.db);
      if base.None? {
        ledger.db := saved;
        return Failed(Abort(Missing));
      }
      OwnWriteKeepsLedger(ledger.build, ledger.db, (Persistent, Metadata(Uri(id))), Text(base.value));
      ledger.db := Put(ledger.db, Persistent, Metadata(Uri(id)), Text(base.value));
      r := ledger.Mint(to, id);
      if r.Failed? {
        ledger.db := saved;
      }
    }
  }
}
