/**
 * The homepage contract (millionlumenhomepage/src/lib.rs): a front end on
 * the library ledger that hands out token ids from a counter it keeps in
 * the Instance tier under `DataKey::TokenId`.
 *
 * initialize sets the counter to 0 and initializes the ledger as "Pixel" /
 * "PIX"; mint asks the recipient for authorization, mints the counter's
 * value and stores the counter plus one. Every other entry point hands its
 * arguments to the ledger unchanged.
 */
module Million {
  import opened Types
  import opened Store
  import opened Ledger
  import opened Frames
  import opened Facts
  import opened Minting
  import opened Erc721

  const HOMEPAGE_NAME: string := "Pixel"
  const HOMEPAGE_SYMBOL: string := "PIX"

  /** `DataKey::TokenId.get(&env).unwrap_or(0)`: the id the next mint hands out. */
  function NextToken(b: Build, s: Tiers): nat
  {
    var n := AsNum(Load(b, s, MillionTokenId));
    if n.Some? then n.value else 0
  }

  /** initialize: counter := 0, then the ledger's initialize; a failure rolls the counter write back. */
  function HomepageInitializeOn(b: Build, s: Tiers, admin: Address): Result<Tiers>
  {
    InitializeOn(b, SetKey(b, s, MillionTokenId, Num(0)), admin, HOMEPAGE_NAME, HOMEPAGE_SYMBOL)
  }

  /** mint: id := counter, counter := id + 1, then the ledger's mint of id. */
  function HomepageMintOn(b: Build, s: Tiers, to: Address): Result<Tiers>
  {
    var id := NextToken(b, s);
    MintOn(b, SetKey(b, s, MillionTokenId, Num(id + 1)), to, id)
  }

  /** Successive mints for the recipients `tos`, in order, stopping at the first failure. */
  function HomepageMintAll(b: Build, s: Tiers, tos: seq<Address>): Result<Tiers>
  {
    RunMints((s': Tiers, to: Address) => HomepageMintOn(b, s', to), s, tos)
  }

  /** No token at or above the counter has an owner yet. */
  ghost predicate Fresh(b: Build, s: Tiers)
  {
    forall t: TokenId :: t >= NextToken(b, s) ==> OwnerIn(b, s, t).None?
  }

  /** Storing the counter keeps the ledger's invariants and changes no balance. */
  lemma CounterWriteKeepsLedger(b: Build, s: Tiers, n: nat, a: Address)
    requires Healthy(b, s)
    ensures Healthy(b, SetKey(b, s, MillionTokenId, Num(n)))
    ensures BalanceOf(b, SetKey(b, s, MillionTokenId, Num(n)), a) == BalanceOf(b, s, a)
    ensures NextToken(b, SetKey(b, s, MillionTokenId, Num(n))) == n
    ensures forall t: TokenId :: OwnerIn(b, SetKey(b, s, MillionTokenId, Num(n)), t) == OwnerIn(b, s, t)
    ensures AllTokensIn(b, SetKey(b, s, MillionTokenId, Num(n))) == AllTokensIn(b, s)
    ensures AllPositionsIn(b, SetKey(b, s, MillionTokenId, Num(n))) == AllPositionsIn(b, s)
  {
    ForeignWriteKeepsHealthy(b, s, Route(b.variant, SetOp, MillionTokenId), MillionTokenId, Num(n));
  }

  /**
   * initialize fails exactly when the ledger is already initialized, so the
   * counter can never be reset; otherwise the counter is 0, the admin is
   * stored and name and symbol read "Pixel" and "PIX".
   */
  lemma HomepageInitializeOutcome(b: Build, s: Tiers, admin: Address)
    requires b.variant == Library && b.metadata
    ensures var r := HomepageInitializeOn(b, s, admin);
            && (r.Err? <==> Has(s, AdminSlot(b).0, AdminSlot(b).1))
            && (r.Err? ==> r.failure == Abort(AlreadyInitialized))
            && (r.Ok? ==>
                  && NextToken(b, r.value) == 0
                  && AdminIn(b, r.value) == Some(admin)
                  && Ledger.Name(b, r.value) == Ok(HOMEPAGE_NAME)
                  && Ledger.Symbol(b, r.value) == Ok(HOMEPAGE_SYMBOL))
  {
    var s1 := SetKey(b, s, MillionTokenId, Num(0));
    assert Has(s1, AdminSlot(b).0, AdminSlot(b).1) == Has(s, AdminSlot(b).0, AdminSlot(b).1);
    var r := HomepageInitializeOn(b, s, admin);
    InitializeSparesSlot(b, s1, admin, HOMEPAGE_NAME, HOMEPAGE_SYMBOL, (Instance, MillionTokenId));
  }

  /**
   * One mint in the library hands out the counter's value c and moves the
   * counter to c + 1 (see Minting.Stepped).
   * Without `enumerable` it cannot fail; with it, it fails only when the
   * ledger's global list or map is missing.
   */
  lemma HomepageMintStep(b: Build, s: Tiers, to: Address)
    requires b.variant == Library && Healthy(b, s)
    ensures var r := HomepageMintOn(b, s, to);
            && (!b.enumerable ==> r.Ok?)
            && (r.Err? ==> b.enumerable && (AllTokensIn(b, s).None? || AllPositionsIn(b, s).None?))
            && (r.Ok? ==> NextToken(b, r.value) == NextToken(b, s) + 1 && Stepped(b, NextToken(b, s), s, r.value, to))
  {
    var c := NextToken(b, s);
    var s1 := SetKey(b, s, MillionTokenId, Num(c + 1));
    CounterWriteKeepsLedger(b, s, c + 1, to);
    var r := HomepageMintOn(b, s, to);
    if r.Ok? {
      HomepageMintOwners(b, s, to);
      MintKeepsHealthy(b, s1, to, c);
      MintSparesSlot(b, s1, to, c, (Instance, MillionTokenId));
    }
  }

  /** The owners after one mint: the minted id goes to `to`, every other keeps its owner. */
  lemma HomepageMintOwners(b: Build, s: Tiers, to: Address)
    requires b.variant == Library && Healthy(b, s)
    ensures var r, c := HomepageMintOn(b, s, to), NextToken(b, s);
            r.Ok? ==>
              && OwnerIn(b, r.value, c) == Some(to)
              && (forall t: TokenId :: t != c ==> OwnerIn(b, r.value, t) == OwnerIn(b, s, t))
  {
    var c := NextToken(b, s);
    var s1 := SetKey(b, s, MillionTokenId, Num(c + 1));
    CounterWriteKeepsLedger(b, s, c + 1, to);
    LibraryMintNeverSkips(b, s1, to, c);
    forall t: TokenId | t != c
      ensures MintOn(b, s1, to, c).Ok? ==> OwnerIn(b, MintOn(b, s1, to, c).value, t) == OwnerIn(b, s1, t)
    {
      MintSparesOtherOwners(b, s1, to, c, t);
    }
  }

  /** mint writes no URI: every token's token_uri reads the same before and after. */
  lemma HomepageMintWritesNoUri(b: Build, s: Tiers, to: Address, t: TokenId)
    requires b.variant == Library && b.metadata
    ensures var r := HomepageMintOn(b, s, to);
            r.Ok? ==> TokenUri(b, r.value, t) == TokenUri(b, s, t)
  {
    var s1 := SetKey(b, s, MillionTokenId, Num(NextToken(b, s) + 1));
    var r := MintOn(b, s1, to, NextToken(b, s));
    assert r == HomepageMintOn(b, s, to);
    MintSparesSlot(b, s1, to, NextToken(b, s), (Instance, Metadata(Uri(t))));
    if r.Ok? {
      var uri := Get(r.value, Instance, Metadata(Uri(t)));
      assert uri == Get(s, Instance, Metadata(Uri(t)));
    }
  }

  /** A mint from a fresh image hands out an id nobody owned and leaves the image fresh. */
  lemma MintKeepsFresh(b: Build, s: Tiers, to: Address)
    requires b.variant == Library && Healthy(b, s) && Fresh(b, s)
    ensures OwnerIn(b, s, NextToken(b, s)).None?
    ensures HomepageMintOn(b, s, to).Ok? ==> Fresh(b, HomepageMintOn(b, s, to).value)
  {
    HomepageMintStep(b, s, to);
  }

  /** An image nobody has minted in yet is fresh, and stays fresh through initialize. */
  lemma InitializeFresh(b: Build, admin: Address)
    requires b.variant == Library
    ensures Fresh(b, Empty)
    ensures HomepageInitializeOn(b, Empty, admin).Ok? && Fresh(b, HomepageInitializeOn(b, Empty, admin).value)
  {
    var r := HomepageInitializeOn(b, Empty, admin);
    var s1 := SetKey(b, Empty, MillionTokenId, Num(0));
    forall t: TokenId
      ensures OwnerIn(b, r.value, t).None?
    {
      InitializeSparesSlot(b, s1, admin, HOMEPAGE_NAME, HOMEPAGE_SYMBOL, (OwnershipTier(b.variant), Data(TokenOwner(t))));
    }
    InitializeSparesSlot(b, s1, admin, HOMEPAGE_NAME, HOMEPAGE_SYMBOL, (Instance, MillionTokenId));
  }

  /**
   * Minting for `tos` one after the other from counter c hands token c + i
   * to tos[i]: the ids are c, c + 1, …, so they are pairwise distinct and the
   * ledger's skip branch is never taken. The counter ends at c + |tos|, and
   * tokens below c keep their owners. Without `enumerable` it cannot fail.
   */
  lemma MintAllAssigns(b: Build, s: Tiers, tos: seq<Address>)
    requires b.variant == Library && Healthy(b, s)
    ensures !b.enumerable ==> HomepageMintAll(b, s, tos).Ok?
    ensures var r := HomepageMintAll(b, s, tos);
            r.Ok? ==> NextToken(b, r.value) == NextToken(b, s) + |tos| && Assigned(b, NextToken(b, s), s, r.value, tos)
  {
    var step := (s': Tiers, to: Address) => HomepageMintOn(b, s', to);
    var next := (s': Tiers) => NextToken(b, s');
    forall s': Tiers, to: Address | Healthy(b, s')
      ensures step(s', to).Ok? ==> next(step(s', to).value) == next(s') + 1 && Stepped(b, next(s'), s', step(s', to).value, to)
      ensures !b.enumerable ==> step(s', to).Ok? && Healthy(b, step(s', to).value)
    {
      HomepageMintStep(b, s', to);
    }
    RunAssigns(b, step, next, s, tos);
    if !b.enumerable {
      RunSucceeds(step, (s': Tiers) => Healthy(b, s'), s, tos);
    }
  }

  /**
   * The homepage contract over the library ledger. It shares the ledger's
   * storage: its counter is one more Instance-tier key beside the ledger's.
   */
  class Homepage {
    const ledger: Contract

    ghost predicate Valid()
      reads this, ledger
    {
      ledger.Valid() && ledger.build.variant == Library
    }

    constructor (build: Build)
      requires build.variant == Library
      ensures Valid() && fresh(ledger)
      ensures ledger.build == build && ledger.db == Empty && ledger.auths == []
    {
      ledger := new Contract(build);
    }

    /** initialize(admin): counter := 0, then the ledger's initialize with "Pixel" / "PIX". */
    method Initialize(admin: Address) returns (r: Outcome)
      requires Valid()
      modifies ledger
      ensures Valid() && ledger.auths == old(ledger.auths)
      ensures Applied(old(ledger.db), ledger.db, r, HomepageInitializeOn(ledger.build, old(ledger.db), admin))
    {
      var saved := ledger.db;
      CounterWriteKeepsLedger(ledger.build, ledger.db, 0, admin);
      ledger.db := SetKey(ledger.build, ledger.db, MillionTokenId, Num(0));
      r := ledger.Initialize(admin, HOMEPAGE_NAME, HOMEPAGE_SYMBOL);
      if r.Failed? {
        ledger.db := saved;
      }
    }

    /**
     * mint(to): asks `to` for authorization, mints the counter's value and
     * stores the counter plus one. The u32 counter and balance are taken
     * not to overflow.
     */
    method Mint(to: Address) returns (r: Outcome)
      requires Valid()
      requires NextToken(ledger.build, ledger.db) + 1 < U32_LIMIT
      requires !ledger.build.enumerable ==> BalanceOf(ledger.build, ledger.db, to) + 1 < U32_LIMIT
      modifies ledger
      ensures Valid()
      ensures Applied(old(ledger.db), ledger.db, r, HomepageMintOn(ledger.build, old(ledger.db), to))
      ensures ledger.auths == old(ledger.auths) + [to]
    {
      ledger.auths := ledger.auths + [to];
      var saved := ledger.db;
      var id := NextToken(ledger.build, ledger.db);
      CounterWriteKeepsLedger(ledger.build, ledger.db, id + 1, to);
      ledger.db := SetKey(ledger.build, ledger.db, MillionTokenId, Num(id + 1));
      r := ledger.Mint(to, id);
      if r.Failed? {
        ledger.db := saved;
      }
    }
  }
}
