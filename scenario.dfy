/**
 * The library's own scenario (erc721/src/tests.rs, `simpl_test`) run on the
 * model. Each kind of step is proved once for any image: from an image that
 * shows a given view (the lists, reverse maps, balances and owners the
 * queries read), the entry point succeeds and its result shows the next
 * view. The scenario then chains the steps over the literal views the test
 * passes through and answers its queries on them.
 *
 * The build has all three features. `mock_all_auths` lets every
 * `require_auth` pass, so authorization does not appear here.
 */
module Scenario {
  import opened Types
  import opened Store
  import opened Index
  import opened Ledger
  import Frames
  import Facts

  const B: Build := Build(Library, true, true, true)
  const ADMIN: Address := 0
  const USER1: Address := 1
  const USER2: Address := 2

  /** What the queries of the scenario see of one user: their list, reverse map and balance. */
  datatype Holding = Holding(ids: seq<TokenId>, pos: map<TokenId, nat>, balance: nat)

  /** What the queries of the scenario see of the ledger. */
  datatype View = View(all: seq<TokenId>, allPos: map<TokenId, nat>, one: Holding, two: Holding, owners: map<TokenId, Address>)

  function HoldingOf(s: Tiers, o: Address): Holding
  {
    Holding(OwnerTokensIn(B, s, o), OwnerPositionsIn(B, s, o), BalanceOf(B, s, o))
  }

  /** The image `s` shows the view `v`, and keeps the ledger's invariants. */
  ghost predicate Shows(s: Tiers, v: View)
  {
    && Healthy(B, s)
    && AllTokensIn(B, s) == Some(v.all) && AllPositionsIn(B, s) == Some(v.allPos)
    && HoldingOf(s, USER1) == v.one && HoldingOf(s, USER2) == v.two
    && forall t: TokenId :: OwnerIn(B, s, t) == (if t in v.owners then Some(v.owners[t]) else None)
  }

  /** A holding after `t` joins it. */
  function Joined(h: Holding, t: TokenId): Holding
  {
    Holding(h.ids + [t], h.pos[t := |h.ids|], |h.ids| + 1)
  }

  /** A holding after `t` leaves it from its recorded position. */
  function Left(h: Holding, t: TokenId): Holding
    requires t in h.pos
  {
    var ids := RemoveAt(h.ids, h.pos[t]);
    Holding(ids, h.pos - {t}, |ids|)
  }

  /** The view after `to` (one of the two users) is minted `t`. */
  function MintedView(v: View, to: Address, t: TokenId): View
  {
    View(v.all + [t], v.allPos[t := |v.all|],
         if to == USER1 then Joined(v.one, t) else v.one,
         if to == USER2 then Joined(v.two, t) else v.two,
         v.owners[t := to])
  }

  /** The view after user1 transfers `t` to user2. */
  function TransferredView(v: View, t: TokenId): View
    requires t in v.one.pos
  {
    v.(one := Left(v.one, t), two := Joined(v.two, t), owners := v.owners[t := USER2])
  }

  /** The view after user2 burns `t`. */
  function BurnedView(v: View, t: TokenId): View
    requires t in v.two.pos && t in v.allPos
  {
    v.(all := RemoveAt(v.all, v.allPos[t]), allPos := v.allPos - {t}, two := Left(v.two, t), owners := v.owners - {t})
  }

  /** initialize on an empty ledger succeeds and shows nothing minted. */
  lemma InitializeShows()
    ensures InitializeOn(B, Empty, ADMIN, "Cool NFT", "COOL").Ok?
    ensures Shows(InitializeOn(B, Empty, ADMIN, "Cool NFT", "COOL").value,
                  View([], map[], Holding([], map[], 0), Holding([], map[], 0), map[]))
  {
    Frames.InitializeKeepsHealthy(B, Empty, ADMIN, "Cool NFT", "COOL");
    var s := InitializeOn(B, Empty, ADMIN, "Cool NFT", "COOL").value;
    forall t: TokenId
      ensures OwnerIn(B, s, t).None?
    {
      Frames.InitializeSparesSlot(B, Empty, ADMIN, "Cool NFT", "COOL", Frames.OwnerSlot(B, t));
    }
  }

  /** A mint for one user leaves the other user's holding alone. */
  lemma MintSparesHolding(s: Tiers, to: Address, t: TokenId, o: Address)
    requires o != to
    ensures MintOn(B, s, to, t).Ok? ==> HoldingOf(MintOn(B, s, to, t).value, o) == HoldingOf(s, o)
  {
    Frames.MintFrame(B, s, to, t);
    var touched := Frames.MintFootprint(B, to, t);
    assert (Instance, Enumerable(OwnerIndexToken(o))) !in touched;
    assert (Instance, Enumerable(OwnerTokenIndex(o))) !in touched;
    assert BalanceSlot(B, o) !in touched;
    if MintOn(B, s, to, t).Ok? {
      Facts.ListsAgree(B, s, MintOn(B, s, to, t).value, touched, o);
      Facts.BalanceAgrees(B, s, MintOn(B, s, to, t).value, touched, o);
    }
  }

  /** mint(to, t) by one of the two users succeeds and shows the minted view. */
  lemma MintShows(s: Tiers, v: View, to: Address, t: TokenId)
    requires Shows(s, v) && (to == USER1 || to == USER2)
    ensures MintOn(B, s, to, t).Ok?
    ensures Shows(MintOn(B, s, to, t).value, MintedView(v, to, t))
  {
    Facts.LibraryMintNeverSkips(B, s, to, t);
    Facts.MintAppends(B, s, to, t);
    Frames.MintKeepsHealthy(B, s, to, t);
    var s' := MintOn(B, s, to, t).value;
    var u := MintedView(v, to, t);
    MintSparesHolding(s, to, t, if to == USER1 then USER2 else USER1);
    forall t': TokenId
      ensures OwnerIn(B, s', t') == (if t' in u.owners then Some(u.owners[t']) else None)
    {
      if t' != t {
        Frames.MintSparesOtherOwners(B, s, to, t, t');
      }
    }
  }

  /** A transfer of `t` changes the owner of no other token. */
  lemma TransferSparesOtherOwners(s: Tiers, t: TokenId, other: TokenId)
    requires other != t
    ensures var r := TransferOn(B, s, USER1, USER1, USER2, t);
            r.Ok? ==> OwnerIn(B, r.value, other) == OwnerIn(B, s, other)
  {
    Frames.TransferFrame(B, s, USER1, USER1, USER2, t);
    assert Frames.OwnerSlot(B, other) !in Frames.TransferFootprint(B, USER1, USER2, t);
  }

  /** transfer_from(user1, user1, user2, t) of a token user1 holds succeeds and shows the transferred view. */
  lemma TransferShows(s: Tiers, v: View, t: TokenId)
    requires Shows(s, v) && t in v.owners && v.owners[t] == USER1 && t in v.one.pos
    ensures TransferOn(B, s, USER1, USER1, USER2, t).Ok?
    ensures Shows(TransferOn(B, s, USER1, USER1, USER2, t).value, TransferredView(v, t))
  {
    assert OwnerIn(B, s, t) == Some(USER1);
    Facts.TransferErrors(B, s, USER1, USER1, USER2, t);
    Facts.TransferIndex(B, s, USER1, USER1, USER2, t);
    Facts.TransferOwner(B, s, USER1, USER1, USER2, t);
    Frames.TransferKeepsHealthy(B, s, USER1, USER1, USER2, t);
    var s' := TransferOn(B, s, USER1, USER1, USER2, t).value;
    var u := TransferredView(v, t);
    forall t': TokenId
      ensures OwnerIn(B, s', t') == (if t' in u.owners then Some(u.owners[t']) else None)
    {
      if t' != t {
        TransferSparesOtherOwners(s, t, t');
      }
    }
  }

  /** A burn of user2's token changes the owner of no other token. */
  lemma BurnSparesOtherOwners(s: Tiers, t: TokenId, other: TokenId)
    requires BurnInRange(B, s, t) && OwnerIn(B, s, t) == Some(USER2) && other != t
    ensures var r := BurnOn(B, s, USER2, t);
            r.Ok? ==> OwnerIn(B, r.value, other) == OwnerIn(B, s, other)
  {
    Frames.BurnFrame(B, s, USER2, t);
    assert Frames.OwnerSlot(B, other) !in Frames.BurnFootprint(B, USER2, t);
  }

  /** A burn of user2's token leaves user1's holding alone. */
  lemma BurnSparesHolding(s: Tiers, t: TokenId)
    requires BurnInRange(B, s, t) && OwnerIn(B, s, t) == Some(USER2)
    ensures var r := BurnOn(B, s, USER2, t);
            r.Ok? ==> HoldingOf(r.value, USER1) == HoldingOf(s, USER1)
  {
    Frames.BurnFrame(B, s, USER2, t);
    var touched := Frames.BurnFootprint(B, USER2, t);
    assert (Instance, Enumerable(OwnerIndexToken(USER1))) !in touched;
    assert (Instance, Enumerable(OwnerTokenIndex(USER1))) !in touched;
    assert BalanceSlot(B, USER1) !in touched;
    if BurnOn(B, s, USER2, t).Ok? {
      Facts.ListsAgree(B, s, BurnOn(B, s, USER2, t).value, touched, USER1);
      Facts.BalanceAgrees(B, s, BurnOn(B, s, USER2, t).value, touched, USER1);
    }
  }

  /** burn(user2, t) of a token user2 holds succeeds and shows the burned view. */
  lemma BurnShows(s: Tiers, v: View, t: TokenId)
    requires Shows(s, v) && t in v.owners && v.owners[t] == USER2 && t in v.two.pos && t in v.allPos
    ensures BurnOn(B, s, USER2, t).Ok?
    ensures Shows(BurnOn(B, s, USER2, t).value, BurnedView(v, t))
  {
    assert OwnerIn(B, s, t) == Some(USER2);
    Facts.BurnIndex(B, s, USER2, t);
    Facts.BurnRemoves(B, s, USER2, t);
    Frames.BurnKeepsHealthy(B, s, USER2, t);
    var r := BurnOn(B, s, USER2, t);
    assert r.Ok?;
    var s' := r.value;
    var u := BurnedView(v, t);
    BurnSparesHolding(s, t);
    forall t': TokenId
      ensures OwnerIn(B, s', t') == (if t' in u.owners then Some(u.owners[t']) else None)
    {
      if t' != t {
        BurnSparesOtherOwners(s, t, t');
      }
    }
  }

  /** The queries read the view: total_supply, token_by_index, token_of_owner_by_index and balance_of. */
  lemma QueriesRead(s: Tiers, v: View)
    requires Shows(s, v)
    ensures TotalSupply(B, s) == Ok(|v.all|)
    ensures forall i: nat :: i < |v.all| ==> TokenByIndex(B, s, i) == Ok(v.all[i])
    ensures forall i: nat :: i < |v.one.ids| ==> TokenOfOwnerByIndex(B, s, USER1, i) == Ok(v.one.ids[i])
    ensures forall i: nat :: i < |v.two.ids| ==> TokenOfOwnerByIndex(B, s, USER2, i) == Ok(v.two.ids[i])
    ensures BalanceOf(B, s, USER1) == v.one.balance && BalanceOf(B, s, USER2) == v.two.balance
  {
  }

  // The views `simpl_test` passes through.

  const EMPTY: Holding := Holding([], map[], 0)
  const V0: View := View([], map[], EMPTY, EMPTY, map[])
  const V1: View := View([1], map[1 := 0], Holding([1], map[1 := 0], 1), EMPTY, map[1 := USER1])
  const V2: View := View([1, 2], map[1 := 0, 2 := 1], Holding([1], map[1 := 0], 1), Holding([2], map[2 := 0], 1),
                         map[1 := USER1, 2 := USER2])
  const V3: View := View([1, 2, 3], map[1 := 0, 2 := 1, 3 := 2], Holding([1, 3], map[1 := 0, 3 := 1], 2),
                         Holding([2], map[2 := 0], 1), map[1 := USER1, 2 := USER2, 3 := USER1])
  const V4: View := View([1, 2, 3], map[1 := 0, 2 := 1, 3 := 2], Holding([1], map[1 := 0], 1),
                         Holding([2, 3], map[2 := 0, 3 := 1], 2), map[1 := USER1, 2 := USER2, 3 := USER2])
  /** After the burn user2's reverse map still has 3 at position 1 and the global map 3 at 2: both are stale. */
  const V5: View := View([1, 3], map[1 := 0, 3 := 2], Holding([1], map[1 := 0], 1),
                         Holding([3], map[3 := 1], 1), map[1 := USER1, 3 := USER2])

  lemma MintViews()
    ensures MintedView(V0, USER1, 1) == V1
    ensures MintedView(V1, USER2, 2) == V2
    ensures MintedView(V2, USER1, 3) == V3
  {
    var none: map<TokenId, nat> := map[];
    assert none[1 := 0] == map[1 := 0] && none[2 := 0] == map[2 := 0];
    assert map[1 := 0][2 := 1] == map[1 := 0, 2 := 1];
    assert map[1 := 0, 2 := 1][3 := 2] == map[1 := 0, 2 := 1, 3 := 2];
    assert map[1 := 0][3 := 1] == map[1 := 0, 3 := 1];
    assert [] + [1] == [1] && [] + [2] == [2] && [1] + [2] == [1, 2] && [1, 2] + [3] == [1, 2, 3] && [1] + [3] == [1, 3];
  }

  lemma TransferBurnViews()
    ensures TransferredView(V3, 3) == V4
    ensures BurnedView(V4, 2) == V5
  {
    assert RemoveAt([1, 3], 1) == [1];
    assert map[1 := 0, 3 := 1] - {3} == map[1 := 0];
    assert map[2 := 0][3 := 1] == map[2 := 0, 3 := 1] && [2] + [3] == [2, 3];
    assert RemoveAt([2, 3], 0) == [3] && RemoveAt([1, 2, 3], 1) == [1, 3];
    assert map[2 := 0, 3 := 1] - {2} == map[3 := 1];
    assert map[1 := 0, 2 := 1, 3 := 2] - {2} == map[1 := 0, 3 := 2];
    assert map[1 := USER1, 2 := USER2, 3 := USER1][3 := USER2] == map[1 := USER1, 2 := USER2, 3 := USER2];
    assert map[1 := USER1, 2 := USER2, 3 := USER2] - {2} == map[1 := USER1, 3 := USER2];
  }

  /**
   * `simpl_test` from an image that shows nothing minted: the three mints,
   * the transfer and the burn all succeed, and every query the test makes
   * gets the answer the test expects. The burn leaves user2's reverse map
   * out of step with their list. InitializeShows gives such an image.
   */
  lemma SimplTestFrom(s0: Tiers)
    requires Shows(s0, V0)
    ensures var r1 := MintOn(B, s0, USER1, 1);
            && r1.Ok? && BalanceOf(B, r1.value, USER1) == 1
            && var r2 := MintOn(B, r1.value, USER2, 2);
            && r2.Ok? && BalanceOf(B, r2.value, USER2) == 1 && TotalSupply(B, r2.value) == Ok(2)
            && var r3 := MintOn(B, r2.value, USER1, 3);
            && r3.Ok? && BalanceOf(B, r3.value, USER1) == 2
            && TokenByIndex(B, r3.value, 0) == Ok(1) && TokenByIndex(B, r3.value, 1) == Ok(2) && TokenByIndex(B, r3.value, 2) == Ok(3)
            && TokenOfOwnerByIndex(B, r3.value, USER1, 0) == Ok(1) && TokenOfOwnerByIndex(B, r3.value, USER1, 1) == Ok(3)
            && TokenOfOwnerByIndex(B, r3.value, USER2, 0) == Ok(2)
            && var r4 := TransferOn(B, r3.value, USER1, USER1, USER2, 3);
            && r4.Ok? && BalanceOf(B, r4.value, USER1) == 1 && BalanceOf(B, r4.value, USER2) == 2
            && TokenOfOwnerByIndex(B, r4.value, USER1, 0) == Ok(1)
            && TokenOfOwnerByIndex(B, r4.value, USER2, 1) == Ok(3) && TokenOfOwnerByIndex(B, r4.value, USER2, 0) == Ok(2)
            && BurnInRange(B, r4.value, 2)
            && var r5 := BurnOn(B, r4.value, USER2, 2);
            && r5.Ok? && BalanceOf(B, r5.value, USER1) == 1 && BalanceOf(B, r5.value, USER2) == 1
            && TokenOfOwnerByIndex(B, r5.value, USER1, 0) == Ok(1) && TokenOfOwnerByIndex(B, r5.value, USER2, 0) == Ok(3)
            && TotalSupply(B, r5.value) == Ok(2)
            && !Consistent(OwnerTokensIn(B, r5.value, USER2), OwnerPositionsIn(B, r5.value, USER2))
  {
    MintViews();
    TransferBurnViews();
    MintShows(s0, V0, USER1, 1);
    var s1 := MintOn(B, s0, USER1, 1).value;
    MintShows(s1, V1, USER2, 2);
    var s2 := MintOn(B, s1, USER2, 2).value;
    MintShows(s2, V2, USER1, 3);
    var s3 := MintOn(B, s2, USER1, 3).value;
    TransferShows(s3, V3, 3);
    var s4 := TransferOn(B, s3, USER1, USER1, USER2, 3).value;
    BurnShows(s4, V4, 2);
    var s5 := BurnOn(B, s4, USER2, 2).value;
    QueriesRead(s1, V1);
    QueriesRead(s2, V2);
    QueriesRead(s3, V3);
    QueriesRead(s4, V4);
    QueriesRead(s5, V5);
    assert V5.two.pos[3] == 1 != 0;
  }
}
