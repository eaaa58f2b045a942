/**
 * What each entry point of the ledger does, stated over the functions of
 * module Ledger: its error conditions, what it stores, and how the token
 * lists and their reverse maps evolve (including how they go stale).
 */
module Facts {
  import opened Types
  import opened Store
  import opened Index
  import opened Ledger
  import opened Frames

  // -----------------------------------------------------------------------
  // initialize

  /** initialize fails exactly when the admin slot is taken; otherwise everything it stores reads back. */
  lemma InitializeOutcome(b: Build, s: Tiers, admin: Address, name: string, symbol: string)
    ensures var r := InitializeOn(b, s, admin, name, symbol);
            && (r.Err? <==> Has(s, AdminSlot(b).0, AdminSlot(b).1))
            && (r.Err? ==> r.failure == Abort(AlreadyInitialized))
            && (r.Ok? ==> AdminIn(b, r.value) == Some(admin))
            && (r.Ok? && b.metadata ==> Ledger.Name(b, r.value) == Ok(name) && Ledger.Symbol(b, r.value) == Ok(symbol))
            && (r.Ok? && b.enumerable ==> TotalSupply(b, r.value) == Ok(0) && AllPositionsIn(b, r.value) == Some(map[]))
  {
  }

  /** initialize is a one-way switch: after it succeeds, every later initialize aborts. */
  lemma InitializeOnce(b: Build, s: Tiers, admin: Address, name: string, symbol: string,
                       admin': Address, name': string, symbol': string)
    ensures var r := InitializeOn(b, s, admin, name, symbol);
            r.Ok? ==> InitializeOn(b, r.value, admin', name', symbol') == Err(Abort(AlreadyInitialized))
  {
  }

  // -----------------------------------------------------------------------
  // approve and set_approval_for_all

  /** approve fails only for a token without an owner; otherwise get_approved then answers `operator`. */
  lemma ApproveOutcome(b: Build, s: Tiers, caller: Address, operator: Option<Address>, t: TokenId)
    ensures var r := ApproveOn(b, s, caller, operator, t);
            && (r.Err? <==> OwnerIn(b, s, t).None?)
            && (r.Err? ==> r.failure == Raise(NotNFT))
            && (r.Ok? ==> GetApproved(b, r.value, t) == operator)
  {
  }

  /** A caller who is neither owner nor operator is neither asked for authorization nor rejected. */
  lemma ApproveRejectsNobody(b: Build, s: Tiers, caller: Address, operator: Option<Address>, t: TokenId)
    requires OwnerIn(b, s, t).Some? && OwnerIn(b, s, t).value != caller
    requires !OperatorFlagIn(b, s, OwnerIn(b, s, t).value, caller)
    ensures ApproveOn(b, s, caller, operator, t).Ok?
    ensures ApproveAuths(b, s, caller, t) == []
  {
  }

  /** set_approval_for_all fails unless the caller is owner or operator; otherwise both operator checks answer `approved`. */
  lemma SetApprovalForAllOutcome(b: Build, s: Tiers, caller: Address, owner: Address, operator: Address, approved: bool)
    ensures var r := SetApprovalForAllOn(b, s, caller, owner, operator, approved);
            && (r.Err? <==> !OwnerOrOperator(b, s, owner, caller))
            && (r.Err? ==> r.failure == Raise(NotAuthorized))
            && (r.Ok? ==> (IsApprovalForAll(b, r.value, owner, operator) <==> approved))
            && (r.Ok? ==> (OperatorIn(b, r.value, owner, operator) <==> approved))
  {
  }

  /**
   * Because operator entries only ever hold `true`, transfer_from's `has`
   * check and the `get::<bool>().unwrap_or(false)` check of the other entry
   * points agree on every healthy image.
   */
  lemma OperatorChecksAgree(b: Build, s: Tiers, o: Address, c: Address)
    requires Healthy(b, s)
    ensures OperatorIn(b, s, o, c) <==> OperatorFlagIn(b, s, o, c)
  {
    assert Get(s, Temporary, Data(Operator(o, c))).Some? ==> Get(s, Temporary, Data(Operator(o, c))).value == Flag(true);
  }

  // -----------------------------------------------------------------------
  // transfer_from

  /** The errors of transfer_from in their order: NotAuthorized, then NotNFT, then NotOwner, then a missing reverse entry. */
  lemma TransferErrors(b: Build, s: Tiers, spender: Address, from: Address, to: Address, t: TokenId)
    ensures var r := TransferOn(b, s, spender, from, to, t);
            && (r == Err(Raise(NotAuthorized)) <==> !MayTransfer(b, s, spender, from, t))
            && (r == Err(Raise(NotNFT)) <==> MayTransfer(b, s, spender, from, t) && OwnerIn(b, s, t).None?)
            && (r == Err(Raise(NotOwner)) <==>
                  MayTransfer(b, s, spender, from, t) && OwnerIn(b, s, t).Some? && OwnerIn(b, s, t).value != from)
            && (r == Err(Abort(Missing)) <==>
                  MayTransfer(b, s, spender, from, t) && OwnerIn(b, s, t) == Some(from)
                  && b.enumerable && from != to && t !in OwnerPositionsIn(b, s, from))
            && (r.Ok? <==>
                  MayTransfer(b, s, spender, from, t) && OwnerIn(b, s, t) == Some(from)
                  && !(b.enumerable && from != to && t !in OwnerPositionsIn(b, s, from)))
  {
  }

  /** A spender other than `from` always leaves the token without approval; `from` itself leaves it as it was. */
  lemma TransferApproval(b: Build, s: Tiers, spender: Address, from: Address, to: Address, t: TokenId)
    ensures var r := TransferOn(b, s, spender, from, to, t);
            && (r.Ok? && spender != from ==> GetApproved(b, r.value, t).None?)
            && (r.Ok? && spender == from ==> GetApproved(b, r.value, t) == GetApproved(b, s, t))
  {
  }

  /** After a transfer the token belongs to `to`. */
  lemma TransferOwner(b: Build, s: Tiers, spender: Address, from: Address, to: Address, t: TokenId)
    ensures var r := TransferOn(b, s, spender, from, to, t);
            r.Ok? ==> OwnerIn(b, r.value, t) == Some(to)
  {
  }

  /**
   * The enumerable part of a transfer between two identities: the token
   * leaves from's list at its recorded position and from's reverse map,
   * joins the end of to's list with reverse entry = to's old length, both
   * balances become the list lengths, and the global list and map stay.
   */
  lemma TransferIndex(b: Build, s: Tiers, spender: Address, from: Address, to: Address, t: TokenId)
    requires b.enumerable && from != to
    ensures var r := TransferOn(b, s, spender, from, to, t);
            r.Ok? ==>
              var s' := r.value;
              var ids, pos := OwnerTokensIn(b, s, from), OwnerPositionsIn(b, s, from);
              && t in pos
              && OwnerTokensIn(b, s', from) == RemoveAt(ids, pos[t])
              && OwnerPositionsIn(b, s', from) == pos - {t}
              && OwnerTokensIn(b, s', to) == OwnerTokensIn(b, s, to) + [t]
              && OwnerPositionsIn(b, s', to) == OwnerPositionsIn(b, s, to)[t := |OwnerTokensIn(b, s, to)|]
              && BalanceOf(b, s', from) == |OwnerTokensIn(b, s', from)|
              && BalanceOf(b, s', to) == |OwnerTokensIn(b, s', to)|
              && AllTokensIn(b, s') == AllTokensIn(b, s)
              && AllPositionsIn(b, s') == AllPositionsIn(b, s)
  {
    var r := TransferOn(b, s, spender, from, to, t);
    if r.Ok? {
      var s1 := if spender != from && ApprovalIn(b, s, t).Some? then RemoveKey(b, s, Data(Approved(t))) else s;
      assert AgreeExcept(s, s1, {ApprovalSlot(t), OwnerSlot(b, t)});
      OwnerWriteKeepsIndex(b, s, s1, t, from);
      OwnerWriteKeepsIndex(b, s, s1, t, to);
      MoveIndexEffect(b, s1, from, to, t);
      var s2 := MoveIndex(b, s1, from, to, t).value;
      assert r.value == SetKey(b, s2, Data(TokenOwner(t)), Addr(to));
      assert AgreeExcept(s2, r.value, {ApprovalSlot(t), OwnerSlot(b, t)});
      OwnerWriteKeepsIndex(b, s2, r.value, t, from);
      OwnerWriteKeepsIndex(b, s2, r.value, t, to);
    }
  }

  /** Rewriting only the approval and owner slots changes no list, reverse map or balance. */
  lemma OwnerWriteKeepsIndex(b: Build, s: Tiers, s': Tiers, t: TokenId, o: Address)
    requires AgreeExcept(s, s', {ApprovalSlot(t), OwnerSlot(b, t)})
    ensures OwnerTokensIn(b, s', o) == OwnerTokensIn(b, s, o)
    ensures OwnerPositionsIn(b, s', o) == OwnerPositionsIn(b, s, o)
    ensures BalanceOf(b, s', o) == BalanceOf(b, s, o)
    ensures AllTokensIn(b, s') == AllTokensIn(b, s) && AllPositionsIn(b, s') == AllPositionsIn(b, s)
  {
    ListsAgree(b, s, s', {ApprovalSlot(t), OwnerSlot(b, t)}, o);
    BalanceAgrees(b, s, s', {ApprovalSlot(t), OwnerSlot(b, t)}, o);
    GlobalsAgree(b, s, s', {ApprovalSlot(t), OwnerSlot(b, t)});
  }

  /** An owner's list and reverse map read the same in two states that agree on their slots. */
  lemma ListsAgree(b: Build, s: Tiers, s': Tiers, touched: set<Slot>, o: Address)
    requires AgreeExcept(s, s', touched)
    requires (Instance, Enumerable(OwnerIndexToken(o))) !in touched
    requires (Instance, Enumerable(OwnerTokenIndex(o))) !in touched
    ensures OwnerTokensIn(b, s', o) == OwnerTokensIn(b, s, o)
    ensures OwnerPositionsIn(b, s', o) == OwnerPositionsIn(b, s, o)
  {
  }

  lemma BalanceAgrees(b: Build, s: Tiers, s': Tiers, touched: set<Slot>, o: Address)
    requires AgreeExcept(s, s', touched) && BalanceSlot(b, o) !in touched
    ensures BalanceOf(b, s', o) == BalanceOf(b, s, o)
  {
  }

  lemma GlobalsAgree(b: Build, s: Tiers, s': Tiers, touched: set<Slot>)
    requires AgreeExcept(s, s', touched)
    requires (Instance, Enumerable(IndexToken)) !in touched && (Instance, Enumerable(TokenIndex)) !in touched
    ensures AllTokensIn(b, s') == AllTokensIn(b, s) && AllPositionsIn(b, s') == AllPositionsIn(b, s)
  {
  }

  /** Rewriting one owner's holding leaves another owner's holding as it was. */
  lemma HoldingsApart(b: Build, s: Tiers, s': Tiers, o: Address, other: Address)
    requires AgreeExcept(s, s', HoldingSlots(b, other)) && o != other
    ensures OwnerTokensIn(b, s', o) == OwnerTokensIn(b, s, o)
    ensures OwnerPositionsIn(b, s', o) == OwnerPositionsIn(b, s, o)
    ensures BalanceOf(b, s', o) == BalanceOf(b, s, o)
  {
    ListsAgree(b, s, s', HoldingSlots(b, other), o);
    BalanceAgrees(b, s, s', HoldingSlots(b, other), o);
  }

  /** Rewriting an owner's holding leaves the global list and map as they were. */
  lemma HoldingSparesGlobals(b: Build, s: Tiers, s': Tiers, o: Address)
    requires AgreeExcept(s, s', HoldingSlots(b, o))
    ensures AllTokensIn(b, s') == AllTokensIn(b, s) && AllPositionsIn(b, s') == AllPositionsIn(b, s)
  {
    GlobalsAgree(b, s, s', HoldingSlots(b, o));
  }

  /** The list surgery of a transfer between two identities, as the helper performs it. */
  lemma MoveIndexEffect(b: Build, s: Tiers, from: Address, to: Address, t: TokenId)
    requires from != to
    ensures var r := MoveIndex(b, s, from, to, t);
            && (r.Err? <==> t !in OwnerPositionsIn(b, s, from))
            && (r.Ok? ==>
                  var s', ids, pos := r.value, OwnerTokensIn(b, s, from), OwnerPositionsIn(b, s, from);
                  && OwnerTokensIn(b, s', from) == RemoveAt(ids, pos[t])
                  && OwnerPositionsIn(b, s', from) == pos - {t}
                  && OwnerTokensIn(b, s', to) == OwnerTokensIn(b, s, to) + [t]
                  && OwnerPositionsIn(b, s', to) == OwnerPositionsIn(b, s, to)[t := |OwnerTokensIn(b, s, to)|]
                  && BalanceOf(b, s', from) == |OwnerTokensIn(b, s', from)|
                  && BalanceOf(b, s', to) == |OwnerTokensIn(b, s', to)|
                  && AllTokensIn(b, s') == AllTokensIn(b, s)
                  && AllPositionsIn(b, s') == AllPositionsIn(b, s))
  {
    var r := MoveIndex(b, s, from, to, t);
    if r.Ok? {
      var fromIds, fromPos := OwnerTokensIn(b, s, from), OwnerPositionsIn(b, s, from);
      var s1 := StoreHolding(b, s, from, RemoveAt(fromIds, fromPos[t]), fromPos - {t});
      HoldingsApart(b, s1, r.value, from, to);
      HoldingsApart(b, s, s1, to, from);
      HoldingSparesGlobals(b, s, s1, from);
      HoldingSparesGlobals(b, s1, r.value, to);
    }
  }

  /** A transfer to oneself moves nothing: only the approval can change; by the owner, nothing changes at all. */
  lemma TransferToSelf(b: Build, s: Tiers, spender: Address, from: Address, t: TokenId)
    ensures var r := TransferOn(b, s, spender, from, from, t);
            && (r.Ok? ==> AgreeExcept(s, r.value, {ApprovalSlot(t)}))
            && (r.Ok? && spender == from ==> r.value == s)
  {
    var r := TransferOn(b, s, spender, from, from, t);
    if r.Ok? {
      var s1 := if spender != from && ApprovalIn(b, s, t).Some? then RemoveKey(b, s, Data(Approved(t))) else s;
      var slot := OwnerSlot(b, t);
      assert slot in s1 && s1[slot] == Addr(from);
      assert r.value == s1[slot := Addr(from)];
      assert r.value == s1;
    }
  }

  /** Without `enumerable`, transfer_from never touches a balance. */
  lemma TransferKeepsBalances(b: Build, s: Tiers, spender: Address, from: Address, to: Address, t: TokenId, a: Address)
    requires !b.enumerable
    ensures var r := TransferOn(b, s, spender, from, to, t);
            r.Ok? ==> BalanceOf(b, r.value, a) == BalanceOf(b, s, a)
  {
    var r := TransferOn(b, s, spender, from, to, t);
    if r.Ok? {
      TransferFrame(b, s, spender, from, to, t);
      assert BalanceSlot(b, a) !in TransferFootprint(b, from, to, t);
    }
  }

  /**
   * Consequence: without `enumerable`, an identity that receives its first
   * token by transfer has balance 0, so burning that token would compute
   * `0 - 1`; the u32 subtraction is out of range.
   */
  lemma TransferThenBurnUnderflows(b: Build, s: Tiers, from: Address, to: Address, t: TokenId)
    requires !b.enumerable && OwnerIn(b, s, t) == Some(from) && BalanceOf(b, s, to) == 0
    ensures TransferOn(b, s, from, from, to, t).Ok?
    ensures !BurnInRange(b, TransferOn(b, s, from, from, to, t).value, t)
  {
    TransferOwner(b, s, from, from, to, t);
    TransferKeepsBalances(b, s, from, from, to, t, to);
  }

  /** Moving the LAST token of from's list keeps both owners' lists consistent with their reverse maps. */
  lemma TransferOfLastKeepsConsistent(b: Build, s: Tiers, spender: Address, from: Address, to: Address, t: TokenId)
    requires b.enumerable && from != to
    requires Consistent(OwnerTokensIn(b, s, from), OwnerPositionsIn(b, s, from))
    requires Consistent(OwnerTokensIn(b, s, to), OwnerPositionsIn(b, s, to))
    requires t in OwnerPositionsIn(b, s, from) && OwnerPositionsIn(b, s, from)[t] == |OwnerTokensIn(b, s, from)| - 1
    requires t !in OwnerPositionsIn(b, s, to)
    ensures var r := TransferOn(b, s, spender, from, to, t);
            r.Ok? ==> Consistent(OwnerTokensIn(b, r.value, from), OwnerPositionsIn(b, r.value, from))
                      && Consistent(OwnerTokensIn(b, r.value, to), OwnerPositionsIn(b, r.value, to))
  {
    TransferIndex(b, s, spender, from, to, t);
    RemoveLastKeepsConsistent(OwnerTokensIn(b, s, from), OwnerPositionsIn(b, s, from), t);
    AppendKeepsConsistent(OwnerTokensIn(b, s, to), OwnerPositionsIn(b, s, to), t);
  }

  /**
   * Moving a token that is NOT last leaves from's reverse map stale: the
   * token that slides into the freed position keeps its old entry.
   */
  lemma TransferOfEarlierGoesStale(b: Build, s: Tiers, spender: Address, from: Address, to: Address, t: TokenId)
    requires b.enumerable && from != to
    requires Consistent(OwnerTokensIn(b, s, from), OwnerPositionsIn(b, s, from))
    requires t in OwnerPositionsIn(b, s, from) && OwnerPositionsIn(b, s, from)[t] + 1 < |OwnerTokensIn(b, s, from)|
    ensures var r := TransferOn(b, s, spender, from, to, t);
            r.Ok? ==> !Consistent(OwnerTokensIn(b, r.value, from), OwnerPositionsIn(b, r.value, from))
  {
    TransferIndex(b, s, spender, from, to, t);
    RemoveEarlierGoesStale(OwnerTokensIn(b, s, from), OwnerPositionsIn(b, s, from), t);
  }

  // -----------------------------------------------------------------------
  // mint

  /** The earlier variant's mint needs a stored admin and asks it for authorization; the library's asks nobody. */
  lemma MintAdmin(b: Build, s: Tiers, to: Address, t: TokenId)
    ensures b.variant == Earlier ==> (MintOn(b, s, to, t) == Err(Abort(NotInitialized)) <==> AdminIn(b, s).None?)
    ensures b.variant == Earlier && AdminIn(b, s).Some? ==> MintAuths(b, s) == [AdminIn(b, s).value]
    ensures b.variant == Library ==> MintAuths(b, s) == [] && MintOn(b, s, to, t) != Err(Abort(NotInitialized))
  {
  }

  /** An owner record in the Instance tier makes mint a no-op. */
  lemma MintSkips(b: Build, s: Tiers, to: Address, t: TokenId)
    requires b.variant == Library || AdminIn(b, s).Some?
    requires Has(s, Instance, Data(TokenOwner(t)))
    ensures MintOn(b, s, to, t) == Ok(s)
  {
  }

  /** In the earlier variant the owner record is in Instance, so minting an id twice is minting it once. */
  lemma EarlierMintTwiceIsOnce(b: Build, s: Tiers, to: Address, to': Address, t: TokenId)
    requires b.variant == Earlier
    ensures var r := MintOn(b, s, to, t);
            r.Ok? ==> MintOn(b, r.value, to', t) == r
  {
    var r := MintOn(b, s, to, t);
    if r.Ok? {
      MintFrame(b, s, to, t);
      assert AdminSlot(b) !in MintFootprint(b, to, t);
      assert AdminIn(b, r.value) == AdminIn(b, s);
      if !Has(s, Instance, Data(TokenOwner(t))) {
        assert OwnerSlot(b, t) == (Instance, Data(TokenOwner(t)));
        assert Has(r.value, Instance, Data(TokenOwner(t)));
      }
      MintSkips(b, r.value, to', t);
    }
  }

  /**
   * In the library the owner record is routed to Persistent while mint tests
   * the Instance tier, so on a healthy image mint never skips: it always
   * (re)writes the owner, even for an id that already has one.
   */
  lemma LibraryMintNeverSkips(b: Build, s: Tiers, to: Address, t: TokenId)
    requires b.variant == Library && Healthy(b, s)
    ensures !Has(s, Instance, Data(TokenOwner(t)))
    ensures var r := MintOn(b, s, to, t);
            r.Ok? ==> OwnerIn(b, r.value, t) == Some(to)
  {
    assert Get(s, Instance, Data(TokenOwner(t))) == None;
    var r := MintOn(b, s, to, t);
    if r.Ok? && b.enumerable {
      var s1 := SetKey(b, s, Data(TokenOwner(t)), Addr(to));
      AppendIndexFrame(b, s1, to, t);
      assert OwnerSlot(b, t) !in GlobalSlots() + ListSlots(to) + {BalanceSlot(b, to)};
    }
  }

  /**
   * The enumerable part of a mint that is not skipped: it aborts exactly when
   * the global list or map is missing; otherwise the id joins the end of both
   * lists with reverse entries equal to the old lengths, and the balance is
   * the owner's list length.
   */
  lemma MintAppends(b: Build, s: Tiers, to: Address, t: TokenId)
    requires b.enumerable
    requires b.variant == Library || AdminIn(b, s).Some?
    requires !Has(s, Instance, Data(TokenOwner(t)))
    ensures var r := MintOn(b, s, to, t);
            && (r.Err? <==> AllTokensIn(b, s).None? || AllPositionsIn(b, s).None?)
            && (r.Err? ==> r.failure == Abort(Missing))
            && (r.Ok? ==>
                  var s', all, allPos := r.value, AllTokensIn(b, s).value, AllPositionsIn(b, s).value;
                  var ids, pos := OwnerTokensIn(b, s, to), OwnerPositionsIn(b, s, to);
                  && AllTokensIn(b, s') == Some(all + [t])
                  && AllPositionsIn(b, s') == Some(allPos[t := |all|])
                  && TotalSupply(b, s') == Ok(|all| + 1)
                  && OwnerTokensIn(b, s', to) == ids + [t]
                  && OwnerPositionsIn(b, s', to) == pos[t := |ids|]
                  && BalanceOf(b, s', to) == |OwnerTokensIn(b, s', to)|)
  {
    var s1 := if b.variant == Library then SetKey(b, s, Data(TokenOwner(t)), Addr(to))
              else Put(s, Instance, Data(TokenOwner(t)), Addr(to));
    assert AllTokensIn(b, s1) == AllTokensIn(b, s) && AllPositionsIn(b, s1) == AllPositionsIn(b, s);
    assert OwnerTokensIn(b, s1, to) == OwnerTokensIn(b, s, to) && OwnerPositionsIn(b, s1, to) == OwnerPositionsIn(b, s, to);
    assert MintOn(b, s, to, t) == AppendIndex(b, s1, to, t);
    AppendIndexEffect(b, s1, to, t);
  }

  /** The list part of mint, on any image it starts from. */
  lemma AppendIndexEffect(b: Build, s: Tiers, to: Address, t: TokenId)
    requires b.enumerable
    ensures var r := AppendIndex(b, s, to, t);
            && (r.Err? <==> AllTokensIn(b, s).None? || AllPositionsIn(b, s).None?)
            && (r.Err? ==> r.failure == Abort(Missing))
            && (r.Ok? ==>
                  var s', all, allPos := r.value, AllTokensIn(b, s).value, AllPositionsIn(b, s).value;
                  var ids, pos := OwnerTokensIn(b, s, to), OwnerPositionsIn(b, s, to);
                  && AllTokensIn(b, s') == Some(all + [t])
                  && AllPositionsIn(b, s') == Some(allPos[t := |all|])
                  && TotalSupply(b, s') == Ok(|all| + 1)
                  && OwnerTokensIn(b, s', to) == ids + [t]
                  && OwnerPositionsIn(b, s', to) == pos[t := |ids|]
                  && BalanceOf(b, s', to) == |OwnerTokensIn(b, s', to)|)
  {
  }

  /** Without `enumerable`, a mint that is not skipped adds exactly 1 to the recipient's balance. */
  lemma MintCounts(b: Build, s: Tiers, to: Address, t: TokenId)
    requires !b.enumerable
    requires b.variant == Library || AdminIn(b, s).Some?
    requires !Has(s, Instance, Data(TokenOwner(t)))
    ensures MintOn(b, s, to, t).Ok?
    ensures BalanceOf(b, MintOn(b, s, to, t).value, to) == BalanceOf(b, s, to) + 1
    ensures OwnerIn(b, MintOn(b, s, to, t).value, t) == Some(to)
  {
  }

  /** Minting an id absent from both reverse maps keeps both lists consistent with their maps. */
  lemma MintKeepsConsistent(b: Build, s: Tiers, to: Address, t: TokenId)
    requires b.enumerable
    requires b.variant == Library || AdminIn(b, s).Some?
    requires !Has(s, Instance, Data(TokenOwner(t)))
    requires AllTokensIn(b, s).Some? && AllPositionsIn(b, s).Some?
    requires Consistent(AllTokensIn(b, s).value, AllPositionsIn(b, s).value) && t !in AllPositionsIn(b, s).value
    requires Consistent(OwnerTokensIn(b, s, to), OwnerPositionsIn(b, s, to)) && t !in OwnerPositionsIn(b, s, to)
    ensures MintOn(b, s, to, t).Ok?
    ensures var s' := MintOn(b, s, to, t).value;
            && Consistent(AllTokensIn(b, s').value, AllPositionsIn(b, s').value)
            && Consistent(OwnerTokensIn(b, s', to), OwnerPositionsIn(b, s', to))
  {
    MintAppends(b, s, to, t);
    AppendKeepsConsistent(AllTokensIn(b, s).value, AllPositionsIn(b, s).value, t);
    AppendKeepsConsistent(OwnerTokensIn(b, s, to), OwnerPositionsIn(b, s, to), t);
  }

  /**
   * Library re-mint: minting an id that is already owned appends it to the
   * global list a second time.
   */
  lemma LibraryRemintDuplicates(b: Build, s: Tiers, to: Address, to': Address, t: TokenId)
    requires b.variant == Library && b.enumerable && Healthy(b, s)
    requires AllTokensIn(b, s).Some? && AllPositionsIn(b, s).Some?
    ensures MintOn(b, s, to, t).Ok?
    ensures var r := MintOn(b, s, to, t).value;
            && MintOn(b, r, to', t).Ok?
            && AllTokensIn(b, MintOn(b, r, to', t).value) == Some(AllTokensIn(b, s).value + [t, t])
  {
    LibraryMintNeverSkips(b, s, to, t);
    MintAppends(b, s, to, t);
    var r := MintOn(b, s, to, t).value;
    MintKeepsHealthy(b, s, to, t);
    LibraryMintNeverSkips(b, r, to', t);
    MintAppends(b, r, to', t);
    assert AllTokensIn(b, s).value + [t] + [t] == AllTokensIn(b, s).value + [t, t];
  }

  // -----------------------------------------------------------------------
  // burn

  /** burn fails NotNFT without an owner, and NotAuthorized unless the caller is the owner or an operator. */
  lemma BurnErrors(b: Build, s: Tiers, caller: Address, t: TokenId)
    requires BurnInRange(b, s, t)
    ensures var r := BurnOn(b, s, caller, t);
            && (r == Err(Raise(NotNFT)) <==> OwnerIn(b, s, t).None?)
            && (r == Err(Raise(NotAuthorized)) <==> OwnerIn(b, s, t).Some? && !OwnerOrOperator(b, s, OwnerIn(b, s, t).value, caller))
            && (r.Err? && r.failure.Raise? ==> r.failure.error == NotNFT || r.failure.error == NotAuthorized)
  {
  }

  /** Being the token's single approver is not enough to burn it. */
  lemma BurnApproverNotEnough(b: Build, s: Tiers, caller: Address, t: TokenId)
    requires BurnInRange(b, s, t)
    requires OwnerIn(b, s, t).Some? && OwnerIn(b, s, t).value != caller
    requires GetApproved(b, s, t) == Some(caller)
    requires !OperatorFlagIn(b, s, OwnerIn(b, s, t).value, caller)
    ensures BurnOn(b, s, caller, t) == Err(Raise(NotAuthorized))
  {
  }

  /** A burned token has neither an owner nor an approval. */
  lemma BurnRemoves(b: Build, s: Tiers, caller: Address, t: TokenId)
    requires BurnInRange(b, s, t)
    ensures var r := BurnOn(b, s, caller, t);
            r.Ok? ==> OwnerIn(b, r.value, t).None? && GetApproved(b, r.value, t).None?
  {
    var r := BurnOn(b, s, caller, t);
    if r.Ok? && b.enumerable {
      var owner := OwnerIn(b, s, t).value;
      var s1 := RemoveKey(b, RemoveKey(b, s, Data(Approved(t))), Data(TokenOwner(t)));
      DropIndexFrame(b, s1, owner, t);
      assert OwnerSlot(b, t) !in ListSlots(owner) + {BalanceSlot(b, owner)} + (if b.variant == Library then GlobalSlots() else {});
      assert ApprovalSlot(t) !in ListSlots(owner) + {BalanceSlot(b, owner)} + (if b.variant == Library then GlobalSlots() else {});
    }
  }

  /**
   * The enumerable part of burn: the token leaves its owner's list at the
   * recorded position and the owner's reverse map, and the balance becomes
   * the list length. The library also removes it from the global list; the
   * earlier variant leaves the global list, and so total_supply, as it was.
   */
  lemma BurnIndex(b: Build, s: Tiers, caller: Address, t: TokenId)
    requires b.enumerable && BurnInRange(b, s, t)
    ensures var r := BurnOn(b, s, caller, t);
            r.Ok? ==>
              var s', owner := r.value, OwnerIn(b, s, t).value;
              var ids, pos := OwnerTokensIn(b, s, owner), OwnerPositionsIn(b, s, owner);
              && t in pos
              && OwnerTokensIn(b, s', owner) == RemoveAt(ids, pos[t])
              && OwnerPositionsIn(b, s', owner) == pos - {t}
              && BalanceOf(b, s', owner) == |OwnerTokensIn(b, s', owner)|
              && (b.variant == Library ==>
                    && AllTokensIn(b, s).Some? && AllPositionsIn(b, s).Some? && t in AllPositionsIn(b, s).value
                    && AllTokensIn(b, s') == Some(RemoveAt(AllTokensIn(b, s).value, AllPositionsIn(b, s).value[t]))
                    && AllPositionsIn(b, s') == Some(AllPositionsIn(b, s).value - {t}))
              && (b.variant == Earlier ==> AllTokensIn(b, s') == AllTokensIn(b, s) && AllPositionsIn(b, s') == AllPositionsIn(b, s))
  {
    var r := BurnOn(b, s, caller, t);
    if r.Ok? {
      var owner := OwnerIn(b, s, t).value;
      var s1 := RemoveKey(b, RemoveKey(b, s, Data(Approved(t))), Data(TokenOwner(t)));
      assert OwnerTokensIn(b, s1, owner) == OwnerTokensIn(b, s, owner) && OwnerPositionsIn(b, s1, owner) == OwnerPositionsIn(b, s, owner);
      assert AllTokensIn(b, s1) == AllTokensIn(b, s) && AllPositionsIn(b, s1) == AllPositionsIn(b, s);
    }
  }

  /** Without `enumerable`, burn takes exactly 1 from the owner's balance. */
  lemma BurnCounts(b: Build, s: Tiers, caller: Address, t: TokenId)
    requires !b.enumerable && BurnInRange(b, s, t)
    ensures var r := BurnOn(b, s, caller, t);
            r.Ok? ==> BalanceOf(b, r.value, OwnerIn(b, s, t).value) == BalanceOf(b, s, OwnerIn(b, s, t).value) - 1
  {
  }
}
