/**
 * The NFT ownership ledger `ERC721Contract` as functions over one storage
 * image: owner per token, balance per identity, one approver per token,
 * operator flags per (owner, operator), a global token list and one list per
 * owner, each with a reverse map, an admin slot and name/symbol/uri metadata.
 *
 * One build description covers both snapshots: `variant == Library` is
 * erc721/src/lib.rs, `variant == Earlier` is src/lib.rs, and the compile-time
 * features `enumerable`, `burnable` and `metadata` are flags of the build.
 *
 * Each entry point is a function from the image before the call to the image
 * after it, or to the failure the call ends in. A `panic_with_error!` or
 * `panic!` is rolled back by the host, so a failure carries no image: the
 * storage stays as it was. The class in erc721.dfy performs the same steps on
 * its storage field and is proved to agree with these functions.
 */
module Ledger {
  import opened Types
  import opened Store
  import opened Index

  /** A compiled contract: which snapshot, and which cargo features are on. */
  datatype Build = Build(variant: Variant, enumerable: bool, burnable: bool, metadata: bool)

  /**
   * The host panics the contracts can raise: `panic!("Already initialized")`,
   * `panic!("Not initialized")`, and `Option::unwrap` on a missing entry.
   */
  datatype Panic = AlreadyInitialized | NotInitialized | Missing

  /** `panic_with_error!(.., Error::..)` or a host panic. */
  datatype Failure = Raise(error: Error) | Abort(panic: Panic)

  datatype Outcome = Done | Failed(failure: Failure)

  datatype Result<T> = Ok(value: T) | Err(failure: Failure)

  /** The library's fallback for a token without a stored URI. */
  const NO_URI: string := "no uri"

  /** A call with outcome `r` took the storage from `s0` to `s1` as `res` says. */
  predicate Applied(s0: Tiers, s1: Tiers, r: Outcome, res: Result<Tiers>)
  {
    match res
    case Ok(s) => r == Done && s1 == s
    case Err(f) => r == Failed(f) && s1 == s0
  }

  // -----------------------------------------------------------------------
  // Storage access through the key routing

  /** `key.get(&env)`: read a routed key from the tier its `Storage` impl picks. */
  function Load(b: Build, s: Tiers, k: Key): Option<Value>
    requires Routed(b.variant, k)
  {
    Get(s, Route(b.variant, GetOp, k), k)
  }

  /** `key.set(&env, &v)`. */
  function SetKey(b: Build, s: Tiers, k: Key, v: Value): Tiers
    requires Routed(b.variant, k)
  {
    Put(s, Route(b.variant, SetOp, k), k, v)
  }

  /** `key.remove(&env)`. */
  function RemoveKey(b: Build, s: Tiers, k: Key): Tiers
    requires Routed(b.variant, k)
  {
    Delete(s, Route(b.variant, RemoveOp, k), k)
  }

  /** Where the admin lives: `Admin::User` through routing (library), `ADMIN()` in Instance (earlier). */
  function AdminSlot(b: Build): Slot
  {
    if b.variant == Library then (Route(b.variant, HasOp, AdminUser), AdminUser) else (Instance, AdminUnit)
  }

  function AdminIn(b: Build, s: Tiers): Option<Address>
  {
    AsAddr(Get(s, AdminSlot(b).0, AdminSlot(b).1))
  }

  function OwnerIn(b: Build, s: Tiers, t: TokenId): Option<Address>
  {
    AsAddr(Load(b, s, Data(TokenOwner(t))))
  }

  function BalanceIn(b: Build, s: Tiers, a: Address): Option<nat>
  {
    AsNum(Load(b, s, Data(Balance(a))))
  }

  function ApprovalIn(b: Build, s: Tiers, t: TokenId): Option<Address>
  {
    AsAddr(Load(b, s, Data(Approved(t))))
  }

  /** `DataKey::Operator(o, c).has(&env)`, the check transfer_from uses. */
  predicate OperatorIn(b: Build, s: Tiers, o: Address, c: Address)
  {
    Has(s, Route(b.variant, HasOp, Data(Operator(o, c))), Data(Operator(o, c)))
  }

  /** `DataKey::Operator(o, c).get::<bool>(&env).unwrap_or(false)`, the check the other entry points use. */
  predicate OperatorFlagIn(b: Build, s: Tiers, o: Address, c: Address)
  {
    AsFlag(Load(b, s, Data(Operator(o, c)))) == Some(true)
  }

  /** An owner's list, `Vec::new` when absent. */
  function OwnerTokensIn(b: Build, s: Tiers, o: Address): seq<TokenId>
  {
    var l := AsIds(Load(b, s, Enumerable(OwnerIndexToken(o))));
    if l.Some? then l.value else []
  }

  /** An owner's reverse map, `Map::new` when absent. */
  function OwnerPositionsIn(b: Build, s: Tiers, o: Address): map<TokenId, nat>
  {
    var m := AsPositions(Load(b, s, Enumerable(OwnerTokenIndex(o))));
    if m.Some? then m.value else map[]
  }

  function AllTokensIn(b: Build, s: Tiers): Option<seq<TokenId>>
  {
    AsIds(Load(b, s, Enumerable(IndexToken)))
  }

  function AllPositionsIn(b: Build, s: Tiers): Option<map<TokenId, nat>>
  {
    AsPositions(Load(b, s, Enumerable(TokenIndex)))
  }

  // -----------------------------------------------------------------------
  // Write groups of the enumerable extension

  function BalanceSlot(b: Build, a: Address): Slot
  {
    (OwnershipTier(b.variant), Data(Balance(a)))
  }

  /** An owner's list and its reverse map. */
  function ListSlots(o: Address): set<Slot>
  {
    {(Instance, Enumerable(OwnerIndexToken(o))), (Instance, Enumerable(OwnerTokenIndex(o)))}
  }

  /** An owner's list, reverse map and balance. */
  function HoldingSlots(b: Build, o: Address): set<Slot>
  {
    ListSlots(o) + {BalanceSlot(b, o)}
  }

  /** The global list and its reverse map. */
  function GlobalSlots(): set<Slot>
  {
    {(Instance, Enumerable(IndexToken)), (Instance, Enumerable(TokenIndex))}
  }

  /** Stores an owner's list, then its reverse map, then its balance as the list's length. */
  function StoreHolding(b: Build, s: Tiers, o: Address, ids: seq<TokenId>, pos: map<TokenId, nat>): (s': Tiers)
    ensures OwnerTokensIn(b, s', o) == ids && OwnerPositionsIn(b, s', o) == pos
    ensures BalanceOf(b, s', o) == |ids|
    ensures AgreeExcept(s, s', HoldingSlots(b, o))
  {
    var s1 := SetKey(b, s, Enumerable(OwnerIndexToken(o)), Ids(ids));
    var s2 := SetKey(b, s1, Enumerable(OwnerTokenIndex(o)), Positions(pos));
    SetKey(b, s2, Data(Balance(o)), Num(|ids|))
  }

  /** The same three entries with the reverse map stored first, as the receiving side of a transfer does. */
  function StoreHoldingMapFirst(b: Build, s: Tiers, o: Address, pos: map<TokenId, nat>, ids: seq<TokenId>): (s': Tiers)
    ensures OwnerTokensIn(b, s', o) == ids && OwnerPositionsIn(b, s', o) == pos
    ensures BalanceOf(b, s', o) == |ids|
    ensures AgreeExcept(s, s', HoldingSlots(b, o))
  {
    var s1 := SetKey(b, s, Enumerable(OwnerTokenIndex(o)), Positions(pos));
    var s2 := SetKey(b, s1, Enumerable(OwnerIndexToken(o)), Ids(ids));
    SetKey(b, s2, Data(Balance(o)), Num(|ids|))
  }

  /** Stores the global list, then the global reverse map. */
  function StoreGlobal(b: Build, s: Tiers, all: seq<TokenId>, allPos: map<TokenId, nat>): (s': Tiers)
    ensures AllTokensIn(b, s') == Some(all) && AllPositionsIn(b, s') == Some(allPos)
    ensures AgreeExcept(s, s', GlobalSlots())
  {
    SetKey(b, SetKey(b, s, Enumerable(IndexToken), Ids(all)), Enumerable(TokenIndex), Positions(allPos))
  }

  /** Who may burn, approve for all, or (with authority) approve: the owner or an operator of the owner. */
  predicate OwnerOrOperator(b: Build, s: Tiers, owner: Address, caller: Address)
  {
    owner == caller || OperatorFlagIn(b, s, owner, caller)
  }

  /** transfer_from's authorization: the owner named as `from`, the token's approver, or an operator of `from`. */
  predicate MayTransfer(b: Build, s: Tiers, spender: Address, from: Address, t: TokenId)
  {
    spender == from || ApprovalIn(b, s, t) == Some(spender) || OperatorIn(b, s, from, spender)
  }

  /** The identity `require_auth` is demanded of when `caller` acts for `owner`: owner, operator, or nobody. */
  function ActorAuth(b: Build, s: Tiers, owner: Address, caller: Address): seq<Address>
  {
    if owner == caller then [owner] else if OperatorFlagIn(b, s, owner, caller) then [caller] else []
  }

  // -----------------------------------------------------------------------
  // Storage invariants

  /** Operator entries only ever hold `true`. */
  ghost predicate OperatorsHoldTrue(s: Tiers)
  {
    forall o, c :: Get(s, Temporary, Data(Operator(o, c))).Some? ==> Get(s, Temporary, Data(Operator(o, c))).value == Flag(true)
  }

  /** No TokenOwner entry lives in the Instance tier. */
  ghost predicate NoInstanceOwners(s: Tiers)
  {
    forall t :: Get(s, Instance, Data(TokenOwner(t))) == None
  }

  /**
   * What every reachable image satisfies: operator entries hold `true`, and
   * in the library (which routes owners to Persistent) no owner record is in
   * the Instance tier.
   */
  ghost predicate Healthy(b: Build, s: Tiers)
  {
    && OperatorsHoldTrue(s)
    && (b.variant == Library ==> NoInstanceOwners(s))
  }

  /** No slot in `touched` is an operator entry, nor (in the library) an Instance-tier owner entry. */
  ghost predicate SparesInvariantSlots(b: Build, touched: set<Slot>)
  {
    forall p :: p in touched ==>
      !(p.1.Data? && ((p.0 == Temporary && p.1.data.Operator?) || (b.variant == Library && p.0 == Instance && p.1.data.TokenOwner?)))
  }

  /** Writes that spare the invariant slots keep the image healthy. */
  lemma InvariantsSurvive(b: Build, s0: Tiers, s: Tiers, touched: set<Slot>)
    requires AgreeExcept(s0, s, touched) && SparesInvariantSlots(b, touched)
    requires Healthy(b, s0)
    ensures Healthy(b, s)
  {
    forall o, c ensures Get(s, Temporary, Data(Operator(o, c))) == Get(s0, Temporary, Data(Operator(o, c))) {
      assert (Temporary, Data(Operator(o, c))) !in touched;
    }
    if b.variant == Library {
      forall t ensures Get(s, Instance, Data(TokenOwner(t))) == Get(s0, Instance, Data(TokenOwner(t))) {
        assert (Instance, Data(TokenOwner(t))) !in touched;
      }
    }
  }

  // -----------------------------------------------------------------------
  // Getters

  /** balance_of: the stored count, 0 for an identity without an entry. */
  function BalanceOf(b: Build, s: Tiers, owner: Address): (r: nat)
    ensures BalanceIn(b, s, owner).None? ==> r == 0
    ensures BalanceIn(b, s, owner).Some? ==> r == BalanceIn(b, s, owner).value
  {
    match BalanceIn(b, s, owner)
    case None => 0
    case Some(n) => n
  }

  /** get_approved: the stored approver, None when there is no entry. */
  function GetApproved(b: Build, s: Tiers, t: TokenId): (r: Option<Address>)
    ensures r.Some? <==> Get(s, Temporary, Data(Approved(t))).Some? && Get(s, Temporary, Data(Approved(t))).value.Addr?
    ensures r.Some? ==> Get(s, Temporary, Data(Approved(t))) == Some(Addr(r.value))
  {
    ApprovalIn(b, s, t)
  }

  /** is_approval_for_all: the stored flag, false when there is no entry. */
  predicate IsApprovalForAll(b: Build, s: Tiers, owner: Address, operator: Address)
    ensures IsApprovalForAll(b, s, owner, operator) <==> Get(s, Temporary, Data(Operator(owner, operator))) == Some(Flag(true))
  {
    OperatorFlagIn(b, s, owner, operator)
  }

  /** A metadata string read with `unwrap`: it aborts when initialize never stored one. */
  function StoredText(b: Build, s: Tiers, k: MetadataKey): (r: Result<string>)
    requires b.metadata && !k.Uri?
    ensures r.Ok? <==> AsText(Get(s, Instance, Metadata(k))).Some?
    ensures r.Ok? ==> Get(s, Instance, Metadata(k)) == Some(Text(r.value))
    ensures r.Err? ==> r.failure == Abort(Missing)
  {
    match AsText(Load(b, s, Metadata(k)))
    case Some(n) => Ok(n)
    case None => Err(Abort(Missing))
  }

  /** name(). */
  function Name(b: Build, s: Tiers): Result<string>
    requires b.metadata
  {
    StoredText(b, s, MetadataKey.Name)
  }

  /** symbol(). */
  function Symbol(b: Build, s: Tiers): Result<string>
    requires b.metadata
  {
    StoredText(b, s, MetadataKey.Symbol)
  }

  /**
   * token_uri: the URI stored under `DatakeyMetadata::Uri(t)`, read through
   * the routing, which sends it to Instance. Without one the library answers
   * "no uri" and the earlier variant aborts.
   */
  function TokenUri(b: Build, s: Tiers, t: TokenId): (r: Result<string>)
    requires b.metadata
    ensures AsText(Get(s, Instance, Metadata(Uri(t)))).Some? ==> r == Ok(AsText(Get(s, Instance, Metadata(Uri(t)))).value)
    ensures AsText(Get(s, Instance, Metadata(Uri(t)))).None? ==> r == (if b.variant == Library then Ok(NO_URI) else Err(Abort(Missing)))
  {
    match AsText(Load(b, s, Metadata(Uri(t))))
    case Some(u) => Ok(u)
    case None => if b.variant == Library then Ok(NO_URI) else Err(Abort(Missing))
  }

  /** total_supply: the global list's length; aborts before initialize. */
  function TotalSupply(b: Build, s: Tiers): (r: Result<nat>)
    requires b.enumerable
    ensures r.Ok? <==> AsIds(Get(s, Instance, Enumerable(IndexToken))).Some?
    ensures r.Ok? ==> r.value == |AsIds(Get(s, Instance, Enumerable(IndexToken))).value|
    ensures r.Err? ==> r.failure == Abort(Missing)
  {
    match AllTokensIn(b, s)
    case Some(l) => Ok(|l|)
    case None => Err(Abort(Missing))
  }

  /** token_by_index: the i-th token of the global list; OutOfBounds past its end. */
  function TokenByIndex(b: Build, s: Tiers, i: nat): (r: Result<TokenId>)
    requires b.enumerable
    ensures AllTokensIn(b, s).None? ==> r == Err(Abort(Missing))
    ensures AllTokensIn(b, s).Some? ==> (r.Ok? <==> i < |AllTokensIn(b, s).value|)
    ensures AllTokensIn(b, s).Some? && r.Ok? ==> r.value == AllTokensIn(b, s).value[i]
    ensures AllTokensIn(b, s).Some? && r.Err? ==> r.failure == Raise(OutOfBounds)
  {
    match AllTokensIn(b, s)
    case None => Err(Abort(Missing))
    case Some(l) => if i < |l| then Ok(l[i]) else Err(Raise(OutOfBounds))
  }

  /** token_of_owner_by_index: the i-th token of the owner's list; OutOfBounds when absent or too short. */
  function TokenOfOwnerByIndex(b: Build, s: Tiers, owner: Address, i: nat): (r: Result<TokenId>)
    requires b.enumerable
    ensures r.Ok? <==> i < |OwnerTokensIn(b, s, owner)|
    ensures r.Ok? ==> r.value == OwnerTokensIn(b, s, owner)[i]
    ensures r.Err? ==> r.failure == Raise(OutOfBounds)
  {
    match AsIds(Load(b, s, Enumerable(OwnerIndexToken(owner))))
    case None => Err(Raise(OutOfBounds))
    case Some(l) => if i < |l| then Ok(l[i]) else Err(Raise(OutOfBounds))
  }

  // -----------------------------------------------------------------------
  // Entry points that change the storage

  /**
   * initialize: a one-way switch. Aborts "Already initialized" when the
   * admin slot is taken; otherwise stores the admin, the name and symbol
   * (metadata builds) and an empty global list and map (enumerable builds).
   * `name` and `symbol` are ignored in builds without metadata.
   */
  function InitializeOn(b: Build, s: Tiers, admin: Address, name: string, symbol: string): Result<Tiers>
  {
    var slot := AdminSlot(b);
    if Has(s, slot.0, slot.1) then Err(Abort(AlreadyInitialized))
    else
      var s1 := Put(s, slot.0, slot.1, Addr(admin));
      var s2 := if b.metadata then Put(Put(s1, Instance, Metadata(MetadataKey.Name), Text(name)), Instance, Metadata(MetadataKey.Symbol), Text(symbol)) else s1;
      var s3 := if b.enumerable then SetKey(b, SetKey(b, s2, Enumerable(IndexToken), Ids([])), Enumerable(TokenIndex), Positions(map[])) else s2;
      Ok(s3)
  }

  /** approve: NotNFT without an owner; otherwise `Some(a)` stores a as the approver and `None` deletes the entry. */
  function ApproveOn(b: Build, s: Tiers, caller: Address, operator: Option<Address>, t: TokenId): Result<Tiers>
  {
    if OwnerIn(b, s, t).None? then Err(Raise(NotNFT))
    else if operator.Some? then Ok(SetKey(b, s, Data(Approved(t)), Addr(operator.value)))
    else Ok(RemoveKey(b, s, Data(Approved(t))))
  }

  /** approve demands authorization of the owner, or of an operator caller; any other caller is not asked. */
  function ApproveAuths(b: Build, s: Tiers, caller: Address, t: TokenId): seq<Address>
  {
    if OwnerIn(b, s, t).None? then [] else ActorAuth(b, s, OwnerIn(b, s, t).value, caller)
  }

  /** set_approval_for_all: NotAuthorized unless caller is owner or operator; `true` stores the flag, `false` deletes it. */
  function SetApprovalForAllOn(b: Build, s: Tiers, caller: Address, owner: Address, operator: Address, approved: bool): Result<Tiers>
  {
    if !OwnerOrOperator(b, s, owner, caller) then Err(Raise(NotAuthorized))
    else if approved then Ok(SetKey(b, s, Data(Operator(owner, operator)), Flag(true)))
    else Ok(RemoveKey(b, s, Data(Operator(owner, operator))))
  }

  /**
   * The enumerable part of transfer_from (from != to): take the token out of
   * from's list at the position from's reverse map records, drop its reverse
   * entry, append it to to's list with reverse entry = to's old length, and
   * set both balances to the new lengths. Aborts when from's reverse map has
   * no entry for the token.
   */
  function MoveIndex(b: Build, s: Tiers, from: Address, to: Address, t: TokenId): Result<Tiers>
  {
    var fromIds, fromPos := OwnerTokensIn(b, s, from), OwnerPositionsIn(b, s, from);
    var toIds, toPos := OwnerTokensIn(b, s, to), OwnerPositionsIn(b, s, to);
    if t !in fromPos then Err(Abort(Missing))
    else
      var fromIds', fromPos' := RemoveAt(fromIds, fromPos[t]), fromPos - {t};
      var toPos', toIds' := toPos[t := |toIds|], toIds + [t];
      Ok(StoreHoldingMapFirst(b, StoreHolding(b, s, from, fromIds', fromPos'), to, toPos', toIds'))
  }

  /**
   * transfer_from. A spender other than `from` removes any single approval it
   * finds (whoever it names) and is allowed when that approval named it or
   * an Operator(from, spender) entry exists. Then: NotAuthorized, NotNFT
   * (no owner), NotOwner (owner != from), in that order.
   */
  function TransferOn(b: Build, s: Tiers, spender: Address, from: Address, to: Address, t: TokenId): Result<Tiers>
  {
    var approval := ApprovalIn(b, s, t);
    var s1 := if spender != from && approval.Some? then RemoveKey(b, s, Data(Approved(t))) else s;
    var allowed := spender == from || approval == Some(spender) || OperatorIn(b, s1, from, spender);
    if !allowed then Err(Raise(NotAuthorized))
    else if OwnerIn(b, s1, t).None? then Err(Raise(NotNFT))
    else if OwnerIn(b, s1, t).value != from then Err(Raise(NotOwner))
    else
      var s2 := if b.enumerable && from != to then MoveIndex(b, s1, from, to, t) else Ok(s1);
      if s2.Err? then s2
      else Ok(SetKey(b, s2.value, Data(TokenOwner(t)), Addr(to)))
  }

  /**
   * The enumerable part of mint: append the token to the global list and to
   * the owner's list, with reverse entries equal to the old lengths, and set
   * the owner's balance to the new length. Aborts before initialize, when
   * the global list or map is missing.
   */
  function AppendIndex(b: Build, s: Tiers, to: Address, t: TokenId): Result<Tiers>
  {
    var all, allPos := AllTokensIn(b, s), AllPositionsIn(b, s);
    if all.None? || allPos.None? then Err(Abort(Missing))
    else
      var ids, pos := OwnerTokensIn(b, s, to), OwnerPositionsIn(b, s, to);
      Ok(StoreHolding(b, StoreGlobal(b, s, all.value + [t], allPos.value[t := |all.value|]), to, ids + [t], pos[t := |ids|]))
  }

  /**
   * mint. The earlier variant first reads the admin ("Not initialized" when
   * absent). Both then test for an owner record in the Instance tier and do
   * nothing when one is there; otherwise they write the owner record (the
   * library through the routing, the earlier variant into Instance) and
   * append to the lists (enumerable) or add 1 to the balance.
   */
  function MintOn(b: Build, s: Tiers, to: Address, t: TokenId): Result<Tiers>
  {
    if b.variant == Earlier && AdminIn(b, s).None? then Err(Abort(NotInitialized))
    else if Has(s, Instance, Data(TokenOwner(t))) then Ok(s)
    else
      var s1 := if b.variant == Library then SetKey(b, s, Data(TokenOwner(t)), Addr(to))
                else Put(s, Instance, Data(TokenOwner(t)), Addr(to));
      if b.enumerable then AppendIndex(b, s1, to, t)
      else Ok(SetKey(b, s1, Data(Balance(to)), Num(BalanceOf(b, s1, to) + 1)))
  }

  /** The library's mint asks for no authorization; the earlier variant asks the stored admin. */
  function MintAuths(b: Build, s: Tiers): seq<Address>
  {
    if b.variant == Earlier && AdminIn(b, s).Some? then [AdminIn(b, s).value] else []
  }

  /**
   * The enumerable part of burn: remove the token from the owner's list at
   * its recorded position and drop its reverse entry, and (library only) do
   * the same on the global list; set the owner's balance to the new length.
   * Aborts when a list or reverse entry it unwraps is missing.
   */
  function DropIndex(b: Build, s: Tiers, owner: Address, t: TokenId): Result<Tiers>
  {
    var ids, pos := OwnerTokensIn(b, s, owner), OwnerPositionsIn(b, s, owner);
    var all, allPos := AllTokensIn(b, s), AllPositionsIn(b, s);
    if b.variant == Library && (all.None? || allPos.None?) then Err(Abort(Missing))
    else if t !in pos then Err(Abort(Missing))
    else if b.variant == Library && t !in allPos.value then Err(Abort(Missing))
    else
      var ids' := RemoveAt(ids, pos[t]);
      var s1 := SetKey(b, s, Enumerable(OwnerIndexToken(owner)), Ids(ids'));
      var s2 := SetKey(b, s1, Enumerable(OwnerTokenIndex(owner)), Positions(pos - {t}));
      var s3 := if b.variant == Library then StoreGlobal(b, s2, RemoveAt(all.value, allPos.value[t]), allPos.value - {t})
                else s2;
      Ok(SetKey(b, s3, Data(Balance(owner)), Num(|ids'|)))
  }

  /**
   * The `balance - 1` of a non-enumerable burn stays in range: the owner of
   * a token that burn would remove has a balance of at least 1.
   */
  predicate BurnInRange(b: Build, s: Tiers, t: TokenId)
  {
    !b.enumerable && OwnerIn(b, s, t).Some? ==> BalanceOf(b, s, OwnerIn(b, s, t).value) >= 1
  }

  /**
   * burn: NotNFT without an owner, NotAuthorized unless the caller is the
   * owner or an operator of the owner. Then the approval and the owner
   * record are removed, and the lists (enumerable) or the balance updated.
   */
  function BurnOn(b: Build, s: Tiers, caller: Address, t: TokenId): Result<Tiers>
    requires BurnInRange(b, s, t)
  {
    if OwnerIn(b, s, t).None? then Err(Raise(NotNFT))
    else
      var owner := OwnerIn(b, s, t).value;
      if !OwnerOrOperator(b, s, owner, caller) then Err(Raise(NotAuthorized))
      else
        var s1 := RemoveKey(b, RemoveKey(b, s, Data(Approved(t))), Data(TokenOwner(t)));
        if b.enumerable then DropIndex(b, s1, owner, t)
        else
          assert BalanceOf(b, s1, owner) == BalanceOf(b, s, owner);
          Ok(SetKey(b, s1, Data(Balance(owner)), Num(BalanceOf(b, s1, owner) - 1)))
  }

  /** burn demands authorization of the owner or of the operator acting for it. */
  function BurnAuths(b: Build, s: Tiers, caller: Address, t: TokenId): seq<Address>
  {
    if OwnerIn(b, s, t).None? then [] else ActorAuth(b, s, OwnerIn(b, s, t).value, caller)
  }
}
