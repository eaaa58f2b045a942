/**
 * Which storage slots each entry point of the ledger may write, and the
 * consequence that every entry point keeps the storage invariants.
 */
module Frames {
  import opened Types
  import opened Store
  import opened Ledger

  function ApprovalSlot(t: TokenId): Slot
  {
    (Temporary, Data(Approved(t)))
  }

  function OperatorSlot(owner: Address, operator: Address): Slot
  {
    (Temporary, Data(Operator(owner, operator)))
  }

  function OwnerSlot(b: Build, t: TokenId): Slot
  {
    (OwnershipTier(b.variant), Data(TokenOwner(t)))
  }

  function InitializeFootprint(b: Build): set<Slot>
  {
    {AdminSlot(b)}
    + (if b.metadata then {(Instance, Metadata(MetadataKey.Name)), (Instance, Metadata(MetadataKey.Symbol))} else {})
    + (if b.enumerable then GlobalSlots() else {})
  }

  function TransferFootprint(b: Build, from: Address, to: Address, t: TokenId): set<Slot>
  {
    {ApprovalSlot(t), OwnerSlot(b, t)}
    + (if b.enumerable && from != to then ListSlots(from) + ListSlots(to) + {BalanceSlot(b, from), BalanceSlot(b, to)} else {})
  }

  function MintFootprint(b: Build, to: Address, t: TokenId): set<Slot>
  {
    {OwnerSlot(b, t), BalanceSlot(b, to)} + (if b.enumerable then GlobalSlots() + ListSlots(to) else {})
  }

  function BurnFootprint(b: Build, owner: Address, t: TokenId): set<Slot>
  {
    {ApprovalSlot(t), OwnerSlot(b, t), BalanceSlot(b, owner)}
    + (if b.enumerable then ListSlots(owner) + (if b.variant == Library then GlobalSlots() else {}) else {})
  }

  /** initialize writes only the admin slot, the name and symbol, and the global list and map. */
  lemma InitializeFrame(b: Build, s: Tiers, admin: Address, name: string, symbol: string)
    ensures InitializeOn(b, s, admin, name, symbol).Ok? ==> AgreeExcept(s, InitializeOn(b, s, admin, name, symbol).value, InitializeFootprint(b))
  {
  }

  lemma InitializeFootprintSpares(b: Build)
    ensures SparesInvariantSlots(b, InitializeFootprint(b))
  {
  }

  lemma InitializeKeepsHealthy(b: Build, s: Tiers, admin: Address, name: string, symbol: string)
    requires Healthy(b, s)
    ensures InitializeOn(b, s, admin, name, symbol).Ok? ==> Healthy(b, InitializeOn(b, s, admin, name, symbol).value)
  {
    var r := InitializeOn(b, s, admin, name, symbol);
    if r.Ok? {
      InitializeFrame(b, s, admin, name, symbol);
      InitializeFootprintSpares(b);
      InvariantsSurvive(b, s, r.value, InitializeFootprint(b));
    }
  }

  /** approve writes only the token's approval slot. */
  lemma ApproveFrame(b: Build, s: Tiers, caller: Address, operator: Option<Address>, t: TokenId)
    ensures ApproveOn(b, s, caller, operator, t).Ok? ==> AgreeExcept(s, ApproveOn(b, s, caller, operator, t).value, {ApprovalSlot(t)})
  {
  }

  lemma ApproveKeepsHealthy(b: Build, s: Tiers, caller: Address, operator: Option<Address>, t: TokenId)
    requires Healthy(b, s)
    ensures ApproveOn(b, s, caller, operator, t).Ok? ==> Healthy(b, ApproveOn(b, s, caller, operator, t).value)
  {
    var r := ApproveOn(b, s, caller, operator, t);
    if r.Ok? {
      ApproveFrame(b, s, caller, operator, t);
      InvariantsSurvive(b, s, r.value, {ApprovalSlot(t)});
    }
  }

  /** set_approval_for_all writes only the one operator slot. */
  lemma SetApprovalForAllFrame(b: Build, s: Tiers, caller: Address, owner: Address, operator: Address, approved: bool)
    ensures SetApprovalForAllOn(b, s, caller, owner, operator, approved).Ok? ==>
              AgreeExcept(s, SetApprovalForAllOn(b, s, caller, owner, operator, approved).value, {OperatorSlot(owner, operator)})
  {
  }

  /** The only operator write stores `true`, and removal is a delete, so operator entries keep holding `true`. */
  lemma SetApprovalForAllKeepsHealthy(b: Build, s: Tiers, caller: Address, owner: Address, operator: Address, approved: bool)
    requires Healthy(b, s)
    ensures SetApprovalForAllOn(b, s, caller, owner, operator, approved).Ok? ==>
              Healthy(b, SetApprovalForAllOn(b, s, caller, owner, operator, approved).value)
  {
    var r := SetApprovalForAllOn(b, s, caller, owner, operator, approved);
    if r.Ok? {
      var s' := r.value;
      forall o: Address, c: Address | Get(s', Temporary, Data(Operator(o, c))).Some?
        ensures Get(s', Temporary, Data(Operator(o, c))).value == Flag(true)
      {
        if (o, c) != (owner, operator) {
          assert Get(s', Temporary, Data(Operator(o, c))) == Get(s, Temporary, Data(Operator(o, c)));
        }
      }
      if b.variant == Library {
        forall t ensures Get(s', Instance, Data(TokenOwner(t))) == None {
          assert Get(s', Instance, Data(TokenOwner(t))) == Get(s, Instance, Data(TokenOwner(t)));
        }
      }
    }
  }

  /** The enumerable part of transfer_from writes only both owners' lists and balances. */
  lemma MoveIndexFrame(b: Build, s: Tiers, from: Address, to: Address, t: TokenId)
    ensures MoveIndex(b, s, from, to, t).Ok? ==>
              AgreeExcept(s, MoveIndex(b, s, from, to, t).value, ListSlots(from) + ListSlots(to) + {BalanceSlot(b, from), BalanceSlot(b, to)})
  {
  }

  /** transfer_from writes only the approval and owner slots, plus (enumerable, from != to) both lists and balances. */
  lemma TransferFrame(b: Build, s: Tiers, spender: Address, from: Address, to: Address, t: TokenId)
    ensures TransferOn(b, s, spender, from, to, t).Ok? ==>
              AgreeExcept(s, TransferOn(b, s, spender, from, to, t).value, TransferFootprint(b, from, to, t))
  {
    if TransferOn(b, s, spender, from, to, t).Ok? && b.enumerable && from != to {
      var approval := ApprovalIn(b, s, t);
      var s1 := if spender != from && approval.Some? then RemoveKey(b, s, Data(Approved(t))) else s;
      MoveIndexFrame(b, s1, from, to, t);
    }
  }

  lemma TransferFootprintSpares(b: Build, from: Address, to: Address, t: TokenId)
    ensures SparesInvariantSlots(b, TransferFootprint(b, from, to, t))
  {
  }

  lemma TransferKeepsHealthy(b: Build, s: Tiers, spender: Address, from: Address, to: Address, t: TokenId)
    requires Healthy(b, s)
    ensures TransferOn(b, s, spender, from, to, t).Ok? ==> Healthy(b, TransferOn(b, s, spender, from, to, t).value)
  {
    var r := TransferOn(b, s, spender, from, to, t);
    if r.Ok? {
      TransferFrame(b, s, spender, from, to, t);
      TransferFootprintSpares(b, from, to, t);
      InvariantsSurvive(b, s, r.value, TransferFootprint(b, from, to, t));
    }
  }

  /** The enumerable part of mint writes only the global list and map, the owner's list and map, and its balance. */
  lemma AppendIndexFrame(b: Build, s: Tiers, to: Address, t: TokenId)
    ensures AppendIndex(b, s, to, t).Ok? ==>
              AgreeExcept(s, AppendIndex(b, s, to, t).value, GlobalSlots() + ListSlots(to) + {BalanceSlot(b, to)})
  {
  }

  /** mint writes only the owner slot, the recipient's balance and (enumerable) the lists it appends to. */
  lemma MintFrame(b: Build, s: Tiers, to: Address, t: TokenId)
    ensures MintOn(b, s, to, t).Ok? ==> AgreeExcept(s, MintOn(b, s, to, t).value, MintFootprint(b, to, t))
  {
    if MintOn(b, s, to, t).Ok? && b.enumerable && !Has(s, Instance, Data(TokenOwner(t))) {
      var s1 := if b.variant == Library then SetKey(b, s, Data(TokenOwner(t)), Addr(to))
                else Put(s, Instance, Data(TokenOwner(t)), Addr(to));
      AppendIndexFrame(b, s1, to, t);
    }
  }

  lemma MintFootprintSpares(b: Build, to: Address, t: TokenId)
    ensures SparesInvariantSlots(b, MintFootprint(b, to, t))
  {
  }

  lemma MintKeepsHealthy(b: Build, s: Tiers, to: Address, t: TokenId)
    requires Healthy(b, s)
    ensures MintOn(b, s, to, t).Ok? ==> Healthy(b, MintOn(b, s, to, t).value)
  {
    var r := MintOn(b, s, to, t);
    if r.Ok? {
      MintFrame(b, s, to, t);
      MintFootprintSpares(b, to, t);
      InvariantsSurvive(b, s, r.value, MintFootprint(b, to, t));
    }
  }

  /** The enumerable part of burn writes only the owner's list and map, its balance and (library) the global list and map. */
  lemma DropIndexFrame(b: Build, s: Tiers, owner: Address, t: TokenId)
    ensures DropIndex(b, s, owner, t).Ok? ==>
              AgreeExcept(s, DropIndex(b, s, owner, t).value,
                          ListSlots(owner) + {BalanceSlot(b, owner)} + (if b.variant == Library then GlobalSlots() else {}))
  {
  }

  /** burn writes only the approval and owner slots, the owner's balance and the lists it removes from. */
  lemma BurnFrame(b: Build, s: Tiers, caller: Address, t: TokenId)
    requires BurnInRange(b, s, t)
    ensures BurnOn(b, s, caller, t).Ok? ==>
              AgreeExcept(s, BurnOn(b, s, caller, t).value, BurnFootprint(b, OwnerIn(b, s, t).value, t))
  {
    var r := BurnOn(b, s, caller, t);
    if r.Ok? {
      var owner := OwnerIn(b, s, t).value;
      var s1 := RemoveKey(b, RemoveKey(b, s, Data(Approved(t))), Data(TokenOwner(t)));
      assert AgreeExcept(s, s1, {ApprovalSlot(t), OwnerSlot(b, t)});
      var rest := {BalanceSlot(b, owner)} + (if b.enumerable then ListSlots(owner) + (if b.variant == Library then GlobalSlots() else {}) else {});
      if b.enumerable {
        DropIndexFrame(b, s1, owner, t);
      }
      assert AgreeExcept(s1, r.value, rest);
      AgreeExceptTrans(s, s1, r.value, {ApprovalSlot(t), OwnerSlot(b, t)}, rest, BurnFootprint(b, owner, t));
    }
  }

  lemma BurnFootprintSpares(b: Build, owner: Address, t: TokenId)
    ensures SparesInvariantSlots(b, BurnFootprint(b, owner, t))
  {
  }

  lemma BurnKeepsHealthy(b: Build, s: Tiers, caller: Address, t: TokenId)
    requires Healthy(b, s) && BurnInRange(b, s, t)
    ensures BurnOn(b, s, caller, t).Ok? ==> Healthy(b, BurnOn(b, s, caller, t).value)
  {
    var r := BurnOn(b, s, caller, t);
    if r.Ok? {
      BurnFrame(b, s, caller, t);
      BurnFootprintSpares(b, OwnerIn(b, s, t).value, t);
      InvariantsSurvive(b, s, r.value, BurnFootprint(b, OwnerIn(b, s, t).value, t));
    }
  }

  /** A contract that stores its own keys beside the ledger's keeps the image healthy, whatever tier it writes. */
  lemma ForeignWriteKeepsHealthy(b: Build, s: Tiers, tier: Tier, k: Key, v: Value)
    requires Healthy(b, s) && !k.Data?
    ensures Healthy(b, Put(s, tier, k, v))
  {
    InvariantsSurvive(b, s, Put(s, tier, k, v), {(tier, k)});
  }

  /** mint writes only owner, balance and list entries: no other slot changes. */
  lemma MintSparesSlot(b: Build, s: Tiers, to: Address, t: TokenId, p: Slot)
    requires !p.1.Data? && !p.1.Enumerable?
    ensures MintOn(b, s, to, t).Ok? ==> Get(MintOn(b, s, to, t).value, p.0, p.1) == Get(s, p.0, p.1)
  {
    MintFrame(b, s, to, t);
  }

  /** mint changes the owner of no token but the one it mints. */
  lemma MintSparesOtherOwners(b: Build, s: Tiers, to: Address, t: TokenId, other: TokenId)
    requires other != t
    ensures MintOn(b, s, to, t).Ok? ==> OwnerIn(b, MintOn(b, s, to, t).value, other) == OwnerIn(b, s, other)
  {
    MintFrame(b, s, to, t);
    assert OwnerSlot(b, other) !in MintFootprint(b, to, t);
  }

  /** initialize writes only the admin, the metadata names and the global list: a front end's own keys survive it. */
  lemma InitializeSparesSlot(b: Build, s: Tiers, admin: Address, name: string, symbol: string, p: Slot)
    requires p.1.MillionTokenId? || p.1.Short? || p.1.Data?
    ensures var r := InitializeOn(b, s, admin, name, symbol);
            r.Ok? ==> Get(r.value, p.0, p.1) == Get(s, p.0, p.1)
  {
    InitializeFrame(b, s, admin, name, symbol);
  }
}
