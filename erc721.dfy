/**
 * The ledger contract as an object: its storage is a field the entry points
 * update step by step, as the Rust code does through `env.storage()`.
 *
 * Every entry point works on a copy of the storage and writes it back only
 * when it succeeds: a `panic_with_error!` or `panic!` is rolled back by the
 * host, so a failed call leaves the storage as it was. `require_auth` is
 * recorded by appending the identity whose authorization is demanded to the
 * ghost log `auths`; signature checking itself is outside the model.
 *
 * Each method is proved to take the storage where the matching function of
 * module Ledger says; the properties of those functions are the lemmas of
 * modules Frames and Facts.
 */
module Erc721 {
  import opened Types
  import opened Store
  import opened Index
  import opened Ledger
  import opened Frames

  class Contract {
    const build: Build
    var db: Tiers
    ghost var auths: seq<Address>

    ghost predicate Valid()
      reads this
    {
      Healthy(build, db)
    }

    constructor (build: Build)
      ensures Valid()
      ensures this.build == build && db == Empty && auths == []
    {
      this.build := build;
      db := Empty;
      auths := [];
    }

    /** initialize: aborts once the admin slot is taken; stores admin, metadata and empty lists otherwise. */
    method Initialize(admin: Address, name: string, symbol: string) returns (r: Outcome)
      requires Valid()
      modifies this
      ensures Valid() && auths == old(auths)
      ensures Applied(old(db), db, r, InitializeOn(build, old(db), admin, name, symbol))
    {
      var s := db;
      var slot := AdminSlot(build);
      if Has(s, slot.0, slot.1) {
        return Failed(Abort(AlreadyInitialized));
      }
      s := Put(s, slot.0, slot.1, Addr(admin));
      // `env.storage().instance().bump(10000)` only extends retention.
      if build.metadata {
        s := Put(s, Instance, Metadata(MetadataKey.Name), Text(name));
        s := Put(s, Instance, Metadata(MetadataKey.Symbol), Text(symbol));
      }
      if build.enumerable {
        s := SetKey(build, s, Enumerable(IndexToken), Ids([]));
        s := SetKey(build, s, Enumerable(TokenIndex), Positions(map[]));
      }
      InitializeKeepsHealthy(build, db, admin, name, symbol);
      db := s;
      r := Done;
    }

    /** approve: NotNFT without an owner; asks the owner or an operator caller for authorization. */
    method Approve(caller: Address, operator: Option<Address>, t: TokenId, expiration: nat) returns (r: Outcome)
      requires Valid()
      modifies this
      ensures Valid()
      ensures Applied(old(db), db, r, ApproveOn(build, old(db), caller, operator, t))
      ensures auths == old(auths) + ApproveAuths(build, old(db), caller, t)
    {
      var s := db;
      var owner := OwnerIn(build, s, t);
      if owner.None? {
        return Failed(Raise(NotNFT));
      }
      if owner.value == caller {
        auths := auths + [owner.value];
      } else if OperatorFlagIn(build, s, owner.value, caller) {
        auths := auths + [caller];
      }
      if operator.Some? {
        s := SetKey(build, s, Data(Approved(t)), Addr(operator.value));
        // The bump to `expiration` only extends retention.
      } else {
        s := RemoveKey(build, s, Data(Approved(t)));
      }
      ApproveKeepsHealthy(build, db, caller, operator, t);
      db := s;
      r := Done;
    }

    /** set_approval_for_all: NotAuthorized unless the caller is the owner or an operator of the owner. */
    method SetApprovalForAll(caller: Address, owner: Address, operator: Address, approved: bool, expiration: nat)
      returns (r: Outcome)
      requires Valid()
      modifies this
      ensures Valid()
      ensures Applied(old(db), db, r, SetApprovalForAllOn(build, old(db), caller, owner, operator, approved))
      ensures auths == old(auths) + ActorAuth(build, old(db), owner, caller)
    {
      var s := db;
      if owner == caller {
        auths := auths + [owner];
      } else if OperatorFlagIn(build, s, owner, caller) {
        auths := auths + [caller];
      } else {
        return Failed(Raise(NotAuthorized));
      }
      var key := Data(Operator(owner, operator));
      if approved {
        s := SetKey(build, s, key, Flag(true));
      } else {
        s := RemoveKey(build, s, key);
      }
      SetApprovalForAllKeepsHealthy(build, db, caller, owner, operator, approved);
      db := s;
      r := Done;
    }

    /** transfer_from: asks the spender for authorization, then checks and moves the token. */
    method TransferFrom(spender: Address, from: Address, to: Address, t: TokenId) returns (r: Outcome)
      requires Valid()
      modifies this
      ensures Valid()
      ensures Applied(old(db), db, r, TransferOn(build, old(db), spender, from, to, t))
      ensures auths == old(auths) + [spender]
    {
      auths := auths + [spender];
      var s := db;
      var allowed := true;
      if spender != from {
        var approval := ApprovalIn(build, s, t);
        var hasApproved := false;
        if approval.Some? {
          // Clear the approval on transfer, whoever it names.
          s := RemoveKey(build, s, Data(Approved(t)));
          hasApproved := approval.value == spender;
        }
        allowed := hasApproved || OperatorIn(build, s, from, spender);
      }
      if !allowed {
        return Failed(Raise(NotAuthorized));
      }
      var owner := OwnerIn(build, s, t);
      if owner.None? {
        return Failed(Raise(NotNFT));
      }
      if owner.value != from {
        return Failed(Raise(NotOwner));
      }
      if build.enumerable && from != to {
        var fromIds, fromPos := OwnerTokensIn(build, s, from), OwnerPositionsIn(build, s, from);
        var toIds, toPos := OwnerTokensIn(build, s, to), OwnerPositionsIn(build, s, to);
        if t !in fromPos {
          return Failed(Abort(Missing));
        }
        fromIds := RemoveAt(fromIds, fromPos[t]);
        fromPos := fromPos - {t};
        toPos := toPos[t := |toIds|];
        toIds := toIds + [t];
        s := SetKey(build, s, Enumerable(OwnerIndexToken(from)), Ids(fromIds));
        s := SetKey(build, s, Enumerable(OwnerTokenIndex(from)), Positions(fromPos));
        s := SetKey(build, s, Data(Balance(from)), Num(|fromIds|));
        s := SetKey(build, s, Enumerable(OwnerTokenIndex(to)), Positions(toPos));
        s := SetKey(build, s, Enumerable(OwnerIndexToken(to)), Ids(toIds));
        s := SetKey(build, s, Data(Balance(to)), Num(|toIds|));
      }
      s := SetKey(build, s, Data(TokenOwner(t)), Addr(to));
      TransferKeepsHealthy(build, db, spender, from, to, t);
      db := s;
      r := Done;
    }

    /**
     * mint: the library asks nobody (its callers are to authorize); the
     * earlier variant asks the stored admin. u32 counters are taken not
     * to overflow.
     */
    method Mint(to: Address, t: TokenId) returns (r: Outcome)
      requires Valid()
      requires !build.enumerable ==> BalanceOf(build, db, to) + 1 < U32_LIMIT
      modifies this
      ensures Valid()
      ensures Applied(old(db), db, r, MintOn(build, old(db), to, t))
      ensures auths == old(auths) + MintAuths(build, old(db))
    {
      var s := db;
      if build.variant == Earlier {
        var admin := AdminIn(build, s);
        if admin.None? {
          return Failed(Abort(NotInitialized));
        }
        auths := auths + [admin.value];
      }
      if Has(s, Instance, Data(TokenOwner(t))) {
        return Done;
      }
      if build.variant == Library {
        s := SetKey(build, s, Data(TokenOwner(t)), Addr(to));
      } else {
        s := Put(s, Instance, Data(TokenOwner(t)), Addr(to));
      }
      if build.enumerable {
        var all, allPos := AllTokensIn(build, s), AllPositionsIn(build, s);
        if all.None? || allPos.None? {
          return Failed(Abort(Missing));
        }
        var ids, pos := OwnerTokensIn(build, s, to), OwnerPositionsIn(build, s, to);
        var allIds, allMap := all.value, allPos.value;
        allMap := allMap[t := |allIds|];
        allIds := allIds + [t];
        pos := pos[t := |ids|];
        ids := ids + [t];
        s := SetKey(build, s, Enumerable(IndexToken), Ids(allIds));
        s := SetKey(build, s, Enumerable(TokenIndex), Positions(allMap));
        s := SetKey(build, s, Enumerable(OwnerIndexToken(to)), Ids(ids));
        s := SetKey(build, s, Enumerable(OwnerTokenIndex(to)), Positions(pos));
        s := SetKey(build, s, Data(Balance(to)), Num(|ids|));
      } else {
        var balance := BalanceOf(build, s, to);
        s := SetKey(build, s, Data(Balance(to)), Num(balance + 1));
      }
      MintKeepsHealthy(build, db, to, t);
      db := s;
      r := Done;
    }

    /**
     * burn: NotNFT without an owner, NotAuthorized unless the caller is the
     * owner or an operator (a single approval is not enough). The earlier
     * variant's `impl ERC721Burnable` is not exported by `#[contractimpl]`;
     * the method models its body all the same.
     */
    method Burn(caller: Address, t: TokenId) returns (r: Outcome)
      requires Valid() && build.burnable
      requires BurnInRange(build, db, t)
      modifies this
      ensures Valid()
      ensures Applied(old(db), db, r, BurnOn(build, old(db), caller, t))
      ensures auths == old(auths) + BurnAuths(build, old(db), caller, t)
    {
      var s := db;
      var found := OwnerIn(build, s, t);
      if found.None? {
        return Failed(Raise(NotNFT));
      }
      var owner := found.value;
      if owner == caller {
        auths := auths + [owner];
      } else if OperatorFlagIn(build, s, owner, caller) {
        auths := auths + [caller];
      } else {
        return Failed(Raise(NotAuthorized));
      }
      s := RemoveKey(build, s, Data(Approved(t)));
      s := RemoveKey(build, s, Data(TokenOwner(t)));
      if build.enumerable {
        var all, allPos := AllTokensIn(build, s), AllPositionsIn(build, s);
        if build.variant == Library && (all.None? || allPos.None?) {
          return Failed(Abort(Missing));
        }
        var ids, pos := OwnerTokensIn(build, s, owner), OwnerPositionsIn(build, s, owner);
        if t !in pos {
          return Failed(Abort(Missing));
        }
        if build.variant == Library && t !in allPos.value {
          return Failed(Abort(Missing));
        }
        ids := RemoveAt(ids, pos[t]);
        pos := pos - {t};
        s := SetKey(build, s, Enumerable(OwnerIndexToken(owner)), Ids(ids));
        s := SetKey(build, s, Enumerable(OwnerTokenIndex(owner)), Positions(pos));
        if build.variant == Library {
          s := SetKey(build, s, Enumerable(IndexToken), Ids(RemoveAt(all.value, allPos.value[t])));
          s := SetKey(build, s, Enumerable(TokenIndex), Positions(allPos.value - {t}));
        }
        s := SetKey(build, s, Data(Balance(owner)), Num(|ids|));
      } else {
        var balance := BalanceOf(build, s, owner);
        s := SetKey(build, s, Data(Balance(owner)), Num(balance - 1));
      }
      BurnKeepsHealthy(build, db, caller, t);
      db := s;
      r := Done;
    }
  }
}
