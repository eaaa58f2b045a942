/**
 * Sequential id assignment, as both minting front ends do it: a counter c
 * names the next token, each mint hands c to its recipient and moves the
 * counter to c + 1. These predicates say what a run of such mints leaves in
 * the ledger, whichever front end keeps the counter.
 */
module Minting {
  import opened Types
  import opened Store
  import opened Ledger

  /** From `s` to `s'` one mint handed token c to `to`, left every other owner alone and kept the invariants. */
  ghost predicate Stepped(b: Build, c: TokenId, s: Tiers, s': Tiers, to: Address)
  {
    && OwnerIn(b, s', c) == Some(to)
    && (forall t: TokenId :: t != c ==> OwnerIn(b, s', t) == OwnerIn(b, s, t))
    && Healthy(b, s')
  }

  /**
   * From `s` to `s'` the tokens c, c + 1, … went to `tos` in order, tokens
   * below c kept their owners, and the invariants hold.
   */
  ghost predicate Assigned(b: Build, c: TokenId, s: Tiers, s': Tiers, tos: seq<Address>)
  {
    && Healthy(b, s')
    && (forall i :: 0 <= i < |tos| ==> OwnerIn(b, s', c + i) == Some(tos[i]))
    && (forall t: TokenId :: t < c ==> OwnerIn(b, s', t) == OwnerIn(b, s, t))
  }

  /** No mint at all assigns nothing. */
  lemma AssignedNil(b: Build, c: TokenId, s: Tiers)
    requires Healthy(b, s)
    ensures Assigned(b, c, s, s, [])
  {
  }

  /** One mint of c followed by a run of mints from c + 1 is a run of mints from c. */
  lemma AssignedCons(b: Build, c: TokenId, s: Tiers, s1: Tiers, s': Tiers, tos: seq<Address>)
    requires |tos| > 0 && Stepped(b, c, s, s1, tos[0]) && Assigned(b, c + 1, s1, s', tos[1..])
    ensures Assigned(b, c, s, s', tos)
  {
    forall i | 0 <= i < |tos|
      ensures OwnerIn(b, s', c + i) == Some(tos[i])
    {
      if i == 0 {
        assert OwnerIn(b, s', c) == OwnerIn(b, s1, c);
      } else {
        assert tos[i] == tos[1..][i - 1];
        assert OwnerIn(b, s', (c + 1) + (i - 1)) == Some(tos[1..][i - 1]);
      }
    }
  }

  /** Successive mints through `step` for the recipients `tos`, in order, stopping at the first failure. */
  function RunMints(step: (Tiers, Address) -> Result<Tiers>, s: Tiers, tos: seq<Address>): Result<Tiers>
    decreases |tos|
  {
    if tos == [] then Ok(s)
    else
      match step(s, tos[0])
      case Err(f) => Err(f)
      case Ok(s1) => RunMints(step, s1, tos[1..])
  }

  /** From a healthy image every successful `step` hands out `next`'s value and moves it up by one. */
  ghost predicate StepsAssign(b: Build, step: (Tiers, Address) -> Result<Tiers>, next: Tiers -> nat)
  {
    forall s: Tiers, to: Address ::
      Healthy(b, s) && step(s, to).Ok? ==> next(step(s, to).value) == next(s) + 1 && Stepped(b, next(s), s, step(s, to).value, to)
  }

  /** From an image satisfying `inv` every `step` succeeds and keeps `inv`. */
  ghost predicate StepsSucceed(step: (Tiers, Address) -> Result<Tiers>, inv: Tiers -> bool)
  {
    forall s: Tiers, to: Address :: inv(s) ==> step(s, to).Ok? && inv(step(s, to).value)
  }

  /**
   * A run of such mints from counter c hands token c + i to tos[i], so the
   * ids are pairwise distinct; the counter ends at c + |tos|.
   */
  lemma {:induction false} RunAssigns(b: Build, step: (Tiers, Address) -> Result<Tiers>, next: Tiers -> nat, s: Tiers, tos: seq<Address>)
    requires Healthy(b, s) && StepsAssign(b, step, next)
    ensures var r := RunMints(step, s, tos);
            r.Ok? ==> next(r.value) == next(s) + |tos| && Assigned(b, next(s), s, r.value, tos)
    decreases |tos|
  {
    if tos == [] {
      AssignedNil(b, next(s), s);
    } else {
      var first := step(s, tos[0]);
      if first.Ok? {
        RunAssigns(b, step, next, first.value, tos[1..]);
        var r := RunMints(step, s, tos);
        if r.Ok? {
          AssignedCons(b, next(s), s, first.value, r.value, tos);
        }
      }
    }
  }

  /** A run of steps that cannot fail cannot fail. */
  lemma {:induction false} RunSucceeds(step: (Tiers, Address) -> Result<Tiers>, inv: Tiers -> bool, s: Tiers, tos: seq<Address>)
    requires inv(s) && StepsSucceed(step, inv)
    ensures RunMints(step, s, tos).Ok?
    decreases |tos|
  {
    if tos != [] {
      RunSucceeds(step, inv, step(s, tos[0]).value, tos[1..]);
    }
  }
}
