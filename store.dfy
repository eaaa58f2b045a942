/**
 * The contract's storage: three independent key/value areas (tiers).
 * Only get, set, has and remove are modelled; retention extension is a
 * no-op at this level of abstraction.
 */
module Store {
  import opened Types

  datatype Option<T> = None | Some(value: T)

  /** The values the contracts store: addresses, u32 counters, flags, Vec<u32>, Map<u32, u32>, strings. */
  datatype Value =
    | Addr(addr: Address)
    | Num(num: nat)
    | Flag(flag: bool)
    | Ids(ids: seq<TokenId>)
    | Positions(positions: map<TokenId, nat>)
    | Text(text: string)

  /** A storage slot: a key in one tier. The same key in two tiers names two unrelated entries. */
  type Slot = (Tier, Key)

  /** The contents of all three tiers. */
  type Tiers = map<Slot, Value>

  const Empty: Tiers := map[]

  function Get(s: Tiers, t: Tier, k: Key): Option<Value>
  {
    if (t, k) in s then Some(s[(t, k)]) else None
  }

  predicate Has(s: Tiers, t: Tier, k: Key)
  {
    (t, k) in s
  }

  /** `set` on one tier; map update leaves every other slot as it was. */
  function Put(s: Tiers, t: Tier, k: Key, v: Value): (r: Tiers)
    ensures Get(r, t, k) == Some(v)
    ensures r - {(t, k)} == s - {(t, k)}
  {
    s[(t, k) := v]
  }

  /** `remove` on one tier; every other slot stays as it was. */
  function Delete(s: Tiers, t: Tier, k: Key): (r: Tiers)
    ensures Get(r, t, k) == None
    ensures r - {(t, k)} == s - {(t, k)}
  {
    s - {(t, k)}
  }

  /** `s` and `s'` hold the same entries, except possibly at the given slots. */
  ghost predicate AgreeExcept(s: Tiers, s': Tiers, touched: set<Slot>)
  {
    forall p :: p !in touched ==> (p in s' <==> p in s) && (p in s ==> s'[p] == s[p])
  }

  /** Two partial rewrites compose: what neither touched is unchanged. */
  lemma AgreeExceptTrans(s0: Tiers, s1: Tiers, s2: Tiers, a: set<Slot>, c: set<Slot>, touched: set<Slot>)
    requires AgreeExcept(s0, s1, a) && AgreeExcept(s1, s2, c) && a + c <= touched
    ensures AgreeExcept(s0, s2, touched)
  {
  }

  // Decoding a stored value at one type; a value of another type reads as absent.

  function AsAddr(o: Option<Value>): Option<Address>
  {
    if o.Some? && o.value.Addr? then Some(o.value.addr) else None
  }

  function AsNum(o: Option<Value>): Option<nat>
  {
    if o.Some? && o.value.Num? then Some(o.value.num) else None
  }

  function AsFlag(o: Option<Value>): Option<bool>
  {
    if o.Some? && o.value.Flag? then Some(o.value.flag) else None
  }

  function AsIds(o: Option<Value>): Option<seq<TokenId>>
  {
    if o.Some? && o.value.Ids? then Some(o.value.ids) else None
  }

  function AsPositions(o: Option<Value>): Option<map<TokenId, nat>>
  {
    if o.Some? && o.value.Positions? then Some(o.value.positions) else None
  }

  function AsText(o: Option<Value>): Option<string>
  {
    if o.Some? && o.value.Text? then Some(o.value.text) else None
  }
}
