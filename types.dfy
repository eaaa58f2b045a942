/**
 * Storage keys of the NFT ledger, the storage tier each key is routed to,
 * and the contract's error codes.
 *
 * Two snapshots of the ledger exist: the library (erc721/src/types.rs) and
 * an earlier variant (src/types.rs). They declare the same key classes but
 * route the ownership and balance keys to different tiers, so every routing
 * function here takes the Variant as a parameter.
 */
module Types {

  /** An account identity. Only equality between identities matters here. */
  type Address = nat

  /** A token id; a u32 in the contract, so ids stay below U32_LIMIT. */
  type TokenId = nat

  /** 2^32: the first value a u32 counter cannot hold. */
  const U32_LIMIT: nat := 0x1_0000_0000

  /** The three storage areas of a contract. */
  datatype Tier = Instance | Persistent | Temporary

  /** Which snapshot of the ledger: erc721/ (Library) or src/ (Earlier). */
  datatype Variant = Library | Earlier

  /** The five operations of the `Storage` trait. */
  datatype StorageOp = GetOp | SetOp | HasOp | BumpOp | RemoveOp

  datatype DataKey =
    | Balance(owner: Address)
    | TokenOwner(token: TokenId)
    | Approved(token: TokenId)
    | Operator(owner: Address, operator: Address)

  datatype MetadataKey = Name | Symbol | Uri(token: TokenId)

  datatype EnumerableKey =
    | IndexToken
    | TokenIndex
    | OwnerIndexToken(owner: Address)
    | OwnerTokenIndex(owner: Address)

  /**
   * Every key the contracts of this repository store under.
   * AdminUser is the library's `Admin::User`, AdminUnit the earlier
   * variant's `ADMIN()`, MillionTokenId the homepage contract's counter key,
   * and Short a `symbol_short!` key that the example collection writes
   * straight into a tier.
   */
  datatype Key =
    | AdminUser
    | AdminUnit
    | Data(data: DataKey)
    | Metadata(meta: MetadataKey)
    | Enumerable(index: EnumerableKey)
    | MillionTokenId
    | Short(symbol: ShortSymbol)

  /** The `symbol_short!` keys of the example collection: "id" and "base". */
  datatype ShortSymbol = Id | Base

  /** The tier that holds balances and owners: Persistent in the library, Instance earlier. */
  function OwnershipTier(v: Variant): (t: Tier)
    ensures t != Temporary
    ensures t == Persistent <==> v == Library
  {
    match v
    case Library => Persistent
    case Earlier => Instance
  }

  /**
   * `impl Storage for DataKey`: each of the five trait methods has its own
   * `match`, written out here one by one as in the source.
   */
  function DataKeyTier(v: Variant, op: StorageOp, k: DataKey): (t: Tier)
    ensures k.Approved? || k.Operator? ==> t == Temporary
    ensures k.Balance? || k.TokenOwner? ==> t == OwnershipTier(v)
  {
    var durable := OwnershipTier(v);
    match op
    case GetOp =>
      (match k
       case Balance(_) => durable
       case TokenOwner(_) => durable
       case Approved(_) => Temporary
       case Operator(_, _) => Temporary)
    case SetOp =>
      (match k
       case Balance(_) => durable
       case TokenOwner(_) => durable
       case Approved(_) => Temporary
       case Operator(_, _) => Temporary)
    case HasOp =>
      (match k
       case Balance(_) => durable
       case TokenOwner(_) => durable
       case Approved(_) => Temporary
       case Operator(_, _) => Temporary)
    case BumpOp =>
      (match k
       case Balance(_) => durable
       case TokenOwner(_) => durable
       case Approved(_) => Temporary
       case Operator(_, _) => Temporary)
    case RemoveOp =>
      (match k
       case Balance(_) => durable
       case TokenOwner(_) => durable
       case Approved(_) => Temporary
       case Operator(_, _) => Temporary)
  }

  /** `impl Storage for DatakeyMetadata` and `for DataKeyEnumerable`: always Instance. */
  function InstanceKeyTier(op: StorageOp): (t: Tier)
    ensures t == Instance
  {
    match op
    case GetOp => Instance
    case SetOp => Instance
    case HasOp => Instance
    case BumpOp => Instance
    case RemoveOp => Instance
  }

  /** `impl Storage for Admin` (library only): always Persistent. */
  function AdminTier(op: StorageOp): (t: Tier)
    ensures t == Persistent
  {
    match op
    case GetOp => Persistent
    case SetOp => Persistent
    case HasOp => Persistent
    case BumpOp => Persistent
    case RemoveOp => Persistent
  }

  /** The keys that go through a `Storage` impl in the given variant. */
  predicate Routed(v: Variant, k: Key)
  {
    match k
    case AdminUser => v == Library
    case Data(_) => true
    case Metadata(_) => true
    case Enumerable(_) => true
    case MillionTokenId => true
    case _ => false
  }

  /** The tier a `Storage` impl sends operation `op` on key `k` to. */
  function Route(v: Variant, op: StorageOp, k: Key): (t: Tier)
    requires Routed(v, k)
    ensures k.Metadata? || k.Enumerable? || k.MillionTokenId? ==> t == Instance
    ensures k.AdminUser? ==> t == Persistent
    ensures k.Data? && (k.data.Approved? || k.data.Operator?) ==> t == Temporary
    ensures k.Data? && (k.data.Balance? || k.data.TokenOwner?) ==> t == OwnershipTier(v)
  {
    match k
    case AdminUser => AdminTier(op)
    case Data(d) => DataKeyTier(v, op, d)
    case Metadata(_) => InstanceKeyTier(op)
    case Enumerable(_) => InstanceKeyTier(op)
    case MillionTokenId => InstanceKeyTier(op)
  }

  /** For any routed key, get, set, has, bump and remove reach the same tier. */
  lemma DispatchAgrees(v: Variant, k: Key, op: StorageOp)
    requires Routed(v, k)
    ensures Route(v, op, k) == Route(v, GetOp, k)
  {
  }

  /** What `bump` extends: the whole instance area, or the one entry in its tier. */
  datatype Extension = WholeInstance | OneEntry(tier: Tier)

  /**
   * The retention extension `bump` asks for. Instance-routed keys call
   * `Instance::bump(env, ..)`, which takes no key; the others extend the key.
   */
  function BumpOf(v: Variant, k: Key): (e: Extension)
    requires Routed(v, k)
    ensures e == WholeInstance <==> Route(v, BumpOp, k) == Instance
    ensures e.OneEntry? ==> e.tier == Route(v, BumpOp, k)
  {
    match k
    case AdminUser => OneEntry(Persistent)
    case Data(d) =>
      (match d
       case Balance(_) => if v == Library then OneEntry(Persistent) else WholeInstance
       case TokenOwner(_) => if v == Library then OneEntry(Persistent) else WholeInstance
       case Approved(_) => OneEntry(Temporary)
       case Operator(_, _) => OneEntry(Temporary))
    case Metadata(_) => WholeInstance
    case Enumerable(_) => WholeInstance
    case MillionTokenId => WholeInstance
  }

  /** The contract errors. There is no error with code 3. */
  datatype Error = NotOwner | NotNFT | NotAuthorized | OutOfBounds

  function Code(e: Error): (c: nat)
    ensures c != 3 && c <= 4
  {
    match e
    case NotOwner => 0
    case NotNFT => 1
    case NotAuthorized => 2
    case OutOfBounds => 4
  }

  /** Distinct errors carry distinct codes. */
  lemma CodeInjective(e1: Error, e2: Error)
    ensures Code(e1) == Code(e2) ==> e1 == e2
  {
  }
}
