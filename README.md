# Soroban NFT ledger, modelled in Dafny

This project models the NFT ledger `ERC721Contract` and the two minting
front ends built on it.

The ledger is a Soroban smart contract following the ERC721, ERC721Metadata
and ERC721Enumerable interfaces of EIP-721. Callers pass explicit
`spender`/`caller` arguments and expiry ledgers. Its storage is split into
three tiers: Instance, Persistent and Temporary. Every key type has a
`Storage` impl that picks the tier for each of get, set, has, bump and
remove. The ledger stores:

- one owner per token;
- one balance per identity;
- at most one approver per token;
- an operator flag per (owner, operator) pair;
- a global token list and one list per owner, each with a reverse map from token to position;
- an admin slot;
- name, symbol and URI metadata.

Two snapshots are modelled:

- `erc721/src/lib.rs` with `erc721/src/types.rs`, called the library;
- `src/lib.rs` with `src/types.rs`, called the earlier variant.

They differ in several ways:

- where balances, owners and the admin live;
- whether mint asks the admin for authorization;
- whether burn updates the global list;
- whether token_uri has a default.

The cargo features `enumerable`, `burnable` and `metadata` are flags of a
`Build` value, so every lemma holds for all eight feature combinations
unless it says otherwise.

Modules:

- `Types`: the keys and the routing of each key to its tier, for both snapshots, and the error codes.
- `Store`: the three tiers, held as one map from (tier, key) slots to values.
- `Index`: `Vec::remove` and the consistency of a list with its reverse map.
- `Ledger`: every entry point as a function from the storage image before the call to the image after it, or to the failure. A `panic_with_error!` or `panic!` is rolled back by the host, so a failure carries no image. This module also holds the getters and the storage invariants.
- `Frames`: which slots each entry point writes, and that every entry point keeps the invariants.
- `Facts`: what each entry point promises, as lemmas over the functions.
- `Erc721`: the contract as a class whose storage field the methods update step by step, with a ghost log of `require_auth` calls. Each method is proved to end where the matching `Ledger` function says. The `...On` functions define what an entry point does, and the lemmas reason about them. The class is the imperative rendering of the same entry point: the source updates storage in place, one `set` or `remove` at a time, and the class does too. Its contract, `Applied`, is the link between the two.
- `Minting`, `Million`, `Collection`: the homepage front end (`millionlumenhomepage/src/lib.rs`) and the example collection (`erc721-example/src/lib.rs`). Each is a counter that hands out sequential ids before calling the ledger's mint. Both are classes over a shared `Contract`.
- `Scenario`: the library's own test `simpl_test` (`erc721/src/tests.rs`), chained step by step over explicit views of the storage.

Behaviours of the code that the model keeps as written. Each breaks an invariant the ledger's design relies on: one list entry per owned token, or a reverse map that matches its list. The named lemmas state the program's real behaviour. The model keeps that behaviour and does not substitute a corrected version:

- Removal from a list is an order-preserving `Vec::remove` at the recorded position. Only the removed token's reverse entry is deleted, so reverse maps go stale after a removal that is not the last (`Index.RemoveEarlierGoesStale`, `Facts.TransferOfEarlierGoesStale`, `Scenario.SimplTestFrom`).
- The library's mint tests for an owner record in the Instance tier, but writes owners to Persistent. A re-mint is therefore not skipped, and it appends the id to the global list a second time (`Facts.LibraryRemintDuplicates`).
- The example collection writes each token's URI to the Persistent tier. token_uri reads it through the routing, which goes to Instance, so every token reads "no uri" (`Collection.CollectionTokenUriIsDefault`).
- transfer_from clears a token's approval only when the spender is not `from`. An owner's own transfer therefore hands the approval on to the new owner (`Facts.TransferApproval`).

## Model

| member | source | states |
|---|---|---|
| Types.OwnershipTier | erc721/src/types.rs:38-82 | balances and owners live in Persistent in the library and in Instance in the earlier variant, never in Temporary |
| Types.DataKeyTier | erc721/src/types.rs:38-82 | each of the five `DataKey` matches sends Approved and Operator to Temporary, and Balance and TokenOwner to the variant's durable tier |
| Types.InstanceKeyTier | erc721/src/types.rs:90-141 | every `DatakeyMetadata` and `DataKeyEnumerable` key routes to Instance for every operation |
| Types.AdminTier | erc721/src/types.rs:9-30 | `Admin::User` routes to Persistent for every operation |
| Types.Route | src/types.rs:11-109 | the tier of every routed key, for both variants: metadata, enumeration and counter keys go to Instance, the admin to Persistent, approvals and operators to Temporary, and balances and owners to the variant's durable tier |
| Types.DispatchAgrees | src/types.rs:11-52 | for any routed key, get, set, has, bump and remove reach the same tier |
| Types.BumpOf | erc721/src/types.rs:64-74 | bump extends the whole instance exactly when the key routes to Instance, and otherwise extends that one entry in its tier |
| Types.Code | erc721/src/types.rs:145-150 | the error codes are 0, 1, 2 and 4; no error has code 3 |
| Types.CodeInjective | src/types.rs:113-118 | distinct errors carry distinct codes |
| Store.Put | erc721/src/types.rs:46-56 | the routing wrapper's set on a tier makes the key read back the stored value in that tier, and every other slot is left as it was |
| Store.Delete | erc721/src/types.rs:76-82 | the routing wrapper's remove on a tier makes the key read as absent in that tier, and every other slot is left as it was |
| Index.RemoveAt | erc721/src/lib.rs:68 | `Vec::remove(i)` keeps the elements before i, shifts the rest one place left and shortens the list by one; an out-of-range i changes nothing |
| Index.RemoveAtMultiset | erc721/src/lib.rs:229 | removing at a position drops exactly the one element found there |
| Index.AppendKeepsConsistent | erc721/src/lib.rs:325-329 | appending a new token with reverse entry equal to the old length keeps a consistent list consistent |
| Index.RemoveLastKeepsConsistent | erc721/src/lib.rs:68-69 | removing the last token at its recorded position keeps a consistent list consistent |
| Index.RemoveEarlierGoesStale | erc721/src/lib.rs:229-232 | removing a token that is not last leaves its successor's reverse entry one too high, so list and map are no longer consistent |
| Index.StaleRemovalHitsNeighbour | erc721/src/lib.rs:229-232 | after that, removing the moved token at its stale position deletes its neighbour instead, and the moved token stays listed |
| Ledger.StoreHolding | erc721/src/lib.rs:76-78 | writing an owner's list, then the map, then the balance makes them read back as written, with balance equal to the list length, and touches no other slot |
| Ledger.StoreHoldingMapFirst | erc721/src/lib.rs:81-83 | the receiving side's writes, map first, read back as written, with balance equal to the list length, and touch no other slot |
| Ledger.StoreGlobal | erc721/src/lib.rs:331-332 | writing the global list and map makes both read back as written and touches nothing else |
| Ledger.InvariantsSurvive | erc721/src/lib.rs:137-143 | writes that touch no operator entry and no Instance owner entry keep the storage invariants |
| Ledger.BalanceOf | erc721/src/lib.rs:23-25 | the stored balance, or 0 when there is no entry |
| Ledger.GetApproved | erc721/src/lib.rs:145-147 | Some exactly when the approval entry holds an address, and then that stored address |
| Ledger.IsApprovalForAll | erc721/src/lib.rs:148-152 | true exactly when the operator entry stores true; false when it is absent or false |
| Ledger.StoredText | erc721/src/lib.rs:158-163 | name() and symbol() abort exactly when no string is stored; otherwise they return the stored string |
| Ledger.TokenUri | erc721/src/lib.rs:164-168 | the URI stored in Instance; without one, "no uri" in the library and an abort in the earlier variant |
| Ledger.TotalSupply | erc721/src/lib.rs:174-179 | the global list's length; aborts exactly when the list is missing |
| Ledger.TokenByIndex | erc721/src/lib.rs:180-186 | element i of the global list; OutOfBounds exactly when i is past its end; aborts when the list is missing |
| Ledger.TokenOfOwnerByIndex | erc721/src/lib.rs:187-193 | element i of the owner's list; OutOfBounds exactly when i is past its end, including when there is no list |
| Ledger.Healthy | erc721/src/lib.rs:137-143 | the invariant every reachable image keeps: an operator entry only ever holds true, and in the library no owner record sits in the Instance tier; Frames.*KeepsHealthy prove every entry point keeps it |
| Ledger.ActorAuth | erc721/src/lib.rs:100-108 | whose authorization approve and burn ask for: the owner when it is the caller, else an operator caller, else nobody; Facts.ApproveRejectsNobody states the last case |
| Ledger.InitializeOn | erc721/src/lib.rs:275-298 | initialize as a function of the storage image; its outcomes are stated by Facts.InitializeOutcome and Facts.InitializeOnce, and its writes by Frames.InitializeFrame |
| Ledger.ApproveOn | erc721/src/lib.rs:100-117 | approve as a function of the storage image; Facts.ApproveOutcome states its error and get_approved round trip, and Frames.ApproveFrame its one write |
| Ledger.ApproveAuths | erc721/src/lib.rs:100-108 | the authorization approve asks for, nobody when the token has no owner |
| Ledger.SetApprovalForAllOn | erc721/src/lib.rs:127-143 | set_approval_for_all as a function of the storage image; Facts.SetApprovalForAllOutcome states its error and both getters' round trip |
| Ledger.MoveIndex | erc721/src/lib.rs:52-84 | the enumerable part of transfer_from; Facts.MoveIndexEffect states its failure and resulting holdings, and Frames.MoveIndexFrame its writes |
| Ledger.TransferOn | erc721/src/lib.rs:27-91 | transfer_from as a function of the storage image; Facts.TransferErrors, TransferApproval, TransferOwner and TransferIndex state its outcomes |
| Ledger.AppendIndex | erc721/src/lib.rs:312-336 | the enumerable part of mint; Facts.MintAppends states its failure and the appended lists, and Frames.AppendIndexFrame its writes |
| Ledger.MintOn | erc721/src/lib.rs:305-343 | mint as a function of the storage image, for both variants; Facts.MintAdmin, MintSkips, MintAppends, MintCounts and LibraryRemintDuplicates state its outcomes |
| Ledger.MintAuths | src/lib.rs:268-269 | the earlier variant's mint asks the stored admin; the library's asks nobody |
| Ledger.DropIndex | erc721/src/lib.rs:217-239 | the enumerable part of burn; Facts.BurnIndex states its resulting lists, and Frames.DropIndexFrame its writes |
| Ledger.BurnInRange | erc721/src/lib.rs:243 | the `balance - 1` of a non-enumerable burn stays at or above 0 |
| Ledger.BurnOn | erc721/src/lib.rs:199-245 | burn as a function of the storage image; Facts.BurnErrors, BurnRemoves, BurnIndex and BurnCounts state its outcomes |
| Ledger.BurnAuths | erc721/src/lib.rs:203-212 | the authorization burn asks for, the owner or the operator caller |
| Frames.InitializeFrame | erc721/src/lib.rs:275-298 | initialize writes only the admin slot, name, symbol and the global list and map |
| Frames.InitializeFootprintSpares | erc721/src/lib.rs:275-298 | none of initialize's slots is an operator or an Instance owner entry |
| Frames.InitializeKeepsHealthy | erc721/src/lib.rs:275-298 | initialize keeps the storage invariants |
| Frames.ApproveFrame | erc721/src/lib.rs:112-117 | approve writes only the token's approval slot |
| Frames.ApproveKeepsHealthy | erc721/src/lib.rs:93-118 | approve keeps the storage invariants |
| Frames.SetApprovalForAllFrame | erc721/src/lib.rs:137-143 | set_approval_for_all writes only the one operator slot |
| Frames.SetApprovalForAllKeepsHealthy | erc721/src/lib.rs:137-143 | set_approval_for_all keeps the storage invariants, among them that every operator entry holds true |
| Frames.MoveIndexFrame | erc721/src/lib.rs:52-84 | the enumerable part of a transfer writes only the two owners' lists, maps and balances |
| Frames.TransferFrame | erc721/src/lib.rs:27-92 | transfer_from writes only the approval, the owner record and, on the enumerable path, the two holdings |
| Frames.TransferFootprintSpares | erc721/src/lib.rs:27-92 | none of transfer_from's slots is an operator or an Instance owner entry |
| Frames.TransferKeepsHealthy | erc721/src/lib.rs:27-92 | transfer_from keeps the storage invariants |
| Frames.AppendIndexFrame | erc721/src/lib.rs:312-336 | the enumerable part of mint writes only the global list and map and the recipient's list, map and balance |
| Frames.MintFrame | erc721/src/lib.rs:305-343 | mint writes only the owner record, the recipient's balance and, when enumerable, the lists |
| Frames.MintFootprintSpares | erc721/src/lib.rs:305-343 | none of mint's slots is an operator or an Instance owner entry |
| Frames.MintKeepsHealthy | erc721/src/lib.rs:305-343 | mint keeps the storage invariants |
| Frames.DropIndexFrame | erc721/src/lib.rs:217-239 | the enumerable part of burn writes only the owner's list, map and balance, and in the library the global list and map |
| Frames.BurnFrame | erc721/src/lib.rs:199-245 | burn writes only the approval, the owner record, the owner's balance and the lists |
| Frames.BurnFootprintSpares | erc721/src/lib.rs:199-245 | none of burn's slots is an operator or an Instance owner entry |
| Frames.BurnKeepsHealthy | erc721/src/lib.rs:199-245 | burn keeps the storage invariants |
| Frames.ForeignWriteKeepsHealthy | millionlumenhomepage/src/lib.rs:16 | a front end's write to a key outside `DataKey` keeps the ledger's invariants |
| Frames.MintSparesSlot | erc721/src/lib.rs:305-343 | mint leaves every slot outside `DataKey` and `DataKeyEnumerable` as it was |
| Frames.MintSparesOtherOwners | erc721/src/lib.rs:310 | mint changes the owner of no token but the one it mints |
| Frames.InitializeSparesSlot | erc721/src/lib.rs:275-298 | initialize leaves every `DataKey`, short-symbol and counter slot as it was |
| Facts.InitializeOutcome | erc721/src/lib.rs:275-298 | initialize fails exactly when the admin slot is taken, with "Already initialized"; otherwise the admin, name and symbol read back, and an enumerable build has total supply 0 and an empty map |
| Facts.InitializeOnce | src/lib.rs:246-248 | a second initialize after a successful one always aborts "Already initialized" |
| Facts.ApproveOutcome | erc721/src/lib.rs:100-117 | approve fails NotNFT exactly when the token has no owner; otherwise get_approved returns the operator argument (`Some(a)` stores a, `None` deletes) |
| Facts.ApproveRejectsNobody | erc721/src/lib.rs:100-108 | a caller who is neither owner nor operator is not rejected, and no authorization is asked of anyone |
| Facts.SetApprovalForAllOutcome | erc721/src/lib.rs:127-143 | fails NotAuthorized exactly when the caller is neither the owner nor an operator; otherwise is_approval_for_all and the `has` check both equal `approved` |
| Facts.OperatorChecksAgree | erc721/src/lib.rs:39 | in a healthy image, the `has` check on an operator entry agrees with the bool check at lines 103-105 |
| Facts.TransferErrors | erc721/src/lib.rs:27-91 | transfer_from fails NotAuthorized, then NotNFT, then NotOwner, each exactly under its condition and in that order; an abort happens exactly when from's reverse entry is missing on the enumerable path; it succeeds exactly otherwise |
| Facts.TransferApproval | erc721/src/lib.rs:29-45 | after a successful transfer the approval is gone when spender != from, and unchanged when spender == from |
| Facts.TransferOwner | erc721/src/lib.rs:85 | a successful transfer makes `to` the owner |
| Facts.TransferIndex | erc721/src/lib.rs:52-84 | an enumerable transfer with from != to removes the token from from's list at its recorded position and drops its reverse entry, appends it to to's list with reverse entry equal to to's old length, sets both balances to the new lengths and leaves the global list and map alone |
| Facts.OwnerWriteKeepsIndex | erc721/src/lib.rs:33 | writing only the approval and owner slots changes no list, map or balance |
| Facts.MoveIndexEffect | erc721/src/lib.rs:58-83 | the list part of a transfer fails exactly when from's reverse map lacks the token, and otherwise produces the lists, maps and balances described for TransferIndex |
| Facts.TransferToSelf | erc721/src/lib.rs:52 | a transfer with from == to changes nothing but the approval, and with spender == from changes nothing at all |
| Facts.TransferKeepsBalances | src/lib.rs:51-84 | without `enumerable`, transfer_from leaves every balance unchanged |
| Facts.TransferThenBurnUnderflows | erc721/src/lib.rs:243 | without `enumerable`, a token transferred to an identity with balance 0 cannot then be burnt without `balance - 1` underflowing |
| Facts.TransferOfLastKeepsConsistent | erc721/src/lib.rs:67-73 | moving the last token of a consistent list into a consistent list keeps both consistent |
| Facts.TransferOfEarlierGoesStale | erc721/src/lib.rs:67-69 | moving a token that is not last leaves the sender's list and reverse map inconsistent |
| Facts.MintAdmin | src/lib.rs:269 | the earlier mint aborts "Not initialized" exactly when no admin is stored, and asks the admin for authorization; the library's mint asks nobody and never aborts this way |
| Facts.MintSkips | src/lib.rs:271 | mint of an id whose owner record is in Instance changes nothing |
| Facts.EarlierMintTwiceIsOnce | src/lib.rs:271-306 | in the earlier variant, minting the same id a second time changes nothing |
| Facts.LibraryMintNeverSkips | erc721/src/lib.rs:309-310 | in a healthy library image the skip branch is never taken, and a successful mint makes `to` the owner |
| Facts.MintAppends | erc721/src/lib.rs:312-336 | an enumerable mint aborts exactly when the global list or map is missing; otherwise it appends the id to both lists with reverse entries equal to the old lengths, sets balance(to) to the list length, and total_supply grows by one |
| Facts.AppendIndexEffect | erc721/src/lib.rs:312-336 | the list part of mint aborts exactly when the global list or map is missing; otherwise the id joins the end of both lists with reverse entries equal to the old lengths, and the balance becomes the owner's list length |
| Facts.MintCounts | src/lib.rs:301-305 | without `enumerable`, a mint that is not skipped succeeds and adds exactly 1 to balance(to) |
| Facts.MintKeepsConsistent | erc721/src/lib.rs:325-329 | minting an id absent from both reverse maps keeps both lists consistent |
| Facts.LibraryRemintDuplicates | erc721/src/lib.rs:309 | in the library, minting an owned id again appends it to the global list a second time |
| Facts.BurnErrors | erc721/src/lib.rs:200-212 | burn fails NotNFT exactly without an owner, and NotAuthorized exactly when the caller is neither the owner nor an operator |
| Facts.BurnApproverNotEnough | erc721/src/lib.rs:203-212 | being the token's single approver is not enough to burn it |
| Facts.BurnRemoves | erc721/src/lib.rs:214-215 | a burned token has neither an owner nor an approval |
| Facts.BurnIndex | erc721/src/lib.rs:217-239 | an enumerable burn removes the token from the owner's list at its recorded position, drops its reverse entry and sets the balance to the new length; the library does the same on the global list, and the earlier variant leaves the global list alone |
| Facts.BurnCounts | src/lib.rs:228-232 | without `enumerable`, burn subtracts exactly 1 from the owner's balance |
| Erc721.Contract.constructor | erc721/src/lib.rs:273-274 | a fresh contract with the given build, empty storage and an empty authorization log |
| Erc721.Contract.Initialize | erc721/src/lib.rs:275-298 | the new storage is what InitializeOn gives, or the old storage on failure; no authorization is asked |
| Erc721.Contract.Approve | erc721/src/lib.rs:93-118 | the new storage and outcome are ApproveOn's; the owner, or an operator caller, is logged as asked for authorization |
| Erc721.Contract.SetApprovalForAll | erc721/src/lib.rs:119-144 | the new storage and outcome are SetApprovalForAllOn's; the owner, or the operator caller, is logged |
| Erc721.Contract.TransferFrom | erc721/src/lib.rs:27-92 | the new storage and outcome are TransferOn's; the spender is logged |
| Erc721.Contract.Mint | src/lib.rs:268-307 | the new storage and outcome are MintOn's; the earlier variant logs the admin |
| Erc721.Contract.Burn | erc721/src/lib.rs:199-245 | the new storage and outcome are BurnOn's; the owner, or the operator caller, is logged |
| Minting.AssignedNil | millionlumenhomepage/src/lib.rs:26-30 | no mint assigns nothing and keeps the invariants |
| Minting.AssignedCons | millionlumenhomepage/src/lib.rs:26-30 | one mint of c followed by mints from c + 1 assigns c, c + 1, … in order |
| Minting.RunMints | millionlumenhomepage/src/lib.rs:24-30 | successive mints through one step function, stopping at the first failure |
| Minting.RunAssigns | millionlumenhomepage/src/lib.rs:26-30 | when every step hands out the counter's value and bumps it, a run hands token c + i to tos[i] and leaves the counter at c plus the number of recipients |
| Minting.RunSucceeds | erc721-example/src/lib.rs:31-45 | when no step can fail from an invariant the steps keep, no run fails |
| Million.NextToken | millionlumenhomepage/src/lib.rs:26 | the counter, 0 when it was never stored |
| Million.HomepageInitializeOn | millionlumenhomepage/src/lib.rs:13-18 | initialize as a function of the storage image; Million.HomepageInitializeOutcome states its outcome |
| Million.HomepageMintOn | millionlumenhomepage/src/lib.rs:24-30 | mint as a function of the storage image; Million.HomepageMintStep and HomepageMintOwners state its outcome |
| Million.HomepageMintAll | millionlumenhomepage/src/lib.rs:24-30 | successive mints, stopping at the first failure; Million.MintAllAssigns states what they assign |
| Million.CounterWriteKeepsLedger | millionlumenhomepage/src/lib.rs:16 | storing the counter keeps the ledger's invariants and balances, and the counter reads back |
| Million.HomepageInitializeOutcome | millionlumenhomepage/src/lib.rs:13-18 | initialize fails exactly when the ledger is initialized already; otherwise the counter is 0, the admin is stored, and name and symbol read "Pixel" and "PIX" |
| Million.HomepageMintStep | millionlumenhomepage/src/lib.rs:24-30 | a mint hands the counter's value to `to`, leaves every other owner and the invariants alone, and moves the counter up by one; it can fail only with `enumerable` and a missing global list |
| Million.HomepageMintOwners | millionlumenhomepage/src/lib.rs:26-30 | after a mint the minted id belongs to `to` and every other token keeps its owner |
| Million.HomepageMintWritesNoUri | millionlumenhomepage/src/lib.rs:28-29 | a mint writes no URI: token_uri of every token is unchanged |
| Million.MintKeepsFresh | millionlumenhomepage/src/lib.rs:26-30 | from an image where no id at or above the counter is owned, the minted id was unowned and the image stays that way |
| Million.InitializeFresh | millionlumenhomepage/src/lib.rs:13-18 | initialize on an empty ledger succeeds and leaves no token owned |
| Million.MintAllAssigns | millionlumenhomepage/src/lib.rs:24-30 | successive mints for `tos` give token c + i to tos[i], so the ids are distinct and the skip branch is never reached; the counter ends at c + \|tos\|; without `enumerable` they all succeed |
| Million.Homepage.constructor | millionlumenhomepage/src/lib.rs:8-12 | a homepage over a fresh library ledger with empty storage |
| Million.Homepage.Initialize | millionlumenhomepage/src/lib.rs:13-18 | the new storage and outcome are HomepageInitializeOn's; nothing is logged |
| Million.Homepage.Mint | millionlumenhomepage/src/lib.rs:24-31 | `to` is logged, and the new storage and outcome are HomepageMintOn's |
| Collection.NextId | erc721-example/src/lib.rs:32 | the counter under "id", 0 when it was never stored |
| Collection.BaseUri | erc721-example/src/lib.rs:37-40 | the base URI under "base", absent when never stored |
| Collection.CollectionInitializeOn | erc721-example/src/lib.rs:16-21 | initialize as a function of the storage image; Collection.CollectionInitializeOutcome states its outcome |
| Collection.Prepared | erc721-example/src/lib.rs:31-42 | the counter bump and URI write before the ledger's mint; Collection.PreparedWrites states what they change |
| Collection.CollectionMintOn | erc721-example/src/lib.rs:27-46 | mint as a function of the storage image; Collection.CollectionMintStep, CollectionMintUri and CollectionMintOwners state its outcome |
| Collection.CollectionMintAll | erc721-example/src/lib.rs:27-46 | successive mints, stopping at the first failure; Collection.CollectionMintAllAssigns and CollectionMintAllSucceeds state what they do |
| Collection.OwnWriteKeepsLedger | erc721-example/src/lib.rs:19 | the collection's own writes keep the ledger's invariants and the absence of Instance URIs |
| Collection.PreparedWrites | erc721-example/src/lib.rs:31-42 | the counter bump and URI write happen exactly when a base URI exists, move the counter up by one, store the base URI as the token's Persistent URI and leave every owner, the global index, every Instance URI and the invariants unchanged |
| Collection.CollectionInitializeOutcome | erc721-example/src/lib.rs:16-21 | initialize fails exactly when the ledger is initialized already; otherwise the base URI is stored, the admin too, and name and symbol read "Non-Fungible Token" and "NFT" |
| Collection.CollectionInitializeKeepsNoUris | erc721-example/src/lib.rs:16-21 | initialize writes no Instance URI |
| Collection.CollectionMintStep | erc721-example/src/lib.rs:27-46 | a mint aborts without a base URI, cannot fail otherwise without `enumerable`, hands the counter's value to `to` and moves the counter up by one |
| Collection.CollectionMintUri | erc721-example/src/lib.rs:36-42 | a successful mint stores the base URI as the minted token's URI in the Persistent tier and keeps the base URI |
| Collection.CollectionMintOwners | erc721-example/src/lib.rs:32-45 | after a mint the minted id belongs to `to` and every other token keeps its owner |
| Collection.CollectionMintKeepsNoUris | erc721-example/src/lib.rs:36-42 | a mint writes no Instance URI |
| Collection.CollectionTokenUriIsDefault | erc721-example/src/lib.rs:36 | with no Instance URI, token_uri of every token reads "no uri" |
| Collection.CollectionMintAllAssigns | erc721-example/src/lib.rs:32-45 | successive mints give token c + i to tos[i], pairwise distinct, and the counter ends at c + \|tos\| |
| Collection.CollectionMintAllSucceeds | erc721-example/src/lib.rs:36-45 | without `enumerable` and with a base URI, successive mints all succeed |
| Collection.NftCollection.constructor | erc721-example/src/lib.rs:8-15 | a collection over a fresh library ledger with empty storage |
| Collection.NftCollection.Initialize | erc721-example/src/lib.rs:16-21 | the new storage and outcome are CollectionInitializeOn's; nothing is logged |
| Collection.NftCollection.Mint | erc721-example/src/lib.rs:27-46 | `to` is logged, and the new storage and outcome are CollectionMintOn's |
| Scenario.InitializeShows | erc721/src/tests.rs:14-19 | initialize on an empty ledger succeeds and shows empty lists and no owners |
| Scenario.MintShows | erc721/src/lib.rs:305-343 | from an image showing a view, a mint for either user succeeds and shows the view with the id appended and owned by that user |
| Scenario.TransferShows | erc721/src/lib.rs:27-92 | user1 transferring a token it holds to user2 succeeds and shows the token moved between the two holdings |
| Scenario.BurnShows | erc721/src/lib.rs:199-245 | user2 burning a token it holds succeeds and shows the token gone from its holding, the global list and the owners |
| Scenario.QueriesRead | erc721/src/lib.rs:174-193 | total_supply, token_by_index, token_of_owner_by_index and balance_of answer from the view |
| Scenario.MintViews | erc721/src/tests.rs:22-31 | the three mints take the views of the test one into the next |
| Scenario.TransferBurnViews | erc721/src/tests.rs:42-53 | the transfer and the burn take the views of the test one into the next |
| Scenario.SimplTestFrom | erc721/src/tests.rs:21-60 | every step of the test succeeds and every assertion the test makes holds; after the burn, user2's reverse map is stale |

## Left out

- upgrade (erc721/src/lib.rs:300-303, src/lib.rs:263-266) replaces the contract's code through the host, so there is nothing to model.
- bump and `instance().bump(10000)` only extend retention, so they are no-ops here. `Types.BumpOf` records which entry each bump extends. The expiry of Temporary entries (approvals, operators) is not modelled.
- `require_auth` verifies signatures through the host. The model only records whose authorization is asked for, in a ghost log, and every request is taken to succeed.
- The Soroban `env.storage()` wrapper (storage/src/lib.rs) is not part of this model beyond get, set, has and remove on three maps.
- `Vec::remove` past the end of a list is taken to change nothing. The SDK's Vec is not part of this model.
- A stored value of the wrong type reads as absent. The modelled contracts never store one.
- Erc721.Contract.Mint: does not model u32 overflow of `balance + 1` in non-enumerable builds. Its requires excludes that case.
- Million.Homepage.Mint: does not model u32 overflow of the counter or of the balance. Its requires excludes both.
- Collection.NftCollection.Mint: does not model u32 overflow of the counter or of the balance. Its requires excludes both.
- Ledger.BurnOn: does not model u32 underflow of `balance - 1` in non-enumerable builds. Its requires `BurnInRange` excludes it, and `Facts.TransferThenBurnUnderflows` shows the case is reachable.
- The earlier variant's `impl ERC721Burnable` has no `#[contractimpl]` (src/lib.rs:193-194), so its burn is not an exported entry point. The model still gives it the body's semantics.
- `name` and `symbol` arguments are ignored in builds without metadata. The model takes them in every build and stores them only with `metadata`.
- The front ends' pass-through entry points (millionlumenhomepage/src/lib.rs:33-83, erc721-example/src/lib.rs:48-102) call the ledger with their arguments unchanged. The `Erc721.Contract` methods on the shared ledger model them, and they have no rows of their own.
- Which cargo features the front ends compile the library with is not stated. Their lemmas hold for every feature combination of the library variant, and where a result depends on `enumerable` the lemma says so.
- millionlumenhomepage/src/types.rs and mlh-contract only route keys to Instance or belong to a contract whose source is not shown. They are not part of this model; the homepage counter key routes to Instance in `Types.Route`.
- The web front end (mlh-frontend) does network and file I/O and is not part of this model.
