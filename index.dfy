/**
 * The enumeration lists: a Vec<u32> of token ids with a Map<u32, u32> from
 * token id back to its position. Removal is `Vec::remove(pos)`, an
 * order-preserving delete, and only the removed token's reverse entry is
 * deleted; the entries of the tokens behind it are not renumbered.
 */
module Index {
  import opened Types

  /**
   * `Vec::remove(i)`: delete the element at position i, shifting the tail
   * one place to the left. An out-of-range position is taken to change
   * nothing (the SDK's Vec is not part of this model).
   */
  function RemoveAt(s: seq<TokenId>, i: nat): (r: seq<TokenId>)
    ensures i < |s| ==> |r| == |s| - 1
    ensures i < |s| ==> forall j :: 0 <= j < i ==> r[j] == s[j]
    ensures i < |s| ==> forall j :: i <= j < |r| ==> r[j] == s[j + 1]
    ensures i >= |s| ==> r == s
  {
    if i < |s| then s[..i] + s[i + 1..] else s
  }

  /** Removing at a position drops exactly the one element found there. */
  lemma RemoveAtMultiset(s: seq<TokenId>, i: nat)
    requires i < |s|
    ensures multiset(RemoveAt(s, i)) == multiset(s) - multiset{s[i]}
  {
    assert s == s[..i] + [s[i]] + s[i + 1..];
  }

  /** Every listed token's reverse entry is its position, and every reverse entry points at its token. */
  ghost predicate Consistent(ids: seq<TokenId>, pos: map<TokenId, nat>)
  {
    && (forall j :: 0 <= j < |ids| ==> ids[j] in pos && pos[ids[j]] == j)
    && (forall t :: t in pos ==> pos[t] < |ids| && ids[pos[t]] == t)
  }

  /** Appending a new token with reverse entry = old length keeps a list consistent (mint, receiving side of a transfer). */
  lemma AppendKeepsConsistent(ids: seq<TokenId>, pos: map<TokenId, nat>, t: TokenId)
    requires Consistent(ids, pos) && t !in pos
    ensures Consistent(ids + [t], pos[t := |ids|])
  {
    var ids', pos' := ids + [t], pos[t := |ids|];
    forall j | 0 <= j < |ids'|
      ensures ids'[j] in pos' && pos'[ids'[j]] == j
    {
      if j < |ids| {
        assert ids'[j] == ids[j];
      }
    }
  }

  /** Removing the LAST token of a consistent list at its recorded position keeps the list consistent. */
  lemma RemoveLastKeepsConsistent(ids: seq<TokenId>, pos: map<TokenId, nat>, t: TokenId)
    requires Consistent(ids, pos) && t in pos && pos[t] == |ids| - 1
    ensures Consistent(RemoveAt(ids, pos[t]), pos - {t})
  {
    var ids', pos' := RemoveAt(ids, pos[t]), pos - {t};
    forall u | u in pos'
      ensures pos'[u] < |ids'| && ids'[pos'[u]] == u
    {
      assert pos[u] != pos[t];
    }
  }

  /**
   * Removing a token that is NOT last leaves the reverse map stale: the token
   * that moves into the freed position still has its old position recorded,
   * so the list and its reverse map are no longer consistent.
   */
  lemma RemoveEarlierGoesStale(ids: seq<TokenId>, pos: map<TokenId, nat>, t: TokenId)
    requires Consistent(ids, pos) && t in pos && pos[t] + 1 < |ids|
    ensures var p, u := pos[t], ids[pos[t] + 1];
            && u in pos - {t} && (pos - {t})[u] == p + 1
            && RemoveAt(ids, p)[p] == u
            && !Consistent(RemoveAt(ids, p), pos - {t})
  {
    var p, u := pos[t], ids[pos[t] + 1];
    var ids', pos' := RemoveAt(ids, p), pos - {t};
    assert pos[u] == p + 1;
    assert u != t;
    assert ids'[p] == u && pos'[ids'[p]] != p;
  }

  /**
   * The stale entry then misdirects the next removal: removing the moved
   * token u at its recorded position deletes its successor instead, and u
   * stays listed.
   */
  lemma StaleRemovalHitsNeighbour(ids: seq<TokenId>, pos: map<TokenId, nat>, t: TokenId)
    requires Consistent(ids, pos) && t in pos && pos[t] + 2 < |ids|
    ensures var p, u := pos[t], ids[pos[t] + 1];
            var ids', pos' := RemoveAt(ids, p), pos - {t};
            && u in pos'
            && RemoveAt(ids', pos'[u])[p] == u
            && ids[p + 2] !in RemoveAt(ids', pos'[u])
  {
    var p, u := pos[t], ids[pos[t] + 1];
    var ids', pos' := RemoveAt(ids, p), pos - {t};
    assert pos[u] == p + 1 && u != t;
    var gone := ids[p + 2];
    var ids'' := RemoveAt(ids', pos'[u]);
    assert ids''[p] == u;
    forall j | 0 <= j < |ids''|
      ensures ids''[j] != gone
    {
      if j < p {
        assert ids''[j] == ids[j] && pos[ids[j]] == j;
      } else if j == p {
        assert ids''[j] == ids[p + 1];
      } else {
        assert ids''[j] == ids'[j + 1] == ids[j + 2] && pos[ids[j + 2]] == j + 2;
      }
    }
  }
}
