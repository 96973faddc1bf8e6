/**
 * The per-owner list of held token ids (tycoon-collectibles/src/enumeration.rs).
 *
 * Adding appends the id at the end when it is absent; removing rebuilds the
 * list without every occurrence of the id, keeping the order of the rest, and
 * deletes the owner's record when nothing is left.
 */
module Enumeration {
  import opened Ints
  import opened CollectiblesStorage

  /** No token id occurs twice. */
  ghost predicate NoDup(s: seq<TokenId>) {
    forall i, j :: 0 <= i < j < |s| ==> s[i] != s[j]
  }

  /** The list `add_token_to_owner` stores: `id` appended when absent. */
  function Appended(s: seq<TokenId>, id: TokenId): (r: seq<TokenId>)
    ensures forall x :: x in r <==> x in s || x == id
    ensures NoDup(s) ==> NoDup(r)
    ensures |r| == if id in s then |s| else |s| + 1
    ensures r[..|s|] == s
  {
    if id in s then s else s + [id]
  }

  /**
   * The list the loop of `remove_token_from_owner` builds: the elements of `s`
   * other than `id`, pushed in order.
   */
  function Without(s: seq<TokenId>, id: TokenId): (r: seq<TokenId>)
    ensures |r| <= |s|
  {
    if s == [] then []
    else Without(s[..|s| - 1], id) + (if s[|s| - 1] == id then [] else [s[|s| - 1]])
  }

  /** An independent, front-to-back definition of the same filter. */
  function Keep(s: seq<TokenId>, id: TokenId): seq<TokenId> {
    if s == [] then [] else (if s[0] == id then [] else [s[0]]) + Keep(s[1..], id)
  }

  /** The filter distributes over concatenation. */
  lemma {:induction false} WithoutAppend(a: seq<TokenId>, b: seq<TokenId>, id: TokenId)
    ensures Without(a + b, id) == Without(a, id) + Without(b, id)
    decreases |b|
  {
    if b == [] {
      assert a + b == a;
    } else {
      var b' := b[..|b| - 1];
      assert (a + b)[..|a + b| - 1] == a + b';
      WithoutAppend(a, b', id);
    }
  }

  /** The loop's back-to-front filter equals the front-to-back one. */
  lemma {:induction false} WithoutIsKeep(s: seq<TokenId>, id: TokenId)
    ensures Without(s, id) == Keep(s, id)
    decreases |s|
  {
    if s != [] {
      assert s == [s[0]] + s[1..];
      WithoutAppend([s[0]], s[1..], id);
      assert [s[0]][..0] == [];
      WithoutIsKeep(s[1..], id);
    }
  }

  /** The filtered list holds exactly the elements of `s` other than `id`. */
  lemma {:induction false} WithoutMembers(s: seq<TokenId>, id: TokenId)
    ensures forall x :: x in Without(s, id) <==> x in s && x != id
    decreases |s|
  {
    if s != [] {
      var p := s[..|s| - 1];
      WithoutMembers(p, id);
      assert s == p + [s[|s| - 1]];
    }
  }

  /** Removing an absent id leaves the list as it was. */
  lemma {:induction false} WithoutAbsent(s: seq<TokenId>, id: TokenId)
    requires id !in s
    ensures Without(s, id) == s
    decreases |s|
  {
    if s != [] {
      var p := s[..|s| - 1];
      assert id !in p;
      WithoutAbsent(p, id);
      assert p + [s[|s| - 1]] == s;
    }
  }

  /** Filtering keeps a duplicate-free list duplicate-free. */
  lemma {:induction false} WithoutNoDup(s: seq<TokenId>, id: TokenId)
    requires NoDup(s)
    ensures NoDup(Without(s, id))
    decreases |s|
  {
    if s != [] {
      var p := s[..|s| - 1];
      var last := s[|s| - 1];
      WithoutNoDup(p, id);
      WithoutMembers(p, id);
      assert last !in p;
    }
  }

  /**
   * On a duplicate-free list, removing the element at position i keeps every
   * other element in its relative order: the result is the list with that one
   * slot cut out (no swap with the last element).
   */
  lemma WithoutAt(s: seq<TokenId>, i: nat)
    requires NoDup(s) && i < |s|
    ensures Without(s, s[i]) == s[..i] + s[i + 1..]
  {
    OnlyAt(s, i);
    assert s == s[..i] + [s[i]] + s[i + 1..];
    WithoutCut(s[..i], s[i], s[i + 1..]);
  }

  /** Filtering out an id that occurs once, between `pre` and `post`, cuts just that slot. */
  lemma WithoutCut(pre: seq<TokenId>, id: TokenId, post: seq<TokenId>)
    requires id !in pre && id !in post
    ensures Without(pre + [id] + post, id) == pre + post
  {
    assert [id][..0] == [];
    assert Without([id], id) == [];
    calc {
      Without(pre + [id] + post, id);
    == { WithoutAppend(pre + [id], post, id); }
      Without(pre + [id], id) + Without(post, id);
    == { WithoutAppend(pre, [id], id); }
      Without(pre, id) + Without(post, id);
    == { WithoutAbsent(pre, id); WithoutAbsent(post, id); }
      pre + post;
    }
  }

  /** In a duplicate-free list the element at position i occurs nowhere else. */
  lemma OnlyAt(s: seq<TokenId>, i: nat)
    requires NoDup(s) && i < |s|
    ensures s[i] !in s[..i] && s[i] !in s[i + 1..]
  {
    var pre, post := s[..i], s[i + 1..];
    forall k | 0 <= k < |pre| ensures pre[k] != s[i] { assert pre[k] == s[k]; }
    forall k | 0 <= k < |post| ensures post[k] != s[i] { assert post[k] == s[i + 1 + k]; }
  }

  /**
   * The list records after `add_token_to_owner(owner, id)`: the owner's list
   * gains `id` at its end when it was absent and is not written otherwise.
   */
  function AddOwned(m: map<Address, seq<TokenId>>, owner: Address, id: TokenId): (r: map<Address, seq<TokenId>>)
    ensures Tokens(r, owner) == Appended(Tokens(m, owner), id)
    ensures forall o :: o != owner ==> Tokens(r, o) == Tokens(m, o)
    ensures NoEmptyList(m) ==> NoEmptyList(r)
  {
    if id in Tokens(m, owner) then m else m[owner := Tokens(m, owner) + [id]]
  }

  /**
   * The list records after `remove_token_from_owner(owner, id)`: the owner's
   * list filtered, its record deleted when the filter leaves nothing.
   */
  function RemoveOwned(m: map<Address, seq<TokenId>>, owner: Address, id: TokenId): (r: map<Address, seq<TokenId>>)
    ensures Tokens(r, owner) == Without(Tokens(m, owner), id)
    ensures owner in r <==> Without(Tokens(m, owner), id) != []
    ensures forall o :: o != owner ==> Tokens(r, o) == Tokens(m, o)
    ensures NoEmptyList(m) ==> NoEmptyList(r)
  {
    StoreList(m, owner, Without(Tokens(m, owner), id))
  }

  /** `add_token_to_owner`: the list is written back only when `id` was absent. */
  method AddTokenToOwner(s: Store, owner: Address, id: TokenId)
    modifies s`owned
    ensures s.owned == AddOwned(old(s.owned), owner, id)
  {
    var tokens := if owner in s.owned then s.owned[owner] else [];
    if id !in tokens {
      tokens := tokens + [id];
      s.owned := s.owned[owner := tokens];
    }
  }

  /**
   * `remove_token_from_owner`: rebuilds the owner's list without `id`, then
   * deletes the record if the result is empty and stores it otherwise.
   */
  method RemoveTokenFromOwner(s: Store, owner: Address, id: TokenId)
    modifies s`owned
    ensures s.owned == RemoveOwned(old(s.owned), owner, id)
  {
    var tokens := if owner in s.owned then s.owned[owner] else [];
    var newTokens: seq<TokenId> := [];
    for i := 0 to |tokens|
      invariant newTokens == Without(tokens[..i], id)
    {
      assert tokens[..i + 1][..i] == tokens[..i];
      if tokens[i] != id {
        newTokens := newTokens + [tokens[i]];
      }
    }
    assert tokens[..|tokens|] == tokens;
    if newTokens == [] {
      s.owned := s.owned - {owner};
    } else {
      s.owned := s.owned[owner := newTokens];
    }
  }

  /** `get_owned_tokens`: the stored list, empty for an owner without a record. */
  method GetOwnedTokens(s: Store, owner: Address) returns (tokens: seq<TokenId>)
    ensures tokens == Tokens(s.owned, owner)
  {
    tokens := if owner in s.owned then s.owned[owner] else [];
  }
}
