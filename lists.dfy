/** Python's `list.remove(x)` on a value: the first element equal to `x` is
    taken out; when there is none Python raises ValueError, which the game
    either swallows (tank_game.py:228-231) or never meets.  The model returns
    the list unchanged in that case. */
module Lists {

  function RemoveFirst<T(==)>(s: seq<T>, x: T): (r: seq<T>)
    ensures x !in s ==> r == s
    ensures x in s ==> |r| == |s| - 1
  {
    if s == [] then []
    else if s[0] == x then s[1..]
    else [s[0]] + RemoveFirst(s[1..], x)
  }

  /** The element removed is the first occurrence: everything before it stays. */
  lemma {:induction false} RemoveFirstAt<T>(pre: seq<T>, x: T, post: seq<T>)
    requires x !in pre
    ensures RemoveFirst(pre + [x] + post, x) == pre + post
  {
    if pre == [] {
      assert pre + [x] + post == [x] + post;
    } else {
      assert (pre + [x] + post)[1..] == pre[1..] + [x] + post;
      RemoveFirstAt(pre[1..], x, post);
      assert [pre[0]] + (pre[1..] + post) == pre + post;
    }
  }

  /** Removing an element that occurs takes exactly one copy of it out. */
  lemma {:induction false} RemoveFirstMultiset<T>(s: seq<T>, x: T)
    ensures multiset(RemoveFirst(s, x)) == multiset(s) - multiset{x}
  {
    if s == [] {
    } else if s[0] == x {
      assert s == [s[0]] + s[1..];
    } else {
      RemoveFirstMultiset(s[1..], x);
      assert s == [s[0]] + s[1..];
      assert RemoveFirst(s, x) == [s[0]] + RemoveFirst(s[1..], x);
      assert multiset(RemoveFirst(s, x)) == multiset{s[0]} + (multiset(s[1..]) - multiset{x});
    }
  }

  /** Removing never adds: what is left is a sub-multiset of the list. */
  lemma RemoveFirstShrinks<T>(s: seq<T>, x: T)
    ensures multiset(RemoveFirst(s, x)) <= multiset(s)
  {
    RemoveFirstMultiset(s, x);
  }

  /** No object occurs twice: true of Python lists built by appending fresh objects. */
  ghost predicate Distinct<T>(s: seq<T>)
  {
    forall i, j :: 0 <= i < j < |s| ==> s[i] != s[j]
  }

  /** Removing by identity from a list without duplicates removes the element at its index. */
  lemma RemoveFirstDistinct<T>(s: seq<T>, k: nat)
    requires Distinct(s) && k < |s|
    ensures RemoveFirst(s, s[k]) == s[..k] + s[k+1..]
  {
    DistinctNotBefore(s, k);
    RemoveFirstIndex(s, k);
  }

  lemma RemoveFirstIndex<T>(s: seq<T>, k: nat)
    requires k < |s| && s[k] !in s[..k]
    ensures RemoveFirst(s, s[k]) == s[..k] + s[k+1..]
  {
    var pre, post := s[..k], s[k+1..];
    calc {
      RemoveFirst(s, s[k]);
      { assert s == pre + [s[k]] + post; }
      RemoveFirst(pre + [s[k]] + post, s[k]);
      { RemoveFirstAt(pre, s[k], post); }
      pre + post;
    }
  }

  lemma DistinctNotBefore<T>(s: seq<T>, k: nat)
    requires Distinct(s) && k < |s|
    ensures s[k] !in s[..k]
  {
    forall i | 0 <= i < k ensures s[..k][i] != s[k] {
      assert s[..k][i] == s[i];
    }
  }

  /** Taking one element out keeps the others distinct. */
  lemma DistinctWithout<T>(s: seq<T>, k: nat)
    requires Distinct(s) && k < |s|
    ensures Distinct(s[..k] + s[k+1..])
  {
    var r := s[..k] + s[k+1..];
    forall i, j | 0 <= i < j < |r| ensures r[i] != r[j] {
      var i' := if i < k then i else i + 1;
      var j' := if j < k then j else j + 1;
      assert r[i] == s[i'] && r[j] == s[j'];
    }
  }
}
