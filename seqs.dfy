/** Searching and deleting in sequences: the list operations the controller relies on. */
module Seqs {
  import opened Wrappers

  /** The position of the first occurrence of `x` in `s`, or None when `x` does not occur. */
  function FirstIndex<T(==)>(s: seq<T>, x: T): (r: Option<nat>)
    ensures r.None? <==> x !in s
    ensures r.Some? ==> r.value < |s| && s[r.value] == x && x !in s[..r.value]
  {
    if s == [] then None
    else if s[0] == x then Some(0)
    else
      match FirstIndex(s[1..], x)
      case None => None
      case Some(i) =>
        assert s[..i + 1] == [s[0]] + s[1..][..i];
        Some(i + 1)
  }

  /** `s` without the first occurrence of `x`; `s` itself when `x` does not occur. */
  function RemoveFirst<T(==)>(s: seq<T>, x: T): (r: seq<T>)
    ensures x !in s ==> r == s
    ensures x in s ==> var i := FirstIndex(s, x).value; r == s[..i] + s[i + 1..]
  {
    if s == [] then []
    else if s[0] == x then s[1..]
    else
      var rest := RemoveFirst(s[1..], x);
      RemoveFirstCons(s, x, rest);
      [s[0]] + rest
  }

  /** The step of RemoveFirst that keeps the head: what the tail's result gives the whole. */
  lemma RemoveFirstCons<T>(s: seq<T>, x: T, rest: seq<T>)
    requires s != [] && s[0] != x
    requires x !in s[1..] ==> rest == s[1..]
    requires x in s[1..] ==> var i := FirstIndex(s[1..], x).value; rest == s[1..][..i] + s[1..][i + 1..]
    ensures x !in s ==> [s[0]] + rest == s
    ensures x in s ==> var i := FirstIndex(s, x).value; [s[0]] + rest == s[..i] + s[i + 1..]
  {
    assert s == [s[0]] + s[1..];
    if x in s {
      assert x in s[1..];
      var i := FirstIndex(s[1..], x).value;
      assert FirstIndex(s, x) == Some(i + 1);
      assert s[..i + 1] == [s[0]] + s[1..][..i];
      assert s[i + 2..] == s[1..][i + 1..];
    }
  }

  /** Removing the first `x` takes exactly one `x` away and keeps every other element. */
  lemma RemoveFirstCount<T>(s: seq<T>, x: T)
    ensures multiset(RemoveFirst(s, x)) == multiset(s) - multiset{x}
    ensures x in s ==> multiset(RemoveFirst(s, x)) + multiset{x} == multiset(s)
  {
    if x in s {
      var i := FirstIndex(s, x).value;
      DeleteAtCount(s, i);
    } else {
      assert x !in multiset(s);
    }
  }

  /** Deleting position `i` takes one copy of `s[i]` out of the multiset. */
  lemma DeleteAtCount<T>(s: seq<T>, i: nat)
    requires i < |s|
    ensures multiset(s[..i] + s[i + 1..]) + multiset{s[i]} == multiset(s)
  {
    assert s == s[..i] + [s[i]] + s[i + 1..];
  }
}
