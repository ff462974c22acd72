/** Generic sequence combinators the discovery loops are specified with. */
module Seqs {

  /** The concatenation of `f(x)` over the elements `x` of `s`, in order. */
  function FlatMap<T, U>(s: seq<T>, f: T -> seq<U>): seq<U>
  {
    if s == [] then [] else FlatMap(s[..|s| - 1], f) + f(s[|s| - 1])
  }

  /** Stated once so that loops need not re-derive it by extensionality. */
  lemma AppendAssoc<T>(a: seq<T>, b: seq<T>, c: seq<T>)
    ensures (a + b) + c == a + (b + c)
  {
  }

  lemma FlatMapSnoc<T, U>(s: seq<T>, i: nat, f: T -> seq<U>)
    requires i < |s|
    ensures FlatMap(s[..i + 1], f) == FlatMap(s[..i], f) + f(s[i])
  {
    assert s[..i + 1][..i] == s[..i];
  }

  lemma {:induction false} FlatMapAppend<T, U>(s: seq<T>, t: seq<T>, f: T -> seq<U>)
    ensures FlatMap(s + t, f) == FlatMap(s, f) + FlatMap(t, f)
  {
    if t == [] {
      assert s + t == s;
    } else {
      var init := t[..|t| - 1];
      FlatMapAppend(s, init, f);
      assert (s + t)[..|s + t| - 1] == s + init;
      assert (s + t)[|s + t| - 1] == t[|t| - 1];
    }
  }

  lemma {:induction false} FlatMapMembership<T, U>(s: seq<T>, f: T -> seq<U>, y: U)
    ensures y in FlatMap(s, f) <==> exists i :: 0 <= i < |s| && y in f(s[i])
  {
    if s != [] {
      var init := s[..|s| - 1];
      FlatMapMembership(init, f, y);
      if i :| 0 <= i < |init| && y in f(init[i]) {
        assert s[i] == init[i];
      }
      if i :| 0 <= i < |s| && y in f(s[i]) {
        if i < |init| {
          assert s[i] == init[i];
        }
      }
    }
  }

  /** `f` applied to every element of `s`. */
  function Map<T, U>(s: seq<T>, f: T -> U): (r: seq<U>)
    ensures |r| == |s|
  {
    if s == [] then [] else Map(s[..|s| - 1], f) + [f(s[|s| - 1])]
  }

  lemma {:induction false} MapAt<T, U>(s: seq<T>, f: T -> U, i: nat)
    requires i < |s|
    ensures Map(s, f)[i] == f(s[i])
  {
    if i < |s| - 1 {
      MapAt(s[..|s| - 1], f, i);
    }
  }

  lemma MapSnoc<T, U>(s: seq<T>, i: nat, f: T -> U)
    requires i < |s|
    ensures Map(s[..i + 1], f) == Map(s[..i], f) + [f(s[i])]
  {
    assert s[..i + 1][..i] == s[..i];
  }

  lemma MapAppendOne<T, U>(s: seq<T>, x: T, f: T -> U)
    ensures Map(s + [x], f) == Map(s, f) + [f(x)]
  {
    assert (s + [x])[..|s|] == s;
  }

  lemma {:induction false} MapAppend<T, U>(s: seq<T>, t: seq<T>, f: T -> U)
    ensures Map(s + t, f) == Map(s, f) + Map(t, f)
  {
    if t == [] {
      assert s + t == s;
    } else {
      var init := t[..|t| - 1];
      var last := t[|t| - 1];
      MapAppend(s, init, f);
      assert s + t == (s + init) + [last];
      MapAppendOne(s + init, last, f);
      MapAppendOne(init, last, f);
      assert t == init + [last];
      AppendAssoc(Map(s, f), Map(init, f), [f(last)]);
    }
  }

  /** Some element of `s` satisfies `p`, scanning from the front. */
  predicate AnyOf<T>(s: seq<T>, p: T -> bool)
  {
    s != [] && (AnyOf(s[..|s| - 1], p) || p(s[|s| - 1]))
  }

  lemma AnyOfSnoc<T>(s: seq<T>, i: nat, p: T -> bool)
    requires i < |s|
    ensures AnyOf(s[..i + 1], p) == (AnyOf(s[..i], p) || p(s[i]))
  {
    assert s[..i + 1][..i] == s[..i];
  }

  lemma {:induction false} AnyOfMeaning<T>(s: seq<T>, p: T -> bool)
    ensures AnyOf(s, p) <==> exists i :: 0 <= i < |s| && p(s[i])
  {
    if s != [] {
      var init := s[..|s| - 1];
      AnyOfMeaning(init, p);
      if i :| 0 <= i < |init| && p(init[i]) {
        assert s[i] == init[i];
      }
      if i :| 0 <= i < |s| && p(s[i]) {
        if i < |init| {
          assert s[i] == init[i];
        }
      }
    }
  }
}
