/**
 * The pieces of Python's `str` and `posixpath` that the generator relies on,
 * restricted to ASCII case mapping.
 */
module Text {

  /** `s.split(sep)` for a one-character separator: empty fields are kept. */
  function Split(s: string, sep: char): (parts: seq<string>)
    ensures |parts| >= 1
    ensures forall i :: 0 <= i < |parts| ==> sep !in parts[i]
  {
    if |s| == 0 then [""]
    else
      var rest := Split(s[1..], sep);
      if s[0] == sep then [""] + rest
      else [[s[0]] + rest[0]] + rest[1..]
  }

  /** `sep.join(parts)`. */
  function Join(parts: seq<string>, sep: string): string
  {
    if |parts| == 0 then ""
    else if |parts| == 1 then parts[0]
    else parts[0] + sep + Join(parts[1..], sep)
  }

  /** `''.join(parts)`. */
  function Concat(parts: seq<string>): string
  {
    if |parts| == 0 then "" else parts[0] + Concat(parts[1..])
  }

  /** Appending one more piece to a concatenation appends its text. */
  lemma {:induction false} ConcatSnoc(parts: seq<string>, p: string)
    ensures Concat(parts + [p]) == Concat(parts) + p
  {
    if |parts| == 0 {
      assert parts + [p] == [p];
    } else {
      ConcatSnoc(parts[1..], p);
      assert (parts + [p])[1..] == parts[1..] + [p];
    }
  }

  /** Joining the fields of a split with its separator gives back the string. */
  lemma {:induction false} JoinSplit(s: string, sep: char)
    ensures Join(Split(s, sep), [sep]) == s
  {
    if |s| > 0 {
      var rest := Split(s[1..], sep);
      JoinSplit(s[1..], sep);
      if s[0] == sep {
        assert Split(s, sep) == [""] + rest;
        assert ([""] + rest)[1..] == rest;
        assert s == [sep] + s[1..];
      } else if |rest| == 1 {
        assert Split(s, sep) == [[s[0]] + rest[0]];
        assert s == [s[0]] + s[1..];
      } else {
        var parts := Split(s, sep);
        assert parts == [[s[0]] + rest[0]] + rest[1..];
        assert parts[1..] == rest[1..];
        assert Join(rest, [sep]) == rest[0] + [sep] + Join(rest[1..], [sep]);
        assert s == [s[0]] + s[1..];
      }
    }
  }

  /** Splitting in front of a separator-free prefix extends the first field. */
  lemma {:induction false} SplitPrefix(a: string, rest: string, sep: char)
    requires sep !in a
    ensures Split(a + rest, sep) == [a + Split(rest, sep)[0]] + Split(rest, sep)[1..]
  {
    if |a| > 0 {
      var tail := Split(rest, sep);
      SplitPrefix(a[1..], rest, sep);
      assert (a + rest)[1..] == a[1..] + rest;
      assert (a + rest)[0] == a[0] && a[0] != sep;
      var r := Split(a[1..] + rest, sep);
      assert r == [a[1..] + tail[0]] + tail[1..];
      assert r[0] == a[1..] + tail[0] && r[1..] == tail[1..];
      assert Split(a + rest, sep) == [[a[0]] + r[0]] + r[1..];
      assert [a[0]] + (a[1..] + tail[0]) == a + tail[0];
    } else {
      var tail := Split(rest, sep);
      assert a + rest == rest;
      assert a + tail[0] == tail[0];
      assert tail == [tail[0]] + tail[1..];
    }
  }

  /** Splitting a join of separator-free fields gives back the fields. */
  lemma {:induction false} SplitJoin(parts: seq<string>, sep: char)
    requires |parts| >= 1
    requires forall i :: 0 <= i < |parts| ==> sep !in parts[i]
    ensures Split(Join(parts, [sep]), sep) == parts
  {
    if |parts| == 1 {
      SplitPrefix(parts[0], "", sep);
      assert parts[0] + "" == parts[0];
    } else {
      var tail := Join(parts[1..], [sep]);
      SplitJoin(parts[1..], sep);
      assert Join(parts, [sep]) == parts[0] + ([sep] + tail);
      SplitPrefix(parts[0], [sep] + tail, sep);
      assert ([sep] + tail)[1..] == tail;
      assert Split([sep] + tail, sep) == [""] + Split(tail, sep);
      assert Split([sep] + tail, sep)[0] == "" && Split([sep] + tail, sep)[1..] == parts[1..];
      assert parts[0] + "" == parts[0];
      assert parts == [parts[0]] + parts[1..];
    }
  }

  predicate IsAsciiLetter(c: char)
  {
    'A' <= c <= 'Z' || 'a' <= c <= 'z'
  }

  function LowerChar(c: char): char
  {
    if 'A' <= c <= 'Z' then (c as int + 32) as char else c
  }

  function UpperChar(c: char): char
  {
    if 'a' <= c <= 'z' then (c as int - 32) as char else c
  }

  /** `s.lower()` on ASCII. */
  function Lower(s: string): string
  {
    if |s| == 0 then "" else [LowerChar(s[0])] + Lower(s[1..])
  }

  predicate StartsWith(s: string, prefix: string)
  {
    |prefix| <= |s| && s[..|prefix|] == prefix
  }

  predicate EndsWith(s: string, suffix: string)
  {
    |suffix| <= |s| && s[|s| - |suffix|..] == suffix
  }

  /** `s.replace(old, new)` for single characters. */
  function ReplaceChar(s: string, from: char, to: char): string
  {
    if |s| == 0 then "" else [if s[0] == from then to else s[0]] + ReplaceChar(s[1..], from, to)
  }

  /** `s` without any occurrence of `c`. */
  function RemoveChar(s: string, c: char): (r: string)
    ensures c !in r
    ensures |r| <= |s|
  {
    if |s| == 0 then ""
    else if s[0] == c then RemoveChar(s[1..], c)
    else [s[0]] + RemoveChar(s[1..], c)
  }

  predicate OccursAt(s: string, pat: string, i: nat)
  {
    i + |pat| <= |s| && s[i..i + |pat|] == pat
  }

  /** The first index at or after `i` where `pat` occurs, or `|s|` when there is none. */
  function FindFrom(s: string, pat: string, i: nat): (k: nat)
    requires i <= |s|
    ensures i <= k <= |s|
    ensures k < |s| ==> OccursAt(s, pat, k)
    ensures forall j :: i <= j < k ==> !OccursAt(s, pat, j)
    decreases |s| - i
  {
    if i + |pat| > |s| then |s|
    else if OccursAt(s, pat, i) then i
    else FindFrom(s, pat, i + 1)
  }

  /** `s.split(pat)[0]`: everything before the first occurrence of `pat`. */
  function BeforeFirst(s: string, pat: string): string
  {
    s[..FindFrom(s, pat, 0)]
  }

  /** `s.rfind(c)`. */
  function LastIndexOf(s: string, c: char): (k: int)
    ensures -1 <= k < |s|
    ensures k >= 0 ==> s[k] == c && c !in s[k + 1..]
    ensures k == -1 ==> c !in s
  {
    if |s| == 0 then -1
    else if s[|s| - 1] == c then |s| - 1
    else LastIndexOf(s[..|s| - 1], c)
  }

  /** `s.rstrip(c)`. */
  function StripTrailing(s: string, c: char): string
  {
    if |s| > 0 && s[|s| - 1] == c then StripTrailing(s[..|s| - 1], c) else s
  }

  /** `posixpath.join(a, b)` for two components. */
  function JoinPath(a: string, b: string): string
  {
    if StartsWith(b, "/") then b
    else if a == "" || EndsWith(a, "/") then a + b
    else a + "/" + b
  }

  /** `posixpath.dirname(p)`. */
  function Dirname(p: string): string
  {
    var head := p[..LastIndexOf(p, '/') + 1];
    if exists k :: 0 <= k < |head| && head[k] != '/' then StripTrailing(head, '/') else head
  }

  /** `p.split('/')[-1]`. */
  function LastSegment(p: string): string
  {
    var parts := Split(p, '/');
    parts[|parts| - 1]
  }

  /** The last occurrence of `c` is the one with no `c` after it. */
  lemma {:induction false} LastIndexOfBefore(x: string, c: char, y: string)
    requires c !in y
    ensures LastIndexOf(x + [c] + y, c) == |x|
    decreases |y|
  {
    var s := x + [c] + y;
    if |y| > 0 {
      var init := y[..|y| - 1];
      assert s[..|s| - 1] == x + [c] + init;
      assert s[|s| - 1] == y[|y| - 1];
      LastIndexOfBefore(x, c, init);
    } else {
      assert s[|s| - 1] == c;
    }
  }

  /** The last field of a split is whatever follows the last separator. */
  lemma {:induction false} SplitLast(x: string, sep: char, y: string)
    requires sep !in y
    ensures |Split(x + [sep] + y, sep)| >= 2
    ensures Split(x + [sep] + y, sep)[|Split(x + [sep] + y, sep)| - 1] == y
  {
    var s := x + [sep] + y;
    if |x| == 0 {
      assert s == [sep] + y;
      assert s[1..] == y;
      SplitPrefix(y, "", sep);
      assert y + "" == y;
    } else {
      assert s[1..] == x[1..] + [sep] + y;
      SplitLast(x[1..], sep, y);
    }
  }

  /** Splitting `d/b` (with `b` free of slashes and `d` not ending in one) into directory and name. */
  lemma DirnameAndLastSegment(d: string, b: string)
    requires '/' !in b
    requires |d| > 0 && d[|d| - 1] != '/'
    ensures Dirname(d + "/" + b) == d
    ensures LastSegment(d + "/" + b) == b
  {
    var p := d + "/" + b;
    assert p == d + ['/'] + b;
    LastIndexOfBefore(d, '/', b);
    SplitLast(d, '/', b);
    var head := p[..|d| + 1];
    assert head == d + "/";
    assert LastIndexOf(p, '/') + 1 == |d| + 1;
    assert head[|d| - 1] != '/';
    assert exists k :: 0 <= k < |head| && head[k] != '/';
    assert head[..|head| - 1] == d;
    assert StripTrailing(head, '/') == StripTrailing(d, '/');
    assert StripTrailing(d, '/') == d;
  }

  function Reverse<T>(s: seq<T>): seq<T>
  {
    if |s| == 0 then [] else [s[|s| - 1]] + Reverse(s[..|s| - 1])
  }

  predicate NoDuplicates<T(==)>(s: seq<T>)
  {
    forall i, j :: 0 <= i < j < |s| ==> s[i] != s[j]
  }

  /** A duplicate-free sequence holds each of its elements exactly once. */
  lemma {:induction false} NoDuplicatesCount<T>(s: seq<T>, x: T)
    requires NoDuplicates(s)
    ensures multiset(s)[x] == if x in s then 1 else 0
  {
    if |s| > 0 {
      var init := s[..|s| - 1];
      assert s == init + [s[|s| - 1]];
      assert NoDuplicates(init);
      NoDuplicatesCount(init, x);
      assert s[|s| - 1] !in init;
    }
  }
}
