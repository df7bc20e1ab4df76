/** String helpers with the meaning of Python's str.startswith, str.endswith,
    slicing, str.split(sep) and sep.join(parts). */
module Strings {

  predicate HasPrefix(s: string, p: string)
  {
    |p| <= |s| && s[..|p|] == p
  }

  predicate HasSuffix(s: string, q: string)
  {
    |q| <= |s| && s[|s| - |q|..] == q
  }

  /** `s[len(p):]` when `s.startswith(p)`, else `s`: at most one leading `p`
      is removed, and nothing else changes. */
  function StripPrefix(s: string, p: string): (r: string)
    ensures s == (if HasPrefix(s, p) then p else []) + r
  {
    if HasPrefix(s, p) then s[|p|..] else s
  }

  /** `s[:-len(q)]` when `s.endswith(q)`, else `s`: at most one trailing `q`
      is removed, and nothing else changes. */
  function StripSuffix(s: string, q: string): (r: string)
    ensures s == r + (if HasSuffix(s, q) then q else [])
  {
    if HasSuffix(s, q) then s[..|s| - |q|] else s
  }

  /** Python's `s.split(d)`: the pieces of `s` between occurrences of `d`,
      empty pieces included; never an empty list. */
  function Split(s: string, d: char): (parts: seq<string>)
    ensures |parts| >= 1
    ensures forall i :: 0 <= i < |parts| ==> d !in parts[i]
    ensures d in s <==> |parts| >= 2
  {
    if s == [] then [[]]
    else
      var rest := Split(s[1..], d);
      assert d in s <==> s[0] == d || d in s[1..];
      if s[0] == d then [[]] + rest
      else [[s[0]] + rest[0]] + rest[1..]
  }

  /** Python's `d.join(parts)` for a non-empty list. */
  function Join(parts: seq<string>, d: char): string
    requires |parts| >= 1
  {
    if |parts| == 1 then parts[0] else parts[0] + [d] + Join(parts[1..], d)
  }

  /** Joining the pieces of a split gives back the string. */
  lemma {:induction false} JoinSplit(s: string, d: char)
    ensures Join(Split(s, d), d) == s
  {
    if s != [] {
      var rest := Split(s[1..], d);
      JoinSplit(s[1..], d);
      if s[0] == d {
        assert Split(s, d) == [[]] + rest;
        assert Split(s, d)[1..] == rest;
      } else {
        var parts := Split(s, d);
        assert parts == [[s[0]] + rest[0]] + rest[1..];
        if |rest| == 1 {
          assert rest[0] == s[1..];
        } else {
          assert parts[1..] == rest[1..];
          assert Join(rest, d) == rest[0] + [d] + Join(rest[1..], d);
        }
      }
    }
  }

  /** A join splits at any piece boundary into the joins of both halves. */
  lemma {:induction false} JoinSlices(parts: seq<string>, d: char, k: nat)
    requires 0 < k < |parts|
    ensures Join(parts, d) == Join(parts[..k], d) + [d] + Join(parts[k..], d)
  {
    if k > 1 {
      JoinSlices(parts[1..], d, k - 1);
      assert parts[1..][..k - 1] == parts[..k][1..];
      assert parts[1..][k - 1..] == parts[k..];
    }
  }

  /** Splitting `a + [d] + b` where `a` holds no `d` yields `a` followed by
      the pieces of `b`. */
  lemma {:induction false} SplitAfterPiece(a: string, b: string, d: char)
    requires d !in a
    ensures Split(a + [d] + b, d) == [a] + Split(b, d)
  {
    if a == [] {
      assert (a + [d] + b)[1..] == b;
    } else {
      var s := a + [d] + b;
      assert s[0] == a[0] && s[1..] == a[1..] + [d] + b;
      SplitAfterPiece(a[1..], b, d);
      var rest := Split(s[1..], d);
      assert rest == [a[1..]] + Split(b, d);
      assert Split(s, d) == [[a[0]] + rest[0]] + rest[1..];
      assert [a[0]] + a[1..] == a;
    }
  }

  /** A string without `d` is its own single piece. */
  lemma {:induction false} SplitWhole(a: string, d: char)
    requires d !in a
    ensures Split(a, d) == [a]
  {
    if a != [] {
      assert a[0] != d;
      SplitWhole(a[1..], d);
      assert [a[0]] + a[1..] == a;
    }
  }
}
