/** The handful of Python string operations the engine relies on:
    `str.lower`, `str.strip`, the substring test `p in t` and `sep.join`. */
module Strings {

  /** `str.isspace` for one character: the code points Python treats as
      whitespace when it strips a string without arguments. */
  predicate IsSpace(c: char) {
    var n := c as int;
    (9 <= n <= 13) || (28 <= n <= 32) || n == 0x85 || n == 0xA0 || n == 0x1680
    || (0x2000 <= n <= 0x200A) || n == 0x2028 || n == 0x2029 || n == 0x202F
    || n == 0x205F || n == 0x3000
  }

  function LowerChar(c: char): (r: char)
    ensures IsSpace(c) ==> r == c
    ensures !('A' <= r <= 'Z')
  {
    if 'A' <= c <= 'Z' then (c as int + 32) as char else c
  }

  /** `s.lower()`, for the ASCII letters. */
  function Lower(s: string): (r: string)
    ensures |r| == |s|
    ensures forall i :: 0 <= i < |s| ==> r[i] == LowerChar(s[i])
  {
    if s == [] then [] else [LowerChar(s[0])] + Lower(s[1..])
  }

  lemma LowerIdempotent(s: string)
    ensures Lower(Lower(s)) == Lower(s)
  {
    assert forall i :: 0 <= i < |s| ==> Lower(Lower(s))[i] == Lower(s)[i];
  }

  /** Leading whitespace removed (`s.lstrip()`). */
  function TrimStart(s: string): string {
    if s != [] && IsSpace(s[0]) then TrimStart(s[1..]) else s
  }

  /** Trailing whitespace removed (`s.rstrip()`). */
  function TrimEnd(s: string): string {
    if s != [] && IsSpace(s[|s| - 1]) then TrimEnd(s[..|s| - 1]) else s
  }

  /** `lstrip` drops exactly the leading run of whitespace. */
  lemma {:induction false} TrimStartFacts(s: string)
    ensures var r := TrimStart(s);
      |r| <= |s| && r == s[|s| - |r|..]
      && (forall i :: 0 <= i < |s| - |r| ==> IsSpace(s[i]))
      && (r == [] || !IsSpace(r[0]))
  {
    if s != [] && IsSpace(s[0]) {
      var t := s[1..];
      TrimStartFacts(t);
      var r := TrimStart(t);
      assert TrimStart(s) == r;
      assert t[|t| - |r|..] == s[|s| - |r|..];
      forall i | 0 <= i < |s| - |r|
        ensures IsSpace(s[i])
      {
        if i > 0 {
          assert s[i] == t[i - 1];
        }
      }
    }
  }

  /** `rstrip` drops exactly the trailing run of whitespace. */
  lemma {:induction false} TrimEndFacts(s: string)
    ensures var r := TrimEnd(s);
      |r| <= |s| && r == s[..|r|]
      && (forall i :: |r| <= i < |s| ==> IsSpace(s[i]))
      && (r == [] || !IsSpace(r[|r| - 1]))
  {
    if s != [] && IsSpace(s[|s| - 1]) {
      var t := s[..|s| - 1];
      TrimEndFacts(t);
      var r := TrimEnd(t);
      assert TrimEnd(s) == r;
      assert t[..|r|] == s[..|r|];
      forall i | |r| <= i < |s|
        ensures IsSpace(s[i])
      {
        if i < |s| - 1 {
          assert s[i] == t[i];
        }
      }
    }
  }

  /** `s.strip()`. */
  function Trim(s: string): string {
    TrimEnd(TrimStart(s))
  }

  /** `s.strip()` is a slice of `s` that neither starts nor ends with
      whitespace, empty exactly when `s` is all whitespace. */
  lemma TrimFacts(s: string)
    ensures var r := Trim(s);
      (r == [] || (!IsSpace(r[0]) && !IsSpace(r[|r| - 1])))
      && (exists i :: OccursAt(s, r, i))
      && (r == [] <==> forall i :: 0 <= i < |s| ==> IsSpace(s[i]))
  {
    var t := TrimStart(s);
    var r := TrimEnd(t);
    TrimStartFacts(s);
    TrimEndFacts(t);
    var off := |s| - |t|;
    assert r == s[off..][..|r|] == s[off..off + |r|];
    assert OccursAt(s, r, off);
    assert r != [] ==> r[0] == s[off];
    assert r == [] ==> t == [] by {
      if t != [] {
        assert !IsSpace(t[0]);
      }
    }
  }

  /** Stripping twice is stripping once. */
  lemma TrimIdempotent(s: string)
    ensures Trim(Trim(s)) == Trim(s)
  {
    var t := Trim(s);
    TrimFacts(s);
    if t != [] {
      assert TrimStart(t) == t;
      assert TrimEnd(t) == t;
    }
  }

  /** `p` occurs in `t` starting at index `i`. */
  predicate OccursAt(t: string, p: string, i: int) {
    0 <= i && i + |p| <= |t| && t[i..i + |p|] == p
  }

  /** Python's substring test `p in t`. */
  predicate Contains(t: string, p: string)
    decreases |t|
  {
    |p| <= |t| && (t[..|p|] == p || Contains(t[1..], p))
  }

  /** `p in t` holds exactly when `p` is a contiguous slice of `t`: a phrase
      of several words matches only as one contiguous run of characters. */
  lemma {:induction false} ContainsIffSlice(t: string, p: string)
    ensures Contains(t, p) <==> exists i :: OccursAt(t, p, i)
  {
    if |p| > |t| {
    } else if t[..|p|] == p {
      assert OccursAt(t, p, 0);
    } else {
      ContainsIffSlice(t[1..], p);
      if Contains(t, p) {
        var j :| OccursAt(t[1..], p, j);
        assert t[1..][j..j + |p|] == t[j + 1..j + 1 + |p|];
        assert OccursAt(t, p, j + 1);
      }
      if exists i :: OccursAt(t, p, i) {
        var i :| OccursAt(t, p, i);
        assert i != 0;
        assert t[1..][i - 1..i - 1 + |p|] == t[i..i + |p|];
        assert OccursAt(t[1..], p, i - 1);
      }
    }
  }

  /** `sep.join(parts)`. */
  function Join(parts: seq<string>, sep: string): string {
    if parts == [] then ""
    else if |parts| == 1 then parts[0]
    else parts[0] + sep + Join(parts[1..], sep)
  }
}
