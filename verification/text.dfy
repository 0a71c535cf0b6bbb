/** The Python string operations the client relies on: `str.strip`, `str.upper`
    and `str.replace`. */
module Text {

  /** `c.isspace()`: the characters Python's `str.strip()` removes. */
  predicate IsSpace(c: char)
  {
    var n := c as int;
    || (0x09 <= n <= 0x0D)
    || (0x1C <= n <= 0x20)
    || n == 0x85 || n == 0xA0 || n == 0x1680
    || (0x2000 <= n <= 0x200A)
    || n == 0x2028 || n == 0x2029 || n == 0x202F || n == 0x205F || n == 0x3000
  }

  /** Every character of `s` is whitespace (vacuously so for ""). */
  predicate AllSpace(s: string)
  {
    forall i :: 0 <= i < |s| ==> IsSpace(s[i])
  }

  /** `s.lstrip()`: drops the leading whitespace and nothing else. */
  function TrimStart(s: string): (r: string)
    ensures |r| <= |s| && r == s[|s| - |r|..]
    ensures AllSpace(s[..|s| - |r|])
    ensures r == [] || !IsSpace(r[0])
    decreases |s|
  {
    if |s| > 0 && IsSpace(s[0]) then TrimStart(s[1..]) else s
  }

  /** `s.rstrip()`: drops the trailing whitespace and nothing else. */
  function TrimEnd(s: string): (r: string)
    ensures |r| <= |s| && r == s[..|r|]
    ensures AllSpace(s[|r|..])
    ensures r == [] || !IsSpace(r[|r| - 1])
    decreases |s|
  {
    if |s| > 0 && IsSpace(s[|s| - 1]) then TrimEnd(s[..|s| - 1]) else s
  }

  /** `s.strip()`. */
  function Strip(s: string): string
  {
    TrimEnd(TrimStart(s))
  }

  /** The source's emptiness test `not s or not s.strip()`, stated as "nothing
      but whitespace"; `BlankIsStripTest` shows the two agree. Deciding it by a
      quantifier keeps the solver from unrolling `strip` over literal paths. */
  predicate Blank(s: string)
  {
    AllSpace(s)
  }

  /** `not s or not s.strip()` holds exactly for the blank strings. */
  lemma BlankIsStripTest(s: string)
    ensures Blank(s) <==> (s == "" || Strip(s) == "")
  {
    var t := TrimStart(s);
    if !AllSpace(s) {
      var i :| 0 <= i < |s| && !IsSpace(s[i]);
      assert s[i] == t[i - (|s| - |t|)];
    }
  }

  /** A string that starts with a non-space character is not blank. */
  lemma NotBlankWhenFirstNonSpace(s: string)
    requires |s| > 0 && !IsSpace(s[0])
    ensures !Blank(s)
  {
  }

  /** `c.upper()` for an ASCII letter; every other character is left alone. */
  function UpperChar(c: char): char
  {
    if 'a' <= c <= 'z' then ((c as int) - 32) as char else c
  }

  /** `s.upper()`, folding ASCII letters. */
  function Upper(s: string): string
  {
    seq(|s|, i requires 0 <= i < |s| => UpperChar(s[i]))
  }

  predicate IsAsciiLetter(c: char)
  {
    'a' <= c <= 'z' || 'A' <= c <= 'Z'
  }

  /** Two characters that are the same letter up to ASCII case, or identical. */
  predicate SameIgnoringCase(a: char, b: char)
  {
    a == b || (IsAsciiLetter(a) && IsAsciiLetter(b) && (a as int - b as int == 32 || b as int - a as int == 32))
  }

  predicate EqualIgnoringCase(s: string, t: string)
  {
    |s| == |t| && forall i :: 0 <= i < |s| ==> SameIgnoringCase(s[i], t[i])
  }

  lemma UpperCharEqIffSame(a: char, b: char)
    ensures UpperChar(a) == UpperChar(b) <==> SameIgnoringCase(a, b)
  {
    assert (UpperChar(a) as int) == (if 'a' <= a <= 'z' then (a as int) - 32 else a as int);
    assert (UpperChar(b) as int) == (if 'a' <= b <= 'z' then (b as int) - 32 else b as int);
  }

  /** Comparing upper-cased strings is exactly case-insensitive comparison. */
  lemma UpperEqIffEqualIgnoringCase(s: string, t: string)
    ensures Upper(s) == Upper(t) <==> EqualIgnoringCase(s, t)
  {
    if Upper(s) == Upper(t) {
      assert |s| == |Upper(s)| == |Upper(t)| == |t|;
      forall i | 0 <= i < |s|
        ensures SameIgnoringCase(s[i], t[i])
      {
        assert Upper(s)[i] == Upper(t)[i];
        UpperCharEqIffSame(s[i], t[i]);
      }
    }
    if EqualIgnoringCase(s, t) {
      forall i | 0 <= i < |s|
        ensures Upper(s)[i] == Upper(t)[i]
      {
        UpperCharEqIffSame(s[i], t[i]);
      }
      assert Upper(s) == Upper(t);
    }
  }

  /** `p` occurs in `s` starting at index `i`. */
  predicate OccursAt(s: string, p: string, i: int)
  {
    0 <= i && i + |p| <= |s| && s[i..i + |p|] == p
  }

  /** Python's `p in s`. */
  predicate Contains(s: string, p: string)
  {
    exists i :: 0 <= i <= |s| && OccursAt(s, p, i)
  }

  /** `s.replace(p, r)`: scans left to right and replaces each non-overlapping
      occurrence of `p`. The source only calls it with non-empty placeholders. */
  function ReplaceAll(s: string, p: string, r: string): string
    requires |p| > 0
    decreases |s|
  {
    if |s| == 0 then ""
    else if p <= s then r + ReplaceAll(s[|p|..], p, r)
    else [s[0]] + ReplaceAll(s[1..], p, r)
  }

  /** `s.split(p)`: the pieces between the occurrences `ReplaceAll` finds. */
  function Split(s: string, p: string): (parts: seq<string>)
    requires |p| > 0
    ensures |parts| >= 1
    ensures parts[0] <= s
    decreases |s|
  {
    if |s| == 0 then [""]
    else if p <= s then [""] + Split(s[|p|..], p)
    else
      var rest := Split(s[1..], p);
      [[s[0]] + rest[0]] + rest[1..]
  }

  /** `sep.join(parts)`. */
  function Join(parts: seq<string>, sep: string): string
  {
    if |parts| == 0 then ""
    else if |parts| == 1 then parts[0]
    else parts[0] + sep + Join(parts[1..], sep)
  }

  lemma JoinConsChar(c: char, parts: seq<string>, sep: string)
    requires |parts| >= 1
    ensures Join([[c] + parts[0]] + parts[1..], sep) == [c] + Join(parts, sep)
  {
    var q := [[c] + parts[0]] + parts[1..];
    assert q[1..] == parts[1..];
  }

  /** Splitting on `p` and gluing the pieces back with `p` restores the string. */
  lemma {:induction false} SplitJoinRoundTrip(s: string, p: string)
    requires |p| > 0
    ensures Join(Split(s, p), p) == s
    decreases |s|
  {
    if |s| == 0 {
    } else if p <= s {
      SplitJoinRoundTrip(s[|p|..], p);
      var parts := [""] + Split(s[|p|..], p);
      assert parts[1..] == Split(s[|p|..], p);
      assert s == p + s[|p|..];
    } else {
      SplitJoinRoundTrip(s[1..], p);
      JoinConsChar(s[0], Split(s[1..], p), p);
      assert s == [s[0]] + s[1..];
    }
  }

  /** Replacing is splitting on the pattern and gluing the pieces with the replacement. */
  lemma {:induction false} ReplaceIsJoinOfSplit(s: string, p: string, r: string)
    requires |p| > 0
    ensures ReplaceAll(s, p, r) == Join(Split(s, p), r)
    decreases |s|
  {
    if |s| == 0 {
    } else if p <= s {
      ReplaceIsJoinOfSplit(s[|p|..], p, r);
      var parts := [""] + Split(s[|p|..], p);
      assert parts[1..] == Split(s[|p|..], p);
    } else {
      ReplaceIsJoinOfSplit(s[1..], p, r);
      JoinConsChar(s[0], Split(s[1..], p), r);
    }
  }

  /** No piece of a split contains the pattern: every occurrence was replaced. */
  lemma {:induction false} SplitPiecesFree(s: string, p: string)
    requires |p| > 0
    ensures forall k :: 0 <= k < |Split(s, p)| ==> !Contains(Split(s, p)[k], p)
    decreases |s|
  {
    if |s| == 0 {
      assert !OccursAt("", p, 0);
    } else if p <= s {
      SplitPiecesFree(s[|p|..], p);
      var parts := [""] + Split(s[|p|..], p);
      assert forall k :: 1 <= k < |parts| ==> parts[k] == Split(s[|p|..], p)[k - 1];
      assert forall i :: !OccursAt("", p, i);
    } else {
      SplitPiecesFree(s[1..], p);
      var rest := Split(s[1..], p);
      var first := [s[0]] + rest[0];
      var parts := [first] + rest[1..];
      assert forall k :: 1 <= k < |parts| ==> parts[k] == rest[k];
      forall i | OccursAt(first, p, i)
        ensures false
      {
        if i > 0 {
          assert first[i..i + |p|] == rest[0][i - 1..i - 1 + |p|];
          assert OccursAt(rest[0], p, i - 1);
        }
      }
    }
  }

  /** A string without the pattern is returned unchanged. */
  lemma {:induction false} ReplaceAbsent(s: string, p: string, r: string)
    requires |p| > 0
    requires !Contains(s, p)
    ensures ReplaceAll(s, p, r) == s
    decreases |s|
  {
    if |s| > 0 {
      assert !OccursAt(s, p, 0);
      assert !(p <= s);
      forall i | OccursAt(s[1..], p, i)
        ensures false
      {
        assert s[1..][i..i + |p|] == s[i + 1..i + 1 + |p|];
        assert OccursAt(s, p, i + 1);
      }
      ReplaceAbsent(s[1..], p, r);
      assert s == [s[0]] + s[1..];
    }
  }
}
