/**
 The `str` methods the ingestion and the state search rely on, written out
 with Python's semantics: `replace` (every non-overlapping occurrence, left
 to right), `split` on one character (empty pieces kept), `strip` (Python's
 whitespace set) and `upper` (ASCII letters).
 */
module PyStr {

  /** `s.startswith(p)`. */
  predicate StartsWith(s: string, p: string) {
    |p| <= |s| && s[..|p|] == p
  }

  /** `p in s`: some suffix of `s` starts with `p`. */
  predicate Contains(s: string, p: string)
    decreases |s|
  {
    StartsWith(s, p) || (|s| > 0 && Contains(s[1..], p))
  }

  /** `p in s` holds exactly when `p` starts at some position of `s`. */
  lemma {:induction false} ContainsAt(s: string, p: string)
    ensures Contains(s, p) <==> exists i :: 0 <= i <= |s| && StartsWith(s[i..], p)
    decreases |s|
  {
    if Contains(s, p) {
      if StartsWith(s, p) {
        assert s[0..] == s;
      } else {
        ContainsAt(s[1..], p);
        var i :| 0 <= i <= |s| - 1 && StartsWith(s[1..][i..], p);
        assert s[1..][i..] == s[i + 1..];
      }
    }
    if exists i :: 0 <= i <= |s| && StartsWith(s[i..], p) {
      var i :| 0 <= i <= |s| && StartsWith(s[i..], p);
      if i > 0 {
        assert s[1..][i - 1..] == s[i..];
        ContainsAt(s[1..], p);
      } else {
        assert s[0..] == s;
      }
    }
  }

  /** `s.replace(p, r)`: scan left to right, replace each match, resume after it. */
  function Replace(s: string, p: string, r: string): (out: string)
    requires |p| > 0
    ensures !Contains(s, p) ==> out == s
    decreases |s|
  {
    if |s| < |p| then s
    else if s[..|p|] == p then r + Replace(s[|p|..], p, r)
    else [s[0]] + Replace(s[1..], p, r)
  }

  /** A match at the front is replaced and the scan goes on after it. */
  lemma ReplaceHead(p: string, rest: string, r: string)
    requires |p| > 0
    ensures Replace(p + rest, p, r) == r + Replace(rest, p, r)
  {
    assert (p + rest)[..|p|] == p;
    assert (p + rest)[|p|..] == rest;
  }

  /**
   A first character that does not start a match is copied, and the scan
   goes on over the rest: a copied prefix of the rest extends by that character.
   */
  lemma ReplaceNoHead(s: string, p: string, r: string, n: nat)
    requires |p| > 0 && 0 < n <= |s| && !StartsWith(s, p)
    requires Replace(s[1..], p, r) == s[1..n] + Replace(s[n..], p, r)
    ensures Replace(s, p, r) == s[..n] + Replace(s[n..], p, r)
  {
    var rest := Replace(s[n..], p, r);
    assert Replace(s, p, r) == [s[0]] + Replace(s[1..], p, r);
    assert [s[0]] + (s[1..n] + rest) == ([s[0]] + s[1..n]) + rest;
    assert [s[0]] + s[1..n] == s[..n];
  }

  /** A prefix in which no match starts is copied unchanged. */
  lemma {:induction false} ReplaceSkip(s: string, p: string, r: string, n: nat)
    requires |p| > 0 && n <= |s|
    requires forall i :: 0 <= i < n ==> !StartsWith(s[i..], p)
    ensures Replace(s, p, r) == s[..n] + Replace(s[n..], p, r)
    decreases n
  {
    if n == 0 {
      assert s[0..] == s;
    } else {
      var t := s[1..];
      assert !StartsWith(s, p) by { assert s[0..] == s; }
      forall i | 0 <= i < n - 1 ensures !StartsWith(t[i..], p) {
        assert t[i..] == s[i + 1..];
      }
      ReplaceSkip(t, p, r, n - 1);
      assert t[..n - 1] == s[1..n] && t[n - 1..] == s[n..];
      ReplaceNoHead(s, p, r, n);
    }
  }

  /** A string lacking the last character of `p` holds no match at all. */
  lemma ReplaceWithoutLast(s: string, p: string, r: string)
    requires |p| > 0 && p[|p| - 1] !in s
    ensures Replace(s, p, r) == s
  {
    forall i | 0 <= i < |s| ensures !StartsWith(s[i..], p) {
      if i + |p| <= |s| {
        assert s[i..][|p| - 1] == s[i + |p| - 1];
        assert s[i + |p| - 1] != p[|p| - 1];
      }
    }
    ReplaceSkip(s, p, r, |s|);
    assert s[..|s|] == s;
  }

  /** Occurrences of `c` in `s`. */
  function Count(s: string, c: char): nat {
    if s == [] then 0 else (if s[0] == c then 1 else 0) + Count(s[1..], c)
  }

  /** `sep.join(parts)`. */
  function Join(parts: seq<string>, sep: char): string {
    if parts == [] then []
    else if |parts| == 1 then parts[0]
    else parts[0] + [sep] + Join(parts[1..], sep)
  }

  /** A character in no part and other than the separator is not in the joined text. */
  lemma {:induction false} JoinWithout(parts: seq<string>, sep: char, c: char)
    requires c != sep && forall i :: 0 <= i < |parts| ==> c !in parts[i]
    ensures c !in Join(parts, sep)
    decreases |parts|
  {
    if |parts| > 1 {
      JoinWithout(parts[1..], sep, c);
    }
  }

  /** Every character of a part is in the joined text. */
  lemma {:induction false} JoinHolds(parts: seq<string>, sep: char, i: nat)
    requires i < |parts|
    ensures forall c :: c in parts[i] ==> c in Join(parts, sep)
    decreases |parts|
  {
    if |parts| > 1 && i > 0 {
      JoinHolds(parts[1..], sep, i - 1);
    }
  }

  /**
   `s.split(sep)` for a one-character separator: one more piece than there
   are separators, and no piece holds the separator.
   */
  function Split(s: string, sep: char): (parts: seq<string>)
    ensures |parts| == Count(s, sep) + 1
    ensures forall i :: 0 <= i < |parts| ==> sep !in parts[i]
  {
    if s == [] then [[]]
    else
      var rest := Split(s[1..], sep);
      if s[0] == sep then
        assert s == [sep] + s[1..];
        [[]] + rest
      else
        assert s == [s[0]] + s[1..];
        var parts := [[s[0]] + rest[0]] + rest[1..];
        assert parts[1..] == rest[1..];
        parts
  }

  /** Joining the pieces with the separator gives the text back. */
  lemma {:induction false} JoinSplit(s: string, sep: char)
    ensures Join(Split(s, sep), sep) == s
    decreases |s|
  {
    if s != [] {
      JoinSplit(s[1..], sep);
      JoinSplitStep(s, sep);
    }
  }

  /** One character more in front: the round trip extends from the tail to the whole text. */
  lemma JoinSplitStep(s: string, sep: char)
    requires s != [] && Join(Split(s[1..], sep), sep) == s[1..]
    ensures Join(Split(s, sep), sep) == s
  {
    var rest := Split(s[1..], sep);
    var parts := Split(s, sep);
    if s[0] == sep {
      assert parts == [[]] + rest && parts[1..] == rest;
      assert s == [sep] + s[1..];
    } else if |rest| == 1 {
      assert parts == [[s[0]] + rest[0]];
      assert s == [s[0]] + s[1..];
    } else {
      assert parts == [[s[0]] + rest[0]] + rest[1..] && parts[1..] == rest[1..];
      assert s == [s[0]] + s[1..];
      calc {
        Join(parts, sep);
        parts[0] + [sep] + Join(parts[1..], sep);
        [s[0]] + rest[0] + [sep] + Join(rest[1..], sep);
        [s[0]] + (rest[0] + [sep] + Join(rest[1..], sep));
        [s[0]] + Join(rest, sep);
      }
    }
  }

  /** A string without the separator is a single piece. */
  lemma {:induction false} SplitNoSep(a: string, sep: char)
    requires sep !in a
    ensures Split(a, sep) == [a]
  {
    if a != [] {
      SplitNoSep(a[1..], sep);
      assert a[0] != sep;
      assert [a[0]] + a[1..] == a;
    }
  }

  /** Splitting at the first separator: the piece before it comes first. */
  lemma {:induction false} SplitAtFirst(a: string, rest: string, sep: char)
    requires sep !in a
    ensures Split(a + [sep] + rest, sep) == [a] + Split(rest, sep)
  {
    var s := a + [sep] + rest;
    if a == [] {
      assert s == [sep] + rest;
      assert s[1..] == rest;
    } else {
      assert s[1..] == a[1..] + [sep] + rest;
      SplitAtFirst(a[1..], rest, sep);
      assert [a[0]] + a[1..] == a;
    }
  }

  /** Joining separator-free pieces and splitting again gives the pieces back. */
  lemma {:induction false} SplitJoin(parts: seq<string>, sep: char)
    requires |parts| >= 1
    requires forall i :: 0 <= i < |parts| ==> sep !in parts[i]
    ensures Split(Join(parts, sep), sep) == parts
  {
    if |parts| == 1 {
      SplitNoSep(parts[0], sep);
    } else {
      SplitJoin(parts[1..], sep);
      SplitAtFirst(parts[0], Join(parts[1..], sep), sep);
      assert [parts[0]] + parts[1..] == parts;
    }
  }

  /** Python's `str.isspace` for one character. */
  predicate IsSpace(c: char) {
    var n := c as int;
    n == 0x20 || 0x09 <= n <= 0x0D || 0x1C <= n <= 0x1F || n == 0x85 || n == 0xA0
    || n == 0x1680 || 0x2000 <= n <= 0x200A || n == 0x2028 || n == 0x2029
    || n == 0x202F || n == 0x205F || n == 0x3000
  }

  /** The number of whitespace characters `s` starts with. */
  function LeadingSpaces(s: string): (n: nat)
    ensures n <= |s|
    ensures forall j :: 0 <= j < n ==> IsSpace(s[j])
    ensures n < |s| ==> !IsSpace(s[n])
  {
    if s != [] && IsSpace(s[0]) then
      var t := s[1..];
      var m := LeadingSpaces(t);
      assert forall j :: 0 <= j < |t| ==> t[j] == s[j + 1];
      m + 1
    else 0
  }

  /** The number of whitespace characters `s` ends with. */
  function TrailingSpaces(s: string): (n: nat)
    ensures n <= |s|
    ensures forall j :: |s| - n <= j < |s| ==> IsSpace(s[j])
    ensures n < |s| ==> !IsSpace(s[|s| - n - 1])
  {
    if s != [] && IsSpace(s[|s| - 1]) then
      var t := s[..|s| - 1];
      var m := TrailingSpaces(t);
      assert forall j :: 0 <= j < |t| ==> t[j] == s[j];
      m + 1
    else 0
  }

  /** `s.lstrip()`: drops exactly the leading whitespace. */
  function StripLeft(s: string): (r: string)
    ensures |r| <= |s| && r == s[|s| - |r|..]
    ensures forall j :: 0 <= j < |s| - |r| ==> IsSpace(s[j])
    ensures r != [] ==> !IsSpace(r[0])
  {
    s[LeadingSpaces(s)..]
  }

  /** `s.rstrip()`: drops exactly the trailing whitespace. */
  function StripRight(s: string): (r: string)
    ensures |r| <= |s| && r == s[..|r|]
    ensures forall j :: |r| <= j < |s| ==> IsSpace(s[j])
    ensures r != [] ==> !IsSpace(r[|r| - 1])
  {
    s[..|s| - TrailingSpaces(s)]
  }

  /** `s.strip()`: a piece of `s` that neither starts nor ends with whitespace. */
  function Strip(s: string): (r: string)
    ensures r != [] ==> !IsSpace(r[0]) && !IsSpace(r[|r| - 1])
    ensures forall c :: c in r ==> c in s
  {
    StripKeepsChars(s);
    StripRight(StripLeft(s))
  }

  /** Stripping both ends keeps only characters of `s`. */
  lemma StripKeepsChars(s: string)
    ensures forall c :: c in StripRight(StripLeft(s)) ==> c in s
  {
    var l := StripLeft(s);
    var r := StripRight(l);
    var i := |s| - |l|;
    assert r == s[i..i + |r|] by {
      assert r == l[..|r|] && l == s[i..];
      assert s[i..][..|r|] == s[i..i + |r|];
    }
    forall c | c in r ensures c in s {
      var n :| 0 <= n < |r| && r[n] == c;
      assert s[i + n] == c;
    }
  }

  /** Everything of `s` before `i` and from `j` on is whitespace. */
  predicate WhitespaceAround(s: string, i: int, j: int) {
    && 0 <= i <= j <= |s|
    && (forall k :: 0 <= k < i ==> IsSpace(s[k]))
    && (forall k :: j <= k < |s| ==> IsSpace(s[k]))
  }

  /** A whitespace tail of a suffix of `s` is a whitespace tail of `s`. */
  lemma SpaceTailOfSuffix(s: string, l: string, i: nat, m: nat)
    requires i <= |s| && l == s[i..]
    requires forall k :: m <= k < |l| ==> IsSpace(l[k])
    ensures forall k :: i + m <= k < |s| ==> IsSpace(s[k])
  {
    forall k | i + m <= k < |s| ensures IsSpace(s[k]) {
      assert s[k] == l[k - i];
    }
  }

  /**
   `strip` removes the leading and the trailing whitespace and nothing else:
   its result is the slice of `s` between a whitespace head and a whitespace
   tail.
   */
  lemma StripExact(s: string)
    ensures exists i, j :: WhitespaceAround(s, i, j) && Strip(s) == s[i..j]
  {
    var l := StripLeft(s);
    var r := StripRight(l);
    var i := |s| - |l|;
    var j := i + |r|;
    assert r == s[i..j] by {
      assert l == s[i..];
      assert r == l[..j - i];
      assert s[i..][..j - i] == s[i..j];
    }
    assert WhitespaceAround(s, i, j) by {
      SpaceTailOfSuffix(s, l, i, |r|);
    }
  }

  /** Stripping a string that has no surrounding whitespace changes nothing. */
  lemma StripTrimmed(s: string)
    requires s != [] ==> !IsSpace(s[0]) && !IsSpace(s[|s| - 1])
    ensures Strip(s) == s
  {
  }

  /** Leading whitespace does not survive `strip`. */
  lemma StripSpaceFirst(c: char, s: string)
    requires IsSpace(c)
    ensures Strip([c] + s) == Strip(s)
  {
    assert ([c] + s)[1..] == s;
  }

  /** `c.upper()` for ASCII letters; every other character is left as it is. */
  function UpperChar(c: char): char {
    if 'a' <= c <= 'z' then (c as int - 32) as char else c
  }

  /** `s.upper()`, character by character. */
  function Upper(s: string): (r: string)
    ensures |r| == |s|
    ensures forall i :: 0 <= i < |s| ==> r[i] == UpperChar(s[i])
  {
    seq(|s|, i requires 0 <= i < |s| => UpperChar(s[i]))
  }

  /** Upper-casing a concatenation upper-cases each part. */
  lemma UpperAppend(x: string, y: string)
    ensures Upper(x + y) == Upper(x) + Upper(y)
  {
    assert forall i :: 0 <= i < |x + y| ==> Upper(x + y)[i] == (Upper(x) + Upper(y))[i];
  }

  /** Upper-casing twice is upper-casing once. */
  lemma UpperIdempotent(s: string)
    ensures Upper(Upper(s)) == Upper(s)
  {
  }
}
