/** Option, as the JavaScript code's `undefined`/`null` alternatives. */
module Wrappers {
  datatype Option<T> = None | Some(value: T) {
    /** `x ?? d` */
    function GetOr(d: T): T {
      match this
      case Some(v) => v
      case None => d
    }
  }
}

/**
 * The JavaScript string built-ins the core relies on: whitespace, `trim`,
 * `includes`, `join`, `String(n)` and the run-collapsing
 * `replace(/X+/g, ' ')`.  A JavaScript string is a `seq<char>`, one `char`
 * per UTF-16 code unit of text in the Basic Multilingual Plane.
 *
 * The three Unicode services the source calls (`toLowerCase`, NFKC
 * normalisation, the `\p{L}\p{N}` class) and the per-character case
 * canonicalisation of an `/i` regular expression are left uninterpreted:
 * they are fields of a `Unicode` value that callers pass in.
 */
module Text {
  import opened Wrappers

  /** ECMAScript LineTerminator: the characters `.` of a regular expression does not match. */
  predicate IsLineTerminator(c: char) {
    c == '\n' || c == '\r' || c == '\U{2028}' || c == '\U{2029}'
  }

  /** ECMAScript WhiteSpace or LineTerminator: what `\s` matches and what `trim` removes. */
  predicate IsSpace(c: char) {
    || IsLineTerminator(c)
    || c == '\t' || c == '\U{000B}' || c == '\U{000C}' || c == ' '
    || c == '\U{00A0}' || c == '\U{FEFF}' || c == '\U{1680}'
    || ('\U{2000}' <= c <= '\U{200A}')
    || c == '\U{202F}' || c == '\U{205F}' || c == '\U{3000}'
  }

  /** `\d` of a regular expression without the `u` flag. */
  predicate IsDigit(c: char) {
    '0' <= c <= '9'
  }

  /** The Unicode services the source uses, uninterpreted. */
  datatype Unicode = Unicode(
    lower: string -> string,          // String.prototype.toLowerCase
    nfkc: string -> string,           // String.prototype.normalize('NFKC')
    isLetterOrDigit: char -> bool,    // the class [\p{L}\p{N}]
    caseFold: char -> char)           // Canonicalize of a case-insensitive regular expression

  /** The one fact about `\p{L}\p{N}` the model needs: the space character is neither a letter nor a digit. */
  predicate SpaceIsNotWord(u: Unicode) {
    !u.isLetterOrDigit(' ')
  }

  // ---------------------------------------------------------------- trim

  /** The number of whitespace characters `s` starts with. */
  function LeadingSpaces(s: string): (n: nat)
    ensures n <= |s| && (n == |s| || !IsSpace(s[n]))
    ensures forall i :: 0 <= i < n ==> IsSpace(s[i])
  {
    if s != [] && IsSpace(s[0]) then 1 + LeadingSpaces(s[1..]) else 0
  }

  predicate AllSpaceIn(s: string, i: nat, j: nat)
    requires i <= j <= |s|
  {
    forall k :: i <= k < j ==> IsSpace(s[k])
  }

  /** The length of the whitespace run starting at `i`: what a greedy `\s*` takes first. */
  function SpaceRun(s: string, i: nat): (n: nat)
    requires i <= |s|
    ensures i + n <= |s| && (i + n == |s| || !IsSpace(s[i + n]))
    ensures AllSpaceIn(s, i, i + n)
    decreases |s| - i
  {
    if i < |s| && IsSpace(s[i]) then 1 + SpaceRun(s, i + 1) else 0
  }

  /** Where `s[lo..e]` ends once its trailing whitespace is dropped. */
  function TrimmedEnd(s: string, lo: nat, e: nat): (r: nat)
    requires lo <= e <= |s|
    ensures lo <= r <= e && (r == lo || !IsSpace(s[r - 1]))
    ensures forall i :: r <= i < e ==> IsSpace(s[i])
    decreases e
  {
    if e > lo && IsSpace(s[e - 1]) then TrimmedEnd(s, lo, e - 1) else e
  }

  /** `s.trim()`: the slice of `s` left after removing whitespace at both ends. */
  function Trim(s: string): (r: string)
    ensures r == [] || (!IsSpace(r[0]) && !IsSpace(r[|r| - 1]))
    ensures LeadingSpaces(s) + |r| <= |s|
    ensures r == s[LeadingSpaces(s)..LeadingSpaces(s) + |r|]
    ensures forall i :: LeadingSpaces(s) + |r| <= i < |s| ==> IsSpace(s[i])
  {
    var a := LeadingSpaces(s);
    s[a..TrimmedEnd(s, a, |s|)]
  }

  /** Trimming keeps a character class and the absence of double spaces. */
  lemma TrimSlice(s: string)
    ensures forall x :: x in Trim(s) ==> x in s
    ensures NoDoubleSpace(s) ==> NoDoubleSpace(Trim(s))
  {
    var r := Trim(s);
    var a := LeadingSpaces(s);
    SliceAt(s, a, r);
    forall x | x in r ensures x in s {
      var i :| 0 <= i < |r| && r[i] == x;
      assert s[a + i] == x;
    }
    if NoDoubleSpace(s) {
      forall i, j | 0 <= i < |r| && 0 <= j < |r| && j == i + 1 && r[i] == ' ' ensures r[j] != ' ' {
        assert s[a + i] == ' ' && a + j == a + i + 1;
      }
    }
  }

  lemma SliceAt(s: string, a: nat, r: string)
    requires a + |r| <= |s| && r == s[a..a + |r|]
    ensures forall i :: 0 <= i < |r| ==> r[i] == s[a + i]
  {
  }

  /** `trim` returns the slice between a whitespace prefix and a whitespace suffix whose ends are not whitespace. */
  lemma TrimBetween(s: string, i: nat, j: nat)
    requires i <= j <= |s|
    requires forall k :: 0 <= k < i ==> IsSpace(s[k])
    requires forall k :: j <= k < |s| ==> IsSpace(s[k])
    requires i == j || (!IsSpace(s[i]) && !IsSpace(s[j - 1]))
    ensures Trim(s) == s[i..j]
  {
    var r := Trim(s);
    var a := LeadingSpaces(s);
    if i == j {
      assert a == |s|;
    } else {
      assert a == i;
      assert !IsSpace(s[a + |r| - 1]);
    }
  }

  /** Whitespace in front of a string does not change its `trim`. */
  lemma TrimSpacePrefix(w: string, s: string)
    requires forall k :: 0 <= k < |w| ==> IsSpace(w[k])
    ensures Trim(w + s) == Trim(s)
  {
    var a := LeadingSpaces(s);
    var e := TrimmedEnd(s, a, |s|);
    LeadingSpacesPrefix(w, s);
    TrimmedEndShift(w, s, a, |s|);
    assert Trim(w + s) == (w + s)[|w| + a..|w| + e];
    SliceShift(w, s, a, e);
  }

  lemma SliceShift(w: string, s: string, i: nat, j: nat)
    requires i <= j <= |s|
    ensures (w + s)[|w| + i..|w| + j] == s[i..j]
  {
  }

  lemma {:induction false} LeadingSpacesPrefix(w: string, s: string)
    requires forall k :: 0 <= k < |w| ==> IsSpace(w[k])
    ensures LeadingSpaces(w + s) == |w| + LeadingSpaces(s)
  {
    if w == [] {
      assert w + s == s;
    } else {
      assert (w + s)[1..] == w[1..] + s;
      LeadingSpacesPrefix(w[1..], s);
    }
  }

  lemma {:induction false} TrimmedEndShift(w: string, s: string, lo: nat, e: nat)
    requires lo <= e <= |s|
    ensures TrimmedEnd(w + s, |w| + lo, |w| + e) == |w| + TrimmedEnd(s, lo, e)
    decreases e
  {
    if e > lo {
      assert (w + s)[|w| + e - 1] == s[e - 1];
      TrimmedEndShift(w, s, lo, e - 1);
    }
  }

  /** Whitespace after a string does not change its `trim`. */
  lemma TrimSpaceSuffix(s: string, w: string)
    requires forall k :: 0 <= k < |w| ==> IsSpace(w[k])
    ensures Trim(s + w) == Trim(s)
  {
    var r := Trim(s);
    var a := LeadingSpaces(s);
    var b := a + |r|;
    var t := s + w;
    forall k | 0 <= k < a ensures IsSpace(t[k]) {
      assert t[k] == s[k];
    }
    forall k | b <= k < |t| ensures IsSpace(t[k]) {
      if k < |s| {
        assert t[k] == s[k];
      } else {
        assert t[k] == w[k - |s|];
      }
    }
    assert t[a..b] == s[a..b];
    if r != [] {
      assert t[a] == s[a] && t[b - 1] == s[b - 1];
    }
    TrimBetween(t, a, b);
  }

  // ---------------------------------------------------------------- substrings

  /** `sub` occurs in `s` starting at index `i`. */
  predicate OccursAt(s: string, sub: string, i: int) {
    0 <= i && i + |sub| <= |s| && s[i..i + |sub|] == sub
  }

  /** The literal `k` matches at `i` in a regular expression with the `i` flag. */
  predicate KeywordAt(u: Unicode, s: string, k: string, i: nat) {
    i + |k| <= |s| && forall j :: 0 <= j < |k| ==> u.caseFold(s[i + j]) == u.caseFold(k[j])
  }

  /** `s.includes(sub)` */
  predicate Contains(s: string, sub: string) {
    exists i :: 0 <= i <= |s| - |sub| && OccursAt(s, sub, i)
  }

  /** `ss.join(sep)` */
  function Join(ss: seq<string>, sep: string): string {
    if |ss| == 0 then ""
    else if |ss| == 1 then ss[0]
    else ss[0] + sep + Join(ss[1..], sep)
  }

  // ---------------------------------------------------------------- numbers

  function DigitChar(d: nat): (c: char)
    requires d < 10
    ensures IsDigit(c)
  {
    "0123456789"[d]
  }

  /** `String(n)` for a non-negative integer: its decimal digits, no leading zero. */
  function NatToString(n: nat): (r: string)
    ensures |r| >= 1 && (forall i :: 0 <= i < |r| ==> IsDigit(r[i]))
    ensures |r| > 1 ==> r[0] != '0'
  {
    if n < 10 then [DigitChar(n)] else NatToString(n / 10) + [DigitChar(n % 10)]
  }

  /** `String(n)` for any integer. */
  function IntToString(n: int): (r: string)
    ensures n >= 0 ==> r == NatToString(n)
    ensures n < 0 ==> r == "-" + NatToString(-n)
  {
    if n < 0 then "-" + NatToString(-n) else NatToString(n)
  }

  predicate AllDigits(s: string) {
    forall i :: 0 <= i < |s| ==> IsDigit(s[i])
  }

  /** `Number(s)` for a string of decimal digits. */
  function DigitsValue(s: string): nat
    requires AllDigits(s)
  {
    if s == [] then 0 else DigitsValue(s[..|s| - 1]) * 10 + (s[|s| - 1] as int - '0' as int)
  }

  /** `Number(String(n)) == n` */
  lemma {:induction false} NatToStringRoundTrip(n: nat)
    ensures AllDigits(NatToString(n)) && DigitsValue(NatToString(n)) == n
  {
    if n >= 10 {
      NatToStringRoundTrip(n / 10);
      var r := NatToString(n);
      assert r[..|r| - 1] == NatToString(n / 10);
    }
  }

  /** `Number(String(n)) == n` for a non-negative integer rendered by `String`. */
  lemma IntToStringRoundTrip(n: int)
    ensures n >= 0 ==> AllDigits(IntToString(n)) && DigitsValue(IntToString(n)) == n
  {
    if n >= 0 {
      NatToStringRoundTrip(n);
    }
  }

  // ---------------------------------------------------------------- runs

  /** The longest prefix of `s` whose characters all satisfy `p`, dropped. */
  function DropRun(s: string, p: char -> bool): (r: string)
    ensures |r| <= |s| && r == s[|s| - |r|..]
    ensures r == [] || !p(r[0])
    ensures forall i :: 0 <= i < |s| - |r| ==> p(s[i])
  {
    if s != [] && p(s[0]) then DropRun(s[1..], p) else s
  }

  /** No two adjacent spaces. */
  predicate NoDoubleSpace(s: string) {
    forall i, j :: 0 <= i < |s| && 0 <= j < |s| && j == i + 1 && s[i] == ' ' ==> s[j] != ' '
  }

  /** `s.replace(/X+/g, ' ')` where X is the class `p`: every maximal run of `p` characters becomes one space. */
  function CollapseRuns(s: string, p: char -> bool): (r: string)
    ensures forall i :: 0 <= i < |r| ==> r[i] == ' ' || !p(r[i])
    ensures p(' ') ==> NoDoubleSpace(r)
    ensures |r| <= |s|
    ensures s != [] && !p(s[0]) ==> r != [] && r[0] == s[0]
    decreases |s|
  {
    if s == [] then []
    else if p(s[0]) then
      " " + CollapseRuns(DropRun(s, p), p)
    else [s[0]] + CollapseRuns(s[1..], p)
  }

  /** `s.replace(/\s+/g, ' ')` */
  function CollapseSpaces(s: string): (r: string)
    ensures forall i :: 0 <= i < |r| ==> r[i] == ' ' || !IsSpace(r[i])
    ensures NoDoubleSpace(r)
    ensures |r| <= |s|
  {
    CollapseRuns(s, IsSpace)
  }

  /** A string without any character of the class is left as it is. */
  lemma {:induction false} CollapseRunsNone(s: string, p: char -> bool)
    requires forall i :: 0 <= i < |s| ==> !p(s[i])
    ensures CollapseRuns(s, p) == s
  {
    if s != [] {
      CollapseRunsNone(s[1..], p);
      assert s == [s[0]] + s[1..];
    }
  }
}
