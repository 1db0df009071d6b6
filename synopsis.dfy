/**
 * The description step of extractMovieFacts: the text after the first
 * synopsis anchor that matches, or else the first analysis or basic-info
 * text, cleaned of "read more" fragments and cut to at most 280 characters.
 */
module Synopsis {
  import opened Wrappers
  import opened Text
  import opened Lists
  import opened Search

  const MaxSynopsis: nat := 280

  /** `descAnchors`, tried in this order. */
  const Anchors: seq<string> := ["줄거리", "시놉시스", "synopsis", "plot", "あらすじ"]

  predicate IsColon(c: char) {
    c == ':' || c == '：'
  }

  /** The length of the run of characters other than `\n` starting at `q`. */
  function LineRun(s: string, q: nat): (n: nat)
    requires q <= |s|
    ensures q + n <= |s| && (q + n == |s| || s[q + n] == '\n')
    ensures forall k :: q <= k < q + n ==> s[k] != '\n'
    decreases |s| - q
  {
    if q < |s| && s[q] != '\n' then 1 + LineRun(s, q + 1) else 0
  }

  /** `([^\n]{80,600})` can start at `q`. */
  predicate CaptureFits(s: string, q: nat)
    requires q <= |s|
  {
    LineRun(s, q) >= 80
  }

  /** The greedy group: as many characters as the line has, up to 600. */
  function Capture(s: string, q: nat): (m: string)
    requires q <= |s| && CaptureFits(s, q)
    ensures 80 <= |m| <= 600 && q + |m| <= |s| && m == s[q..q + |m|]
    ensures forall k :: 0 <= k < |m| ==> m[k] != '\n'
  {
    var n := LineRun(s, q);
    s[q..q + (if n < 600 then n else 600)]
  }

  /** The second `\s*` at `c`, giving back characters one at a time from `c + k`. */
  function SecondSpaces(s: string, c: nat, k: nat): (q: Option<nat>)
    requires c + k <= |s|
    ensures q.Some? ==> c <= q.value <= c + k && CaptureFits(s, q.value)
    decreases k
  {
    if CaptureFits(s, c + k) then Some(c + k)
    else if k == 0 then None
    else SecondSpaces(s, c, k - 1)
  }

  /** `[:：]?\s*([^\n]{80,600})` at `p`: the colon is taken first, then left out. */
  function AfterFirstSpaces(s: string, p: nat): (q: Option<nat>)
    requires p <= |s|
    ensures q.Some? ==> p <= q.value <= |s| && CaptureFits(s, q.value)
  {
    var viaColon := if p < |s| && IsColon(s[p]) then SecondSpaces(s, p + 1, SpaceRun(s, p + 1)) else None;
    if viaColon.Some? then viaColon else SecondSpaces(s, p, SpaceRun(s, p))
  }

  /** The first `\s*` at `b`, giving back characters one at a time from `b + k`. */
  function FirstSpaces(s: string, b: nat, k: nat): (q: Option<nat>)
    requires b + k <= |s|
    ensures q.Some? ==> b <= q.value <= |s| && CaptureFits(s, q.value)
    decreases k
  {
    var r := AfterFirstSpaces(s, b + k);
    if r.Some? then r else if k == 0 then None else FirstSpaces(s, b, k - 1)
  }

  /** Where the group starts when the anchor ends at `b`, if the rest of the pattern matches there. */
  function Tail(s: string, b: nat): (q: Option<nat>)
    requires b <= |s|
    ensures q.Some? ==> b <= q.value <= |s| && CaptureFits(s, q.value)
  {
    FirstSpaces(s, b, SpaceRun(s, b))
  }

  /** The anchor `k` and the rest of the pattern match from `a`. */
  predicate AnchorMatchesAt(u: Unicode, s: string, k: string, a: nat) {
    KeywordAt(u, s, k, a) && Tail(s, a + |k|).Some?
  }

  /** The leftmost `b` in `from..last` with `p(b)`. */
  function Leftmost(p: nat -> bool, from: nat, last: nat): (a: Option<nat>)
    ensures a.Some? ==> from <= a.value <= last && p(a.value)
    decreases last + 1 - from
  {
    if from > last then None
    else if p(from) then Some(from)
    else Leftmost(p, from + 1, last)
  }

  lemma {:induction false} LeftmostIsFirst(p: nat -> bool, from: nat, last: nat, b: nat)
    requires from <= b <= last
    requires Leftmost(p, from, last).None? || b < Leftmost(p, from, last).value
    ensures !p(b)
    decreases last + 1 - from
  {
    if !p(from) && from < b {
      LeftmostIsFirst(p, from + 1, last, b);
    }
  }

  /** `s.match(re)`: the leftmost start `a >= from` where the pattern matches. */
  function AnchorMatch(u: Unicode, s: string, k: string, from: nat): (a: Option<nat>)
    ensures a.Some? ==> from <= a.value <= |s| && AnchorMatchesAt(u, s, k, a.value)
  {
    Leftmost((b: nat) => AnchorMatchesAt(u, s, k, b), from, |s|)
  }

  /** The match is leftmost: no start from `from` up to it matches, and none at all when there is no match. */
  lemma AnchorMatchLeftmost(u: Unicode, s: string, k: string, from: nat, b: nat)
    requires from <= b
    requires AnchorMatch(u, s, k, from).None? || b < AnchorMatch(u, s, k, from).value
    ensures !AnchorMatchesAt(u, s, k, b)
  {
    if b <= |s| {
      LeftmostIsFirst((b: nat) => AnchorMatchesAt(u, s, k, b), from, |s|, b);
    }
  }

  /** `m[1]` of the first anchor in `anchors` that matches. */
  function AnchorText(u: Unicode, s: string, anchors: seq<string>): (m: Option<string>)
    ensures m.Some? ==> 80 <= |m.value| <= 600
    ensures m.None? <==> forall i :: 0 <= i < |anchors| ==> AnchorMatch(u, s, anchors[i], 0).None?
  {
    if anchors == [] then None
    else
      var r := AnchorMatch(u, s, anchors[0], 0);
      if r.Some? then Some(Capture(s, Tail(s, r.value + |anchors[0]|).value))
      else
        var rest := AnchorText(u, s, anchors[1..]);
        assert forall i :: 1 <= i < |anchors| ==> anchors[i] == anchors[1..][i - 1];
        rest
  }

  /**
   * What an anchor match is: the anchor at `a`, then only whitespace and at
   * most one colon, then room for 80 to 600 characters of one line.
   */
  lemma AnchorMatchShape(u: Unicode, s: string, k: string, a: nat) returns (q: nat)
    requires AnchorMatchesAt(u, s, k, a)
    ensures a + |k| <= q <= |s| && Tail(s, a + |k|) == Some(q)
    ensures forall i :: a + |k| <= i < q ==> IsSpace(s[i]) || IsColon(s[i])
    ensures CaptureFits(s, q)
  {
    q := TailShape(s, a + |k|);
  }

  lemma TailShape(s: string, b: nat) returns (q: nat)
    requires b <= |s| && Tail(s, b).Some?
    ensures Tail(s, b) == Some(q) && b <= q <= |s| && CaptureFits(s, q)
    ensures forall i :: b <= i < q ==> IsSpace(s[i]) || IsColon(s[i])
  {
    q := Tail(s, b).value;
    FirstSpacesShape(s, b, SpaceRun(s, b));
  }

  lemma {:induction false} FirstSpacesShape(s: string, b: nat, k: nat)
    requires b + k <= |s| && AllSpaceIn(s, b, b + k) && FirstSpaces(s, b, k).Some?
    ensures forall i :: b <= i < FirstSpaces(s, b, k).value ==> IsSpace(s[i]) || IsColon(s[i])
    decreases k
  {
    if AfterFirstSpaces(s, b + k).Some? {
      AfterFirstSpacesShape(s, b + k);
    } else {
      FirstSpacesShape(s, b, k - 1);
    }
  }

  lemma AfterFirstSpacesShape(s: string, p: nat)
    requires p <= |s| && AfterFirstSpaces(s, p).Some?
    ensures forall i :: p <= i < AfterFirstSpaces(s, p).value ==> IsSpace(s[i]) || IsColon(s[i])
  {
    if p < |s| && IsColon(s[p]) && SecondSpaces(s, p + 1, SpaceRun(s, p + 1)).Some? {
      SecondSpacesShape(s, p + 1, SpaceRun(s, p + 1));
    } else {
      SecondSpacesShape(s, p, SpaceRun(s, p));
    }
  }

  lemma {:induction false} SecondSpacesShape(s: string, c: nat, k: nat)
    requires c + k <= |s| && AllSpaceIn(s, c, c + k) && SecondSpaces(s, c, k).Some?
    ensures AllSpaceIn(s, c, SecondSpaces(s, c, k).value)
    decreases k
  {
    if !CaptureFits(s, c + k) {
      SecondSpacesShape(s, c, k - 1);
    }
  }

  // ---------------------------------------------------------------- cleanSynopsis

  predicate AllDots(s: string) {
    forall i :: 0 <= i < |s| ==> s[i] == '.'
  }

  /**
   * `.replace(/続きを読む|더 보기|더보기|접기|\.{3,}$/g, '')`: scanning left to
   * right, the first alternative that matches at a position is removed.
   */
  function RemoveFragments(s: string): (r: string)
    ensures |r| <= |s|
    ensures IsSubsequence(r, s)
    decreases |s|
  {
    if s == [] then []
    else if OccursAt(s, "続きを読む", 0) then RemoveFragmentsAfter(s, 5)
    else if OccursAt(s, "더 보기", 0) then RemoveFragmentsAfter(s, 4)
    else if OccursAt(s, "더보기", 0) then RemoveFragmentsAfter(s, 3)
    else if OccursAt(s, "접기", 0) then RemoveFragmentsAfter(s, 2)
    else if |s| >= 3 && AllDots(s) then
      EmptyIsSubsequence(s);
      []
    else
      var r := [s[0]] + RemoveFragments(s[1..]);
      assert r[1..] == RemoveFragments(s[1..]);
      r
  }

  /** Dropping the first `n` characters, then removing fragments from the rest. */
  function RemoveFragmentsAfter(s: string, n: nat): (r: string)
    requires 0 < n <= |s|
    ensures |r| <= |s| - n
    ensures IsSubsequence(r, s)
    decreases |s|, 0
  {
    var r := RemoveFragments(s[n..]);
    SubsequenceOfSuffix(r, s, n);
    r
  }

  lemma {:induction false} SubsequenceOfSuffix(r: string, s: string, n: nat)
    requires n <= |s| && IsSubsequence(r, s[n..])
    ensures IsSubsequence(r, s)
    decreases n
  {
    if n > 0 {
      assert s[1..][n - 1..] == s[n..];
      SubsequenceOfSuffix(r, s[1..], n - 1);
    }
  }

  /** cleanSynopsis */
  function CleanSynopsis(t: string): (r: string)
    ensures r == [] || (!IsSpace(r[0]) && !IsSpace(r[|r| - 1]))
    ensures |r| <= |t|
  {
    var c := CollapseSpaces(t);
    var f := RemoveFragments(c);
    var r := Trim(f);
    assert |r| <= |f| <= |c| <= |t|;
    r
  }

  /** A text with nothing to clean comes back unchanged. */
  lemma CleanSynopsisPlainText(t: string)
    requires forall i :: 0 <= i < |t| ==> ('a' <= t[i] <= 'z') || ('A' <= t[i] <= 'Z')
    ensures CleanSynopsis(t) == t
  {
    CollapseLetters(t);
    RemoveFragmentsLetters(t);
    TrimBetween(t, 0, |t|);
  }

  lemma {:induction false} CollapseLetters(t: string)
    requires forall i :: 0 <= i < |t| ==> ('a' <= t[i] <= 'z') || ('A' <= t[i] <= 'Z')
    ensures CollapseSpaces(t) == t
  {
    CollapseRunsNone(t, IsSpace);
  }

  lemma {:induction false} RemoveFragmentsLetters(t: string)
    requires forall i :: 0 <= i < |t| ==> ('a' <= t[i] <= 'z') || ('A' <= t[i] <= 'Z')
    ensures RemoveFragments(t) == t
    decreases |t|
  {
    if t != [] {
      assert !OccursAt(t, "続きを読む", 0) && !OccursAt(t, "더 보기", 0) && !OccursAt(t, "더보기", 0) && !OccursAt(t, "접기", 0)
      by {
        assert t[0] != '続' && t[0] != '더' && t[0] != '접';
      }
      assert !AllDots(t) by { assert t[0] != '.'; }
      RemoveFragmentsLetters(t[1..]);
      assert t == [t[0]] + t[1..];
    }
  }

  // ---------------------------------------------------------------- truncateForSynopsis

  /** `t.slice(0, end)` for an `end` that may be negative (it then counts from the end). */
  function SliceTo(t: string, end: int): (r: string)
    ensures |r| <= |t| && r == t[..|r|]
  {
    if end >= 0 then Take(t, end)
    else if |t| + end >= 0 then t[..|t| + end]
    else []
  }

  /** truncateForSynopsis */
  function TruncateForSynopsis(t: string, maxLen: nat): (r: string)
    ensures |t| <= maxLen ==> r == t
    ensures |t| > maxLen >= 1 ==> 1 <= |r| <= maxLen && r[|r| - 1] == '…' && r[..|r| - 1] == Trim(t[..maxLen - 1])
  {
    if |t| <= maxLen then t else Trim(SliceTo(t, maxLen - 1)) + "…"
  }

  /** `truncateForSynopsis(truncateForSynopsis(t))` is `truncateForSynopsis(t)`. */
  lemma TruncateIdempotent(t: string, maxLen: nat)
    requires maxLen >= 1
    ensures |TruncateForSynopsis(t, maxLen)| <= maxLen
    ensures TruncateForSynopsis(TruncateForSynopsis(t, maxLen), maxLen) == TruncateForSynopsis(t, maxLen)
  {
  }

  /** The description as cleaned and cut. */
  function Finish(t: string): (r: string)
    ensures |r| <= MaxSynopsis
  {
    var c := CleanSynopsis(t);
    TruncateIdempotent(c, MaxSynopsis);
    TruncateForSynopsis(c, MaxSynopsis)
  }

  /** `movieData.analysis?.[0]?.text || movieData.basicInfo?.[0]?.text || ''` */
  function FirstAnalysis(data: MovieSearchData): string {
    var a := if |data.analysis| > 0 then data.analysis[0].text else "";
    if a != "" then a
    else if |data.basicInfo| > 0 then data.basicInfo[0].text
    else ""
  }

  /**
   * `facts.description`: the first anchor's text; the fallback only when that
   * is missing or cleans to the empty string.
   */
  function Description(u: Unicode, blobs: string, data: MovieSearchData): (d: Option<string>)
    ensures d.Some? ==> |d.value| <= MaxSynopsis
    ensures AnchorText(u, blobs, Anchors).Some? ==>
      d.Some? && (d.value == Finish(AnchorText(u, blobs, Anchors).value) || d.value == Finish(FirstAnalysis(data)))
    ensures d.None? <==> AnchorText(u, blobs, Anchors).None? && FirstAnalysis(data) == ""
    ensures AnchorText(u, blobs, Anchors).Some? && Finish(AnchorText(u, blobs, Anchors).value) != "" ==>
      d == Some(Finish(AnchorText(u, blobs, Anchors).value))
    ensures ((AnchorText(u, blobs, Anchors).None? || Finish(AnchorText(u, blobs, Anchors).value) == "")
      && FirstAnalysis(data) != "") ==> d == Some(Finish(FirstAnalysis(data)))
    ensures (AnchorText(u, blobs, Anchors).Some? && Finish(AnchorText(u, blobs, Anchors).value) == ""
      && FirstAnalysis(data) == "") ==> d == Some("")
  {
    var fromAnchor := match AnchorText(u, blobs, Anchors) {
      case Some(m) => Some(Finish(m))
      case None => None
    };
    if fromAnchor.Some? && fromAnchor.value != "" then fromAnchor
    else if FirstAnalysis(data) != "" then Some(Finish(FirstAnalysis(data)))
    else fromAnchor
  }
}
