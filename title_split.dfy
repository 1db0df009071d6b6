/**
 * parseArtistAndTitle: splitting a video or page title into artist and song
 * title with a fixed list of anchored regular expressions, of which the
 * first that matches wins.  The search service uses the first four
 * patterns, the music-extraction route all six.
 *
 * Each pattern is matched by hand, in the order a backtracking regular
 * expression engine explores it: the lazy group 1 grows one character at a
 * time, each greedy `\s*` gives back one character at a time, and `.`
 * never matches a line terminator.
 */
module TitleSplit {
  import opened Wrappers
  import opened Text

  datatype Pattern =
    | Dash     // ^(.+?)\s*[-–—]\s*(.+)$
    | Colon    // ^(.+?)\s*:\s*(.+)$
    | Pipe     // ^(.+?)\s*\|\s*(.+)$
    | By       // ^(.+?)\s*by\s+(.+)$  (case-insensitive)
    | Paren    // ^(.+?)\s*\(\s*(.+?)\s*\)$
    | Bracket  // ^(.+?)\s*\[\s*(.+?)\s*\]$

  datatype Split = Split(artist: string, title: string)

  /** A match: group 1 is `s[..first]`, the separator starts at `sep`, group 2 is `s[secondStart..secondEnd]`. */
  datatype Groups = Groups(first: nat, sep: nat, secondStart: nat, secondEnd: nat)

  /** The patterns of the search service, in order. */
  const ServicePatterns: seq<Pattern> := [Dash, Colon, Pipe, By]

  /** The patterns of the music-extraction route, in order. */
  const RoutePatterns: seq<Pattern> := [Dash, Colon, Pipe, By, Paren, Bracket]

  predicate IsSingleSep(pat: Pattern) {
    pat == Dash || pat == Colon || pat == Pipe
  }

  predicate IsEnclosing(pat: Pattern) {
    pat == Paren || pat == Bracket
  }

  /** The first character of the separator (for `by`, either case of `b`). */
  predicate SepChar(pat: Pattern, c: char) {
    match pat
    case Dash => c == '-' || c == '–' || c == '—'
    case Colon => c == ':'
    case Pipe => c == '|'
    case By => c == 'b' || c == 'B'
    case Paren => c == '('
    case Bracket => c == '['
  }

  function SepLen(pat: Pattern): nat {
    if pat == By then 2 else 1
  }

  /** The closing character an enclosing pattern ends with. */
  function CloseChar(pat: Pattern): char {
    if pat == Paren then ')' else ']'
  }

  predicate NoLineTerminatorIn(s: string, i: nat, j: nat)
    requires i <= j <= |s|
  {
    forall k :: i <= k < j ==> !IsLineTerminator(s[k])
  }

  /** What it means for `g` to be a match of `pat` against the whole of `s`. */
  predicate Shape(s: string, pat: Pattern, g: Groups) {
    && 1 <= g.first <= g.sep
    && g.sep + SepLen(pat) <= g.secondStart < g.secondEnd <= |s|
    && NoLineTerminatorIn(s, 0, g.first)
    && AllSpaceIn(s, g.first, g.sep)
    && SepChar(pat, s[g.sep])
    && (pat == By ==> (s[g.sep + 1] == 'y' || s[g.sep + 1] == 'Y') && g.sep + 2 < g.secondStart)
    && AllSpaceIn(s, g.sep + SepLen(pat), g.secondStart)
    && NoLineTerminatorIn(s, g.secondStart, g.secondEnd)
    && (if IsEnclosing(pat) then g.secondEnd < |s| && AllSpaceIn(s, g.secondEnd, |s| - 1) && s[|s| - 1] == CloseChar(pat)
        else g.secondEnd == |s|)
  }

  /**
   * `\s{min,}(.+)$` from position `p`, the `\s` having taken `k` characters:
   * the start of group 2 for the largest `k >= min` that leaves a non-empty,
   * line-terminator-free rest.
   */
  function TailFrom(s: string, p: nat, k: nat, min: nat): (q: Option<nat>)
    requires p + k <= |s| && AllSpaceIn(s, p, p + k)
    ensures q.Some? ==> p + min <= q.value < |s| && AllSpaceIn(s, p, q.value) && NoLineTerminatorIn(s, q.value, |s|)
    decreases k
  {
    if k >= min && p + k < |s| && NoLineTerminatorIn(s, p + k, |s|) then Some(p + k)
    else if k > min then TailFrom(s, p, k - 1, min)
    else None
  }

  function Tail(s: string, p: nat, min: nat): (q: Option<nat>)
    requires p <= |s|
    ensures q.Some? ==> p + min <= q.value < |s| && AllSpaceIn(s, p, q.value) && NoLineTerminatorIn(s, q.value, |s|)
  {
    TailFrom(s, p, SpaceRun(s, p), min)
  }

  /**
   * `(.+?)\s*X$` with group 2 starting at `q` and ending at `e` or later:
   * the first end `e` after which only whitespace and the closing character remain.
   */
  function CloseFrom(s: string, q: nat, e: nat, close: char): (r: Option<nat>)
    requires q < e <= |s|
    requires NoLineTerminatorIn(s, q, e - 1)
    ensures r.Some? ==> q < r.value < |s| && NoLineTerminatorIn(s, q, r.value)
    ensures r.Some? ==> AllSpaceIn(s, r.value, |s| - 1) && s[|s| - 1] == close
    decreases |s| - e
  {
    if IsLineTerminator(s[e - 1]) then None
    else if e + SpaceRun(s, e) == |s| - 1 && s[|s| - 1] == close then Some(e)
    else if e < |s| then CloseFrom(s, q, e + 1, close)
    else None
  }

  /** `\s*(.+?)\s*X$` from position `a`, the first `\s*` having taken `k` characters. */
  function EnclosedFrom(s: string, a: nat, k: nat, close: char): (r: Option<(nat, nat)>)
    requires a + k <= |s| && AllSpaceIn(s, a, a + k)
    ensures r.Some? ==> a <= r.value.0 < r.value.1 < |s| && AllSpaceIn(s, a, r.value.0)
    ensures r.Some? ==> NoLineTerminatorIn(s, r.value.0, r.value.1)
    ensures r.Some? ==> AllSpaceIn(s, r.value.1, |s| - 1) && s[|s| - 1] == close
    decreases k
  {
    var found := if a + k < |s| then CloseFrom(s, a + k, a + k + 1, close) else None;
    if found.Some? then Some((a + k, found.value))
    else if k > 0 then EnclosedFrom(s, a, k - 1, close)
    else None
  }

  /**
   * The rest of the pattern once group 1 is `s[..n]` and the `\s*` after it
   * reached `p`.  The separator is never whitespace, so that `\s*` cannot
   * give characters back usefully: only its greedy choice is tried.
   */
  function MatchAfter(s: string, pat: Pattern, n: nat, p: nat): (g: Option<Groups>)
    requires 1 <= n <= p <= |s| && NoLineTerminatorIn(s, 0, n) && AllSpaceIn(s, n, p)
    ensures g.Some? ==> Shape(s, pat, g.value) && g.value.first == n && g.value.sep == p
  {
    if p < |s| && SepChar(pat, s[p]) then
      if IsSingleSep(pat) then SingleSepRest(s, pat, n, p)
      else if pat == By then ByRest(s, n, p)
      else EnclosedRest(s, pat, n, p)
    else None
  }

  /** `\s*(.+)$` after a one-character separator at `p`. */
  function SingleSepRest(s: string, pat: Pattern, n: nat, p: nat): (g: Option<Groups>)
    requires 1 <= n <= p < |s| && NoLineTerminatorIn(s, 0, n) && AllSpaceIn(s, n, p)
    requires IsSingleSep(pat) && SepChar(pat, s[p])
    ensures g.Some? <==> Tail(s, p + 1, 0).Some?
    ensures g.Some? ==> Shape(s, pat, g.value) && g.value == Groups(n, p, Tail(s, p + 1, 0).value, |s|)
  {
    var q := Tail(s, p + 1, 0);
    if q.Some? then Some(Groups(n, p, q.value, |s|)) else None
  }

  /** `y\s+(.+)$` after the `b` of `by` at `p`. */
  function ByRest(s: string, n: nat, p: nat): (g: Option<Groups>)
    requires 1 <= n <= p < |s| && NoLineTerminatorIn(s, 0, n) && AllSpaceIn(s, n, p)
    requires SepChar(By, s[p])
    ensures g.Some? ==> Shape(s, By, g.value) && g.value.first == n && g.value.sep == p
  {
    if p + 1 < |s| && (s[p + 1] == 'y' || s[p + 1] == 'Y') then
      var q := Tail(s, p + 2, 1);
      if q.Some? then Some(Groups(n, p, q.value, |s|)) else None
    else None
  }

  /** `\s*(.+?)\s*X$` after the opening character at `p`. */
  function EnclosedRest(s: string, pat: Pattern, n: nat, p: nat): (g: Option<Groups>)
    requires 1 <= n <= p < |s| && NoLineTerminatorIn(s, 0, n) && AllSpaceIn(s, n, p)
    requires IsEnclosing(pat) && SepChar(pat, s[p])
    ensures g.Some? ==> Shape(s, pat, g.value) && g.value.first == n && g.value.sep == p
  {
    var r := EnclosedFrom(s, p + 1, SpaceRun(s, p + 1), CloseChar(pat));
    if r.Some? then Some(Groups(n, p, r.value.0, r.value.1)) else None
  }

  /** The lazy group 1: try `s[..n]`, then `s[..n + 1]`, and so on, stopping at a line terminator. */
  function MatchFrom(s: string, pat: Pattern, n: nat): (g: Option<Groups>)
    requires 1 <= n <= |s| && NoLineTerminatorIn(s, 0, n - 1)
    ensures g.Some? ==> Shape(s, pat, g.value) && n <= g.value.first
    decreases |s| - n
  {
    if IsLineTerminator(s[n - 1]) then None
    else
      var here := MatchAfter(s, pat, n, n + SpaceRun(s, n));
      if here.Some? then here
      else if n < |s| then MatchFrom(s, pat, n + 1)
      else None
  }

  /** `s.match(pattern)`, as positions. */
  function Match(s: string, pat: Pattern): (g: Option<Groups>)
    ensures g.Some? ==> Shape(s, pat, g.value)
  {
    if |s| == 0 then None else MatchFrom(s, pat, 1)
  }

  /**
   * One pattern's result: both groups trimmed; only the `by` pattern puts
   * group 2 first.  The enclosing patterns give group 1, the text outside
   * the parentheses or brackets, to the artist.
   */
  function ApplyPattern(s: string, pat: Pattern): (r: Option<Split>)
    ensures r.Some? <==> Match(s, pat).Some?
    ensures r.Some? && pat != By ==> var g := Match(s, pat).value;
      r.value == Split(Trim(s[..g.first]), Trim(s[g.secondStart..g.secondEnd]))
    ensures r.Some? && pat == By ==> var g := Match(s, pat).value;
      r.value == Split(Trim(s[g.secondStart..g.secondEnd]), Trim(s[..g.first]))
  {
    match Match(s, pat)
    case None => None
    case Some(g) =>
      var first := Trim(s[..g.first]);
      var second := Trim(s[g.secondStart..g.secondEnd]);
      if pat == By then Some(Split(second, first)) else Some(Split(first, second))
  }

  /** Each pattern's result on `s`, in list order. */
  function Results(s: string, pats: seq<Pattern>): (rs: seq<Option<Split>>)
    ensures |rs| == |pats| && forall i :: 0 <= i < |pats| ==> rs[i] == ApplyPattern(s, pats[i])
  {
    seq(|pats|, i requires 0 <= i < |pats| => ApplyPattern(s, pats[i]))
  }

  /** The loop over the pattern list with its early return: the first result that is a match. */
  function FirstSome<T>(rs: seq<Option<T>>): (r: Option<T>)
    ensures r.None? <==> forall i :: 0 <= i < |rs| ==> rs[i].None?
  {
    if rs == [] then None
    else if rs[0].Some? then rs[0]
    else FirstSome(rs[1..])
  }

  /** The earliest match decides the result. */
  lemma {:induction false} FirstSomeWins<T>(rs: seq<Option<T>>, i: nat)
    requires i < |rs| && rs[i].Some?
    requires forall j :: 0 <= j < i ==> rs[j].None?
    ensures FirstSome(rs) == rs[i]
  {
    if i > 0 {
      FirstSomeWins(rs[1..], i - 1);
    }
  }

  /** Patterns appended to a list only matter when none of the list matches. */
  lemma {:induction false} FirstSomeAppend<T>(a: seq<Option<T>>, b: seq<Option<T>>)
    ensures FirstSome(a + b) == if FirstSome(a).Some? then FirstSome(a) else FirstSome(b)
  {
    if a == [] {
      assert a + b == b;
    } else {
      assert (a + b)[1..] == a[1..] + b;
      FirstSomeAppend(a[1..], b);
    }
  }

  /** parseArtistAndTitle with a pattern list: with no match, no artist and the trimmed title. */
  function ParseArtistAndTitle(s: string, pats: seq<Pattern>): (r: Split)
    ensures (forall i :: 0 <= i < |pats| ==> ApplyPattern(s, pats[i]).None?) ==> r == Split("", Trim(s))
  {
    match FirstSome(Results(s, pats))
    case Some(split) => split
    case None => Split("", Trim(s))
  }

  /** The earliest pattern that matches decides the result. */
  lemma FirstPatternWins(s: string, pats: seq<Pattern>, i: nat)
    requires i < |pats| && ApplyPattern(s, pats[i]).Some?
    requires forall j :: 0 <= j < i ==> ApplyPattern(s, pats[j]).None?
    ensures ParseArtistAndTitle(s, pats) == ApplyPattern(s, pats[i]).value
  {
    FirstSomeWins(Results(s, pats), i);
  }

  /** The route's two extra patterns only matter when none of the service's four matches. */
  lemma RouteExtendsService(s: string)
    ensures FirstSome(Results(s, ServicePatterns)).Some? ==>
      ParseArtistAndTitle(s, RoutePatterns) == ParseArtistAndTitle(s, ServicePatterns)
    ensures FirstSome(Results(s, ServicePatterns)).None? ==>
      ParseArtistAndTitle(s, RoutePatterns) == ParseArtistAndTitle(s, [Paren, Bracket])
  {
    assert RoutePatterns == ServicePatterns + [Paren, Bracket];
    assert Results(s, RoutePatterns) == Results(s, ServicePatterns) + Results(s, [Paren, Bracket]);
    FirstSomeAppend(Results(s, ServicePatterns), Results(s, [Paren, Bracket]));
  }

  // ---------------------------------------------------------------- single-character separators

  /** The first index `p >= i` holding the separator with at least one character after it. */
  function FirstSep(s: string, pat: Pattern, i: nat): (r: Option<nat>)
    ensures r.Some? ==> i <= r.value && r.value + 1 < |s| && SepChar(pat, s[r.value])
    ensures r.Some? ==> forall k :: i <= k < r.value ==> !SepChar(pat, s[k])
    ensures r.None? ==> forall k :: i <= k && k + 1 < |s| ==> !SepChar(pat, s[k])
    decreases |s| - i
  {
    if i + 1 >= |s| then None
    else if SepChar(pat, s[i]) then Some(i)
    else FirstSep(s, pat, i + 1)
  }

  lemma SeparatorIsNotSpace(pat: Pattern, c: char)
    requires IsSingleSep(pat) && SepChar(pat, c)
    ensures !IsSpace(c)
  {
  }

  lemma {:induction false} TailFromExists(s: string, p: nat, k: nat)
    requires p + k <= |s| && AllSpaceIn(s, p, p + k) && NoLineTerminatorIn(s, 0, |s|)
    ensures TailFrom(s, p, k, 0).Some? <==> p < |s|
    decreases k
  {
    if k > 0 && p + k == |s| {
      TailFromExists(s, p, k - 1);
    }
  }

  /** On a line without line terminators the lazy group 1 stops where the first usable separator is. */
  lemma {:induction false} MatchFromFirstSep(s: string, pat: Pattern, n: nat)
    requires IsSingleSep(pat) && NoLineTerminatorIn(s, 0, |s|) && 1 <= n <= |s|
    ensures MatchFrom(s, pat, n).Some? <==> FirstSep(s, pat, n).Some?
    ensures MatchFrom(s, pat, n).Some? ==> MatchFrom(s, pat, n).value.sep == FirstSep(s, pat, n).value
    decreases |s| - n
  {
    FirstAttempt(s, pat, n);
    if n < |s| {
      MatchFromFirstSep(s, pat, n + 1);
    }
  }

  /**
   * The first attempt, with group 1 `s[..n]`: it succeeds with the first
   * separator from `n` on, or both the match and the search for a separator
   * go on from `n + 1`, or neither finds anything.
   */
  lemma FirstAttempt(s: string, pat: Pattern, n: nat)
    requires IsSingleSep(pat) && NoLineTerminatorIn(s, 0, |s|) && 1 <= n <= |s|
    ensures var m := MatchFrom(s, pat, n); var f := FirstSep(s, pat, n);
      || (m.Some? && f == Some(m.value.sep))
      || (n < |s| && m == MatchFrom(s, pat, n + 1) && f == FirstSep(s, pat, n + 1))
      || (m.None? && f.None?)
  {
    var p := n + SpaceRun(s, n);
    assert !IsLineTerminator(s[n - 1]);
    if MatchAfter(s, pat, n, p).Some? {
      AttemptHits(s, pat, n, p);
    } else {
      AttemptMisses(s, pat, n, p);
      MatchFromMisses(s, pat, n, p);
    }
  }

  lemma AttemptHits(s: string, pat: Pattern, n: nat, p: nat)
    requires IsSingleSep(pat) && NoLineTerminatorIn(s, 0, |s|) && 1 <= n <= |s| && p == n + SpaceRun(s, n)
    requires MatchAfter(s, pat, n, p).Some?
    ensures FirstSep(s, pat, n) == Some(p)
    ensures MatchFrom(s, pat, n) == MatchAfter(s, pat, n, p)
  {
    FirstSepSkips(s, pat, n, p);
    assert !IsLineTerminator(s[n - 1]);
  }

  lemma AttemptMisses(s: string, pat: Pattern, n: nat, p: nat)
    requires IsSingleSep(pat) && NoLineTerminatorIn(s, 0, |s|) && 1 <= n <= |s| && p == n + SpaceRun(s, n)
    requires MatchAfter(s, pat, n, p).None?
    ensures FirstSep(s, pat, n) == if n < |s| then FirstSep(s, pat, n + 1) else None
  {
    if n + 1 < |s| && SepChar(pat, s[n]) {
      SeparatorIsNotSpace(pat, s[n]);
      assert p == n;
      TailFromExists(s, p + 1, SpaceRun(s, p + 1));
    }
  }

  lemma MatchFromMisses(s: string, pat: Pattern, n: nat, p: nat)
    requires NoLineTerminatorIn(s, 0, |s|) && 1 <= n <= |s| && p == n + SpaceRun(s, n)
    requires MatchAfter(s, pat, n, p).None?
    ensures MatchFrom(s, pat, n) == if n < |s| then MatchFrom(s, pat, n + 1) else None
  {
    assert !IsLineTerminator(s[n - 1]);
  }

  /** No separator between `n` and `p`: the search from `n` finds what the search from `p` finds. */
  lemma {:induction false} FirstSepSkips(s: string, pat: Pattern, n: nat, p: nat)
    requires n <= p <= |s| && AllSpaceIn(s, n, p) && IsSingleSep(pat)
    ensures FirstSep(s, pat, n) == FirstSep(s, pat, p)
    decreases p - n
  {
    if n < p {
      if SepChar(pat, s[n]) {
        SeparatorIsNotSpace(pat, s[n]);
      }
      FirstSepSkips(s, pat, n + 1, p);
    }
  }

  /** Group 1 and group 2 trim to the text before and after the separator. */
  lemma SepGroupsTrim(s: string, pat: Pattern, m: Groups)
    requires IsSingleSep(pat) && Shape(s, pat, m)
    ensures Trim(s[..m.first]) == Trim(s[..m.sep])
    ensures Trim(s[m.secondStart..m.secondEnd]) == Trim(s[m.sep + 1..])
  {
    assert SepLen(pat) == 1 && m.secondEnd == |s|;
    TrimAroundSep(s, m);
  }

  lemma TrimAroundSep(s: string, m: Groups)
    requires m.first <= m.sep < m.secondStart <= m.secondEnd == |s|
    requires AllSpaceIn(s, m.first, m.sep) && AllSpaceIn(s, m.sep + 1, m.secondStart)
    ensures Trim(s[..m.first]) == Trim(s[..m.sep])
    ensures Trim(s[m.secondStart..m.secondEnd]) == Trim(s[m.sep + 1..])
  {
    TrimBeforeSpaces(s, m.first, m.sep);
    TrimAfterSpaces(s, m.sep + 1, m.secondStart);
    assert s[m.secondStart..m.secondEnd] == s[m.secondStart..];
  }

  /** Whitespace between `f` and `p` does not change the trimmed text before it. */
  lemma TrimBeforeSpaces(s: string, f: nat, p: nat)
    requires f <= p <= |s| && AllSpaceIn(s, f, p)
    ensures Trim(s[..f]) == Trim(s[..p])
  {
    var w := s[f..p];
    forall k | 0 <= k < |w| ensures IsSpace(w[k]) {
      assert w[k] == s[f + k];
    }
    assert s[..p] == s[..f] + w;
    TrimSpaceSuffix(s[..f], w);
  }

  /** Whitespace between `p` and `q` does not change the trimmed text after it. */
  lemma TrimAfterSpaces(s: string, p: nat, q: nat)
    requires p <= q <= |s| && AllSpaceIn(s, p, q)
    ensures Trim(s[q..]) == Trim(s[p..])
  {
    var w := s[p..q];
    forall k | 0 <= k < |w| ensures IsSpace(w[k]) {
      assert w[k] == s[p + k];
    }
    assert s[p..] == w + s[q..];
    TrimSpacePrefix(w, s[q..]);
  }

  /**
   * On a line without line terminators, the dash, colon and pipe patterns
   * match exactly when a separator character stands somewhere other than
   * first or last, and the match splits at the first such separator.
   * (`SepGroupsTrim` gives the trimmed groups as the trimmed text on either
   * side of that separator.)
   */
  lemma MatchFirstSep(s: string, pat: Pattern)
    requires IsSingleSep(pat) && NoLineTerminatorIn(s, 0, |s|)
    ensures Match(s, pat).Some? <==> FirstSep(s, pat, 1).Some?
    ensures Match(s, pat).Some? ==> Match(s, pat).value.sep == FirstSep(s, pat, 1).value
  {
    if |s| > 0 {
      MatchFromFirstSep(s, pat, 1);
    }
  }
}
