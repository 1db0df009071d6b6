/**
 * The pure helpers of the web-search service: the result-quality filter,
 * the director filter with its fallback, the director-first ordering of
 * similar-movie results and the de-duplication by URL capped at twelve.
 */
module Search {
  import opened Wrappers
  import opened Text
  import opened Lists
  import opened Sorting

  /** A search result as the service hands it on. */
  datatype SearchResult = SearchResult(title: string, url: string, text: string, publishedDate: Option<string>)

  /** A result as the search API returns it: every field may be null or missing (both are `None`). */
  datatype RawResult = RawResult(title: Option<string>, url: Option<string>, text: Option<string>, publishedDate: Option<string>)

  datatype MovieSearchData = MovieSearchData(basicInfo: seq<SearchResult>, reviews: seq<SearchResult>, analysis: seq<SearchResult>)

  // ---------------------------------------------------------------- quality filter

  /** The `map` step of formatSearchResults: null fields become '', an empty date becomes undefined. */
  function Normalize(r: RawResult): (n: SearchResult)
    ensures n.title == r.title.GetOr("") && n.url == r.url.GetOr("") && n.text == r.text.GetOr("")
    ensures n.publishedDate.Some? <==> r.publishedDate.Some? && r.publishedDate.value != ""
    ensures n.publishedDate.Some? ==> n.publishedDate == r.publishedDate
  {
    SearchResult(r.title.GetOr(""), r.url.GetOr(""), r.text.GetOr(""),
      if r.publishedDate.Some? && r.publishedDate.value != "" then r.publishedDate else None)
  }

  function NormalizeAll(rs: seq<RawResult>): (ns: seq<SearchResult>)
    ensures |ns| == |rs| && forall i :: 0 <= i < |rs| ==> ns[i] == Normalize(rs[i])
  {
    seq(|rs|, i requires 0 <= i < |rs| => Normalize(rs[i]))
  }

  /** The keywords searched for in the lower-cased text. */
  const TextKeywords: seq<string> := ["곡", "음악", "노래", "영화", "추천", "리스트", "song", "track", "artist",
    "movie", "film", "recommendation", "감독", "연도", "개봉", "줄거리", "synopsis", "plot"]

  /** The keywords searched for in the lower-cased title. */
  const TitleKeywords: seq<string> := ["곡", "음악", "노래", "영화", "추천", "리스트", "song", "track", "artist",
    "movie", "film", "recommendation", "synopsis", "plot"]

  predicate ContainsAny(s: string, keys: seq<string>) {
    exists k :: k in keys && Contains(s, k)
  }

  predicate HasRelevantInfo(u: Unicode, r: SearchResult) {
    ContainsAny(u.lower(r.text), TextKeywords) || ContainsAny(u.lower(r.title), TitleKeywords)
  }

  /** The two filter conditions of formatSearchResults, combined. */
  predicate GoodResult(u: Unicode, r: SearchResult) {
    |r.text| > 100 && (HasRelevantInfo(u, r) || |r.text| > 300)
  }

  function LongEnough(): SearchResult -> bool {
    (r: SearchResult) => |r.text| > 100
  }

  function RelevantOrLong(u: Unicode): SearchResult -> bool {
    (r: SearchResult) => HasRelevantInfo(u, r) || |r.text| > 300
  }

  function Good(u: Unicode): SearchResult -> bool {
    (r: SearchResult) => GoodResult(u, r)
  }

  /** formatSearchResults */
  function FormatSearchResults(u: Unicode, raw: seq<RawResult>): seq<SearchResult> {
    Filter(Filter(NormalizeAll(raw), LongEnough()), RelevantOrLong(u))
  }

  /** Two filters in a row are one filter by the conjunction. */
  lemma {:induction false} FilterFilter<T>(s: seq<T>, p: T -> bool, q: T -> bool, pq: T -> bool)
    requires forall x :: pq(x) == (p(x) && q(x))
    ensures Filter(Filter(s, p), q) == Filter(s, pq)
  {
    if s != [] {
      FilterFilter(s[1..], p, q, pq);
      if p(s[0]) {
        assert ([s[0]] + Filter(s[1..], p))[1..] == Filter(s[1..], p);
      }
    }
  }

  lemma FormatIsOneFilter(u: Unicode, raw: seq<RawResult>)
    ensures FormatSearchResults(u, raw) == Filter(NormalizeAll(raw), Good(u))
  {
    FilterFilter(NormalizeAll(raw), LongEnough(), RelevantOrLong(u), Good(u));
  }

  /**
   * The quality filter keeps, in input order, exactly the normalised results
   * whose text is longer than 100 characters and that either mention a
   * relevant keyword or have more than 300 characters of text.
   */
  lemma FormatSearchResultsKeeps(u: Unicode, raw: seq<RawResult>)
    ensures IsSubsequence(FormatSearchResults(u, raw), NormalizeAll(raw))
    ensures forall r :: r in FormatSearchResults(u, raw) <==> r in NormalizeAll(raw) && GoodResult(u, r)
  {
    FormatIsOneFilter(u, raw);
    FilterIsSubsequence(NormalizeAll(raw), Good(u));
  }

  /** Every normalised result with more than 300 characters of text survives; no kept result has an empty date. */
  lemma FormatSearchResultsLongKept(u: Unicode, raw: seq<RawResult>)
    ensures forall r :: r in NormalizeAll(raw) && |r.text| > 300 ==> r in FormatSearchResults(u, raw)
    ensures forall r :: r in FormatSearchResults(u, raw) ==> |r.text| > 100 && r.publishedDate != Some("")
  {
    FormatSearchResultsKeeps(u, raw);
    forall r | r in FormatSearchResults(u, raw) ensures r.publishedDate != Some("") {
      var i :| 0 <= i < |raw| && NormalizeAll(raw)[i] == r;
    }
  }

  // ---------------------------------------------------------------- director

  /** `(r.title + ' ' + r.text).toLowerCase().includes(hint.toLowerCase())` */
  predicate MentionsDirector(u: Unicode, hint: string, r: SearchResult) {
    Contains(u.lower(r.title + " " + r.text), u.lower(hint))
  }

  function DirectorMatch(u: Unicode, hint: string): SearchResult -> bool {
    (r: SearchResult) => MentionsDirector(u, hint, r)
  }

  /** filterByDirector: the entries naming the director, or all entries when none does. */
  function FilterByDirector(u: Unicode, hint: string, arr: seq<SearchResult>): seq<SearchResult> {
    var f := Filter(arr, DirectorMatch(u, hint));
    if |f| > 0 then f else arr
  }

  /**
   * When some entry names the director the filter keeps exactly those, in
   * order; when none does the list is returned unchanged; a non-empty list
   * never becomes empty.
   */
  lemma FilterByDirectorFallback(u: Unicode, hint: string, arr: seq<SearchResult>)
    ensures (exists r :: r in arr && MentionsDirector(u, hint, r)) ==>
      IsSubsequence(FilterByDirector(u, hint, arr), arr) &&
      forall r :: r in FilterByDirector(u, hint, arr) <==> r in arr && MentionsDirector(u, hint, r)
    ensures (forall r :: r in arr ==> !MentionsDirector(u, hint, r)) ==> FilterByDirector(u, hint, arr) == arr
    ensures arr != [] ==> FilterByDirector(u, hint, arr) != []
  {
    FilterIsSubsequence(arr, DirectorMatch(u, hint));
    var f := Filter(arr, DirectorMatch(u, hint));
    if exists r :: r in arr && MentionsDirector(u, hint, r) {
      var r :| r in arr && MentionsDirector(u, hint, r);
      assert r in f;
    }
  }

  /** The `searchMovieData` result: every list formatted, then director-filtered when a hint is given. */
  function MovieSearchResults(u: Unicode, directorHint: Option<string>,
                              basic: seq<RawResult>, reviews: seq<RawResult>, analysis: seq<RawResult>): (d: MovieSearchData)
    ensures !(directorHint.Some? && directorHint.value != "") ==>
      d == MovieSearchData(FormatSearchResults(u, basic), FormatSearchResults(u, reviews), FormatSearchResults(u, analysis))
    ensures FormatSearchResults(u, basic) != [] ==> d.basicInfo != []
    ensures FormatSearchResults(u, reviews) != [] ==> d.reviews != []
    ensures FormatSearchResults(u, analysis) != [] ==> d.analysis != []
  {
    var b := FormatSearchResults(u, basic);
    var r := FormatSearchResults(u, reviews);
    var a := FormatSearchResults(u, analysis);
    if directorHint.Some? && directorHint.value != "" then
      var h := directorHint.value;
      FilterByDirectorFallback(u, h, b);
      FilterByDirectorFallback(u, h, r);
      FilterByDirectorFallback(u, h, a);
      MovieSearchData(FilterByDirector(u, h, b), FilterByDirector(u, h, r), FilterByDirector(u, h, a))
    else MovieSearchData(b, r, a)
  }

  /** The sort key of the similar-movie results: 1 for entries naming the director. */
  function DirectorKey(u: Unicode, hint: string): SearchResult -> int {
    (r: SearchResult) => if MentionsDirector(u, hint, r) then 1 else 0
  }

  /** `allResults.sort((a, b) => bi - ai)` when a hint is given: director-naming entries first, otherwise in order. */
  function Prioritize(u: Unicode, directorHint: Option<string>, all: seq<SearchResult>): (r: seq<SearchResult>)
    ensures multiset(r) == multiset(all)
  {
    if directorHint.Some? && directorHint.value != "" then SortDesc(all, DirectorKey(u, directorHint.value)) else all
  }

  /**
   * With a hint, every entry naming the director precedes every entry that
   * does not, and both groups keep their original order.
   */
  lemma PrioritizeDirectorFirst(u: Unicode, hint: string, all: seq<SearchResult>)
    requires hint != ""
    ensures var r := Prioritize(u, Some(hint), all);
      && (forall i, j :: 0 <= i < j < |r| && MentionsDirector(u, hint, r[j]) ==> MentionsDirector(u, hint, r[i]))
      && WithKey(r, DirectorKey(u, hint), 1) == WithKey(all, DirectorKey(u, hint), 1)
      && WithKey(r, DirectorKey(u, hint), 0) == WithKey(all, DirectorKey(u, hint), 0)
  {
    var key := DirectorKey(u, hint);
    var r := Prioritize(u, Some(hint), all);
    forall i, j | 0 <= i < j < |r| && MentionsDirector(u, hint, r[j]) ensures MentionsDirector(u, hint, r[i]) {
      assert key(r[i]) >= key(r[j]);
    }
    SortDescStable(all, key, 1);
    SortDescStable(all, key, 0);
  }

  // ---------------------------------------------------------------- de-duplication

  /** The first index of an entry with this URL, or |s| when there is none. */
  function FindUrl(s: seq<SearchResult>, url: string): (i: nat)
    ensures i <= |s|
    ensures i < |s| ==> s[i].url == url
    ensures forall j :: 0 <= j < i ==> s[j].url != url
  {
    if s == [] then 0 else if s[0].url == url then 0 else 1 + FindUrl(s[1..], url)
  }

  predicate HasUrl(s: seq<SearchResult>, url: string) {
    FindUrl(s, url) < |s|
  }

  /** The last entry of `s` with this URL. */
  function LastWithUrl(s: seq<SearchResult>, url: string): (r: SearchResult)
    requires HasUrl(s, url)
    ensures r in s && r.url == url
    decreases |s|
  {
    if s[|s| - 1].url == url then s[|s| - 1]
    else
      FindUrlSnoc(s[..|s| - 1], s[|s| - 1], url);
      assert s[..|s| - 1] + [s[|s| - 1]] == s;
      LastWithUrl(s[..|s| - 1], url)
  }

  lemma {:induction false} FindUrlSnoc(s: seq<SearchResult>, x: SearchResult, url: string)
    ensures FindUrl(s + [x], url) == if HasUrl(s, url) then FindUrl(s, url) else if x.url == url then |s| else |s| + 1
  {
    if s != [] && s[0].url != url {
      assert (s + [x])[1..] == s[1..] + [x];
      FindUrlSnoc(s[1..], x, url);
    } else if s == [] {
      assert [x][1..] == [];
    }
  }

  /** `map.set(r.url, r)`: overwrite the entry with the same URL in place, or append. */
  function MapSet(acc: seq<SearchResult>, r: SearchResult): seq<SearchResult> {
    var i := FindUrl(acc, r.url);
    if i < |acc| then acc[i := r] else acc + [r]
  }

  /** `Array.from(new Map(s.map(r => [r.url, r])).values())` */
  function DedupByUrl(s: seq<SearchResult>): seq<SearchResult>
    decreases |s|
  {
    if s == [] then [] else MapSet(DedupByUrl(s[..|s| - 1]), s[|s| - 1])
  }

  predicate DistinctUrls(s: seq<SearchResult>) {
    forall i, j :: 0 <= i < j < |s| ==> s[i].url != s[j].url
  }

  /** What the de-duplication guarantees about its result `d` for input `s`. */
  /** The URLs present in `d` are those present in `s`. */
  ghost predicate SameUrls(s: seq<SearchResult>, d: seq<SearchResult>) {
    forall url :: HasUrl(d, url) <==> HasUrl(s, url)
  }

  /** Each entry of `d` is the last entry of `s` with its URL. */
  ghost predicate LastValues(s: seq<SearchResult>, d: seq<SearchResult>) {
    forall i :: 0 <= i < |d| ==> HasUrl(s, d[i].url) && d[i] == LastWithUrl(s, d[i].url)
  }

  /** The entries of `d` are in the order of their URL's first occurrence in `s`. */
  ghost predicate FirstOrder(s: seq<SearchResult>, d: seq<SearchResult>) {
    forall i, j :: 0 <= i < j < |d| ==> FindUrl(s, d[i].url) < FindUrl(s, d[j].url)
  }

  /** What the de-duplication guarantees about its result `d` for input `s`. */
  ghost predicate DedupInvariant(s: seq<SearchResult>, d: seq<SearchResult>) {
    DistinctUrls(d) && SameUrls(s, d) && LastValues(s, d) && FirstOrder(s, d)
  }

  lemma HasUrlIn(d: seq<SearchResult>, i: nat)
    requires i < |d|
    ensures HasUrl(d, d[i].url)
  {
  }

  lemma HasUrlSnoc(s: seq<SearchResult>, x: SearchResult)
    ensures forall url :: HasUrl(s + [x], url) <==> HasUrl(s, url) || x.url == url
    ensures forall url :: HasUrl(s, url) ==> FindUrl(s + [x], url) == FindUrl(s, url)
    ensures !HasUrl(s, x.url) ==> FindUrl(s + [x], x.url) == |s|
  {
    forall url ensures FindUrl(s + [x], url) == if HasUrl(s, url) then FindUrl(s, url) else if x.url == url then |s| else |s| + 1 {
      FindUrlSnoc(s, x, url);
    }
  }

  lemma LastWithUrlSnoc(s: seq<SearchResult>, x: SearchResult, url: string)
    requires HasUrl(s + [x], url)
    ensures x.url != url ==> HasUrl(s, url) && LastWithUrl(s + [x], url) == LastWithUrl(s, url)
    ensures x.url == url ==> LastWithUrl(s + [x], url) == x
  {
    HasUrlSnoc(s, x);
    assert (s + [x])[..|s|] == s;
  }

  /** Two lists with the same URL at every position find every URL at the same index. */
  lemma {:induction false} FindUrlSameUrls(a: seq<SearchResult>, b: seq<SearchResult>, url: string)
    requires |a| == |b| && forall i :: 0 <= i < |a| ==> a[i].url == b[i].url
    ensures FindUrl(a, url) == FindUrl(b, url)
  {
    if a != [] {
      FindUrlSameUrls(a[1..], b[1..], url);
    }
  }

  /** `map.set` of a URL already present replaces its entry where it stands. */
  lemma DedupStepUpdate(init: seq<SearchResult>, d: seq<SearchResult>, x: SearchResult)
    requires DedupInvariant(init, d)
    requires HasUrl(d, x.url)
    ensures DedupInvariant(init + [x], MapSet(d, x))
  {
    var k := FindUrl(d, x.url);
    var d' := d[k := x];
    assert MapSet(d, x) == d';
    assert forall i :: 0 <= i < |d| ==> d'[i].url == d[i].url;
    UpdateSameUrls(init, d, x, k);
    UpdateLastValues(init, d, x, k);
    UpdateFirstOrder(init, d, x, k);
  }

  lemma UpdateSameUrls(init: seq<SearchResult>, d: seq<SearchResult>, x: SearchResult, k: nat)
    requires SameUrls(init, d)
    requires k < |d| && d[k].url == x.url
    ensures SameUrls(init + [x], d[k := x])
  {
    HasUrlSnoc(init, x);
    HasUrlIn(d, k);
    forall url ensures HasUrl(d[k := x], url) <==> HasUrl(d, url) {
      FindUrlSameUrls(d[k := x], d, url);
    }
  }

  lemma UpdateLastValues(init: seq<SearchResult>, d: seq<SearchResult>, x: SearchResult, k: nat)
    requires LastValues(init, d) && DistinctUrls(d)
    requires k < |d| && d[k].url == x.url
    ensures LastValues(init + [x], d[k := x])
  {
    var d' := d[k := x];
    forall i | 0 <= i < |d'| ensures HasUrl(init + [x], d'[i].url) && d'[i] == LastWithUrl(init + [x], d'[i].url) {
      HasUrlSnoc(init, x);
      LastWithUrlSnoc(init, x, d'[i].url);
    }
  }

  lemma UpdateFirstOrder(init: seq<SearchResult>, d: seq<SearchResult>, x: SearchResult, k: nat)
    requires FirstOrder(init, d) && LastValues(init, d)
    requires k < |d| && d[k].url == x.url
    ensures FirstOrder(init + [x], d[k := x])
  {
    var d' := d[k := x];
    HasUrlSnoc(init, x);
    assert forall i :: 0 <= i < |d'| ==> d'[i].url == d[i].url && HasUrl(init, d[i].url);
  }

  /** `map.set` of a new URL appends its entry. */
  lemma DedupStepAppend(init: seq<SearchResult>, d: seq<SearchResult>, x: SearchResult)
    requires DedupInvariant(init, d)
    requires !HasUrl(d, x.url)
    ensures DedupInvariant(init + [x], MapSet(d, x))
  {
    assert MapSet(d, x) == d + [x];
    forall i | 0 <= i < |d| ensures d[i].url != x.url {
      HasUrlIn(d, i);
    }
    AppendSameUrls(init, d, x);
    AppendLastValues(init, d, x);
    AppendFirstOrder(init, d, x);
  }

  lemma AppendSameUrls(init: seq<SearchResult>, d: seq<SearchResult>, x: SearchResult)
    requires SameUrls(init, d)
    ensures SameUrls(init + [x], d + [x])
  {
    HasUrlSnoc(init, x);
    HasUrlSnoc(d, x);
  }

  lemma AppendLastValues(init: seq<SearchResult>, d: seq<SearchResult>, x: SearchResult)
    requires LastValues(init, d)
    requires forall i :: 0 <= i < |d| ==> d[i].url != x.url
    ensures LastValues(init + [x], d + [x])
  {
    var d' := d + [x];
    forall i | 0 <= i < |d'| ensures HasUrl(init + [x], d'[i].url) && d'[i] == LastWithUrl(init + [x], d'[i].url) {
      HasUrlSnoc(init, x);
      LastWithUrlSnoc(init, x, d'[i].url);
    }
  }

  lemma AppendFirstOrder(init: seq<SearchResult>, d: seq<SearchResult>, x: SearchResult)
    requires FirstOrder(init, d) && LastValues(init, d) && SameUrls(init, d)
    requires !HasUrl(d, x.url)
    ensures FirstOrder(init + [x], d + [x])
  {
    var d' := d + [x];
    HasUrlSnoc(init, x);
    assert !HasUrl(init, x.url);
    forall i, j | 0 <= i < j < |d'| ensures FindUrl(init + [x], d'[i].url) < FindUrl(init + [x], d'[j].url) {
      assert d'[i] == d[i];
      if j < |d| {
        assert d'[j] == d[j];
      }
    }
  }

  /**
   * The de-duplicated list has pairwise distinct URLs, the same URLs as the
   * input, each with the value of the last input entry carrying it, placed
   * in the order of each URL's first occurrence.
   */
  lemma {:induction false} DedupByUrlCorrect(s: seq<SearchResult>)
    ensures DedupInvariant(s, DedupByUrl(s))
    decreases |s|
  {
    if s != [] {
      var init := s[..|s| - 1];
      var x := s[|s| - 1];
      assert s == init + [x];
      DedupByUrlCorrect(init);
      var d := DedupByUrl(init);
      if HasUrl(d, x.url) {
        DedupStepUpdate(init, d, x);
      } else {
        DedupStepAppend(init, d, x);
      }
    }
  }

  /** The tail of searchSimilarMusic: de-duplicate by URL, keep the first twelve. */
  function UniqueResults(all: seq<SearchResult>): (r: seq<SearchResult>)
    ensures |r| <= 12
  {
    Take(DedupByUrl(all), 12)
  }

  /** The tail of searchSimilarMovies: director-naming entries first, then de-duplicate and cap. */
  function UniqueMovieResults(u: Unicode, directorHint: Option<string>, all: seq<SearchResult>): (r: seq<SearchResult>)
    ensures |r| <= 12
  {
    UniqueResults(Prioritize(u, directorHint, all))
  }

  /**
   * The capped result has at most twelve entries with distinct URLs, each
   * the last input entry with its URL, in the order of first occurrence; if
   * the input has at most twelve distinct URLs, every one of them is kept.
   */
  lemma UniqueResultsCorrect(all: seq<SearchResult>)
    ensures var r := UniqueResults(all);
      && |r| <= 12
      && DistinctUrls(r)
      && (forall i :: 0 <= i < |r| ==> HasUrl(all, r[i].url) && r[i] == LastWithUrl(all, r[i].url))
      && (forall i, j :: 0 <= i < j < |r| ==> FindUrl(all, r[i].url) < FindUrl(all, r[j].url))
      && (|DedupByUrl(all)| <= 12 ==> forall url :: HasUrl(r, url) <==> HasUrl(all, url))
  {
    DedupByUrlCorrect(all);
  }
}
