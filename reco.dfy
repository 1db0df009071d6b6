/**
 * The pool similarity ranker: catalogue entries are scored by the overlap of
 * their normalised genre and keyword tokens with the analysed preferences
 * (two points per shared genre token, three per shared keyword token), the
 * excluded title is filtered out, and the two best entries are returned,
 * ties keeping pool order.
 */
module Reco {
  import opened Wrappers
  import opened Text
  import opened Lists
  import opened Sorting
  import opened RecoTypes

  // ---------------------------------------------------------------- tokens

  /** The characters normalizeToken keeps: letters and digits. */
  function NonWord(u: Unicode): char -> bool {
    c => !u.isLetterOrDigit(c)
  }

  /** Lower-case, NFKC, and every run of characters that are not letters or digits replaced by one space. */
  function WordRuns(u: Unicode, token: string): (r: string)
    ensures forall x :: x in r ==> x == ' ' || u.isLetterOrDigit(x)
    ensures SpaceIsNotWord(u) ==> NoDoubleSpace(r)
  {
    var r := CollapseRuns(u.nfkc(u.lower(token)), NonWord(u));
    assert forall x :: x in r ==> x == ' ' || u.isLetterOrDigit(x);
    r
  }

  /** normalizeToken: the word runs, trimmed. */
  function NormalizeToken(u: Unicode, token: string): (r: string)
    ensures r == [] || (!IsSpace(r[0]) && !IsSpace(r[|r| - 1]))
    ensures forall i :: 0 <= i < |r| ==> r[i] == ' ' || u.isLetterOrDigit(r[i])
    ensures SpaceIsNotWord(u) ==> NoDoubleSpace(r)
  {
    var c := WordRuns(u, token);
    TrimSlice(c);
    Trim(c)
  }

  /** normalizeToken as a function value, the form the ranker is written against. */
  function Normalizer(u: Unicode): string -> string {
    t => NormalizeToken(u, t)
  }

  /** A JavaScript string is truthy when it is not empty. */
  predicate Truthy(s: Option<string>) {
    s.Some? && s.value != ""
  }

  /** The non-empty normalised tokens of a list. */
  function Tokens(norm: string -> string, l: seq<string>): (r: set<string>)
    ensures "" !in r
    decreases |l|
  {
    if l == [] then {}
    else
      var n := norm(l[|l| - 1]);
      Tokens(norm, l[..|l| - 1]) + (if n != "" then {n} else {})
  }

  /** The set tokenize(list) returns; empty for `undefined`. */
  function TokenSet(norm: string -> string, list: Option<seq<string>>): set<string> {
    match list
    case None => {}
    case Some(l) => Tokens(norm, l)
  }

  /** A token set holds exactly the non-empty normalisations of the list's strings. */
  lemma {:induction false} TokensMembers(norm: string -> string, l: seq<string>)
    ensures forall x :: x in Tokens(norm, l) <==> x != "" && exists t :: t in l && norm(t) == x
    decreases |l|
  {
    if l != [] {
      var init := l[..|l| - 1];
      TokensMembers(norm, init);
      assert l == init + [l[|l| - 1]];
      assert forall t :: t in l <==> t in init || t == l[|l| - 1];
    }
  }

  /** tokenize */
  method Tokenize(norm: string -> string, list: Option<seq<string>>) returns (s: set<string>)
    ensures s == TokenSet(norm, list)
    ensures "" !in s
  {
    s := {};
    if list.None? {
      return;
    }
    var l := list.value;
    for i := 0 to |l|
      invariant s == Tokens(norm, l[..i])
      invariant "" !in s
    {
      var n := norm(l[i]);
      if n != "" {
        s := s + {n};
      }
      assert l[..i + 1][..i] == l[..i];
    }
    assert l[..|l|] == l;
  }

  lemma TokenSetAppend(norm: string -> string, l: seq<string>, t: string)
    requires norm(t) != ""
    ensures TokenSet(norm, Some(l + [t])) == TokenSet(norm, Some(l)) + {norm(t)}
  {
    assert (l + [t])[..|l|] == l;
  }

  // ---------------------------------------------------------------- overlap

  /** overlapScore: the number of elements of `a` that `b` also has. */
  method OverlapScore(a: set<string>, b: set<string>) returns (score: nat)
    ensures score == |a * b|
    ensures |a| == 0 || |b| == 0 ==> score == 0
  {
    if |a| == 0 || |b| == 0 {
      return 0;
    }
    score := 0;
    var rest := a;
    ghost var seen: set<string> := {};
    while rest != {}
      invariant rest + seen == a && rest !! seen
      invariant score == |seen * b|
      decreases |rest|
    {
      var x :| x in rest;
      assert (seen + {x}) * b == if x in b then seen * b + {x} else seen * b;
      if x in b {
        score := score + 1;
      }
      rest := rest - {x};
      seen := seen + {x};
    }
  }

  /** The overlap is symmetric and bounded by both sizes. */
  lemma OverlapSymmetricAndBounded(a: set<string>, b: set<string>)
    ensures |a * b| == |b * a|
    ensures |a * b| <= |a| && |a * b| <= |b|
  {
    assert a * b == b * a;
    SubsetCardinality(a * b, a);
    SubsetCardinality(a * b, b);
  }

  lemma {:induction false} SubsetCardinality(x: set<string>, y: set<string>)
    requires x <= y
    ensures |x| <= |y|
    decreases |y|
  {
    if x != {} {
      var e :| e in x;
      SubsetCardinality(x - {e}, y - {e});
    }
  }

  /** Adding one new element to `a` that `b` has raises the overlap by one. */
  lemma OverlapAddShared(a: set<string>, b: set<string>, n: string)
    requires n in b && n !in a
    ensures |(a + {n}) * b| == |a * b| + 1
  {
    assert (a + {n}) * b == a * b + {n};
  }

  // ---------------------------------------------------------------- ranking

  datatype Scored<T> = Scored(item: T, score: int)

  function ScoreOf<T>(s: Scored<T>): int {
    s.score
  }

  /** `items.map(item => ({ item, score: f(item) }))` */
  function ScoreAll<T>(items: seq<T>, f: T -> int): (r: seq<Scored<T>>)
    ensures |r| == |items|
    ensures forall i :: 0 <= i < |r| ==> r[i] == Scored(items[i], f(items[i]))
  {
    seq(|items|, i requires 0 <= i < |items| => Scored(items[i], f(items[i])))
  }

  lemma ScoreAllSnoc<T>(items: seq<T>, i: nat, f: T -> int)
    requires i < |items|
    ensures ScoreAll(items[..i + 1], f) == ScoreAll(items[..i], f) + [Scored(items[i], f(items[i]))]
  {
  }

  function Items<T>(s: seq<Scored<T>>): (r: seq<T>)
    ensures |r| == |s| && forall i :: 0 <= i < |s| ==> r[i] == s[i].item
  {
    seq(|s|, i requires 0 <= i < |s| => s[i].item)
  }

  /** `scored.sort((a, b) => b.score - a.score)` */
  function Ranked<T>(items: seq<T>, f: T -> int): seq<Scored<T>> {
    SortDesc(ScoreAll(items, f), ScoreOf)
  }

  /** `.slice(0, 2).map(x => x.item)` of the ranking */
  function TopTwo<T>(items: seq<T>, f: T -> int): seq<T> {
    Items(Take(Ranked(items, f), 2))
  }

  /**
   * The ranking holds every item with its own score, and nothing else; the
   * top-two selection returns min(2, n) items, the first entries of the
   * ranking, each scoring at least as much as every entry after them.
   */
  lemma TopTwoProperties<T>(items: seq<T>, f: T -> int)
    ensures var ranked := Ranked(items, f); var r := TopTwo(items, f);
      && |ranked| == |items|
      && (forall i :: 0 <= i < |ranked| ==> ranked[i].item in items && ranked[i].score == f(ranked[i].item))
      && (forall x :: x in items ==> x in Items(ranked))
      && |r| == (if |items| < 2 then |items| else 2)
      && (forall i :: 0 <= i < |r| ==> r[i] == ranked[i].item)
      && (forall i, j :: 0 <= i < |r| <= j < |ranked| ==> f(r[i]) >= ranked[j].score)
  {
    RankedEntries(items, f);
    RankedHoldsAll(items, f);
    var ranked := Ranked(items, f);
    var r := TopTwo(items, f);
    forall i, j | 0 <= i < |r| <= j < |ranked| ensures f(r[i]) >= ranked[j].score {
      assert ScoreOf(ranked[i]) >= ScoreOf(ranked[j]);
    }
  }

  /** Every entry of the ranking is an item paired with its own score. */
  lemma RankedEntries<T>(items: seq<T>, f: T -> int)
    ensures var ranked := Ranked(items, f);
      forall i :: 0 <= i < |ranked| ==> ranked[i].item in items && ranked[i].score == f(ranked[i].item)
  {
    var scored := ScoreAll(items, f);
    var ranked := Ranked(items, f);
    forall i | 0 <= i < |ranked| ensures ranked[i].item in items && ranked[i].score == f(ranked[i].item) {
      assert ranked[i] in multiset(scored);
      var k :| 0 <= k < |scored| && scored[k] == ranked[i];
    }
  }

  /** No item is lost by the ranking. */
  lemma RankedHoldsAll<T>(items: seq<T>, f: T -> int)
    ensures forall x :: x in items ==> x in Items(Ranked(items, f))
  {
    var scored := ScoreAll(items, f);
    var ranked := Ranked(items, f);
    forall x | x in items ensures x in Items(ranked) {
      var k :| 0 <= k < |items| && items[k] == x;
      assert scored[k] in multiset(ranked);
      var j :| 0 <= j < |ranked| && ranked[j] == scored[k];
      assert Items(ranked)[j] == x;
    }
  }

  /**
   * Ties keep list order: the entries of score v among the first two of the
   * ranking are the first entries of score v in the scored list.
   */
  lemma TopTwoStable<T>(items: seq<T>, f: T -> int, v: int)
    ensures var ties := WithKey(Take(Ranked(items, f), 2), ScoreOf, v);
      var all := WithKey(ScoreAll(items, f), ScoreOf, v);
      |ties| <= |all| && ties == all[..|ties|]
  {
    TopOfSortDesc(ScoreAll(items, f), ScoreOf, |Take(Ranked(items, f), 2)|, v);
  }

  /** No two entries share an identifier. */
  predicate DistinctIds<T>(s: seq<T>, id: T -> string) {
    forall i, j :: 0 <= i < j < |s| ==> id(s[i]) != id(s[j])
  }

  lemma {:induction false} FilterKeepsDistinctIds<T>(s: seq<T>, p: T -> bool, id: T -> string)
    requires DistinctIds(s, id)
    ensures DistinctIds(Filter(s, p), id)
  {
    if s != [] {
      var rest := Filter(s[1..], p);
      FilterKeepsDistinctIds(s[1..], p, id);
      if p(s[0]) {
        var r := [s[0]] + rest;
        forall i, j | 0 <= i < j < |r| ensures id(r[i]) != id(r[j]) {
          if i == 0 {
            assert r[j] in multiset(s[1..]);
            var k :| 0 <= k < |s[1..]| && s[1..][k] == r[j];
            assert s[k + 1] == r[j];
          } else {
            assert r[i] == rest[i - 1] && r[j] == rest[j - 1];
          }
        }
      }
    }
  }

  lemma {:induction false} DistinctIdsCount<T>(s: seq<T>, id: T -> string, x: T)
    requires DistinctIds(s, id)
    ensures multiset(s)[x] <= 1
  {
    if s != [] {
      assert s == [s[0]] + s[1..];
      DistinctIdsCount(s[1..], id, x);
      if s[0] == x {
        assert forall k :: 1 <= k < |s| ==> s[k] != x;
        assert x !in s[1..];
      }
    }
  }

  /** Two different members of a list without repeated identifiers have different identifiers. */
  lemma DistinctMembersDistinctIds<T>(s: seq<T>, id: T -> string, a: T, b: T)
    requires DistinctIds(s, id) && a in s && b in s && a != b
    ensures id(a) != id(b)
  {
    var ka :| 0 <= ka < |s| && s[ka] == a;
    var kb :| 0 <= kb < |s| && s[kb] == b;
    assert ka != kb;
  }

  /** The ranking of a list without repeated identifiers does not have its first entry twice. */
  lemma RankedHeadOnce<T>(items: seq<T>, f: T -> int, id: T -> string)
    requires DistinctIds(items, id) && |items| >= 2
    ensures Ranked(items, f)[0] != Ranked(items, f)[1]
  {
    var ranked := Ranked(items, f);
    var scored := ScoreAll(items, f);
    var sid := (e: Scored<T>) => id(e.item);
    assert DistinctIds(scored, sid);
    DistinctIdsCount(scored, sid, ranked[0]);
    assert multiset(ranked) == multiset(scored);
    assert ranked == [ranked[0], ranked[1]] + ranked[2..];
  }

  /** The top-two selection from a list without repeated identifiers repeats none either. */
  lemma TopTwoDistinctIds<T>(items: seq<T>, f: T -> int, id: T -> string)
    requires DistinctIds(items, id)
    ensures DistinctIds(TopTwo(items, f), id)
  {
    var r := TopTwo(items, f);
    TopTwoProperties(items, f);
    if |r| == 2 {
      RankedHeadOnce(items, f, id);
      DistinctMembersDistinctIds(items, id, r[0], r[1]);
    }
  }

  // ---------------------------------------------------------------- movies

  datatype MovieOptions = MovieOptions(
    preferredGenres: Option<seq<string>>,
    analyzedMovieGenres: Option<seq<string>>,
    analyzedMovieKeywords: Option<seq<string>>,
    excludeTitle: Option<string>)

  /** excludeTitleNorm: the normalised excluded title, or '' when none is given. */
  function ExcludeNorm(norm: string -> string, exclude: Option<string>): string {
    if Truthy(exclude) then norm(exclude.value) else ""
  }

  /** The filter predicate of pickSimilarMoviesFromPool. */
  function KeepMovie(norm: string -> string, excludeNorm: string): MovieItem -> bool {
    (m: MovieItem) => excludeNorm == "" || norm(m.title) != excludeNorm
  }

  function MovieCandidates(norm: string -> string, pool: seq<MovieItem>, opts: MovieOptions): seq<MovieItem> {
    Filter(pool, KeepMovie(norm, ExcludeNorm(norm, opts.excludeTitle)))
  }

  /** A movie's score: 2 per genre token shared with each genre list, 3 per shared keyword token. */
  function MovieScore(norm: string -> string, m: MovieItem, opts: MovieOptions): int {
    var g := TokenSet(norm, Some(m.genres));
    var k := TokenSet(norm, Some(m.keywords));
    (|g * TokenSet(norm, opts.preferredGenres)| + |g * TokenSet(norm, opts.analyzedMovieGenres)|) * 2
      + |k * TokenSet(norm, opts.analyzedMovieKeywords)| * 3
  }

  function MovieScorer(norm: string -> string, opts: MovieOptions): MovieItem -> int {
    m => MovieScore(norm, m, opts)
  }

  /** The scoring callback of pickSimilarMoviesFromPool, given the option token sets. */
  method ScoreMovieEntry(norm: string -> string, m: MovieItem, opts: MovieOptions,
                         prefGenres: set<string>, movieGenres: set<string>, movieKeywords: set<string>)
    returns (score: int)
    requires prefGenres == TokenSet(norm, opts.preferredGenres)
    requires movieGenres == TokenSet(norm, opts.analyzedMovieGenres)
    requires movieKeywords == TokenSet(norm, opts.analyzedMovieKeywords)
    ensures score == MovieScore(norm, m, opts)
  {
    var g := Tokenize(norm, Some(m.genres));
    var k := Tokenize(norm, Some(m.keywords));
    var o1 := OverlapScore(g, prefGenres);
    var o2 := OverlapScore(g, movieGenres);
    var genreOverlap := o1 + o2;
    var keywordOverlap := OverlapScore(k, movieKeywords);
    score := genreOverlap * 2 + keywordOverlap * 3;
  }

  /** What pickSimilarMoviesFromPool returns. */
  function SimilarMovies(norm: string -> string, pool: seq<MovieItem>, opts: MovieOptions): seq<MovieItem> {
    TopTwo(MovieCandidates(norm, pool, opts), MovieScorer(norm, opts))
  }

  /** pickSimilarMoviesFromPool */
  method PickSimilarMoviesFromPool(u: Unicode, pool: seq<MovieItem>, opts: MovieOptions)
    returns (r: seq<MovieItem>)
    ensures r == SimilarMovies(Normalizer(u), pool, opts)
  {
    var norm := Normalizer(u);
    var excludeNorm := ExcludeNorm(norm, opts.excludeTitle);
    var prefGenres := Tokenize(norm, opts.preferredGenres);
    var movieGenres := Tokenize(norm, opts.analyzedMovieGenres);
    var movieKeywords := Tokenize(norm, opts.analyzedMovieKeywords);
    var filtered := Filter(pool, KeepMovie(norm, excludeNorm));
    var scored: seq<Scored<MovieItem>> := [];
    for i := 0 to |filtered|
      invariant scored == ScoreAll(filtered[..i], MovieScorer(norm, opts))
    {
      var score := ScoreMovieEntry(norm, filtered[i], opts, prefGenres, movieGenres, movieKeywords);
      ScoreAllSnoc(filtered, i, MovieScorer(norm, opts));
      scored := scored + [Scored(filtered[i], score)];
    }
    assert filtered[..|filtered|] == filtered;
    r := Items(Take(SortDesc(scored, ScoreOf), 2));
  }

  /** The movie picker returns min(2, #kept) movies, all kept ones from the pool. */
  lemma SimilarMoviesFromKept(norm: string -> string, pool: seq<MovieItem>, opts: MovieOptions)
    ensures var kept := MovieCandidates(norm, pool, opts); var r := SimilarMovies(norm, pool, opts);
      && |r| == (if |kept| < 2 then |kept| else 2)
      && (forall m :: m in r ==> m in kept && m in pool)
  {
    var kept := MovieCandidates(norm, pool, opts);
    TopTwoProperties(kept, MovieScorer(norm, opts));
    FilterIsSubsequence(pool, KeepMovie(norm, ExcludeNorm(norm, opts.excludeTitle)));
    var r := SimilarMovies(norm, pool, opts);
    forall m | m in r ensures m in kept {
      var i :| 0 <= i < |r| && r[i] == m;
    }
  }

  /**
   * The movies returned are the first entries of the ranking of every kept
   * movie, each scoring at least as much as every movie ranked after them.
   */
  lemma SimilarMoviesBest(norm: string -> string, pool: seq<MovieItem>, opts: MovieOptions)
    ensures var kept := MovieCandidates(norm, pool, opts);
      var ranked := Ranked(kept, MovieScorer(norm, opts));
      var r := SimilarMovies(norm, pool, opts);
      && (forall m :: m in kept ==> m in Items(ranked))
      && (forall i :: 0 <= i < |r| ==> r[i] == ranked[i].item)
      && (forall i, j :: 0 <= i < |r| <= j < |ranked| ==> MovieScore(norm, r[i], opts) >= MovieScore(norm, ranked[j].item, opts))
  {
    var f := MovieScorer(norm, opts);
    TopTwoBest(MovieCandidates(norm, pool, opts), f);
  }

  lemma SimilarMoviesDistinctIds(norm: string -> string, pool: seq<MovieItem>, opts: MovieOptions)
    requires DistinctIds(pool, (m: MovieItem) => m.id)
    ensures DistinctIds(SimilarMovies(norm, pool, opts), (m: MovieItem) => m.id)
  {
    var id := (m: MovieItem) => m.id;
    FilterKeepsDistinctIds(pool, KeepMovie(norm, ExcludeNorm(norm, opts.excludeTitle)), id);
    TopTwoDistinctIds(MovieCandidates(norm, pool, opts), MovieScorer(norm, opts), id);
  }

  /** From a well-formed pool the picker returns well-formed entries with distinct ids. */
  lemma SimilarMoviesWellFormed(norm: string -> string, pool: seq<MovieItem>, opts: MovieOptions)
    requires MoviePoolWellFormed(pool)
    ensures MoviePoolWellFormed(SimilarMovies(norm, pool, opts))
  {
    assert DistinctIds(pool, (m: MovieItem) => m.id);
    SimilarMoviesDistinctIds(norm, pool, opts);
    SimilarMoviesFromKept(norm, pool, opts);
  }


  /** Ties in score keep pool order: the movies returned with score v are the first kept movies with score v. */
  lemma SimilarMoviesStable(norm: string -> string, pool: seq<MovieItem>, opts: MovieOptions, v: int)
    ensures var kept := MovieCandidates(norm, pool, opts);
      var ties := WithKey(Take(Ranked(kept, MovieScorer(norm, opts)), 2), ScoreOf, v);
      var all := WithKey(ScoreAll(kept, MovieScorer(norm, opts)), ScoreOf, v);
      |ties| <= |all| && ties == all[..|ties|]
  {
    TopTwoStable(MovieCandidates(norm, pool, opts), MovieScorer(norm, opts), v);
  }

  /** The movie whose normalised title equals the normalised excluded title is never returned. */
  lemma SimilarMoviesExcludesTitle(norm: string -> string, pool: seq<MovieItem>, opts: MovieOptions)
    requires ExcludeNorm(norm, opts.excludeTitle) != ""
    ensures forall m :: m in SimilarMovies(norm, pool, opts) ==>
      norm(m.title) != norm(opts.excludeTitle.value)
  {
    SimilarMoviesFromKept(norm, pool, opts);
    FilterIsSubsequence(pool, KeepMovie(norm, ExcludeNorm(norm, opts.excludeTitle)));
  }

  /** Without an excluded title nothing is filtered. */
  lemma MovieCandidatesWithoutExclusion(norm: string -> string, pool: seq<MovieItem>, opts: MovieOptions)
    requires !Truthy(opts.excludeTitle)
    ensures MovieCandidates(norm, pool, opts) == pool
  {
    FilterAll(pool, KeepMovie(norm, ""));
  }

  /**
   * Adding a keyword whose normalised form is one of the analysed keywords,
   * and not yet among the movie's own keyword tokens, raises its score by exactly 3.
   */
  lemma MovieKeywordRaisesScore(norm: string -> string, m: MovieItem, opts: MovieOptions, kw: string)
    requires norm(kw) in TokenSet(norm, opts.analyzedMovieKeywords)
    requires norm(kw) !in TokenSet(norm, Some(m.keywords))
    ensures MovieScore(norm, m.(keywords := m.keywords + [kw]), opts) == MovieScore(norm, m, opts) + 3
  {
    TokenSetAppend(norm, m.keywords, kw);
    OverlapAddShared(TokenSet(norm, Some(m.keywords)), TokenSet(norm, opts.analyzedMovieKeywords), norm(kw));
  }

  /** A genre token in both the preferred and the analysed genre lists counts twice: adding it raises the score by 4. */
  lemma MovieGenreCountedTwice(norm: string -> string, m: MovieItem, opts: MovieOptions, genre: string)
    requires norm(genre) in TokenSet(norm, opts.preferredGenres)
    requires norm(genre) in TokenSet(norm, opts.analyzedMovieGenres)
    requires norm(genre) !in TokenSet(norm, Some(m.genres))
    ensures MovieScore(norm, m.(genres := m.genres + [genre]), opts) == MovieScore(norm, m, opts) + 4
  {
    TokenSetAppend(norm, m.genres, genre);
    var g := TokenSet(norm, Some(m.genres));
    var n := norm(genre);
    OverlapAddShared(g, TokenSet(norm, opts.preferredGenres), n);
    OverlapAddShared(g, TokenSet(norm, opts.analyzedMovieGenres), n);
  }

  /** When exactly one kept movie scores above zero, it is the first one returned. */
  lemma SoleMatchRanksFirst(norm: string -> string, pool: seq<MovieItem>, opts: MovieOptions, best: MovieItem)
    requires best in MovieCandidates(norm, pool, opts) && MovieScore(norm, best, opts) > 0
    requires forall m :: m in MovieCandidates(norm, pool, opts) && m != best ==> MovieScore(norm, m, opts) <= 0
    ensures SimilarMovies(norm, pool, opts) != [] && SimilarMovies(norm, pool, opts)[0] == best
  {
    var kept := MovieCandidates(norm, pool, opts);
    var f := MovieScorer(norm, opts);
    forall m | m in kept && m != best ensures f(m) <= 0 {
    }
    SoleScorerFirst(kept, f, best);
  }

  /** The top two are the head of a ranking of every item, and outscore the rest of it. */
  lemma TopTwoBest<T>(items: seq<T>, f: T -> int)
    ensures var ranked := Ranked(items, f); var r := TopTwo(items, f);
      && (forall x :: x in items ==> x in Items(ranked))
      && (forall i :: 0 <= i < |r| ==> r[i] == ranked[i].item)
      && (forall i, j :: 0 <= i < |r| <= j < |ranked| ==> f(r[i]) >= f(ranked[j].item))
  {
    TopTwoProperties(items, f);
  }

  /** The only item scoring above zero heads the top two. */
  lemma SoleScorerFirst<T>(items: seq<T>, f: T -> int, best: T)
    requires best in items && f(best) > 0
    requires forall x :: x in items && x != best ==> f(x) <= 0
    ensures TopTwo(items, f) != [] && TopTwo(items, f)[0] == best
  {
    var ranked := Ranked(items, f);
    TopTwoProperties(items, f);
    var j :| 0 <= j < |ranked| && ranked[j].item == best;
    // The head scores at least as much as `best`, so above zero, so it is `best`.
    assert ranked[0].score >= ranked[j].score;
  }

  // ---------------------------------------------------------------- music

  datatype MusicOptions = MusicOptions(
    analyzedMusicGenre: Option<string>,
    analyzedMusicKeywords: Option<seq<string>>,
    excludeTitle: Option<string>,
    excludeArtist: Option<string>)

  /** The filter predicate of pickSimilarMusicFromPool. */
  function KeepTrack(norm: string -> string, titleNorm: string, artistNorm: string): MusicItem -> bool {
    (t: MusicItem) =>
      if titleNorm == "" && artistNorm == "" then true
      else
        var titleEq := norm(t.title) == titleNorm;
        var artistEq := if artistNorm != "" then norm(t.artist) == artistNorm else false;
        if artistNorm != "" then !(titleEq && artistEq) else !titleEq
  }

  function MusicCandidates(norm: string -> string, pool: seq<MusicItem>, opts: MusicOptions): seq<MusicItem> {
    Filter(pool, KeepTrack(norm, ExcludeNorm(norm, opts.excludeTitle), ExcludeNorm(norm, opts.excludeArtist)))
  }

  /** `tokenize(analyzedMusicGenre ? [analyzedMusicGenre] : [])` */
  function MusicGenreTokens(norm: string -> string, opts: MusicOptions): set<string> {
    TokenSet(norm, Some(if Truthy(opts.analyzedMusicGenre) then [opts.analyzedMusicGenre.value] else []))
  }

  /** A track's score: 2 per genre token shared with the analysed genre, 3 per shared keyword token. */
  function MusicScore(norm: string -> string, t: MusicItem, opts: MusicOptions): int {
    |TokenSet(norm, Some(t.genres)) * MusicGenreTokens(norm, opts)| * 2
      + |TokenSet(norm, Some(t.keywords)) * TokenSet(norm, opts.analyzedMusicKeywords)| * 3
  }

  function MusicScorer(norm: string -> string, opts: MusicOptions): MusicItem -> int {
    t => MusicScore(norm, t, opts)
  }

  /** The scoring callback of pickSimilarMusicFromPool, given the option token sets. */
  method ScoreTrackEntry(norm: string -> string, t: MusicItem, opts: MusicOptions, genreSet: set<string>, kwSet: set<string>)
    returns (score: int)
    requires genreSet == MusicGenreTokens(norm, opts)
    requires kwSet == TokenSet(norm, opts.analyzedMusicKeywords)
    ensures score == MusicScore(norm, t, opts)
  {
    var g := Tokenize(norm, Some(t.genres));
    var k := Tokenize(norm, Some(t.keywords));
    var genreOverlap := OverlapScore(g, genreSet);
    var keywordOverlap := OverlapScore(k, kwSet);
    score := genreOverlap * 2 + keywordOverlap * 3;
  }

  /** What pickSimilarMusicFromPool returns. */
  function SimilarMusic(norm: string -> string, pool: seq<MusicItem>, opts: MusicOptions): seq<MusicItem> {
    TopTwo(MusicCandidates(norm, pool, opts), MusicScorer(norm, opts))
  }

  /** pickSimilarMusicFromPool */
  method PickSimilarMusicFromPool(u: Unicode, pool: seq<MusicItem>, opts: MusicOptions)
    returns (r: seq<MusicItem>)
    ensures r == SimilarMusic(Normalizer(u), pool, opts)
  {
    var norm := Normalizer(u);
    var genreSet := Tokenize(norm, Some(if Truthy(opts.analyzedMusicGenre) then [opts.analyzedMusicGenre.value] else []));
    var kwSet := Tokenize(norm, opts.analyzedMusicKeywords);
    var titleNorm := ExcludeNorm(norm, opts.excludeTitle);
    var artistNorm := ExcludeNorm(norm, opts.excludeArtist);
    var filtered := Filter(pool, KeepTrack(norm, titleNorm, artistNorm));
    var scored: seq<Scored<MusicItem>> := [];
    for i := 0 to |filtered|
      invariant scored == ScoreAll(filtered[..i], MusicScorer(norm, opts))
    {
      var score := ScoreTrackEntry(norm, filtered[i], opts, genreSet, kwSet);
      ScoreAllSnoc(filtered, i, MusicScorer(norm, opts));
      scored := scored + [Scored(filtered[i], score)];
    }
    assert filtered[..|filtered|] == filtered;
    r := Items(Take(SortDesc(scored, ScoreOf), 2));
  }

  /** The music picker returns min(2, #kept) tracks, all kept ones from the pool. */
  lemma SimilarMusicFromKept(norm: string -> string, pool: seq<MusicItem>, opts: MusicOptions)
    ensures var kept := MusicCandidates(norm, pool, opts); var r := SimilarMusic(norm, pool, opts);
      && |r| == (if |kept| < 2 then |kept| else 2)
      && (forall t :: t in r ==> t in kept && t in pool)
  {
    var kept := MusicCandidates(norm, pool, opts);
    TopTwoProperties(kept, MusicScorer(norm, opts));
    FilterIsSubsequence(pool, KeepTrack(norm, ExcludeNorm(norm, opts.excludeTitle), ExcludeNorm(norm, opts.excludeArtist)));
    var r := SimilarMusic(norm, pool, opts);
    forall t | t in r ensures t in kept {
      var i :| 0 <= i < |r| && r[i] == t;
    }
  }

  /** The tracks returned are the first entries of the ranking, each scoring at least as much as every track ranked after them. */
  lemma SimilarMusicBest(norm: string -> string, pool: seq<MusicItem>, opts: MusicOptions)
    ensures var kept := MusicCandidates(norm, pool, opts);
      var ranked := Ranked(kept, MusicScorer(norm, opts));
      var r := SimilarMusic(norm, pool, opts);
      && (forall t :: t in kept ==> t in Items(ranked))
      && (forall i :: 0 <= i < |r| ==> r[i] == ranked[i].item)
      && (forall i, j :: 0 <= i < |r| <= j < |ranked| ==> MusicScore(norm, r[i], opts) >= MusicScore(norm, ranked[j].item, opts))
  {
    var f := MusicScorer(norm, opts);
    TopTwoBest(MusicCandidates(norm, pool, opts), f);
  }

  /** Tracks tied in score come out in pool order, as the stable sort keeps them. */
  lemma SimilarMusicStable(norm: string -> string, pool: seq<MusicItem>, opts: MusicOptions, v: int)
    ensures var kept := MusicCandidates(norm, pool, opts);
      var ties := WithKey(Take(Ranked(kept, MusicScorer(norm, opts)), 2), ScoreOf, v);
      var all := WithKey(ScoreAll(kept, MusicScorer(norm, opts)), ScoreOf, v);
      |ties| <= |all| && ties == all[..|ties|]
  {
    TopTwoStable(MusicCandidates(norm, pool, opts), MusicScorer(norm, opts), v);
  }

  lemma SimilarMusicDistinctIds(norm: string -> string, pool: seq<MusicItem>, opts: MusicOptions)
    requires DistinctIds(pool, (t: MusicItem) => t.id)
    ensures DistinctIds(SimilarMusic(norm, pool, opts), (t: MusicItem) => t.id)
  {
    var id := (t: MusicItem) => t.id;
    FilterKeepsDistinctIds(pool, KeepTrack(norm, ExcludeNorm(norm, opts.excludeTitle), ExcludeNorm(norm, opts.excludeArtist)), id);
    TopTwoDistinctIds(MusicCandidates(norm, pool, opts), MusicScorer(norm, opts), id);
  }

  /** From a well-formed pool the picker returns well-formed entries with distinct ids. */
  lemma SimilarMusicWellFormed(norm: string -> string, pool: seq<MusicItem>, opts: MusicOptions)
    requires MusicPoolWellFormed(pool)
    ensures MusicPoolWellFormed(SimilarMusic(norm, pool, opts))
  {
    assert DistinctIds(pool, (t: MusicItem) => t.id);
    SimilarMusicDistinctIds(norm, pool, opts);
    SimilarMusicFromKept(norm, pool, opts);
  }


  /**
   * Which tracks the music picker drops: with an artist given, exactly those
   * matching both title and artist; with only a title, those matching the
   * title; with neither, none.
   */
  lemma MusicExclusion(norm: string -> string, pool: seq<MusicItem>, opts: MusicOptions)
    ensures var titleNorm := ExcludeNorm(norm, opts.excludeTitle); var artistNorm := ExcludeNorm(norm, opts.excludeArtist);
      var kept := MusicCandidates(norm, pool, opts);
      && (artistNorm != "" ==> forall t :: t in kept <==>
            (t in pool && !(norm(t.title) == titleNorm && norm(t.artist) == artistNorm)))
      && (artistNorm == "" && titleNorm != "" ==> forall t :: t in kept <==> (t in pool && norm(t.title) != titleNorm))
      && (artistNorm == "" && titleNorm == "" ==> kept == pool)
  {
    var titleNorm := ExcludeNorm(norm, opts.excludeTitle);
    var artistNorm := ExcludeNorm(norm, opts.excludeArtist);
    FilterIsSubsequence(pool, KeepTrack(norm, titleNorm, artistNorm));
    if artistNorm == "" && titleNorm == "" {
      FilterAll(pool, KeepTrack(norm, titleNorm, artistNorm));
    }
  }

  /** Adding an analysed keyword the track does not yet have raises its score by exactly 3. */
  lemma MusicKeywordRaisesScore(norm: string -> string, t: MusicItem, opts: MusicOptions, kw: string)
    requires norm(kw) in TokenSet(norm, opts.analyzedMusicKeywords)
    requires norm(kw) !in TokenSet(norm, Some(t.keywords))
    ensures MusicScore(norm, t.(keywords := t.keywords + [kw]), opts) == MusicScore(norm, t, opts) + 3
  {
    TokenSetAppend(norm, t.keywords, kw);
    OverlapAddShared(TokenSet(norm, Some(t.keywords)), TokenSet(norm, opts.analyzedMusicKeywords), norm(kw));
  }

  // ---------------------------------------------------------------- responses

  datatype MovieResponse = MovieResponse(title: string, director: string, year: string, genre: string, reason: string, poster: string)
  datatype MusicResponse = MusicResponse(title: string, artist: string, album: string, reason: string, emoji: string)

  /** mapMovieItemToResponse */
  function MapMovieItemToResponse(m: MovieItem): (r: MovieResponse)
    ensures r.title == m.title && r.director == m.director
    ensures m.year >= 0 ==> AllDigits(r.year) && DigitsValue(r.year) == m.year
    ensures m.year < 0 ==> |r.year| >= 2 && r.year[0] == '-' && AllDigits(r.year[1..]) && DigitsValue(r.year[1..]) == -m.year
    ensures r.genre == Join(m.genres, ", ")
    ensures r.poster == if Truthy(m.emoji) then m.emoji.value else "🎬"
    ensures r.reason == "취향 키워드/장르 유사도 기반 추천"
  {
    IntToStringRoundTrip(m.year);
    IntToStringRoundTrip(-m.year);
    MovieResponse(m.title, m.director, IntToString(m.year), Join(m.genres, ", "),
      "취향 키워드/장르 유사도 기반 추천", if Truthy(m.emoji) then m.emoji.value else "🎬")
  }

  /** mapMusicItemToResponse */
  function MapMusicItemToResponse(t: MusicItem): (r: MusicResponse)
    ensures r.title == t.title && r.artist == t.artist
    ensures r.album == t.album.GetOr("")
    ensures r.emoji != "" && (Truthy(t.emoji) ==> r.emoji == t.emoji.value)
    ensures !Truthy(t.emoji) ==> r.emoji == "🎵"
    ensures r.reason == "무드/키워드/장르 유사도 기반 추천"
  {
    MusicResponse(t.title, t.artist, t.album.GetOr(""), "무드/키워드/장르 유사도 기반 추천",
      if Truthy(t.emoji) then t.emoji.value else "🎵")
  }
}
