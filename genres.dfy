/**
 * The genre step of extractMovieFacts: every dictionary keyword that occurs
 * in the collapsed text as a whole word (not touching a Hangul syllable or a
 * Latin letter) contributes its canonical genre, each genre once, in the
 * order its first matching keyword has in the dictionary.
 */
module Genres {
  import opened Text

  /** `genreDict`, in `Object.entries` order (none of its keys is an array index). */
  const GenreDict: seq<(string, string)> := [
    ("스릴러", "스릴러"), ("thriller", "스릴러"),
    ("드라마", "드라마"), ("drama", "드라마"),
    ("로맨스", "로맨스"), ("romance", "로맨스"),
    ("코미디", "코미디"), ("comedy", "코미디"),
    ("범죄", "범죄"), ("crime", "범죄"),
    ("액션", "액션"), ("action", "액션"),
    ("공포", "공포"), ("horror", "공포"),
    ("SF", "SF"), ("sci-fi", "SF"), ("science fiction", "SF"),
    ("판타지", "판타지"), ("fantasy", "판타지"),
    ("느와르", "느와르"), ("noir", "느와르"),
    ("뮤지컬", "뮤지컬"), ("musical", "뮤지컬")
  ]

  /** The class `[가-힣A-Za-z]`; under the `i` flag it still holds exactly these characters. */
  predicate IsWordChar(c: char) {
    ('가' <= c <= '힣') || ('A' <= c <= 'Z') || ('a' <= c <= 'z')
  }

  /** `(?:^|[^가-힣A-Za-z])k(?:$|[^가-힣A-Za-z])` matches with `k` starting at `i`. */
  predicate WholeWordAt(u: Unicode, s: string, k: string, i: nat) {
    && KeywordAt(u, s, k, i)
    && (i == 0 || !IsWordChar(s[i - 1]))
    && (i + |k| == |s| || !IsWordChar(s[i + |k|]))
  }

  /** `re.test(blobs)` */
  predicate WholeWord(u: Unicode, s: string, k: string) {
    exists i :: 0 <= i <= |s| && WholeWordAt(u, s, k, i)
  }

  /** `found.add(v)` on an insertion-ordered set. */
  function Add(found: seq<string>, v: string): (r: seq<string>)
    ensures forall x :: x in r <==> x in found || x == v
  {
    if v in found then found else found + [v]
  }

  /** The set `found` after the first `n` dictionary entries. */
  function FoundUpTo(u: Unicode, s: string, dict: seq<(string, string)>, n: nat): seq<string>
    requires n <= |dict|
  {
    if n == 0 then []
    else
      var found := FoundUpTo(u, s, dict, n - 1);
      if WholeWord(u, s, dict[n - 1].0) then Add(found, dict[n - 1].1) else found
  }

  /** The dictionary loop filling `found`, then `Array.from(found)`. */
  method FindGenres(u: Unicode, blobs: string, dict: seq<(string, string)>) returns (genres: seq<string>)
    ensures genres == FoundUpTo(u, blobs, dict, |dict|)
  {
    genres := [];
    for n := 0 to |dict|
      invariant genres == FoundUpTo(u, blobs, dict, n)
    {
      var (k, v) := dict[n];
      if WholeWord(u, blobs, k) {
        genres := Add(genres, v);
      }
    }
  }

  /** Entry `j` has value `v` and its keyword matches. */
  predicate Hit(u: Unicode, s: string, dict: seq<(string, string)>, v: string, j: int) {
    0 <= j < |dict| && dict[j].1 == v && WholeWord(u, s, dict[j].0)
  }

  /** The index of the first entry at or after `k` that is a hit for `v`, or `|dict|`. */
  function FirstHit(u: Unicode, s: string, dict: seq<(string, string)>, v: string, k: nat): (i: nat)
    requires k <= |dict|
    ensures k <= i <= |dict|
    ensures i < |dict| ==> Hit(u, s, dict, v, i)
    ensures forall j :: k <= j < i ==> !Hit(u, s, dict, v, j)
    decreases |dict| - k
  {
    if k == |dict| then k
    else if Hit(u, s, dict, v, k) then k
    else FirstHit(u, s, dict, v, k + 1)
  }

  predicate NoDuplicates(r: seq<string>) {
    forall a, b :: 0 <= a < b < |r| ==> r[a] != r[b]
  }

  /**
   * The genres are distinct; a genre is present exactly when one of its
   * keywords matches; and the genres are in the order of their first
   * matching entries.
   */
  lemma {:induction false} FoundUpToCorrect(u: Unicode, s: string, dict: seq<(string, string)>, n: nat)
    requires n <= |dict|
    ensures NoDuplicates(FoundUpTo(u, s, dict, n))
    ensures forall v :: v in FoundUpTo(u, s, dict, n) <==> exists j :: 0 <= j < n && Hit(u, s, dict, v, j)
    ensures forall a :: 0 <= a < |FoundUpTo(u, s, dict, n)| ==> FirstHit(u, s, dict, FoundUpTo(u, s, dict, n)[a], 0) < n
    ensures forall a, b :: 0 <= a < b < |FoundUpTo(u, s, dict, n)| ==>
      FirstHit(u, s, dict, FoundUpTo(u, s, dict, n)[a], 0) < FirstHit(u, s, dict, FoundUpTo(u, s, dict, n)[b], 0)
  {
    if n > 0 {
      FoundUpToCorrect(u, s, dict, n - 1);
      var found := FoundUpTo(u, s, dict, n - 1);
      var v := dict[n - 1].1;
      if WholeWord(u, s, dict[n - 1].0) && v !in found {
        var r := found + [v];
        assert FoundUpTo(u, s, dict, n) == r;
        assert Hit(u, s, dict, v, n - 1);
        assert FirstHit(u, s, dict, v, 0) == n - 1;
        forall a | 0 <= a < |found| ensures FirstHit(u, s, dict, r[a], 0) < n - 1 {
          assert r[a] == found[a];
        }
      }
    }
  }

  /** Canonicalize tells the lower-case Latin letters apart. */
  predicate FoldsLatinApart(u: Unicode) {
    forall c, d :: 'a' <= c <= 'z' && 'a' <= d <= 'z' && c != d ==> u.caseFold(c) != u.caseFold(d)
  }

  /** "action" is not found inside "reaction": the letter before it is a word character. */
  lemma ReactionIsNotAction(u: Unicode)
    requires FoldsLatinApart(u)
    ensures !WholeWord(u, "reaction", "action")
  {
    var s, k := "reaction", "action";
    forall i | 0 <= i <= |s| ensures !WholeWordAt(u, s, k, i) {
      if i == 0 {
        assert u.caseFold(s[0]) != u.caseFold(k[0]);
      } else if i == 1 {
        assert u.caseFold(s[1]) != u.caseFold(k[0]);
      } else if i == 2 {
        assert IsWordChar(s[1]);
      }
    }
  }

  /** A keyword standing alone between spaces is found. */
  lemma SpacedKeywordMatches(u: Unicode, pre: string, k: string, post: string)
    ensures WholeWord(u, pre + " " + k + " " + post, k)
  {
    var s := pre + " " + k + " " + post;
    var i := |pre| + 1;
    assert s[i - 1] == ' ' && s[i + |k|] == ' ';
    forall j | 0 <= j < |k| ensures u.caseFold(s[i + j]) == u.caseFold(k[j]) {
      assert s[i + j] == k[j];
    }
    assert WholeWordAt(u, s, k, i);
  }
}
