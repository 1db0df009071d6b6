/**
 * The bundled recommendation catalogue: one entry per movie or track, read
 * only at request time, and the invariants its schema documents.
 */
module RecoTypes {
  import opened Wrappers

  datatype MovieItem = MovieItem(
    id: string,              // kebab-case, unique in its pool
    title: string,           // localised title
    director: string,
    year: int,               // theatrical release year
    genres: seq<string>,     // 1 to 3 entries
    keywords: seq<string>,   // 5 to 10 entries
    emoji: Option<string>)

  datatype MusicItem = MusicItem(
    id: string,              // kebab-case, unique in its pool
    title: string,
    artist: string,
    album: Option<string>,
    year: int,               // first official release year
    genres: seq<string>,     // 1 to 3 entries
    keywords: seq<string>,   // 5 to 10 entries
    emoji: Option<string>)

  predicate IsKebabChar(c: char) {
    ('a' <= c <= 'z') || ('0' <= c <= '9')
  }

  /** Lower-case letters and digits in words joined by single hyphens. */
  predicate IsKebabCase(s: string) {
    && |s| > 0
    && (forall i :: 0 <= i < |s| ==> IsKebabChar(s[i]) || s[i] == '-')
    && s[0] != '-' && s[|s| - 1] != '-'
    && (forall i, j :: 0 <= i < |s| && 0 <= j < |s| && j == i + 1 ==> !(s[i] == '-' && s[j] == '-'))
  }

  predicate GenreAndKeywordCounts(genres: seq<string>, keywords: seq<string>) {
    1 <= |genres| <= 3 && 5 <= |keywords| <= 10
  }

  predicate MovieWellFormed(m: MovieItem) {
    IsKebabCase(m.id) && GenreAndKeywordCounts(m.genres, m.keywords)
  }

  predicate MusicWellFormed(t: MusicItem) {
    IsKebabCase(t.id) && GenreAndKeywordCounts(t.genres, t.keywords)
  }

  predicate MoviePoolWellFormed(pool: seq<MovieItem>) {
    && (forall m :: m in pool ==> MovieWellFormed(m))
    && (forall i, j :: 0 <= i < j < |pool| ==> pool[i].id != pool[j].id)
  }

  predicate MusicPoolWellFormed(pool: seq<MusicItem>) {
    && (forall t :: t in pool ==> MusicWellFormed(t))
    && (forall i, j :: 0 <= i < j < |pool| ==> pool[i].id != pool[j].id)
  }
}
