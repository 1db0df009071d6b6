/**
 * extractMovieFacts: the release year, genres and synopsis distilled from
 * the three groups of movie search results.
 */
module MovieFacts {
  import opened Wrappers
  import opened Text
  import opened Search
  import YearVote
  import Genres
  import Synopsis

  datatype Facts = Facts(year: Option<string>, genres: Option<seq<string>>, description: Option<string>)

  /** `[...basicInfo, ...analysis, ...reviews]` */
  function Docs(data: MovieSearchData): seq<SearchResult> {
    data.basicInfo + data.analysis + data.reviews
  }

  /** Each document as `${title}\n${text}`. */
  function DocTexts(docs: seq<SearchResult>): (r: seq<string>)
    ensures |r| == |docs|
    ensures forall i :: 0 <= i < |docs| ==> r[i] == docs[i].title + "\n" + docs[i].text
  {
    seq(|docs|, i requires 0 <= i < |docs| => docs[i].title + "\n" + docs[i].text)
  }

  /** The documents joined with blank lines, every whitespace run collapsed to one space. */
  function Blobs(data: MovieSearchData): (b: string)
    ensures forall i :: 0 <= i < |b| ==> b[i] == ' ' || !IsSpace(b[i])
    ensures NoDoubleSpace(b)
  {
    CollapseSpaces(Join(DocTexts(Docs(data)), "\n\n"))
  }

  /**
   * `fullYear` stands for `String(new Date(d).getFullYear())`, which the
   * model does not compute.
   */
  method ExtractMovieFacts(u: Unicode, data: MovieSearchData, directorHint: Option<string>, fullYear: string -> string)
    returns (facts: Facts)
    ensures facts.year.Some? <==> YearVote.AllScores(u, directorHint, fullYear, Docs(data), map[]) != map[]
    ensures facts.year.Some? ==>
      && |facts.year.value| == 4 && YearVote.YearAt(facts.year.value, 0)
      && YearVote.BestYear(YearVote.AllScores(u, directorHint, fullYear, Docs(data), map[])) == Some(YearVote.YearValue(facts.year.value, 0))
    ensures facts.genres.Some? ==> |facts.genres.value| > 0 && Genres.NoDuplicates(facts.genres.value)
    ensures facts.genres.Some? ==> facts.genres.value == Genres.FoundUpTo(u, Blobs(data), Genres.GenreDict, |Genres.GenreDict|)
    ensures facts.genres.Some? <==> exists j :: 0 <= j < |Genres.GenreDict| && Genres.WholeWord(u, Blobs(data), Genres.GenreDict[j].0)
    ensures facts.description == Synopsis.Description(u, Blobs(data), data)
    ensures facts.description.Some? ==> |facts.description.value| <= Synopsis.MaxSynopsis
  {
    var blobs := Blobs(data);
    var docs := Docs(data);

    var scores := YearVote.CollectYearScores(u, directorHint, fullYear, docs);
    YearVote.AllScoresValid(u, directorHint, fullYear, docs, map[]);
    YearOfScores(scores);
    var best := YearVote.BestYear(scores);
    var year := if best.Some? then Some(NatToString(best.value)) else None;

    var found := Genres.FindGenres(u, blobs, Genres.GenreDict);
    GenresOfDict(u, blobs, Genres.GenreDict, found);
    var genres := if |found| > 0 then Some(found) else None;

    facts := Facts(year, genres, Synopsis.Description(u, blobs, data));
  }

  /** The winning year, when there is one, renders as its own four digits. */
  lemma YearOfScores(scores: YearVote.Scores)
    requires YearVote.Valid(scores)
    ensures YearVote.BestYear(scores).None? <==> scores == map[]
    ensures YearVote.BestYear(scores).Some? ==>
      var t := NatToString(YearVote.BestYear(scores).value);
      |t| == 4 && YearVote.YearAt(t, 0) && YearVote.YearValue(t, 0) == YearVote.BestYear(scores).value
  {
    YearVote.BestYearAbsent(scores);
    if YearVote.BestYear(scores).Some? {
      YearVote.BestYearIsMaximal(scores);
      YearVote.YearText(YearVote.BestYear(scores).value);
    }
  }

  /** The genres found are distinct, and some are found exactly when some keyword matches. */
  lemma GenresOfDict(u: Unicode, s: string, dict: seq<(string, string)>, found: seq<string>)
    requires found == Genres.FoundUpTo(u, s, dict, |dict|)
    ensures Genres.NoDuplicates(found)
    ensures found != [] <==> exists j :: 0 <= j < |dict| && Genres.WholeWord(u, s, dict[j].0)
  {
    Genres.FoundUpToCorrect(u, s, dict, |dict|);
    if found != [] {
      assert found[0] in found;
    } else {
      forall j | 0 <= j < |dict| ensures !Genres.WholeWord(u, s, dict[j].0) {
        assert dict[j].1 !in found;
        assert !Genres.Hit(u, s, dict, dict[j].1, j);
      }
    }
  }
}
