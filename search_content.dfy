/**
 * The search-content route: one request names a search type, the route
 * checks that the type's parameters are there, runs the searches it names
 * and answers with what they found, gathered in a `results` object.
 */
module SearchContent {
  import opened Wrappers
  import opened Search
  import SearchContext
  import ContextService

  /** The request body; an absent `type` is the empty string, an absent parameter None. */
  datatype SearchRequest = SearchRequest(searchType: string, query: Option<string>, youtubeUrl: Option<string>, artist: Option<string>)

  /**
   * The searches the route calls, each as the value it settles with; None
   * is a search that threw (a rejected promise).
   */
  datatype Services = Services(
    movie: string -> Option<MovieSearchData>,
    music: (string, Option<string>) -> Option<SearchContext.MusicSearchData>,
    youtube: string -> Option<SearchContext.MusicSearchData>,
    fragrance: Option<seq<SearchResult>>,
    libraries: Option<ContextService.Libraries>)

  /** The fields of `results` when the response is built; None is a field never assigned. */
  datatype ResultsData = ResultsData(
    movieData: Option<MovieSearchData>,
    musicData: Option<SearchContext.MusicSearchData>,
    fragranceKnowledge: Option<seq<SearchResult>>,
    libraryInfo: Option<ContextService.Libraries>)

  datatype Response =
    | Success(data: ResultsData, searchType: string)
    | Failure(status: int, error: string)

  const NoMovieTitle: string := "영화 제목이 필요합니다."
  const NoMusicTitle: string := "음악 제목이 필요합니다."
  const NoYoutubeUrl: string := "YouTube URL이 필요합니다."
  const Unsupported: string := "지원하지 않는 검색 타입입니다."
  const Crashed: string := "검색 중 오류가 발생했습니다."

  const SearchTypes: seq<string> := ["movie", "music", "youtube", "fragrance", "all"]

  /** A parameter that is truthy: present and not empty. */
  predicate Given(x: Option<string>) {
    x.Some? && x.value != ""
  }

  /** The `results` object, whose fields the branches assign. */
  class Results {
    var movieData: Option<MovieSearchData>
    var musicData: Option<SearchContext.MusicSearchData>
    var fragranceKnowledge: Option<seq<SearchResult>>
    var libraryInfo: Option<ContextService.Libraries>

    constructor()
      ensures Data() == ResultsData(None, None, None, None)
    {
      movieData, musicData, fragranceKnowledge, libraryInfo := None, None, None, None;
    }

    function Data(): ResultsData
      reads this
    {
      ResultsData(movieData, musicData, fragranceKnowledge, libraryInfo)
    }
  }

  /**
   * The music data an 'all' search ends with.  Both music searches write the
   * same field and the later one to settle wins; `youtubeLast` says which
   * settles later.  A rejected search writes nothing.
   */
  function AllMusic(req: SearchRequest, sv: Services, youtubeLast: bool): (m: Option<SearchContext.MusicSearchData>)
    ensures Given(req.query) && !Given(req.youtubeUrl) ==> m == sv.music(req.query.value, req.artist)
    ensures !Given(req.query) && Given(req.youtubeUrl) ==> m == sv.youtube(req.youtubeUrl.value)
    ensures !Given(req.query) && !Given(req.youtubeUrl) ==> m.None?
    ensures m.Some? ==>
      || (Given(req.query) && m == sv.music(req.query.value, req.artist))
      || (Given(req.youtubeUrl) && m == sv.youtube(req.youtubeUrl.value))
    ensures m.None? ==>
      && (Given(req.query) ==> sv.music(req.query.value, req.artist).None?)
      && (Given(req.youtubeUrl) ==> sv.youtube(req.youtubeUrl.value).None?)
  {
    var byQuery := if Given(req.query) then sv.music(req.query.value, req.artist) else None;
    var byUrl := if Given(req.youtubeUrl) then sv.youtube(req.youtubeUrl.value) else None;
    if youtubeLast then (if byUrl.Some? then byUrl else byQuery)
    else (if byQuery.Some? then byQuery else byUrl)
  }

  /**
   * POST.  `body` is None when the request is not JSON.  A search that
   * throws outside the 'all' branch is the exception the handler turns
   * into 500.
   */
  method Post(body: Option<SearchRequest>, sv: Services, youtubeLast: bool) returns (resp: Response)
    ensures body.None? ==> resp == Failure(500, Crashed)
    ensures body.Some? && body.value.searchType !in SearchTypes ==> resp == Failure(400, Unsupported)
    ensures resp.Success? ==> body.Some? && resp.searchType == body.value.searchType && resp.searchType in SearchTypes
    ensures body.Some? && body.value.searchType == "movie" ==>
      var req := body.value;
      if !Given(req.query) then resp == Failure(400, NoMovieTitle)
      else if sv.movie(req.query.value).None? then resp == Failure(500, Crashed)
      else resp == Success(ResultsData(sv.movie(req.query.value), None, None, None), "movie")
    ensures body.Some? && body.value.searchType == "music" ==>
      var req := body.value;
      if !Given(req.query) then resp == Failure(400, NoMusicTitle)
      else if sv.music(req.query.value, req.artist).None? then resp == Failure(500, Crashed)
      else resp == Success(ResultsData(None, sv.music(req.query.value, req.artist), None, None), "music")
    ensures body.Some? && body.value.searchType == "youtube" ==>
      var req := body.value;
      if !Given(req.youtubeUrl) then resp == Failure(400, NoYoutubeUrl)
      else if sv.youtube(req.youtubeUrl.value).None? then resp == Failure(500, Crashed)
      else resp == Success(ResultsData(None, sv.youtube(req.youtubeUrl.value), None, None), "youtube")
    ensures body.Some? && body.value.searchType == "fragrance" ==>
      if sv.fragrance.None? then resp == Failure(500, Crashed)
      else resp == Success(ResultsData(None, None, sv.fragrance, None), "fragrance")
    ensures body.Some? && body.value.searchType == "all" ==>
      var req := body.value;
      resp == Success(ResultsData(
        if Given(req.query) then sv.movie(req.query.value) else None,
        AllMusic(req, sv, youtubeLast),
        sv.fragrance,
        sv.libraries), "all")
  {
    if body.None? {
      return Failure(500, Crashed);
    }
    var req := body.value;
    var results := new Results();
    match req.searchType {
      case "movie" =>
        if !Given(req.query) {
          return Failure(400, NoMovieTitle);
        }
        var data := sv.movie(req.query.value);
        if data.None? {
          return Failure(500, Crashed);
        }
        results.movieData := data;
      case "music" =>
        if !Given(req.query) {
          return Failure(400, NoMusicTitle);
        }
        var data := sv.music(req.query.value, req.artist);
        if data.None? {
          return Failure(500, Crashed);
        }
        results.musicData := data;
      case "youtube" =>
        if !Given(req.youtubeUrl) {
          return Failure(400, NoYoutubeUrl);
        }
        var data := sv.youtube(req.youtubeUrl.value);
        if data.None? {
          return Failure(500, Crashed);
        }
        results.musicData := data;
      case "fragrance" =>
        if sv.fragrance.None? {
          return Failure(500, Crashed);
        }
        results.fragranceKnowledge := sv.fragrance;
      case "all" =>
        // The searches settle in some order; each one that resolves writes its field.
        if Given(req.query) {
          var movie := sv.movie(req.query.value);
          if movie.Some? {
            results.movieData := movie;
          }
        }
        var byQuery := if Given(req.query) then sv.music(req.query.value, req.artist) else None;
        var byUrl := if Given(req.youtubeUrl) then sv.youtube(req.youtubeUrl.value) else None;
        var first := if youtubeLast then byQuery else byUrl;
        var last := if youtubeLast then byUrl else byQuery;
        if first.Some? {
          results.musicData := first;
        }
        if last.Some? {
          results.musicData := last;
        }
        if sv.fragrance.Some? {
          results.fragranceKnowledge := sv.fragrance;
        }
        if sv.libraries.Some? {
          results.libraryInfo := sv.libraries;
        }
      case _ =>
        return Failure(400, Unsupported);
    }
    resp := Success(results.Data(), req.searchType);
  }

  /**
   * The request GET forwards: `type` defaults to 'all' when absent or
   * empty, and the other parameters pass through.
   */
  function GetRequest(params: map<string, string>): (req: SearchRequest)
    ensures req.searchType == if "type" in params && params["type"] != "" then params["type"] else "all"
    ensures req.query == (if "query" in params then Some(params["query"]) else None)
    ensures req.youtubeUrl == (if "youtubeUrl" in params then Some(params["youtubeUrl"]) else None)
    ensures req.artist == (if "artist" in params then Some(params["artist"]) else None)
  {
    SearchRequest(
      if "type" in params && params["type"] != "" then params["type"] else "all",
      if "query" in params then Some(params["query"]) else None,
      if "youtubeUrl" in params then Some(params["youtubeUrl"]) else None,
      if "artist" in params then Some(params["artist"]) else None)
  }

  /** GET: the query parameters as a POST body.  Without a `type` it is an 'all' search, which always succeeds. */
  method Get(params: map<string, string>, sv: Services, youtubeLast: bool) returns (resp: Response)
    ensures resp.Success? ==> resp.searchType == GetRequest(params).searchType
    ensures ("type" !in params || params["type"] == "") ==> resp.Success? && resp.searchType == "all"
    ensures "type" in params && params["type"] !in SearchTypes && params["type"] != "" ==> resp == Failure(400, Unsupported)
  {
    resp := Post(Some(GetRequest(params)), sv, youtubeLast);
  }

  /** An 'all' search with both a title and a link: a music search that resolves is never lost. */
  lemma AllMusicKeepsASettledSearch(req: SearchRequest, sv: Services, youtubeLast: bool)
    requires Given(req.query) && Given(req.youtubeUrl)
    ensures AllMusic(req, sv, youtubeLast).None? <==>
      sv.music(req.query.value, req.artist).None? && sv.youtube(req.youtubeUrl.value).None?
    ensures youtubeLast && sv.youtube(req.youtubeUrl.value).Some? ==> AllMusic(req, sv, youtubeLast) == sv.youtube(req.youtubeUrl.value)
    ensures !youtubeLast && sv.music(req.query.value, req.artist).Some? ==>
      AllMusic(req, sv, youtubeLast) == sv.music(req.query.value, req.artist)
  {
  }
}
