/**
 * The extract-music route: the video id taken from a YouTube link, the
 * artist and song read off the video title, and the ordered checks that
 * decide the response.
 */
module ExtractMusic {
  import opened Wrappers
  import opened Text
  import TitleSplit

  /**
   * The literal part of each of the four link patterns, in the order they
   * are tried.  The optional `https?://` and `www.` in front of them never
   * decide whether a pattern matches or what it captures.
   */
  const IdLiterals: seq<string> := ["youtube.com/watch?v=", "youtube.com/embed/", "youtube.com/v/", "youtu.be/"]

  /** The class `[^&\n?#]`. */
  predicate IdChar(c: char) {
    c != '&' && c != '\n' && c != '?' && c != '#'
  }

  /** `lit` occurs at `i` and at least one id character follows it. */
  predicate IdFollows(s: string, lit: string, i: nat) {
    OccursAt(s, lit, i) && i + |lit| < |s| && IdChar(s[i + |lit|])
  }

  /** The end of the run of id characters starting at `j`: the greedy `[^&\n?#]+`. */
  function IdEnd(s: string, j: nat): (e: nat)
    requires j <= |s|
    ensures j <= e <= |s|
    ensures forall k :: j <= k < e ==> IdChar(s[k])
    ensures e == |s| || !IdChar(s[e])
    decreases |s| - j
  {
    if j == |s| || !IdChar(s[j]) then j else IdEnd(s, j + 1)
  }

  /** The first position at or after `from` where `lit` is followed by an id character. */
  function FirstIdAt(s: string, lit: string, from: nat): (i: Option<nat>)
    requires from <= |s|
    ensures i.Some? ==> from <= i.value < |s| && IdFollows(s, lit, i.value)
    ensures i.Some? ==> forall j :: from <= j < i.value ==> !IdFollows(s, lit, j)
    ensures i.None? ==> forall j :: from <= j <= |s| ==> !IdFollows(s, lit, j)
    decreases |s| - from
  {
    if IdFollows(s, lit, from) then Some(from)
    else if from == |s| then None
    else FirstIdAt(s, lit, from + 1)
  }

  /**
   * `url.match(pattern)` and its group 1.  The literal starts with `y`,
   * which none of the optional prefix characters is, so the leftmost match
   * is the one around the first occurrence of the literal that an id
   * character follows.
   */
  function MatchId(s: string, lit: string): (r: Option<string>)
    ensures r.None? <==> forall j :: 0 <= j <= |s| ==> !IdFollows(s, lit, j)
  {
    match FirstIdAt(s, lit, 0)
    case None => None
    case Some(i) => Some(s[i + |lit|..IdEnd(s, i + |lit|)])
  }

  /** extractVideoId: the first of the four patterns that matches gives the id. */
  function ExtractVideoId(url: string): (r: Option<string>)
    ensures r.None? <==> forall p :: 0 <= p < |IdLiterals| ==> MatchId(url, IdLiterals[p]).None?
  {
    TitleSplit.FirstSome(Matches(url))
  }

  /** Each pattern's group 1 on `url`, in list order. */
  function Matches(url: string): (ms: seq<Option<string>>)
    ensures |ms| == |IdLiterals| && forall p :: 0 <= p < |IdLiterals| ==> ms[p] == MatchId(url, IdLiterals[p])
  {
    seq(|IdLiterals|, p requires 0 <= p < |IdLiterals| => MatchId(url, IdLiterals[p]))
  }

  /**
   * A matched id is a non-empty maximal run of id characters right after the
   * first occurrence of the literal that an id character follows.
   */
  lemma MatchIdShape(s: string, lit: string) returns (i: nat)
    requires MatchId(s, lit).Some?
    ensures IdFollows(s, lit, i) && forall j :: 0 <= j < i ==> !IdFollows(s, lit, j)
    ensures var id := MatchId(s, lit).value;
      && id != []
      && (forall k :: 0 <= k < |id| ==> IdChar(id[k]))
      && OccursAt(s, id, i + |lit|)
      && (i + |lit| + |id| == |s| || !IdChar(s[i + |lit| + |id|]))
  {
    i := FirstIdAt(s, lit, 0).value;
    var e := IdEnd(s, i + |lit|);
    assert MatchId(s, lit).value == s[i + |lit|..e];
  }

  /** Which pattern's id extractVideoId returns: the first one that matches. */
  lemma {:induction false} ExtractVideoIdFirst(url: string, p: nat)
    requires p < |IdLiterals| && MatchId(url, IdLiterals[p]).Some?
    requires forall q :: 0 <= q < p ==> MatchId(url, IdLiterals[q]).None?
    ensures ExtractVideoId(url) == MatchId(url, IdLiterals[p])
  {
    TitleSplit.FirstSomeWins(Matches(url), p);
  }

  /**
   * Whatever scheme and host go in front of the literal, as long as they
   * hold no `y`, and whatever follows the id after a character outside the
   * class, the id is captured whole.
   */
  lemma UrlCapturesId(pre: string, lit: string, id: string, rest: string)
    requires 'y' !in pre && lit != [] && lit[0] == 'y'
    requires id != [] && forall k :: 0 <= k < |id| ==> IdChar(id[k])
    requires rest == [] || !IdChar(rest[0])
    ensures MatchId(pre + lit + id + rest, lit) == Some(id)
  {
    var s := pre + lit + id + rest;
    var i := |pre|;
    assert s[i..i + |lit|] == lit;
    assert IdFollows(s, lit, i) by { assert s[i + |lit|] == id[0]; }
    forall j | 0 <= j < i ensures !OccursAt(s, lit, j) {
      assert s[j] == pre[j] != lit[0];
      if j + |lit| <= |s| {
        assert s[j..j + |lit|][0] == s[j];
      }
    }
    assert FirstIdAt(s, lit, 0) == Some(i) by { FirstIdAtIs(s, lit, 0, i); }
    var b := i + |lit|;
    forall k | b <= k < b + |id| ensures IdChar(s[k]) {
      assert s[k] == id[k - b];
    }
    IdEndIs(s, b, b + |id|);
    assert s[b..b + |id|] == id;
  }

  lemma {:induction false} FirstIdAtIs(s: string, lit: string, from: nat, i: nat)
    requires from <= i < |s| && IdFollows(s, lit, i)
    requires forall j :: from <= j < i ==> !IdFollows(s, lit, j)
    ensures FirstIdAt(s, lit, from) == Some(i)
    decreases i - from
  {
    if from < i {
      FirstIdAtIs(s, lit, from + 1, i);
    }
  }

  lemma {:induction false} IdEndIs(s: string, j: nat, e: nat)
    requires j <= e <= |s|
    requires forall k :: j <= k < e ==> IdChar(s[k])
    requires e == |s| || !IdChar(s[e])
    ensures IdEnd(s, j) == e
    decreases e - j
  {
    if j < e {
      IdEndIs(s, j + 1, e);
    }
  }

  /** A watch link gives its `v` parameter. */
  lemma WatchLinkId(id: string, rest: string)
    requires id != [] && forall k :: 0 <= k < |id| ==> IdChar(id[k])
    requires rest == [] || !IdChar(rest[0])
    ensures ExtractVideoId("https://www." + IdLiterals[0] + id + rest) == Some(id)
  {
    var pre := "https://www.";
    assert 'y' !in pre;
    UrlCapturesId(pre, IdLiterals[0], id, rest);
    ExtractVideoIdFirst(pre + IdLiterals[0] + id + rest, 0);
  }

  /** The `snippet` of the first item of the YouTube Data API answer. */
  datatype Snippet = Snippet(title: string, channelTitle: string, description: Option<string>, publishedAt: string)

  /** The upstream answer: its status, and its body if that is JSON (`items` may be missing). */
  datatype Upstream = Upstream(ok: bool, status: int, body: Option<Option<seq<Snippet>>>)

  datatype VideoData = VideoData(title: string, artist: string, description: string, publishedAt: string)

  datatype Response =
    | Success(data: VideoData)
    | Failure(status: int, error: string)

  const NoUrl: string := "YouTube URL이 필요합니다."
  const BadUrl: string := "유효하지 않은 YouTube URL입니다."
  const NoKey: string := "YouTube API 키가 설정되지 않았습니다."
  const UpstreamFailed: string := "YouTube API 요청에 실패했습니다."
  const NotFound: string := "해당 비디오를 찾을 수 없습니다."
  const Crashed: string := "음악 정보 추출 중 오류가 발생했습니다."

  function ApiUrl(videoId: string, apiKey: string): string {
    "https://www.googleapis.com/youtube/v3/videos?id=" + videoId + "&part=snippet&key=" + apiKey
  }

  /** `x || fallback` on strings. */
  function OrElse(x: string, fallback: string): string {
    if x != "" then x else fallback
  }

  /** The response for the first video: the parsed names, each falling back to the raw data. */
  function VideoResult(v: Snippet): (d: VideoData)
    ensures var split := TitleSplit.ParseArtistAndTitle(v.title, TitleSplit.RoutePatterns);
      && (split.title != "" ==> d.title == split.title)
      && (split.artist != "" ==> d.artist == split.artist)
    ensures var split := TitleSplit.ParseArtistAndTitle(v.title, TitleSplit.RoutePatterns);
      && (split.title == "" ==> d.title == v.title)
      && (split.artist == "" ==> d.artist == v.channelTitle)
    ensures d.title == "" ==> v.title == ""
    ensures d.artist == "" ==> v.channelTitle == ""
    ensures d.publishedAt == v.publishedAt
    ensures v.description.Some? ==> d.description == v.description.value
    ensures v.description.None? ==> d.description == ""
  {
    var split := TitleSplit.ParseArtistAndTitle(v.title, TitleSplit.RoutePatterns);
    VideoData(
      OrElse(split.title, v.title),
      OrElse(split.artist, v.channelTitle),
      if v.description.Some? then v.description.value else "",
      v.publishedAt)
  }

  /** What the handler makes of the YouTube answer. */
  function Answer(up: Upstream): (r: Response)
    ensures up.body.None? ==> r == Failure(500, Crashed)
    ensures up.body.Some? && !up.ok ==> r == Failure(up.status, UpstreamFailed)
    ensures r.Failure? && r.status == 404 && r.error == NotFound ==> up.ok && (up.body.value.None? || up.body.value.value == [])
    ensures r.Success? <==> up.ok && up.body.Some? && up.body.value.Some? && up.body.value.value != []
    ensures r.Success? ==> r.data == VideoResult(up.body.value.value[0])
  {
    if up.body.None? then Failure(500, Crashed)
    else if !up.ok then Failure(up.status, UpstreamFailed)
    else if up.body.value.None? || up.body.value.value == [] then Failure(404, NotFound)
    else Success(VideoResult(up.body.value.value[0]))
  }

  /**
   * POST.  `body` is None when the request is not JSON, which is the
   * exception the handler turns into 500; inside it, `youtubeUrl` is None
   * when absent.  `apiKey` is the environment variable and `fetch` answers
   * the API URL it is given.
   */
  function Post(body: Option<Option<string>>, apiKey: Option<string>, fetch: string -> Upstream): (r: Response)
    ensures body.None? ==> r == Failure(500, Crashed)
    ensures body.Some? && (body.value.None? || body.value.value == "") ==> r == Failure(400, NoUrl)
    ensures body.Some? && body.value.Some? && body.value.value != "" ==> PostUrl(body.value.value, apiKey, fetch) == r
  {
    if body.None? then Failure(500, Crashed)
    else if body.value.None? || body.value.value == "" then Failure(400, NoUrl)
    else PostUrl(body.value.value, apiKey, fetch)
  }

  /** POST once a non-empty `youtubeUrl` was sent. */
  function PostUrl(url: string, apiKey: Option<string>, fetch: string -> Upstream): (r: Response)
    ensures ExtractVideoId(url).None? ==> r == Failure(400, BadUrl)
    ensures ExtractVideoId(url).Some? && (apiKey.None? || apiKey.value == "") ==> r == Failure(500, NoKey)
    ensures ExtractVideoId(url).Some? && apiKey.Some? && apiKey.value != "" ==>
      r == Answer(fetch(ApiUrl(ExtractVideoId(url).value, apiKey.value)))
  {
    var videoId := ExtractVideoId(url);
    if videoId.None? then Failure(400, BadUrl)
    else if apiKey.None? || apiKey.value == "" then Failure(500, NoKey)
    else Answer(fetch(ApiUrl(videoId.value, apiKey.value)))
  }
}
