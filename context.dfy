/**
 * The library notes added to the analysis prompt: a fixed table of
 * analysis libraries, the three lists looked up from it, and their
 * rendering as a context block.
 */
module ContextService {
  import opened Wrappers
  import opened Text

  datatype LibraryInfo = LibraryInfo(name: string, description: string, documentation: string)

  /** The three lists `getAllRelevantLibraries` returns. */
  datatype Libraries = Libraries(music: seq<LibraryInfo>, movie: seq<LibraryInfo>, fragrance: seq<LibraryInfo>)

  /** `libraryDatabase`, keyed by library name. */
  const LibraryDatabase: seq<(string, LibraryInfo)> := [
    ("spotify-web-api-js", LibraryInfo(
      "Spotify Web API JS",
      "Spotify의 Web API를 JavaScript에서 쉽게 사용할 수 있게 해주는 라이브러리. 음악 메타데이터, 오디오 특성, 인기도 등을 분석할 수 있습니다.",
      "Spotify API를 통해 트랙의 danceability, energy, valence, tempo 등의 오디오 특성을 분석할 수 있어 음악의 감정적 특성을 정량화할 수 있습니다.")),
    ("musictheory", LibraryInfo(
      "Music Theory JS",
      "음악 이론을 JavaScript로 구현한 라이브러리. 화성, 스케일, 코드 진행 등을 분석할 수 있습니다.",
      "음악의 조성, 화성 진행, 멜로디 패턴을 분석하여 음악의 감정적 색깔과 구조적 특성을 파악할 수 있습니다.")),
    ("tone", LibraryInfo(
      "Tone.js",
      "웹 오디오 API를 위한 프레임워크. 실시간 오디오 분석 및 시각화가 가능합니다.",
      "FFT 분석, 스펙트럼 분석을 통해 음악의 주파수 특성과 음색을 분석할 수 있어 향수의 노트 특성과 연결할 수 있습니다.")),
    ("essentia.js", LibraryInfo(
      "Essentia.js",
      "음악 정보 검색을 위한 오디오 분석 라이브러리. 고급 오디오 특성 추출이 가능합니다.",
      "음악의 BPM, 키, 모드, 스펙트럴 특성 등을 추출하여 음악의 복합적인 특성을 분석할 수 있습니다.")),
    ("meyda", LibraryInfo(
      "Meyda",
      "실시간 오디오 특성 추출 라이브러리. 웹에서 동작하는 오디오 분석 도구입니다.",
      "MFCC, 스펙트럴 특성, 리듬 특성 등을 실시간으로 추출하여 음악의 감정적 프로파일을 생성할 수 있습니다.")),
    ("movie-trailer", LibraryInfo(
      "Movie Trailer API",
      "영화 예고편 정보를 가져오는 라이브러리. YouTube 예고편 링크와 메타데이터를 제공합니다.",
      "영화의 시각적 특성과 예고편의 편집 스타일을 분석하여 영화의 감정적 톤을 파악할 수 있습니다.")),
    ("imdb-api", LibraryInfo(
      "IMDB API",
      "IMDB 데이터베이스에서 영화 정보를 가져오는 라이브러리. 평점, 리뷰, 장르 등의 정보를 제공합니다.",
      "영화의 장르, 감독 스타일, 관객 반응 등을 분석하여 영화의 감정적 프로파일과 향수 추천에 활용할 수 있습니다.")),
    ("themoviedb", LibraryInfo(
      "The Movie DB API",
      "종합적인 영화 데이터베이스 API. 상세한 영화 정보와 이미지를 제공합니다.",
      "영화의 테마, 분위기, 색상 팔레트 등을 분석하여 향수의 노트 조합과 연결할 수 있는 데이터를 제공합니다.")),
    ("cinemagoer", LibraryInfo(
      "Cinemagoer",
      "IMDB 데이터를 Python으로 추출하는 라이브러리. 영화의 상세 정보와 분석 데이터를 제공합니다.",
      "영화의 스토리텔링 구조, 캐릭터 분석, 영화 기법 등을 분석하여 향수 추천의 심리적 기반을 제공합니다.")),
    ("rdkit", LibraryInfo(
      "RDKit",
      "화학정보학을 위한 오픈소스 라이브러리. 분자 구조와 특성을 분석할 수 있습니다.",
      "향료의 분자 구조를 분석하여 후각적 특성과 감정적 반응을 예측할 수 있어 과학적인 향수 추천에 활용됩니다.")),
    ("openmolecules", LibraryInfo(
      "OpenMolecules",
      "분자 시각화 및 분석을 위한 JavaScript 라이브러리입니다.",
      "향료 분자의 3D 구조와 특성을 시각화하여 향의 특성과 조합 가능성을 분석할 수 있습니다.")),
    ("chemistry-js", LibraryInfo(
      "Chemistry.js",
      "화학 계산과 분자 특성 분석을 위한 JavaScript 라이브러리입니다.",
      "향료의 화학적 특성을 계산하여 조향 시 상호작용과 지속성을 예측할 수 있습니다."))
  ]

  const MusicNames: seq<string> := ["spotify-web-api-js", "musictheory", "tone", "essentia.js", "meyda"]
  const MovieNames: seq<string> := ["movie-trailer", "imdb-api", "themoviedb", "cinemagoer"]
  const FragranceNames: seq<string> := ["rdkit", "openmolecules", "chemistry-js"]

  /** The index of the first table entry at or after `k` named `name`, or the table's length. */
  function IndexFrom(table: seq<(string, LibraryInfo)>, name: string, k: nat): (i: nat)
    requires k <= |table|
    ensures k <= i <= |table|
    ensures i < |table| ==> table[i].0 == name
    ensures forall j :: k <= j < i ==> table[j].0 != name
    decreases |table| - k
  {
    if k == |table| || table[k].0 == name then k else IndexFrom(table, name, k + 1)
  }

  /** getMockLibraryInfo: the table entry for a known name, null for any other. */
  function MockLibraryInfo(name: string): (r: Option<LibraryInfo>)
    ensures r.None? <==> forall j :: 0 <= j < |LibraryDatabase| ==> LibraryDatabase[j].0 != name
    ensures r.Some? ==> exists j :: 0 <= j < |LibraryDatabase| && LibraryDatabase[j] == (name, r.value)
  {
    var i := IndexFrom(LibraryDatabase, name, 0);
    if i < |LibraryDatabase| then Some(LibraryDatabase[i].1) else None
  }

  /** The infos of the first `n` names that `lookup` finds, in name order. */
  function KnownUpTo(lookup: string -> Option<LibraryInfo>, names: seq<string>, n: nat): seq<LibraryInfo>
    requires n <= |names|
  {
    if n == 0 then []
    else
      var infos := KnownUpTo(lookup, names, n - 1);
      match lookup(names[n - 1])
      case Some(info) => infos + [info]
      case None => infos
  }

  /** What a `get*Libraries` loop over `names` returns. */
  function Known(names: seq<string>): seq<LibraryInfo> {
    KnownUpTo(MockLibraryInfo, names, |names|)
  }

  /**
   * One `get*Libraries` loop: look each name up and keep the ones found.
   * The lookup is `getMockLibraryInfo`, passed in; it never throws, so the
   * loop's `catch` does not arise.
   */
  method CollectLibraries(lookup: string -> Option<LibraryInfo>, names: seq<string>) returns (libraryInfos: seq<LibraryInfo>)
    ensures libraryInfos == KnownUpTo(lookup, names, |names|)
  {
    libraryInfos := [];
    for n := 0 to |names|
      invariant libraryInfos == KnownUpTo(lookup, names, n)
    {
      var info := lookup(names[n]);
      if info.Some? {
        libraryInfos := libraryInfos + [info.value];
      }
    }
  }

  /** A found info belongs to one of the names; every name that is found contributes. */
  lemma {:induction false} KnownUpToMembers(lookup: string -> Option<LibraryInfo>, names: seq<string>, n: nat)
    requires n <= |names|
    ensures |KnownUpTo(lookup, names, n)| <= n
    ensures forall x :: x in KnownUpTo(lookup, names, n) ==> exists i :: 0 <= i < n && lookup(names[i]) == Some(x)
    ensures forall i :: 0 <= i < n && lookup(names[i]).Some? ==> lookup(names[i]).value in KnownUpTo(lookup, names, n)
  {
    if n > 0 {
      KnownUpToMembers(lookup, names, n - 1);
      var infos := KnownUpTo(lookup, names, n - 1);
      forall x | x in KnownUpTo(lookup, names, n) ensures exists i :: 0 <= i < n && lookup(names[i]) == Some(x) {
        if x !in infos {
          assert lookup(names[n - 1]) == Some(x);
        }
      }
    }
  }

  /** When every name is found the list has one info per name, in name order. */
  lemma {:induction false} KnownAll(lookup: string -> Option<LibraryInfo>, names: seq<string>, n: nat)
    requires n <= |names|
    requires forall i :: 0 <= i < n ==> lookup(names[i]).Some?
    ensures |KnownUpTo(lookup, names, n)| == n
    ensures forall i :: 0 <= i < n ==> KnownUpTo(lookup, names, n)[i] == lookup(names[i]).value
  {
    if n > 0 {
      KnownAll(lookup, names, n - 1);
    }
  }

  /** getMusicAnalysisLibraries */
  method GetMusicAnalysisLibraries() returns (libraryInfos: seq<LibraryInfo>)
    ensures libraryInfos == Known(MusicNames) && |libraryInfos| == 5
  {
    libraryInfos := CollectLibraries(MockLibraryInfo, MusicNames);
    AllMusicKnown();
  }

  /** getMovieAnalysisLibraries */
  method GetMovieAnalysisLibraries() returns (libraryInfos: seq<LibraryInfo>)
    ensures libraryInfos == Known(MovieNames) && |libraryInfos| == 4
  {
    libraryInfos := CollectLibraries(MockLibraryInfo, MovieNames);
    AllMovieKnown();
  }

  /** getFragranceAnalysisLibraries */
  method GetFragranceAnalysisLibraries() returns (libraryInfos: seq<LibraryInfo>)
    ensures libraryInfos == Known(FragranceNames) && |libraryInfos| == 3
  {
    libraryInfos := CollectLibraries(MockLibraryInfo, FragranceNames);
    AllFragranceKnown();
  }

  /** Every music name is in the table, so the music list is the table's first five entries. */
  lemma AllMusicKnown()
    ensures |Known(MusicNames)| == 5
    ensures forall i :: 0 <= i < 5 ==> Known(MusicNames)[i] == LibraryDatabase[i].1
  {
    forall i | 0 <= i < 5 ensures MockLibraryInfo(MusicNames[i]) == Some(LibraryDatabase[i].1) {
      KnownIndex(MusicNames, i, i);
    }
    KnownAll(MockLibraryInfo, MusicNames, 5);
  }

  /** Every movie name is in the table, so the movie list is entries 5 to 8. */
  lemma AllMovieKnown()
    ensures |Known(MovieNames)| == 4
    ensures forall i :: 0 <= i < 4 ==> Known(MovieNames)[i] == LibraryDatabase[5 + i].1
  {
    forall i | 0 <= i < 4 ensures MockLibraryInfo(MovieNames[i]) == Some(LibraryDatabase[5 + i].1) {
      KnownIndex(MovieNames, i, 5 + i);
    }
    KnownAll(MockLibraryInfo, MovieNames, 4);
  }

  /** Every fragrance name is in the table, so the fragrance list is the last three entries. */
  lemma AllFragranceKnown()
    ensures |Known(FragranceNames)| == 3
    ensures forall i :: 0 <= i < 3 ==> Known(FragranceNames)[i] == LibraryDatabase[9 + i].1
  {
    forall i | 0 <= i < 3 ensures MockLibraryInfo(FragranceNames[i]) == Some(LibraryDatabase[9 + i].1) {
      KnownIndex(FragranceNames, i, 9 + i);
    }
    KnownAll(MockLibraryInfo, FragranceNames, 3);
  }

  /** The table's keys are distinct, so a name found at entry `j` is looked up as entry `j`. */
  lemma KnownIndex(names: seq<string>, i: nat, j: nat)
    requires i < |names| && j < |LibraryDatabase| && LibraryDatabase[j].0 == names[i]
    ensures MockLibraryInfo(names[i]) == Some(LibraryDatabase[j].1)
  {
    KeysDistinct();
    IndexOfDistinctKey(LibraryDatabase, names[i], j);
  }

  lemma IndexOfDistinctKey(table: seq<(string, LibraryInfo)>, name: string, j: nat)
    requires j < |table| && table[j].0 == name
    requires forall a, b :: 0 <= a < b < |table| ==> table[a].0 != table[b].0
    ensures IndexFrom(table, name, 0) == j
  {
    var k := IndexFrom(table, name, 0);
    assert k <= j;
  }

  lemma KeysDistinct()
    ensures forall a, b :: 0 <= a < b < |LibraryDatabase| ==> LibraryDatabase[a].0 != LibraryDatabase[b].0
  {
  }

  const LibraryHeader: string := "## 전문 분석 도구 및 라이브러리 정보\n\n"
  const MusicToolsHeading: string := "### 🎵 음악 분석 전문 도구들\n\n"
  const MovieToolsHeading: string := "### 🎬 영화 분석 전문 도구들\n\n"
  const FragranceToolsHeading: string := "### 🧪 향수/화학 분석 전문 도구들\n\n"
  const LibraryClosing: string := "\n위의 전문 도구들의 분석 방법론을 참고하여 과학적이고 체계적인 분석을 진행해주세요.\n\n"

  function NameLine(lib: LibraryInfo): string {
    "**" + lib.name + "**: " + lib.description + "\n"
  }

  function UsageLine(lib: LibraryInfo): string {
    "분석 활용: " + lib.documentation + "\n\n"
  }

  /** The lines of the first `n` libraries: each name line directly followed by its usage line. */
  function LibEntries(libs: seq<LibraryInfo>, n: nat): string
    requires n <= |libs|
  {
    if n == 0 then "" else LibEntries(libs, n - 1) + (NameLine(libs[n - 1]) + UsageLine(libs[n - 1]))
  }

  /** A heading and the entries of a non-empty list; nothing for an empty one. */
  function LibSection(heading: string, libs: seq<LibraryInfo>): string {
    if |libs| > 0 then heading + LibEntries(libs, |libs|) else ""
  }

  /** The context formatLibraryInfoForAI returns: music, movie, then fragrance tools. */
  function LibraryContext(music: seq<LibraryInfo>, movie: seq<LibraryInfo>, fragrance: seq<LibraryInfo>): string {
    LibraryHeader
    + LibSection(MusicToolsHeading, music)
    + LibSection(MovieToolsHeading, movie)
    + LibSection(FragranceToolsHeading, fragrance)
    + LibraryClosing
  }

  lemma ConcatAssoc(a: string, b: string, c: string)
    ensures (a + b) + c == a + (b + c)
  {
  }

  /** One `if (libs.length > 0) { context += heading; libs.forEach(...) }`. */
  method AppendLibrarySection(context: string, heading: string, libs: seq<LibraryInfo>) returns (c: string)
    ensures c == context + LibSection(heading, libs)
  {
    c := context;
    if |libs| > 0 {
      c := c + heading;
      ghost var start := c;
      for idx := 0 to |libs|
        invariant c == start + LibEntries(libs, idx)
      {
        ConcatAssoc(start, LibEntries(libs, idx), NameLine(libs[idx]));
        c := c + NameLine(libs[idx]);
        ConcatAssoc(start + LibEntries(libs, idx), NameLine(libs[idx]), UsageLine(libs[idx]));
        ConcatAssoc(start, LibEntries(libs, idx), NameLine(libs[idx]) + UsageLine(libs[idx]));
        c := c + UsageLine(libs[idx]);
      }
      ConcatAssoc(context, heading, LibEntries(libs, |libs|));
    }
  }

  /** formatLibraryInfoForAI */
  method FormatLibraryInfoForAI(music: seq<LibraryInfo>, movie: seq<LibraryInfo>, fragrance: seq<LibraryInfo>)
    returns (context: string)
    ensures context == LibraryContext(music, movie, fragrance)
  {
    context := LibraryHeader;
    context := AppendLibrarySection(context, MusicToolsHeading, music);
    context := AppendLibrarySection(context, MovieToolsHeading, movie);
    context := AppendLibrarySection(context, FragranceToolsHeading, fragrance);
    context := context + LibraryClosing;
  }

  /** Every context starts with the header line and ends with the closing instruction. */
  lemma LibraryContextFrame(music: seq<LibraryInfo>, movie: seq<LibraryInfo>, fragrance: seq<LibraryInfo>)
    ensures LibraryHeader <= LibraryContext(music, movie, fragrance)
    ensures var c := LibraryContext(music, movie, fragrance);
      |c| >= |LibraryClosing| && c[|c| - |LibraryClosing|..] == LibraryClosing
  {
  }

  lemma PrefixExtend(a: string, b: string, e: string)
    requires a <= b
    ensures a <= b + e
  {
  }

  lemma {:induction false} LibEntriesPrefix(libs: seq<LibraryInfo>, m: nat, n: nat)
    requires m <= n <= |libs|
    ensures LibEntries(libs, m) <= LibEntries(libs, n)
    decreases n - m
  {
    if m < n {
      LibEntriesPrefix(libs, m, n - 1);
      PrefixExtend(LibEntries(libs, m), LibEntries(libs, n - 1), NameLine(libs[n - 1]) + UsageLine(libs[n - 1]));
    }
  }

  /** Each library's name line, followed directly by its usage line, is in the list's entries. */
  lemma LibEntriesContainEach(libs: seq<LibraryInfo>, i: nat)
    requires i < |libs|
    ensures OccursAt(LibEntries(libs, |libs|), NameLine(libs[i]) + UsageLine(libs[i]), |LibEntries(libs, i)|)
  {
    var e := NameLine(libs[i]) + UsageLine(libs[i]);
    var all := LibEntries(libs, |libs|);
    var before := LibEntries(libs, i);
    LibEntriesPrefix(libs, i + 1, |libs|);
    assert before + e <= all;
    assert all[|before|..|before| + |e|] == (before + e)[|before|..];
  }

  /** A section is present exactly when its list is non-empty. */
  lemma LibSectionPresent(heading: string, libs: seq<LibraryInfo>)
    requires heading != ""
    ensures LibSection(heading, libs) == "" <==> libs == []
    ensures libs != [] ==> heading <= LibSection(heading, libs)
  {
  }

  /**
   * getAllRelevantLibraries once its three lookups settle: `None` is a
   * lookup that failed, and any failure gives three empty lists.
   */
  function Settle(music: Option<seq<LibraryInfo>>, movie: Option<seq<LibraryInfo>>, fragrance: Option<seq<LibraryInfo>>)
    : (r: Libraries)
    ensures music.None? || movie.None? || fragrance.None? ==> r == Libraries([], [], [])
    ensures music.Some? && movie.Some? && fragrance.Some? ==> r == Libraries(music.value, movie.value, fragrance.value)
  {
    if music.Some? && movie.Some? && fragrance.Some? then Libraries(music.value, movie.value, fragrance.value)
    else Libraries([], [], [])
  }

  /** getAllRelevantLibraries: the lookups cannot fail, so the result is the three full lists. */
  method GetAllRelevantLibraries() returns (r: Libraries)
    ensures r == Libraries(Known(MusicNames), Known(MovieNames), Known(FragranceNames))
    ensures |r.music| == 5 && |r.movie| == 4 && |r.fragrance| == 3
  {
    var music := GetMusicAnalysisLibraries();
    var movie := GetMovieAnalysisLibraries();
    var fragrance := GetFragranceAnalysisLibraries();
    r := Settle(Some(music), Some(movie), Some(fragrance));
  }
}
