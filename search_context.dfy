/**
 * formatSearchDataForAI: the web-search results rendered as the context
 * block of the analysis prompt.  Each result becomes a numbered entry with
 * its title and the start of its text; a group of results gets its heading
 * only when it is non-empty.
 */
module SearchContext {
  import opened Wrappers
  import opened Text
  import opened Lists
  import opened Search

  datatype MusicSearchData = MusicSearchData(
    basicInfo: seq<SearchResult>,
    lyrics: seq<SearchResult>,
    analysis: seq<SearchResult>,
    artistInfo: seq<SearchResult>)

  const Header: string := "## 웹 검색을 통해 수집된 실제 데이터\n\n"
  const Closing: string := "\n---\n위의 실제 웹 데이터를 참고하여 더욱 정확하고 전문적인 분석을 진행해주세요.\n\n"
  const MovieHeading: string := "### 🎬 영화 관련 정보\n\n"
  const MusicHeading: string := "### 🎵 음악 관련 정보\n\n"
  const FragranceHeading: string := "### 🌸 향수 전문 지식\n\n"

  /** `**${tag} ${n}**: ${r.title}\n${r.text.slice(0, limit)}...\n\n` */
  function Entry(tag: string, n: nat, r: SearchResult, limit: nat): string {
    "**" + tag + " " + NatToString(n) + "**: " + r.title + "\n" + Take(r.text, limit) + "...\n\n"
  }

  /** The entries of the first `n` results, numbered from 1. */
  function EntriesUpTo(tag: string, rs: seq<SearchResult>, limit: nat, n: nat): string
    requires n <= |rs|
  {
    if n == 0 then "" else EntriesUpTo(tag, rs, limit, n - 1) + Entry(tag, n, rs[n - 1], limit)
  }

  /** A heading and all entries of a non-empty group; nothing for an empty one. */
  function Section(heading: string, tag: string, rs: seq<SearchResult>, limit: nat): string {
    if |rs| > 0 then heading + EntriesUpTo(tag, rs, limit, |rs|) else ""
  }

  function MovieBlock(m: Option<MovieSearchData>): string {
    match m
    case None => ""
    case Some(d) =>
      MovieHeading
      + Section("#### 기본 정보:\n", "자료", d.basicInfo, 800)
      + Section("#### 리뷰 및 평가:\n", "리뷰", d.reviews, 600)
      + Section("#### 전문 분석:\n", "분석", d.analysis, 800)
  }

  function MusicBlock(m: Option<MusicSearchData>): string {
    match m
    case None => ""
    case Some(d) =>
      MusicHeading
      + Section("#### 기본 정보:\n", "자료", d.basicInfo, 800)
      + Section("#### 가사 정보:\n", "가사", d.lyrics, 1000)
      + Section("#### 음악 분석:\n", "분석", d.analysis, 800)
      + Section("#### 아티스트 정보:\n", "아티스트", d.artistInfo, 600)
  }

  function FragranceBlock(f: Option<seq<SearchResult>>): string {
    if f.Some? && |f.value| > 0 then Section(FragranceHeading, "전문지식", f.value, 800) else ""
  }

  /** The whole context the function returns. */
  function Context(movie: Option<MovieSearchData>, music: Option<MusicSearchData>, fragrance: Option<seq<SearchResult>>): string {
    Header + MovieBlock(movie) + MusicBlock(music) + FragranceBlock(fragrance) + Closing
  }

  lemma ConcatAssoc(a: string, b: string, c: string)
    ensures (a + b) + c == a + (b + c)
  {
  }

  /** One `forEach` loop appending the entries of `rs` to `context`. */
  method AppendEntries(context: string, tag: string, rs: seq<SearchResult>, limit: nat) returns (c: string)
    ensures c == context + EntriesUpTo(tag, rs, limit, |rs|)
  {
    c := context;
    for idx := 0 to |rs|
      invariant c == context + EntriesUpTo(tag, rs, limit, idx)
    {
      ConcatAssoc(context, EntriesUpTo(tag, rs, limit, idx), Entry(tag, idx + 1, rs[idx], limit));
      c := c + Entry(tag, idx + 1, rs[idx], limit);
    }
  }

  /** `if (rs.length > 0) { context += heading; rs.forEach(...) }` */
  method AppendSection(context: string, heading: string, tag: string, rs: seq<SearchResult>, limit: nat)
    returns (c: string)
    ensures c == context + Section(heading, tag, rs, limit)
  {
    c := context;
    if |rs| > 0 {
      c := c + heading;
      c := AppendEntries(c, tag, rs, limit);
    }
  }

  /**
   * formatSearchDataForAI.  Each data group's text is gathered in `block`
   * and then appended, which appends the same text as the source's
   * successive `context +=`.
   */
  method FormatSearchDataForAI(movie: Option<MovieSearchData>, music: Option<MusicSearchData>, fragrance: Option<seq<SearchResult>>)
    returns (context: string)
    ensures context == Context(movie, music, fragrance)
  {
    context := Header;
    var block := "";
    if movie.Some? {
      var d := movie.value;
      block := MovieHeading;
      block := AppendSection(block, "#### 기본 정보:\n", "자료", d.basicInfo, 800);
      block := AppendSection(block, "#### 리뷰 및 평가:\n", "리뷰", d.reviews, 600);
      block := AppendSection(block, "#### 전문 분석:\n", "분석", d.analysis, 800);
    }
    context := context + block;
    block := "";
    if music.Some? {
      var d := music.value;
      block := MusicHeading;
      block := AppendSection(block, "#### 기본 정보:\n", "자료", d.basicInfo, 800);
      block := AppendSection(block, "#### 가사 정보:\n", "가사", d.lyrics, 1000);
      block := AppendSection(block, "#### 음악 분석:\n", "분석", d.analysis, 800);
      block := AppendSection(block, "#### 아티스트 정보:\n", "아티스트", d.artistInfo, 600);
    }
    context := context + block;
    block := "";
    if fragrance.Some? && |fragrance.value| > 0 {
      block := AppendEntries(FragranceHeading, "전문지식", fragrance.value, 800);
    }
    context := context + block;
    context := context + Closing;
  }

  lemma PrefixExtend(a: string, b: string, e: string)
    requires a <= b
    ensures a <= b + e
  {
  }

  /** The entries of a prefix of the results are a prefix of the entries. */
  lemma {:induction false} EntriesUpToPrefix(tag: string, rs: seq<SearchResult>, limit: nat, m: nat, n: nat)
    requires m <= n <= |rs|
    ensures EntriesUpTo(tag, rs, limit, m) <= EntriesUpTo(tag, rs, limit, n)
    decreases n - m
  {
    if m < n {
      EntriesUpToPrefix(tag, rs, limit, m, n - 1);
      EntriesUpToStep(tag, rs, limit, n);
      PrefixTrans(EntriesUpTo(tag, rs, limit, m), EntriesUpTo(tag, rs, limit, n - 1), EntriesUpTo(tag, rs, limit, n));
    }
  }

  lemma EntriesUpToStep(tag: string, rs: seq<SearchResult>, limit: nat, n: nat)
    requires 0 < n <= |rs|
    ensures EntriesUpTo(tag, rs, limit, n - 1) <= EntriesUpTo(tag, rs, limit, n)
  {
    PrefixExtend(EntriesUpTo(tag, rs, limit, n - 1), EntriesUpTo(tag, rs, limit, n - 1), Entry(tag, n, rs[n - 1], limit));
  }

  lemma PrefixTrans(a: string, b: string, c: string)
    requires a <= b && b <= c
    ensures a <= c
  {
  }

  lemma OccursAfterPrefix(all: string, before: string, e: string)
    requires before + e <= all
    ensures OccursAt(all, e, |before|)
  {
    assert all[|before|..|before| + |e|] == (before + e)[|before|..];
  }

  /** Every result's entry, with the start of its text, is in the rendered group. */
  lemma EntriesContainEach(tag: string, rs: seq<SearchResult>, limit: nat, i: nat)
    requires i < |rs|
    ensures Contains(EntriesUpTo(tag, rs, limit, |rs|), Entry(tag, i + 1, rs[i], limit))
  {
    var before := EntriesUpTo(tag, rs, limit, i);
    var e := Entry(tag, i + 1, rs[i], limit);
    var all := EntriesUpTo(tag, rs, limit, |rs|);
    EntriesUpToPrefix(tag, rs, limit, i + 1, |rs|);
    OccursAfterPrefix(all, before, e);
  }

  /** An entry shows the result's title and at most `limit` characters from the start of its text. */
  lemma EntryShowsResult(tag: string, n: nat, r: SearchResult, limit: nat)
    ensures Contains(Entry(tag, n, r, limit), r.title)
    ensures Contains(Entry(tag, n, r, limit), Take(r.text, limit)) && |Take(r.text, limit)| <= limit
  {
    var head := "**" + tag + " " + NatToString(n) + "**: ";
    var t := Take(r.text, limit);
    var e := Entry(tag, n, r, limit);
    assert e == head + r.title + "\n" + t + "...\n\n";
    assert e[|head|..|head| + |r.title|] == r.title;
    assert OccursAt(e, r.title, |head|);
    assert e[|head| + |r.title| + 1..|head| + |r.title| + 1 + |t|] == t;
    assert OccursAt(e, t, |head| + |r.title| + 1);
  }

  /** No fragrance list and an empty one render the same context. */
  lemma FragranceEmptyIsAbsent(movie: Option<MovieSearchData>, music: Option<MusicSearchData>)
    ensures Context(movie, music, Some([])) == Context(movie, music, None)
  {
  }

  /** Every context starts with the header and ends with the closing instruction. */
  lemma ContextFrame(movie: Option<MovieSearchData>, music: Option<MusicSearchData>, fragrance: Option<seq<SearchResult>>)
    ensures Header <= Context(movie, music, fragrance)
    ensures var c := Context(movie, music, fragrance); |c| >= |Closing| && c[|c| - |Closing|..] == Closing
  {
    Framed(Header, MovieBlock(movie), MusicBlock(music), FragranceBlock(fragrance), Closing);
  }

  lemma Framed(h: string, a: string, b: string, c: string, z: string)
    ensures h <= h + a + b + c + z
    ensures var all := h + a + b + c + z; |all| >= |z| && all[|all| - |z|..] == z
  {
    var all := h + a + b + c + z;
    assert all == (h + a + b + c) + z;
  }
}
