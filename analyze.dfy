/**
 * The analyze-preferences route: the survey answers written into the
 * analysis prompt, the model's reply cleaned of code fences and parsed,
 * and the responses for a reply that does not parse and for any other
 * failure.
 */
module AnalyzePreferences {
  import opened Wrappers
  import opened Text
  import opened Lists

  /** The request body; a field the client left out is None. */
  datatype PreferenceData = PreferenceData(
    movieGenres: Option<seq<string>>,
    musicTitle: Option<string>,
    musicArtist: Option<string>,
    youtubeLink: Option<string>,
    likedFragrances: Option<seq<string>>,
    dislikedFragrances: Option<seq<string>>,
    musicMeaning: Option<string>,
    movieMeaning: Option<string>,
    personalDescription: Option<string>)

  /** The response; `A` is whatever the parsed analysis is. */
  datatype Response<A> =
    | Success(analysis: A)
    | Failure(status: int, error: string, debug: Option<string>)

  const NoInfo: string := "정보 없음"
  const ParseError: string := "AI 응답 형식 오류가 발생했습니다. 다시 시도해주세요."
  const GenericError: string := "취향 분석 중 오류가 발생했습니다. 잠시 후 다시 시도해주세요."
  const DebugLength: nat := 500

  /** The prompt's text up to the user data. */
  const Intro: string := "\n당신은 세계적인 향수 전문가이자 심리 분석가입니다. 20년 이상의 경험을 바탕으로 다음 사용자의 깊이 있는 분석을 진행해주세요.\n\n[사용자 데이터]\n"

  /** The prompt's text after the user data: the analysis requirements and the JSON shape to answer in. */
  const Instructions: string :=
    "\n" +
    "[분석 요구사항]\n" +
    "다음 JSON 구조로 정확히 응답해주세요. 절대 마크다운이나 추가 텍스트 없이 순수 JSON만 반환하세요.\n" +
    "\n" +
    "영화 장르 분석 시 고려사항:\n" +
    "- 코미디: 사회적 연결 욕구, 긍정적 에너지 추구, 스트레스 해소 패턴\n" +
    "- 로맨스: 감정적 깊이, 이상화 경향, 인간관계에 대한 믿음\n" +
    "- 공포/스릴러: 아드레날린 추구, 통제 욕구, 현실 도피 성향\n" +
    "- 판타지/SF: 상상력, 현실 불만족, 미래 지향적 사고\n" +
    "- 뮤지컬: 감성적 표현 욕구, 예술적 성향, 집단 소속감\n" +
    "- 느와르/갱스터: 복잡성 추구, 도덕적 모호함 수용, 권력에 대한 관심\n" +
    "\n" +
    "음악 분석 시 고려사항:\n" +
    "- 장르별 심리적 특성 (팝, 록, 발라드, 힙합, 클래식 등)\n" +
    "- 가사의 감정적 메시지\n" +
    "- 리듬과 멜로디가 주는 에너지\n" +
    "- 개인적 기억과의 연관성\n" +
    "- 정체성 표현 방식\n" +
    "\n" +
    "향수 추천 시 고려사항:\n" +
    "- 사용자가 싫어하는 향 계열은 절대 제외\n" +
    "- 심리적 성향과 향의 화학적 특성 매칭\n" +
    "- 실제 존재하는 유명 향수 브랜드와 제품명 사용\n" +
    "- 계절감과 상황적 적합성\n" +
    "- 개인의 라이프스타일과의 조화\n" +
    "\n" +
    "{\n" +
    "  \"personalityAnalysis\": {\n" +
    "    \"corePersonality\": \"핵심 성격 특성 (50자 이내)\",\n" +
    "    \"emotionalDepth\": \"감정적 깊이와 처리 방식 (60자 이내)\", \n" +
    "    \"socialTendency\": \"사회적 성향과 관계 패턴 (60자 이내)\",\n" +
    "    \"aestheticPreference\": \"미적 취향과 감각적 선호 (60자 이내)\",\n" +
    "    \"lifestylePattern\": \"라이프스타일 패턴과 가치관 (60자 이내)\"\n" +
    "  },\n" +
    "  \"movieAnalysis\": {\n" +
    "    \"psychologicalDriver\": \"영화 선택의 심리적 동기 (80자 이내)\",\n" +
    "    \"emotionalNeeds\": \"영화를 통해 충족하려는 감정적 욕구 (80자 이내)\",\n" +
    "    \"cognitiveStyle\": \"인지 스타일과 정보 처리 방식 (80자 이내)\",\n" +
    "    \"escapismPattern\": \"현실 도피 패턴과 이상향 (80자 이내)\"\n" +
    "  },\n" +
    "  \"musicAnalysis\": {\n" +
    "    \"emotionalResonance\": \"음악과의 감정적 공명 양상 (80자 이내)\",\n" +
    "    \"memoryAssociation\": \"기억과 음악의 연관성 패턴 (80자 이내)\",\n" +
    "    \"energyAlignment\": \"음악 에너지와 개인 에너지의 정렬 (80자 이내)\",\n" +
    "    \"identityExpression\": \"음악을 통한 정체성 표현 방식 (80자 이내)\"\n" +
    "  },\n" +
    "  \"fragranceRecommendations\": [\n" +
    "    {\n" +
    "      \"name\": \"실제 향수명\",\n" +
    "      \"brand\": \"실제 브랜드명\",\n" +
    "      \"fragranceFamily\": \"향 계열 (플로럴, 우디, 오리엔탈 등)\",\n" +
    "      \"topNotes\": [\"탑노트1\", \"탑노트2\", \"탑노트3\"],\n" +
    "      \"middleNotes\": [\"미들노트1\", \"미들노트2\", \"미들노트3\"],\n" +
    "      \"baseNotes\": [\"베이스노트1\", \"베이스노트2\", \"베이스노트3\"],\n" +
    "      \"personality\": \"이 향수가 표현하는 성격 (40자 이내)\",\n" +
    "      \"situation\": \"추천 상황 (30자 이내)\",\n" +
    "      \"season\": \"추천 계절 (20자 이내)\",\n" +
    "      \"reasonForRecommendation\": \"추천 이유와 심리적 매칭 (100자 이내)\",\n" +
    "      \"psychologicalMatch\": \"심리적 일치도 설명 (80자 이내)\"\n" +
    "    }\n" +
    "  ],\n" +
    "  \"lifestyleAdvice\": {\n" +
    "    \"dailyRoutine\": \"일상 루틴에 대한 조언 (100자 이내)\",\n" +
    "    \"socialInteraction\": \"사회적 상호작용 방식 조언 (100자 이내)\",\n" +
    "    \"personalGrowth\": \"개인 성장을 위한 제안 (100자 이내)\",\n" +
    "    \"fragranceUsage\": \"향수 사용법과 타이밍 조언 (100자 이내)\"\n" +
    "  }\n" +
    "}\n"

  /** `${x || '정보 없음'}` for a string field. */
  function Field(x: Option<string>): (r: string)
    ensures x.Some? && x.value != "" ==> r == x.value
    ensures x.None? || x.value == "" ==> r == NoInfo
  {
    if x.Some? && x.value != "" then x.value else NoInfo
  }

  /** `${xs?.join(', ') || '정보 없음'}` for a list field. */
  function ListField(xs: Option<seq<string>>): (r: string)
    ensures xs.None? || Join(xs.value, ", ") == "" ==> r == NoInfo
    ensures xs.Some? && Join(xs.value, ", ") != "" ==> r == Join(xs.value, ", ")
  {
    Field(if xs.Some? then Some(Join(xs.value, ", ")) else None)
  }

  /** `${x}` for a field that may be absent: an absent one reads "undefined". */
  function Interpolated(x: Option<string>): string {
    if x.Some? then x.value else "undefined"
  }

  /** The music line: "title - artist" when a title was given, the default otherwise. */
  function MusicField(d: PreferenceData): (r: string)
    ensures d.musicTitle.Some? && d.musicTitle.value != "" ==> r == d.musicTitle.value + " - " + Interpolated(d.musicArtist)
    ensures d.musicTitle.None? || d.musicTitle.value == "" ==> r == NoInfo
  {
    if d.musicTitle.Some? && d.musicTitle.value != "" then d.musicTitle.value + " - " + Interpolated(d.musicArtist) else NoInfo
  }

  /** The seven user-data lines, in prompt order. */
  function DataLines(d: PreferenceData): seq<string> {
    [ "선호 영화 장르: " + ListField(d.movieGenres) + "\n",
      "좋아하는 음악: " + MusicField(d) + "\n",
      "선호 향 계열: " + ListField(d.likedFragrances) + "\n",
      "비선호 향 계열: " + ListField(d.dislikedFragrances) + "\n",
      "음악의 개인적 의미: " + Field(d.musicMeaning) + "\n",
      "영화 장르의 개인적 의미: " + Field(d.movieMeaning) + "\n",
      "자기 표현: " + Field(d.personalDescription) + "\n" ]
  }

  /** The lines joined in order. */
  function Concat(ls: seq<string>): string {
    if ls == [] then "" else ls[0] + Concat(ls[1..])
  }

  function Prompt(d: PreferenceData): string {
    Intro + Concat(DataLines(d)) + Instructions
  }

  /** Each user-data line sits in the prompt, at its place after the ones before it. */
  lemma PromptShowsData(d: PreferenceData, k: nat)
    requires k < 7
    ensures OccursAt(Prompt(d), DataLines(d)[k], |Intro| + |Concat(DataLines(d)[..k])|)
  {
    LineInConcat(Intro, DataLines(d), Instructions, k);
  }

  lemma LineInConcat(pre: string, ls: seq<string>, post: string, k: nat)
    requires k < |ls|
    ensures OccursAt(pre + Concat(ls) + post, ls[k], |pre| + |Concat(ls[..k])|)
  {
    ConcatSplit(ls, k);
    assert ls[k..][1..] == ls[k + 1..];
    var before := pre + Concat(ls[..k]);
    var all := pre + Concat(ls) + post;
    assert all == before + ls[k] + (Concat(ls[k + 1..]) + post);
    assert all[|before|..|before| + |ls[k]|] == ls[k];
  }

  lemma {:induction false} ConcatSplit(ls: seq<string>, k: nat)
    requires k <= |ls|
    ensures Concat(ls) == Concat(ls[..k]) + Concat(ls[k..])
  {
    if k > 0 {
      assert ls[1..][..k - 1] == ls[1..k];
      assert ls[1..][k - 1..] == ls[k..];
      ConcatSplit(ls[1..], k - 1);
      assert ls[..k] == [ls[0]] + ls[1..k];
      assert Concat(ls[..k]) == ls[0] + Concat(ls[..k][1..]);
      assert ls[..k][1..] == ls[1..k];
    } else {
      assert ls[k..] == ls;
    }
  }

  // ---------------------------------------------------------------- cleaning the reply

  /** `s.replace(/pat/g, '')`: the matches, found left to right without overlap, removed. */
  function RemoveAll(s: string, pat: string): (r: string)
    requires pat != []
    ensures |r| <= |s|
    decreases |s|
  {
    if s == [] then []
    else if OccursAt(s, pat, 0) then RemoveAll(s[|pat|..], pat)
    else [s[0]] + RemoveAll(s[1..], pat)
  }

  /** The fence-stripping chain applied to the model's reply before parsing. */
  function Clean(text: string): string {
    Trim(RemoveAll(RemoveAll(text, "```json"), "```"))
  }

  /** Three backticks in a row. */
  predicate FenceAt(s: string, i: int) {
    0 <= i && i + 3 <= |s| && s[i] == '`' && s[i + 1] == '`' && s[i + 2] == '`'
  }

  predicate NoFence(s: string) {
    forall i :: 0 <= i < |s| ==> !FenceAt(s, i)
  }

  /** The number of backticks `s` starts with. */
  function LeadingTicks(s: string): (n: nat)
    ensures n <= |s|
  {
    if s != [] && s[0] == '`' then 1 + LeadingTicks(s[1..]) else 0
  }

  lemma FenceIsOccurrence(s: string, i: int)
    ensures OccursAt(s, "```", i) <==> FenceAt(s, i)
  {
    if 0 <= i && i + 3 <= |s| {
      var w := s[i..i + 3];
      assert w[0] == s[i] && w[1] == s[i + 1] && w[2] == s[i + 2];
      if FenceAt(s, i) {
        assert w == "```";
      }
    }
  }

  lemma FenceLeading(s: string)
    ensures FenceAt(s, 0) ==> LeadingTicks(s) >= 3
    ensures FenceAt(s, 0) ==> LeadingTicks(s) == 3 + LeadingTicks(s[3..])
  {
    if FenceAt(s, 0) {
      assert s[1..][0] == '`' && s[1..][1..][0] == '`';
      assert s[1..][1..][1..] == s[3..];
      assert LeadingTicks(s[1..][1..]) == 1 + LeadingTicks(s[3..]);
      assert LeadingTicks(s[1..]) == 1 + LeadingTicks(s[1..][1..]);
      assert LeadingTicks(s) == 1 + LeadingTicks(s[1..]);
    }
  }

  /** Two leading backticks are the first two characters. */
  lemma TwoTicks(s: string)
    ensures LeadingTicks(s) >= 2 ==> s[0] == '`' && s[1] == '`'
  {
    if LeadingTicks(s) >= 2 {
      assert LeadingTicks(s[1..]) >= 1;
      assert s[1..][0] == '`';
    }
  }

  /**
   * After the global removal of "```" no three backticks are left in a row:
   * a run of backticks loses whole triples and keeps fewer than three.
   */
  lemma {:induction false} RemoveFencesLeavesNone(s: string)
    ensures NoFence(RemoveAll(s, "```"))
    ensures LeadingTicks(RemoveAll(s, "```")) == LeadingTicks(s) % 3
    decreases |s|
  {
    var r := RemoveAll(s, "```");
    FenceIsOccurrence(s, 0);
    if s == [] {
    } else if FenceAt(s, 0) {
      RemoveFencesLeavesNone(s[3..]);
      FenceLeading(s);
    } else {
      RemoveFencesLeavesNone(s[1..]);
      assert r == [s[0]] + RemoveAll(s[1..], "```");
      PrependKeepsNoFence(s, RemoveAll(s[1..], "```"));
    }
  }

  /** A first character that starts no fence, put in front of the rest once its fences are gone. */
  lemma PrependKeepsNoFence(s: string, t: string)
    requires s != [] && !FenceAt(s, 0)
    requires NoFence(t) && LeadingTicks(t) == LeadingTicks(s[1..]) % 3
    ensures NoFence([s[0]] + t) && LeadingTicks([s[0]] + t) == LeadingTicks(s) % 3
  {
    var r := [s[0]] + t;
    assert r[1..] == t;
    FenceLeading(r);
    if s[0] == '`' {
      // s starts with one or two backticks
      assert LeadingTicks(s) == 1 + LeadingTicks(s[1..]);
      TwoTicks(s[1..]);
      assert |s| < 3 || s[1..][0] != '`' || s[1..][1] != '`';
      assert LeadingTicks(s[1..]) < 2;
      assert LeadingTicks(r) == 1 + LeadingTicks(t);
    }
    forall i | 0 <= i < |r| ensures !FenceAt(r, i) {
      if i > 0 {
        assert FenceAt(r, i) ==> FenceAt(t, i - 1);
      }
    }
  }

  /** A fence inside a slice is a fence of the whole string. */
  lemma NoFenceSlice(s: string, a: nat, b: nat)
    requires a <= b <= |s| && NoFence(s)
    ensures NoFence(s[a..b])
  {
    forall i | 0 <= i < b - a ensures !FenceAt(s[a..b], i) {
      assert FenceAt(s[a..b], i) ==> FenceAt(s, a + i);
    }
  }

  /** Trimming a text without three backticks in a row leaves none. */
  lemma TrimKeepsNoFence(m: string)
    requires NoFence(m)
    ensures !Contains(Trim(m), "```")
  {
    var c := Trim(m);
    NoFenceSlice(m, LeadingSpaces(m), LeadingSpaces(m) + |c|);
    assert NoFence(c);
    forall i | 0 <= i <= |c| - 3 ensures !OccursAt(c, "```", i) {
      FenceIsOccurrence(c, i);
    }
  }

  /** The cleaned reply contains no "```" and has no leading or trailing whitespace. */
  lemma CleanHasNoFence(text: string)
    ensures !Contains(Clean(text), "```")
    ensures var c := Clean(text); c == [] || (!IsSpace(c[0]) && !IsSpace(c[|c| - 1]))
  {
    var m := RemoveAll(RemoveAll(text, "```json"), "```");
    RemoveFencesLeavesNone(RemoveAll(text, "```json"));
    TrimKeepsNoFence(m);
  }

  /** Removing a pattern that does not occur leaves the text as it is. */
  lemma {:induction false} RemoveAllAbsent(s: string, pat: string)
    requires pat != [] && !Contains(s, pat)
    ensures RemoveAll(s, pat) == s
    decreases |s|
  {
    if s != [] {
      assert !OccursAt(s, pat, 0);
      forall i | 0 <= i <= |s[1..]| - |pat| ensures !OccursAt(s[1..], pat, i) {
        var w := s[1..];
        assert w[i..i + |pat|] == s[1 + i..1 + i + |pat|];
        assert !OccursAt(s, pat, 1 + i);
      }
      RemoveAllAbsent(s[1..], pat);
    }
  }

  /** A reply without "```" is only trimmed. */
  lemma CleanWithoutFence(text: string)
    requires !Contains(text, "```")
    ensures Clean(text) == Trim(text)
  {
    forall i | 0 <= i <= |text| - 7 ensures !OccursAt(text, "```json", i) {
      assert text[i..i + 3] == text[i..i + 7][..3];
      assert !OccursAt(text, "```", i);
    }
    RemoveAllAbsent(text, "```json");
    RemoveAllAbsent(text, "```");
  }

  // ---------------------------------------------------------------- the handler

  /**
   * POST.  `body` is None when the request is not JSON; `generate` is the
   * model call, None when it throws; `parse` is `JSON.parse`, None when it
   * throws.
   */
  function Post<A>(body: Option<PreferenceData>, generate: string -> Option<string>, parse: string -> Option<A>)
    : (r: Response<A>)
    ensures body.None? ==> r == Failure(500, GenericError, None)
    ensures body.Some? && generate(Prompt(body.value)).None? ==> r == Failure(500, GenericError, None)
    ensures body.Some? && generate(Prompt(body.value)).Some? ==>
      var text := generate(Prompt(body.value)).value;
      && (parse(Clean(text)).None? ==> r == Failure(500, ParseError, Some(Take(text, DebugLength))))
      && (parse(Clean(text)).Some? ==> r == Success(parse(Clean(text)).value))
    ensures r.Failure? ==> r.status == 500
    ensures r.Failure? && r.debug.Some? ==> r.error == ParseError && |r.debug.value| <= DebugLength
    ensures r.Failure? && r.error == GenericError ==> r.debug.None?
  {
    if body.None? then Failure(500, GenericError, None)
    else
      match generate(Prompt(body.value))
      case None => Failure(500, GenericError, None)
      case Some(text) =>
        match parse(Clean(text))
        case None => Failure(500, ParseError, Some(Take(text, DebugLength)))
        case Some(a) => Success(a)
  }

  /** The debug text is the start of the raw reply, the whole reply when it is short. */
  lemma DebugIsReplyStart(text: string)
    ensures Take(text, DebugLength) <= text
    ensures |text| <= DebugLength ==> Take(text, DebugLength) == text
    ensures |text| > DebugLength ==> |Take(text, DebugLength)| == DebugLength
  {
  }
}
