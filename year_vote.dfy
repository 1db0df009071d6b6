/**
 * The release-year vote of extractMovieFacts: every four-digit year
 * 1900-2099 in a document's text adds a score weighted by the release
 * keywords around it, a valid published-date year adds 1, and the year with
 * the highest total wins, the smallest year on a tie.
 */
module YearVote {
  import opened Wrappers
  import opened Text
  import opened Sorting
  import opened Search

  const StrongKeywords: seq<string> := ["개봉", "공개", "개봉일", "출시", "release", "released", "premiere", "theatrical"]
  const JapaneseStrongKeywords: seq<string> := ["公開", "上映", "初公開"]
  const WeakKeywords: seq<string> := ["영화제", "festival", "시사회", "프리미어"]

  /** The per-year totals, `yearScores`, keyed by the year's numeric value. */
  type Scores = map<nat, int>

  function Digit(c: char): nat
    requires IsDigit(c)
  {
    c as int - '0' as int
  }

  /** `(19\d{2}|20\d{2})` matches at `i`. */
  predicate YearAt(s: string, i: nat) {
    && i + 4 <= |s|
    && ((s[i] == '1' && s[i + 1] == '9') || (s[i] == '2' && s[i + 1] == '0'))
    && IsDigit(s[i + 2]) && IsDigit(s[i + 3])
  }

  /** The value of the four digits at `i`. */
  function YearValue(s: string, i: nat): (y: nat)
    requires YearAt(s, i)
    ensures 1900 <= y <= 2099
  {
    Digit(s[i]) * 1000 + Digit(s[i + 1]) * 100 + Digit(s[i + 2]) * 10 + Digit(s[i + 3])
  }

  lemma DigitCharOfDigit(c: char)
    requires IsDigit(c)
    ensures DigitChar(Digit(c)) == c
  {
    if c == '0' {} else if c == '1' {} else if c == '2' {} else if c == '3' {} else if c == '4' {}
    else if c == '5' {} else if c == '6' {} else if c == '7' {} else if c == '8' {} else {}
  }

  /** The winning key rendered with `String` is the text the scanner matched. */
  lemma YearValueText(s: string, i: nat)
    requires YearAt(s, i)
    ensures NatToString(YearValue(s, i)) == s[i..i + 4]
  {
    FourDigitText(Digit(s[i]), Digit(s[i + 1]), Digit(s[i + 2]), Digit(s[i + 3]), YearValue(s, i));
    DigitCharOfDigit(s[i]);
    DigitCharOfDigit(s[i + 1]);
    DigitCharOfDigit(s[i + 2]);
    DigitCharOfDigit(s[i + 3]);
    assert s[i..i + 4] == [s[i], s[i + 1], s[i + 2], s[i + 3]];
  }

  /** The decimal text of a four-digit number is its four digits. */
  lemma FourDigitText(a: nat, b: nat, c: nat, d: nat, n: nat)
    requires 1 <= a < 10 && b < 10 && c < 10 && d < 10
    requires n == a * 1000 + b * 100 + c * 10 + d
    ensures NatToString(n) == [DigitChar(a), DigitChar(b), DigitChar(c), DigitChar(d)]
  {
    var abc := (a * 10 + b) * 10 + c;
    ThreeDigitText(a, b, c);
    assert n == abc * 10 + d;
    NatToStringDigit(abc, d);
  }

  lemma ThreeDigitText(a: nat, b: nat, c: nat)
    requires 1 <= a < 10 && b < 10 && c < 10
    ensures NatToString((a * 10 + b) * 10 + c) == [DigitChar(a), DigitChar(b), DigitChar(c)]
  {
    var ab := a * 10 + b;
    assert NatToString(a) == [DigitChar(a)];
    NatToStringDigit(a, b);
    assert NatToString(ab) == [DigitChar(a), DigitChar(b)];
    NatToStringDigit(ab, c);
  }

  /** Appending a digit to the decimal text of a positive number. */
  lemma NatToStringDigit(n: nat, d: nat)
    requires 1 <= n && d < 10
    ensures NatToString(n * 10 + d) == NatToString(n) + [DigitChar(d)]
  {
    assert (n * 10 + d) / 10 == n && (n * 10 + d) % 10 == d;
  }

  /** `String(year)` of a year 1900-2099 is four digits that read back as the year. */
  lemma YearText(y: nat)
    requires 1900 <= y <= 2099
    ensures |NatToString(y)| == 4 && YearAt(NatToString(y), 0) && YearValue(NatToString(y), 0) == y
  {
    var a, b, c, d := y / 1000, (y / 100) % 10, (y / 10) % 10, y % 10;
    assert y / 100 == a * 10 + b && y / 10 == (a * 10 + b) * 10 + c && y == ((a * 10 + b) * 10 + c) * 10 + d;
    assert a == 1 || a == 2;
    assert a == 1 ==> b == 9;
    assert a == 2 ==> b == 0;
    assert (y / 100) / 10 == a && (y / 10) / 10 == y / 100 && y / 10 % 10 == c;
    assert NatToString(a) == [DigitChar(a)];
    assert NatToString(y / 100) == [DigitChar(a)] + [DigitChar(b)];
    assert NatToString(y / 10) == [DigitChar(a)] + [DigitChar(b)] + [DigitChar(c)];
    var t := NatToString(y);
    assert t == [DigitChar(a)] + [DigitChar(b)] + [DigitChar(c)] + [DigitChar(d)];
    assert Digit(DigitChar(a)) == a && Digit(DigitChar(b)) == b && Digit(DigitChar(c)) == c && Digit(DigitChar(d)) == d by {
      DigitOfDigitChar(a);
      DigitOfDigitChar(b);
      DigitOfDigitChar(c);
      DigitOfDigitChar(d);
    }
  }

  lemma DigitOfDigitChar(d: nat)
    requires d < 10
    ensures Digit(DigitChar(d)) == d
  {
  }

  /** `content.slice(max(0, idx - 40), min(content.length, idx + 40)).toLowerCase()` */
  function Window(u: Unicode, content: string, idx: nat): string
    requires idx <= |content|
  {
    var start := if idx >= 40 then idx - 40 else 0;
    var end := if idx + 40 <= |content| then idx + 40 else |content|;
    u.lower(content[start..end])
  }

  /** The weight of one year mention, from the keywords in its window. */
  function MatchScore(u: Unicode, window: string, directorHint: Option<string>): (score: int)
    ensures 1 <= score <= 9
    ensures ContainsAny(window, StrongKeywords) || ContainsAny(window, JapaneseStrongKeywords) ==> score >= 4
  {
    1
    + (if ContainsAny(window, StrongKeywords) then 3 else 0)
    + (if ContainsAny(window, JapaneseStrongKeywords) then 3 else 0)
    + (if ContainsAny(window, WeakKeywords) then 1 else 0)
    + (if directorHint.Some? && directorHint.value != "" && Contains(window, u.lower(directorHint.value)) then 1 else 0)
  }

  /** addScore */
  function AddScore(scores: Scores, year: nat, inc: int): (r: Scores)
    ensures r.Keys == scores.Keys + {year}
    ensures r[year] == (if year in scores then scores[year] else 0) + inc
    ensures forall y :: y in scores && y != year ==> r[y] == scores[y]
  {
    scores[year := (if year in scores then scores[year] else 0) + inc]
  }

  /** `${doc.title || ''} ${doc.text || ''}` */
  function Content(doc: SearchResult): string {
    doc.title + " " + doc.text
  }

  /**
   * The published-date signal.  `fullYear(d)` stands for
   * `String(new Date(d).getFullYear())`; it counts only when it matches `^(19|20)\d{2}$`.
   */
  function PublishedYear(fullYear: string -> string, doc: SearchResult): (y: Option<nat>)
    ensures y.Some? ==> 1900 <= y.value <= 2099
  {
    if doc.publishedDate.Some? && doc.publishedDate.value != "" then
      var p := fullYear(doc.publishedDate.value);
      if |p| == 4 && YearAt(p, 0) then Some(YearValue(p, 0)) else None
    else None
  }

  /** The `re.exec` loop from position `i`: after a match the search resumes four characters on. */
  function ScanFrom(u: Unicode, hint: Option<string>, content: string, i: nat, acc: Scores): Scores
    requires i <= |content|
    decreases |content| - i
  {
    if i + 4 > |content| then acc
    else if YearAt(content, i) then
      ScanFrom(u, hint, content, i + 4, AddScore(acc, YearValue(content, i), MatchScore(u, Window(u, content, i), hint)))
    else ScanFrom(u, hint, content, i + 1, acc)
  }

  /** One document's contribution: its published year, then every year in its content. */
  function DocScores(u: Unicode, hint: Option<string>, fullYear: string -> string, doc: SearchResult, acc: Scores): Scores {
    var py := PublishedYear(fullYear, doc);
    var acc' := if py.Some? then AddScore(acc, py.value, 1) else acc;
    ScanFrom(u, hint, Content(doc), 0, acc')
  }

  function AllScores(u: Unicode, hint: Option<string>, fullYear: string -> string, docs: seq<SearchResult>, acc: Scores): Scores
    decreases |docs|
  {
    if docs == [] then acc else AllScores(u, hint, fullYear, docs[1..], DocScores(u, hint, fullYear, docs[0], acc))
  }

  /** The loops of extractMovieFacts filling `yearScores`. */
  method CollectYearScores(u: Unicode, hint: Option<string>, fullYear: string -> string, docs: seq<SearchResult>)
    returns (scores: Scores)
    ensures scores == AllScores(u, hint, fullYear, docs, map[])
  {
    scores := map[];
    for d := 0 to |docs|
      invariant AllScores(u, hint, fullYear, docs[d..], scores) == AllScores(u, hint, fullYear, docs, map[])
    {
      assert docs[d..][1..] == docs[d + 1..];
      var doc := docs[d];
      ghost var before := scores;
      var content := Content(doc);
      var py := PublishedYear(fullYear, doc);
      if py.Some? {
        scores := AddScore(scores, py.value, 1);
      }
      var i := 0;
      while i + 4 <= |content|
        invariant i <= |content|
        invariant ScanFrom(u, hint, content, i, scores) == DocScores(u, hint, fullYear, doc, before)
        decreases |content| - i
      {
        if YearAt(content, i) {
          scores := AddScore(scores, YearValue(content, i), MatchScore(u, Window(u, content, i), hint));
          i := i + 4;
        } else {
          i := i + 1;
        }
      }
    }
  }

  // ---------------------------------------------------------------- invariants of the totals

  /** Every key is a year 1900-2099 and every total is positive. */
  predicate Valid(scores: Scores) {
    forall y :: y in scores ==> 1900 <= y <= 2099 && scores[y] >= 1
  }

  lemma {:induction false} ScanFromValid(u: Unicode, hint: Option<string>, content: string, i: nat, acc: Scores)
    requires i <= |content| && Valid(acc)
    ensures Valid(ScanFrom(u, hint, content, i, acc))
    ensures acc.Keys <= ScanFrom(u, hint, content, i, acc).Keys
    decreases |content| - i
  {
    if i + 4 <= |content| {
      if YearAt(content, i) {
        var y := YearValue(content, i);
        ScanFromValid(u, hint, content, i + 4, AddScore(acc, y, MatchScore(u, Window(u, content, i), hint)));
      } else {
        ScanFromValid(u, hint, content, i + 1, acc);
      }
    }
  }

  /** Every candidate is a year 1900-2099 with a positive total, and candidates are never lost. */
  lemma {:induction false} AllScoresValid(u: Unicode, hint: Option<string>, fullYear: string -> string, docs: seq<SearchResult>, acc: Scores)
    requires Valid(acc)
    ensures Valid(AllScores(u, hint, fullYear, docs, acc))
    ensures acc.Keys <= AllScores(u, hint, fullYear, docs, acc).Keys
    decreases |docs|
  {
    if docs != [] {
      var doc := docs[0];
      var py := PublishedYear(fullYear, doc);
      var acc' := if py.Some? then AddScore(acc, py.value, 1) else acc;
      ScanFromValid(u, hint, Content(doc), 0, acc');
      AllScoresValid(u, hint, fullYear, docs[1..], DocScores(u, hint, fullYear, doc, acc));
    }
  }

  /** A document with a valid published year makes that year a candidate. */
  lemma PublishedYearIsCandidate(u: Unicode, hint: Option<string>, fullYear: string -> string, docs: seq<SearchResult>, k: nat)
    requires k < |docs| && PublishedYear(fullYear, docs[k]).Some?
    ensures PublishedYear(fullYear, docs[k]).value in AllScores(u, hint, fullYear, docs, map[]).Keys
  {
    PublishedYearIsCandidateFrom(u, hint, fullYear, docs, k, map[]);
  }

  lemma {:induction false} PublishedYearIsCandidateFrom(u: Unicode, hint: Option<string>, fullYear: string -> string,
                                                       docs: seq<SearchResult>, k: nat, acc: Scores)
    requires k < |docs| && PublishedYear(fullYear, docs[k]).Some? && Valid(acc)
    ensures PublishedYear(fullYear, docs[k]).value in AllScores(u, hint, fullYear, docs, acc).Keys
    decreases k
  {
    var doc := docs[0];
    var py := PublishedYear(fullYear, doc);
    var acc' := if py.Some? then AddScore(acc, py.value, 1) else acc;
    ScanFromValid(u, hint, Content(doc), 0, acc');
    var next := DocScores(u, hint, fullYear, doc, acc);
    if k == 0 {
      AllScoresValid(u, hint, fullYear, docs[1..], next);
    } else {
      PublishedYearIsCandidateFrom(u, hint, fullYear, docs[1..], k - 1, next);
    }
  }

  // ---------------------------------------------------------------- the winner

  datatype YearEntry = YearEntry(year: nat, score: int)

  function EntryScore(): YearEntry -> int {
    (e: YearEntry) => e.score
  }

  /**
   * `Object.entries(yearScores).filter(1900 <= year <= 2099)`: the keys are
   * integer-like strings, so they come in ascending numeric order.
   */
  function Entries(scores: Scores, y: nat): (es: seq<YearEntry>)
    ensures forall k :: 0 <= k < |es| ==> y <= es[k].year < 2100 && es[k].year in scores && es[k].score == scores[es[k].year]
    ensures forall x :: y <= x < 2100 && x in scores ==> YearEntry(x, scores[x]) in es
    ensures forall i, j :: 0 <= i < j < |es| ==> es[i].year < es[j].year
    decreases 2100 - y
  {
    if y >= 2100 then []
    else (if y in scores then [YearEntry(y, scores[y])] else []) + Entries(scores, y + 1)
  }

  /** `.sort((a, b) => b.score - a.score)[0]?.[0]` */
  function BestYear(scores: Scores): Option<nat> {
    var es := Entries(scores, 1900);
    if es == [] then None else Some(SortDesc(es, EntryScore())[0].year)
  }

  /** The year is absent exactly when there is no candidate. */
  lemma BestYearAbsent(scores: Scores)
    requires Valid(scores)
    ensures BestYear(scores).None? <==> scores == map[]
  {
    if scores != map[] {
      var y :| y in scores;
      assert YearEntry(y, scores[y]) in Entries(scores, 1900);
    }
  }

  /** Over the ascending entries, whose first maximum sits at `i`, every candidate is bounded by it. */
  lemma FirstMaximumIsSmallest(scores: Scores, es: seq<YearEntry>, i: nat)
    requires i < |es|
    requires forall k :: 0 <= k < |es| ==> es[k].year in scores && es[k].score == scores[es[k].year]
    requires forall i, j :: 0 <= i < j < |es| ==> es[i].year < es[j].year
    requires forall x :: 1900 <= x < 2100 && x in scores ==> YearEntry(x, scores[x]) in es
    requires forall j :: 0 <= j < |es| ==> es[j].score <= es[i].score
    requires forall j :: 0 <= j < i ==> es[j].score < es[i].score
    ensures forall y :: y in scores && 1900 <= y <= 2099 ==>
      scores[y] <= es[i].score && (scores[y] == es[i].score ==> es[i].year <= y)
  {
    forall y | y in scores && 1900 <= y <= 2099
      ensures scores[y] <= es[i].score && (scores[y] == es[i].score ==> es[i].year <= y)
    {
      var e := YearEntry(y, scores[y]);
      assert e in es;
      var k :| 0 <= k < |es| && es[k] == e;
      assert k < i ==> es[k].score < es[i].score;
    }
  }

  /**
   * The winner is a candidate with the highest total, and the smallest year
   * among the candidates with that total.
   */
  lemma BestYearIsMaximal(scores: Scores)
    requires BestYear(scores).Some?
    ensures BestYear(scores).value in scores
    ensures forall y :: y in scores && 1900 <= y <= 2099 ==> scores[y] <= scores[BestYear(scores).value]
    ensures forall y :: y in scores && 1900 <= y <= 2099 && scores[y] == scores[BestYear(scores).value] ==>
      BestYear(scores).value <= y
  {
    var es := Entries(scores, 1900);
    var i := SortDescHead(es, EntryScore());
    assert BestYear(scores) == Some(es[i].year);
    FirstMaximumIsSmallest(scores, es, i);
  }
}
