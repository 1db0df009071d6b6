# Survey app core: a Dafny model

The app runs a taste survey (movie genres, a song, liked and disliked
fragrance families, a self-description). It asks a language model for a
personality and fragrance analysis. It also recommends similar movies and
songs, either from a bundled catalogue or from web searches.

This project models the parts of that app whose behaviour can be stated
exactly:

- **Pool similarity ranker** (`Reco`, `RecoTypes`, `Sorting`, `Lists`).
  - Tokens are normalised into sets.
  - A catalogue entry scores two points per shared genre token and three per shared keyword token.
  - The excluded title (or the excluded title and artist) is filtered out.
  - A stable descending sort keeps the two best entries.
- **Search-service helpers** (`Search`, `YearVote`, `Genres`, `Synopsis`,
  `MovieFacts`, `TitleSplit`, `SearchContext`).
  - The result-quality filter, and the director filter with its fallback.
  - The director-first ordering, and de-duplication by URL capped at twelve.
  - The release-year vote, the bilingual genre dictionary and the synopsis extraction of `extractMovieFacts`.
  - The artist/title splitter.
  - The prompt context built from search results.
- **extract-music route** (`ExtractMusic`): YouTube video-id extraction, and the route's ordered 400/404/500 responses.
- **Survey pages**, each as a class whose fields the page's state updates (`FragrancePreferences`, `MovieGenres`, `PreferenceForm`):
  - the liked/disliked fragrance lists and their three-way click;
  - the genre toggle;
  - the form's `toggleSelection` and the self-description rule;
  - the merges into the stored survey record (`Survey`).
- **contextService** (`ContextService`): the library table, the three lookup loops, the library context block, and the all-or-nothing fallback.
- **analyze-preferences route** (`AnalyzePreferences`):
  - the prompt with its `'정보 없음'` defaults;
  - the code-fence stripping of the reply;
  - the parse-failure and generic-error responses.
- **search-content route** (`SearchContent`):
  - the search-type dispatch with its parameter checks;
  - the `results` object its branches fill;
  - the GET defaulting.

JavaScript semantics are written out where the code depends on them:

- `||` defaults on empty strings;
- `${undefined}` rendering as `undefined`;
- `trim` and `\s` over the ECMAScript whitespace set;
- global `replace` scanning left to right without overlap;
- the leftmost, backtracking match order of each fixed regular expression;
- `Object.entries` order for integer-like keys;
- the stability of `Array.prototype.sort`;
- `String(n)`, and `slice` with a negative end.

Some inputs become parameters of the model:

- Unicode services: `toLowerCase`, NFKC, the `\p{L}\p{N}` class and the case folding of `/i`. They are the fields of a `Text.Unicode` value, each assumed only where a lemma says so.
- `JSON.parse`.
- The model, web-search and YouTube calls.
- The year of a published date.
- The environment's API key.

## Model

| member | source | states |
|---|---|---|
| `Reco.WordRuns` | app/services/recoService.ts:4-7 | The lowered, NFKC-normalised token keeps only letters, digits and single spaces: every run of other characters becomes exactly one space. |
| `Reco.NormalizeToken` | app/services/recoService.ts:3-9 | The normalised token is trimmed at both ends, holds only letters, digits and spaces, and has no two adjacent spaces. |
| `Reco.Tokens` | app/services/recoService.ts:14-17 | A token set never contains the empty string. |
| `Reco.TokensMembers` | app/services/recoService.ts:11-19 | The token set holds exactly the non-empty normalisations of the list's strings. |
| `Reco.Tokenize` | app/services/recoService.ts:11-19 | The loop adding each non-empty normalised token returns the token set, which for `undefined` is empty and never contains ''. |
| `Reco.TokenSetAppend` | app/services/recoService.ts:14-17 | Appending a string whose normalisation is non-empty adds exactly that token. |
| `Reco.OverlapScore` | app/services/recoService.ts:21-28 | The counting loop returns the size of the intersection of the two sets, and 0 when either set is empty. |
| `Reco.OverlapSymmetricAndBounded` | app/services/recoService.ts:21-28 | The overlap is symmetric and at most the size of either set. |
| `Reco.SubsetCardinality` | app/services/recoService.ts:21-28 | A subset is no larger than its superset; this gives the overlap's bound. |
| `Reco.OverlapAddShared` | app/services/recoService.ts:21-28 | A new element that the other set has raises the overlap by exactly one. |
| `Reco.ScoreAll` | app/services/recoService.ts:49-56 | Scoring maps each item, in order, to the item paired with its own score. |
| `Reco.TopTwoProperties` | app/services/recoService.ts:58-59 | The ranking holds every item with its own score and nothing else. The top-two selection returns min(2, n) items, the head of the ranking, each scoring at least as much as every item ranked after them. |
| `Reco.TopTwoStable` | app/services/recoService.ts:58-59 | Among the two returned, the items of any one score are the first items of that score in list order. |
| `Reco.TopTwoDistinctIds` | app/services/recoService.ts:58-59 | From items with distinct ids the selection returns items with distinct ids. |
| `Reco.FilterKeepsDistinctIds` | app/services/recoService.ts:44-47 | Filtering a list with distinct ids keeps them distinct. |
| `Reco.ScoreMovieEntry` | app/services/recoService.ts:49-56 | The movie scoring callback computes 2 × (genre overlap with the preferred genres + genre overlap with the analysed genres) + 3 × keyword overlap. |
| `Reco.PickSimilarMoviesFromPool` | app/services/recoService.ts:30-60 | The movie picker returns the top two of the kept movies ranked by that score. |
| `Reco.SimilarMoviesFromKept` | app/services/recoService.ts:44-59 | The movie picker returns exactly min(2, number kept) movies, all kept movies of the pool. |
| `Reco.SimilarMoviesBest` | app/services/recoService.ts:49-59 | Every returned movie scores at least as much as every kept movie ranked after it, and the result is the head of the ranking of all kept movies. |
| `Reco.SimilarMoviesStable` | app/services/recoService.ts:58-59 | Ties in score keep pool order among the movies returned. |
| `Reco.SimilarMoviesDistinctIds` | app/services/recoService.ts:44-59 | A pool with distinct ids yields movies with distinct ids. |
| `Reco.SimilarMoviesWellFormed` | app/data/reco.types.ts:4-12 | A well-formed movie pool yields a well-formed result: kebab-case distinct ids, 1 to 3 genres and 5 to 10 keywords each. |
| `Reco.SimilarMoviesExcludesTitle` | app/services/recoService.ts:39-47 | A movie whose normalised title equals the normalised excluded title is never returned. |
| `Reco.MovieCandidatesWithoutExclusion` | app/services/recoService.ts:44-47 | With no excluded title nothing is filtered. |
| `Reco.MovieKeywordRaisesScore` | app/services/recoService.ts:53-54 | Adding a movie keyword whose token is an analysed keyword, and new to the movie, raises its score by exactly 3. |
| `Reco.MovieGenreCountedTwice` | app/services/recoService.ts:52-54 | A new genre token in both the preferred and the analysed genre lists raises the score by 4: it is counted twice. |
| `Reco.SoleMatchRanksFirst` | app/services/recoService.ts:49-59 | The only kept movie with a positive score is returned first. |
| `Reco.ScoreTrackEntry` | app/services/recoService.ts:84-91 | The track scoring callback computes 2 × genre overlap with the analysed genre + 3 × keyword overlap. |
| `Reco.PickSimilarMusicFromPool` | app/services/recoService.ts:62-95 | The music picker returns the top two of the kept tracks ranked by that score. |
| `Reco.SimilarMusicFromKept` | app/services/recoService.ts:76-94 | The music picker returns exactly min(2, number kept) tracks, all kept tracks of the pool. |
| `Reco.SimilarMusicBest` | app/services/recoService.ts:84-94 | Every returned track scores at least as much as every kept track ranked after it. |
| `Reco.SimilarMusicStable` | app/services/recoService.ts:92-93 | Ties in score keep pool order among the tracks returned. |
| `Reco.SimilarMusicDistinctIds` | app/services/recoService.ts:76-94 | A pool with distinct ids yields tracks with distinct ids. |
| `Reco.SimilarMusicWellFormed` | app/data/reco.types.ts:14-23 | A well-formed music pool yields a well-formed result. |
| `Reco.MusicExclusion` | app/services/recoService.ts:76-82 | With an artist given, a track is dropped exactly when both title and artist match. With only a title, it is dropped when the title matches. With neither, nothing is dropped. |
| `Reco.MusicKeywordRaisesScore` | app/services/recoService.ts:88-89 | Adding an analysed keyword new to the track raises its score by exactly 3. |
| `Reco.MapMovieItemToResponse` | app/services/recoService.ts:97-106 | The response keeps title and director. Its year is the decimal text that reads back as the item's year, with a leading '-' for a negative year. The genre is the genres joined with ', '. The poster is the emoji, or '🎬' when that is missing or empty. |
| `Reco.MapMusicItemToResponse` | app/services/recoService.ts:108-116 | The response keeps title and artist. The album defaults to ''. The emoji is the item's when that is non-empty, and '🎵' otherwise. |
| `Sorting.SortDesc` | app/services/recoService.ts:58 | The comparator sort returns a permutation of its input in descending key order. |
| `Sorting.SortDescStable` | app/services/recoService.ts:93 | The elements of each key keep their relative order. |
| `Sorting.TopOfSortDesc` | app/services/recoService.ts:59 | A prefix of the sorted list outranks the rest, and the tied elements in it are the earliest of their key. |
| `Sorting.SortDescHead` | app/services/searchService.ts:351-353 | The head of the sorted list is the first element with the largest key. |
| `Lists.Filter` | app/services/searchService.ts:267 | A filter result is no longer than its input, its elements pass the predicate, and it is a sub-multiset of the input. |
| `Lists.FilterIsSubsequence` | app/services/searchService.ts:267-289 | A filter keeps exactly the passing elements, in their original order. |
| `Lists.Take` | app/services/searchService.ts:550 | `slice(0, n)` of a list or a string is the first min(n, length) elements. |
| `Search.Normalize` | app/services/searchService.ts:261-266 | A null or missing title, URL or text becomes ''; an empty or missing date becomes undefined. |
| `Search.FormatSearchResultsKeeps` | app/services/searchService.ts:260-289 | The quality filter's output is an order-preserving subsequence of the normalised input. It keeps exactly the results with more than 100 characters of text that mention a relevant keyword or have more than 300 characters. |
| `Search.FormatSearchResultsLongKept` | app/services/searchService.ts:267-288 | A result with more than 300 characters of text is always kept, and every kept result has more than 100. |
| `Search.FilterFilter` | app/services/searchService.ts:267-289 | Two filters in a row are one filter by the conjunction. |
| `Search.FilterByDirectorFallback` | app/services/searchService.ts:77-80 | When some entry names the director, exactly those entries are kept, in order. Otherwise the list is returned unchanged, so a non-empty list never becomes empty. |
| `Search.MovieSearchResults` | app/services/searchService.ts:72-84 | Without a hint the three lists are just quality-filtered. With a hint, no non-empty list becomes empty. |
| `Search.Prioritize` | app/services/searchService.ts:538-545 | The director-first ordering is a permutation of the results. |
| `Search.PrioritizeDirectorFirst` | app/services/searchService.ts:538-545 | Every entry naming the director precedes every entry that does not, and both groups keep their order. |
| `Search.FindUrlSnoc` | app/services/searchService.ts:548-550 | Appending an entry does not move where an existing URL is first found. |
| `Search.DedupByUrlCorrect` | app/services/searchService.ts:548-550 | De-duplication by URL gives pairwise distinct URLs and the same URLs as the input. Each URL stands at the position of its first occurrence and holds the last entry with that URL. |
| `Search.UniqueResultsCorrect` | app/services/searchService.ts:680-682 | The capped result has at most 12 entries with distinct URLs, each the last input entry with its URL, in first-occurrence order. With at most 12 distinct URLs, none is lost. |
| `Search.UniqueMovieResults` | app/services/searchService.ts:538-550 | The similar-movie tail returns at most 12 results. |
| `YearVote.YearValue` | app/services/searchService.ts:335 | A four-digit match of `(19\d{2}\|20\d{2})` is a year in 1900-2099. |
| `YearVote.YearValueText` | app/services/searchService.ts:337 | The winning key's text is the matched text itself. |
| `YearVote.YearText` | app/services/searchService.ts:353 | `String(y)` of a year in 1900-2099 is four digits reading back as y. |
| `YearVote.MatchScore` | app/services/searchService.ts:338-346 | One mention weighs 1 + 3 (strong keyword) + 3 (Japanese strong keyword) + 1 (weak keyword) + 1 (director) within the 40-character window. That is between 1 and 9, and at least 4 with a strong keyword. |
| `YearVote.AddScore` | app/services/searchService.ts:318-322 | `addScore` adds the increment to one year's total, starting from 0, and leaves every other year as it was. |
| `YearVote.PublishedYear` | app/services/searchService.ts:332-333 | A published year counts only when it is a year in 1900-2099. |
| `YearVote.CollectYearScores` | app/services/searchService.ts:330-349 | The document loop and the `re.exec` loop compute the per-year totals that `YearVote.AllScores` defines. |
| `YearVote.AllScoresValid` | app/services/searchService.ts:330-349 | Every candidate is a year in 1900-2099 with a positive total, and candidates are never lost. |
| `YearVote.PublishedYearIsCandidate` | app/services/searchService.ts:333 | A document's valid published year is always a candidate. |
| `YearVote.Entries` | app/services/searchService.ts:351-352 | `Object.entries` lists every candidate year with its total, in ascending year order. |
| `YearVote.BestYearAbsent` | app/services/searchService.ts:351-354 | There is no year exactly when there is no candidate. |
| `YearVote.BestYearIsMaximal` | app/services/searchService.ts:351-354 | The winner has the highest total, and it is the smallest year among those tied with it. |
| `Genres.WholeWord` | app/services/searchService.ts:371-372 | The keyword regular expression matches exactly where the keyword occurs with no Hangul syllable or Latin letter touching it. |
| `Genres.Add` | app/services/searchService.ts:372 | Adding to the insertion-ordered set adds the genre and keeps the rest. |
| `Genres.FindGenres` | app/services/searchService.ts:370-374 | The dictionary loop fills `found` with exactly `Genres.FoundUpTo` over the whole dictionary. |
| `Genres.FoundUpToCorrect` | app/services/searchService.ts:358-374 | The genres are distinct. A genre is present exactly when one of its keywords matches. The genres come in the order of their first matching dictionary entry. |
| `Genres.ReactionIsNotAction` | app/services/searchService.ts:371 | "action" does not match inside "reaction". |
| `Genres.SpacedKeywordMatches` | app/services/searchService.ts:371 | A keyword standing between spaces matches. |
| `Synopsis.AnchorMatch` | app/services/searchService.ts:378-390 | A match of one anchor pattern starts within the text at a position where the anchor and the rest of the pattern match. |
| `Synopsis.AnchorMatchLeftmost` | app/services/searchService.ts:378-390 | The match is the leftmost such start: no earlier start matches, and none at all matches when there is no match. |
| `Synopsis.AnchorText` | app/services/searchService.ts:385-391 | The first anchor in order that matches gives a capture of 80 to 600 characters; there is none only when no anchor matches. |
| `Synopsis.AnchorMatchShape` | app/services/searchService.ts:378-383 | Where the pattern matches, the anchor is followed by only whitespace and colons, then room for 80 to 600 characters of one line. |
| `Synopsis.Capture` | app/services/searchService.ts:379 | `([^\n]{80,600})` takes 80 to 600 characters, none a newline. |
| `Synopsis.RemoveFragments` | app/services/searchService.ts:408 | Removing the "read more" fragments yields a subsequence of the text. |
| `Synopsis.CleanSynopsis` | app/services/searchService.ts:405-410 | The cleaned synopsis is trimmed and no longer than its input. |
| `Synopsis.CleanSynopsisPlainText` | app/services/searchService.ts:405-410 | A text of plain Latin letters comes back unchanged. |
| `Synopsis.SliceTo` | app/services/searchService.ts:414 | `slice(0, end)` is a prefix of the text, also for a negative end. |
| `Synopsis.TruncateForSynopsis` | app/services/searchService.ts:412-415 | A text at most maxLen long is returned as is. A longer one becomes the trimmed first maxLen - 1 characters plus '…', at most maxLen in all. |
| `Synopsis.TruncateIdempotent` | app/services/searchService.ts:412-415 | Truncating twice is truncating once. |
| `Synopsis.Description` | app/services/searchService.ts:377-396 | The description is at most 280 characters. It is the cleaned first anchor match whenever that is non-empty. When no anchor matches, or the match cleans to '', it is taken from `analysis[0]`, then `basicInfo[0]`, and is absent only when both of those are empty. |
| `MovieFacts.DocTexts` | app/services/searchService.ts:300-305 | Each document becomes its title, a newline and its text. |
| `MovieFacts.Blobs` | app/services/searchService.ts:300-307 | The collapsed text has single spaces for every whitespace run. |
| `MovieFacts.ExtractMovieFacts` | app/services/searchService.ts:294-403 | The year is present exactly when there is a candidate, and it is the winning year's four digits. Genres are present exactly when a keyword matches. They are then `Genres.FoundUpTo` over the whole dictionary: distinct, in first-hit order. The description is `Synopsis.Description` and is at most 280 characters. |
| `TitleSplit.Match` | app/services/searchService.ts:421-427 | A match of one title pattern has the shape the regular expression describes. |
| `TitleSplit.ApplyPattern` | app/services/searchService.ts:430-444 | Both groups are trimmed; only the "by" pattern puts group 2 first as the artist. |
| `TitleSplit.ParseArtistAndTitle` | app/services/searchService.ts:446-450 | With no pattern matching, the artist is '' and the title the trimmed whole. |
| `TitleSplit.FirstPatternWins` | app/services/searchService.ts:429-445 | The earliest pattern that matches decides the split. |
| `TitleSplit.RouteExtendsService` | app/api/extract-music/route.ts:32-39 | The route's two extra patterns matter only when none of the four shared ones matches. |
| `TitleSplit.MatchFirstSep` | app/services/searchService.ts:422-424 | On one line, the dash, colon and pipe patterns match exactly when the separator stands somewhere other than first or last. The split is at its first such occurrence. |
| `TitleSplit.SepGroupsTrim` | app/services/searchService.ts:436-444 | The trimmed groups are the trimmed text on either side of that separator. |
| `TitleSplit.FirstSomeAppend` | app/api/extract-music/route.ts:41-59 | Results appended to a list matter only when none of the list is a match. |
| `ExtractMusic.MatchId` | app/api/extract-music/route.ts:13-16 | A link pattern fails exactly when no occurrence of its literal is followed by an id character. |
| `ExtractMusic.MatchIdShape` | app/api/extract-music/route.ts:13-22 | A captured id is non-empty, holds none of `&`, `?`, `#` or newline, and is the whole run after the literal's first such occurrence. |
| `ExtractMusic.ExtractVideoId` | app/api/extract-music/route.ts:11-27 | There is no id exactly when none of the four patterns matches. |
| `ExtractMusic.ExtractVideoIdFirst` | app/api/extract-music/route.ts:19-24 | The first pattern in order that matches gives the id. |
| `ExtractMusic.UrlCapturesId` | app/api/extract-music/route.ts:13-16 | Any scheme and host without a 'y' in front of the literal, and any rest after the id, capture the id whole. |
| `ExtractMusic.WatchLinkId` | app/api/extract-music/route.ts:13 | A `https://www.youtube.com/watch?v=` link gives its video id. |
| `ExtractMusic.VideoResult` | app/api/extract-music/route.ts:120-128 | The parsed title and artist win when non-empty. Otherwise they fall back to the raw title and the channel title. The description defaults to ''. |
| `ExtractMusic.Answer` | app/api/extract-music/route.ts:100-133 | A non-JSON body gives 500. A non-ok answer returns the upstream status. Missing or empty `items` gives 404. Success comes exactly for an ok answer with items, built from the first. |
| `ExtractMusic.Post` | app/api/extract-music/route.ts:68-77 | A non-JSON request gives 500. A missing or empty `youtubeUrl` gives 400 before any other check. |
| `ExtractMusic.PostUrl` | app/api/extract-music/route.ts:79-100 | An unparseable link gives 400 and a missing API key 500. Otherwise the answer is what the API call for that id returns. |
| `Selection.Remove` | app/survey/movie-genres/page.tsx:28 | Deselecting keeps exactly the other names. |
| `Selection.RemoveKeepsNoDuplicates` | app/survey/fragrance-preferences/page.tsx:47 | Deselecting never introduces a duplicate. |
| `Selection.Toggle` | app/components/PreferenceForm.tsx:106-110 | The value's membership flips. A new value goes at the end. With the value set aside, the list is unchanged, so the other elements keep their order. |
| `Selection.ToggleKeepsNoDuplicates` | app/survey/movie-genres/page.tsx:25-31 | Toggling never introduces a duplicate. |
| `Selection.ToggleTwice` | app/survey/movie-genres/page.tsx:25-31 | Toggling twice restores the members, and from an absent value the list itself. |
| `Survey.Put` | app/survey/movie-genres/page.tsx:37-39 | Setting a survey key sets that key and keeps every other one. |
| `FragrancePreferences.Cycle` | app/survey/fragrance-preferences/page.tsx:151-161 | A click always changes a fragrance's state. |
| `FragrancePreferences.ThreeClicksReturn` | app/survey/fragrance-preferences/page.tsx:151-161 | Three clicks return a fragrance to its state. |
| `FragrancePreferences.FragrancePage.constructor` | app/survey/fragrance-preferences/page.tsx:24-25 | Both lists start empty. |
| `FragrancePreferences.FragrancePage.Load` | app/survey/fragrance-preferences/page.tsx:29-37 | Stored lists replace the current ones; absent ones leave them. |
| `FragrancePreferences.FragrancePage.ToggleLiked` | app/survey/fragrance-preferences/page.tsx:39-52 | The liked list is toggled, and liking also removes the name from the disliked list. The lists stay disjoint and free of duplicates. |
| `FragrancePreferences.FragrancePage.ToggleDisliked` | app/survey/fragrance-preferences/page.tsx:54-67 | The disliked list is toggled, and disliking also removes the name from the liked list. The lists stay disjoint and free of duplicates. |
| `FragrancePreferences.FragrancePage.Click` | app/survey/fragrance-preferences/page.tsx:147-161 | A click moves the fragrance none → liked → disliked → none, keeps the lists valid, and leaves every other name as it was. |
| `FragrancePreferences.FragrancePage.NextDisabled` | app/survey/fragrance-preferences/page.tsx:229 | Next is disabled exactly when no fragrance is liked and none is disliked. |
| `FragrancePreferences.FragrancePage.HandleNext` | app/survey/fragrance-preferences/page.tsx:69-78 | Saving writes the two lists under their keys and leaves every other key of the record. |
| `MovieGenres.MovieGenresPage.constructor` | app/survey/movie-genres/page.tsx:22 | The selection starts empty. |
| `MovieGenres.MovieGenresPage.ToggleGenre` | app/survey/movie-genres/page.tsx:25-31 | The genre's membership flips, and no duplicate is introduced. |
| `MovieGenres.MovieGenresPage.NextDisabled` | app/survey/movie-genres/page.tsx:118 | Next is disabled exactly when no genre is selected. |
| `MovieGenres.MovieGenresPage.HandleNext` | app/survey/movie-genres/page.tsx:33-42 | An empty selection saves nothing, which is exactly when Next is disabled. Otherwise `movieGenres` is written and every other key kept. |
| `PreferenceForm.Form.constructor` | app/components/PreferenceForm.tsx:39-47 | The form's default values. |
| `PreferenceForm.Form.ToggleSelection` | app/components/PreferenceForm.tsx:106-112 | The named field becomes the toggled list; no other field changes. |
| `PreferenceForm.DescriptionError` | app/components/PreferenceForm.tsx:256-259 | The self-description is accepted exactly when it has at least 10 characters. An empty one gets the required message, a short one the minimum-length message. |
| `ContextService.MockLibraryInfo` | app/services/contextService.ts:99-165 | A name of the 12-entry table gets its entry; any other name gets null. |
| `ContextService.KnownIndex` | app/services/contextService.ts:164 | A name found at a table entry is looked up as that entry. |
| `ContextService.CollectLibraries` | app/services/contextService.ts:24-39 | The lookup loop keeps the infos found, in name order. |
| `ContextService.KnownUpToMembers` | app/services/contextService.ts:27-37 | Every info kept belongs to a name, and every name found contributes its info. |
| `ContextService.KnownAll` | app/services/contextService.ts:27-37 | When every name is found, the list has one info per name, in name order. |
| `ContextService.GetMusicAnalysisLibraries` | app/services/contextService.ts:15-40 | The music list has 5 entries. |
| `ContextService.GetMovieAnalysisLibraries` | app/services/contextService.ts:45-67 | The movie list has 4 entries. |
| `ContextService.GetFragranceAnalysisLibraries` | app/services/contextService.ts:72-93 | The fragrance list has 3 entries. |
| `ContextService.AllMusicKnown` | app/services/contextService.ts:16-22 | The music list is the table's first five entries, in order. |
| `ContextService.AllMovieKnown` | app/services/contextService.ts:46-51 | The movie list is table entries 6 to 9, in order. |
| `ContextService.AllFragranceKnown` | app/services/contextService.ts:73-77 | The fragrance list is the table's last three entries, in order. |
| `ContextService.AppendLibrarySection` | app/services/contextService.ts:177-183 | One guarded `forEach` appends the section: its heading and the libraries' lines. |
| `ContextService.FormatLibraryInfoForAI` | app/services/contextService.ts:170-204 | The loops build the library context that `ContextService.LibraryContext` defines. |
| `ContextService.LibraryContextFrame` | app/services/contextService.ts:175-203 | The context starts with the header line and ends with the closing instruction. |
| `ContextService.LibEntriesContainEach` | app/services/contextService.ts:179-182 | Each library's name line, directly followed by its usage line, is in its section. |
| `ContextService.LibSectionPresent` | app/services/contextService.ts:177-199 | A section is present exactly when its list is non-empty, headed by its heading. |
| `ContextService.Settle` | app/services/contextService.ts:214-233 | Any failed lookup makes all three lists empty; otherwise the lists pass through. |
| `ContextService.GetAllRelevantLibraries` | app/services/contextService.ts:209-234 | The lookups cannot fail, so the result is the three full lists of sizes 5, 4 and 3. |
| `AnalyzePreferences.Field` | app/api/analyze-preferences/route.ts:73-75 | A missing or empty field renders as '정보 없음'. |
| `AnalyzePreferences.ListField` | app/api/analyze-preferences/route.ts:69 | A list renders joined with ', ', and as '정보 없음' when missing or joined to ''. |
| `AnalyzePreferences.MusicField` | app/api/analyze-preferences/route.ts:70 | The music line reads "title - artist" exactly when the title is non-empty. |
| `AnalyzePreferences.PromptShowsData` | app/api/analyze-preferences/route.ts:65-144 | Each of the seven user-data lines stands in the prompt at its place, after the ones before it. |
| `AnalyzePreferences.RemoveAll` | app/api/analyze-preferences/route.ts:163-164 | A global removal never lengthens the text. |
| `AnalyzePreferences.RemoveFencesLeavesNone` | app/api/analyze-preferences/route.ts:164 | After removing every "```", no three backticks are left in a row. A leading run of backticks keeps its length modulo 3. |
| `AnalyzePreferences.CleanHasNoFence` | app/api/analyze-preferences/route.ts:162-165 | The cleaned reply contains no "```" and has no leading or trailing whitespace. |
| `AnalyzePreferences.CleanWithoutFence` | app/api/analyze-preferences/route.ts:162-165 | A reply without "```" is only trimmed. |
| `AnalyzePreferences.RemoveAllAbsent` | app/api/analyze-preferences/route.ts:163-164 | Removing a pattern that does not occur changes nothing. |
| `AnalyzePreferences.Post` | app/api/analyze-preferences/route.ts:61-197 | A reply that does not parse gives 500 with the parse error and the first at most 500 characters of the raw reply as `debug`. A reply that parses gives the analysis. Any other failure gives 500 with the generic error and no `debug`. |
| `AnalyzePreferences.DebugIsReplyStart` | app/api/analyze-preferences/route.ts:176 | The debug text is the start of the reply: all of it when short, exactly 500 characters otherwise. |
| `SearchContext.AppendEntries` | app/services/searchService.ts:704-706 | One `forEach` appends the numbered entries of the group. |
| `SearchContext.AppendSection` | app/services/searchService.ts:702-707 | A group's heading and entries are appended only when it is non-empty. |
| `SearchContext.FormatSearchDataForAI` | app/services/searchService.ts:696-766 | The appends build the search context that `SearchContext.Context` defines. |
| `SearchContext.EntriesContainEach` | app/services/searchService.ts:704-706 | Every result's entry is in its group's text. |
| `SearchContext.EntryShowsResult` | app/services/searchService.ts:705 | An entry shows the result's title and at most the limit's number of characters from the start of its text. |
| `SearchContext.EntriesUpToPrefix` | app/services/searchService.ts:704-706 | The entries of a prefix of the results are a prefix of the group's text. |
| `SearchContext.ContextFrame` | app/services/searchService.ts:697-765 | The context starts with the header and ends with the closing instruction. |
| `SearchContext.FragranceEmptyIsAbsent` | app/services/searchService.ts:756 | No fragrance list and an empty one render the same context. |
| `SearchContent.AllMusic` | app/api/search-content/route.ts:63-86 | In an 'all' search music data comes only from a search that was requested and resolved, and the later of the two to settle wins. |
| `SearchContent.AllMusicKeepsASettledSearch` | app/api/search-content/route.ts:63-86 | With both a title and a link, music data is missing only when both searches fail. |
| `SearchContent.Post` | app/api/search-content/route.ts:17-116 | Each type gets its exact response. A movie or music search without a query, or a youtube search without a link, gives 400. An unknown type gives 400, and a failure 500. A success carries the requested type, and 'all' always succeeds with what resolved. |
| `SearchContent.GetRequest` | app/api/search-content/route.ts:119-128 | GET forwards its parameters and makes the type 'all' when it is missing or empty. |
| `SearchContent.Get` | app/api/search-content/route.ts:118-130 | A GET without a type is a successful 'all' search; an unknown type gives 400. |
| `Text.Trim` | app/services/recoService.ts:8 | `trim` returns the slice left after removing whitespace at both ends. |
| `Text.TrimBetween` | app/services/searchService.ts:409 | Trimming returns exactly the text between a whitespace prefix and a whitespace suffix. |
| `Text.CollapseSpaces` | app/services/searchService.ts:307 | `replace(/\s+/g, ' ')` leaves single spaces and no other whitespace. |
| `Text.NatToStringRoundTrip` | app/services/recoService.ts:101 | `Number(String(n))` is n. |

## Left out

- The Exa searches, the Gemini call and the YouTube Data API `fetch` are network I/O. They are parameters: the search results, `generate` and `fetch`.
- Only the de-duplication tails of `searchSimilarMovies` and `searchSimilarMusic` are modelled. Their staged query builders and fallback thresholds depend on what the search service returns.
- The `Promise.allSettled` fan-out of the 'all' search is concurrency. Which music search settles last is the `youtubeLast` parameter. The `Promise.all` of `getAllRelevantLibraries` is the three lookups in sequence, whose partial-failure case is `ContextService.Settle`.
- `extractMovieFacts` cannot throw in the model, so its `catch` returning `{}` is not reached.
- `new Date(d).getFullYear()` depends on the Date library and the time zone. The year it renders is the `fullYear` parameter.
- `JSON.parse` is the `parse` parameter; request bodies that are not JSON are `None`.
- `toLowerCase`, NFKC, `\p{L}\p{N}` and the `/i` case folding are fields of `Text.Unicode`. Each lemma assumes only the property it names (for example `Genres.FoldsLatinApart`).
- String lengths count one `char` per code point. Only text inside the Basic Multilingual Plane is modelled, where that count agrees with JavaScript's UTF-16 length.
- `getMockLibraryInfo` names inherited from `Object.prototype` (such as "toString") are not modelled. Such a name is treated as unknown.
- `Array.prototype.sort` works in place in the source. It is modelled on sequences as a stable insertion sort; the engine's own algorithm is not part of the source.
- localStorage and router navigation are browser I/O. The stored survey record is a parameter, and the record to store is the result.
- React's queued state updaters are modelled as updates applied in call order. This includes the updater that queues the other list's update in `toggleLikedFragrance` and `toggleDislikedFragrance`.
- `FragrancePreferences.FragrancePage.Load`: a stored value that is truthy but not a list is ignored; the source would keep it as state.
- Request fields of the wrong JSON type (a number as `type` or `youtubeUrl`) are not modelled; the model's request fields are strings.
- The `details` field of search-content's 500 response and the `timestamp` of its success response are not modelled.
- Logging, UI rendering, animation and the presentational components are out of scope.
