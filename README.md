# Portfolio site data handlers, modelled in Dafny

This project models the parts of a Next.js portfolio site that compute
something, rather than lay out static content:

- **GitHub statistics handler** (`app/api/github/route.ts`). It takes the
  answer to one GraphQL request and sorts it into an error reply or a
  success reply. On success it adds:
  - the longest and the current contribution streak, each computed by a scan
    over the flattened calendar;
  - the top five languages of the owned repositories, folded into a
    size-by-name table, sorted by size and given a percentage.
- **GitHub statistics panel** (`components/features/GithubStats.tsx`). It
  chooses between the loading, error and dashboard panels. It also computes
  the "Most Used Lang" figure, the 20-week heat-map window and the shade of
  each heat-map cell.
- **Arcade badge scraper** (`app/api/arcade/route.ts`). For each badge
  element it cleans the date, picks the title from the modal headline or
  the fallback text, and keeps the badge only when both title and image are
  present. It then derives badge statistics.
- **Hugging Face handlers** (`app/api/ai/sentiment/route.ts` and
  `app/api/ai/detect/route.ts`). They check the token and the input, then
  normalise the model output:
  - the sentiment handler takes the top label, looks it up in a nine-label
    table and falls back to three stars for unknown labels;
  - the detect handler copies detections field for field.

  Both classify errors the same way: a "loading" message answers 503.
- **Keyword sentiment demo** (`components/sections/AILab.tsx`). It counts,
  case-insensitively and by substring, how many of two word lists occur in
  the text, and compares the two counts.
- **Translation context** (`context/LanguageContext.tsx`). It holds the
  English/Indonesian table, the current language as mutable state, and `t`,
  which falls back to the key itself.
- **Weather card** (`components/features/WeatherWidget.tsx`). It maps a WMO
  weather interpretation code (WMO code table 4677) to an icon and a
  description, and chooses the error panel when the reply has no `current`
  block.

Each module follows the form of its source file:

- Loops that update variables are methods, proved against specification
  functions:
  - the streak scans;
  - the language fold;
  - the badge loop;
  - the keyword counting;
  - the heat-map `if` chain.
- The language state is a class with a setter.
- Pipelines, lookups and classifications are functions. Lemmas state what
  the source promises about them.
- Network calls, the wall clock and DOM queries become parameters:
  - the GraphQL answer, the profile page (its badge elements and a map from
    element id to `headline`), the model outputs and the form are inputs;
  - `today` is the caller's `YYYY-MM-DD` string.

Module `Text` models the JavaScript string operations the handlers use:
`includes`, `replace` with a string pattern, `trim`, and `toLowerCase`.
Module `HfErrors` holds the error classification that both Hugging Face
handlers share.

Behaviour worth knowing, as the code has it:

- **Current streak.** The comment at `app/api/github/route.ts:102` speaks of
  allowing an idle "today". The code does something else:
  - the backward scan skips every idle day it meets before its first active
    day, whatever that day's date;
  - the guarded `continue` at line 104 can never run, because
    `i === days.length - 1` holds only on the first iteration, before any
    active day has been seen. `GithubStreaks.ScanDay`, the body of the
    scan's loop, carries that branch with `assert false`.

  So the calendar `1,1,0,1,1,1,0` has a current streak of 3, not 0, even
  when its last, idle day is before today (`GithubStreaks.SampleCurrent`).
- **Sentiment ties.** The `reduce` at `app/api/ai/sentiment/route.ts:47`
  keeps the earlier result only when its score is strictly greater, so a tie
  goes to the LATER result (`SentimentRoute.TieGoesToLater`).
- **Missing configuration.** The sentiment table has no `NEUTRAL` or
  `LABEL_2` entry. No handler retries. The GitHub handler never checks for a
  missing token: it sends `Bearer undefined`.

## Model

| member | source | states |
|---|---|---|
| GithubStreaks.BeforeIrreflexive | app/api/github/route.ts:96 | No date string compares as after itself, so the future-day test never drops today's entry. |
| GithubStreaks.BeforeTransitive | app/api/github/route.ts:96 | The string comparison the handler uses on dates is transitive. |
| GithubStreaks.BeforeTotal | app/api/github/route.ts:96 | Two different date strings are ordered one way or the other. |
| GithubStreaks.LongestStreak | app/api/github/route.ts:82-90 | The forward scan returns the length of the longest run of consecutive days with a positive count: some run has that length and no run is longer. It never exceeds the number of days. |
| GithubStreaks.LongestRunUnique | app/api/github/route.ts:82-90 | The longest streak depends on the calendar alone, so running the scan again on the same days gives the same value. |
| GithubStreaks.LongestOfIdleCalendar | app/api/github/route.ts:82-90 | An empty calendar, or one without an active day, has a longest streak of 0. |
| GithubStreaks.LongestOfActiveCalendar | app/api/github/route.ts:82-90 | A calendar whose days are all active has a longest streak equal to its number of days. |
| GithubStreaks.Past | app/api/github/route.ts:96 | The days the backward scan looks at: none is dated after today, and there are no more of them than days. |
| GithubStreaks.DropIdle | app/api/github/route.ts:98-106 | Skipping idle days from the end leaves a prefix that is empty or ends in an active day. Every day cut off is idle. |
| GithubStreaks.TrailingActive | app/api/github/route.ts:98-106 | The days counted at the end are all active, and the day before them, if any, is idle. |
| GithubStreaks.CurrentRun | app/api/github/route.ts:93-108 | The specification of the backward scan: trailing active days after the idle cut of the days on or before today. It is never more than those days, and `GithubStreaks.CurrentZeroIff` shows it is 0 exactly when no such day is active. |
| GithubStreaks.ScanFuture | app/api/github/route.ts:96 | A day dated after today changes nothing in the scan. |
| GithubStreaks.ScanActive | app/api/github/route.ts:98-100 | An active day on or before today extends the run by one. |
| GithubStreaks.ScanIdle | app/api/github/route.ts:101-106 | An idle day on or before today is skipped before the run is found and ends the run after. |
| GithubStreaks.CurrentStreak | app/api/github/route.ts:93-108 | The backward scan returns the specification: among days on or before today, skip the trailing idle days, then count the active run before them. |
| GithubStreaks.ScanDay | app/api/github/route.ts:94-107 | One iteration of the backward scan keeps what the scan knows: the count so far plus the active run still ahead gives the streak, and when the scan stops the count is the streak. The "today" exception is unreachable. |
| GithubStreaks.DropIdleEmptyIff | app/api/github/route.ts:98-106 | Nothing is left after skipping trailing idle days exactly when every day is idle. |
| GithubStreaks.PastIdleIff | app/api/github/route.ts:96 | The filtered days are all idle exactly when every day on or before today is idle. |
| GithubStreaks.CurrentZeroIff | app/api/github/route.ts:93-108 | The current streak is 0 exactly when no day on or before today has a positive count. |
| GithubStreaks.IdleDayIsSkipped | app/api/github/route.ts:101-106 | An idle day at the end of the calendar never changes the current streak, whatever its date. |
| GithubStreaks.FutureDayIsIgnored | app/api/github/route.ts:96 | A day after today at the end of the calendar never changes the current streak. |
| GithubStreaks.PastOfPastDays | app/api/github/route.ts:96 | When no day is after today, the scan looks at every day. |
| GithubStreaks.CurrentOfActiveCalendar | app/api/github/route.ts:93-108 | A calendar of active days, none after today, has a current streak equal to its length. |
| GithubStreaks.PastIsPrefix | app/api/github/route.ts:96 | With ascending dates, the days on or before today form a prefix and every later day is after today. |
| GithubStreaks.CurrentAtMostLongest | app/api/github/route.ts:82-108 | With ascending dates, the current streak is never longer than the longest streak. |
| GithubStreaks.SampleLongest | app/api/github/route.ts:82-90 | The calendar with counts 1,1,0,1,1,1,0 has a longest streak of 3. |
| GithubStreaks.SampleCurrent | app/api/github/route.ts:93-108 | That calendar, with no day after today, has a current streak of 3: its trailing idle day is skipped, not a break. |
| GithubLanguages.Lookup | app/api/github/route.ts:117 | Finding a name in the table gives the index of its entry, or the table's length when no entry has it. |
| GithubLanguages.BuildLanguageTable | app/api/github/route.ts:111-124 | The nested loops build the table of the specification fold over all edges in repository order. `totalSize` is the sum of all edge sizes. |
| GithubLanguages.AddRepo | app/api/github/route.ts:116-122 | The inner loop over one repository's edges continues the fold and the running total with exactly those edges, in order. |
| GithubLanguages.AddEdgeTotal | app/api/github/route.ts:118-122 | Each step of the fold adds the edge's size to the sum of the table's sizes, whether it updates an entry or appends one. |
| GithubLanguages.TableTotal | app/api/github/route.ts:111-124 | The sizes in the table add up to `totalSize`. |
| GithubLanguages.AddExisting | app/api/github/route.ts:117-118 | Adding an edge of a language already in the table keeps the table a correct summary of the edges: names, sizes and first colours. |
| GithubLanguages.AddNew | app/api/github/route.ts:119-121 | Adding an edge of a new language appends its entry with the edge's size and colour, and the table stays a correct summary of the edges. |
| GithubLanguages.FoldTableMeaning | app/api/github/route.ts:115-121 | Table names are distinct, and a name has an entry exactly when some edge carries it. The entry's size is the sum of that name's edge sizes, and its colour is the colour of the name's first edge. |
| GithubLanguages.EntryAtMostTotal | app/api/github/route.ts:118-122 | No language's size exceeds `totalSize`. |
| GithubLanguages.Percentage | app/api/github/route.ts:130 | The percentage is 0 when `totalSize` is 0; otherwise percentage × total = size × 100. It lies in 0..100 when size ≤ total. |
| GithubLanguages.ToLanguages | app/api/github/route.ts:126-131 | There is one output record per table entry, in insertion order, with that entry's name, colour, size and percentage. |
| GithubLanguages.InsertPos | app/api/github/route.ts:133 | A stable insertion goes after the last element at least as large and before every smaller one. |
| GithubLanguages.InsertSorted | app/api/github/route.ts:133 | Inserting into a list sorted by non-increasing size keeps it sorted. |
| GithubLanguages.InsertMultiset | app/api/github/route.ts:133 | Inserting adds exactly one element and loses none. |
| GithubLanguages.InsertDistinct | app/api/github/route.ts:133 | Inserting a record with a new name keeps names distinct. |
| GithubLanguages.SortBySizeCorrect | app/api/github/route.ts:133 | The sort by size, largest first, is a permutation of its input, sorted non-increasing, and keeps names distinct. |
| GithubLanguages.ToLanguagesDistinct | app/api/github/route.ts:126-131 | Records made from a table with distinct names have distinct names. |
| GithubLanguages.TopLanguagesShape | app/api/github/route.ts:126-134 | The `languages` list has min(5, number of languages) records, with distinct names, in non-increasing size. |
| GithubLanguages.TopLanguagesKeepsLargest | app/api/github/route.ts:133-134 | Every kept record is one of the table's languages, and no language left out is larger than any kept one. |
| GithubLanguages.TopLanguages | app/api/github/route.ts:126-134 | The map, sort and `slice(0, 5)` never keep more than five records. `GithubLanguages.TopLanguagesShape` and `GithubLanguages.TopLanguagesKeepsLargest` give their order and the languages they keep. |
| GithubLanguages.PercentagesInRange | app/api/github/route.ts:130 | Every kept language's percentage lies between 0 and 100. |
| GithubRoute.StatusOf | app/api/github/route.ts:50-68 | A non-2xx response passes its status through. A GraphQL error answers 200, a missing user 404, and a thrown exception 500. |
| GithubRoute.AuthorizationHeader | app/api/github/route.ts:44 | The header is "Bearer " followed by the token, or by "undefined" when no token is set. |
| GithubRoute.Get | app/api/github/route.ts:40-150 | The checks run in order and the first failing one decides: fetch failure, non-ok status, unparsable body, GraphQL errors, missing user. Otherwise the reply carries the user and stats: the current streak, the longest streak, the top-five language list, and the calendar's total. |
| GithubRoute.FailureStatuses | app/api/github/route.ts:50-68 | Of all error replies, only the GraphQL error carries a 2xx status. |
| GithubRoute.SuccessStats | app/api/github/route.ts:136-146 | In a success reply with ascending dates, the current streak is at most the longest. There are at most five languages, each with a percentage in 0..100. |
| GithubStatsView.RecentWeeks | components/features/GithubStats.tsx:32 | The heat map shows the last min(20, n) weeks, as a suffix in their original order. |
| GithubStatsView.MostUsed | components/features/GithubStats.tsx:68 | The figure is the first language's name whenever there is a first language with a non-empty name, and "N/A" exactly otherwise. |
| GithubStatsView.Render | components/features/GithubStats.tsx:11-32 | The loading panel shows exactly while loading. The error panel shows exactly on a failed request or an error reply. The dashboard shows the reply's languages, the week window, or none without a calendar, and the four figures: total contributions, current streak and longest streak as the reply gives them, and the most-used language. |
| GithubStatsView.GraphQLErrorShowsErrorPanel | components/features/GithubStats.tsx:19-25 | A GraphQL error arrives with status 200 yet still shows the error panel. |
| GithubStatsView.MostUsedIsLargest | components/features/GithubStats.tsx:68 | A named most-used language is one of the fold's languages and is at least as large as every other. |
| GithubStatsView.Shade | components/features/GithubStats.tsx:104-108 | The successive `if`s give the palette colour at the day's level, the number of the thresholds 0, 2, 5 and 10 its count exceeds. |
| GithubStatsView.LevelRanges | components/features/GithubStats.tsx:104-108 | The buckets are: ≤0 base, 1-2 green-900/40, 3-5 green-800/60, 6-10 green-600, and ≥11 green-400. Each holds in both directions. |
| GithubStatsView.ExceededMonotone | components/features/GithubStats.tsx:104-108 | A larger count never exceeds fewer thresholds. |
| GithubStatsView.LevelMonotone | components/features/GithubStats.tsx:104-108 | A larger count never gets a paler bucket. |
| GithubStatsView.ShadedIffActive | components/features/GithubStats.tsx:105 | A cell differs from the empty colour exactly when the day is active in the streak sense. |
| ArcadeRoute.CleanDate | app/api/arcade/route.ts:31-32 | The cleaned date is never longer than the date text. |
| ArcadeRoute.ModalHeadline | app/api/arcade/route.ts:36-44 | With a non-empty modal id that names an element, the result is that element's headline, untrimmed. Without a modal id, with an empty one, or when no element has that id, it is empty. |
| ArcadeRoute.TitleOf | app/api/arcade/route.ts:36-49 | The title is the modal headline when that is non-empty; only otherwise is it the trimmed fallback title text. |
| ArcadeRoute.Extract | app/api/arcade/route.ts:51-53 | One element yields at most one badge. |
| ArcadeRoute.ExtractOne | app/api/arcade/route.ts:25-53 | The callback body, with its reassigned `title`, yields exactly that element's badge, if any. |
| ArcadeRoute.ExtractBadges | app/api/arcade/route.ts:24-54 | The `.each` loop pushes exactly the badges of the specification, in document order. |
| ArcadeRoute.Badges | app/api/arcade/route.ts:24-54 | One element yields exactly the badge `ArcadeRoute.Extract` gives it. With `ArcadeRoute.BadgesAppend` this fixes the badges of any page, element by element in document order. |
| ArcadeRoute.StatsOf | app/api/arcade/route.ts:57-63 | `totalBadges` is the number of badges and `estimatedPoints` is half of it rounded down. `lastActive` is the first badge's date or "-". `profileUrl` is the fixed profile URL. |
| ArcadeRoute.Get | app/api/arcade/route.ts:10-69 | A fetch or parse failure gives the single 500 error. Otherwise the reply holds the extracted badges and their stats. |
| ArcadeRoute.ExtractFacts | app/api/arcade/route.ts:51-53 | A kept badge has a non-empty title and image, and carries the element's title, image and cleaned date. |
| ArcadeRoute.BadgesComplete | app/api/arcade/route.ts:51-53 | Every emitted badge has a non-empty title and image. It comes from some element, with that element's image, title and cleaned date. |
| ArcadeRoute.BadgesAtMostElements | app/api/arcade/route.ts:24-54 | There are never more badges than badge elements. |
| ArcadeRoute.BadgesAppend | app/api/arcade/route.ts:24-54 | Extraction works element by element in document order: the badges of two runs of elements are the badges of each, concatenated. |
| ArcadeRoute.DropIff | app/api/arcade/route.ts:51-53 | An element is dropped exactly when its title or its image is missing or empty. |
| ArcadeRoute.CleanDateOfEarned | app/api/arcade/route.ts:31-32 | A date text "Earned <d>" with `<d>` already trimmed yields `<d>`. |
| ArcadeRoute.HeadlineNotTrimmed | app/api/arcade/route.ts:43-49 | A non-empty headline is used as it is, without trimming. |
| ArcadeRoute.PointsOfSevenBadges | app/api/arcade/route.ts:60 | Seven badges give three points. |
| ArcadeRoute.PointsMonotone | app/api/arcade/route.ts:60 | More badges never give fewer points. |
| HfErrors.Classify | app/api/ai/sentiment/route.ts:71-75 | A message containing "loading" (case-sensitive) gives 503 with the loading text and the `loading` flag. Any other gives 500 with its message, or the fallback when the message is missing or empty. |
| HfErrors.TokenMissing | app/api/ai/sentiment/route.ts:22 | A token counts as configured only when it is present and non-empty, as `!HF_TOKEN` tests. |
| HfErrors.ClassifiedErrorNonEmpty | app/api/ai/sentiment/route.ts:75 | With a non-empty fallback the error text is never empty. |
| HfErrors.CapitalisedLoadingNotDetected | app/api/ai/sentiment/route.ts:71 | "Loading" with a capital letter is not treated as loading. |
| HfErrors.LoadingAnywhere | app/api/ai/sentiment/route.ts:71 | "loading" anywhere in the message makes the reply 503. |
| SentimentRoute.LabelInfoOf | app/api/ai/sentiment/route.ts:49 | A known label gets its table record, and an unknown one gets itself with 3 stars. |
| SentimentRoute.DisplayLabel | app/api/ai/sentiment/route.ts:59 | An unknown label is displayed as itself. |
| SentimentRoute.LabelMapKeys | app/api/ai/sentiment/route.ts:7-18 | The table holds exactly the nine raw labels '1 star' … '5 stars', POSITIVE, NEGATIVE, LABEL_0 and LABEL_1, and no NEUTRAL or LABEL_2. |
| SentimentRoute.StarsInRange | app/api/ai/sentiment/route.ts:7-49 | Every label gets 1..5 stars, and an unknown label gets 3. |
| SentimentRoute.FiveStars | app/api/ai/sentiment/route.ts:12 | "5 stars" maps to Sangat Positif with 5 stars, and LABEL_2 falls back to itself with 3. |
| SentimentRoute.DisplayLabelAgrees | app/api/ai/sentiment/route.ts:49-59 | The `allScores` display label and the top result's label info agree for every label. |
| SentimentRoute.TopIndex | app/api/ai/sentiment/route.ts:47 | The `reduce` picks the last index holding the maximum score. |
| SentimentRoute.LastMaxUnique | app/api/ai/sentiment/route.ts:47 | Only one index is the last maximum, so the top result is determined by the scores. |
| SentimentRoute.TieGoesToLater | app/api/ai/sentiment/route.ts:47 | Of two equal scores the later wins. |
| SentimentRoute.Analyse | app/api/ai/sentiment/route.ts:47-63 | `allScores` has the results' length and order, each with raw label, display label and score. The top label and score are those of the last maximum, and its display label and stars come from the table. |
| SentimentRoute.Post | app/api/ai/sentiment/route.ts:20-77 | A sentiment is returned only with a token, a parsed non-empty string text and a non-empty result array, and it is the analysis of those results. |
| SentimentRoute.AnalysedIff | app/api/ai/sentiment/route.ts:31-63 | With a token, the reply is a sentiment exactly when the body has a non-empty string text and the model returned a non-empty array, and it is then the analysis of that array. |
| SentimentRoute.ThrownIsClassified | app/api/ai/sentiment/route.ts:67-75 | A body that does not parse and a model call that throws are each answered with the shared classification of the error message, defaulting to "Analysis failed. Please try again.". |
| SentimentRoute.NullBodyThrows | app/api/ai/sentiment/route.ts:28-29 | A JSON `null` body throws when `text` is taken from it, so it is answered with the classification of that `TypeError`'s message. |
| SentimentRoute.MissingTokenFirst | app/api/ai/sentiment/route.ts:22-24 | Without a token the reply is the 500 configuration error, whatever the body and the model. |
| SentimentRoute.NoTextIff | app/api/ai/sentiment/route.ts:31-33 | With a token, the reply is 400 "No text provided" exactly when the parsed body has no non-empty string `text`. White space alone is accepted. |
| SentimentRoute.NoResults | app/api/ai/sentiment/route.ts:45-66 | A non-array or empty result answers 500 "No results returned from model". |
| SentimentRoute.FailureStatuses | app/api/ai/sentiment/route.ts:20-77 | Every failure is 400, 500 or 503, and it is flagged loading exactly when it is 503. |
| DetectRoute.ToDetections | app/api/ai/detect/route.ts:37-46 | There is one detection per item, in order, with label, score and box copied unchanged. |
| DetectRoute.Post | app/api/ai/detect/route.ts:6-59 | Detections are returned only with a token, a file in the `image` field and a model result, and they are that result mapped. |
| DetectRoute.DetectedIff | app/api/ai/detect/route.ts:14-47 | With a token, the reply is a list of detections exactly when the form holds a file and the model returns, and the list is then the model's items mapped one for one. |
| DetectRoute.ToDetectionsAppend | app/api/ai/detect/route.ts:37-46 | Nothing is filtered or added: the mapping distributes over concatenation. |
| DetectRoute.ExtraFieldsDropped | app/api/ai/detect/route.ts:37-46 | Fields other than label, score and box do not affect a detection, and every score is passed on. |
| DetectRoute.MissingTokenFirst | app/api/ai/detect/route.ts:8-10 | Without a token the reply is the 500 configuration error before anything else. |
| DetectRoute.NoImageIs400 | app/api/ai/detect/route.ts:14-19 | A missing or empty image field answers 400 before, and independently of, the model call. |
| DetectRoute.ModelErrors | app/api/ai/detect/route.ts:49-58 | A form that cannot be read, a text `image` field and a model call that throws are each answered with the shared classification: 503 with the loading text when the message contains "loading", otherwise 500 with the message, or "Detection failed. Please try again." when it is absent or empty. |
| AiLab.Count | components/sections/AILab.tsx:29-35 | A count never exceeds the number of words in its list. |
| AiLab.CountOccurring | components/sections/AILab.tsx:29-35 | One `forEach` counts the words of its list that the text includes, each once. |
| AiLab.AnalyzeSentiment | components/sections/AILab.tsx:21-44 | The two counting loops and the comparison return the analysis of the lower-cased text. |
| AiLab.Judge | components/sections/AILab.tsx:37-43 | Positive exactly when the positive count is larger, Negative exactly when the negative count is larger. The confidence is 60 on a tie, and otherwise 70 plus 5 for each word of the larger count. |
| AiLab.AnalysisOf | components/sections/AILab.tsx:21-44 | The confidence of any text lies between 60 and 145: at most 15 words of one list can occur. `AiLab.SentimentIff` and `AiLab.ConfidenceAndEmoji` give the class and the emoji. |
| AiLab.RunSentimentAnalysis | components/sections/AILab.tsx:102-111 | Nothing is analysed exactly when the input is all white space. Otherwise the result is the analysis of the input. |
| AiLab.SentimentIff | components/sections/AILab.tsx:37-43 | Positive iff more positive words occur, Negative iff more negative words occur, and Neutral iff the counts tie, 0-0 included. |
| AiLab.CountBounds | components/sections/AILab.tsx:22-35 | The counts are at most 15 and 14. |
| AiLab.CountDependsOnPresence | components/sections/AILab.tsx:29-35 | A count depends only on which words occur, not on how often. |
| AiLab.OccurringWordCounts | components/sections/AILab.tsx:29-35 | Any listed word occurring in the text, even inside another word, raises the count. |
| AiLab.CaseInsensitive | components/sections/AILab.tsx:25 | A text and its lower-cased form get the same analysis. |
| AiLab.BadmintonIsNegative | components/sections/AILab.tsx:33-35 | "bad" is found inside "badminton", so with no positive word such a text is Negative. |
| AiLab.ConfidenceAndEmoji | components/sections/AILab.tsx:37-43 | Confidence is 70 + 5k hundredths for the winning count k, and 60 for Neutral. It is uncapped: 7 words give 105. Each class has its own emoji. |
| LanguageContext.Translate | context/LanguageContext.tsx:101-108 | A key with an entry gives that entry's text in the language, and a key without one gives the key itself. |
| LanguageContext.Translations | context/LanguageContext.tsx:15-88 | The table of 53 keys, each with its English and Indonesian text. It has no contract of its own; `LanguageContext.Translate`, `LanguageContext.KnownKey` and `LanguageContext.MissingKeysEcho` state what it gives. |
| LanguageContext.Other | components/ui/LanguageToggle.tsx:11 | The toggle always switches to the other language. |
| LanguageContext.LanguageProvider.constructor | context/LanguageContext.tsx:99 | The language starts as English. |
| LanguageContext.LanguageProvider.SetLanguage | context/LanguageContext.tsx:99 | The language becomes the one given. |
| LanguageContext.LanguageProvider.Toggle | components/ui/LanguageToggle.tsx:11 | The language becomes the other one. |
| LanguageContext.LanguageProvider.T | context/LanguageContext.tsx:101-108 | `t(key)` is the lookup in the current language. |
| LanguageContext.MissingKeysEcho | components/sections/AchievementBadges.tsx:117 | 'section.achievementsDesc' and 'section.learningJourneyDesc' are not in the table and render as the raw key in both languages. |
| LanguageContext.KnownKey | context/LanguageContext.tsx:17 | 'nav.overview' gives "Overview" in English and "Ringkasan" in Indonesian. |
| LanguageContext.ToggleTwice | components/ui/LanguageToggle.tsx:11 | Switching twice gives back the original language. |
| LanguageContext.ToggleTwiceRestores | components/layout/ProfileSidebar.tsx:183 | Pressing the toggle twice restores the provider's language. |
| LanguageContext.SwitchKeepsMissingKeys | context/LanguageContext.tsx:102-106 | A missing key gives the key in both languages. |
| WeatherWidget.IconFor | components/features/WeatherWidget.tsx:40-47 | Each glyph comes with its colour class: yellow sun, grey cloud, cyan snow, and a rain cloud in blue-400 for 51-67 and blue-500 for 80-99. `WeatherWidget.IconIff` gives which glyph each code gets. |
| WeatherWidget.Description | components/features/WeatherWidget.tsx:49-59 | The description is always one of the nine texts the chain names. `WeatherWidget.DescriptionByGroup` and `WeatherWidget.CloudyIff` give which one each code gets. |
| WeatherWidget.DescriptionByGroup | components/features/WeatherWidget.tsx:49-59 | The description of each WMO group: 0-3 and drizzle, rain, rain showers and thunderstorm get their own text. Fog, freezing drizzle, freezing rain, snow, snow grains and snow showers read "Cloudy". |
| WeatherWidget.CloudyIff | components/features/WeatherWidget.tsx:49-59 | "Cloudy" is the description of exactly the integers outside 0-3, 51-55, 61-65, 80-82 and 95-99. |
| WeatherWidget.IconIff | components/features/WeatherWidget.tsx:40-47 | Sun iff 0-1, snow iff 71-77, rain iff 51-67 or 80-99, and a cloud for every other integer. |
| WeatherWidget.PrecipitationTextHasRainIcon | components/features/WeatherWidget.tsx:40-59 | Whenever the text names precipitation, the icon shows rain. |
| WeatherWidget.IconAndTextDisagree | components/features/WeatherWidget.tsx:44-58 | Snow codes show the snow icon but read "Cloudy". Freezing drizzle, freezing rain and snow showers show rain but read "Cloudy". |
| WeatherWidget.Render | components/features/WeatherWidget.tsx:16-37 | A failed request or a reply without `current` shows the error panel. Otherwise the panel shows the icon and text of the reported code. |
| Text.FirstIndex | app/api/arcade/route.ts:32 | `indexOf` gives the first index where the pattern occurs, or none when it occurs nowhere. |
| Text.ReplaceFirst | app/api/arcade/route.ts:32 | `replace` with a string pattern replaces only the first occurrence and returns the text unchanged without one. |
| Text.Trim | app/api/arcade/route.ts:32 | `trim` drops only white space, from both ends, and the result neither starts nor ends with white space. |
| Text.TrimEmptyIff | components/sections/AILab.tsx:103 | A text trims to empty exactly when it is all white space. |
| Text.TrimOfTrimmed | app/api/arcade/route.ts:48 | A string that neither starts nor ends with white space is its own trim. |
| Text.TrimIdempotent | app/api/arcade/route.ts:48 | Trimming twice trims nothing more. |
| Text.Lower | components/sections/AILab.tsx:25 | `toLowerCase` maps each character, keeping the length. |
| Text.LowerIdempotent | components/sections/AILab.tsx:25 | Lower-casing twice changes nothing more. |
| Text.ContainsIff | components/sections/AILab.tsx:30 | `includes` holds exactly when the pattern occurs at some index. |

## Left out

- Network and services are parameters, not modelled:
  - the GitHub GraphQL `fetch` and the profile-page `axios.get`;
  - the Hugging Face inference calls;
  - the SWR requests of the panels, with their polling and retries.
- The DOM library (cheerio) is replaced by badge records and an id-to-headline map. A modal id that is not a valid CSS selector, which would make the query throw, is not modelled.
- The wall clock is a parameter: `today` is a caller-supplied date string, compared as the code compares it, character by character.
- Floating point and formatting are left out:
  - percentages are exact rationals, not `toFixed(1)` strings (and the `0` for an empty total is a number in the source);
  - keyword confidences are integer hundredths, so the binary rounding of `0.7 + k * 0.05` is not modelled;
  - model scores and box coordinates are exact reals, with no NaN;
  - weather codes are integers.
- JavaScript object lookups with prototype keys are not modelled. Keys such as "constructor" would find inherited members in `translations`, `LABEL_MAP` and the language map.
- Strings are sequences of code points, not UTF-16 units. `toLowerCase` is modelled on ASCII letters only.
- `GithubRoute.Get` stops at the error kind. It does not model the text `GitHub API Error: <status>`, the `details` fields, or the spread of the raw user object into the reply.
- The GitHub success reply assumes every language edge has a node. A null node would throw inside the loop, giving the 500 reply.
- `DetectRoute.Post` assumes a text value in the `image` field throws a `TypeError` with V8's wording. The exact message is runtime-defined.
- `SentimentRoute.Post` assumes a JSON `null` body throws a `TypeError` with V8's wording when `text` is destructured from it. The exact message is runtime-defined; the reply is the shared classification of that message.
- React plumbing is left out: component state, timers, JSX and animation. So is `useLanguage`'s throw outside a provider.
- Static content is not modelled, nor the contact route: the mail transport around an all-fields-present check.
- The image-classification demo of the AI lab section is left out, because it is random.
- `ArcadeRoute.CleanDate`'s own contract states only a length bound. Its meaning (first "Earned" removed, then trimmed) is its definition, and `ArcadeRoute.CleanDateOfEarned` states it for the usual "Earned <date>" text.
- The translation table is a `match` on the key rather than a map display. The verifier cannot unfold a 53-entry map display. The entries and their order are those of the source.
