# FluentAI: a verified model of its state logic

FluentAI is a browser app for practising spoken English. A learner can hold a
conversation with a hosted language model about a topic. They can also have a
spoken sentence scored for fluency and pronunciation, and work through five
daily challenges. A dashboard shows total practice time, the average score and
the fluency history. The app is React over the Gemini client and the browser's
speech recognition and synthesis.

This project models the logic under the presentation, one Dafny module per
source file:

- `AppContext` is the stats/settings store: defaults, partial-record merges,
  practice-time accumulation and the fluency history capped at 30 entries.
- `DailyChallengePage` is the daily-challenge controller: the "stored today"
  cache decision, the completion test, marking by id and the
  single-active-challenge toggle.
- `PracticePage` is the conversation session. It covers the topic, the guarded
  send, the sender-to-role history, the greeting, the transcript-to-input
  effect, the `m:ss` clock and the timer cleanup.
- `GeminiService` is the post-processing of model replies: request contents,
  reply fallbacks, the `{…}`/`[…]` extraction regexes, the prompt choice and
  the fixed fallback analysis.
- `UseSpeech` is the speech hook: the final/interim accumulation loop, the
  listening and speaking flags, and the calls made to the recognizer and the
  synthesizer.
- `PronunciationPage` covers the auto-analysis trigger, `handleAnalyze`, the
  score colours and "Try Another".
- `DashboardPage` covers hours/minutes, the rounded average, the chart
  fallback and the preference patches.
- `TopicSelectionPage` covers the catalogue, the case-insensitive title filter
  and the link each card opens.

Three supporting modules:

- `Types` mirrors `types.ts`.
- `Wrappers` holds `Option`.
- `JsText` models the JavaScript string built-ins the code relies on:
  `trim`, ASCII `toLowerCase`, `includes`, `length` in UTF-16 code units,
  `split(' ')`, `Number#toString` and `padStart`. It also holds
  `IndexOf`/`LastIndexOf` of a character. The source does not call these;
  they are how the model computes the matches of the regexes
  `/\{[\s\S]*\}/` and `/\[[\s\S]*\]/`.

State the source changes in place is a class with `modifies` methods:
`AppStore`, `ChallengeBoard`, `PracticeSession`, `PronunciationLab` and
`SpeechAdapter`. Each method's `ensures` gives the whole new state in terms of
the old one and of specification functions. Those functions carry the proved
properties.

Collaborators that cannot be seen are parameters:

- **Model calls.** A call's outcome is a `ModelReply`: the response text, or
  `Threw`.
- **`JSON.parse`.** An oracle `parse`; the challenge and analysis parsers
  return `None` where the source would throw.
- **The clock.** `Date.now()`, `toDateString()`, `toLocaleDateString()` and
  `toISOString()` become the parameters `now`, `sentAt`, `repliedAt` and
  `today`.
- **The browser recognizer and synthesizer.** Whether each exists is a
  constant of the `SpeechAdapter`. The calls made to them are recorded in
  `recognitionCalls` and `synthesisCalls`, and `alert` is recorded in
  `alerts`. Their events are methods (`OnStart`, `OnResult`, `OnSpeechEnd`, …).
- **The two `localStorage` keys of the daily challenges.** The fields
  `storedChallenges` and `storedDate`.

Behaviour of the code worth knowing, which the model keeps as written:

- The send button is disabled only when the trimmed input is empty and
  nothing is being captured. It stays enabled while a reply is pending and
  while listening (`PracticePage.SendDisabled`).
- The challenge completion test `text.split(' ').length > 3` counts spaces,
  not words. `"go   on"` passes, while four words on four lines with no
  space between them do not (`DailyChallengePage.SpacesNotWords`).
- `stopListening` calls `stop()` whenever a recognizer exists, whether or not
  it is listening.

## Model

| member | source | states |
|---|---|---|
| AppContext.DefaultStats | context/AppContext.tsx:13-19 | first-visit stats: 0 seconds, 0 topics, streak 1, empty history, last practice date set to the load time |
| AppContext.LoadStats | context/AppContext.tsx:30-33 | a present, non-empty saved document is parsed; an absent or empty one gives the default stats |
| AppContext.DefaultSettings | context/AppContext.tsx:21-25 | first-visit settings: dark mode off, speed 1, accent "en-US" |
| AppContext.LoadSettings | context/AppContext.tsx:35-38 | same for settings, whose default is dark mode off, speed 1, accent "en-US" |
| AppContext.MergeStats | context/AppContext.tsx:53-55 | `{...prev, ...patch}`: every supplied field is taken from the patch, every other field from the previous stats |
| AppContext.MergeSettings | context/AppContext.tsx:57-59 | the same overlay for settings |
| AppContext.MergeStatsOverlay | context/AppContext.tsx:53-55 | an empty patch changes nothing; a patch applied twice acts once; two merges equal one merge of the combined patch |
| AppContext.RecordScore | context/AppContext.tsx:72-73 | the history grows by one below 30 entries and keeps its length from 30 on; the new point is last |
| AppContext.RecordScoreSpec | context/AppContext.tsx:68-76 | the new point is last; a history below 30 gains it at the end; one at 30 or more loses its oldest entry; a history of at most 30 stays at most 30 |
| AppContext.RecordAllWindow | context/AppContext.tsx:68-76 | recording points one after another from a history of at most 30 leaves exactly the 30 most recent points of everything recorded |
| AppContext.AppStore.constructor | context/AppContext.tsx:30-38 | the store starts from the loaded stats and settings |
| AppContext.AppStore.UpdateStats | context/AppContext.tsx:53-55 | stats become the merge of the old stats and the patch; settings unchanged |
| AppContext.AppStore.UpdateSettings | context/AppContext.tsx:57-59 | settings become the merge; stats unchanged |
| AppContext.AppStore.AddPracticeTime | context/AppContext.tsx:61-66 | the total practice time rises by exactly `seconds`; every other stats field and the settings stay |
| AppContext.AppStore.SaveConversationScore | context/AppContext.tsx:68-76 | only the fluency history changes, to the recorded history; the new `{today, score}` is its last entry; the 30 bound is kept |
| DailyChallengePage.UseStoredChallenges | pages/DailyChallenge.tsx:14-18 | the stored list is used iff one is stored and its stored date equals today |
| DailyChallengePage.SpokeEnough | pages/DailyChallenge.tsx:38 | the completion test holds iff the text contains at least three spaces |
| DailyChallengePage.SpacesNotWords | pages/DailyChallenge.tsx:38 | "go   on" (two words, three spaces) passes the test while "I\nam\nhere\nnow" (four words, no space) does not |
| DailyChallengePage.MarkCompleted | pages/DailyChallenge.tsx:39 | same length and order; each challenge with the id is completed and every other is untouched |
| DailyChallengePage.MarkCompletedProperties | pages/DailyChallenge.tsx:39 | marking twice equals marking once; a flag ends set iff it was set or the id matches; a list without the id is unchanged |
| DailyChallengePage.ChallengeBoard.constructor | pages/DailyChallenge.tsx:7-10 | empty list, loading, no active challenge, the stored keys as found |
| DailyChallengePage.ChallengeBoard.FetchNewChallenges | pages/DailyChallenge.tsx:26-33 | the list is replaced wholesale by the generated list and stored along with today's date; loading ends |
| DailyChallengePage.ChallengeBoard.Mount | pages/DailyChallenge.tsx:12-24 | fetches iff the stored list is not from today; otherwise shows the stored list and leaves storage alone |
| DailyChallengePage.ChallengeBoard.VerifyChallenge | pages/DailyChallenge.tsx:35-44 | on a passing text the id is marked, the list stored and the active id cleared; on a failing text nothing changes |
| DailyChallengePage.ChallengeBoard.OnSpeechUpdate | pages/DailyChallenge.tsx:46-51 | one effect run: verifies the active challenge iff capture has ended with a non-empty transcript while a challenge with a non-empty id is active (an id "" is falsy and counts as none) |
| DailyChallengePage.ChallengeBoard.ToggleChallenge | pages/DailyChallenge.tsx:107-115 | clicking the active challenge stops capture and clears the id; clicking another makes it the only active id and starts capture, with the recognizer calls of `StartListening` |
| PracticePage.TopicOf | pages/Practice.tsx:12 | the topic parameter when present and non-empty, otherwise "General Chat" |
| PracticePage.OpeningMessage | pages/Practice.tsx:38 | the opening instruction names the topic |
| PracticePage.SendDisabled | pages/Practice.tsx:202-204 | the button is disabled iff the input is all whitespace and nothing is being captured |
| PracticePage.RoleOf | pages/Practice.tsx:87 | a message is a user turn, named "user", iff its sender is the user; AI and system messages are model turns, named "model" |
| PracticePage.History | pages/Practice.tsx:86-89 | one turn per message, in order, with the sender's role and the message text |
| PracticePage.HistoryAppend | pages/Practice.tsx:86-89 | the history of a concatenated log is the concatenation of the histories |
| PracticePage.ShapeLength | pages/Practice.tsx:39-100 | a session log shaped as greeting plus user/AI pairs holds exactly 2N + 1 messages for N user messages |
| PracticePage.ShapeExtend | pages/Practice.tsx:73-100 | a user message answered by an AI message keeps that shape |
| PracticePage.FormatClock | pages/Practice.tsx:105-109 | `m:ss`: digits, a colon, two digit characters below 60, and minutes × 60 + seconds equals the elapsed time |
| PracticePage.SecondsField | pages/Practice.tsx:107-108 | the padded seconds field is exactly two digits and reads back as the seconds |
| PracticePage.PracticeSession.constructor | pages/Practice.tsx:12-20 | the topic from the query and an empty session: no messages, not loading, empty input, zero seconds |
| PracticePage.PracticeSession.Greet | pages/Practice.tsx:35-51 | the opening request carries no history; the log becomes exactly one AI message with the reply; the greeting is spoken |
| PracticePage.PracticeSession.HandleSend | pages/Practice.tsx:67-103 | input that trims to nothing changes nothing; otherwise the log grows by the trimmed user message and then the AI reply; the request is the pre-send history plus the text; input and transcript end empty; speech is cancelled, then the reply is spoken; the log shape is kept |
| PracticePage.PracticeSession.Replay | pages/Practice.tsx:148-155 | an AI message is spoken again; the log is untouched |
| PracticePage.PracticeSession.OnSpeechUpdate | pages/Practice.tsx:54-58 | the input becomes the transcript iff capture is over and the transcript is non-empty |
| PracticePage.PracticeSession.SetInputText | pages/Practice.tsx:196 | the input box sets the input text only |
| PracticePage.PracticeSession.ToggleMic | pages/Practice.tsx:183 | stops capture while listening, starts it otherwise, with the recognizer calls of `StopListening` and `StartListening` |
| PracticePage.PracticeSession.Tick | pages/Practice.tsx:25-27 | each tick adds one second to the session time |
| PracticePage.PracticeSession.Unmount | pages/Practice.tsx:28-31 | as written, the cleanup adds the first render's zero, so the stored total is unchanged |
| PracticePage.PracticeSession.UnmountIntended | pages/Practice.tsx:28-31 | the intended cleanup adds the elapsed session seconds to the total once |
| PracticePage.StaleTimerExample | pages/Practice.tsx:24-32 | after five ticks the as-written cleanup stores nothing and the intended one stores five seconds |
| GeminiService.RoleName | pages/Practice.tsx:87 | a turn is named "user" iff it is a user turn and "model" iff it is a model turn |
| GeminiService.ChatContents | services/geminiService.ts:39-45 | the history in order, then one user turn with the message; length is the history's plus one |
| GeminiService.ChatReply | services/geminiService.ts:47-51 | a non-empty text is returned as it is; an empty one gives the apology; a thrown call gives the connection message; never empty |
| GeminiService.ExtractSpan | services/geminiService.ts:72 | a match starts with the opening and ends with the closing bracket |
| GeminiService.ExtractSpanIsMatch | services/geminiService.ts:72 | extraction succeeds iff some opening bracket precedes some closing one, and then yields the leftmost-longest match of the pattern |
| GeminiService.ExtractObject | services/geminiService.ts:72-73 | `/\{[\s\S]*\}/`: success iff a `{` precedes a `}`; the value is the first `{` through the last `}` |
| GeminiService.ExtractArray | services/geminiService.ts:101-102 | `/\[[\s\S]*\]/`: the same with `[` and `]` |
| GeminiService.ExtractIgnoresProse | services/geminiService.ts:72 | text without braces around a reply leaves the extracted object unchanged |
| GeminiService.AnalysisPrompt | services/geminiService.ts:62-64 | the target prompt (quoting the target) iff a non-empty target is given, otherwise the free prompt; the spoken text is always included |
| GeminiService.AnalysisResult | services/geminiService.ts:70-85 | a thrown call or a reply without an object gives the fixed fallback; otherwise the parse of the extracted object, or the fallback when parsing fails |
| GeminiService.AnalysisFallback | services/geminiService.ts:77-84 | scores 0, 0 and 0, the one mistake "Error analyzing audio", no corrected version, feedback "Could not analyze at this time." |
| GeminiService.EmptyReplyFallsBack | services/geminiService.ts:71 | an empty reply gives the fallback with fluency score 0 |
| GeminiService.ChallengeList | services/geminiService.ts:99-107 | an empty reply, no array, a failed parse or a thrown call gives the empty list; otherwise the parsed array |
| JsText.Trim | pages/Practice.tsx:68 | `trim`: empty iff all whitespace; a contiguous slice with whitespace only outside it and none at its ends |
| JsText.ToLower | pages/TopicSelection.tsx:21 | same length; each character mapped by its ASCII lower case |
| JsText.IndexOf | services/geminiService.ts:72 | the first position of a character, or None when it is absent; the model uses it to find where the regex match starts |
| JsText.LastIndexOf | services/geminiService.ts:72 | the last position of a character, or None when it is absent; the model uses it to find where the regex match ends |
| JsText.Includes | pages/TopicSelection.tsx:21 | `includes`: a part occurs at some position, so it is no longer than the string, and a prefix is always included |
| JsText.Utf16Length | pages/Pronunciation.tsx:16 | `length`: between the number of characters and twice it, and exactly it when no character lies outside the Basic Multilingual Plane |
| JsText.Split | pages/DailyChallenge.tsx:38 | `split(' ')`: at least one piece, and no piece contains the separator |
| JsText.SplitLength | pages/DailyChallenge.tsx:38 | `split(' ')` yields one piece more than there are spaces |
| JsText.SplitJoin | pages/DailyChallenge.tsx:38 | joining the pieces with the separator gives the text back |
| JsText.Decimal | pages/Practice.tsx:108 | `toString()` of a whole number: at least one digit, only digits, no leading zero |
| JsText.DecimalRoundTrip | pages/Practice.tsx:108 | reading back `toString()` of a whole number gives the number |
| JsText.PadStart | pages/Practice.tsx:108 | `padStart`: the string is a suffix, preceded by fill characters up to the width |
| UseSpeech.Pending | hooks/useSpeech.ts:24 | the results from `resultIndex` to the end, none when the index is past the end |
| UseSpeech.Finalized | hooks/useSpeech.ts:25-26 | the transcripts of the finalized results in order; no longer than all transcripts together |
| UseSpeech.Interim | hooks/useSpeech.ts:27-28 | the transcripts of the other results in order; no longer than all transcripts together |
| UseSpeech.Accumulate | hooks/useSpeech.ts:22-30 | the loop's `final` is the finalized transcripts of the pending results, in order, and `interim` the rest |
| UseSpeech.FinalizedAppend | hooks/useSpeech.ts:22-30 | accumulation distributes over concatenated result lists |
| UseSpeech.FinalizedEmpty | hooks/useSpeech.ts:31-33 | `final` is empty iff every finalized pending result has an empty transcript |
| UseSpeech.AccumulationSplitsAll | hooks/useSpeech.ts:22-30 | together, `final` and `interim` account for every character of every pending transcript |
| UseSpeech.SpeechAdapter.constructor | hooks/useSpeech.ts:3-17 | not listening, empty transcript, not speaking, no calls made |
| UseSpeech.SpeechAdapter.OnStart | hooks/useSpeech.ts:19 | listening becomes true; nothing else changes |
| UseSpeech.SpeechAdapter.OnResult | hooks/useSpeech.ts:21-34 | the transcript becomes the accumulated final text when it is non-empty and is kept otherwise |
| UseSpeech.SpeechAdapter.OnEnd | hooks/useSpeech.ts:36 | listening becomes false |
| UseSpeech.SpeechAdapter.OnError | hooks/useSpeech.ts:37-40 | listening becomes false |
| UseSpeech.SpeechAdapter.StartListening | hooks/useSpeech.ts:44-57 | with a recognizer: transcript cleared, then a `start` call, followed by `stop` and a delayed `start` when that call is refused; without one: only an alert |
| UseSpeech.SpeechAdapter.StopListening | hooks/useSpeech.ts:59-63 | one `stop` with a recognizer; nothing at all without one |
| UseSpeech.SpeechAdapter.Speak | hooks/useSpeech.ts:65-80 | with a synthesizer, a cancel and then the utterance in the configured language and rate; without one, nothing; every utterance follows a cancel |
| UseSpeech.SpeechAdapter.OnSpeechStart | hooks/useSpeech.ts:75 | speaking becomes true |
| UseSpeech.SpeechAdapter.OnSpeechEnd | hooks/useSpeech.ts:76 | speaking becomes false |
| UseSpeech.SpeechAdapter.OnSpeechError | hooks/useSpeech.ts:77 | speaking becomes false |
| UseSpeech.SpeechAdapter.CancelSpeech | hooks/useSpeech.ts:82-85 | a cancel when there is a synthesizer; speaking becomes false in any case |
| UseSpeech.SpeechAdapter.SetTranscript | hooks/useSpeech.ts:90 | the transcript setter changes the transcript only |
| PronunciationPage.ShouldAutoAnalyze | pages/Pronunciation.tsx:15-20 | analysis fires iff capture is over and the transcript is longer than five UTF-16 code units; more than five characters is always enough |
| PronunciationPage.ThreeEmojiTrigger | pages/Pronunciation.tsx:16 | three emoji, six code units, trigger the analysis although they are three characters |
| PronunciationPage.TargetArgument | pages/Pronunciation.tsx:27 | an empty target is passed as no target; any other is passed as it is |
| PronunciationPage.ScoreColor | pages/Pronunciation.tsx:34-38 | green iff score ≥ 80, yellow iff 60 ≤ score < 80, red iff score < 60 |
| PronunciationPage.ScoreColorMonotone | pages/Pronunciation.tsx:34-38 | a higher score never gets a worse colour band |
| PronunciationPage.PronunciationLab.constructor | pages/Pronunciation.tsx:11-13 | empty target, no result, not analysing |
| PronunciationPage.PronunciationLab.SetTargetText | pages/Pronunciation.tsx:53 | the target input sets the target only |
| PronunciationPage.PronunciationLab.HandleAnalyze | pages/Pronunciation.tsx:22-32 | an empty transcript changes nothing; otherwise the prompt carries the transcript and the non-empty target, the result is shown, and its fluency score (0 for the fallback) joins the history |
| PronunciationPage.PronunciationLab.OnSpeechUpdate | pages/Pronunciation.tsx:15-20 | analyses iff the trigger holds; then the prompt is the analysis prompt of the transcript and the non-empty target, the result is shown, its fluency score joins the history and the analysing flag ends false; otherwise result, stats and flag are unchanged |
| PronunciationPage.PronunciationLab.TryAnother | pages/Pronunciation.tsx:122 | result cleared and transcript emptied |
| DashboardPage.HoursMinutes | pages/Dashboard.tsx:8-10 | minutes < 60 and hours × 3600 + minutes × 60 ≤ seconds < that + 60 |
| DashboardPage.FormatDuration | pages/Dashboard.tsx:8-12 | "<h>h <m>m", whose two numbers read back as the hours and the leftover minutes of the time |
| DashboardPage.TotalTimeLabel | pages/Dashboard.tsx:37 | the "Total Time" card reads back as the hours and leftover minutes of the total practice time |
| DashboardPage.TotalTimeLabelDependsOnTime | pages/Dashboard.tsx:37 | the total-time label depends on the total practice time alone |
| DashboardPage.SumScores | pages/Dashboard.tsx:47 | the left fold of `reduce` equals the sum taken from the front |
| DashboardPage.AverageScore | pages/Dashboard.tsx:46-48 | 0 for no history; otherwise the integer nearest the mean, halves rounding up as `Math.round` does |
| DashboardPage.SumBounds | pages/Dashboard.tsx:47 | scores between lo and hi sum to between n × lo and n × hi |
| DashboardPage.AverageWithin | pages/Dashboard.tsx:46-48 | the average of a non-empty history lies between its lowest and highest score |
| DashboardPage.ChartData | pages/Dashboard.tsx:15-17 | the history when it is non-empty, otherwise the single point ("Start", 0); never empty |
| DashboardPage.SpeedPatch | pages/Dashboard.tsx:109 | the speed slider's patch changes the voice speed only |
| DashboardPage.AccentPatch | pages/Dashboard.tsx:117 | the accent selector's patch changes the accent only |
| TopicSelectionPage.Topics | pages/TopicSelection.tsx:5-14 | eight topics, the k-th with id "k", none with an empty title |
| TopicSelectionPage.TopicIdsDistinct | pages/TopicSelection.tsx:5-14 | no two catalogue topics share an id |
| TopicSelectionPage.Matches | pages/TopicSelection.tsx:21 | the lower-cased title includes the lower-cased term; every title matches the empty term, and no title matches a longer term |
| TopicSelectionPage.FilterTopics | pages/TopicSelection.tsx:20-22 | a topic is kept iff its lower-cased title contains the lower-cased term |
| TopicSelectionPage.FilterKeepsOrder | pages/TopicSelection.tsx:20-22 | the filtered list is a subsequence of the catalogue, in catalogue order |
| TopicSelectionPage.FilterEmptyTerm | pages/TopicSelection.tsx:20-22 | an empty term keeps every topic |
| TopicSelectionPage.CardOpensItsTopic | pages/TopicSelection.tsx:44 | with the link parameter taken as the title itself, a card opens a session about exactly its title, since no catalogue title is empty; the random card opens one about "Random" |

## Left out

- The Gemini client (`getGenerativeModel`, `generateContent`, the system instruction and the generation settings) is foreign; only what the code does with a reply is modelled.
- `JSON.parse` is an oracle. The `as PronunciationResult` / `as DailyChallenge[]` casts perform no check, so a reply of the wrong shape is whatever the oracle returns.
- `AppContext.LoadStats` and `AppContext.LoadSettings` take the parser as given; a saved document that fails to parse (which throws in the source) is not modelled.
- Writing stats, settings and challenges to `localStorage`, and the dark-mode class on the document element, are I/O. The daily-challenge storage is modelled as the list itself; its JSON encoding is assumed to round-trip.
- The `setInterval` timer is a sequence of `Tick` calls. The 100 ms delayed restart in `startListening` is recorded as a `StartAfterDelay` call, not timed.
- Async interleavings are out of scope. Each async handler is modelled as running from its start to its resolution with nothing in between, and the loading flags' intermediate `true` is not observable in the model. A second send issued while a reply is pending, or a stale `transcript` closure, is not modelled.
- `PracticePage.PracticeSession.HandleSend` and `Greet` use one clock reading per message for both id and timestamp, where the source calls `Date.now()` twice. Message ids are not claimed unique.
- Floating point is left out: the weekly chart's `totalTimePracticed / 3600` and the placeholder hours; `parseFloat` of the slider (`DashboardPage.SpeedPatch` takes the parsed real); non-integer or out-of-range scores (scores are `int`).
- Strings are sequences of Unicode characters, where JavaScript strings are sequences of UTF-16 code units. Only `transcript.length` depends on the difference, and `JsText.Utf16Length` models it.
- TopicSelectionPage.CardOpensItsTopic: the title's round trip through `encodeURIComponent` and the query-string parsing of the practice page is taken to be the identity, not proved.
- The `OnSpeechUpdate` methods of `PracticePage.PracticeSession`, `DailyChallengePage.ChallengeBoard` and `PronunciationPage.PronunciationLab` are each one run of a React effect. React runs it only after `isListening` or `transcript` changed. The model does not record when a call is allowed: calling one again with no such change, for example after the user edited the input, is not something the page does.
- `JsText.ToLower` lowers ASCII letters only, not full Unicode case mapping.
- `UseSpeech.SpeechAdapter.OnResult` reads only each result's first alternative, as the source does; the recognizer's `continuous`/`interimResults`/`lang` settings are platform configuration.
- Explicitly `undefined` fields inside a `Partial<…>` patch are not modelled; a patch field is either supplied or absent.
- The model does not speak to what the browser does after receiving a recorded call to the recognizer or the synthesizer.
- The send-on-Enter key handler is the same `HandleSend`. Auto-scrolling, navigation back and to the pronunciation page, and all markup and styling are presentation.
- components/Layout.tsx, components/Visualizer.tsx, pages/Home.tsx and App.tsx are presentation and routing and are not part of this model.

## Findings

| source | as written | input that shows it | evidently intended | confidence | as-written member | corrected member |
|---|---|---|---|---|---|---|
| pages/Practice.tsx:28-31 | the timer effect has no dependencies, so its cleanup closure holds the first render's `sessionTime` (0) and always calls `addPracticeTime(0)` | a session left after five ticks adds 0 seconds to the total | the comment "Save time on unmount": add the elapsed session seconds | not executed | PracticePage.PracticeSession.Unmount | PracticePage.PracticeSession.UnmountIntended |
