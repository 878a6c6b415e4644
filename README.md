# HowRU_AI orchestration core, modelled in Dafny

HowRU_AI is a chat diary. A LangGraph graph talks with the user and collects
diary entries (event, time, core emotion, keywords, score, companions). It
then writes a one-line summary and a narrative body, draws three emotion
charts and renders a Markdown diary. A second graph, "SecretFriend", reads
the diary body. Four branches run in parallel: a song recommendation, a
quote, praise, and an F-style comfort plus a T-style advice. A last node
joins them into a Markdown letter.

This project models the deterministic core of both graphs and proves its
properties. The language models, agents and the Spotify search are
parameters (oracles). The modules are:

- `Text`: the Python string built-ins the core relies on.
  - `strip()` with Python's whitespace set.
  - ASCII `lower()`.
  - `join`, `str(int)`, and `%H`/`%M` zero padding.
- `Models`: the pydantic records.
  - `DiaryEntry` validation, with its bounds and error fields.
  - The emotion literal and the keyword map.
  - `MusicResponse` and `QuoteResponse`.
- `States`: the graph states and their merge policy.
  - `messages` is append-only.
  - Every other key is overwritten by a partial update.
- `Router`: the router that picks the next node from the message log.
- `TimeSort`: Python's stable `sorted(entries, key=time_period)`.
  - An insertion sort.
  - A proof that it is the unique stable ordering.
- `DiaryNodes`: keyword suggestion, entry accumulation, the body/summary
  step, and the data series behind the three charts.
- `DiaryDocument`: `_format_time_kr`, the event table built in a loop, and
  the diary template.
- `Tools`: `suggest_keywords_tool` and the guards and reply texts of
  `SpotifyTool._run`.
- `FriendNodes`: the SecretFriend guard, the four branches, the letter, and
  the pipeline with its branches run one after another.

Notes on the code's behaviour:

- Without a relationship, a companion's label is the bare name, not `name()`.
- The "alone" text 혼자 appears whenever the joined companion text is empty.
  This covers the empty list. It also covers a single companion whose
  name and relationship are both empty.
- The "q" comparison uses `strip().lower()`. It does not use full case folding.

## Model

| member | source | states |
|---|---|---|
| Text.Strip | agents/core/tools.py:51 | `strip()` is the input with a whitespace-only head and tail cut off, so it never lengthens; no whitespace is left at either end, and the result is empty exactly when the input is all whitespace |
| Text.Lower | agents/diary/diary_nodes.py:369 | `lower()` keeps the length, maps each character on its own, leaves no upper-case ASCII letter, and keeps every other character |
| Text.Join | agents/diary/diary_nodes.py:292-299 | `sep.join(xs)` is empty for no items, and otherwise starts with the first item |
| Text.JoinEndsWithLast | agents/diary/diary_nodes.py:292-299 | a join of a non-empty list ends with the last item |
| Text.JoinFive | agents/diary/diary_nodes.py:301-303 | joining five items puts the separator between each neighbouring pair and nothing else |
| Text.StripIdempotent | agents/secretfriend/secretfriend_nodes.py:172 | stripping twice is the same as stripping once |
| Text.StripBlankTail | agents/diary/diary_nodes.py:272 | stripping a trimmed text followed by whitespace gives back the trimmed text |
| Text.LowerIsQ | agents/diary/diary_nodes.py:369 | the only strings that lower-case to "q" are "q" and "Q" |
| Text.JoinIsEmpty | agents/diary/diary_nodes.py:294-299 | with a non-empty separator, a join is empty exactly when the list is empty or is a single empty string |
| Text.JoinSnoc | agents/diary/diary_nodes.py:305 | joining one more item appends the separator and the item |
| Text.NatToString | agents/diary/diary_nodes.py:272 | `str(n)` is non-empty decimal digits with no leading zero |
| Text.NatToStringRoundTrip | agents/diary/diary_nodes.py:272 | reading `str(n)` back as decimal gives `n` |
| Text.Pad2RoundTrip | agents/diary/diary_nodes.py:179 | the two-digit `%H`/`%M` field reads back as the number |
| Models.ParseEmotion | agents/core/models.py:16 | a string is accepted as a core emotion only if it is one of the eight literals |
| Models.EmotionLiteral | agents/core/models.py:16 | the eight literals are distinct; each parses back to its emotion; a string parses iff it is one of them |
| Models.KeywordMapShape | agents/core/models.py:18-27 | the keyword map has exactly the eight emotions as keys, each with a non-empty list |
| Models.TimeKeyOrder | agents/core/models.py:35 | the numeric time key orders times as `datetime.time` comparison does, and is one-to-one |
| Models.ToClock | agents/core/models.py:35 | a time is accepted iff hour < 24, minute < 60, second < 60 and microsecond < 10^6, keeping its fields |
| Models.ValidateCompanion | agents/core/models.py:6-13 | accepted iff name and relationship are present; the companion keeps the given name, relationship and note, and an absent note defaults to "" |
| Models.ValidateEntry | agents/core/models.py:29-42 | accepted iff every required field is present and within bounds (title 1..50, 1..3 keywords, score 0..100, texts ≤ 300/300/150); the result is a valid entry holding the given fields; a rejection names at least one field |
| Models.ValidateMusic | agents/core/models.py:46-59 | a music answer is accepted iff all four fields are present, and it keeps them |
| Models.ValidateQuote | agents/core/models.py:62-73 | a quote answer is accepted iff all three fields are present, and it keeps them |
| States.Merge | agents/core/states.py:8-20 | the reducer appends the update's messages; keys carried by the update take its values; every other key keeps its value |
| States.MergeEmpty | agents/core/states.py:8-20 | an empty update changes nothing |
| States.EntriesOverwritten | agents/core/states.py:10 | `entries` has no reducer: an update holding only the new entry replaces the list and does not append to it |
| States.ApplyAllMessages | agents/core/states.py:9 | after a run of updates, the log is the old log followed by every update's messages in order |
| States.ApplyAllEntries | agents/core/states.py:10 | after a run of updates, `entries` is the value from the last update that carried it, or is unchanged if none did |
| States.MergeFriend | agents/core/states.py:24-31 | the merged state carries the keys of both sides; each of the seven fields takes the update's value when the update carries it and keeps its old value otherwise |
| States.MergeFriendSelf | agents/core/states.py:24-31 | merging a state into itself is a no-op |
| States.MergeFriendCommutes | agents/core/states.py:24-31 | two updates with disjoint keys can be merged in either order |
| Router.NextRoute | agents/diary/diary_nodes.py:350-376 | an empty log routes to the info turn; the keyword-message and entry routes are taken exactly when the last message is an AI message whose first tool call names that tool; body generation only after a user "q"; the end only when the last message is not the user's |
| Router.RouteNamesDistinct | agents/diary/diary_nodes.py:350-376 | the five node names the router returns are pairwise different |
| Router.QuitSignalExact | agents/diary/diary_nodes.py:369 | a message is the end signal iff it is from the user and strips to "q" or "Q" |
| Router.EmptyLogRoutesToInfo | agents/diary/diary_nodes.py:351-353 | an empty log routes to the info turn |
| Router.ToolCallWins | agents/diary/diary_nodes.py:357-364 | a last AI message whose first tool call is the keyword tool or the entry schema routes to that node, whatever came before it |
| Router.OtherToolFallsThrough | agents/diary/diary_nodes.py:357-374 | a call to any other tool falls through to the "q" rule and then to the end |
| Router.QuitRule | agents/diary/diary_nodes.py:367-370 | a "q" from the user just before a last message that is not a recognised tool call routes to body generation |
| Router.DefaultRoutes | agents/diary/diary_nodes.py:372-376 | otherwise the route is the info turn if the last message is from the user, and the end if it is not |
| Router.InfoExactly | agents/diary/diary_nodes.py:350-376 | the route is the info turn exactly when the log is empty, or ends with a user message not preceded by "q" |
| Router.EntryCallBeatsQuit | agents/diary/diary_nodes.py:357-370 | an entry-schema call after a "q" still routes to entry creation |
| Router.PaddedQuitEndsCollection | agents/diary/diary_nodes.py:369-370 | " Q " followed by an AI reply routes to body generation |
| TimeSort.Insert | agents/diary/diary_nodes.py:122 | one insertion step adds exactly one element |
| TimeSort.InsertPermutes | agents/diary/diary_nodes.py:122 | the list after one insertion step holds the old elements plus the new one, as a multiset |
| TimeSort.InsertSorted | agents/diary/diary_nodes.py:122 | inserting into a time-sorted list keeps it sorted |
| TimeSort.InsertKeepsOrderPerTime | agents/diary/diary_nodes.py:122 | insertion places the new entry after every entry with the same time |
| TimeSort.SortByTime | agents/diary/diary_nodes.py:122 | the sorted list is the same length as the input (permutation, order and stability are stated by SortByTimeCorrect) |
| TimeSort.SortByTimeCorrect | agents/diary/diary_nodes.py:122 | the result is sorted by time, a permutation, and stable (entries with equal times keep their recorded order) |
| TimeSort.SortedUnique | agents/diary/diary_nodes.py:178 | two sorted lists with the same order within each time are equal |
| TimeSort.StableSortIsSortByTime | agents/diary/diary_nodes.py:278 | any stable time-sort of the entries is this one, so the three nodes that sort see the same order |
| TimeSort.SortKeepsValid | agents/diary/diary_nodes.py:278 | sorting valid entries yields valid entries |
| DiaryNodes.TriggeringCall | agents/diary/diary_nodes.py:63 | `messages[-1].tool_calls[0]` exists iff the last message is an AI message with a tool call, and it is that call |
| DiaryNodes.SuggestKeywordsNode | agents/diary/diary_nodes.py:62-72 | fails without a tool call or a valid `core_emotion`; otherwise it answers the call with exactly one ToolMessage holding the emotion's keywords, comma-joined, inside the <RAW> prompt, and sets no other key |
| DiaryNodes.CreateEntryNode | agents/diary/diary_nodes.py:80-95 | succeeds iff there is a call whose arguments meet the schema; the returned list is the old list (absent means empty) plus the validated entry; exactly one acknowledgment is added |
| DiaryNodes.CreateEntryAccumulates | agents/diary/diary_nodes.py:80-95 | after the merge, the state's list gains the entry at the end, the log gains the acknowledgment, nothing else changes, and validity of all entries is kept |
| DiaryNodes.GenerateDiaryBodyNode | agents/diary/diary_nodes.py:112-135 | with no entries, it writes the two fixed fallback texts and calls no model; otherwise both chains get the same stable time-sorted permutation of the entries; only `one_liner` and `diary_body` are written |
| DiaryNodes.EmotionIndex | agents/diary/diary_nodes.py:146-155 | each emotion has an index below 8, and the axis maps it back |
| DiaryNodes.EmotionIndexBijective | agents/diary/diary_nodes.py:146-155 | the emotion axis is a bijection between 0..7 and the eight emotions |
| DiaryNodes.TimeLabel | agents/diary/diary_nodes.py:179 | `%H:%M` is five characters, with a colon at index 2 and digits reading back as the hour and minute |
| DiaryNodes.Tally | agents/diary/diary_nodes.py:177 | the Counter holds exactly the emotions that occur, each with its number of entries |
| DiaryNodes.Series | agents/diary/diary_nodes.py:177-182 | one label, index and score per entry, taken from the time-sorted entries in order; indices lie on the 0..7 axis and name the entry's emotion |
| DiaryNodes.ChartData | agents/diary/diary_nodes.py:173-185 | raises on a missing `entries`, then on a missing `today_date`; otherwise gives the series |
| DiaryNodes.OccursOnce | agents/diary/diary_nodes.py:146-155 | every emotion appears exactly once on the axis |
| DiaryNodes.CountOverEach | agents/diary/diary_nodes.py:177 | over any list that names every emotion exactly once, the per-emotion counts add up to the number of entries |
| DiaryNodes.TallySumsToEntries | agents/diary/diary_nodes.py:177 | the pie-chart counts sum to the number of entries |
| DiaryNodes.ChartScoresInRange | agents/diary/diary_nodes.py:182 | with valid entries every plotted score lies in 0..100 |
| DiaryDocument.TwelveHourClock | agents/diary/diary_nodes.py:266-271 | 오전 exactly before noon; the dial hour is in 1..12, with 12 at midnight and noon, h - 12 in the afternoon and h in the morning; the period and dial hour give the hour back |
| DiaryDocument.FormatTimeKr | agents/diary/diary_nodes.py:266-272 | the label starts with its period, 오전 or 오후, ends in 분 exactly when the minute is not zero (시 otherwise), and has no whitespace at either end |
| DiaryDocument.FormatTimeKrIsStripped | agents/diary/diary_nodes.py:266-272 | the time label equals the stripped f-string, has no whitespace at either end, and has the minute suffix exactly when the minute is not zero |
| DiaryDocument.CompanionsCellAlone | agents/diary/diary_nodes.py:294-300 | the cell is 혼자 for an empty list, and otherwise only for one companion whose label is empty or is 혼자; a label is empty iff name and relationship are both empty |
| DiaryDocument.CompanionLabel | agents/diary/diary_nodes.py:296 | a label starts with the name; with a relationship, the rest is exactly "(" + relationship + ")"; without one, it is the bare name; it is empty exactly when name and relationship are both empty |
| DiaryDocument.CompanionsCell | agents/diary/diary_nodes.py:294-300 | the cell is never empty; it is the labels joined with ", " whenever that join is non-empty, and 혼자 when there are no companions |
| DiaryDocument.TableRow | agents/diary/diary_nodes.py:290-303 | a row opens with "| " and the entry's time label and closes with " |" |
| DiaryDocument.TableRowCells | agents/diary/diary_nodes.py:290-303 | a row is exactly "| " + the five cells joined with " | " + " |": time label, title, emotion name, keywords joined with ", ", companions cell |
| DiaryDocument.TableRows | agents/diary/diary_nodes.py:289-303 | one row per entry, in the order given |
| DiaryDocument.BuildTableLines | agents/diary/diary_nodes.py:285-303 | the lines are the header, the rule, then one row per sorted entry, in order |
| DiaryDocument.TableFollowsTime | agents/diary/diary_nodes.py:278-303 | the table has one row per entry; its rows follow the stable time order, a permutation of the input |
| DiaryDocument.ExamBeforeLunch | agents/diary/diary_nodes.py:278 | an exam at 09:00 and lunch at 12:30 are listed exam first, whichever was recorded first |
| DiaryDocument.DateKr | agents/diary/diary_nodes.py:281 | the date heading is 13 characters, with 년, 월 and 일 at fixed places |
| DiaryDocument.DiaryMarkdown | agents/diary/diary_nodes.py:308-338 | the document opens with the dated 📘 title line and ends with the score chart's image link |
| DiaryDocument.DiarySectionsInOrder | agents/diary/diary_nodes.py:308-338 | the headings come in the order written-at, one-liner, event table, diary body, pie chart, timeline, score chart, at increasing offsets; each value (time, one-liner, table, body, the three chart urls) starts right where its heading ends |
| DiaryDocument.DateKrReadsBack | agents/diary/diary_nodes.py:281 | the date heading is 13 characters; year, month and day read back from fixed digit positions |
| DiaryDocument.FirstMissingKey | agents/diary/diary_nodes.py:275-338 | no key is missing exactly when all eight keys the node reads are present |
| DiaryDocument.GenerateDiaryNode | agents/diary/diary_nodes.py:274-341 | raises on the first absent key in reading order; otherwise it writes only `final_markdown`, the template over the sorted table |
| Tools.SuggestKeywords | agents/core/tools.py:17-25 | a valid core emotion yields its non-empty keyword list from the map; any other string yields [] |
| Tools.FoundReply | agents/core/tools.py:63-68 | the found-track reply holds the title, the artist and the URL, each inside its brackets at a fixed offset |
| Tools.NotFoundReply | agents/core/tools.py:70 | the not-found reply quotes the keyword in single quotes at its start |
| Tools.SpotifyRun | agents/core/tools.py:50-70 | a blank diary, then a blank keyword, returns its fixed message without searching; otherwise it searches for the stripped keyword, and the reply lists the found track or says none matched |
| Tools.RepliesDistinct | agents/core/tools.py:50-70 | the four kinds of reply can never be confused |
| FriendNodes.StartCheck | agents/secretfriend/secretfriend_nodes.py:170-178 | raises the ValueError iff the body is missing or whitespace-only; otherwise it returns the state unchanged |
| FriendNodes.StartCheckIsNoOp | agents/secretfriend/secretfriend_nodes.py:178 | the pass-through is a no-op under the merge, and the body is non-blank |
| FriendNodes.MusicNode | agents/secretfriend/secretfriend_nodes.py:46-54 | succeeds iff the body is present and the agent's answer parses as a MusicResponse; writes only `music` |
| FriendNodes.QuoteNode | agents/secretfriend/secretfriend_nodes.py:81-89 | succeeds iff the body is present and the agent's answer parses as a QuoteResponse; writes only `quote` |
| FriendNodes.PraiseNode | agents/secretfriend/secretfriend_nodes.py:110-119 | writes only `praise`, which is the model's reply passed through `strip()`: trimmed, and empty only if the reply is blank |
| FriendNodes.MBTIFeedbackNode | agents/secretfriend/secretfriend_nodes.py:138-152 | writes only `F_feedback` and `T_feedback`: the two replies, trimmed |
| FriendNodes.BranchesWriteDisjointFields | agents/secretfriend/secretfriend_nodes.py:52-54 | the four branches write pairwise-disjoint keys, and none writes the body or the letter |
| FriendNodes.LetterText | agents/secretfriend/secretfriend_nodes.py:198-245 | the letter ends with the fixed closing |
| FriendNodes.LetterSectionsInOrder | agents/secretfriend/secretfriend_nodes.py:198-245 | the headings for praise, music, quote, F, T and the closing appear at strictly increasing offsets, whatever the texts |
| FriendNodes.FirstMissingField | agents/secretfriend/secretfriend_nodes.py:192-196 | no field is missing exactly when music, quote, praise, F and T feedback are all present |
| FriendNodes.LetterNode | agents/secretfriend/secretfriend_nodes.py:188-249 | raises on the first absent field; otherwise writes only `letter_markdown`, the template over the five fields |
| FriendNodes.LetterDependsOnBranchFieldsOnly | agents/secretfriend/secretfriend_nodes.py:198-249 | states that agree on the five fields get the same letter |
| FriendNodes.RunPipeline | agents/secretfriend/secretfriend_nodes.py:170-249 | a blank body fails with the ValueError; the run succeeds iff the guard and all four branches succeed; then the body is kept, each branch's fields are in the result, and the letter is the template over exactly those five fields |
| FriendNodes.JoinOrderIrrelevant | agents/core/states.py:24-31 | merging four branch updates with disjoint keys in reverse order gives the same state |

## Left out

- Language-model calls, agent executors, the Tavily web search and Spotify API access are parameters. Their outputs are not specified. Prompt texts (the two `prompts.py` modules) are not part of this model.
- The InfoNode turn only forwards the log to a model. Chart drawing, file paths, UUID file names and font loading are I/O. The chart URLs enter the model as opaque strings.
- `random.randint(0, 50)` in `SpotifyTool._run` is a parameter (`Offset`) and is not drawn.
- Tools.SpotifyRun: the `.get` fallbacks that turn missing track fields into `None` are not modelled. A found track always has a name, an artist and a URL.
- JSON parsing and pydantic type coercion of tool-call arguments and agent answers are not modelled. Arguments arrive as typed records whose fields may be absent. An agent answer that is not a JSON object is `None`.
- `add_messages` replaces a message that reuses an existing message id. The model only appends, since every node here creates new messages.
- The SecretFriend branches run concurrently in LangGraph. The model runs them one after another. When several branches fail, which error is reported is a choice (the first in the order music, quote).
- Text.Lower: only ASCII letters are lower-cased. The router compares against "q", and no other character lower-cases to "q".
- DiaryDocument.DateKr: the year is written with four digits. Some platforms' `%Y` does not pad years below 1000.
- Models.ToClock: the time zone of `datetime.time` is not modelled.
- The `logging` hook on the node base classes only prints, and it is left out.
- The commented-out router variant and the graph wiring (node registration, edges) are left out.
- DiaryNodes.SuggestKeywordsNode: invoking the LangChain tool first checks `core_emotion` against the literal. So the map's `[]` default is only reachable through a direct call (Tools.SuggestKeywords).
