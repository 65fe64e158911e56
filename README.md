# ITMO master's programme advisor — a Dafny model

The repository is a Telegram bot that advises applicants choosing between two ITMO
master's programmes, "Artificial Intelligence" (`ai`) and "AI Product Management"
(`ai_product`). It also contains a scraper that builds a flat program record from a
programme's web page. This project models the deterministic core of both and proves
properties of that model:

- **Questionnaire and scoring** (`bot.py`). `/start` and `/recommend` reset a user's
  entry in `USER_STATE`. Each answer stores one field and moves the stage
  `question_0 → question_1 → question_2 → advised`. `give_recommendation` then
  counts keyword hits in the answers and recommends a programme or declares a tie.
  The `Bot` class holds `USER_STATE` as a map, `PROGRAM_DATA` as a map and the
  replies sent so far.
- **Free-text handler** (`bot.py`). `handle_query` has a keyword gate. It then picks
  the programme, branches on the topic in a fixed order and shapes the reply:
  at most five team members, at most three exam dates cut at `T`, and the course
  list of `suggest_courses`.
- **Program loading** (`bot.py`). `load_all_programs` derives a key from each
  `.json` file name and counts the files that loaded.
- **Extraction** (`scraper.py`). `parse_itmo_program` picks the JSON data island or
  the first qualifying `application/json` block, and unwraps an HTML comment. It
  parses strictly and falls back to a salvage slice. It then walks the fixed path
  `props.pageProps` and reshapes the data into the record. The saved record
  round-trips through its JSON form.

Modules:

| file | module | contents |
|---|---|---|
| wrappers.dfy | `Wrappers` | `Option`, `Result` |
| py_strings.dfy | `PyStrings` | Python `in`, `startswith`, `endswith`, `find`, `rfind`, `strip`, `split(...)[0]` / `[-1]` |
| py_json.dfy | `PyJson` | JSON values, `dict.get`, subscripting, slicing, iteration, truthiness, f-string display |
| scraper_island.dfy | `ScraperIsland` | island choice, comment unwrapping, strict parse, salvage, path navigation |
| scraper_record.dfy | `ScraperRecord` | the record, its construction, the whole extraction, the saved JSON form |
| scoring.dfy | `Scoring` | the keyword score and the verdict |
| query.dfy | `Query` | `handle_query`, the recommendation replies, `suggest_courses` |
| loader.dfy | `Loader` | what `load_all_programs` keeps |
| bot.dfy | `Bot` | the questionnaire state machine and the `Bot` class with its handlers |

**Exceptions.** Python exceptions are values here.
- The scraper's `ValueError`s are `Error.NoIsland`, `Error.Unparseable` and
  `Error.StructureMismatch`.
- Any exception it does not catch (a `TypeError`, an `AttributeError`, an
  `IndexError`, or a `KeyError` outside the `try`) is `Error.Fault`.
- A handler that raises produces an `Outcome`: the replies sent before the raise,
  plus a `Crash`. `ProgUnbound` means `prog` was never assigned. `DataFault` means
  the program data had an unexpected shape or a key was missing.

**A missing program record.** `give_recommendation` reads
`PROGRAM_DATA["itmo_ai_parsed"]` with a subscript (bot.py:167, and bot.py:170 for the product record), so a missing record
raises `KeyError`; the model returns `Crash.DataFault` (`Query.Recommendation`).
The stage then stays `question_2`, because `bot.py:143` is never reached.

**Parameters standing in for code outside the model.**
- `json.loads` is the function `loads: string -> Option<Json>`.
- `str()` of a float, list or dict is `show: Json -> string`.
- The HTML parser's result is the optional `nextData` string.
- The regular expression's matches are the sequence `matches`.
- The data directory is a `Listing` of file names, each with its parse result.

## Model

| member | source | states |
|---|---|---|
| Scoring.TechScore | bot.py:156-161 | the technical score is at most 7, one point per keyword of the list |
| Scoring.ProductScore | bot.py:157-164 | the product score is at most 6, one point per keyword of the list |
| Scoring.Scores | bot.py:153-164 | the two counting loops produce exactly `TechScore(bg, interest)` and `ProductScore(bg, interest, startup)` |
| Scoring.InAnyIff | bot.py:160-163 | `w in a or w in b ...` holds iff some answer contains the keyword |
| Scoring.HitsCountsKeywords | bot.py:159-164 | a score is the number of distinct keywords occurring in some answer, so no keyword counts twice |
| Scoring.HitsMonotone | bot.py:159-164 | adding answers never lowers a score |
| Scoring.HitsSameAnswers | bot.py:159-164 | a score depends only on the set of answers, not on their order or repetition |
| Scoring.HitsNone | bot.py:159-164 | answers containing no keyword score 0 |
| Scoring.EmptyAnswerIrrelevant | bot.py:148-150 | an empty answer (the `.get(..., "")` default) adds nothing to a score |
| Scoring.ProductEmptyAnswerIrrelevant | bot.py:150-164 | with an empty startup answer the product score is the score of background and interest alone |
| Scoring.StartupOnlyRaisesProduct | bot.py:159-164 | the startup answer cannot lower the product score; the technical score does not take it as an argument at all |
| Scoring.HitAtLeastOne | bot.py:159-164 | one keyword found gives at least one point |
| Scoring.HitsZero | bot.py:159-164 | no keyword found gives 0 points |
| Scoring.HitsOne | bot.py:159-164 | exactly one keyword found gives exactly one point |
| Scoring.FirstAnswerHits | bot.py:159-164 | one non-blank answer which contains keyword k, and lacks a letter of every other keyword, gives one point (none when k is out of range) |
| Scoring.HitsByWitnesses | bot.py:159-164 | when keyword k occurs in some answer and every other keyword misses a letter in every answer, the score is one point (none when k is out of range) |
| Scoring.Decide | bot.py:166-174 | technical iff ai_score > ai_p_score, product iff the reverse, tie iff equal |
| Scoring.NoAnswersTie | bot.py:148-174 | three empty answers score 0 and 0 and give the tie branch |
| Scoring.SubstringHit | bot.py:160 | matching is by substring: "html" scores the keyword "ml" |
| Scoring.ProgrammingIsTechnical | bot.py:156-168 | background "программирование" scores 1 to 0 and recommends the technical programme |
| Scoring.StartupIsProduct | bot.py:157-171 | startup answer "стартап" alone scores 0 to 1 and recommends the product programme |
| Scoring.OnePointEachTies | bot.py:156-174 | "программирование" with "стартап" scores 1 to 1, a tie |
| Query.ChooseProgram | bot.py:230-235 | the product keywords take priority over "ai"; no programme keyword leaves `prog` unbound, and only then |
| Query.TopicOf | bot.py:238-258 | topics are tested in the order compare, recommend, team, manager, dates; each is chosen iff its keywords occur and no earlier topic's do |
| Query.RedundantKeywords | bot.py:230-249 | "сравнить" and "руководитель" contain a shorter keyword of their own test, so they never decide anything; "ai_product" contains "ai" of the next test, which is why the product test comes first |
| Query.TeamReply | bot.py:246-247 | the team reply shows `prog['title']` and the first min(n, 5) members of a list of n, in order, each as its displayed name and position; with a list team and a title, the reply exists iff each of the first five entries has a `name` and a `position` |
| Query.ManagerReply | bot.py:251-252 | the manager reply exists iff `prog['supervisor']` is a dict with a `name`, and shows that name |
| Query.DatesReply | bot.py:256-257 | at most 3 dates, exactly min(n, 3); each is the part of the stored string before its first `T` and contains no `T`; for a list, the reply exists iff its first three (or fewer) entries are strings |
| Query.OverviewReply | bot.py:262-271 | the overview is produced exactly for a dict holding `title`, `academic_plan_url`, an `about` dict with `lead`, a `career` dict with `text` and an `education_cost` dict; it shows the title and the plan link |
| Query.BoundReplies | bot.py:244-273 | with `prog` bound at most one reply is sent and `ProgUnbound` never occurs; a falsy `prog` sends nothing, except the overview, which asks which programme is meant |
| Query.HandleQuery | bot.py:216-273 | off-topic text gets only the two rejections; a compare or recommend request ends in "use /compare" or "use /recommend", after "not understood" when no programme is named; without a programme keyword every topic that reads `prog` crashes with `ProgUnbound`; with one, the replies are those of the chosen record on the selected topic |
| Query.TeamWithoutProgramCrashes | bot.py:229-248 | "команда" passes the gate, names no programme, and raises at `if prog:` after one reply |
| Query.HandleQueryFixed | bot.py:216-273 | with `prog` defaulting to `None` the handler never crashes with `ProgUnbound`: without a programme keyword it sends "not understood", then "which programme?" on the overview topic and nothing more elsewhere; with one, the replies are those of the chosen record on the selected topic, with the manager read from `manager` |
| Query.ManagerReplyFixed | scraper.py:119-121 | the corrected manager reply exists iff the record's `manager` is a dict with a `name`, and it shows that name |
| Query.ManagerMissingOnSavedRecord | bot.py:249-253 | on any record the scraper saves, the manager topic as written raises and sends nothing |
| Query.ManagerFoundOnSavedRecord | scraper.py:119-121 | the corrected manager topic shows the manager name the scraper stored |
| Query.CoursesFor | bot.py:190-206 | slug "ai" gives its 5 courses and "ai_product" its 4; any other hashable slug gives none; a list or dict slug raises |
| Query.SuggestCourses | bot.py:205-211 | for a dict, the course list is that of `course_map` for its `slug` ("" when missing), so an empty list without `slug`; an unhashable slug or a non-dict programme raises; the list never has more than 5 entries |
| Query.Recommendation | bot.py:166-186 | a tie sends only the tie message; otherwise, when nothing crashes, the recommended programme under its `title` with the verdict, then its course list; a missing record or title raises before anything is sent; with record and title present the first reply is the recommendation, and nothing raises iff the course list can be built |
| Query.TechnicalRecordCourses | bot.py:176-206 | a saved record with slug "ai" is recommended together with the five AI courses |
| Loader.JsonKey | bot.py:48 | `filename[:-5]` on a ".json" name is the name without its extension |
| Loader.KeyRoundTrip | bot.py:42-48 | every key is derived from exactly the file name `key + ".json"` |
| Loader.LoadedCount | bot.py:39-51 | the number of loaded files never exceeds the number of entries |
| Loader.LoadedKeys | bot.py:41-49 | a key is present iff some ".json" file of that name parsed |
| Loader.LoadedValue | bot.py:41-49 | with distinct file names, each parsed file's content is stored under its key |
| Loader.CountIsSize | bot.py:39-51 | with distinct file names, the load count equals the number of programs kept |
| Loader.SkippedFiles | bot.py:41-53 | a corrupt ".json" file and a non-JSON file are skipped: one valid file gives one entry and a count of 1 |
| Bot.QuestionStages | bot.py:126 | the `startswith("question_")` guard holds exactly for the three question stages |
| Bot.Answer | bot.py:132-143 | each answer stores its field and advances the stage by exactly one, unless the recommendation raises, which leaves the stage at `question_2`; the other fields are unchanged and consistency is kept; the third answer of a consistent record is scored with the stored background and interest |
| Bot.WholeQuestionnaire | bot.py:117-143 | three answers after /recommend store all three and end in `advised` with the recommendation of their scores, or stay at `question_2` when the recommendation raises |
| Bot.TieSendsOnlyTieMessage | bot.py:140-174 | equal scores at the last answer send only the tie message and end in `advised` |
| Bot.Bot.constructor | bot.py:21-24 | both maps start empty and nothing has been sent |
| Bot.Bot.Start | bot.py:63-77 | /start replaces the user's entry with exactly `{stage: start}`, sends the welcome and changes no other user |
| Bot.Bot.Recommend | bot.py:117-122 | /recommend replaces the user's entry with exactly `{stage: question_0}`, discarding earlier answers, and sends the two prompts |
| Bot.Bot.GiveRecommendation | bot.py:146-186 | sends the recommendation replies for the user's stored answers and changes no state |
| Bot.Bot.HandleQuestionnaire | bot.py:127-143 | only the sender's entry changes, and it becomes `Answer` of the old entry; at `question_2` the replies sent are the recommendation for the stored background and interest and the new answer |
| Bot.Bot.HandleQuery | bot.py:216-273 | sends the corrected handler's replies; no state changes |
| Bot.Bot.OnText | bot.py:126-127 | a text goes to the questionnaire iff the stage starts with "question_"; otherwise the user map is unchanged |
| Bot.Bot.LoadAllPrograms | bot.py:27-58 | a missing directory changes nothing; otherwise `PROGRAM_DATA` becomes exactly the parsed ".json" files under their keys, with their count |
| ScraperIsland.FirstCandidate | scraper.py:56-59 | the first block containing both markers, or none iff no block contains both |
| ScraperIsland.SelectIsland | scraper.py:48-61 | a non-empty `__NEXT_DATA__` text wins; else the first qualifying block; `NoIsland` iff neither exists |
| ScraperIsland.CleanIsland | scraper.py:64-66 | the cleaned text has no leading or trailing whitespace |
| ScraperIsland.CleanIslandCases | scraper.py:64-66 | a `<!-- ... -->` wrapper of non-overlapping markers around the stripped text is removed and the inside stripped again; anything else is only stripped |
| ScraperIsland.OverlappingMarkersKept | scraper.py:66 | "<!--->" starts and ends with the markers but is kept as it is |
| ScraperIsland.SalvageSlice | scraper.py:75-78 | a slice exists iff '{"props":' occurs and a `}` follows it; the slice starts at the first signature, starts with it, ends with `}`, and no `}` lies after it |
| ScraperIsland.ParseIslandOutcome | scraper.py:69-83 | the salvage pass runs only when the strict parse fails; every failure is `Unparseable` |
| ScraperIsland.DecodeIsland | scraper.py:63-83 | the step-by-step decoding equals `ParseIsland` |
| ScraperIsland.StripComment | scraper.py:64-66 | the reassigned `json_str` equals `CleanIsland` |
| ScraperIsland.SalvageText | scraper.py:75-81 | the salvage text equals `SalvageSlice` |
| ScraperIsland.Navigate | scraper.py:86-98 | succeeds iff `apiProgram`, `jsonProgram` and `similarPrograms` are under `props.pageProps`, and returns them with `examDates` defaulting to `[]`; a missing key raises `StructureMismatch` |
| ScraperRecord.FullName | scraper.py:120 | a name is built exactly for a dict, and it has no leading or trailing whitespace |
| ScraperRecord.NoNameParts | scraper.py:120-124 | three missing or empty name parts give "" |
| ScraperRecord.TrimmedParts | scraper.py:120 | trimmed, non-empty first and last names are joined by single spaces with nothing removed |
| ScraperRecord.TrailingSpaceIrrelevant | scraper.py:124 | the extra trailing space of the team names changes nothing |
| ScraperRecord.MemberWithoutPositions | scraper.py:125 | a member whose `positions` is missing or empty has position "" |
| ScraperRecord.Comprehend | scraper.py:122-156 | a comprehension over a list succeeds iff every element maps, and keeps length and order |
| ScraperRecord.ReadHeader | scraper.py:102-118 | each header field is the value the dict literal reads, with its default: title and slug default to "Неизвестно", the about texts, career text (from `career.lead`), study label, plan, direction and code to "", the cost to {}; faculty and link come from the first entry of `faculties`; an empty `faculties` or a non-dict source raises; the header is built iff both sources are dicts, every nested `.get` finds a dict and the faculty fields can be read |
| ScraperRecord.FacultyField | scraper.py:117-118 | `faculties` missing gives the default, a non-empty list gives its first entry's field, an empty list or a non-list raises |
| ScraperRecord.Reshape | scraper.py:101-157 | the record is the header of `ReadHeader` and the fields of `ReadLists`, with the fixed six scholarships and the exam dates copied; an error in the header comes first, then one in the later fields; a record is built iff both readers succeed |
| ScraperRecord.ReadLists | scraper.py:119-157 | the manager name is `FullName` of the supervisor (so trimmed, and "" without one); team, partners, admission methods, video links and similar programmes keep the length and order of their sources, element by element; team names are trimmed and partners contain no '/'; social links default to {}; the fields are built iff `jsonProgram` and `supervisor` are dicts, the nested lists can be read and every element can be converted |
| ScraperRecord.ComprehendLogos | scraper.py:130-132 | every partner is a last path segment and contains no '/' |
| ScraperRecord.ComprehendMembers | scraper.py:122-129 | every team name is trimmed |
| ScraperRecord.Extract | scraper.py:44-159 | no island gives `NoIsland`; a failed parse gives `Unparseable`; a missing key gives `StructureMismatch`; otherwise the error of `Navigate` or the record `Reshape` builds from the page |
| ScraperRecord.BarePageDefaults | scraper.py:86-157 | a page whose `apiProgram` and `jsonProgram` are {} and which has no supervisor, team, admission or similar programmes gives title, slug and faculty "Неизвестно", manager "", the six scholarships and empty lists |
| ScraperRecord.BareNavigate | scraper.py:86-99 | the bare page's island navigates to its `pageProps` with the empty programme dicts and no exam dates |
| ScraperRecord.BareReshape | scraper.py:100-157 | the bare page reshapes to the all-defaults record |
| ScraperRecord.BareHeader | scraper.py:102-118 | two empty dicts give the all-defaults header |
| ScraperRecord.BareLists | scraper.py:119-157 | the bare page gives manager "", empty lists and social links {} |
| ScraperRecord.ParseItmoProgram | scraper.py:44-159 | the step-by-step extraction equals `Extract` |
| ScraperRecord.MapAllInverse | scraper.py:122-156 | decoding each encoded element of a list gives the list back |
| ScraperRecord.HeaderRoundTrip | scraper.py:101-118 | the saved scalar fields read back unchanged |
| ScraperRecord.TeamRoundTrip | scraper.py:122-129 | the saved team reads back unchanged |
| ScraperRecord.PartnersRoundTrip | scraper.py:130-132 | the saved partners read back unchanged |
| ScraperRecord.ScholarshipsRoundTrip | scraper.py:133-140 | the saved scholarships read back unchanged |
| ScraperRecord.SimilarRoundTrip | scraper.py:147-156 | the saved similar programmes read back unchanged |
| ScraperRecord.SavedRecordRoundTrip | scraper.py:173-175 | reading back the JSON form of any record gives the record |
| PyStrings.Find | scraper.py:75 | `find` is -1 iff the substring is absent; otherwise the first position where it occurs |
| PyStrings.RFindChar | scraper.py:76 | `rfind` is -1 iff the character is absent; otherwise its last position |
| PyStrings.Strip | scraper.py:64 | the result has no leading or trailing whitespace, and a trimmed string is unchanged |
| PyStrings.StripInfix | scraper.py:64 | the stripped text is a contiguous piece of the input: a prefix of what remains after the leading whitespace is dropped |
| PyStrings.StripRemovesSpace | scraper.py:64 | everything removed before and after the stripped text is whitespace |
| PyStrings.StripAllSpace | scraper.py:124 | a string made only of whitespace strips to "" |
| PyStrings.StripIdempotent | scraper.py:64-66 | stripping twice is stripping once |
| PyStrings.StripTrailingSpace | scraper.py:124 | a trailing space makes no difference after stripping |
| PyStrings.LastSegment | scraper.py:131 | `split(sep)[-1]` is a suffix without a separator, preceded by one if shorter |
| PyStrings.FirstSegment | bot.py:256 | `split(sep)[0]` is a prefix without a separator, followed by one if shorter |
| PyStrings.SegmentsWithoutSep | bot.py:256 | a string without the separator is its own first and last segment |
| PyJson.MapAll | scraper.py:122-156 | mapping a list succeeds iff every element maps, and keeps length and order |

## Left out

- The HTTP fetch in scraper.py:23-42, with its headers, timeout and `RequestException` wrapping. It is network I/O. The model starts from the parser's and the regular expression's results.
- BeautifulSoup's `find('script', id='__NEXT_DATA__')` and the `re.findall` in scraper.py:45-53. They are foreign library calls, and their results are the inputs `nextData` and `matches`.
- The internals of `json.loads` and `json.load`. Both are the parameter `loads` or a per-file parse result.
- The `__main__` block of scraper.py:163-182: writing files and naming them from the slug. It is I/O. `ScraperRecord.ToJson` and `ScraperRecord.FromJson` stand for the written and re-read form.
- The order of a JSON object's keys. A map has no order, so a comprehension over a non-empty dict gives `Error.UnorderedKeys` (or `Error.Fault` when the element function raises on a key string). Only the `careersImages` comprehension could succeed over a dict.
- `str()` of floats, lists and dicts. This is the `show` parameter. Integers, booleans and `None` are written out.
- The Telegram transport (bot.py:18, 277-282): `send_message`, `reply_to`, keyboards, Markdown text, polling and decorator routing. Replies are `Query.Reply` events appended to `sent`.
- /help and /compare (bot.py:80-113). They send fixed text and change no state.
- The tuple-shaped `msg` of bot.py:176-182. It is presentation only; the reply records the title and the verdict.
- `str.lower()` in bot.py:130 and 217. Texts are taken as already lower-cased.
- The `print` diagnostics in bot.py:50-58 and 151, and in scraper.py:89-92.
- The second registration of `/recommend` on `suggest_courses` (bot.py:188). Which of two handlers for one command runs is decided by the transport.
- The transport's choice among the command handlers, the questionnaire handler and `handle_query`. `Bot.Bot.OnText` models only the choice between the last two.
- Exceptions escaping a handler. The transport logs them and continues; the model returns the `Crash` and keeps the state reached so far.
- The order of `os.listdir`. The listing is an arbitrary sequence, and a later file with the same key overwrites an earlier one.
- The missing data directory (`FileNotFoundError`, bot.py:35-36). It is `dirExists = false`, which the caller sees as `found == false`.
- Loader.JsonKey: requires the ".json" suffix, because `load_all_programs` only applies `filename[:-5]` after checking it.
- Query.OverviewReply: states the title and plan link it shows, but not the lead, career and cost texts.
- Bot.Bot.HandleQuery: runs `Query.HandleQueryFixed`, the handler with both corrections of "## Findings", not bot.py's `handle_query` as written; on "команда" it does not raise, and on a saved record the manager topic replies with the stored name instead of raising `KeyError`. The as-written handler is `Query.HandleQuery`.
- Bot.Bot.OnText: its free-text branch is `Bot.Bot.HandleQuery`, so the same two corrections apply.
- Bot.Bot.OnText: states the new user map and the replies for the free-text branch, but not the questionnaire branch's replies, which `Bot.Bot.HandleQuestionnaire` states.

## Findings

| source | as written | input that shows it | evidently intended | confidence | as-written member | corrected member |
|---|---|---|---|---|---|---|
| bot.py:229-261 | `prog` is assigned only when a programme keyword occurs; otherwise the `if prog:` at bot.py:245, 250, 255 or 261 raises `UnboundLocalError` | the text "команда" | `prog` is `None` when no programme is named, so no topic raises and a falsy `prog` sends nothing further (the overview asks which programme is meant) | high, not executed | Query.TeamWithoutProgramCrashes | Query.HandleQueryFixed |
| bot.py:251-252 | the manager topic reads `prog['supervisor']`, but the saved record stores the manager under `manager` (scraper.py:119-121), so the topic raises `KeyError` on every scraped record | any saved record and the text "руководитель ai" | the manager name is read from `prog['manager']['name']` | high, not executed | Query.ManagerMissingOnSavedRecord | Query.ManagerFoundOnSavedRecord |
