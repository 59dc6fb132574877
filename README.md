# revision-board, modelled in Dafny

The teacher tool runs timed practice sessions ("DNA boards") built from
auto-generated questions. This project models the parts of it that carry
logic:

- **The practice board** (`DnaBoard`):
  - It is built from at most six cards: the due review cards first, then fresh cards sampled from the topic pool. The cards are shuffled and keyed by slot.
  - Each slot has its own operations: reveal, regenerate, re-level and swap.
  - Ratings are kept per card index, and the saved session record is built from them.
- **Difficulty normalisation** (`Difficulty`): the alias table and the lookups built on it.
- **The board-design forms** (`CreateDna`, and the older `CreateDnaLegacy`):
  - selection rows, row previews and the by-topic question cache;
  - the generation of one card per row, with its fallback card.
- **The class forms** (`CreateClass`, and the older `CreateClassLegacy`): the two topic lists and the toggle that keeps them disjoint, and the row that saving sends.
- **The dashboard** (`Dashboard`): the session totals, each class's success rate and days since its last session, the streak of consecutive session days, and the colour and label of "days since".
- **The question bank** (`TopicsQuestions`): the filters, the per-topic statistics and the add-question form.
- **The shared-board gallery** (`SharedDnas`): the topic list over all boards, the filters, loading a board as cards, and each board's topic preview.
- **The session-tracker overlay** (`Overlay`).

Shared modules:

- `Wrappers`: the Option type.
- `Strings`: lower-casing, searching, trimming and decimal rendering.
- `Seqs`: filtering, subsequences and de-duplication.
- `Sorting`: string order and the sorted, de-duplicated list.
- `Records`: the question row, the card, and the outcome of running a question's generator code.
- `Topics`: the sorted topic list and the topic search, which several components share.

Each component's state is modelled as a class, with one method per handler. The outside world enters as parameters:

- The outcome of a question's generator code is an `Execution`: it threw; it returned `null`/`undefined`; it returned a non-object; or it returned an object whose `q`, `a` and `image` may be missing.
- `Math.random()` values are `Unit` reals in [0, 1).
- A `sort(() => 0.5 - Math.random())` shuffle is an arbitrary permutation.
- The answers of database queries are `Option`s, None standing for a `null` `data`.
- `Date.now()` is a millisecond count, and today's date is a day number.

## Model

| member | source | states |
|---|---|---|
| DnaBoard.RunGenerator | src/components/DNABoard.jsx:103-117 | empty code gives "No question available"; a throw gives "Error in question"; a null or non-object value gives "Error generating question", each with "-" and no image; an object gives its q (default "Missing question"), its a (default "-") and its image |
| DnaBoard.GeneratorFailureShowsDash | src/components/DNABoard.jsx:103-117 | whenever generation fails, the answer shown is "-" with no image, and the question is one of the three error texts |
| DnaBoard.SlotKeyInjective | src/components/DNABoard.jsx:95-97 | different positions get different `slot-N` keys |
| DnaBoard.WithSlotKeys | src/components/DNABoard.jsx:95-97 | every card keeps its content and gets the key of its position |
| DnaBoard.KeyedDistinct | src/components/DNABoard.jsx:95-97 | the slot keys of a board are pairwise distinct |
| DnaBoard.Unkeyed | src/components/DNABoard.jsx:95-97 | the cards with their slot keys removed, one for one |
| DnaBoard.ReviewQuestions | src/components/DNABoard.jsx:55-61 | the due rows; none when the call threw or returned null |
| DnaBoard.ReviewCards | src/components/DNABoard.jsx:79-82 | one hidden review card per due row, showing its stored text |
| DnaBoard.FreshCards | src/components/DNABoard.jsx:83-92 | one hidden fresh card per sampled row, showing what its generator produced |
| DnaBoard.Pool | src/components/DNABoard.jsx:66-71 | the pool query keeps the table's order and returns exactly the rows of the class's topics (every one of them, and no other), or every row when the class has none |
| DnaBoard.Candidates | src/components/DNABoard.jsx:78-93 | the review cards followed by the fresh cards |
| DnaBoard.Sample | src/components/DNABoard.jsx:72-75 | the sample is min(slots, pool size) rows of the pool, taken without repetition |
| DnaBoard.Arrange | src/components/DNABoard.jsx:95-97 | the board is the first six candidates, in some order, keyed by position |
| DnaBoard.BuildBoard | src/components/DNABoard.jsx:51-101 | due cards are asked for the class name, or "Default Class"; the pool is queried (with recent + past topics) exactly when fewer than six cards are due; the board is what `BuiltBoard` describes, with at most six cards |
| DnaBoard.ReviewCountUnkeyed | src/components/DNABoard.jsx:95-97 | keying the board changes no card's review flag |
| DnaBoard.CandidatesReviewCount | src/components/DNABoard.jsx:78-93 | the first n candidates hold min(number of due rows, n) review cards |
| DnaBoard.BuiltBoardComposition | src/components/DNABoard.jsx:51-101 | a fetched board holds min(number of due rows, 6) review cards, and its other cards are fresh and come from the sample (at most 6 minus the review count) |
| DnaBoard.BuiltBoardCards | src/components/DNABoard.jsx:78-93 | every card of a fetched board starts hidden at the board font size; a review card shows its due row's stored text; a fresh card comes from the sample and shows generated text |
| DnaBoard.MapAt | src/components/DNABoard.jsx:195-199 | only the card at the given index changes |
| DnaBoard.MapAtKeyed | src/components/DNABoard.jsx:195-199 | an update that keeps a card's key keeps the board keyed |
| DnaBoard.Toggled | src/components/DNABoard.jsx:195-199 | only card `index` changes, and only its revealed flag flips |
| DnaBoard.ToggleTwice | src/components/DNABoard.jsx:195-199 | revealing twice restores the board |
| DnaBoard.Regenerated | src/components/DNABoard.jsx:126-142 | a refreshed card shows the new text, is hidden again, and keeps its row, key, font size and review flag |
| DnaBoard.Releveled | src/components/DNABoard.jsx:164-173 | a re-levelled card is the matched row with the generated question, answer and image; it is hidden and not a review; it keeps the slot's key and font size |
| DnaBoard.SwappedIn | src/components/DNABoard.jsx:186-190 | a swapped-in card is the picked row with the generated question, answer and image, hidden, not a review, at the board font size |
| DnaBoard.ChangeTargets | src/components/DNABoard.jsx:148-153 | a level outside 1-3 asks for no difficulty spelling |
| DnaBoard.ChangeTargetsAreVariations | src/components/DNABoard.jsx:148-153 | every spelling the re-level table asks for is an alias of that level; the lower-case `level N` alias is missing from it |
| DnaBoard.LevelMatches | src/components/DNABoard.jsx:153-159 | the re-level query returns, in table order, exactly the rows of a requested spelling in the card's skill (or else its topic): each such row is returned and no other; none for a level outside 1-3 |
| DnaBoard.Indices | src/components/DNABoard.jsx:204 | the card indices 0..n-1 |
| DnaBoard.CompleteIffAllRated | src/components/DNABoard.jsx:201-209 | when every rated index is a card index, "as many ratings as cards" holds exactly when every card is rated |
| DnaBoard.ReviewInterval | src/components/DNABoard.jsx:220-221 | the interval is 12 exactly for a recorded rating of at least 75, and otherwise 1 |
| DnaBoard.SessionResults | src/components/DNABoard.jsx:215-222 | one result per card, in board order, with the card's id, topic and shown text; an unrated card scores 0 with interval 1; the interval is 12 exactly when the score is at least 75 |
| DnaBoard.SessionClassId | src/components/DNABoard.jsx:214 | the session is filed under the class name, or "Custom Session" |
| DnaBoard.Board.constructor | src/components/DNABoard.jsx:29-31 | no cards and no ratings |
| DnaBoard.Board.Preload | src/components/DNABoard.jsx:43-45 | a board handed in with the class gets slot keys and is not truncated; ratings are untouched |
| DnaBoard.Board.FetchAndInit | src/components/DNABoard.jsx:51-101 | as `BuildBoard`, storing the board; ratings are untouched |
| DnaBoard.Board.ToggleReveal | src/components/DNABoard.jsx:195-199 | flips card `index` only; the board stays keyed |
| DnaBoard.Board.RefreshCard | src/components/DNABoard.jsx:126-142 | a card with generator code gets new text, and its rating is dropped; otherwise nothing changes |
| DnaBoard.Board.ChangeDifficulty | src/components/DNABoard.jsx:144-178 | no card at the index: nothing changes; no match: alert, nothing changes; otherwise the picked match takes the slot and that slot's rating is dropped |
| DnaBoard.Board.SwapTopic | src/components/DNABoard.jsx:180-193 | a non-empty table puts one of its rows in the slot and drops that slot's rating; otherwise nothing changes |
| DnaBoard.Board.HandleRating | src/components/DNABoard.jsx:201-209 | records the score, keeps the cards, and prompts exactly when as many indices are rated as there are cards |
| DnaBoard.Board.Reset | src/components/DNABoard.jsx:287 | the ratings are cleared and the cards kept |
| DnaBoard.Board.SaveSession | src/components/DNABoard.jsx:211-227 | the record is the class id and one result per card, as `SessionResults` |
| Difficulty.Display | src/utils/difficulty.js:39-43 | each level's display spelling is an alias of that same level |
| Difficulty.InfoOf | src/utils/difficulty.js:46-68 | each info record carries its own level, its display mark and the class name `level-N` |
| Difficulty.NormalizeToLevel | src/utils/difficulty.js:81-92 | a whole number 1-3 is kept; any other number gives 2; text is looked up exactly, then lower-cased, then defaults to 2; other values give 2; it differs from the code (NormalizeToLevelAsWritten) only on fractional numbers inside (1, 3) |
| Difficulty.NormalizeToLevelAsWritten | src/utils/difficulty.js:81-92 | the code as written: the result lies in [1, 3], a number in [1, 3] comes back unchanged, and the result is a whole level exactly when the input is not a fraction inside (1, 3) |
| Difficulty.NormalizeToDisplayAsWritten | src/utils/difficulty.js:104-107 | the code as written: `undefined` exactly for a fraction inside (1, 3); otherwise an alias of the code's level |
| Difficulty.NormalizeToDisplay | src/utils/difficulty.js:104-107 | always one of the three dot spellings, and it normalises back to the same level; built on the corrected NormalizeToLevel, so defined where the code gives `undefined` on fractional numbers |
| Difficulty.DifficultyInfoAsWritten | src/utils/difficulty.js:119-122 | the code as written: `undefined` exactly for a fraction inside (1, 3); otherwise the record of the code's level, whose mark is the code's display spelling |
| Difficulty.DifficultyInfo | src/utils/difficulty.js:119-122 | the record of the normalised level, whose mark is the display spelling; built on the corrected NormalizeToLevel, so defined where the code gives `undefined` on fractional numbers |
| Difficulty.Variations | src/utils/difficulty.js:135-139 | exactly the aliases of the given level |
| Difficulty.NormalizeIdempotent | src/utils/difficulty.js:81-92 | normalising a normalised level changes nothing |
| Difficulty.NormalizeTotal | src/utils/difficulty.js:81-92 | every input normalises to 1, 2 or 3 |
| Difficulty.DisplayRoundTrip | src/utils/difficulty.js:104-122 | the display spelling round-trips to the level and to the info record |
| Difficulty.VariationsPartition | src/utils/difficulty.js:12-36 | the three levels' variations are disjoint and together make up the alias table |
| Difficulty.VariationsInverse | src/utils/difficulty.js:135-139 | every variation normalises back to its level; a level outside 1-3 has none |
| Difficulty.VariationsOfEasy | src/utils/difficulty.js:124-134 | the documented variations of level 1 |
| Difficulty.IsSame | src/utils/difficulty.js:152-154 | two difficulties are the same exactly when their display spellings are the same, and exactly when their info records are the same |
| Difficulty.IsSameAsWritten | src/utils/difficulty.js:152-154 | the code as written: a fraction inside (1, 3) is never the same as an input that is not one; two other inputs are the same exactly when their display spellings are |
| Difficulty.IsSameEquivalence | src/utils/difficulty.js:152-154 | `isSameDifficulty`, over the corrected levels, is reflexive, symmetric and transitive |
| Difficulty.AgreesWithCodeAsWritten | src/utils/difficulty.js:104-154 | away from fractional numbers in (1, 3), the code's display spelling and info record are defined and equal the corrected ones, and its `isSameDifficulty` gives the same answer |
| Difficulty.DocumentedExamples | src/utils/difficulty.js:70-80 | the examples in the module's documentation hold |
| Difficulty.UpperCaseExample | src/utils/difficulty.js:86-88 | "EASY" reaches the table through lower-casing |
| Difficulty.UnknownTextExample | src/utils/difficulty.js:86-88 | unrecognised text is medium |
| Difficulty.OptionsConsistent | src/utils/difficulty.js:160-164 | each drop-down option's value normalises to the option's level and is its display spelling |
| Difficulty.FractionalLevelAsWritten | src/utils/difficulty.js:82-84 | as written, 1.5 comes back as 1.5, has no display spelling and no info record, and is not the same difficulty as 2; the corrected function gives 2, so the corrected `isSameDifficulty(1.5, 2)` holds |
| Topics.TopicsOf | src/components/CreateClass.jsx:18 | the topic of each question, in order |
| Topics.UniqueTopics | src/components/CreateClass.jsx:18 | strictly increasing, holding exactly the topics that occur |
| Topics.UniqueTopicsMembers | src/components/TopicsQuestions.jsx:23 | a topic is listed exactly when some fetched question has it |
| Topics.UniqueTopicsEmpty | src/components/CreateDNA.jsx:23 | the topic list is empty exactly when nothing was fetched |
| Topics.UniqueTopicsOrderFree | src/components/CreateDNA.jsx:23 | the list does not depend on the order of the fetched rows |
| Topics.FilterTopics | src/components/CreateClass.jsx:26-28 | exactly the topics that contain the search term (ignoring case), in list order |
| Topics.FilterTopicsEmptyTerm | src/components/CreateDNA.jsx:67-69 | an empty search keeps every topic |
| CreateDna.AddIfRoom | src/components/CreateDNA.jsx:71-78 | a row is appended only while there are fewer than six, so there are never more than six |
| CreateDna.RemoveId | src/components/CreateDNA.jsx:88-95 | exactly the rows with other ids remain, in order |
| CreateDna.RemoveAbsentId | src/components/CreateDNA.jsx:88-95 | removing an id that no row has changes nothing |
| CreateDna.UpdateId | src/components/CreateDNA.jsx:97-102 | only rows with the id change, and only in the named field |
| CreateDna.UpdateIdIdempotent | src/components/CreateDNA.jsx:97-102 | updating twice with the same value is the same as once |
| CreateDna.RunGenerator | src/components/CreateDNA.jsx:138-140 | a throw gives `{q: "Error", a: "..."}`; a null value yields nothing, because its fields cannot be read; otherwise the value's own fields |
| CreateDna.OfTopic | src/components/CreateDNA.jsx:27-31 | exactly the questions of one topic (each of them, and no other), in fetch order |
| CreateDna.OfTopicSnoc | src/components/CreateDNA.jsx:27-31 | pushing a question appends it to its own topic's list only |
| CreateDna.GroupByTopic | src/components/CreateDNA.jsx:27-31 | the cache maps exactly the fetched topics to their questions, in fetch order |
| CreateDna.PreviewFor | src/components/CreateDNA.jsx:46-60 | a topic with no cached questions previews "No questions available" / "-"; otherwise the picked generator's fields, and nothing exactly when its value is null or undefined |
| CreateDna.StorePreview | src/components/CreateDNA.jsx:51-59 | only the row's own preview changes; when the generator's value is null or undefined the updater throws during the render and there is no next state |
| CreateDna.FallbackCard | src/components/CreateDNA.jsx:121-131 | the fallback card names the topic ("No question found for ..."), answers "-", has a `fallback-` id, and is hidden and not a review |
| CreateDna.CardFor | src/components/CreateDNA.jsx:108-131 | a topic without cached questions gives the fallback card; otherwise none exactly when the generator returns null or undefined, and else a hidden card of the cached question at `floor(random · n)` showing the generator's q and a, with no image |
| CreateDna.CardsUpTo | src/components/CreateDNA.jsx:104-136 | all cards succeed exactly when every row's card does, and then there is one card per row, in row order |
| CreateDna.Form.constructor | src/components/CreateDNA.jsx:12-17 | one medium row with an empty topic, nothing cached, and not crashed |
| CreateDna.Form.GeneratePreview | src/components/CreateDNA.jsx:46-61 | stores the row's preview as `PreviewFor` gives it, or marks the app as crashed (unmounted) when the updater throws, leaving the previews |
| CreateDna.Form.FetchTopics | src/components/CreateDNA.jsx:20-40 | the topic list and the cache are rebuilt; with a topic, the rows reset to one medium row on the first topic, and that row gets its preview; a null answer changes nothing (or the app crashes, as in `GeneratePreview`) |
| CreateDna.Form.AddRow | src/components/CreateDNA.jsx:71-78 | while there is room, a medium row on the first topic is added and previewed (or the app crashes, as in `GeneratePreview`) |
| CreateDna.Form.DuplicateRow | src/components/CreateDNA.jsx:80-86 | while there is room, a copy of the row's topic and difficulty is added and previewed (or the app crashes, as in `GeneratePreview`) |
| CreateDna.Form.QuickTopics | src/components/CreateDNA.jsx:271 | the first eight topics (all of them when there are fewer) |
| CreateDna.Form.QuickAdd | src/components/CreateDNA.jsx:275-281 | while there is room, a medium row on the chip's topic is added and previewed (or the app crashes, as in `GeneratePreview`) |
| CreateDna.Form.RemoveRow | src/components/CreateDNA.jsx:88-95 | the row and its preview go |
| CreateDna.Form.UpdateRow | src/components/CreateDNA.jsx:97-102 | the field is set; a new topic also gets a new preview (or the app crashes, as in `GeneratePreview`) |
| CreateDna.Form.HandleGenerate | src/components/CreateDNA.jsx:104-136 | the loop yields exactly `CardsUpTo` over all the rows |
| CreateDna.CardsStayNone | src/components/CreateDNA.jsx:108-132 | once one row's generation throws, the whole generation has thrown |
| CreateDna.GenerateOnePerRow | src/components/CreateDNA.jsx:104-136 | when no generator returns null or undefined, there is one card per row, and a row without cached questions gets its fallback card |
| CreateDnaLegacy.TopicQuery | src/CreateDNA.jsx:44 | exactly the rows of the row's topic |
| CreateDnaLegacy.CardFor | src/CreateDNA.jsx:44-57 | a null or empty answer gives the fallback card; otherwise the card holds the answer's row at `floor(random · n)`, currentQ comes from one run and currentA from another, and there is no card when either run is null |
| CreateDnaLegacy.SameRunMatchesNewerForm | src/CreateDNA.jsx:45-52 | when both runs agree, the card is the one the newer form builds |
| CreateDnaLegacy.MismatchedAnswer | src/CreateDNA.jsx:49-50 | with two runs that disagree, the card shows "3 + 4" with the answer "11" |
| CreateDnaLegacy.CardsUpTo | src/CreateDNA.jsx:40-62 | all cards succeed exactly when every row's card does, and then there is one card per row, in order |
| CreateDnaLegacy.CardsStayNone | src/CreateDNA.jsx:40-62 | once one row throws, the whole generation has thrown |
| CreateDnaLegacy.EmptyTopicFallback | src/CreateDNA.jsx:53-57 | a row whose topic has no question, or whose query failed, gets the fallback card naming its topic |
| CreateDnaLegacy.Form.constructor | src/CreateDNA.jsx:6-8 | one "Medium" row with an empty topic |
| CreateDnaLegacy.Form.FetchTopics | src/CreateDNA.jsx:13-23 | the sorted distinct topics; with one, the rows reset to a medium row on the first |
| CreateDnaLegacy.Form.AddRow | src/CreateDNA.jsx:28-32 | while there is room, a medium row on the first topic is added |
| CreateDnaLegacy.Form.RemoveRow | src/CreateDNA.jsx:34 | the rows with the id go |
| CreateDnaLegacy.Form.UpdateRow | src/CreateDNA.jsx:36-38 | the named field of the rows with the id is set |
| CreateDnaLegacy.Form.HandleGenerate | src/CreateDNA.jsx:40-62 | the loop yields exactly `CardsUpTo` over all the rows |
| CreateClass.Toggle | src/components/CreateClass.jsx:30-42 | the topic is in the result exactly when it was not in the list; it is removed if present and appended if absent |
| CreateClass.ToggleLists | src/components/CreateClass.jsx:30-42 | the topic is toggled in the chosen list and removed from the other |
| CreateClass.ToggleDistinct | src/components/CreateClass.jsx:30-42 | toggling never repeats a topic |
| CreateClass.ToggleTopicWellFormed | src/components/CreateClass.jsx:30-42 | toggling keeps the two lists disjoint and free of repeats |
| CreateClass.ToggleTopicMembership | src/components/CreateClass.jsx:30-42 | after the toggle, the topic is in the chosen list exactly when it was not before, and never in the other |
| CreateClass.RemoveAfterToggle | src/components/CreateClass.jsx:30-42 | removing after toggling, or removing twice, is removing once |
| CreateClass.ToggleTopicOthersUnchanged | src/components/CreateClass.jsx:30-42 | every other topic keeps its place in both lists |
| CreateClass.ToggleTopicTwice | src/components/CreateClass.jsx:30-42 | picking and then un-picking a fresh topic restores both lists |
| CreateClass.SaveRequest | src/components/CreateClass.jsx:44-64 | nothing is saved exactly when the name is all white space; otherwise the trimmed name, the user's id (or the nil id) and both lists |
| CreateClass.SavedNameTrimmed | src/components/CreateClass.jsx:44-64 | the saved name neither starts nor ends with white space, and occurs in what was typed |
| CreateClass.Form.constructor | src/components/CreateClass.jsx:6-12 | no name, no topics, two empty lists |
| CreateClass.Form.FetchTopics | src/components/CreateClass.jsx:15-22 | the sorted distinct topics; nothing changes when the answer is null |
| CreateClass.Form.SetName | src/components/CreateClass.jsx:95 | the name field is set |
| CreateClass.Form.ToggleTopic | src/components/CreateClass.jsx:30-42 | the lists are toggled, and stay disjoint and free of repeats |
| CreateClass.Form.Save | src/components/CreateClass.jsx:44-64 | the saved row is `SaveRequest`, and its lists are disjoint and free of repeats |
| CreateClassLegacy.SaveRequest | src/CreateClass.jsx:40-61 | nothing is saved exactly when the name is the empty string; otherwise the name as typed, the user's id (or the nil id) and both lists |
| CreateClassLegacy.BlankNameAccepted | src/CreateClass.jsx:40-61 | a name of two spaces is saved here but refused by the newer form |
| CreateClassLegacy.AgreesOnTrimmedNames | src/CreateClass.jsx:40-61 | on a non-empty name without surrounding white space, both forms send the same row |
| CreateClassLegacy.Form.constructor | src/CreateClass.jsx:5-9 | no name, no topics, two empty lists |
| CreateClassLegacy.Form.FetchTopics | src/CreateClass.jsx:13-20 | the sorted distinct topics; nothing changes when the answer is null |
| CreateClassLegacy.Form.SetName | src/CreateClass.jsx:76 | the name field is set |
| CreateClassLegacy.Form.ToggleTopic | src/CreateClass.jsx:24-38 | the same transition as the newer form; the lists stay disjoint |
| CreateClassLegacy.Form.Save | src/CreateClass.jsx:40-61 | the saved row is `SaveRequest`, and its lists are disjoint |
| Dashboard.NumericCount | src/components/Dashboard.jsx:43-53 | no more numeric scores than results |
| Dashboard.CorrectCount | src/components/Dashboard.jsx:65-70 | no more correct results than results |
| Dashboard.AllResultsSnoc | src/components/Dashboard.jsx:43-53 | the results of one more session are appended |
| Dashboard.CountTotals | src/components/Dashboard.jsx:39-53 | counts every result, and sums and counts only the numeric scores |
| Dashboard.Round | src/components/Dashboard.jsx:84 | the integer nearest to a/b, with halves rounded up |
| Dashboard.RoundBounds | src/components/Dashboard.jsx:75 | a quotient between lo and hi rounds to something between lo and hi |
| Dashboard.AvgScore | src/components/Dashboard.jsx:84 | 0 without numeric scores, else their rounded mean |
| Dashboard.NumericSumBounds | src/components/Dashboard.jsx:43-53 | with scores in 0..100, the sum lies within 0..100 times the count |
| Dashboard.AvgScoreInRange | src/components/Dashboard.jsx:84 | with scores in 0..100, the average lies in 0..100 |
| Dashboard.ClassSessions | src/components/Dashboard.jsx:63 | exactly the class's sessions (each of them, and no other), in order |
| Dashboard.CountClass | src/components/Dashboard.jsx:64-70 | counts every result of the class, and the correct ones (at least 75) |
| Dashboard.SuccessRate | src/components/Dashboard.jsx:75 | none exactly without results; otherwise the rounded percentage of correct results, within 0..100 |
| Dashboard.SuccessRateExtremes | src/components/Dashboard.jsx:75 | all correct gives 100, none correct gives 0 |
| Dashboard.FirstOfClass | src/components/Dashboard.jsx:57 | the first session of the class, or none when the class has none |
| Dashboard.DaysSince | src/components/Dashboard.jsx:57-60 | none exactly when the class has no session; otherwise the whole days, rounded down, since the first of its sessions in the list (FirstOfClass, as `find` picks it) |
| Dashboard.MetaFor | src/components/Dashboard.jsx:56-78 | the class's days since, success rate and answered count, with the rate in 0..100 |
| Dashboard.ClassesWithMeta | src/components/Dashboard.jsx:56-78 | one entry per class, in the query's order, each as `MetaFor` describes |
| Dashboard.Run | src/components/Dashboard.jsx:102-114 | never more than the days looked at |
| Dashboard.CalculateStreak | src/components/Dashboard.jsx:94-116 | the loop computes `Streak`: 0 without sessions; otherwise counted back from today, or from yesterday when today has no session |
| Dashboard.StreakMeaning | src/components/Dashboard.jsx:94-116 | the streak is at most 30; every day of it has a session; the day before it has none unless the 30-day window ran out |
| Dashboard.RunMeaning | src/components/Dashboard.jsx:102-114 | every counted day has a session, and the day after the run (going back) has none, unless the window ran out |
| Dashboard.Urgency | src/components/Dashboard.jsx:118-124 | the four bands: up to 1 day, 2-3, 4-7, more than 7 |
| Dashboard.DaysColor | src/components/Dashboard.jsx:118-124 | grey without sessions, else the band's colour from green to red |
| Dashboard.DaysColorMonotone | src/components/Dashboard.jsx:118-124 | more days never give a more recent colour |
| Dashboard.DaysLabel | src/components/Dashboard.jsx:126-131 | "No sessions yet", "Today", "Yesterday", or "N days ago" |
| Dashboard.IntToStringInjective | src/components/Dashboard.jsx:130 | different numbers render as different text |
| Dashboard.DaysLabelInjective | src/components/Dashboard.jsx:126-131 | different day counts never read the same |
| Dashboard.LabelFirstChar | src/components/Dashboard.jsx:126-131 | the first character tells the kinds of label apart |
| Dashboard.Board.constructor | src/components/Dashboard.jsx:6-8 | no classes, no sessions, zero stats |
| Dashboard.Board.FetchDashboardData | src/components/Dashboard.jsx:15-92 | the sessions are kept; every class has its figures; the stats are the answered count, the average score and the streak |
| TopicsQuestions.FilteredQuestions | src/components/TopicsQuestions.jsx:29-35 | exactly the questions that pass both the topic filter and the search, in order |
| TopicsQuestions.FilteredNoFilter | src/components/TopicsQuestions.jsx:29-35 | with topic "all" and no search, every question is shown |
| TopicsQuestions.FilteredByTopic | src/components/TopicsQuestions.jsx:29-35 | a specific topic shows only questions of exactly that topic |
| TopicsQuestions.RunGenerator | src/components/TopicsQuestions.jsx:37-39 | a throw gives "Error in code" / "..."; a null value yields nothing; otherwise the value's own fields |
| TopicsQuestions.GetTopicStats | src/components/TopicsQuestions.jsx:62-72 | the count is the number of questions with the topic, and the Easy, Medium and Hard counts are the numbers of questions with the topic and exactly that difficulty name (so they add up to at most the count) |
| TopicsQuestions.ThreeWayCount | src/components/TopicsQuestions.jsx:62-72 | no question is counted under two difficulty names |
| TopicsQuestions.OtherSpellingNotCounted | src/components/TopicsQuestions.jsx:62-72 | a question whose difficulty is a dot is counted in none of the three |
| TopicsQuestions.ListedTopicsHaveQuestions | src/components/TopicsQuestions.jsx:23 | every topic in the drop-down has at least one question |
| TopicsQuestions.AddRequest | src/components/TopicsQuestions.jsx:42-51 | nothing is inserted exactly when the topic or the code is empty; otherwise the form as filled in |
| TopicsQuestions.ClickQuestion | src/components/TopicsQuestions.jsx:187 | clicking the open question closes it; clicking another opens it |
| TopicsQuestions.ClickTwice | src/components/TopicsQuestions.jsx:187 | clicking twice closes the question, or reopens the one that was open |
| TopicsQuestions.Bank.constructor | src/components/TopicsQuestions.jsx:5-12 | no questions, topic "all", empty search, blank form |
| TopicsQuestions.Bank.FetchQuestions | src/components/TopicsQuestions.jsx:18-27 | the questions and their sorted distinct topics; nothing changes when the answer is null |
| TopicsQuestions.Bank.HandleAddQuestion | src/components/TopicsQuestions.jsx:41-60 | a complete form is sent; after a successful insert the modal closes and the form is cleared; otherwise nothing changes |
| SharedDnas.TruthyTopics | src/components/SharedDNAs.jsx:26-29 | exactly the non-empty topics of the questions |
| SharedDnas.AllQuestions | src/components/SharedDNAs.jsx:26-28 | exactly the questions of all the boards |
| SharedDnas.AllTopics | src/components/SharedDNAs.jsx:26-29 | strictly increasing, holding exactly the non-empty topics of all the boards |
| SharedDnas.AllTopicsClean | src/components/SharedDNAs.jsx:29 | no repeated topic and no empty one |
| SharedDnas.FilteredBoards | src/components/SharedDNAs.jsx:38-48 | exactly the boards that pass the search and the topic filter, in order |
| SharedDnas.FilteredBoardsNoFilter | src/components/SharedDNAs.jsx:38-48 | with no search and topic "all", every board is listed |
| SharedDnas.ListedTopicSelectsBoard | src/components/SharedDNAs.jsx:29-48 | every topic in the drop-down selects at least one board |
| SharedDnas.SharedCard | src/components/SharedDNAs.jsx:52-61 | the card's id is `shared-<board>-<idx>`; it has the stored topic ("" when missing), text and code, and is hidden and not a review, at the large font |
| SharedDnas.LoadBoard | src/components/SharedDNAs.jsx:50-67 | one card per stored question, in order, named after the class or "Shared DNA" |
| SharedDnas.LoadBoardIdsDistinct | src/components/SharedDNAs.jsx:53 | the loaded cards have pairwise different ids |
| SharedDnas.Title | src/components/SharedDNAs.jsx:137 | the class name, or "Untitled DNA" |
| SharedDnas.TopicsInBoard | src/components/SharedDNAs.jsx:132 | each non-empty topic of the board, once |
| SharedDnas.TopicsInBoardOrder | src/components/SharedDNAs.jsx:132 | the topics come in the order the board's questions first mention them, so the preview shows the first three mentioned |
| Seqs.DedupOrder | src/components/SharedDNAs.jsx:132 | `[...new Set(xs)]` lists the elements in the order of their first occurrences in xs |
| SharedDnas.Preview | src/components/SharedDNAs.jsx:153-158 | at most three tags, taken from the front; "+n more" exactly when there are more than three, where n counts the rest |
| SharedDnas.Gallery.constructor | src/components/SharedDNAs.jsx:6-10 | no boards, no topics |
| SharedDnas.Gallery.FetchSharedBoards | src/components/SharedDNAs.jsx:16-36 | the boards and their topic list; nothing changes when the answer is null |
| Overlay.SetScore | src/overlay.jsx:13-18 | the rows with the id get the score, and every other row is unchanged |
| Overlay.SetScoreKeepsQuestions | src/overlay.jsx:13-18 | scoring keeps every row's id, text and answer |
| Overlay.SetScoreIdempotent | src/overlay.jsx:13-18 | pressing the same button twice is the same as once |
| Overlay.SetScoreCommutes | src/overlay.jsx:13-18 | scoring two different rows gives the same result in either order |
| Overlay.SetScoreLastWins | src/overlay.jsx:13-18 | the last button pressed decides the score |
| Overlay.InitialRowsDistinctIds | src/overlay.jsx:5-10 | the initial rows have distinct ids and no scores |
| Overlay.Tracker.constructor | src/overlay.jsx:5-10 | the four initial rows |
| Overlay.Tracker.HandleScore | src/overlay.jsx:13-18 | the score is set, and every score shown comes from a button |
| Records.PickIndex | src/components/CreateDNA.jsx:111 | `Math.floor(r * n)` is an index below n |
| Records.Shuffle | src/components/DNABoard.jsx:73 | some rearrangement of the same elements |
| Strings.NatToStringInjective | src/components/DNABoard.jsx:97 | different numbers render as different decimal text |
| Strings.PrefixedNatInjective | src/components/DNABoard.jsx:97 | a fixed prefix followed by different numbers gives different text |
| Strings.Trim | src/components/CreateClass.jsx:45-52 | a slice of the input with only white space before and after it, itself neither starting nor ending with white space, and blank exactly when all of the input is white space |

## Behaviour notes

- The saved review interval takes two values only: 12 for a rating of at least 75, and 1 otherwise (src/components/DNABoard.jsx:221).
- `refreshCard` tests only that the card has generator code. It does not test whether the card is a review card. Only the board's rendering hides the refresh button on review cards.
- `changeDifficulty` queries its own five spellings per level (src/components/DNABoard.jsx:148-153). These are not the alias table's six: the lower-case `level N` spelling is missing.
- In the newer board-design form, `generatePreview` reads the generated `q` and `a` inside the updater it hands to `setPreviews` (src/components/CreateDNA.jsx:51-54). React runs that updater while rendering. So a generator whose value is `null` or `undefined` makes the render throw, and with no error boundary the whole app unmounts. The model records this as the form's `crashed` flag, after which no handler runs. A throw inside an async handler, such as `handleGenerate`, only ends that handler. There `setLoading(true)` has already run, so the Generate button stays disabled and reads "Generating..." (src/components/CreateDNA.jsx:294-295); the loading flag itself is not modelled.
- The question bank renders the generated `q` and `a` unguarded: on every listed question (src/components/TopicsQuestions.jsx:180-199) and in the add form's preview (src/components/TopicsQuestions.jsx:267-268). So a stored generator whose value is `null` or `undefined` makes that render throw, and with no error boundary the app unmounts. So does code typed into the add form that runs but returns nothing, such as `const a = 1`. `TopicsQuestions.RunGenerator` gives None for this case. Rendering is not modelled, so the model has no crashed state for the question bank.
- The older board-design form (src/CreateDNA.jsx:49-50) runs each picked generator twice, once for the question and once for the answer. A random generator can then pair one instance's question with another instance's answer (`CreateDnaLegacy.MismatchedAnswer`). This is modelled as written, because the newer form replaced it.

## Left out

- Queries, authentication and routing. Each query is a parameter giving its answer.
  - The model does not cover the ordering, `limit(10)` or teacher filter of the queries.
  - It does not cover the refetches and the loading flags.
- Timers, alerts, confirmation dialogs and the clipboard. This also leaves out the share link of the board (src/components/DNABoard.jsx:229-261).
- Floating point:
  - Font sizes are integers in hundredths of a rem, and `changeFontSize` (src/components/DNABoard.jsx:119-124) is not modelled.
  - `Math.round` of a float ratio is taken as exact rational rounding.
- Dashboard.SuccessRate: rounds `100·correct/total` exactly. The source rounds the float `(correct/total)*100`, which can differ by one on exact halves that floats do not represent.
- Dates: a session's date is an integer millisecond time plus the day number its date string starts with. Time zones and `toISOString` are not modelled.
- Strings:
  - Lower-casing is ASCII only.
  - JavaScript's UTF-16 string order is Dafny's character order.
  - Search is plain substring containment.
- The `!code` test of the board: it is modelled on the code text, with "" standing for a missing code. That empty code returns `undefined` when run is a fact about the code's execution, and is not modelled.
- Generator values that are strings but not objects: their `q`/`a`/`image` are modelled as missing, as JavaScript reads them. Numeric `score` strings compared with `>= 75` are not modelled.
- The fallback card's topic, and a shared card's topic (`SharedDnas.SharedCard`), is "" where the source copies an `undefined` topic. The card's row holds a string, and nothing in the model reads the topic of these cards.
- Object-key lookups that reach the prototype (a topic named `constructor`, say) are not modelled: a topic is a key of the cache only when a question has it.
- Rendering, CSS, icons, and the unused `DIFFICULTIES` table.
- Difficulty.Variations: returns a set. The source returns a list in the alias table's key order, with integer-like keys first.
- DnaBoard.ChangeTargets: states only that a level outside 1-3 asks for nothing. The table's contents are stated by `ChangeTargetsAreVariations`.
- Difficulty.NormalizeToDisplay: built on the corrected NormalizeToLevel, so it gives the level-2 spelling for a fractional number in (1, 3), where the code gives `undefined`. The code's behaviour is NormalizeToDisplayAsWritten, and AgreesWithCodeAsWritten proves where the two agree.
- Difficulty.DifficultyInfo: built on the corrected NormalizeToLevel, so it gives the level-2 record for a fractional number in (1, 3), where the code gives `undefined`. The code's behaviour is DifficultyInfoAsWritten.
- Difficulty.IsSameEquivalence: is about the corrected IsSame, under which 1.5 and 2 are the same difficulty. The code's IsSameAsWritten says they are not (FractionalLevelAsWritten).
- The files App.jsx, ClassSelector.jsx (both), AccountSettings.jsx, ErrorMessages.jsx, Feedback.jsx, Icons.jsx, LandingPage.jsx, Sidebar.jsx, main.jsx and supabase.js carry no logic beyond rendering and I/O, and are not part of this model.

## Findings

| source | as written | input that shows it | evidently intended | confidence | as-written member | corrected member |
|---|---|---|---|---|---|---|
| src/utils/difficulty.js:82-84 | a number within [1, 3] is returned unchanged, fractions included | `normalizeToLevel(1.5)` returns 1.5; `normalizeToDisplay(1.5)` and `getDifficultyInfo(1.5)` are then `undefined`, and `isSameDifficulty(1.5, 2)` is false | only the whole numbers 1, 2 and 3 are kept, and anything else defaults to 2 ("Returns 1, 2, or 3") | not executed | Difficulty.NormalizeToLevelAsWritten, Difficulty.FractionalLevelAsWritten | Difficulty.NormalizeToLevel |
