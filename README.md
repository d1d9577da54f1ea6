# Music league statistics, modelled in Dafny

This project models the statistics engine of a music-league viewer. The
engine reads the four CSV exports of a league: competitors, rounds,
submissions and votes. From them it computes:

- the season leaderboard and the standings of every round;
- the headline statistics;
- seventeen awards, each ranked by its own rule;
- music analytics: artist, album and genre totals, track tables, and a
  list of submitter profiles, each given a unique "music personality" from a
  fixed pool of 28;
- the genres credited to an artist name, found by table lookup, substring
  match, compound-name parts and keyword rules.

Each source file is modelled by modules of its own:

| source | modules |
|---|---|
| `src/lib/parseData.ts` | `Csv` (the quote-aware line splitter and the multi-line row joiner), `CsvWriter` (a writer used only to state round trips), `Records` and `Text` (the table getters and the string functions they use), `Standings` (leaderboard, round results, statistics) |
| `src/lib/calculateAwards.ts` | `Rankings` (`createRankings`), `Counters`, `Pairs`, `Positions` and `Timing` (the award rules), `Awards` (`calculateAwards` and its seventeen awards in order) |
| `src/lib/musicAnalytics.ts` | `Library` (artist, album and genre totals, `getMusicStats`), `Tracks` (embed URL, all tracks, top tracks), `Personalities` (`scorePersonality`, `assignUniquePersonalities`), `Profiles` (`getSubmitterProfiles`) |
| `src/lib/genreMapping.ts` | `Genres` (`inferGenreFromArtist`, `getGenreColor`) |
| shared | `Options`, `Sequences`, `OrderedMaps` (a JavaScript `Map` as an insertion-ordered association list), `Sorting` (the stable sort of `Array.prototype.sort`), `Accumulators` (per-key record updates in a `forEach`) |

Each loop that updates state in the imperative code (the CSV reader, the
leaderboard and round results, the award rules, the analytics) is a
`method` with a `while` or `for` loop, whose postcondition equals a
reference function of the inputs. The first-match searches of
`genreMapping.ts`, which change nothing, are recursive functions. The properties
the source promises are lemmas about those functions: sortedness, sums
that are kept, thresholds, uniqueness of assignments and round trips.

JavaScript `Map`s iterate in insertion order and `sort` is stable, and ties
in the results depend on both. The model therefore keeps maps as
association lists in first-insertion order. It sorts by a stable insertion
sort on a `real` key.

## Model

| member | source | states |
|---|---|---|
| Csv.ParseCsvLine | src/lib/parseData.ts:42-68 | the character loop with its quote flag, current field and pushed fields computes exactly the reference state machine `ParseLine`: one field more than the commas outside quotes, holding one quote per `""` read inside quotes and no other |
| Csv.ScanExtends | src/lib/parseData.ts:47-65 | the loop only ever pushes fields, and the final `push` always adds one more, so the result extends what was pushed before |
| Csv.ScanCount | src/lib/parseData.ts:47-67 | the scan pushes one field for each comma read outside quotes and one at the end |
| Csv.ParseLineCommas | src/lib/parseData.ts:42-68 | every line gives one field more than it has commas outside quotes, a `""` inside quotes being stepped over; a comma inside quotes stays in its field |
| Csv.ScanQuotes | src/lib/parseData.ts:50-56 | the only quotes the scan adds to a field are those of the `""` pairs it reads inside quotes, one for each |
| Csv.EscapesBound | src/lib/parseData.ts:50-56 | every escape read inside quotes takes two of the line's quotes |
| Csv.ParseLineQuotes | src/lib/parseData.ts:42-68 | the fields hold exactly one quote per `""` read inside quotes and no other, so at most half the quotes of the line |
| Csv.ParseLineNonEmpty | src/lib/parseData.ts:65-67 | every line, the empty one included, gives at least one field |
| Csv.ScanNoQuotes | src/lib/parseData.ts:58-63 | with no double quote left, the rest of the line is cut at every comma and nothing else changes the text |
| Csv.ParseLineNoQuotes | src/lib/parseData.ts:42-68 | a line without double quotes gives exactly `line.split(',')`: one field more than it has commas |
| CsvWriter.ScanEscaped | src/lib/parseData.ts:50-54 | inside quotes a doubled quote reads as one literal quote, and every other character, comma included, is kept as text |
| CsvWriter.RowRoundTrip | src/lib/parseData.ts:42-68 | reading a record written as quoted, quote-doubled fields joined by commas gives back exactly its fields |
| Csv.CountQuotes | src/lib/parseData.ts:85-88 | the counting loop returns the number of double quotes in the text |
| Csv.ParseCsvMultiline | src/lib/parseData.ts:70-100 | the loop over physical lines with its pending line and rows computes exactly the reference fold `ParseCsv` |
| Csv.GatherNoQuotes | src/lib/parseData.ts:77-97 | without quotes every non-blank physical line is one row and blank lines give none |
| Csv.ParseCsvNoQuotes | src/lib/parseData.ts:70-100 | a file without quotes reads as its non-blank lines, each split at its commas |
| CsvWriter.TableRoundTrip | src/lib/parseData.ts:70-100 | a file of written records, line breaks inside quoted fields included, reads back as exactly those records |
| CsvWriter.TableRoundTripNewline | src/lib/parseData.ts:70-100 | the same file with a final line feed reads back the same: the empty last line adds no row |
| Records.GetterShape | src/lib/parseData.ts:102-146 | each getter gives one record per row after the header, a short row reads `''` in a missing column, and a vote's points are `parseInt` of column 3 or 0 |
| Records.RoundNamesTrimmed | src/lib/parseData.ts:115 | no round name has white space at either end |
| Records.BodyOfTable | src/lib/parseData.ts:103-104 | dropping the first row of a written file leaves exactly its data rows |
| Records.CompetitorsRoundTrip | src/lib/parseData.ts:102-108 | competitors written as rows under a header are read back unchanged |
| Records.RoundsRoundTrip | src/lib/parseData.ts:110-119 | rounds are read back unchanged when their names have no white space at the ends, the only field the getter alters |
| Records.SubmissionsRoundTrip | src/lib/parseData.ts:121-134 | submissions written as rows are read back unchanged |
| Records.VotesRoundTrip | src/lib/parseData.ts:136-146 | votes, negative points included, survive being written with `String` and read with `parseInt` |
| Records.VoteRowInverse | src/lib/parseData.ts:138-145 | one written vote row reads back as its vote |
| Text.Trim | src/lib/parseData.ts:115 | `trim` gives the empty string exactly for a blank string and otherwise starts and ends with a non-space |
| Text.TrimStart | src/lib/parseData.ts:142 | the leading white space `parseInt` skips is the longest all-space prefix |
| Text.TrimEnd | src/lib/parseData.ts:115 | trailing white space removed: the longest prefix not ending in a space |
| Text.TrimIdempotent | src/lib/parseData.ts:115 | trimming twice is trimming once |
| Text.ParseIntShow | src/lib/parseData.ts:142 | `parseInt` reads back `String(n)` for every integer and stops at the first character that cannot continue the number |
| Text.ParseIntUnsigned | src/lib/parseData.ts:142 | a text starting with a minus or a digit reads as the value of its longest digit run, negated after a minus |
| Text.ParseIntNoDigits | src/lib/parseData.ts:142 | a text without digits is NaN for `parseInt`, so the points fall back to 0 |
| Text.DecimalValue | src/lib/parseData.ts:142 | the digits written for a natural number have that number as their value |
| Text.DigitPrefix | src/lib/parseData.ts:142 | the longest prefix of digits: digits only, and the next character is not one |
| Text.Split | src/lib/parseData.ts:75 | `split` always gives at least one piece |
| Text.SplitPieces | src/lib/parseData.ts:75 | no piece holds a separator, and every character of a piece comes from the split text |
| Text.SplitCount | src/lib/parseData.ts:75 | `split` gives one piece more than the text has separators |
| Text.SplitJoin | src/lib/parseData.ts:75 | splitting on a character and joining with it gives the text back |
| Text.SplitNoSeparator | src/lib/parseData.ts:75 | a text with no separator is one piece |
| Text.SplitConcat | src/lib/parseData.ts:75 | a separator between two texts separates their pieces |
| Text.ContainsAt | src/lib/genreMapping.ts:283-289 | `includes` holds exactly when the pattern occurs at some index of the text |
| Text.ReplaceFirstAbsent | src/lib/musicAnalytics.ts:47 | `replace` with a string pattern leaves a text without the pattern unchanged |
| Text.ReplaceFirstLeading | src/lib/musicAnalytics.ts:47 | only the first occurrence is replaced: a leading pattern goes and the rest stays, even if the pattern comes again |
| Text.LexLessTotal | src/lib/calculateAwards.ts:201 | the default string order of `sort` puts two different ids one way round and not both |
| Standings.ResolveSubmission | src/lib/parseData.ts:175-187 | a vote is credited exactly when the last submission under its track and round key has a non-empty submitter, and then it is credited to a submitter of that track in that round |
| Standings.PointsByRoundFor | src/lib/parseData.ts:184-196 | one submitter's inner map is the tally by round of exactly the votes credited to them |
| Standings.ReceivedIsSumKeyed | src/lib/parseData.ts:184-196 | summing the votes keyed to a submitter is the reference total of the points credited to them |
| Standings.PointsLoop | src/lib/parseData.ts:184-196 | the `votes.forEach` builds exactly the reference points table `PointsByRound` |
| Standings.PointsByRoundStep | src/lib/parseData.ts:184-196 | the points table of a vote list is the one of its tail started from the table after the first vote |
| Standings.CreditSome | src/lib/parseData.ts:189-195 | a credited vote adds its points under its round in the submitter's inner map, created empty on first sight |
| Standings.InnerMapFacts | src/lib/parseData.ts:216-218 | the total read from a submitter's inner map is the points credited to them, and its size is the number of rounds in which they were credited a vote |
| Standings.RoundEntriesLoop | src/lib/parseData.ts:202-208 | the push loop over the points table gives, in table order, every submitter with points in the round and those points |
| Standings.RoundEntriesStep | src/lib/parseData.ts:204-208 | one table entry adds its placing, when it has points in the round, before the placings of the rest |
| Standings.StandingsLoop | src/lib/parseData.ts:201-212 | the `rounds.forEach` files under every round id its standings sorted by points, best first |
| Standings.FindIndex | src/lib/parseData.ts:224 | `findIndex` is the first position holding the id, or -1 exactly when no position holds it |
| Standings.WinsTopThree | src/lib/parseData.ts:220-227 | wins never exceed top-three finishes, which never exceed the number of round results |
| Standings.CountFinishes | src/lib/parseData.ts:220-227 | the counting loop gives the number of round results the competitor won and the number in which they placed in the first three |
| Standings.EntriesLoop | src/lib/parseData.ts:215-237 | the `competitors.map` gives one entry per competitor, in competitor order, each computed from the points table and the round results |
| Standings.CalculateLeaderboard | src/lib/parseData.ts:166-240 | the whole imperative computation equals the reference leaderboard `Leaderboard` on the four tables |
| Standings.LeaderboardShape | src/lib/parseData.ts:215-239 | the leaderboard has one entry per competitor, holds every competitor and nothing else, and is ordered by total points, best first |
| Standings.LeaderboardEntries | src/lib/parseData.ts:215-237 | every entry's total is the points credited to its competitor, its rounds played the rounds in which they were credited, its average the quotient (0 without rounds), and its wins at most its top-three finishes, at most the number of rounds |
| Standings.GetRoundResults | src/lib/parseData.ts:242-281 | the loop equals the reference `RoundResults` on the four tables |
| Standings.ResultsPerRound | src/lib/parseData.ts:250-280 | one result per round, in round order, each about its own round |
| Standings.FirstBy | src/lib/parseData.ts:274 | `find` returns a submission of the round by that submitter, and none exactly when the round has no submission by them |
| Standings.CompetitorMapGet | src/lib/parseData.ts:248 | a competitor found in `competitorMap` under an id is a competitor of the table with that id |
| Standings.StandingOrigin | src/lib/parseData.ts:270-276 | every standing is an entry of the round's points map whose submitter is a known competitor, with that entry's points and that submitter's first submission |
| Standings.StandingsDistinct | src/lib/parseData.ts:270-276 | distinct submitters in the points map give standings of distinct competitors |
| Standings.StandingsComplete | src/lib/parseData.ts:262-277 | every entry of the round's points map whose id is a known competitor's becomes a standing, with that entry's points |
| Standings.RoundResultFacts | src/lib/parseData.ts:250-280 | a round's standings are sorted best first, name distinct known competitors, and each holds the points of the round's votes for that competitor's tracks (later submissions of a track win, votes for unsubmitted tracks are dropped) and its first submission of the round; every known competitor credited with a vote of the round has a standing |
| Standings.SetTableTotal | src/lib/parseData.ts:189-195 | replacing one submitter's inner map changes the table's total by the difference of the two sums |
| Standings.PointsByRoundTotal | src/lib/parseData.ts:184-196 | building the points table adds exactly the credited points to its total |
| Standings.PointsSplit | src/lib/parseData.ts:289 | the sum of all vote points is what is credited plus what is credited to nobody |
| Standings.PointsConserved | src/lib/parseData.ts:283-298 | the `totalPoints` of `getStats` is the leaderboard's points table total plus the points of the votes credited to nobody: no point is lost or counted twice |
| OrderedMaps.SetGet | src/lib/parseData.ts:178 | after `set` the key finds the new value |
| OrderedMaps.SetGetOther | src/lib/parseData.ts:178 | `set` leaves every other key's value alone |
| OrderedMaps.SetKeys | src/lib/parseData.ts:204 | `set` keeps the key order, a present key in its place and a new one last, which is the order `forEach` and `entries` see |
| OrderedMaps.SetLength | src/lib/parseData.ts:218 | `set` adds one entry for a new key and none for a present one, so `size` counts distinct keys |
| OrderedMaps.AddSum | src/lib/parseData.ts:194-195 | the counter update `m.set(k, (m.get(k) \|\| 0) + d)` adds `d` to the sum of the values |
| OrderedMaps.SetSum | src/lib/parseData.ts:190 | `set` trades the key's old value, 0 when absent, for the new one in the sum |
| OrderedMaps.TallyGet | src/lib/parseData.ts:262-268 | every key of a tally ends with its start value plus the weights of the items filed under it |
| OrderedMaps.TallyHasKey | src/lib/parseData.ts:262-268 | a tally holds exactly the start keys and the keys some item is filed under |
| OrderedMaps.TallySum | src/lib/parseData.ts:262-268 | nothing is lost: a tally's values sum to the start sum plus the weight of every item with a key |
| OrderedMaps.TallyDistinct | src/lib/parseData.ts:262-268 | a tally never files a key twice |
| OrderedMaps.TallyLoop | src/lib/parseData.ts:262-268 | the `forEach` with counter updates builds exactly the reference `Tally` |
| OrderedMaps.IndexGet | src/lib/parseData.ts:175-179 | last write wins: a key finds the value of the last item under it |
| OrderedMaps.LastWithIsItem | src/lib/parseData.ts:248 | there is a last item under a key exactly when some item has that key, and it is such an item |
| OrderedMaps.IndexLength | src/lib/parseData.ts:255-258 | each item adds at most one entry to the lookup |
| OrderedMaps.IndexLoop | src/lib/parseData.ts:175-179 | the `forEach` of `set` calls builds exactly the reference `Index` |
| Sequences.Filter | src/lib/parseData.ts:251 | `filter` keeps only elements that pass, never more than there were, each taken from the input |
| Sequences.FilterAppend | src/lib/parseData.ts:251 | filtering a concatenation filters each part |
| Sequences.FilterKeeps | src/lib/parseData.ts:252 | every element that passes the test survives filtering |
| Sequences.FilterElements | src/lib/parseData.ts:252 | whatever survives filtering was in the input and passes the test |
| Sequences.Map | src/lib/parseData.ts:215 | `map` keeps the length and puts `f` of each element in its place |
| Sequences.MapInverse | src/lib/parseData.ts:102-146 | mapping with a function and then with its inverse gives the input back |
| Sequences.Take | src/lib/musicAnalytics.ts:418 | `slice(0, n)` is a prefix of length `n`, or everything when `n` is larger, counting back from the end for a negative `n` |
| Sequences.Drop | src/lib/musicAnalytics.ts:418 | `slice(n)` is what follows `slice(0, n)` |
| Sequences.SumRealsAppend | src/lib/parseData.ts:217 | `reduce` with `+` over a concatenation adds the two sums |
| Sorting.StableSort | src/lib/parseData.ts:239 | `sort` with a numeric comparator returns a permutation of its input ordered by the key |
| Sorting.InsertOrdered | src/lib/parseData.ts:239 | inserting into an ordered sequence keeps it ordered |
| Sorting.SortIsStable | src/lib/parseData.ts:239 | `sort` is stable: elements with equal keys keep their input order |
| Sorting.SortHead | src/lib/calculateAwards.ts:205 | `sort(...)[0]` is the first best element of the input |
| Sorting.SortOfOrdered | src/lib/parseData.ts:239 | sorting an ordered sequence changes nothing |
| Sorting.SortSameElements | src/lib/parseData.ts:239 | the sorted result holds exactly the input's elements |
| Sorting.SortDistinct | src/lib/parseData.ts:277 | sorting keeps distinct tags distinct |
| Sorting.SortedTop | src/lib/musicAnalytics.ts:418 | the first `n` of the sorted sequence are ordered, drawn from the input, and no element left out beats one kept |
| Sorting.SortedTopElement | src/lib/musicAnalytics.ts:418 | each of the first `n` of the sorted sequence is an element of the input |
| Accumulators.AccumulateGet | src/lib/musicAnalytics.ts:282-305 | a key's record is its start record, or the blank one, updated by exactly the items filed under that key, in order |
| Accumulators.AccumulateHasKey | src/lib/musicAnalytics.ts:282-305 | the keys are the start keys and the keys of the items |
| Accumulators.AccumulateDistinct | src/lib/musicAnalytics.ts:282-305 | no key is stored twice |
| Accumulators.AccumulateEntries | src/lib/musicAnalytics.ts:282-305 | built from nothing, every entry holds the blank record of its key updated by exactly the items filed under that key |
| Accumulators.AccumulateSum | src/lib/calculateAwards.ts:411-424 | a measure that the blank record has at zero and each update raises by the item's weight ends at the total weight of the items |
| Accumulators.SetSumBy | src/lib/calculateAwards.ts:422 | `set` trades the measure of the old record for that of the new one |
| Accumulators.Upsert | src/lib/calculateAwards.ts:239-243 | creating a missing record and then storing its update is one absorbed item |
| Accumulators.FoldCount | src/lib/musicAnalytics.ts:282-305 | a measure that every update raises by one grows by the number of items |
| Accumulators.FoldKeeps | src/lib/musicAnalytics.ts:282-305 | a property every update keeps holds after all of them |
| Rankings.RankingsAreEntries | src/lib/calculateAwards.ts:46-54 | each line of a table is the competitor, the value and the formatted value of one sorted entry of the known data |
| Rankings.RankedLine | src/lib/calculateAwards.ts:46-54 | every line is a known competitor with a value the data holds under their id and `formatFn` of that value |
| Rankings.RankedOrder | src/lib/calculateAwards.ts:48 | the table is in the requested order: descending when `sortDesc`, ascending otherwise |
| Rankings.RankedComplete | src/lib/calculateAwards.ts:47 | every data entry of a known competitor is ranked |
| Rankings.CreateRankingsFacts | src/lib/calculateAwards.ts:41-55 | a table is no longer than the data, holds only known competitors with their own values and formatted text, is in the requested order, and ranks every known entry |
| Standings.CompetitorMapHas | src/lib/parseData.ts:248 | every competitor can be found in `competitorMap` |
| Rankings.WinnerIsBest | src/lib/calculateAwards.ts:67-68 | a descending table has no winner exactly when no entry belongs to a known competitor, and otherwise its winner's value is at least every known entry's |
| Rankings.AsRealGet | src/lib/calculateAwards.ts:41-55 | the numbers ranked are the counter's integers, key for key |
| Rankings.AsRealEntries | src/lib/calculateAwards.ts:46 | every ranked entry is a counter entry read as a number |
| Counters.ZeroedFacts | src/lib/calculateAwards.ts:59 | after `competitors.forEach(c => m.set(c.id, 0))` the keys are the competitor ids, each once, all at 0 |
| Counters.CounterGet | src/lib/calculateAwards.ts:58-66 | each id of a counter holds the total weight of its items, and the ids are the competitors' and those some item is filed under |
| Counters.CounterSum | src/lib/calculateAwards.ts:58-66 | a counter holds each id once, and its values add up to the weight of every filed item |
| Counters.CounterNonNegative | src/lib/calculateAwards.ts:105-113 | with non-negative weights no count is negative |
| Counters.CounterCounts | src/lib/calculateAwards.ts:105-113 | a counter of ones counts, per id, the items filed under it, and in total the items filed under any id |
| Counters.CounterSkip | src/lib/calculateAwards.ts:63 | an item filed under no key leaves a counter unchanged wherever it stands |
| Counters.OverallTotals | src/lib/calculateAwards.ts:57-66 | everyone's overall score is the points credited to them, the leaderboard's total, and the scores add up to every credited point |
| Counters.OverallIgnoresUncredited | src/lib/calculateAwards.ts:63 | a vote no submission claims changes no overall score |
| Counters.PlacingsCount | src/lib/calculateAwards.ts:82-89 | a competitor's count of wins (or, for n = 1, second places) is the number of rounds in which they stand at that place; the counts add up to the rounds that have such a place |
| Counters.EightsGivenTotal | src/lib/calculateAwards.ts:129-133 | the counts of eights given add up to the number of eight-point votes |
| Counters.EveryVoteCounted | src/lib/calculateAwards.ts:323-326 | every vote is filed under its voter |
| Counters.EightsOnly | src/lib/calculateAwards.ts:105-133 | only eight-point votes count towards the two octopus awards |
| Counters.DownvotesFacts | src/lib/calculateAwards.ts:172-180 | downvote totals are never negative, and a vote of zero or more points changes none |
| Counters.AveragesGet | src/lib/calculateAwards.ts:328-335 | the competitors loop files, for a competitor with at least five votes, their total divided by their count, and leaves every other key alone |
| Counters.ContrarianAverages | src/lib/calculateAwards.ts:320-335 | exactly the competitors who cast at least five votes get an average, and it is the mean of the points they gave |
| Counters.VoteCountsLoop | src/lib/calculateAwards.ts:323-326 | the single pass gives exactly the reference vote counts and point totals by voter |
| Counters.AveragePointsLoop | src/lib/calculateAwards.ts:320-335 | the imperative computation equals the reference `AveragePointsGiven` |
| Counters.CommentsKeyed | src/lib/calculateAwards.ts:388 | skipping empty comments loses no character: they have length 0 |
| Counters.NarratorTotal | src/lib/calculateAwards.ts:385-391 | every character of every comment is counted once, for its voter, and no count is negative |
| Counters.NightOwlCount | src/lib/calculateAwards.ts:480-490 | a competitor's count is their number of late-night submissions, and only dated submissions from 22:00 to 03:59 count |
| Pairs.PairOfSame | src/lib/calculateAwards.ts:201 | two different ids give the same pair key whichever of them voted, and no other two ids give it |
| Pairs.PairOfOrdered | src/lib/calculateAwards.ts:201 | `[a, b].sort()` puts the smaller id first |
| Pairs.PairSum | src/lib/calculateAwards.ts:197-204 | votes under a pair's key are the votes of either member for the other |
| Pairs.PairPointsCombined | src/lib/calculateAwards.ts:196-204 | a pair's total is what each of the two gave the other, taken together, and every pair holds two different ids, smaller first |
| Pairs.SelfVotesIgnored | src/lib/calculateAwards.ts:200 | a vote for one's own submission changes neither the pair totals, nor the points given to or received from others, nor the directed points |
| Pairs.ExtremePairIsFirstBest | src/lib/calculateAwards.ts:205 | a pair is chosen exactly when there is one, and it is the first with the highest total (the lowest for sworn enemies, line 292) |
| Pairs.DirectedFor | src/lib/calculateAwards.ts:234-245 | one voter's inner map is the tally, by receiver, of their votes for others |
| Pairs.DirectedGet | src/lib/calculateAwards.ts:253 | `directedPoints.get(g)?.get(r) \|\| 0` is what `g` gave `r` |
| Pairs.DirectedWellFormed | src/lib/calculateAwards.ts:234-245 | `directedPoints` and each of its inner maps hold every id once |
| Pairs.DirectedLoop | src/lib/calculateAwards.ts:235-245 | the loop builds exactly the reference `DirectedPoints` |
| Pairs.FlatEntry | src/lib/calculateAwards.ts:251-252 | every (giver, receiver, given) the nested `forEach` visits carries the value stored under giver and receiver |
| Pairs.FlatGiver | src/lib/calculateAwards.ts:251 | every giver visited is a key of `directedPoints` |
| Pairs.AsymmetryMeaning | src/lib/calculateAwards.ts:253-254 | an asymmetry is what the giver gave the receiver minus what the receiver gave back |
| Pairs.RaiseMaxGet | src/lib/calculateAwards.ts:251-259 | each giver ends with the larger of their start value and every asymmetry of theirs, and it is one of those |
| Pairs.RaiseMaxNonNegative | src/lib/calculateAwards.ts:255-257 | raising only to larger values keeps every value at least zero |
| Pairs.MaxAsymmetryFacts | src/lib/calculateAwards.ts:248-259 | every value of `maxAsymmetryByPerson` is at least zero; a giver's value is their largest asymmetry when that is positive and zero otherwise |
| Pairs.RaiseMaxLoop | src/lib/calculateAwards.ts:251-259 | the nested loop computes exactly the reference `RaiseMax` over the visited triples |
| Pairs.WidestFacts | src/lib/calculateAwards.ts:267-277 | the best so far stays, or is replaced by the first triple that reaches the largest asymmetry, which strictly beats it |
| Pairs.OneSidedLoveFacts | src/lib/calculateAwards.ts:263-277 | the headline gap is the largest asymmetry and never below 0; a giver and receiver are named exactly when it is positive, and they are the first pair that reaches it |
| Pairs.WidestLoop | src/lib/calculateAwards.ts:263-277 | the nested loop computes exactly the reference `Widest` from a gap of 0 and no pair |
| Positions.SumIntsAppend | src/lib/calculateAwards.ts:364 | the `reduce` sum of a concatenation adds the two sums |
| Positions.PlacesFromBounds | src/lib/calculateAwards.ts:354-356 | every position pushed from index `k` on lies between `k + 1` and the number of standings |
| Positions.PositionsOfBounds | src/lib/calculateAwards.ts:356 | every position counts from 1 |
| Positions.PlaceFromGet | src/lib/calculateAwards.ts:354-358 | one round's standings append, to each competitor's list, exactly the places they hold in it |
| Positions.PositionsInGet | src/lib/calculateAwards.ts:353-359 | the rounds append each competitor's positions, round after round, and no id is filed twice |
| Positions.PositionsByCompetitorGet | src/lib/calculateAwards.ts:352-359 | each competitor's list holds their positions in round order, under one key |
| Positions.PositionsLoop | src/lib/calculateAwards.ts:352-359 | the nested loop builds exactly the reference `PositionsByCompetitor` |
| Positions.SquaredDeviationNonNegative | src/lib/calculateAwards.ts:365 | a sum of squares is never negative |
| Positions.ConstantSum | src/lib/calculateAwards.ts:364-365 | a constant list sums to its length times the constant and deviates nothing from it |
| Positions.VarianceFacts | src/lib/calculateAwards.ts:364-365 | the variance is never negative, and a competitor who always finishes in the same place has mean that place and variance 0 |
| Positions.VariancesGet | src/lib/calculateAwards.ts:362-368 | a list of five or more positions gets its variance and every other key is left alone |
| Positions.ConsistencyFacts | src/lib/calculateAwards.ts:351-369 | exactly the competitors with five or more positions get a variance, that of their positions, never negative |
| Positions.VariancesLoop | src/lib/calculateAwards.ts:361-368 | the loop computes exactly the reference `Variances` |
| Positions.HalfSplit | src/lib/calculateAwards.ts:407-409 | `sortedRounds` is a permutation of the rounds; the first half holds the ids of its earlier `floor(n / 2)` rounds, none created later than a second-half round |
| Positions.AddFromGet | src/lib/calculateAwards.ts:418-423 | one round's standings add to a competitor's sum the total and the number of their places |
| Positions.SummaryAppend | src/lib/calculateAwards.ts:418-423 | summing two lists one after the other sums their concatenation |
| Positions.SplitResultsGet | src/lib/calculateAwards.ts:414-424 | each half's sum per competitor is taken over exactly the rounds whose id is, or is not, in the first half |
| Positions.HalfAveragesGet | src/lib/calculateAwards.ts:411-424 | each half holds per competitor the total and the number of their positions in that half's rounds |
| Positions.HalvesLoop | src/lib/calculateAwards.ts:414-424 | the nested loop fills both halves exactly as the reference `SplitResults` |
| Positions.ChangesGet | src/lib/calculateAwards.ts:427-436 | a competitor with both halves known and at least three positions in each gets the difference of the averages; every other key is left alone |
| Positions.FallFacts | src/lib/calculateAwards.ts:426-436 | a fall is known exactly for competitors with three or more positions in each half, and it is the later mean position minus the earlier one |
| Positions.RiseIsNegatedFall | src/lib/calculateAwards.ts:453-463 | the redemption arc is the fall from grace turned round: the same competitors, with the opposite change |
| Positions.ChangesLoop | src/lib/calculateAwards.ts:427-436 | the competitors loop computes exactly the reference `Changes` |
| Timing.GroupGet | src/lib/calculateAwards.ts:509-515 | grouping appends to each round's list exactly the items of that round, in order, and files no round twice |
| Timing.RoundGroups | src/lib/calculateAwards.ts:509-533 | each round's group holds exactly the items of that round, in their order |
| Timing.GroupLoop | src/lib/calculateAwards.ts:509-515 | the loop builds exactly the reference `Group` |
| Timing.ExtremeSubmitterExists | src/lib/calculateAwards.ts:518-524 | a round names a submitter exactly when it has a dated submission |
| Timing.ExtremeSubmitterBest | src/lib/calculateAwards.ts:518-522 | the submitter named is that of the first dated submission with the latest (for the eager beaver, lines 589-593, the earliest) time, which no dated submission beats |
| Timing.VoterTimesGet | src/lib/calculateAwards.ts:536-545 | a voter has a time exactly when they cast a dated vote, and it is the latest (earliest) of their dated votes' times |
| Timing.VoterTimesDistinct | src/lib/calculateAwards.ts:536-545 | `lastVoteByVoter` holds each voter once |
| Timing.VoterTimesLoop | src/lib/calculateAwards.ts:537-545 | the loop builds exactly the reference `VoterTimesOf` |
| Timing.LeaderFacts | src/lib/calculateAwards.ts:547-554 | the search over the voters finds an entry exactly when there is one, and no entry beats the one it keeps |
| Timing.LeaderLoop | src/lib/calculateAwards.ts:547-554 | the loop finds exactly the reference `Leader` |
| Timing.ExtremeVoterFacts | src/lib/calculateAwards.ts:535-559 | the voter named for a round is non-empty and cast a dated vote that no dated vote of the round beats; nobody is named only when no vote is dated or the winner of the race has the empty id |
| Timing.AddAllGet | src/lib/calculateAwards.ts:563-568 | adding a counter into a total adds it key by key and in sum |
| Timing.AddAllLoop | src/lib/calculateAwards.ts:563-565 | the loop computes exactly the reference `AddAll` |
| Timing.LatenessFacts | src/lib/calculateAwards.ts:505-568 | a competitor's total is their submission count plus their vote count, and all totals add up to the rounds with a chosen submitter plus the rounds with a chosen voter |
| Timing.SubmissionCountsLoop | src/lib/calculateAwards.ts:517-525 | the loop over the rounds' submissions counts exactly one for each round's chosen submitter |
| Timing.VoteCountsLoop | src/lib/calculateAwards.ts:535-559 | the loop over the rounds' votes counts exactly one for each round's chosen voter |
| Timing.LatenessLoop | src/lib/calculateAwards.ts:505-568 | the whole imperative computation of the dunce (and, lines 584-631, of the eager beaver) equals the reference `Lateness` |
| Awards.BuildFacts | src/lib/calculateAwards.ts:67-79 | each award keeps its rule's id and sort order and ranks its data; a fully ranked award names the head of its table with the head's value, or nobody and 0 with an empty table |
| Awards.BuildKeeps | src/lib/calculateAwards.ts:69-79 | every award carries its rule's id, sort order and ranking table |
| Awards.BuildRanked | src/lib/calculateAwards.ts:68-72 | `rankings[0]?.competitor \|\| null` and its value: the head of the table, or nobody and 0 |
| Awards.RulesShape | src/lib/calculateAwards.ts:57-645 | the seventeen rules have their fixed ids and sort orders, in source order |
| Awards.BuildKeepsShape | src/lib/calculateAwards.ts:69-79 | building awards keeps the ids and sort orders of their rules |
| Awards.AwardsShape | src/lib/calculateAwards.ts:22-648 | `calculateAwards` returns seventeen awards with fixed ids in a fixed order, and only the sworn enemies, the contrarian and the most consistent rank from low to high |
| Awards.HeadedAwardFacts | src/lib/calculateAwards.ts:41-79 | a fully ranked award names a competitor exactly when the data holds an entry of a known competitor, and then it is a known competitor with their own entry and the best value of all |
| Awards.HeadedAwardWinner | src/lib/calculateAwards.ts:46-68 | there is no winner exactly when no entry of the data belongs to a known competitor |
| Awards.HeadedAwardBest | src/lib/calculateAwards.ts:46-68 | a winner is a known competitor, its value is its own entry, and no known entry beats it in the award's order |
| Awards.OverallHas | src/lib/calculateAwards.ts:57-66 | every competitor has their received points in the overall table |
| Awards.OverallEntry | src/lib/calculateAwards.ts:57-66 | every value of the overall table is the points its key received |
| Awards.OverallWinnerFacts | src/lib/calculateAwards.ts:57-79 | with at least one competitor there is an overall winner, a competitor whose shown value is the points they received, at least every competitor's |
| Awards.PairAwardFacts | src/lib/calculateAwards.ts:205-231 | best buddies (and sworn enemies, lines 292-318) show nobody and 0 without pairs, and otherwise the two ids and total of the first pair with the highest (lowest) total |
| Awards.OneSidedAwardFacts | src/lib/calculateAwards.ts:263-289 | one-sided love shows the widest gap, never below 0 and at least every asymmetry, with the giver and receiver of a pair that reaches it, or nobody when no gap is positive |
| Awards.CalculateAwards | src/lib/calculateAwards.ts:22-648 | the step-by-step computation equals the reference `AllAwards` |
| Awards.RulesLoop | src/lib/calculateAwards.ts:57-645 | the numbers of the seventeen rules computed by the source's loops equal the reference `Rules` |
| Awards.PointRulesLoop | src/lib/calculateAwards.ts:57-193 | the loops of rules 1 to 6 compute exactly the reference `PointRules` |
| Awards.PairRulesLoop | src/lib/calculateAwards.ts:195-318 | the loops of rules 7 to 9 compute exactly the reference `PairRules` |
| Awards.HabitRulesLoop | src/lib/calculateAwards.ts:320-477 | the loops of rules 10 to 14 compute exactly the reference `HabitRules` |
| Awards.TimingRulesLoop | src/lib/calculateAwards.ts:479-645 | the loops of rules 15 to 17 compute exactly the reference `TimingRules` |
| Library.TrackPointsSum | src/lib/musicAnalytics.ts:58-69 | a track's points are those of the votes cast on its URI and round |
| Library.DisplayNameOf | src/lib/musicAnalytics.ts:56-70 | the name shown for a submitter is that of the last competitor listed with the id, and "Unknown" when there is none or the name is empty |
| Library.CreditsAt | src/lib/musicAnalytics.ts:66-72 | the credits of the submissions are each submission's artist credits in turn |
| Library.SubmittedByCons | src/lib/musicAnalytics.ts:85 | `includes` on the submitter list of a run of credits is true exactly when the first or a later credit names the submitter |
| Library.CreditArtistFold | src/lib/musicAnalytics.ts:82-87 | a run of credits adds one to the count and the track points to the total for each, and lists each new submitter once |
| Library.CreditsNaming | src/lib/musicAnalytics.ts:72-88 | the credits filed under an artist name a submitter exactly when some credit names both |
| Library.ArtistEntry | src/lib/musicAnalytics.ts:64-89 | every artist record belongs to the name it is filed under, carries that name's inferred genres, counts one per credit of the name, sums those credits' points and lists each crediting submitter exactly once |
| Library.CreditsListed | src/lib/musicAnalytics.ts:73-81 | an artist gets a record exactly when some credit names it |
| Library.ArtistListed | src/lib/musicAnalytics.ts:64-89 | an artist has a record exactly when some submission credits it |
| Library.ArtistCountsSum | src/lib/musicAnalytics.ts:83 | the artists' counts add up to the number of credits |
| Library.CreditArtists | src/lib/musicAnalytics.ts:72-88 | the inner loop over one submission's artists is exactly the reference accumulation of its credits |
| Library.ArtistStatsLoop | src/lib/musicAnalytics.ts:51-92 | `getArtistStats` equals the reference `ArtistStatsOf`, sorted by count, most first, and a permutation of the artist records |
| Library.CreditAlbumFold | src/lib/musicAnalytics.ts:110-121 | a run of submissions adds one to the album's count and its tracks' points to its total for each; a new record takes the album and artists of the first submission, and a counted one keeps its own |
| Library.AlbumEntry | src/lib/musicAnalytics.ts:104-122 | every album record is filed under the string `${album}_${artists}` of some submission; it counts and sums exactly the submissions with that string, and carries the album and artists of the first of them |
| Library.AlbumKeysMerge | src/lib/musicAnalytics.ts:107-118 | two submissions whose album and artist fields differ but run together around the `_` share one record, named after the first, with count 2 |
| Library.AlbumCountsSum | src/lib/musicAnalytics.ts:104-122 | every submission is counted under exactly one album |
| Library.AlbumStatsLoop | src/lib/musicAnalytics.ts:94-125 | `getAlbumStats` equals the reference `AlbumStatsOf`, sorted by count, most first, and a permutation of the album records |
| Library.TagsAt | src/lib/musicAnalytics.ts:131-132 | the genre tags are each artist's genres in turn |
| Library.TakeFive | src/lib/musicAnalytics.ts:144-146 | pushing while fewer than five are listed keeps the first five names |
| Library.CreditGenreFold | src/lib/musicAnalytics.ts:141-146 | a run of tags adds the artists' counts and points to a genre and lists the first five artist names, in order |
| Library.GenreEntry | src/lib/musicAnalytics.ts:129-148 | every genre record's count and points are the sums over the artists listing it, and it lists the first five (at most five) of those artists |
| Library.GenreListed | src/lib/musicAnalytics.ts:129-148 | a genre has a record exactly when some artist lists it |
| Library.CreditGenres | src/lib/musicAnalytics.ts:132-147 | the inner loop over one artist's genres is exactly the reference accumulation of its tags |
| Library.GenreStatsLoop | src/lib/musicAnalytics.ts:127-151 | `getGenreStats` equals the reference `GenreStatsOf`, sorted by count, most first |
| Library.CreditsDistinctNames | src/lib/musicAnalytics.ts:73-81 | the artist map has one entry per distinct credited name |
| Library.UniqueArtists | src/lib/musicAnalytics.ts:459 | `uniqueArtists` counts the distinct credited artist names |
| Library.MostSubmittedArtist | src/lib/musicAnalytics.ts:462 | the most submitted artist is the first artist record with the highest count, "N/A" when there is none or its name is empty |
| Library.MusicStatsLoop | src/lib/musicAnalytics.ts:451-466 | `getMusicStats` equals the reference `MusicStatsOf`, and `totalTracks` is the number of submissions |
| Tracks.EmbedUrlOfId | src/lib/musicAnalytics.ts:46-49 | a track URI gives the player link of its id, and the id can be read back out of the link |
| Tracks.EmbedUrlOther | src/lib/musicAnalytics.ts:47 | a URI without the prefix is used as the id as it stands |
| Tracks.CountVotes | src/lib/musicAnalytics.ts:399-402 | counting a run of votes adds their points and their number |
| Tracks.StatsOf | src/lib/musicAnalytics.ts:396-403 | each key holds the summed points and the number of the votes cast on it; a key without votes reads as 0 and 0 |
| Tracks.PointsAgree | src/lib/musicAnalytics.ts:396-403 | the points of a key agree with those the artist and album statistics use |
| Tracks.StatsLoop | src/lib/musicAnalytics.ts:396-403 | the `votes.forEach` builds exactly the reference `StatsLookup` |
| Tracks.AllTracksFacts | src/lib/musicAnalytics.ts:421-449 | one track per submission, each carrying its submission, the points and number of the votes on its key, its submitter's display name and the player link of its URI |
| Tracks.TopTracksFacts | src/lib/musicAnalytics.ts:389-419 | the top tracks are at most `limit` (all when there are fewer), in descending order of points, drawn from the full list, and no track left out has more points than one kept |
| Tracks.TopTracksGrow | src/lib/musicAnalytics.ts:418 | the top `n` tracks start the top `n + 1` |
| Tracks.GetAllTracks | src/lib/musicAnalytics.ts:421-449 | the imperative `getAllTracks` equals the reference `AllTracks` |
| Tracks.GetTopTracks | src/lib/musicAnalytics.ts:389-419 | the imperative `getTopTracks` equals the reference `TopTracks` |
| Personalities.PoolFacts | src/lib/musicAnalytics.ts:154-183 | the pool holds 28 personalities, none of them the stand-in "The Music Lover" |
| Personalities.PoolDistinguishable | src/lib/musicAnalytics.ts:154-183 | no personality of the pool is the stand-in |
| Personalities.NoCountsScore | src/lib/musicAnalytics.ts:192-198 | without genre counts no target genre scores |
| Personalities.ScoreEmpty | src/lib/musicAnalytics.ts:185-201 | a competitor without genres scores 0 with every personality |
| Personalities.TargetScorePositive | src/lib/musicAnalytics.ts:193-197 | with positive counts a target genre scores, never below 0, exactly when some genre contains it or is contained in it |
| Personalities.TargetsScorePositive | src/lib/musicAnalytics.ts:192-198 | with positive counts the targets score exactly when one of them matches some genre |
| Personalities.CountsFromBreakdown | src/lib/musicAnalytics.ts:190 | every entry of `genreCounts` is the count of a breakdown entry with that lower-cased genre |
| Personalities.BreakdownInCounts | src/lib/musicAnalytics.ts:190 | every lower-cased breakdown genre has an entry in `genreCounts` |
| Personalities.ScorePositive | src/lib/musicAnalytics.ts:185-201 | with positive counts a personality's score is never negative, and positive exactly when one of its genres matches a lower-cased breakdown genre |
| Personalities.ScoreTarget | src/lib/musicAnalytics.ts:193-197 | the inner loop adds exactly the target genre's score |
| Personalities.ScorePersonality | src/lib/musicAnalytics.ts:185-201 | the two nested loops compute exactly the reference `Score` |
| Personalities.ScoreAll | src/lib/musicAnalytics.ts:214-217 | every personality of the pool is scored, in pool order |
| Personalities.FirstFree | src/lib/musicAnalytics.ts:227-235 | the first preference whose name is not taken, every earlier one being taken, or the end when all are |
| Personalities.FirstFreeScore | src/lib/musicAnalytics.ts:227-236 | the `for` loop with its `break` stops exactly at `FirstFree` |
| Personalities.FindFree | src/lib/musicAnalytics.ts:240 | `personalityPool.find` stops exactly at the first free personality |
| Personalities.RankCovers | src/lib/musicAnalytics.ts:213-220 | every competitor's preferences rank the whole pool and nothing else |
| Personalities.FallbackFindsNothing | src/lib/musicAnalytics.ts:239-241 | when every preference is taken so is every name of the pool, so the fallback search never finds anything |
| Personalities.AssignOneFacts | src/lib/musicAnalytics.ts:226-253 | each competitor gets their first preference still free, which is then taken; otherwise the pool is used up and they keep what they had or get the stand-in |
| Personalities.GiveFair | src/lib/musicAnalytics.ts:229-233 | handing out a free personality keeps the hand-out fair |
| Personalities.LoverFair | src/lib/musicAnalytics.ts:248-251 | the stand-in given out once the pool is used up keeps the hand-out fair |
| Personalities.AssignOneFair | src/lib/musicAnalytics.ts:226-253 | one competitor's turn keeps the hand-out fair: a real personality is held by one competitor at most and marked taken, and the stand-in only comes once the pool is used up |
| Personalities.AssignOneKeys | src/lib/musicAnalytics.ts:226-253 | a turn keeps every assignment key and adds only the competitor's own |
| Personalities.AssignAllFacts | src/lib/musicAnalytics.ts:226-254 | over a run the hand-out stays fair, taken names stay taken, every competitor of the run ends with an assignment and nobody else gains one |
| Personalities.RankedCover | src/lib/musicAnalytics.ts:213-223 | every ranked competitor has the whole pool among their preferences |
| Personalities.SortKeepsIds | src/lib/musicAnalytics.ts:223 | sorting the scored profiles keeps exactly their ids |
| Personalities.RankedIds | src/lib/musicAnalytics.ts:213-223 | ranking reorders the competitors and loses none |
| Personalities.AssignUniqueFacts | src/lib/musicAnalytics.ts:203-257 | every competitor gets a personality and only competitors do; no two share one, the stand-in apart; the stand-in is given out only after the whole pool is |
| Personalities.AssignUniquePersonalities | src/lib/musicAnalytics.ts:203-257 | the imperative hand-out with its loops equals the reference `AssignUnique` |
| Profiles.AddArtistsFold | src/lib/musicAnalytics.ts:294-302 | adding a submission's artists keeps the count and the voting genres and adds only artists not listed yet |
| Profiles.AddArtistsHas | src/lib/musicAnalytics.ts:296 | after the artists are added, the set holds the old artists and the added ones, and nothing else |
| Profiles.SubmittedFacts | src/lib/musicAnalytics.ts:291-302 | one submission adds one to the count, keeps the voting genres and keeps the artists free of duplicates |
| Profiles.SubmitFold | src/lib/musicAnalytics.ts:282-303 | a run of submissions adds its length to the count, keeps the voting genres and keeps the artists free of duplicates |
| Profiles.ArtistInCons | src/lib/musicAnalytics.ts:294 | an artist is credited by a run exactly when the first or a later submission credits it |
| Profiles.SubmitFoldHas | src/lib/musicAnalytics.ts:282-303 | after a run of submissions the artists are the old ones and those some submission of the run credits |
| Profiles.VoteArtistsFold | src/lib/musicAnalytics.ts:323-329 | crediting a vote to a track's artists touches neither the count, nor the artists, nor the genre counts |
| Profiles.VoteFold | src/lib/musicAnalytics.ts:306-330 | the votes change only the voting genres |
| Profiles.ProfileSteps | src/lib/musicAnalytics.ts:274-330 | a competitor's profile is the empty one updated by their submissions, then by their counted votes |
| Profiles.ProfileFacts | src/lib/musicAnalytics.ts:274-330 | a profile counts one per submission of the competitor, lists distinct artists, and gives no points to any genre unless some vote of theirs counts |
| Profiles.ProfileArtists | src/lib/musicAnalytics.ts:294-296 | the artists of a profile are exactly those some submission of the competitor credits |
| Profiles.AddedCounts | src/lib/musicAnalytics.ts:299-301 | adding one artist keeps every genre count at least 0 |
| Profiles.AddArtistsCounts | src/lib/musicAnalytics.ts:294-302 | adding a submission's artists keeps every genre count at least 0 |
| Profiles.SubmittedCounts | src/lib/musicAnalytics.ts:291-302 | one submission keeps every genre count at least 0 |
| Profiles.ProfileCounts | src/lib/musicAnalytics.ts:282-330 | every genre count of a profile is at least 0 |
| Profiles.PercentageFacts | src/lib/musicAnalytics.ts:360 | the share is the whole percentage nearest to the exact one, a half rounding up, and lies between 0 and 100 |
| Profiles.PercentageNoTotal | src/lib/musicAnalytics.ts:360 | without any count every share is 0 |
| Profiles.EntryAtMostSum | src/lib/musicAnalytics.ts:353 | a non-negative count lies between 0 and the sum of all counts |
| Profiles.EntryInSum | src/lib/musicAnalytics.ts:353 | every entry's count lies between 0 and the sum of all counts |
| Profiles.ZeroSumBelow | src/lib/musicAnalytics.ts:353 | a sum of non-negative counts is not negative |
| Profiles.BreakdownFacts | src/lib/musicAnalytics.ts:354-361 | the breakdown holds the six most counted genres, or all when there are fewer, most counted first, and no genre left out is counted more than one kept |
| Profiles.BreakdownEntry | src/lib/musicAnalytics.ts:354-361 | every breakdown entry is a counted genre with its own count and its share of all counts, rounded to the nearest whole percent, between 0 and 100 |
| Profiles.TopGenresFacts | src/lib/musicAnalytics.ts:363 | the top genres are the first three genres of the breakdown |
| Profiles.VotingPreferenceFacts | src/lib/musicAnalytics.ts:366-370 | the voting preference holds at most five genres, each with the points the competitor's counted votes gave it, most points first |
| Profiles.SummaryFields | src/lib/musicAnalytics.ts:347-385 | a summary carries the competitor's id and name, their number of submissions, their distinct artists' number, the first five artists, and the first three genres of the breakdown |
| Profiles.SummaryBreakdown | src/lib/musicAnalytics.ts:352-361 | every breakdown entry of a summary is one of the competitor's genres with its count and its rounded share of all their genre counts |
| Profiles.CandidateIds | src/lib/musicAnalytics.ts:333-342 | every competitor takes part in the hand-out |
| Profiles.SummaryPersonality | src/lib/musicAnalytics.ts:345-384 | every competitor's summary shows the personality and emoji handed out to them |
| Profiles.UniquePersonalities | src/lib/musicAnalytics.ts:345-384 | no two competitors' summaries show the same personality, except the stand-in |
| Profiles.SubmitterProfilesFacts | src/lib/musicAnalytics.ts:347-386 | one summary per competitor and nothing else, most submissions first |
| Profiles.AddArtistsLoop | src/lib/musicAnalytics.ts:294-302 | the loop over one submission's artists computes exactly the reference fold |
| Profiles.VoteArtistsLoop | src/lib/musicAnalytics.ts:323-329 | the loop over a voted track's artists computes exactly the reference fold |
| Profiles.SubmitOne | src/lib/musicAnalytics.ts:283-302 | creating the profile when new, counting the submission and adding its artists is one absorbed submission |
| Profiles.SubmissionsLoop | src/lib/musicAnalytics.ts:282-303 | `submissions.forEach` builds exactly the reference `SubmissionProfiles` |
| Profiles.VotesLoop | src/lib/musicAnalytics.ts:306-330 | `votes.forEach` absorbs exactly the counted votes: positive points on a submitted track |
| Profiles.GetSubmitterProfiles | src/lib/musicAnalytics.ts:259-387 | the imperative `getSubmitterProfiles` equals the reference `SubmitterProfiles` |
| Genres.FirstRelated | src/lib/genreMapping.ts:283-289 | the first table entry related to the name, none before it being related, or the end when there is none |
| Genres.RelatedSelf | src/lib/genreMapping.ts:283-289 | a name is related to itself |
| Genres.InferExact | src/lib/genreMapping.ts:278-280 | an exact table entry is returned before any partial match |
| Genres.InferFirstRelated | src/lib/genreMapping.ts:283-289 | without an exact entry the first related entry in table order wins |
| Genres.InferEmptyName | src/lib/genreMapping.ts:283-289 | the empty name is contained in every name, so it takes the genres of the first entry |
| Genres.MatchNameNone | src/lib/genreMapping.ts:278-289 | a name related to no entry has no match of its own |
| Genres.MatchPartsNone | src/lib/genreMapping.ts:292-304 | the parts give no match exactly when none of them does |
| Genres.InferFallback | src/lib/genreMapping.ts:274-321 | when neither the name nor any part is related to an entry, the keyword rules decide |
| Genres.KeywordsOther | src/lib/genreMapping.ts:307-320 | the keyword rules give "Other" exactly when no keyword occurs |
| Genres.MatchNameEntry | src/lib/genreMapping.ts:278-289 | a match by name is some entry's genre list |
| Genres.MatchPartsEntry | src/lib/genreMapping.ts:292-304 | a match through the parts is some entry's genre list |
| Genres.KeywordsFallback | src/lib/genreMapping.ts:307-320 | the keyword rules give one of five fixed lists |
| Genres.InferOrigin | src/lib/genreMapping.ts:274-321 | every result is an entry's genre list or one of the fixed lists |
| Genres.InferNeverEmpty | src/lib/genreMapping.ts:274-321 | every artist is credited with at least one genre when every entry lists one |
| Genres.GenreColorFacts | src/lib/genreMapping.ts:363-365 | with a non-empty colour for "Other" every genre gets a non-empty colour: its own when it has one, that of "Other" otherwise |
| Genres.GenreColorShared | src/lib/genreMapping.ts:363-365 | two genres without a colour of their own look the same |

## Left out

- Reading the CSV files: the bundler's raw-text imports at `src/lib/parseData.ts:2-5` are left out. The getters are functions of the raw text, and awards and analytics are functions of the tables.
- The React components and pages are not part of this model. They only render the results and hold UI state.
- Dates: `new Date(created)` and `getHours()` depend on the viewer's time zone. They are the parameters `timeOf` and `hourOf`, whose values are whole numbers. An invalid date, being `NaN`, leaves the source's comparisons false; that case is not modelled. The rule that empty `created` values are skipped is kept.
- Floating point: averages, variance, position changes and differences are exact `real`s.
- Profiles.PercentageFacts: it rounds the exact ratio, half up. For a ratio at a half, the double-precision result of the source can come out on the other side.
- Display strings are not modelled. This covers the award `value` texts, names, descriptions, icons and metric labels, and `toFixed` and `toLocaleString`. `formatFn` is a parameter of the ranking rule.
- The keys the source builds with a `_` separator, `${uri}_${roundId}` and `[a, b].sort().join('_')`, are pairs. Two different pairs that run together when an id contains `_` are kept apart in the model, and the later `split('_')` of a pair key is not modelled either. The album key `${album}_${artists}` of `getAlbumStats` is the joined string itself, so its merges are modelled.
- Strings are sequences of characters, with the length of a string counted in those characters. The source counts UTF-16 code units. `toLowerCase` lower-cases ASCII letters only.
- Plain-object lookups that hit an inherited property of `Object.prototype` are not modelled. One example is an artist named `constructor` in `artistGenreMap`.
- Tables: the 243-entry `artistGenreMap` and the `genreColors` table are parameters, as lists in declaration order. The 28-entry personality pool is written out, with its emoji, as `Personalities.Pool`, but the hand-out takes the pool as a parameter.
- Genres.GenreColorFacts: it requires the colour table to have a non-empty "Other" entry, as the source's table at `src/lib/genreMapping.ts:360` has.
- `undefined` and `null` are both `None`. Number fields are integers, with `parseInt` read as the decimal value of the digit prefix of any size. JavaScript numbers lose precision above 2^53; that is not modelled.
- Personalities.AssignUniqueFacts: its last clause says the stand-in is handed out only once every pool name is marked as used in the hand-out's internal set. It does not restate that in terms of the returned assignments alone.
- Profiles.ProfileFacts: the voting-genre points are characterised as the fold of the counted votes and as empty when no vote counts. Each genre's total is not summed out in closed form.
- Tracks.TopTracksFacts: it states the length and order for a non-negative `limit` only. `Tracks.TopTracks` itself follows `slice(0, limit)` for a negative limit too, counting back from the end.
- Source behaviour kept as written, though it may not be what the authors meant:
  - albums whose album and artist fields run together around the `_` of their key are counted as one album, under the names of the first;
  - the empty artist name is contained in every name, so it takes the genres of the first table entry;
  - a competitor whose name is empty is shown as "Unknown";
  - the `find` over the pool at `src/lib/musicAnalytics.ts:240` never succeeds, because every competitor's preferences already rank the whole pool.
