/**
 * The league tables of `parseData.ts`: the overall leaderboard
 * (`calculateLeaderboard`), the standings of every round
 * (`getRoundResults`) and the headline counts (`getStats`).
 *
 * A vote is credited to the submitter of the track it names in its round.
 * The join key `${spotifyUri}_${roundId}` is modelled as the pair of the two
 * strings.
 */
module Standings {
  import opened Options
  import opened Sequences
  import opened OrderedMaps
  import opened Sorting
  import opened Records

  /** The join key of a vote and a submission: track and round. */
  type TrackKey = (string, string)

  function SubmissionKey(s: Submission): TrackKey {
    (s.spotifyUri, s.roundId)
  }

  function VoteKey(v: Vote): TrackKey {
    (v.spotifyUri, v.roundId)
  }

  function SubmitterOf(s: Submission): string {
    s.submitterId
  }

  function Points(v: Vote): int {
    v.points
  }

  /** `submissionLookup`: for every key, the submitter of the last
      submission under it. */
  function SubmissionLookup(submissions: seq<Submission>): OrderedMap<TrackKey, string> {
    Index([], submissions, SubmissionKey, SubmitterOf)
  }

  /** The submitter a vote is credited to. A key without a submission and a
      submission with an empty submitter both leave the vote uncredited
      (`if (!submitterId) return`). */
  function Resolve(lookup: OrderedMap<TrackKey, string>, v: Vote): Option<string> {
    match Get(lookup, VoteKey(v))
    case Some(id) => if id == "" then None else Some(id)
    case None => None
  }

  /** The credited votes of the last matching submission are the ones whose
      key some submission carries, with a non-empty submitter. */
  lemma ResolveSubmission(submissions: seq<Submission>, v: Vote)
    ensures Resolve(SubmissionLookup(submissions), v).Some? <==>
            (LastWith(submissions, SubmissionKey, VoteKey(v)).Some? &&
             LastWith(submissions, SubmissionKey, VoteKey(v)).value.submitterId != "")
    ensures Resolve(SubmissionLookup(submissions), v).Some? ==>
            exists i | 0 <= i < |submissions| :: SubmissionKey(submissions[i]) == VoteKey(v) &&
              submissions[i].submitterId == Resolve(SubmissionLookup(submissions), v).value
  {
    IndexGet([], submissions, SubmissionKey, SubmitterOf, VoteKey(v));
    LastWithIsItem(submissions, SubmissionKey, VoteKey(v));
    var last := LastWith(submissions, SubmissionKey, VoteKey(v));
    if last.Some? {
      var i :| 0 <= i < |submissions| && submissions[i] == last.value;
    }
  }

  // ---------------------------------------------------------------------
  // calculateLeaderboard

  /** Points per round id. */
  type RoundPoints = OrderedMap<string, int>

  /** `pointsByCompetitorByRound`: points per submitter per round. */
  type PointsTable = OrderedMap<string, RoundPoints>

  /** One vote's turn of the first loop of `calculateLeaderboard`: the
      submitter gets an empty inner map on first sight, then the vote's
      points are added under its round. */
  function Credit(table: PointsTable, lookup: OrderedMap<TrackKey, string>, v: Vote): PointsTable {
    match Resolve(lookup, v)
    case None => table
    case Some(id) => Set(table, id, Add(GetOr(table, id, []), v.roundId, v.points))
  }

  function PointsByRound(table: PointsTable, lookup: OrderedMap<TrackKey, string>, votes: seq<Vote>): PointsTable
    decreases |votes|
  {
    if |votes| == 0 then table else PointsByRound(Credit(table, lookup, votes[0]), lookup, votes[1..])
  }

  /** The round under which a vote counts for submitter `c`, if it does. */
  function RoundFor(lookup: OrderedMap<TrackKey, string>, c: string): Vote -> Option<string> {
    (v: Vote) => if Resolve(lookup, v) == Some(c) then Some(v.roundId) else None
  }

  /** The inner map of one submitter is the tally of the votes credited to
      them, by round. */
  lemma {:induction false} PointsByRoundFor(table: PointsTable, lookup: OrderedMap<TrackKey, string>, votes: seq<Vote>, c: string)
    ensures GetOr(PointsByRound(table, lookup, votes), c, []) == Tally(GetOr(table, c, []), votes, RoundFor(lookup, c), Points)
    decreases |votes|
  {
    if |votes| > 0 {
      var v := votes[0];
      var next := Credit(table, lookup, v);
      assert GetOr(next, c, []) == Bump(GetOr(table, c, []), v, RoundFor(lookup, c), Points) by {
        match Resolve(lookup, v)
        case None =>
        case Some(id) =>
          if id != c {
            SetGetOther(table, id, Add(GetOr(table, id, []), v.roundId, v.points), c);
          } else {
            SetGet(table, c, Add(GetOr(table, c, []), v.roundId, v.points));
          }
      }
      PointsByRoundFor(next, lookup, votes[1..], c);
    }
  }

  /** The reference total: the points of every vote credited to `c`. */
  function Received(lookup: OrderedMap<TrackKey, string>, votes: seq<Vote>, c: string): int
    decreases |votes|
  {
    if |votes| == 0 then 0
    else (if Resolve(lookup, votes[0]) == Some(c) then votes[0].points else 0) + Received(lookup, votes[1..], c)
  }

  lemma {:induction false} ReceivedIsSumKeyed(lookup: OrderedMap<TrackKey, string>, votes: seq<Vote>, c: string)
    ensures SumKeyed(votes, RoundFor(lookup, c), Points) == Received(lookup, votes, c)
    decreases |votes|
  {
    if |votes| > 0 {
      ReceivedIsSumKeyed(lookup, votes[1..], c);
    }
  }

  /** The rounds in which some vote is credited to `c`. */
  function RoundsWithPoints(lookup: OrderedMap<TrackKey, string>, votes: seq<Vote>, c: string): set<string> {
    set v | v in votes && Resolve(lookup, v) == Some(c) :: v.roundId
  }

  /** What the leaderboard reads from a submitter's inner map: its values
      sum to the points credited to them, and it has one entry per round
      in which they received a vote. */
  lemma InnerMapFacts(lookup: OrderedMap<TrackKey, string>, votes: seq<Vote>, c: string)
    ensures var inner := GetOr(PointsByRound([], lookup, votes), c, []);
            Sum(inner) == Received(lookup, votes, c) &&
            |inner| == |RoundsWithPoints(lookup, votes, c)|
  {
    var inner := GetOr(PointsByRound([], lookup, votes), c, []);
    var key := RoundFor(lookup, c);
    PointsByRoundFor([], lookup, votes, c);
    TallySum([], votes, key, Points);
    ReceivedIsSumKeyed(lookup, votes, c);
    TallyDistinct([], votes, key, Points);
    DistinctKeyCount(inner);
    var ks := set i | 0 <= i < |inner| :: inner[i].0;
    assert ks == RoundsWithPoints(lookup, votes, c) by {
      forall r ensures r in ks <==> r in RoundsWithPoints(lookup, votes, c) {
        HasKeyIffInKeys(inner, r);
        TallyHasKey([], votes, key, Points, r);
        if Keyed(votes, key, r) {
          var i :| 0 <= i < |votes| && key(votes[i]) == Some(r);
          assert votes[i] in votes;
        }
        if r in RoundsWithPoints(lookup, votes, c) {
          var v :| v in votes && Resolve(lookup, v) == Some(c) && v.roundId == r;
          var i :| 0 <= i < |votes| && votes[i] == v;
          assert key(votes[i]) == Some(r);
        }
      }
    }
  }

  /** A submitter and their points in one round. */
  type Placing = (string, int)

  function PlacingPoints(p: Placing): real {
    p.1 as real
  }

  /** The standings of round `rid` before sorting: every submitter with
      points in that round, in the order of the points table. */
  function RoundEntries(table: PointsTable, rid: string): seq<Placing>
    decreases |table|
  {
    if |table| == 0 then [] else PlacingIn(table[0], rid) + RoundEntries(table[1..], rid)
  }

  /** The placing of one submitter in round `rid`, if they have points there. */
  function PlacingIn(e: (string, RoundPoints), rid: string): seq<Placing> {
    match Get(e.1, rid) case Some(p) => [(e.0, p)] case None => []
  }

  lemma RoundEntriesStep(table: PointsTable, rid: string, j: nat)
    requires j < |table|
    ensures RoundEntries(table[j..], rid) == PlacingIn(table[j], rid) + RoundEntries(table[j + 1..], rid)
  {
    DropHead(table, j);
  }

  /** `roundStandings.sort((a, b) => b.points - a.points)`. */
  function RankRound(table: PointsTable, rid: string): seq<Placing> {
    StableSort(RoundEntries(table, rid), PlacingPoints, true)
  }

  function RoundId(r: Round): string {
    r.id
  }

  function RankFor(table: PointsTable): Round -> seq<Placing> {
    (r: Round) => RankRound(table, r.id)
  }

  /** `roundResults`: the sorted standings under every round id. */
  function RoundStandings(table: PointsTable, rounds: seq<Round>): OrderedMap<string, seq<Placing>> {
    Index([], rounds, RoundId, RankFor(table))
  }

  /** `standings.findIndex(s => s.competitorId === id)`. */
  function FindIndex(standings: seq<Placing>, id: string): (pos: int)
    ensures -1 <= pos < |standings|
    ensures pos >= 0 ==> standings[pos].0 == id && forall j | 0 <= j < pos :: standings[j].0 != id
    ensures pos == -1 ==> forall j | 0 <= j < |standings| :: standings[j].0 != id
    decreases |standings|
  {
    if |standings| == 0 then -1
    else if standings[0].0 == id then 0
    else
      var p := FindIndex(standings[1..], id);
      if p == -1 then -1 else p + 1
  }

  /** The number of rounds `id` won. */
  function Wins(results: OrderedMap<string, seq<Placing>>, id: string): nat
    decreases |results|
  {
    if |results| == 0 then 0
    else (if FindIndex(results[0].1, id) == 0 then 1 else 0) + Wins(results[1..], id)
  }

  /** The number of rounds `id` finished in the first three places. */
  function TopThree(results: OrderedMap<string, seq<Placing>>, id: string): nat
    decreases |results|
  {
    if |results| == 0 then 0
    else (if 0 <= FindIndex(results[0].1, id) < 3 then 1 else 0) + TopThree(results[1..], id)
  }

  /** Every win is a top-three finish, and there is at most one finish per
      round result. */
  lemma {:induction false} WinsTopThree(results: OrderedMap<string, seq<Placing>>, id: string)
    ensures Wins(results, id) <= TopThree(results, id) <= |results|
    decreases |results|
  {
    if |results| > 0 {
      WinsTopThree(results[1..], id);
    }
  }

  /** The loop over `roundResults` of one leaderboard entry. */
  method CountFinishes(results: OrderedMap<string, seq<Placing>>, id: string) returns (wins: nat, topThreeFinishes: nat)
    ensures wins == Wins(results, id) && topThreeFinishes == TopThree(results, id)
  {
    wins := 0;
    topThreeFinishes := 0;
    var i := 0;
    while i < |results|
      invariant 0 <= i <= |results|
      invariant wins + Wins(results[i..], id) == Wins(results, id)
      invariant topThreeFinishes + TopThree(results[i..], id) == TopThree(results, id)
    {
      DropHead(results, i);
      var position := FindIndex(results[i].1, id);
      if position == 0 {
        wins := wins + 1;
      }
      if position >= 0 && position < 3 {
        topThreeFinishes := topThreeFinishes + 1;
      }
      i := i + 1;
    }
  }

  datatype LeaderboardEntry = LeaderboardEntry(
    competitor: Competitor, totalPoints: int, roundsPlayed: nat, averagePoints: real,
    wins: nat, topThreeFinishes: nat)

  /** The entry of one competitor: `get(competitor.id) || new Map()` for the
      rounds, and an average of 0 when no round was played. */
  function EntryFor(table: PointsTable, results: OrderedMap<string, seq<Placing>>, c: Competitor): LeaderboardEntry {
    var rounds := GetOr(table, c.id, []);
    var total := Sum(rounds);
    var played := |rounds|;
    LeaderboardEntry(c, total, played, if played > 0 then total as real / played as real else 0.0,
                     Wins(results, c.id), TopThree(results, c.id))
  }

  function EntryOf(table: PointsTable, results: OrderedMap<string, seq<Placing>>): Competitor -> LeaderboardEntry {
    (c: Competitor) => EntryFor(table, results, c)
  }

  function TotalOf(e: LeaderboardEntry): real {
    e.totalPoints as real
  }

  /** `calculateLeaderboard()` on the four tables. */
  function Leaderboard(competitors: seq<Competitor>, submissions: seq<Submission>, votes: seq<Vote>, rounds: seq<Round>): seq<LeaderboardEntry> {
    var table := PointsByRound([], SubmissionLookup(submissions), votes);
    var results := RoundStandings(table, rounds);
    StableSort(Map(competitors, EntryOf(table, results)), TotalOf, true)
  }

  /** The standings of one round, built by the `forEach` over the points table. */
  method RoundEntriesLoop(table: PointsTable, rid: string) returns (roundStandings: seq<Placing>)
    ensures roundStandings == RoundEntries(table, rid)
  {
    roundStandings := [];
    var j := 0;
    while j < |table|
      invariant 0 <= j <= |table|
      invariant roundStandings + RoundEntries(table[j..], rid) == RoundEntries(table, rid)
    {
      RoundEntriesStep(table, rid, j);
      AppendAssoc(roundStandings, PlacingIn(table[j], rid), RoundEntries(table[j + 1..], rid));
      var found := Get(table[j].1, rid);
      if found.Some? {
        roundStandings := roundStandings + [(table[j].0, found.value)];
      }
      j := j + 1;
    }
    AppendEmpty(roundStandings);
  }

  lemma PointsByRoundStep(table: PointsTable, lookup: OrderedMap<TrackKey, string>, votes: seq<Vote>, i: nat)
    requires i < |votes|
    ensures PointsByRound(table, lookup, votes[i..]) == PointsByRound(Credit(table, lookup, votes[i]), lookup, votes[i + 1..])
  {
    DropHead(votes, i);
  }

  lemma CreditSome(table: PointsTable, lookup: OrderedMap<TrackKey, string>, v: Vote, id: string)
    requires Resolve(lookup, v) == Some(id)
    ensures Credit(table, lookup, v) ==
            Set(table, id, Set(GetOr(table, id, []), v.roundId, GetOr(GetOr(table, id, []), v.roundId, 0) + v.points))
  {
  }

  /** The `votes.forEach` of `calculateLeaderboard`. */
  method PointsLoop(lookup: OrderedMap<TrackKey, string>, votes: seq<Vote>) returns (table: PointsTable)
    ensures table == PointsByRound([], lookup, votes)
  {
    table := [];
    var i := 0;
    while i < |votes|
      invariant 0 <= i <= |votes|
      invariant PointsByRound(table, lookup, votes[i..]) == PointsByRound([], lookup, votes)
    {
      PointsByRoundStep(table, lookup, votes, i);
      var vote := votes[i];
      var submitterId := Resolve(lookup, vote);
      if submitterId.Some? {
        CreditSome(table, lookup, vote, submitterId.value);
        var competitorRounds := GetOr(table, submitterId.value, []);
        var currentPoints := GetOr(competitorRounds, vote.roundId, 0);
        table := Set(table, submitterId.value, Set(competitorRounds, vote.roundId, currentPoints + vote.points));
      }
      i := i + 1;
    }
  }

  /** The `rounds.forEach` of `calculateLeaderboard`. */
  method StandingsLoop(table: PointsTable, rounds: seq<Round>) returns (roundResults: OrderedMap<string, seq<Placing>>)
    ensures roundResults == RoundStandings(table, rounds)
  {
    roundResults := [];
    var k := 0;
    while k < |rounds|
      invariant 0 <= k <= |rounds|
      invariant Index(roundResults, rounds[k..], RoundId, RankFor(table)) == RoundStandings(table, rounds)
    {
      DropHead(rounds, k);
      var roundStandings := RoundEntriesLoop(table, rounds[k].id);
      roundResults := Set(roundResults, rounds[k].id, StableSort(roundStandings, PlacingPoints, true));
      k := k + 1;
    }
  }

  /** The `competitors.map` of `calculateLeaderboard`. */
  method EntriesLoop(table: PointsTable, roundResults: OrderedMap<string, seq<Placing>>, competitors: seq<Competitor>)
    returns (entries: seq<LeaderboardEntry>)
    ensures entries == Map(competitors, EntryOf(table, roundResults))
  {
    entries := [];
    var n := 0;
    while n < |competitors|
      invariant 0 <= n <= |competitors|
      invariant entries == Map(competitors[..n], EntryOf(table, roundResults))
    {
      var competitor := competitors[n];
      var roundsMap := GetOr(table, competitor.id, []);
      var totalPoints := Sum(roundsMap);
      var roundsPlayed := |roundsMap|;
      var wins, topThreeFinishes := CountFinishes(roundResults, competitor.id);
      var entry := LeaderboardEntry(competitor, totalPoints, roundsPlayed,
        if roundsPlayed > 0 then totalPoints as real / roundsPlayed as real else 0.0, wins, topThreeFinishes);
      MapSnoc(competitors, EntryOf(table, roundResults), n);
      entries := entries + [entry];
      n := n + 1;
    }
    SliceFull(competitors, 0);
  }

  /** `calculateLeaderboard()`. */
  method CalculateLeaderboard(competitors: seq<Competitor>, submissions: seq<Submission>, votes: seq<Vote>, rounds: seq<Round>)
    returns (leaderboard: seq<LeaderboardEntry>)
    ensures leaderboard == Leaderboard(competitors, submissions, votes, rounds)
  {
    var submissionLookup := IndexLoop([], submissions, SubmissionKey, SubmitterOf);
    var table := PointsLoop(submissionLookup, votes);
    var roundResults := StandingsLoop(table, rounds);
    var entries := EntriesLoop(table, roundResults, competitors);
    leaderboard := StableSort(entries, TotalOf, true);
  }

  /** One entry per competitor, best total first. */
  lemma LeaderboardShape(competitors: seq<Competitor>, submissions: seq<Submission>, votes: seq<Vote>, rounds: seq<Round>)
    ensures var board := Leaderboard(competitors, submissions, votes, rounds);
            && |board| == |competitors|
            && (forall i | 0 <= i < |board| :: board[i].competitor in competitors)
            && (forall c | c in competitors :: exists i | 0 <= i < |board| :: board[i].competitor == c)
            && (forall i, j | 0 <= i < j < |board| :: board[i].totalPoints >= board[j].totalPoints)
  {
    var table := PointsByRound([], SubmissionLookup(submissions), votes);
    var results := RoundStandings(table, rounds);
    var entries := Map(competitors, EntryOf(table, results));
    var board := StableSort(entries, TotalOf, true);
    forall i | 0 <= i < |board| ensures board[i].competitor in competitors {
      SortSameElements(entries, TotalOf, true, board[i]);
      var k :| 0 <= k < |entries| && entries[k] == board[i];
    }
    forall c | c in competitors ensures exists i | 0 <= i < |board| :: board[i].competitor == c {
      var k :| 0 <= k < |competitors| && competitors[k] == c;
      SortSameElements(entries, TotalOf, true, entries[k]);
      var i :| 0 <= i < |board| && board[i] == entries[k];
    }
  }

  /** Every entry's numbers, in terms of the votes: the total is the points
      credited to the competitor, the rounds played are the rounds in which
      they were credited a vote, the average divides the two, and wins never
      exceed top-three finishes, which never exceed the number of rounds. */
  lemma LeaderboardEntries(competitors: seq<Competitor>, submissions: seq<Submission>, votes: seq<Vote>, rounds: seq<Round>, i: nat)
    requires i < |Leaderboard(competitors, submissions, votes, rounds)|
    ensures var e := Leaderboard(competitors, submissions, votes, rounds)[i];
            var lookup := SubmissionLookup(submissions);
            && e.totalPoints == Received(lookup, votes, e.competitor.id)
            && e.roundsPlayed == |RoundsWithPoints(lookup, votes, e.competitor.id)|
            && e.averagePoints == (if e.roundsPlayed > 0 then e.totalPoints as real / e.roundsPlayed as real else 0.0)
            && e.wins <= e.topThreeFinishes <= |rounds|
  {
    var lookup := SubmissionLookup(submissions);
    var table := PointsByRound([], lookup, votes);
    var results := RoundStandings(table, rounds);
    var entries := Map(competitors, EntryOf(table, results));
    var e := Leaderboard(competitors, submissions, votes, rounds)[i];
    SortSameElements(entries, TotalOf, true, e);
    var k :| 0 <= k < |entries| && entries[k] == e;
    InnerMapFacts(lookup, votes, e.competitor.id);
    WinsTopThree(results, e.competitor.id);
    IndexLength([], rounds, RoundId, RankFor(table));
  }

  // ---------------------------------------------------------------------
  // getRoundResults

  datatype Standing = Standing(competitor: Competitor, points: int, submission: Option<Submission>)

  datatype RoundResult = RoundResult(round: Round, standings: seq<Standing>)

  function CompetitorId(c: Competitor): string {
    c.id
  }

  function SameCompetitor(c: Competitor): Competitor {
    c
  }

  /** `competitorMap`: the last competitor under each id. */
  function CompetitorMap(competitors: seq<Competitor>): OrderedMap<string, Competitor> {
    Index([], competitors, CompetitorId, SameCompetitor)
  }

  function InRound(rid: string): Submission -> bool {
    (s: Submission) => s.roundId == rid
  }

  function VoteInRound(rid: string): Vote -> bool {
    (v: Vote) => v.roundId == rid
  }

  function UriOf(s: Submission): string {
    s.spotifyUri
  }

  function SameSubmission(s: Submission): Submission {
    s
  }

  /** `submissionByUri` of one round: the last submission of each track. */
  function ByUri(roundSubmissions: seq<Submission>): OrderedMap<string, Submission> {
    Index([], roundSubmissions, UriOf, SameSubmission)
  }

  /** The submitter a vote of the round is credited to: votes for a track
      nobody submitted in the round are skipped. */
  function CreditedTo(byUri: OrderedMap<string, Submission>): Vote -> Option<string> {
    (v: Vote) => match Get(byUri, v.spotifyUri) case Some(s) => Some(s.submitterId) case None => None
  }

  /** `roundSubmissions.find(s => s.submitterId === submitterId)`. */
  function FirstBy(submissions: seq<Submission>, id: string): (r: Option<Submission>)
    ensures r.Some? ==> r.value in submissions && r.value.submitterId == id
    ensures r.None? <==> forall i | 0 <= i < |submissions| :: submissions[i].submitterId != id
    decreases |submissions|
  {
    if |submissions| == 0 then None
    else if submissions[0].submitterId == id then Some(submissions[0])
    else FirstBy(submissions[1..], id)
  }

  /** The standings before sorting: one per entry of `pointsBySubmitter`
      whose id is a known competitor (`.filter(s => s.competitor)`). */
  function StandingsOf(points: OrderedMap<string, int>, competitorMap: OrderedMap<string, Competitor>, roundSubmissions: seq<Submission>): seq<Standing>
    decreases |points|
  {
    if |points| == 0 then []
    else
      (match Get(competitorMap, points[0].0)
       case Some(c) => [Standing(c, points[0].1, FirstBy(roundSubmissions, points[0].0))]
       case None => [])
      + StandingsOf(points[1..], competitorMap, roundSubmissions)
  }

  function StandingPoints(s: Standing): real {
    s.points as real
  }

  function StandingId(s: Standing): string {
    s.competitor.id
  }

  /** The result of one round. */
  function ResultOf(competitors: seq<Competitor>, submissions: seq<Submission>, votes: seq<Vote>, round: Round): RoundResult {
    var roundSubmissions := Filter(submissions, InRound(round.id));
    var roundVotes := Filter(votes, VoteInRound(round.id));
    var pointsBySubmitter := Tally([], roundVotes, CreditedTo(ByUri(roundSubmissions)), Points);
    var standings := StandingsOf(pointsBySubmitter, CompetitorMap(competitors), roundSubmissions);
    RoundResult(round, StableSort(standings, StandingPoints, true))
  }

  function ResultFor(competitors: seq<Competitor>, submissions: seq<Submission>, votes: seq<Vote>): Round -> RoundResult {
    (r: Round) => ResultOf(competitors, submissions, votes, r)
  }

  /** `getRoundResults()` on the four tables. */
  function RoundResults(competitors: seq<Competitor>, submissions: seq<Submission>, votes: seq<Vote>, rounds: seq<Round>): seq<RoundResult> {
    Map(rounds, ResultFor(competitors, submissions, votes))
  }

  /** The loop of `getRoundResults`. */
  method GetRoundResults(competitors: seq<Competitor>, submissions: seq<Submission>, votes: seq<Vote>, rounds: seq<Round>)
    returns (results: seq<RoundResult>)
    ensures results == RoundResults(competitors, submissions, votes, rounds)
  {
    var competitorMap := IndexLoop([], competitors, CompetitorId, SameCompetitor);
    results := [];
    var k := 0;
    while k < |rounds|
      invariant 0 <= k <= |rounds|
      invariant results == Map(rounds[..k], ResultFor(competitors, submissions, votes))
    {
      var round := rounds[k];
      var roundSubmissions := Filter(submissions, InRound(round.id));
      var roundVotes := Filter(votes, VoteInRound(round.id));
      var submissionByUri := IndexLoop([], roundSubmissions, UriOf, SameSubmission);
      var pointsBySubmitter := TallyLoop([], roundVotes, CreditedTo(submissionByUri), Points);
      var standings := StandingsOf(pointsBySubmitter, competitorMap, roundSubmissions);
      MapSnoc(rounds, ResultFor(competitors, submissions, votes), k);
      results := results + [RoundResult(round, StableSort(standings, StandingPoints, true))];
      k := k + 1;
    }
    SliceFull(rounds, 0);
  }

  /** One result per round, in round order. */
  lemma ResultsPerRound(competitors: seq<Competitor>, submissions: seq<Submission>, votes: seq<Vote>, rounds: seq<Round>)
    ensures var results := RoundResults(competitors, submissions, votes, rounds);
            |results| == |rounds| && forall i | 0 <= i < |rounds| :: results[i].round == rounds[i]
  {
  }

  /** A competitor found in `competitorMap` is a competitor of the table,
      filed under its own id. */
  lemma CompetitorMapGet(competitors: seq<Competitor>, id: string)
    ensures Get(CompetitorMap(competitors), id).Some? ==>
            Get(CompetitorMap(competitors), id).value in competitors && Get(CompetitorMap(competitors), id).value.id == id
  {
    IndexGet([], competitors, CompetitorId, SameCompetitor, id);
    LastWithIsItem(competitors, CompetitorId, id);
  }

  /** Every competitor of the table can be found in `competitorMap`. */
  lemma CompetitorMapHas(competitors: seq<Competitor>, c: Competitor)
    requires c in competitors
    ensures HasKey(CompetitorMap(competitors), c.id)
  {
    IndexGet([], competitors, CompetitorId, SameCompetitor, c.id);
    LastWithIsItem(competitors, CompetitorId, c.id);
    var i :| 0 <= i < |competitors| && competitors[i] == c;
    assert CompetitorId(competitors[i]) == c.id;
  }

  /** Every entry of `pointsBySubmitter` whose id is a known competitor's
      becomes a standing with that entry's points. */
  lemma {:induction false} StandingsComplete(points: OrderedMap<string, int>, competitors: seq<Competitor>, roundSubmissions: seq<Submission>, id: string)
    requires HasKey(points, id) && HasKey(CompetitorMap(competitors), id)
    ensures exists s | s in StandingsOf(points, CompetitorMap(competitors), roundSubmissions) ::
              s.competitor.id == id && s.points == Get(points, id).value
    decreases |points|
  {
    var cm := CompetitorMap(competitors);
    var rest := StandingsOf(points[1..], cm, roundSubmissions);
    if points[0].0 == id {
      CompetitorMapGet(competitors, id);
      var c := Get(cm, id).value;
      var s := Standing(c, points[0].1, FirstBy(roundSubmissions, id));
      assert StandingsOf(points, cm, roundSubmissions) == [s] + rest;
      assert s in StandingsOf(points, cm, roundSubmissions);
    } else {
      StandingsComplete(points[1..], competitors, roundSubmissions, id);
      var s :| s in rest && s.competitor.id == id && s.points == Get(points[1..], id).value;
      assert s in StandingsOf(points, cm, roundSubmissions);
    }
  }

  /** Where a standing comes from: an entry of `pointsBySubmitter` whose id
      is a known competitor's. */
  lemma {:induction false} StandingOrigin(points: OrderedMap<string, int>, competitors: seq<Competitor>, roundSubmissions: seq<Submission>, s: Standing)
    requires s in StandingsOf(points, CompetitorMap(competitors), roundSubmissions)
    ensures s.competitor in competitors
    ensures exists i | 0 <= i < |points| ::
              points[i].0 == s.competitor.id && points[i].1 == s.points && s.submission == FirstBy(roundSubmissions, s.competitor.id)
    decreases |points|
  {
    var cm := CompetitorMap(competitors);
    var rest := StandingsOf(points[1..], cm, roundSubmissions);
    CompetitorMapGet(competitors, points[0].0);
    if s !in rest {
      assert points[0].0 == s.competitor.id;
    } else {
      StandingOrigin(points[1..], competitors, roundSubmissions, s);
      var i :| 0 <= i < |points[1..]| && points[1..][i].0 == s.competitor.id && points[1..][i].1 == s.points &&
               s.submission == FirstBy(roundSubmissions, s.competitor.id);
      assert points[i + 1] == points[1..][i];
    }
  }

  /** Distinct submitters give standings of distinct competitors. */
  lemma {:induction false} StandingsDistinct(points: OrderedMap<string, int>, competitors: seq<Competitor>, roundSubmissions: seq<Submission>)
    requires DistinctKeys(points)
    ensures DistinctBy(StandingsOf(points, CompetitorMap(competitors), roundSubmissions), StandingId)
    decreases |points|
  {
    if |points| > 0 {
      var cm := CompetitorMap(competitors);
      var rest := StandingsOf(points[1..], cm, roundSubmissions);
      DistinctKeysTail(points);
      StandingsDistinct(points[1..], competitors, roundSubmissions);
      CompetitorMapGet(competitors, points[0].0);
      match Get(cm, points[0].0)
      case None =>
        AppendEmpty(rest);
      case Some(c) =>
        forall j | 0 <= j < |rest| ensures StandingId(rest[j]) != StandingId(Standing(c, points[0].1, FirstBy(roundSubmissions, points[0].0))) {
          StandingOrigin(points[1..], competitors, roundSubmissions, rest[j]);
          var i :| 0 <= i < |points[1..]| && points[1..][i].0 == rest[j].competitor.id;
          assert Keys(points)[0] != Keys(points)[i + 1];
        }
        DistinctCons(Standing(c, points[0].1, FirstBy(roundSubmissions, points[0].0)), rest, StandingId);
    }
  }

  /** The standings of a round: sorted by points, best first; distinct
      known competitors; each with the points of the round's votes for the
      tracks it submitted (a vote for a track nobody submitted in the round
      counts for nobody, and a track submitted twice counts for its last
      submitter), and with its first submission of the round. */
  lemma RoundResultFacts(competitors: seq<Competitor>, submissions: seq<Submission>, votes: seq<Vote>, round: Round)
    ensures var r := ResultOf(competitors, submissions, votes, round);
            var roundSubmissions := Filter(submissions, InRound(round.id));
            var roundVotes := Filter(votes, VoteInRound(round.id));
            && r.round == round
            && (forall i, j | 0 <= i < j < |r.standings| :: r.standings[i].points >= r.standings[j].points)
            && DistinctBy(r.standings, StandingId)
            && (forall s | s in r.standings ::
                 && s.competitor in competitors
                 && s.points == SumFor(roundVotes, CreditedTo(ByUri(roundSubmissions)), Points, s.competitor.id)
                 && s.submission == FirstBy(roundSubmissions, s.competitor.id))
            && forall c | c in competitors && Keyed(roundVotes, CreditedTo(ByUri(roundSubmissions)), c.id) ::
                 exists s | s in r.standings :: s.competitor.id == c.id
  {
    var roundSubmissions := Filter(submissions, InRound(round.id));
    var roundVotes := Filter(votes, VoteInRound(round.id));
    var credited := CreditedTo(ByUri(roundSubmissions));
    var points := Tally([], roundVotes, credited, Points);
    var standings := StandingsOf(points, CompetitorMap(competitors), roundSubmissions);
    var sorted := StableSort(standings, StandingPoints, true);
    TallyDistinct([], roundVotes, credited, Points);
    StandingsDistinct(points, competitors, roundSubmissions);
    SortDistinct(standings, StandingPoints, true, StandingId);
    forall s | s in sorted
      ensures s.competitor in competitors
      ensures s.points == SumFor(roundVotes, credited, Points, s.competitor.id)
      ensures s.submission == FirstBy(roundSubmissions, s.competitor.id)
    {
      SortSameElements(standings, StandingPoints, true, s);
      StandingOrigin(points, competitors, roundSubmissions, s);
      var i :| 0 <= i < |points| && points[i].0 == s.competitor.id && points[i].1 == s.points;
      GetAt(points, i);
      TallyGet([], roundVotes, credited, Points, s.competitor.id);
    }
    forall c | c in competitors && Keyed(roundVotes, credited, c.id)
      ensures exists s | s in sorted :: s.competitor.id == c.id
    {
      TallyHasKey([], roundVotes, credited, Points, c.id);
      CompetitorMapHas(competitors, c);
      StandingsComplete(points, competitors, roundSubmissions, c.id);
      var s :| s in standings && s.competitor.id == c.id && s.points == Get(points, c.id).value;
      SortSameElements(standings, StandingPoints, true, s);
    }
  }

  // ---------------------------------------------------------------------
  // getStats

  datatype Stats = Stats(totalCompetitors: nat, totalRounds: nat, totalSubmissions: nat, totalVotes: nat, totalPoints: int)

  /** `votes.reduce((sum, v) => sum + v.points, 0)`. */
  function SumPoints(votes: seq<Vote>): int
    decreases |votes|
  {
    if |votes| == 0 then 0 else votes[0].points + SumPoints(votes[1..])
  }

  /** `getStats()`. */
  function GetStats(competitors: seq<Competitor>, rounds: seq<Round>, submissions: seq<Submission>, votes: seq<Vote>): Stats {
    Stats(|competitors|, |rounds|, |submissions|, |votes|, SumPoints(votes))
  }

  /** The points of the votes that are credited to some submitter. */
  function CreditedPoints(lookup: OrderedMap<TrackKey, string>, votes: seq<Vote>): int
    decreases |votes|
  {
    if |votes| == 0 then 0
    else (if Resolve(lookup, votes[0]).Some? then votes[0].points else 0) + CreditedPoints(lookup, votes[1..])
  }

  /** The points of the votes that are credited to nobody. */
  function UncreditedPoints(lookup: OrderedMap<TrackKey, string>, votes: seq<Vote>): int
    decreases |votes|
  {
    if |votes| == 0 then 0
    else (if Resolve(lookup, votes[0]).None? then votes[0].points else 0) + UncreditedPoints(lookup, votes[1..])
  }

  /** All the points in the leaderboard's points table. */
  function TableTotal(table: PointsTable): int
    decreases |table|
  {
    if |table| == 0 then 0 else Sum(table[0].1) + TableTotal(table[1..])
  }

  /** Replacing one submitter's inner map trades its sum for the new one. */
  lemma {:induction false} SetTableTotal(table: PointsTable, id: string, inner: RoundPoints)
    ensures TableTotal(Set(table, id, inner)) == TableTotal(table) - Sum(GetOr(table, id, [])) + Sum(inner)
    decreases |table|
  {
    if |table| == 0 {
      ConsParts((id, inner), table);
    } else if table[0].0 == id {
      ConsParts((id, inner), table[1..]);
    } else {
      SetTableTotal(table[1..], id, inner);
      ConsParts(table[0], Set(table[1..], id, inner));
    }
  }

  lemma {:induction false} PointsByRoundTotal(table: PointsTable, lookup: OrderedMap<TrackKey, string>, votes: seq<Vote>)
    ensures TableTotal(PointsByRound(table, lookup, votes)) == TableTotal(table) + CreditedPoints(lookup, votes)
    decreases |votes|
  {
    if |votes| > 0 {
      var v := votes[0];
      PointsByRoundTotal(Credit(table, lookup, v), lookup, votes[1..]);
      if Resolve(lookup, v).Some? {
        var id := Resolve(lookup, v).value;
        var inner := GetOr(table, id, []);
        SetTableTotal(table, id, Add(inner, v.roundId, v.points));
        AddSum(inner, v.roundId, v.points);
      }
    }
  }

  lemma {:induction false} PointsSplit(lookup: OrderedMap<TrackKey, string>, votes: seq<Vote>)
    ensures SumPoints(votes) == CreditedPoints(lookup, votes) + UncreditedPoints(lookup, votes)
    decreases |votes|
  {
    if |votes| > 0 {
      PointsSplit(lookup, votes[1..]);
    }
  }

  /** No point is lost or counted twice: the total of `getStats` is what the
      leaderboard's points table holds plus the points of the votes credited
      to nobody. */
  lemma PointsConserved(competitors: seq<Competitor>, rounds: seq<Round>, submissions: seq<Submission>, votes: seq<Vote>)
    ensures var lookup := SubmissionLookup(submissions);
            GetStats(competitors, rounds, submissions, votes).totalPoints ==
            TableTotal(PointsByRound([], lookup, votes)) + UncreditedPoints(lookup, votes)
  {
    var lookup := SubmissionLookup(submissions);
    PointsByRoundTotal([], lookup, votes);
    PointsSplit(lookup, votes);
  }
}
