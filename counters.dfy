/**
 * The award rules of `calculateAwards.ts` that count something per
 * competitor: every competitor starts at zero and each vote, submission or
 * round result adds its weight to the competitor it is filed under.
 */
module Counters {
  import opened Options
  import opened Sequences
  import opened OrderedMaps
  import opened Records
  import opened Standings

  /** `competitors.map(c => c.id)`. */
  function Ids(competitors: seq<Competitor>): seq<string> {
    Map(competitors, CompetitorId)
  }

  /** A new map after `competitors.forEach(c => m.set(c.id, 0))`. */
  function Zeroed(competitors: seq<Competitor>): OrderedMap<string, int> {
    SetAll([], Ids(competitors), 0)
  }

  /** A per-competitor counter: zero for everyone, then the items tallied. */
  function Counter<T>(competitors: seq<Competitor>, items: seq<T>, key: T -> Option<string>, weight: T -> int): OrderedMap<string, int> {
    Tally(Zeroed(competitors), items, key, weight)
  }

  function One<T>(x: T): int {
    1
  }

  /** The items that are filed under some key. */
  function Filed<T>(key: T -> Option<string>): T -> bool {
    (x: T) => key(x).Some?
  }

  /** The items that are filed under `k`. */
  function FiledAs<T>(key: T -> Option<string>, k: string): T -> bool {
    (x: T) => key(x) == Some(k)
  }

  lemma ZeroedFacts(competitors: seq<Competitor>, k: string)
    ensures GetOr(Zeroed(competitors), k, 0) == 0
    ensures HasKey(Zeroed(competitors), k) <==> k in Ids(competitors)
    ensures DistinctKeys(Zeroed(competitors)) && Sum(Zeroed(competitors)) == 0
    ensures forall i | 0 <= i < |Zeroed(competitors)| :: Zeroed(competitors)[i].1 == 0
  {
    SetAllGet([], Ids(competitors), 0, k);
    SetAllDistinct([], Ids(competitors), 0);
    SetAllSum([], Ids(competitors));
  }

  /** Every id of a counter holds the total weight of its items, and the ids
      are the competitors' and those some item is filed under. */
  lemma CounterGet<T>(competitors: seq<Competitor>, items: seq<T>, key: T -> Option<string>, weight: T -> int, k: string)
    ensures GetOr(Counter(competitors, items, key, weight), k, 0) == SumFor(items, key, weight, k)
    ensures HasKey(Counter(competitors, items, key, weight), k) <==> k in Ids(competitors) || Keyed(items, key, k)
  {
    ZeroedFacts(competitors, k);
    TallyGet(Zeroed(competitors), items, key, weight, k);
    TallyHasKey(Zeroed(competitors), items, key, weight, k);
  }

  /** A counter holds each id once and its values add up to the weight of
      all the filed items. */
  lemma CounterSum<T>(competitors: seq<Competitor>, items: seq<T>, key: T -> Option<string>, weight: T -> int)
    ensures DistinctKeys(Counter(competitors, items, key, weight))
    ensures Sum(Counter(competitors, items, key, weight)) == SumKeyed(items, key, weight)
  {
    ZeroedFacts(competitors, "");
    TallyDistinct(Zeroed(competitors), items, key, weight);
    TallySum(Zeroed(competitors), items, key, weight);
  }

  lemma CounterNonNegative<T>(competitors: seq<Competitor>, items: seq<T>, key: T -> Option<string>, weight: T -> int)
    requires forall i | 0 <= i < |items| :: weight(items[i]) >= 0
    ensures var m := Counter(competitors, items, key, weight);
            forall i | 0 <= i < |m| :: m[i].1 >= 0
  {
    ZeroedFacts(competitors, "");
    TallyNonNegative(Zeroed(competitors), items, key, weight);
  }

  lemma {:induction false} SumForOne<T>(items: seq<T>, key: T -> Option<string>, k: string)
    ensures SumFor(items, key, One<T>, k) == |Filter(items, FiledAs(key, k))|
    decreases |items|
  {
    if items != [] {
      SumForOne(items[1..], key, k);
    }
  }

  lemma {:induction false} SumKeyedOne<T>(items: seq<T>, key: T -> Option<string>)
    ensures SumKeyed(items, key, One<T>) == |Filter(items, Filed(key))|
    decreases |items|
  {
    if items != [] {
      SumKeyedOne(items[1..], key);
    }
  }

  /** A counter of ones counts, per id, the items filed under that id; and
      all together the items filed under any id. */
  lemma CounterCounts<T>(competitors: seq<Competitor>, items: seq<T>, key: T -> Option<string>, k: string)
    ensures GetOr(Counter(competitors, items, key, One<T>), k, 0) == |Filter(items, FiledAs(key, k))|
    ensures Sum(Counter(competitors, items, key, One<T>)) == |Filter(items, Filed(key))|
  {
    CounterGet(competitors, items, key, One<T>, k);
    SumForOne(items, key, k);
    CounterSum(competitors, items, key, One<T>);
    SumKeyedOne(items, key);
  }

  lemma {:induction false} TallyAppend<T>(m: OrderedMap<string, int>, a: seq<T>, b: seq<T>, key: T -> Option<string>, weight: T -> int)
    ensures Tally(m, a + b, key, weight) == Tally(Tally(m, a, key, weight), b, key, weight)
    decreases |a|
  {
    if a == [] {
      AppendEmpty(b);
    } else {
      assert (a + b)[0] == a[0] && (a + b)[1..] == a[1..] + b;
      TallyAppend(Bump(m, a[0], key, weight), a[1..], b, key, weight);
    }
  }

  /** An item that is filed under no key leaves a counter unchanged, wherever
      it stands among the items. */
  lemma CounterSkip<T>(competitors: seq<Competitor>, a: seq<T>, x: T, b: seq<T>, key: T -> Option<string>, weight: T -> int)
    requires key(x).None?
    ensures Counter(competitors, a + [x] + b, key, weight) == Counter(competitors, a + b, key, weight)
  {
    var z := Zeroed(competitors);
    TallyAppend(z, a + [x], b, key, weight);
    TallyAppend(z, a, [x], key, weight);
    TallyAppend(z, a, b, key, weight);
  }

  // ---------------------------------------------------------------------
  // 1. Overall winner

  /** `submissionLookup.get(key)` followed by `if (submitterId)`. */
  function ReceiverOf(lookup: OrderedMap<TrackKey, string>): Vote -> Option<string> {
    (v: Vote) => Resolve(lookup, v)
  }

  /** `totalPointsPerCompetitor`. */
  function TotalPoints(competitors: seq<Competitor>, submissions: seq<Submission>, votes: seq<Vote>): OrderedMap<string, int> {
    Counter(competitors, votes, ReceiverOf(SubmissionLookup(submissions)), Points)
  }

  lemma {:induction false} SumForReceived(lookup: OrderedMap<TrackKey, string>, votes: seq<Vote>, k: string)
    ensures SumFor(votes, ReceiverOf(lookup), Points, k) == Received(lookup, votes, k)
    decreases |votes|
  {
    if votes != [] {
      SumForReceived(lookup, votes[1..], k);
    }
  }

  lemma {:induction false} SumKeyedCredited(lookup: OrderedMap<TrackKey, string>, votes: seq<Vote>)
    ensures SumKeyed(votes, ReceiverOf(lookup), Points) == CreditedPoints(lookup, votes)
    decreases |votes|
  {
    if votes != [] {
      SumKeyedCredited(lookup, votes[1..]);
    }
  }

  /** Each competitor's overall score is the points of the votes credited to
      them, the same total the leaderboard shows; and the scores add up to
      every credited point. */
  lemma OverallTotals(competitors: seq<Competitor>, submissions: seq<Submission>, votes: seq<Vote>, k: string)
    ensures var lookup := SubmissionLookup(submissions);
            && GetOr(TotalPoints(competitors, submissions, votes), k, 0) == Received(lookup, votes, k)
            && Sum(TotalPoints(competitors, submissions, votes)) == CreditedPoints(lookup, votes)
  {
    var lookup := SubmissionLookup(submissions);
    CounterGet(competitors, votes, ReceiverOf(lookup), Points, k);
    SumForReceived(lookup, votes, k);
    CounterSum(competitors, votes, ReceiverOf(lookup), Points);
    SumKeyedCredited(lookup, votes);
  }

  /** A vote that no submission claims changes no overall score. */
  lemma OverallIgnoresUncredited(competitors: seq<Competitor>, submissions: seq<Submission>, a: seq<Vote>, v: Vote, b: seq<Vote>)
    requires Resolve(SubmissionLookup(submissions), v).None?
    ensures TotalPoints(competitors, submissions, a + [v] + b) == TotalPoints(competitors, submissions, a + b)
  {
    CounterSkip(competitors, a, v, b, ReceiverOf(SubmissionLookup(submissions)), Points);
  }

  // ---------------------------------------------------------------------
  // 2. Most wins and 5. Close shaver

  /** `result.standings[n]`, when there is one, by competitor id. */
  function PlacedAt(n: nat): RoundResult -> Option<string> {
    (r: RoundResult) => if n < |r.standings| then Some(r.standings[n].competitor.id) else None
  }

  /** `winsPerCompetitor` (`n == 0`) and `secondPlaces` (`n == 1`). */
  function Placings(competitors: seq<Competitor>, results: seq<RoundResult>, n: nat): OrderedMap<string, int> {
    Counter(competitors, results, PlacedAt(n), One<RoundResult>)
  }

  /** A competitor's count is the number of rounds in which they stand at
      place `n + 1`, and the counts add up to the rounds that have such a place. */
  lemma PlacingsCount(competitors: seq<Competitor>, results: seq<RoundResult>, n: nat, k: string)
    ensures GetOr(Placings(competitors, results, n), k, 0) == |Filter(results, FiledAs(PlacedAt(n), k))|
    ensures Sum(Placings(competitors, results, n)) == |Filter(results, Filed(PlacedAt(n)))|
    ensures forall r | r in Filter(results, Filed(PlacedAt(n))) :: r in results && n < |r.standings|
  {
    CounterCounts(competitors, results, PlacedAt(n), k);
    forall r | r in Filter(results, Filed(PlacedAt(n))) ensures r in results && n < |r.standings| {
      FilterElements(results, Filed(PlacedAt(n)), r);
    }
  }

  // ---------------------------------------------------------------------
  // 3. The octopus and 4. the generous octopus

  predicate IsEight(v: Vote) {
    v.points == 8
  }

  /** `eightsReceived`. */
  function EightsReceived(competitors: seq<Competitor>, submissions: seq<Submission>, votes: seq<Vote>): OrderedMap<string, int> {
    Counter(competitors, Filter(votes, IsEight), ReceiverOf(SubmissionLookup(submissions)), One<Vote>)
  }

  function VoterOf(v: Vote): Option<string> {
    Some(v.voterId)
  }

  /** `eightsGiven`. */
  function EightsGiven(competitors: seq<Competitor>, votes: seq<Vote>): OrderedMap<string, int> {
    Counter(competitors, Filter(votes, IsEight), VoterOf, One<Vote>)
  }

  /** Every eight is given by someone: the counts of eights given add up to
      the number of eight-point votes. */
  lemma EightsGivenTotal(competitors: seq<Competitor>, votes: seq<Vote>)
    ensures Sum(EightsGiven(competitors, votes)) == |Filter(votes, IsEight)|
  {
    var eights := Filter(votes, IsEight);
    CounterSum(competitors, eights, VoterOf, One<Vote>);
    EveryVoteCounted(eights);
  }

  lemma {:induction false} EveryVoteCounted(votes: seq<Vote>)
    ensures SumKeyed(votes, VoterOf, One<Vote>) == |votes|
    decreases |votes|
  {
    if votes != [] {
      EveryVoteCounted(votes[1..]);
    }
  }

  lemma FilterSkip<T>(a: seq<T>, x: T, b: seq<T>, p: T -> bool)
    requires !p(x)
    ensures Filter(a + [x] + b, p) == Filter(a + b, p)
  {
    FilterAppend(a + [x], b, p);
    FilterAppend(a, [x], p);
    FilterAppend(a, b, p);
    assert Filter([x], p) == [] by {
      assert [x][1..] == [];
    }
    AppendEmpty(Filter(a, p));
  }

  /** Only eight-point votes count for the two octopus awards. */
  lemma EightsOnly(competitors: seq<Competitor>, submissions: seq<Submission>, a: seq<Vote>, v: Vote, b: seq<Vote>)
    requires !IsEight(v)
    ensures EightsReceived(competitors, submissions, a + [v] + b) == EightsReceived(competitors, submissions, a + b)
    ensures EightsGiven(competitors, a + [v] + b) == EightsGiven(competitors, a + b)
  {
    FilterSkip(a, v, b, IsEight);
  }

  // ---------------------------------------------------------------------
  // 6. Public enemy

  predicate IsDownvote(v: Vote) {
    v.points < 0
  }

  /** `Math.abs(vote.points)`. */
  function Magnitude(v: Vote): int {
    if v.points < 0 then -v.points else v.points
  }

  /** `downvotesReceived`. */
  function Downvotes(competitors: seq<Competitor>, submissions: seq<Submission>, votes: seq<Vote>): OrderedMap<string, int> {
    Counter(competitors, Filter(votes, IsDownvote), ReceiverOf(SubmissionLookup(submissions)), Magnitude)
  }

  /** Downvote totals are sizes, never negative, and only negative votes
      count towards them. */
  lemma DownvotesFacts(competitors: seq<Competitor>, submissions: seq<Submission>, a: seq<Vote>, v: Vote, b: seq<Vote>)
    ensures var m := Downvotes(competitors, submissions, a + b);
            forall i | 0 <= i < |m| :: m[i].1 >= 0
    ensures !IsDownvote(v) ==> Downvotes(competitors, submissions, a + [v] + b) == Downvotes(competitors, submissions, a + b)
  {
    var downs := Filter(a + b, IsDownvote);
    CounterNonNegative(competitors, downs, ReceiverOf(SubmissionLookup(submissions)), Magnitude);
    if !IsDownvote(v) {
      FilterSkip(a, v, b, IsDownvote);
    }
  }

  // ---------------------------------------------------------------------
  // 10. The contrarian

  /** `voteCounts` and `votePointTotals`: every vote, by voter. */
  function VoteCounts(votes: seq<Vote>): OrderedMap<string, int> {
    Tally([], votes, VoterOf, One<Vote>)
  }

  function VoteTotals(votes: seq<Vote>): OrderedMap<string, int> {
    Tally([], votes, VoterOf, Points)
  }

  /** The competitors loop that fills `avgPointsGiven`: an average for each
      competitor with at least five votes. */
  function Averages(m: OrderedMap<string, real>, competitors: seq<Competitor>, counts: OrderedMap<string, int>, totals: OrderedMap<string, int>): OrderedMap<string, real>
    decreases |competitors|
  {
    if |competitors| == 0 then m
    else
      var id := competitors[0].id;
      var count := GetOr(counts, id, 0);
      var next := if count >= 5 then Set(m, id, GetOr(totals, id, 0) as real / count as real) else m;
      Averages(next, competitors[1..], counts, totals)
  }

  /** `avgPointsGiven`. */
  function AveragePointsGiven(competitors: seq<Competitor>, votes: seq<Vote>): OrderedMap<string, real> {
    Averages([], competitors, VoteCounts(votes), VoteTotals(votes))
  }

  lemma {:induction false} AveragesGet(m: OrderedMap<string, real>, competitors: seq<Competitor>, counts: OrderedMap<string, int>, totals: OrderedMap<string, int>, k: string)
    ensures Get(Averages(m, competitors, counts, totals), k) ==
            if k in Ids(competitors) && GetOr(counts, k, 0) >= 5
            then Some(GetOr(totals, k, 0) as real / GetOr(counts, k, 0) as real)
            else Get(m, k)
    decreases |competitors|
  {
    if competitors != [] {
      var id := competitors[0].id;
      var count := GetOr(counts, id, 0);
      var next := if count >= 5 then Set(m, id, GetOr(totals, id, 0) as real / count as real) else m;
      AveragesGet(next, competitors[1..], counts, totals, k);
      if count >= 5 {
        if id == k {
          SetGet(m, id, GetOr(totals, id, 0) as real / count as real);
        } else {
          SetGetOther(m, id, GetOr(totals, id, 0) as real / count as real, k);
        }
      }
      IdsCons(competitors);
    }
  }

  lemma IdsCons(competitors: seq<Competitor>)
    requires competitors != []
    ensures Ids(competitors) == [competitors[0].id] + Ids(competitors[1..])
  {
  }

  /** Exactly the competitors who cast at least five votes get an average,
      and it is the mean of the points they gave. */
  lemma ContrarianAverages(competitors: seq<Competitor>, votes: seq<Vote>, k: string)
    ensures var count := SumFor(votes, VoterOf, One<Vote>, k);
            var avg := Get(AveragePointsGiven(competitors, votes), k);
            && (avg.Some? <==> k in Ids(competitors) && count >= 5)
            && (avg.Some? ==> avg.value == SumFor(votes, VoterOf, Points, k) as real / count as real)
  {
    AveragesGet([], competitors, VoteCounts(votes), VoteTotals(votes), k);
    TallyGet([], votes, VoterOf, One<Vote>, k);
    TallyGet([], votes, VoterOf, Points, k);
  }

  /** The two tallies of the contrarian rule, made in one pass over the votes. */
  method VoteCountsLoop(votes: seq<Vote>) returns (counts: OrderedMap<string, int>, totals: OrderedMap<string, int>)
    ensures counts == VoteCounts(votes) && totals == VoteTotals(votes)
  {
    counts := [];
    totals := [];
    var i := 0;
    while i < |votes|
      invariant 0 <= i <= |votes|
      invariant Tally(counts, votes[i..], VoterOf, One<Vote>) == VoteCounts(votes)
      invariant Tally(totals, votes[i..], VoterOf, Points) == VoteTotals(votes)
    {
      DropHead(votes, i);
      var voter := votes[i].voterId;
      counts := Add(counts, voter, 1);
      totals := Add(totals, voter, votes[i].points);
      i := i + 1;
    }
  }

  /** `avgPointsGiven`, computed as the source does. */
  method AveragePointsLoop(competitors: seq<Competitor>, votes: seq<Vote>) returns (avg: OrderedMap<string, real>)
    ensures avg == AveragePointsGiven(competitors, votes)
  {
    var counts, totals := VoteCountsLoop(votes);
    avg := [];
    var i := 0;
    while i < |competitors|
      invariant 0 <= i <= |competitors|
      invariant Averages(avg, competitors[i..], counts, totals) == AveragePointsGiven(competitors, votes)
    {
      DropHead(competitors, i);
      var id := competitors[i].id;
      var count := GetOr(counts, id, 0);
      var total := GetOr(totals, id, 0);
      if count >= 5 {
        avg := Set(avg, id, total as real / count as real);
      }
      i := i + 1;
    }
  }

  // ---------------------------------------------------------------------
  // 12. The narrator

  /** `if (vote.comment)`: empty comments are skipped. */
  function Commenter(v: Vote): Option<string> {
    if |v.comment| > 0 then Some(v.voterId) else None
  }

  function CommentLength(v: Vote): int {
    |v.comment|
  }

  /** `commentLengths`. */
  function CommentLengths(competitors: seq<Competitor>, votes: seq<Vote>): OrderedMap<string, int> {
    Counter(competitors, votes, Commenter, CommentLength)
  }

  lemma {:induction false} CommentsKeyed(votes: seq<Vote>)
    ensures SumKeyed(votes, Commenter, CommentLength) == SumKeyed(votes, VoterOf, CommentLength)
    decreases |votes|
  {
    if votes != [] {
      CommentsKeyed(votes[1..]);
    }
  }

  /** Every character of every comment is counted once, and no count is
      negative. */
  lemma NarratorTotal(competitors: seq<Competitor>, votes: seq<Vote>)
    ensures Sum(CommentLengths(competitors, votes)) == SumKeyed(votes, VoterOf, CommentLength)
    ensures var m := CommentLengths(competitors, votes);
            forall i | 0 <= i < |m| :: m[i].1 >= 0
  {
    CounterSum(competitors, votes, Commenter, CommentLength);
    CommentsKeyed(votes);
    CounterNonNegative(competitors, votes, Commenter, CommentLength);
  }

  // ---------------------------------------------------------------------
  // 15. The night owl

  /** A dated submission made between 22:00 and 03:59, by its submitter;
      `hourOf` is `new Date(created).getHours()` in the viewer's time zone. */
  function LateNight(hourOf: string -> int): Submission -> Option<string> {
    (s: Submission) => if |s.created| > 0 && (hourOf(s.created) >= 22 || hourOf(s.created) < 4) then Some(s.submitterId) else None
  }

  /** `nightSubmissions`. */
  function NightSubmissions(competitors: seq<Competitor>, submissions: seq<Submission>, hourOf: string -> int): OrderedMap<string, int> {
    Counter(competitors, submissions, LateNight(hourOf), One<Submission>)
  }

  /** A competitor's count is their number of late-night submissions, and
      only dated submissions made from 22:00 to 03:59 count. */
  lemma NightOwlCount(competitors: seq<Competitor>, submissions: seq<Submission>, hourOf: string -> int, k: string)
    ensures GetOr(NightSubmissions(competitors, submissions, hourOf), k, 0) == |Filter(submissions, FiledAs(LateNight(hourOf), k))|
    ensures forall s | s in Filter(submissions, FiledAs(LateNight(hourOf), k)) ::
              s in submissions && s.submitterId == k && s.created != "" &&
              (hourOf(s.created) >= 22 || hourOf(s.created) < 4)
  {
    CounterCounts(competitors, submissions, LateNight(hourOf), k);
    forall s | s in Filter(submissions, FiledAs(LateNight(hourOf), k))
      ensures s in submissions && s.submitterId == k && s.created != "" &&
              (hourOf(s.created) >= 22 || hourOf(s.created) < 4)
    {
      FilterElements(submissions, FiledAs(LateNight(hourOf), k), s);
    }
  }
}
