/**
 * `calculateAwards()`: the seventeen awards, in the order the source pushes
 * them. Each rule's numbers come from the modules that model it; this module
 * puts them into award records and states what the records say about them.
 */
module Awards {
  import opened Options
  import opened Sequences
  import opened OrderedMaps
  import opened Sorting
  import opened Records
  import opened Standings
  import opened Rankings
  import opened Counters
  import opened Pairs
  import opened Positions
  import opened Timing

  /** What one award is built from: its id, the numbers its table ranks
      (`data`, as `createRankings` receives it) and its `sortOrder`; the pair
      awards carry the chosen pair and one-sided love the widest gap. */
  datatype Rule =
    | Ranked(id: string, data: OrderedMap<string, real>, desc: bool)
    | Paired(id: string, pair: Option<(Pair, int)>, data: OrderedMap<string, real>, desc: bool)
    | Gap(id: string, best: Lopsided, data: OrderedMap<string, real>, desc: bool)

  /** One `awards.push({...})`; `format` maps an award id to that award's
      `formatFn`. */
  function Build(rule: Rule, competitors: seq<Competitor>, format: string -> real -> string): Award {
    var competitorMap := CompetitorMap(competitors);
    var rankings := CreateRankings(rule.data, competitors, format(rule.id), rule.desc);
    match rule
    case Ranked(id, _, desc) => Award(id, Winner(rankings), None, TopValue(rankings), rankings, desc)
    case Paired(id, pair, _, desc) =>
      if pair.None? then Award(id, None, None, 0.0, rankings, desc)
      else Award(id, PairWinner(competitorMap, pair.value.0.0), PairWinner(competitorMap, pair.value.0.1), pair.value.1 as real, rankings, desc)
    case Gap(id, best, _, desc) =>
      if best.pair.None? then Award(id, None, None, best.gap as real, rankings, desc)
      else Award(id, PairWinner(competitorMap, best.pair.value.0), PairWinner(competitorMap, best.pair.value.1), best.gap as real, rankings, desc)
  }

  function BuildWith(competitors: seq<Competitor>, format: string -> real -> string): Rule -> Award {
    (rule: Rule) => Build(rule, competitors, format)
  }

  /** Rules 1 to 6: points, placings, eights and downvotes. */
  function PointRules(competitors: seq<Competitor>, submissions: seq<Submission>, votes: seq<Vote>, results: seq<RoundResult>): seq<Rule> {
    [ Ranked("overall-winner", AsReal(TotalPoints(competitors, submissions, votes)), true),
      Ranked("most-wins", AsReal(Placings(competitors, results, 0)), true),
      Ranked("octopus", AsReal(EightsReceived(competitors, submissions, votes)), true),
      Ranked("generous-octopus", AsReal(EightsGiven(competitors, votes)), true),
      Ranked("close-shaver", AsReal(Placings(competitors, results, 1)), true),
      Ranked("public-enemy", AsReal(Downvotes(competitors, submissions, votes)), true) ]
  }

  /** Rules 7 to 9: who gives points to whom. */
  function PairRules(competitors: seq<Competitor>, submissions: seq<Submission>, votes: seq<Vote>): seq<Rule> {
    var pairs := PairPoints(submissions, votes);
    [ Paired("best-buddies", ExtremePair(pairs, true), AsReal(GivenToOthers(competitors, submissions, votes)), true),
      Gap("one-sided-love", OneSidedLove(submissions, votes), AsReal(MaxAsymmetryByPerson(competitors, submissions, votes)), true),
      Paired("sworn-enemies", ExtremePair(pairs, false), AsReal(ReceivedFromOthers(competitors, submissions, votes)), false) ]
  }

  /** Rules 10 to 14: averages, spreads, comments and the two halves of the season. */
  function HabitRules(competitors: seq<Competitor>, votes: seq<Vote>, rounds: seq<Round>, results: seq<RoundResult>, timeOf: string -> int): seq<Rule> {
    [ Ranked("contrarian", AveragePointsGiven(competitors, votes), false),
      Ranked("most-consistent", VarianceByCompetitor(results), false),
      Ranked("narrator", AsReal(CommentLengths(competitors, votes)), true),
      Ranked("fall-from-grace", FallByCompetitor(competitors, rounds, results, timeOf), true),
      Ranked("redemption-arc", RiseByCompetitor(competitors, rounds, results, timeOf), true) ]
  }

  /** Rules 15 to 17: when people submit and vote. */
  function TimingRules(competitors: seq<Competitor>, submissions: seq<Submission>, votes: seq<Vote>, timeOf: string -> int, hourOf: string -> int): seq<Rule> {
    [ Ranked("night-owl", AsReal(NightSubmissions(competitors, submissions, hourOf)), true),
      Ranked("dunce", AsReal(Lateness(competitors, submissions, votes, timeOf, true)), true),
      Ranked("eager-beaver", AsReal(Lateness(competitors, submissions, votes, timeOf, false)), true) ]
  }

  /** The seventeen rules of `calculateAwards()`, in the order of their
      awards. `timeOf` is `new Date(created).getTime()`, `hourOf` is
      `getHours()` of the same date, and the round results are
      `getRoundResults()` of the same tables. */
  function Rules(competitors: seq<Competitor>, submissions: seq<Submission>, votes: seq<Vote>, rounds: seq<Round>,
                 timeOf: string -> int, hourOf: string -> int): seq<Rule>
  {
    var results := RoundResults(competitors, submissions, votes, rounds);
    PointRules(competitors, submissions, votes, results) + PairRules(competitors, submissions, votes) +
    HabitRules(competitors, votes, rounds, results, timeOf) + TimingRules(competitors, submissions, votes, timeOf, hourOf)
  }

  /** `calculateAwards()`. */
  function AllAwards(competitors: seq<Competitor>, submissions: seq<Submission>, votes: seq<Vote>, rounds: seq<Round>,
                     timeOf: string -> int, hourOf: string -> int, format: string -> real -> string): seq<Award>
  {
    Map(Rules(competitors, submissions, votes, rounds, timeOf, hourOf), BuildWith(competitors, format))
  }

  function AwardId(a: Award): string {
    a.id
  }

  function AwardOrder(a: Award): bool {
    a.desc
  }

  /** Each award keeps its rule's id and sort order and ranks its rule's
      data; an award ranked in full names the head of its table as winner and
      shows the head's value, or nobody and 0 with an empty table. */
  lemma BuildFacts(rule: Rule, competitors: seq<Competitor>, format: string -> real -> string)
    ensures var a := Build(rule, competitors, format);
            && a.id == rule.id && a.desc == rule.desc
            && a.rankings == CreateRankings(rule.data, competitors, format(rule.id), rule.desc)
            && (rule.Ranked? ==>
                  && a.winnerSecondary.None?
                  && (a.winner.None? <==> a.rankings == [])
                  && (a.winner.Some? ==> a.winner.value == a.rankings[0].competitor && a.value == a.rankings[0].value)
                  && (a.winner.None? ==> a.value == 0.0))
  {
    BuildKeeps(rule, competitors, format);
    if rule.Ranked? {
      BuildRanked(rule, competitors, format);
    }
  }

  lemma BuildKeeps(rule: Rule, competitors: seq<Competitor>, format: string -> real -> string)
    ensures var a := Build(rule, competitors, format);
            a.id == rule.id && a.desc == rule.desc &&
            a.rankings == CreateRankings(rule.data, competitors, format(rule.id), rule.desc)
  {
    match rule
    case Ranked(id, _, desc) =>
    case Paired(id, pair, _, desc) =>
    case Gap(id, best, _, desc) =>
  }

  lemma BuildRanked(rule: Rule, competitors: seq<Competitor>, format: string -> real -> string)
    requires rule.Ranked?
    ensures var a := Build(rule, competitors, format);
            var rankings := CreateRankings(rule.data, competitors, format(rule.id), rule.desc);
            && a.winnerSecondary.None?
            && (a.winner.None? <==> rankings == [])
            && (a.winner.Some? ==> a.winner.value == rankings[0].competitor && a.value == rankings[0].value)
            && (a.winner.None? ==> a.value == 0.0)
  {
    var rankings := CreateRankings(rule.data, competitors, format(rule.id), rule.desc);
    assert Build(rule, competitors, format) == Award(rule.id, Winner(rankings), None, TopValue(rankings), rankings, rule.desc);
  }

  function RuleId(rule: Rule): string {
    rule.id
  }

  function RuleOrder(rule: Rule): bool {
    rule.desc
  }

  lemma PointRulesShape(competitors: seq<Competitor>, submissions: seq<Submission>, votes: seq<Vote>, results: seq<RoundResult>)
    ensures var r := PointRules(competitors, submissions, votes, results);
            && Map(r, RuleId) == ["overall-winner", "most-wins", "octopus", "generous-octopus", "close-shaver", "public-enemy"]
            && Map(r, RuleOrder) == [true, true, true, true, true, true]
  {
  }

  lemma PairRulesShape(competitors: seq<Competitor>, submissions: seq<Submission>, votes: seq<Vote>)
    ensures var r := PairRules(competitors, submissions, votes);
            Map(r, RuleId) == ["best-buddies", "one-sided-love", "sworn-enemies"] && Map(r, RuleOrder) == [true, true, false]
  {
  }

  lemma HabitRulesShape(competitors: seq<Competitor>, votes: seq<Vote>, rounds: seq<Round>, results: seq<RoundResult>, timeOf: string -> int)
    ensures var r := HabitRules(competitors, votes, rounds, results, timeOf);
            && Map(r, RuleId) == ["contrarian", "most-consistent", "narrator", "fall-from-grace", "redemption-arc"]
            && Map(r, RuleOrder) == [false, false, true, true, true]
  {
  }

  lemma TimingRulesShape(competitors: seq<Competitor>, submissions: seq<Submission>, votes: seq<Vote>, timeOf: string -> int, hourOf: string -> int)
    ensures var r := TimingRules(competitors, submissions, votes, timeOf, hourOf);
            Map(r, RuleId) == ["night-owl", "dunce", "eager-beaver"] && Map(r, RuleOrder) == [true, true, true]
  {
  }

  /** The ids and sort orders of the seventeen rules. */
  lemma RulesShape(competitors: seq<Competitor>, submissions: seq<Submission>, votes: seq<Vote>, rounds: seq<Round>,
                   timeOf: string -> int, hourOf: string -> int)
    ensures var rules := Rules(competitors, submissions, votes, rounds, timeOf, hourOf);
            && Map(rules, RuleId) ==
               ["overall-winner", "most-wins", "octopus", "generous-octopus", "close-shaver", "public-enemy",
                "best-buddies", "one-sided-love", "sworn-enemies", "contrarian", "most-consistent", "narrator",
                "fall-from-grace", "redemption-arc", "night-owl", "dunce", "eager-beaver"]
            && Map(rules, RuleOrder) ==
               [true, true, true, true, true, true, true, true, false, false, false, true, true, true, true, true, true]
  {
    var results := RoundResults(competitors, submissions, votes, rounds);
    PointRulesShape(competitors, submissions, votes, results);
    PairRulesShape(competitors, submissions, votes);
    HabitRulesShape(competitors, votes, rounds, results, timeOf);
    TimingRulesShape(competitors, submissions, votes, timeOf, hourOf);
    ConcatShape(PointRules(competitors, submissions, votes, results), PairRules(competitors, submissions, votes),
                HabitRules(competitors, votes, rounds, results, timeOf), TimingRules(competitors, submissions, votes, timeOf, hourOf));
  }

  lemma ConcatShape(p: seq<Rule>, q: seq<Rule>, h: seq<Rule>, t: seq<Rule>)
    requires Map(p, RuleId) == ["overall-winner", "most-wins", "octopus", "generous-octopus", "close-shaver", "public-enemy"]
    requires Map(p, RuleOrder) == [true, true, true, true, true, true]
    requires Map(q, RuleId) == ["best-buddies", "one-sided-love", "sworn-enemies"] && Map(q, RuleOrder) == [true, true, false]
    requires Map(h, RuleId) == ["contrarian", "most-consistent", "narrator", "fall-from-grace", "redemption-arc"]
    requires Map(h, RuleOrder) == [false, false, true, true, true]
    requires Map(t, RuleId) == ["night-owl", "dunce", "eager-beaver"] && Map(t, RuleOrder) == [true, true, true]
    ensures Map(p + q + h + t, RuleId) ==
               ["overall-winner", "most-wins", "octopus", "generous-octopus", "close-shaver", "public-enemy",
                "best-buddies", "one-sided-love", "sworn-enemies", "contrarian", "most-consistent", "narrator",
                "fall-from-grace", "redemption-arc", "night-owl", "dunce", "eager-beaver"]
    ensures Map(p + q + h + t, RuleOrder) ==
               [true, true, true, true, true, true, true, true, false, false, false, true, true, true, true, true, true]
  {
    MapAppend(p, q, RuleId);
    MapAppend(p + q, h, RuleId);
    MapAppend(p + q + h, t, RuleId);
    MapAppend(p, q, RuleOrder);
    MapAppend(p + q, h, RuleOrder);
    MapAppend(p + q + h, t, RuleOrder);
  }

  /** Building awards keeps the ids and sort orders of their rules. */
  lemma BuildKeepsShape(rules: seq<Rule>, competitors: seq<Competitor>, format: string -> real -> string)
    ensures var a := Map(rules, BuildWith(competitors, format));
            Map(a, AwardId) == Map(rules, RuleId) && Map(a, AwardOrder) == Map(rules, RuleOrder)
  {
    var a := Map(rules, BuildWith(competitors, format));
    forall i | 0 <= i < |a| ensures a[i].id == rules[i].id && a[i].desc == rules[i].desc {
      BuildFacts(rules[i], competitors, format);
    }
  }

  /** Seventeen awards with fixed ids in a fixed order; only the sworn
      enemies, the contrarian and the most consistent rank from low to high. */
  lemma AwardsShape(competitors: seq<Competitor>, submissions: seq<Submission>, votes: seq<Vote>, rounds: seq<Round>,
                    timeOf: string -> int, hourOf: string -> int, format: string -> real -> string)
    ensures var a := AllAwards(competitors, submissions, votes, rounds, timeOf, hourOf, format);
            && Map(a, AwardId) ==
               ["overall-winner", "most-wins", "octopus", "generous-octopus", "close-shaver", "public-enemy",
                "best-buddies", "one-sided-love", "sworn-enemies", "contrarian", "most-consistent", "narrator",
                "fall-from-grace", "redemption-arc", "night-owl", "dunce", "eager-beaver"]
            && Map(a, AwardOrder) ==
               [true, true, true, true, true, true, true, true, false, false, false, true, true, true, true, true, true]
  {
    RulesShape(competitors, submissions, votes, rounds, timeOf, hourOf);
    BuildKeepsShape(Rules(competitors, submissions, votes, rounds, timeOf, hourOf), competitors, format);
  }

  /** An award ranked in full names a competitor exactly when the data holds
      a value for someone in the competitor list; the winner's value is their
      own entry and the highest (for an ascending table, the lowest) of all. */
  lemma HeadedAwardFacts(rule: Rule, competitors: seq<Competitor>, format: string -> real -> string)
    requires rule.Ranked?
    ensures var a := Build(rule, competitors, format);
            && (a.winner.None? <==> forall e, c | e in rule.data && c in competitors :: c.id != e.0)
            && (a.winner.Some? ==>
                  && a.winner.value in competitors
                  && (a.winner.value.id, a.value) in rule.data
                  && forall e, c | e in rule.data && c in competitors && c.id == e.0 ::
                       if rule.desc then a.value >= e.1 else a.value <= e.1)
  {
    HeadedAwardWinner(rule, competitors, format);
    if Build(rule, competitors, format).winner.Some? {
      HeadedAwardBest(rule, competitors, format);
    }
  }

  lemma HeadedAwardWinner(rule: Rule, competitors: seq<Competitor>, format: string -> real -> string)
    requires rule.Ranked?
    ensures Build(rule, competitors, format).winner.None? <==>
            forall e, c | e in rule.data && c in competitors :: c.id != e.0
  {
    var f := format(rule.id);
    BuildFacts(rule, competitors, format);
    if exists e, c | e in rule.data && c in competitors :: c.id == e.0 {
      var e, c :| e in rule.data && c in competitors && c.id == e.0;
      RankedComplete(rule.data, competitors, f, rule.desc, e, c);
    }
    if Build(rule, competitors, format).winner.Some? {
      RankedLine(rule.data, competitors, f, rule.desc, 0);
    }
  }

  lemma HeadedAwardBest(rule: Rule, competitors: seq<Competitor>, format: string -> real -> string)
    requires rule.Ranked? && Build(rule, competitors, format).winner.Some?
    ensures var a := Build(rule, competitors, format);
            && a.winner.value in competitors
            && (a.winner.value.id, a.value) in rule.data
            && forall e, c | e in rule.data && c in competitors && c.id == e.0 ::
                 if rule.desc then a.value >= e.1 else a.value <= e.1
  {
    var f := format(rule.id);
    var a := Build(rule, competitors, format);
    BuildFacts(rule, competitors, format);
    RankedLine(rule.data, competitors, f, rule.desc, 0);
    RankedOrder(rule.data, competitors, f, rule.desc);
    forall e, c | e in rule.data && c in competitors && c.id == e.0
      ensures if rule.desc then a.value >= e.1 else a.value <= e.1
    {
      RankedComplete(rule.data, competitors, f, rule.desc, e, c);
    }
  }

  /** Every competitor has their received points in the overall table. */
  lemma OverallHas(competitors: seq<Competitor>, submissions: seq<Submission>, votes: seq<Vote>, c: Competitor)
    requires c in competitors
    ensures (c.id, Received(SubmissionLookup(submissions), votes, c.id) as real) in AsReal(TotalPoints(competitors, submissions, votes))
  {
    var lookup := SubmissionLookup(submissions);
    var data := TotalPoints(competitors, submissions, votes);
    ZeroedFacts(competitors, c.id);
    CounterGet(competitors, votes, ReceiverOf(lookup), Points, c.id);
    assert c.id in Ids(competitors);
    AsRealGet(data, c.id);
    GetIsEntry(AsReal(data), c.id);
    OverallTotals(competitors, submissions, votes, c.id);
  }

  /** Every entry of the overall table is someone's received points. */
  lemma OverallEntry(competitors: seq<Competitor>, submissions: seq<Submission>, votes: seq<Vote>, e: (string, real))
    requires e in AsReal(TotalPoints(competitors, submissions, votes))
    ensures e.1 == Received(SubmissionLookup(submissions), votes, e.0) as real
  {
    var lookup := SubmissionLookup(submissions);
    var data := TotalPoints(competitors, submissions, votes);
    CounterSum(competitors, votes, ReceiverOf(lookup), Points);
    AsRealEntries(data, e);
    var v :| (e.0, v) in data && e.1 == v as real;
    var k :| 0 <= k < |data| && data[k] == (e.0, v);
    GetAt(data, k);
    OverallTotals(competitors, submissions, votes, e.0);
  }

  /** The overall winner has received at least as many points as every
      competitor, and there is a winner whenever there are competitors. */
  lemma OverallWinnerFacts(competitors: seq<Competitor>, submissions: seq<Submission>, votes: seq<Vote>, results: seq<RoundResult>,
                           format: string -> real -> string, c: Competitor)
    requires c in competitors
    ensures var a := Build(PointRules(competitors, submissions, votes, results)[0], competitors, format);
            var lookup := SubmissionLookup(submissions);
            && a.id == "overall-winner"
            && a.winner.Some? && a.winner.value in competitors
            && a.value == Received(lookup, votes, a.winner.value.id) as real
            && a.value >= Received(lookup, votes, c.id) as real
  {
    var data := AsReal(TotalPoints(competitors, submissions, votes));
    var rule := PointRules(competitors, submissions, votes, results)[0];
    assert rule == Ranked("overall-winner", data, true);
    var a := Build(rule, competitors, format);
    BuildFacts(rule, competitors, format);
    OverallHas(competitors, submissions, votes, c);
    HeadedAwardFacts(rule, competitors, format);
    OverallEntry(competitors, submissions, votes, (a.winner.value.id, a.value));
  }

  /** The best buddies (`i == 0`) and the sworn enemies (`i == 2`) are the
      first pair with the most (fewest) combined points, and the award shows
      that total. */
  lemma PairAwardFacts(competitors: seq<Competitor>, submissions: seq<Submission>, votes: seq<Vote>, format: string -> real -> string, i: nat)
    requires i == 0 || i == 2
    ensures var a := Build(PairRules(competitors, submissions, votes)[i], competitors, format);
            var pairs := PairPoints(submissions, votes);
            && a.id == (if i == 0 then "best-buddies" else "sworn-enemies")
            && (pairs == [] ==> a.winner.None? && a.winnerSecondary.None? && a.value == 0.0)
            && (pairs != [] ==>
                  exists k | 0 <= k < |pairs| ::
                    && a.value == pairs[k].1 as real
                    && a.winner == PairWinner(CompetitorMap(competitors), pairs[k].0.0)
                    && a.winnerSecondary == PairWinner(CompetitorMap(competitors), pairs[k].0.1)
                    && (forall j | 0 <= j < |pairs| :: if i == 0 then pairs[j].1 <= pairs[k].1 else pairs[j].1 >= pairs[k].1)
                    && (forall j | 0 <= j < k :: if i == 0 then pairs[j].1 < pairs[k].1 else pairs[j].1 > pairs[k].1))
  {
    ExtremePairIsFirstBest(PairPoints(submissions, votes), i == 0);
  }

  /** One-sided love shows the widest gap between what a voter gave someone
      and what they got back, and names the first giver and receiver with
      that gap, or nobody when no gap is positive. */
  lemma OneSidedAwardFacts(competitors: seq<Competitor>, submissions: seq<Submission>, votes: seq<Vote>, format: string -> real -> string)
    ensures var a := Build(PairRules(competitors, submissions, votes)[1], competitors, format);
            var d := DirectedPoints([], SubmissionLookup(submissions), votes);
            var ts := Flat(d);
            && a.id == "one-sided-love"
            && a.value >= 0.0
            && (forall k | 0 <= k < |ts| :: a.value >= Asymmetry(d, ts[k]) as real)
            && (a.value > 0.0 ==>
                  exists k | 0 <= k < |ts| ::
                    && Asymmetry(d, ts[k]) as real == a.value
                    && a.winner == PairWinner(CompetitorMap(competitors), ts[k].0)
                    && a.winnerSecondary == PairWinner(CompetitorMap(competitors), ts[k].1))
            && (a.value == 0.0 ==> a.winner.None? && a.winnerSecondary.None?)
  {
    OneSidedLoveFacts(submissions, votes);
  }

  /** `calculateAwards()`, step by step as the source runs it. */
  method CalculateAwards(competitors: seq<Competitor>, submissions: seq<Submission>, votes: seq<Vote>, rounds: seq<Round>,
                         timeOf: string -> int, hourOf: string -> int, format: string -> real -> string)
    returns (awards: seq<Award>)
    ensures awards == AllAwards(competitors, submissions, votes, rounds, timeOf, hourOf, format)
  {
    var rules := RulesLoop(competitors, submissions, votes, rounds, timeOf, hourOf);
    awards := Map(rules, BuildWith(competitors, format));
  }

  /** The numbers of the seventeen rules, computed by the source's loops. */
  method RulesLoop(competitors: seq<Competitor>, submissions: seq<Submission>, votes: seq<Vote>, rounds: seq<Round>,
                   timeOf: string -> int, hourOf: string -> int)
    returns (rules: seq<Rule>)
    ensures rules == Rules(competitors, submissions, votes, rounds, timeOf, hourOf)
  {
    var roundResults := GetRoundResults(competitors, submissions, votes, rounds);
    var submissionLookup := IndexLoop([], submissions, SubmissionKey, SubmitterOf);
    var zeroed := SetAllLoop([], Ids(competitors), 0);
    var points := PointRulesLoop(competitors, submissions, votes, roundResults, submissionLookup, zeroed);
    var pairs := PairRulesLoop(competitors, submissions, votes, submissionLookup, zeroed);
    var habits := HabitRulesLoop(competitors, votes, rounds, roundResults, timeOf, zeroed);
    var timing := TimingRulesLoop(competitors, submissions, votes, timeOf, hourOf, zeroed);
    rules := points + pairs + habits + timing;
  }

  method PointRulesLoop(competitors: seq<Competitor>, submissions: seq<Submission>, votes: seq<Vote>, roundResults: seq<RoundResult>,
                        submissionLookup: OrderedMap<TrackKey, string>, zeroed: OrderedMap<string, int>)
    returns (rules: seq<Rule>)
    requires submissionLookup == SubmissionLookup(submissions) && zeroed == Zeroed(competitors)
    ensures rules == PointRules(competitors, submissions, votes, roundResults)
  {
    var totalPoints := TallyLoop(zeroed, votes, ReceiverOf(submissionLookup), Points);
    var wins := TallyLoop(zeroed, roundResults, PlacedAt(0), One<RoundResult>);
    var eights := Filter(votes, IsEight);
    var eightsReceived := TallyLoop(zeroed, eights, ReceiverOf(submissionLookup), One<Vote>);
    var eightsGiven := TallyLoop(zeroed, eights, VoterOf, One<Vote>);
    var seconds := TallyLoop(zeroed, roundResults, PlacedAt(1), One<RoundResult>);
    var downvotes := TallyLoop(zeroed, Filter(votes, IsDownvote), ReceiverOf(submissionLookup), Magnitude);
    rules := [
      Ranked("overall-winner", AsReal(totalPoints), true),
      Ranked("most-wins", AsReal(wins), true),
      Ranked("octopus", AsReal(eightsReceived), true),
      Ranked("generous-octopus", AsReal(eightsGiven), true),
      Ranked("close-shaver", AsReal(seconds), true),
      Ranked("public-enemy", AsReal(downvotes), true) ];
  }

  method PairRulesLoop(competitors: seq<Competitor>, submissions: seq<Submission>, votes: seq<Vote>,
                       submissionLookup: OrderedMap<TrackKey, string>, zeroed: OrderedMap<string, int>)
    returns (rules: seq<Rule>)
    requires submissionLookup == SubmissionLookup(submissions) && zeroed == Zeroed(competitors)
    ensures rules == PairRules(competitors, submissions, votes)
  {
    var pairPoints := TallyLoop([], votes, PairKeyOf(submissionLookup), Points);
    var givenToOthers := TallyLoop(zeroed, votes, GiverToOther(submissionLookup), Points);
    var directed := DirectedLoop(submissionLookup, votes);
    var maxAsymmetry := RaiseMaxLoop(zeroed, directed);
    var widest := WidestLoop(directed);
    var receivedFromOthers := TallyLoop(zeroed, votes, OtherReceiver(submissionLookup), Points);
    rules := [
      Paired("best-buddies", ExtremePair(pairPoints, true), AsReal(givenToOthers), true),
      Gap("one-sided-love", widest, AsReal(maxAsymmetry), true),
      Paired("sworn-enemies", ExtremePair(pairPoints, false), AsReal(receivedFromOthers), false) ];
  }

  method HabitRulesLoop(competitors: seq<Competitor>, votes: seq<Vote>, rounds: seq<Round>, roundResults: seq<RoundResult>,
                        timeOf: string -> int, zeroed: OrderedMap<string, int>)
    returns (rules: seq<Rule>)
    requires zeroed == Zeroed(competitors)
    ensures rules == HabitRules(competitors, votes, rounds, roundResults, timeOf)
  {
    var averages := AveragePointsLoop(competitors, votes);
    var positions := PositionsLoop(roundResults);
    var variances := VariancesLoop(positions);
    var comments := TallyLoop(zeroed, votes, Commenter, CommentLength);
    var halves := HalvesLoop(roundResults, FirstHalfIds(rounds, timeOf));
    var fall := ChangesLoop(competitors, halves.first, halves.second);
    var rise := ChangesLoop(competitors, halves.second, halves.first);
    rules := [
      Ranked("contrarian", averages, false),
      Ranked("most-consistent", variances, false),
      Ranked("narrator", AsReal(comments), true),
      Ranked("fall-from-grace", fall, true),
      Ranked("redemption-arc", rise, true) ];
  }

  method TimingRulesLoop(competitors: seq<Competitor>, submissions: seq<Submission>, votes: seq<Vote>,
                         timeOf: string -> int, hourOf: string -> int, zeroed: OrderedMap<string, int>)
    returns (rules: seq<Rule>)
    requires zeroed == Zeroed(competitors)
    ensures rules == TimingRules(competitors, submissions, votes, timeOf, hourOf)
  {
    var night := TallyLoop(zeroed, submissions, LateNight(hourOf), One<Submission>);
    var lateness := LatenessLoop(competitors, submissions, votes, timeOf, true);
    var earliness := LatenessLoop(competitors, submissions, votes, timeOf, false);
    rules := [
      Ranked("night-owl", AsReal(night), true),
      Ranked("dunce", AsReal(lateness), true),
      Ranked("eager-beaver", AsReal(earliness), true) ];
  }
}
