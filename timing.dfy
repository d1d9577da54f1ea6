/**
 * The award rules of `calculateAwards.ts` about timing: the dunce (the last
 * to submit or vote in a round) and the eager beaver (the first). Both run
 * the same steps; `desc` is true for the dunce, who is chosen by the latest
 * time, and false for the eager beaver, chosen by the earliest.
 */
module Timing {
  import opened Options
  import opened Sequences
  import opened OrderedMaps
  import opened Sorting
  import opened Records
  import opened Counters

  // ---------------------------------------------------------------------
  // Grouping by round

  /** `submissionsByRound` and `votesByRound`: the items of each round in
      their order, the rounds in the order they are first seen. */
  function Group<T>(m: OrderedMap<string, seq<T>>, items: seq<T>, key: T -> string): OrderedMap<string, seq<T>>
    decreases |items|
  {
    if |items| == 0 then m
    else Group(Set(m, key(items[0]), GetOr(m, key(items[0]), []) + [items[0]]), items[1..], key)
  }

  function WithKey<T>(key: T -> string, k: string): T -> bool {
    (x: T) => key(x) == k
  }

  lemma {:induction false} GroupGet<T>(m: OrderedMap<string, seq<T>>, items: seq<T>, key: T -> string, k: string)
    ensures GetOr(Group(m, items, key), k, []) == GetOr(m, k, []) + Filter(items, WithKey(key, k))
    ensures DistinctKeys(m) ==> DistinctKeys(Group(m, items, key))
    decreases |items|
  {
    if items == [] {
      AppendEmpty(GetOr(m, k, []));
    } else {
      var x := items[0];
      var next := Set(m, key(x), GetOr(m, key(x), []) + [x]);
      if key(x) == k {
        SetGet(m, k, GetOr(m, k, []) + [x]);
      } else {
        SetGetOther(m, key(x), GetOr(m, key(x), []) + [x], k);
        AppendEmpty(Filter(items[1..], WithKey(key, k)));
      }
      if DistinctKeys(m) {
        SetKeepsDistinct(m, key(x), GetOr(m, key(x), []) + [x]);
      }
      GroupGet(next, items[1..], key, k);
      AppendAssoc(GetOr(m, k, []), if key(x) == k then [x] else [], Filter(items[1..], WithKey(key, k)));
    }
  }

  /** Each round's group holds exactly the items of that round, in order. */
  lemma RoundGroups<T>(items: seq<T>, key: T -> string, k: string)
    ensures GetOr(Group([], items, key), k, []) == Filter(items, WithKey(key, k))
    ensures DistinctKeys(Group([], items, key))
  {
    GroupGet([], items, key, k);
  }

  /** The loop that groups the items by round. */
  method GroupLoop<T>(items: seq<T>, key: T -> string) returns (m: OrderedMap<string, seq<T>>)
    ensures m == Group([], items, key)
  {
    m := [];
    var i := 0;
    while i < |items|
      invariant 0 <= i <= |items|
      invariant Group(m, items[i..], key) == Group([], items, key)
    {
      DropHead(items, i);
      var k := key(items[i]);
      var group := GetOr(m, k, []);
      m := Set(m, k, group + [items[i]]);
      i := i + 1;
    }
  }

  function SubmissionRound(s: Submission): string {
    s.roundId
  }

  function VoteRound(v: Vote): string {
    v.roundId
  }

  /** `time` is later (dunce) or earlier (eager beaver) than `other`. */
  predicate Beats(desc: bool, time: int, other: int) {
    if desc then time > other else time < other
  }

  // ---------------------------------------------------------------------
  // The last (first) submitter of a round

  predicate Dated(s: Submission) {
    |s.created| > 0
  }

  /** `new Date(s.created).getTime()`. */
  function SubmissionTime(timeOf: string -> int): Submission -> real {
    (s: Submission) => timeOf(s.created) as real
  }

  /** `sorted[0].submitterId` after `roundSubs.filter(s => s.created).sort(...)`. */
  function ExtremeSubmitter(group: seq<Submission>, timeOf: string -> int, desc: bool): Option<string> {
    var dated := Filter(group, Dated);
    if |dated| == 0 then None else Some(StableSort(dated, SubmissionTime(timeOf), desc)[0].submitterId)
  }

  /** A round names a submitter exactly when it has a dated submission. */
  lemma ExtremeSubmitterExists(group: seq<Submission>, timeOf: string -> int, desc: bool)
    ensures ExtremeSubmitter(group, timeOf, desc).Some? <==> exists s | s in group :: Dated(s)
  {
    if exists s | s in group :: Dated(s) {
      var s :| s in group && Dated(s);
      FilterKeeps(group, Dated, s);
    }
  }

  /** The submitter named for a round made the first of its dated
      submissions with the latest (earliest) time. */
  lemma ExtremeSubmitterBest(group: seq<Submission>, timeOf: string -> int, desc: bool)
    requires Filter(group, Dated) != []
    ensures var dated := Filter(group, Dated);
            var i := BestIndex(dated, SubmissionTime(timeOf), desc);
            && dated[i] in group
            && ExtremeSubmitter(group, timeOf, desc) == Some(dated[i].submitterId)
            && (forall j | 0 <= j < |dated| :: !Beats(desc, timeOf(dated[j].created), timeOf(dated[i].created)))
            && (forall j | 0 <= j < i :: Beats(desc, timeOf(dated[i].created), timeOf(dated[j].created)))
  {
    var dated := Filter(group, Dated);
    SortHead(dated, SubmissionTime(timeOf), desc);
    var i := BestIndex(dated, SubmissionTime(timeOf), desc);
    FilterElements(group, Dated, dated[i]);
  }

  function SubmissionPick(timeOf: string -> int, desc: bool): seq<Submission> -> Option<string> {
    (g: seq<Submission>) => ExtremeSubmitter(g, timeOf, desc)
  }

  /** `lastSubmissionCounts` (`firstSubmissionCounts`). */
  function SubmissionCounts(submissions: seq<Submission>, timeOf: string -> int, desc: bool): OrderedMap<string, int> {
    Tally([], Values(Group([], submissions, SubmissionRound)), SubmissionPick(timeOf, desc), One<seq<Submission>>)
  }

  // ---------------------------------------------------------------------
  // The last (first) voter of a round

  /** Each voter's latest (earliest) dated vote time in the round. */
  type VoterTimes = OrderedMap<string, int>

  /** One vote's turn of `lastVoteByVoter`: `!existing || voteTime > existing`. */
  function KeepExtreme(m: VoterTimes, v: Vote, timeOf: string -> int, desc: bool): VoterTimes {
    if |v.created| == 0 then m
    else
      var existing := Get(m, v.voterId);
      if existing.None? || Beats(desc, timeOf(v.created), existing.value) then Set(m, v.voterId, timeOf(v.created)) else m
  }

  function VoterTimesOf(m: VoterTimes, votes: seq<Vote>, timeOf: string -> int, desc: bool): VoterTimes
    decreases |votes|
  {
    if |votes| == 0 then m else VoterTimesOf(KeepExtreme(m, votes[0], timeOf, desc), votes[1..], timeOf, desc)
  }

  /** A dated vote of `voter`. */
  predicate DatedBy(v: Vote, voter: string) {
    |v.created| > 0 && v.voterId == voter
  }

  /** A voter's time is at least as extreme as the one they started with and
      as each of their dated votes, and is one of those. */
  lemma {:induction false} VoterTimesGet(m: VoterTimes, votes: seq<Vote>, timeOf: string -> int, desc: bool, voter: string)
    ensures var r := Get(VoterTimesOf(m, votes, timeOf, desc), voter);
            && (r.Some? <==> Get(m, voter).Some? || exists i | 0 <= i < |votes| :: DatedBy(votes[i], voter))
            && (r.Some? && Get(m, voter).Some? ==> !Beats(desc, Get(m, voter).value, r.value))
            && (r.Some? ==> forall i | 0 <= i < |votes| && DatedBy(votes[i], voter) :: !Beats(desc, timeOf(votes[i].created), r.value))
            && (r.Some? ==> r == Get(m, voter) || exists i | 0 <= i < |votes| :: DatedBy(votes[i], voter) && r.value == timeOf(votes[i].created))
    decreases |votes|
  {
    if votes != [] {
      var v := votes[0];
      var next := KeepExtreme(m, v, timeOf, desc);
      if |v.created| > 0 {
        var existing := Get(m, v.voterId);
        if existing.None? || Beats(desc, timeOf(v.created), existing.value) {
          if v.voterId == voter {
            SetGet(m, voter, timeOf(v.created));
          } else {
            SetGetOther(m, v.voterId, timeOf(v.created), voter);
          }
        }
      }
      VoterTimesGet(next, votes[1..], timeOf, desc, voter);
      var r := Get(VoterTimesOf(m, votes, timeOf, desc), voter);
      assert r == Get(VoterTimesOf(next, votes[1..], timeOf, desc), voter);
      if exists i | 0 <= i < |votes[1..]| :: DatedBy(votes[1..][i], voter) {
        var i :| 0 <= i < |votes[1..]| && DatedBy(votes[1..][i], voter);
        assert DatedBy(votes[i + 1], voter);
      }
      if exists i | 0 <= i < |votes| :: DatedBy(votes[i], voter) {
        var i :| 0 <= i < |votes| && DatedBy(votes[i], voter);
        if i > 0 {
          assert DatedBy(votes[1..][i - 1], voter);
        }
      }
      if r.Some? {
        forall i | 0 <= i < |votes| && DatedBy(votes[i], voter) ensures !Beats(desc, timeOf(votes[i].created), r.value) {
          if i > 0 {
            assert votes[i] == votes[1..][i - 1];
          }
        }
        if r != Get(next, voter) {
          var i :| 0 <= i < |votes[1..]| && DatedBy(votes[1..][i], voter) && r.value == timeOf(votes[1..][i].created);
          assert votes[i + 1] == votes[1..][i];
        }
      }
    }
  }

  /** The loop over `lastVoteByVoter`: the first entry whose time no later
      entry beats. */
  function Leader(best: Option<(string, int)>, entries: VoterTimes, desc: bool): Option<(string, int)>
    decreases |entries|
  {
    if |entries| == 0 then best
    else
      var e := entries[0];
      Leader(if best.None? || Beats(desc, e.1, best.value.1) then Some(e) else best, entries[1..], desc)
  }

  lemma {:induction false} LeaderFacts(best: Option<(string, int)>, entries: VoterTimes, desc: bool)
    ensures var r := Leader(best, entries, desc);
            && (r.Some? <==> best.Some? || |entries| > 0)
            && (r.Some? && best.Some? ==> !Beats(desc, best.value.1, r.value.1))
            && (r.Some? ==> forall i | 0 <= i < |entries| :: !Beats(desc, entries[i].1, r.value.1))
            && (r.Some? ==> r == best || r.value in entries)
    decreases |entries|
  {
    if entries != [] {
      var e := entries[0];
      var next := if best.None? || Beats(desc, e.1, best.value.1) then Some(e) else best;
      LeaderFacts(next, entries[1..], desc);
      var r := Leader(best, entries, desc);
      forall i | 0 <= i < |entries| ensures !Beats(desc, entries[i].1, r.value.1) {
        if i > 0 {
          assert entries[i] == entries[1..][i - 1];
        }
      }
      if r != next {
        assert r.value in entries[1..];
      }
    }
  }

  /** `latestVoterId` (`earliestVoterId`), kept only when non-empty
      (`if (latestVoterId)`). */
  function ExtremeVoter(group: seq<Vote>, timeOf: string -> int, desc: bool): Option<string> {
    var leader := Leader(None, VoterTimesOf([], group, timeOf, desc), desc);
    if leader.Some? && leader.value.0 != "" then Some(leader.value.0) else None
  }

  /** The voter chosen for a round cast a dated vote that no dated vote of
      the round beats; a round with a dated vote by a non-empty voter id
      always names someone unless the winner of that race has the empty id. */
  lemma ExtremeVoterFacts(group: seq<Vote>, timeOf: string -> int, desc: bool)
    ensures var r := ExtremeVoter(group, timeOf, desc);
            var leader := Leader(None, VoterTimesOf([], group, timeOf, desc), desc);
            && (r.Some? ==>
                  r.value != "" &&
                  exists i | 0 <= i < |group| ::
                    && DatedBy(group[i], r.value)
                    && forall j | 0 <= j < |group| && |group[j].created| > 0 ::
                         !Beats(desc, timeOf(group[j].created), timeOf(group[i].created)))
            && (r.None? ==> (forall i | 0 <= i < |group| :: |group[i].created| == 0) ||
                            (leader.Some? && leader.value.0 == ""))
  {
    var times := VoterTimesOf([], group, timeOf, desc);
    var leader := Leader(None, times, desc);
    LeaderFacts(None, times, desc);
    if exists i | 0 <= i < |group| :: |group[i].created| > 0 {
      var i :| 0 <= i < |group| && |group[i].created| > 0;
      VoterTimesGet([], group, timeOf, desc, group[i].voterId);
      GetIsEntry(times, group[i].voterId);
    }
    if leader.Some? {
      var id := leader.value.0;
      var t := leader.value.1;
      var k :| 0 <= k < |times| && times[k] == leader.value;
      VoterTimesDistinct([], group, timeOf, desc);
      GetAt(times, k);
      VoterTimesGet([], group, timeOf, desc, id);
      var i :| 0 <= i < |group| && DatedBy(group[i], id) && t == timeOf(group[i].created);
      forall j | 0 <= j < |group| && |group[j].created| > 0
        ensures !Beats(desc, timeOf(group[j].created), timeOf(group[i].created))
      {
        var w := group[j].voterId;
        VoterTimesGet([], group, timeOf, desc, w);
        GetIsEntry(times, w);
        var m :| 0 <= m < |times| && times[m] == (w, Get(times, w).value);
        assert !Beats(desc, times[m].1, t);
      }
    }
  }

  lemma {:induction false} VoterTimesDistinct(m: VoterTimes, votes: seq<Vote>, timeOf: string -> int, desc: bool)
    requires DistinctKeys(m)
    ensures DistinctKeys(VoterTimesOf(m, votes, timeOf, desc))
    decreases |votes|
  {
    if votes != [] {
      var v := votes[0];
      if |v.created| > 0 {
        SetKeepsDistinct(m, v.voterId, timeOf(v.created));
      }
      VoterTimesDistinct(KeepExtreme(m, v, timeOf, desc), votes[1..], timeOf, desc);
    }
  }

  function VotePick(timeOf: string -> int, desc: bool): seq<Vote> -> Option<string> {
    (g: seq<Vote>) => ExtremeVoter(g, timeOf, desc)
  }

  /** `lastVoteCounts` (`firstVoteCounts`). */
  function VoteCounts(votes: seq<Vote>, timeOf: string -> int, desc: bool): OrderedMap<string, int> {
    Tally([], Values(Group([], votes, VoteRound)), VotePick(timeOf, desc), One<seq<Vote>>)
  }

  // ---------------------------------------------------------------------
  // Totals

  /** `counts.forEach((count, id) => total.set(id, (total.get(id) || 0) + count))`. */
  function AddAll(m: OrderedMap<string, int>, counts: OrderedMap<string, int>): OrderedMap<string, int>
    decreases |counts|
  {
    if |counts| == 0 then m else AddAll(Add(m, counts[0].0, counts[0].1), counts[1..])
  }

  lemma {:induction false} AddAllGet(m: OrderedMap<string, int>, counts: OrderedMap<string, int>, id: string)
    requires DistinctKeys(counts)
    ensures GetOr(AddAll(m, counts), id, 0) == GetOr(m, id, 0) + GetOr(counts, id, 0)
    ensures Sum(AddAll(m, counts)) == Sum(m) + Sum(counts)
    decreases |counts|
  {
    if counts != [] {
      var e := counts[0];
      DistinctKeysTail(counts);
      AddAllGet(Add(m, e.0, e.1), counts[1..], id);
      AddSum(m, e.0, e.1);
      if e.0 == id {
        SetGet(m, id, GetOr(m, id, 0) + e.1);
        assert !HasKey(counts[1..], id) by {
          if HasKey(counts[1..], id) {
            GetIsEntry(counts[1..], id);
            assert false;
          }
        }
      } else {
        SetGetOther(m, e.0, GetOr(m, e.0, 0) + e.1, id);
      }
    }
  }

  /** `totalLateness` (`desc`) or `totalEarliness` (`!desc`). */
  function Lateness(competitors: seq<Competitor>, submissions: seq<Submission>, votes: seq<Vote>, timeOf: string -> int, desc: bool): OrderedMap<string, int> {
    AddAll(AddAll(Zeroed(competitors), SubmissionCounts(submissions, timeOf, desc)), VoteCounts(votes, timeOf, desc))
  }

  /** Each round names at most one submitter and one voter: a competitor's
      total is their submission count plus their vote count, and all totals
      together are the rounds with a chosen submitter plus the rounds with a
      chosen voter. */
  lemma LatenessFacts(competitors: seq<Competitor>, submissions: seq<Submission>, votes: seq<Vote>, timeOf: string -> int, desc: bool, id: string)
    ensures var subs := SubmissionCounts(submissions, timeOf, desc);
            var vts := VoteCounts(votes, timeOf, desc);
            var total := Lateness(competitors, submissions, votes, timeOf, desc);
            && GetOr(total, id, 0) == GetOr(subs, id, 0) + GetOr(vts, id, 0)
            && Sum(total) ==
               |Filter(Values(Group([], submissions, SubmissionRound)), Filed(SubmissionPick(timeOf, desc)))| +
               |Filter(Values(Group([], votes, VoteRound)), Filed(VotePick(timeOf, desc)))|
  {
    var subGroups := Values(Group([], submissions, SubmissionRound));
    var voteGroups := Values(Group([], votes, VoteRound));
    var subs := SubmissionCounts(submissions, timeOf, desc);
    var vts := VoteCounts(votes, timeOf, desc);
    TallyDistinct([], subGroups, SubmissionPick(timeOf, desc), One<seq<Submission>>);
    TallyDistinct([], voteGroups, VotePick(timeOf, desc), One<seq<Vote>>);
    TallySum([], subGroups, SubmissionPick(timeOf, desc), One<seq<Submission>>);
    TallySum([], voteGroups, VotePick(timeOf, desc), One<seq<Vote>>);
    SumKeyedOne(subGroups, SubmissionPick(timeOf, desc));
    SumKeyedOne(voteGroups, VotePick(timeOf, desc));
    ZeroedFacts(competitors, id);
    AddAllGet(Zeroed(competitors), subs, id);
    AddAllGet(AddAll(Zeroed(competitors), subs), vts, id);
  }

  // ---------------------------------------------------------------------
  // The loops of the two rules

  /** `submissionsByRound.forEach(roundSubs => …)`. */
  method SubmissionCountsLoop(groups: OrderedMap<string, seq<Submission>>, timeOf: string -> int, desc: bool)
    returns (counts: OrderedMap<string, int>)
    ensures counts == Tally([], Values(groups), SubmissionPick(timeOf, desc), One<seq<Submission>>)
  {
    counts := [];
    var i := 0;
    while i < |groups|
      invariant 0 <= i <= |groups|
      invariant Tally(counts, Values(groups)[i..], SubmissionPick(timeOf, desc), One<seq<Submission>>) ==
                Tally([], Values(groups), SubmissionPick(timeOf, desc), One<seq<Submission>>)
    {
      DropHead(Values(groups), i);
      var roundSubs := groups[i].1;
      var sorted := StableSort(Filter(roundSubs, Dated), SubmissionTime(timeOf), desc);
      if |sorted| > 0 {
        var submitter := sorted[0].submitterId;
        counts := Add(counts, submitter, 1);
      }
      i := i + 1;
    }
  }

  /** One round's `lastVoteByVoter` loop. */
  method VoterTimesLoop(roundVotes: seq<Vote>, timeOf: string -> int, desc: bool) returns (times: VoterTimes)
    ensures times == VoterTimesOf([], roundVotes, timeOf, desc)
  {
    times := [];
    var i := 0;
    while i < |roundVotes|
      invariant 0 <= i <= |roundVotes|
      invariant VoterTimesOf(times, roundVotes[i..], timeOf, desc) == VoterTimesOf([], roundVotes, timeOf, desc)
    {
      DropHead(roundVotes, i);
      var v := roundVotes[i];
      if v.created != "" {
        var voteTime := timeOf(v.created);
        var existing := Get(times, v.voterId);
        if existing.None? || Beats(desc, voteTime, existing.value) {
          times := Set(times, v.voterId, voteTime);
        }
      }
      i := i + 1;
    }
  }

  /** One round's search for `latestVoterId`. */
  method LeaderLoop(times: VoterTimes, desc: bool) returns (leader: Option<string>)
    ensures leader == match Leader(None, times, desc) case Some(e) => Some(e.0) case None => None
  {
    var latestVoter: Option<string> := None;
    var latestTime: Option<int> := None;
    var i := 0;
    while i < |times|
      invariant 0 <= i <= |times|
      invariant latestVoter.Some? == latestTime.Some?
      invariant Leader(if latestVoter.Some? then Some((latestVoter.value, latestTime.value)) else None, times[i..], desc) ==
                Leader(None, times, desc)
    {
      DropHead(times, i);
      var voter := times[i].0;
      var time := times[i].1;
      if latestTime.None? || Beats(desc, time, latestTime.value) {
        latestTime := Some(time);
        latestVoter := Some(voter);
      }
      i := i + 1;
    }
    leader := latestVoter;
  }

  /** `votesByRound.forEach(roundVotes => …)`. */
  method VoteCountsLoop(groups: OrderedMap<string, seq<Vote>>, timeOf: string -> int, desc: bool)
    returns (counts: OrderedMap<string, int>)
    ensures counts == Tally([], Values(groups), VotePick(timeOf, desc), One<seq<Vote>>)
  {
    counts := [];
    var i := 0;
    while i < |groups|
      invariant 0 <= i <= |groups|
      invariant Tally(counts, Values(groups)[i..], VotePick(timeOf, desc), One<seq<Vote>>) ==
                Tally([], Values(groups), VotePick(timeOf, desc), One<seq<Vote>>)
    {
      DropHead(Values(groups), i);
      var times := VoterTimesLoop(groups[i].1, timeOf, desc);
      var voter := LeaderLoop(times, desc);
      if voter.Some? && voter.value != "" {
        counts := Add(counts, voter.value, 1);
      }
      i := i + 1;
    }
  }

  /** The two `forEach` loops that add the counts into the total. */
  method AddAllLoop(m0: OrderedMap<string, int>, counts: OrderedMap<string, int>) returns (m: OrderedMap<string, int>)
    ensures m == AddAll(m0, counts)
  {
    m := m0;
    var i := 0;
    while i < |counts|
      invariant 0 <= i <= |counts|
      invariant AddAll(m, counts[i..]) == AddAll(m0, counts)
    {
      DropHead(counts, i);
      m := Add(m, counts[i].0, counts[i].1);
      i := i + 1;
    }
  }

  /** Everything the dunce (`desc`) or eager beaver (`!desc`) rule computes. */
  method LatenessLoop(competitors: seq<Competitor>, submissions: seq<Submission>, votes: seq<Vote>, timeOf: string -> int, desc: bool)
    returns (total: OrderedMap<string, int>)
    ensures total == Lateness(competitors, submissions, votes, timeOf, desc)
  {
    var submissionsByRound := GroupLoop(submissions, SubmissionRound);
    var submissionCounts := SubmissionCountsLoop(submissionsByRound, timeOf, desc);
    var votesByRound := GroupLoop(votes, VoteRound);
    var voteCounts := VoteCountsLoop(votesByRound, timeOf, desc);
    total := SetAllLoop([], Ids(competitors), 0);
    total := AddAllLoop(total, submissionCounts);
    total := AddAllLoop(total, voteCounts);
  }
}
