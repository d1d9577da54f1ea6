/**
 * The track lists of `musicAnalytics.ts`: every submission with the points
 * and the number of votes it drew, its submitter's name and its player link
 * (`getAllTracks`), and the best of them (`getTopTracks`).
 */
module Tracks {
  import opened Options
  import opened Sequences
  import opened OrderedMaps
  import opened Sorting
  import opened Text
  import opened Records
  import opened Standings
  import opened Accumulators
  import opened Library

  const UriPrefix := "spotify:track:"
  const EmbedPrefix := "https://open.spotify.com/embed/track/"
  const EmbedSuffix := "?utm_source=generator&theme=0"

  /** `getSpotifyEmbedUrl`: the first `spotify:track:` goes, and the rest
      is the track id of the player link. */
  function EmbedUrl(uri: string): string {
    EmbedPrefix + ReplaceFirst(uri, UriPrefix, "") + EmbedSuffix
  }

  /** A track URI gives the player link of its id, and the id can be read
      back out of the link. */
  lemma EmbedUrlOfId(id: string)
    ensures EmbedUrl(UriPrefix + id) == EmbedPrefix + id + EmbedSuffix
    ensures EmbedUrl(UriPrefix + id)[|EmbedPrefix|..|EmbedUrl(UriPrefix + id)| - |EmbedSuffix|] == id
  {
    ReplaceFirstLeading(UriPrefix, id, "");
    assert "" + id == id;
    var u := EmbedPrefix + id + EmbedSuffix;
    assert u[|EmbedPrefix|..|u| - |EmbedSuffix|] == id;
  }

  /** Anything without the prefix is used as the id as it stands. */
  lemma EmbedUrlOther(uri: string)
    requires !Contains(uri, UriPrefix)
    ensures EmbedUrl(uri) == EmbedPrefix + uri + EmbedSuffix
  {
    ReplaceFirstAbsent(uri, UriPrefix, "");
  }

  // ---------------------------------------------------------------------
  // statsLookup

  /** The points and the number of votes on one key. */
  datatype VoteStats = VoteStats(points: int, voters: int)

  /** `statsLookup.get(key) || { points: 0, voters: 0 }`. */
  function NoStats(k: TrackKey): VoteStats {
    VoteStats(0, 0)
  }

  /** `current.points += vote.points; current.voters++`. */
  function CountVote(s: VoteStats, v: Vote): VoteStats {
    VoteStats(s.points + v.points, s.voters + 1)
  }

  /** `statsLookup`. */
  function StatsLookup(votes: seq<Vote>): OrderedMap<TrackKey, VoteStats> {
    Accumulate([], votes, VoteKey, NoStats, CountVote)
  }

  /** The votes on one key. */
  function VotesOn(votes: seq<Vote>, k: TrackKey): seq<Vote> {
    Filter(votes, KeyIs(VoteKey, k))
  }

  lemma {:induction false} CountVotes(s: VoteStats, votes: seq<Vote>)
    ensures Fold(s, votes, CountVote) == VoteStats(s.points + Total(votes, Points), s.voters + |votes|)
    decreases |votes|
  {
    if votes != [] {
      CountVotes(CountVote(s, votes[0]), votes[1..]);
    }
  }

  /** Each key holds the summed points and the number of the votes cast on
      it; a key without votes reads as zero and zero. */
  lemma StatsOf(votes: seq<Vote>, k: TrackKey)
    ensures GetOr(StatsLookup(votes), k, VoteStats(0, 0)) ==
            VoteStats(Total(VotesOn(votes, k), Points), |VotesOn(votes, k)|)
  {
    AccumulateGet([], votes, VoteKey, NoStats, CountVote, k);
    CountVotes(VoteStats(0, 0), VotesOn(votes, k));
  }

  /** The points of a key agree with those the catalogue statistics use. */
  lemma {:induction false} PointsAgree(votes: seq<Vote>, k: TrackKey)
    ensures Total(VotesOn(votes, k), Points) == SumFor(votes, TrackOf, Points, k)
    decreases |votes|
  {
    if votes != [] {
      PointsAgree(votes[1..], k);
      assert votes == [votes[0]] + votes[1..];
      if VoteKey(votes[0]) == k {
        assert VotesOn(votes, k) == [votes[0]] + VotesOn(votes[1..], k);
      } else {
        assert VotesOn(votes, k) == VotesOn(votes[1..], k);
      }
    }
  }

  /** The `votes.forEach` that fills `statsLookup`. */
  method StatsLoop(votes: seq<Vote>) returns (lookup: OrderedMap<TrackKey, VoteStats>)
    ensures lookup == StatsLookup(votes)
  {
    lookup := [];
    for i := 0 to |votes|
      invariant Accumulate(lookup, votes[i..], VoteKey, NoStats, CountVote) == StatsLookup(votes)
    {
      var vote := votes[i];
      var key := (vote.spotifyUri, vote.roundId);
      assert VoteKey(vote) == key;
      AccumulateStep(lookup, votes, i, VoteKey, NoStats, CountVote);
      var current := GetOr(lookup, key, VoteStats(0, 0));
      current := current.(points := current.points + vote.points, voters := current.voters + 1);
      lookup := Set(lookup, key, current);
    }
  }

  // ---------------------------------------------------------------------
  // getAllTracks, getTopTracks

  /** `TrackWithStats`: the submission and what is known about it. */
  datatype TrackWithStats = TrackWithStats(
    submission: Submission, points: int, voterCount: int, submitterName: string, spotifyEmbedUrl: string)

  function TrackFor(lookup: OrderedMap<TrackKey, VoteStats>, names: OrderedMap<string, string>): Submission -> TrackWithStats {
    sub =>
      var stats := GetOr(lookup, SubmissionKey(sub), VoteStats(0, 0));
      TrackWithStats(sub, stats.points, stats.voters, DisplayName(names, sub.submitterId), EmbedUrl(sub.spotifyUri))
  }

  /** `getAllTracks`. */
  function AllTracks(subs: seq<Submission>, votes: seq<Vote>, competitors: seq<Competitor>): seq<TrackWithStats> {
    Map(subs, TrackFor(StatsLookup(votes), NameMap(competitors)))
  }

  function TrackScore(t: TrackWithStats): real {
    t.points as real
  }

  /** The default `limit` of `getTopTracks`. */
  const DefaultLimit := 20

  /** `getTopTracks(limit)`: a negative limit counts back from the end, as
      `slice` does. */
  function TopTracks(subs: seq<Submission>, votes: seq<Vote>, competitors: seq<Competitor>, limit: int): seq<TrackWithStats> {
    Take(StableSort(AllTracks(subs, votes, competitors), TrackScore, true), limit)
  }

  /** One track per submission, in submission order, each with the points
      and the number of the votes on its key, its submitter's name and the
      player link for its URI. */
  lemma AllTracksFacts(subs: seq<Submission>, votes: seq<Vote>, competitors: seq<Competitor>, i: nat)
    requires i < |subs|
    ensures |AllTracks(subs, votes, competitors)| == |subs|
    ensures var t := AllTracks(subs, votes, competitors)[i];
            var on := VotesOn(votes, SubmissionKey(subs[i]));
            t.submission == subs[i] &&
            t.points == Total(on, Points) && t.points == SumFor(votes, TrackOf, Points, SubmissionKey(subs[i])) &&
            t.voterCount == |on| &&
            t.submitterName == DisplayName(NameMap(competitors), subs[i].submitterId) &&
            t.spotifyEmbedUrl == EmbedUrl(subs[i].spotifyUri)
  {
    StatsOf(votes, SubmissionKey(subs[i]));
    PointsAgree(votes, SubmissionKey(subs[i]));
  }

  /** The top tracks come in descending order of points, at most `limit`
      of them (all when there are fewer), each a track of the full list,
      and no track left out has more points than one that was kept. */
  lemma TopTracksFacts(subs: seq<Submission>, votes: seq<Vote>, competitors: seq<Competitor>, limit: nat)
    ensures var top := TopTracks(subs, votes, competitors, limit);
            |top| == (if limit <= |subs| then limit else |subs|) &&
            Ordered(top, TrackScore, true) &&
            multiset(top) <= multiset(AllTracks(subs, votes, competitors)) &&
            forall t, j | t in AllTracks(subs, votes, competitors) && t !in top && 0 <= j < |top| ::
              t.points <= top[j].points
  {
    var all := AllTracks(subs, votes, competitors);
    SortedTop(all, TrackScore, true, limit);
  }

  /** The top `n` tracks start the top `n + 1`. */
  lemma TopTracksGrow(subs: seq<Submission>, votes: seq<Vote>, competitors: seq<Competitor>, n: nat)
    ensures TopTracks(subs, votes, competitors, n) <= TopTracks(subs, votes, competitors, n + 1)
  {
  }

  /** `getAllTracks`, with its loop over the votes. */
  method GetAllTracks(subs: seq<Submission>, votes: seq<Vote>, competitors: seq<Competitor>) returns (tracks: seq<TrackWithStats>)
    ensures tracks == AllTracks(subs, votes, competitors)
  {
    var names := IndexLoop([], competitors, CompetitorId, CompetitorName);
    var lookup := StatsLoop(votes);
    tracks := Map(subs, TrackFor(lookup, names));
  }

  /** `getTopTracks`, with its loop over the votes. */
  method GetTopTracks(subs: seq<Submission>, votes: seq<Vote>, competitors: seq<Competitor>, limit: int) returns (tracks: seq<TrackWithStats>)
    ensures tracks == TopTracks(subs, votes, competitors, limit)
  {
    var all := GetAllTracks(subs, votes, competitors);
    tracks := Take(StableSort(all, TrackScore, true), limit);
  }
}
