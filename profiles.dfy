/**
 * `getSubmitterProfiles` of `musicAnalytics.ts`: for every competitor the
 * artists they submitted, the genres of those artists, the genres of the
 * tracks they gave points to, and their personality.
 *
 * A profile is created for a competitor by their first submission or by
 * their first counted vote: a vote counts when its points are positive and
 * its key (track and round) belongs to a submission.
 */
module Profiles {
  import opened Options
  import opened Sequences
  import opened OrderedMaps
  import opened Sorting
  import opened Text
  import opened Records
  import opened Standings
  import opened Accumulators
  import opened Genres
  import opened Library
  import opened Personalities

  function ArtistsField(s: Submission): string {
    s.artists
  }

  /** `submissionLookup`: the `artists` field of the last submission on
      each key. */
  function SubmissionArtists(subs: seq<Submission>): OrderedMap<TrackKey, string> {
    Index([], subs, SubmissionKey, ArtistsField)
  }

  /** The entry of `profileMap`: the artist set in insertion order, the
      genre counts, the number of submissions, and the points given per
      genre. */
  datatype Profile = Profile(artists: seq<string>, genres: OrderedMap<string, int>, count: int, votingGenres: OrderedMap<string, int>)

  function NewProfile(id: string): Profile {
    Profile([], [], 0, [])
  }

  function SomeGenre(g: string): Option<string> {
    Some(g)
  }

  /** Every genre label weighs the same amount. */
  function Weight(w: int): string -> int {
    g => w
  }

  /** One artist of a submission: `profile.artists.add(artist)` and one
      more count for each of the artist's genres. */
  function Added(table: GenreTable, p: Profile, a: string): Profile {
    p.(artists := if a in p.artists then p.artists else p.artists + [a],
       genres := Tally(p.genres, InferGenre(table, a), SomeGenre, Weight(1)))
  }

  function AddArtist(table: GenreTable): (Profile, string) -> Profile {
    (p: Profile, a: string) => Added(table, p, a)
  }

  /** One submission: `profile.count++` and each artist part added. */
  function Submitted(table: GenreTable, p: Profile, s: Submission): Profile {
    Fold(p.(count := p.count + 1), ArtistNames(s), AddArtist(table))
  }

  function SubmitStep(table: GenreTable): (Profile, Submission) -> Profile {
    (p: Profile, s: Submission) => Submitted(table, p, s)
  }

  /** One artist of a voted track: its genres gain the vote's points. */
  function VotedFor(table: GenreTable, points: int, p: Profile, a: string): Profile {
    p.(votingGenres := Tally(p.votingGenres, InferGenre(table, a), SomeGenre, Weight(points)))
  }

  function VoteArtist(table: GenreTable, points: int): (Profile, string) -> Profile {
    (p: Profile, a: string) => VotedFor(table, points, p, a)
  }

  /** The artist parts of the submission a vote is on. */
  function VotedArtists(lookup: OrderedMap<TrackKey, string>, v: Vote): seq<string> {
    Map(Split(GetOr(lookup, VoteKey(v), ""), {','}), Trim)
  }

  /** One counted vote: each artist part of the track it is on. */
  function Voted(lookup: OrderedMap<TrackKey, string>, table: GenreTable, p: Profile, v: Vote): Profile {
    Fold(p, VotedArtists(lookup, v), VoteArtist(table, v.points))
  }

  function VoteStep(lookup: OrderedMap<TrackKey, string>, table: GenreTable): (Profile, Vote) -> Profile {
    (p: Profile, v: Vote) => Voted(lookup, table, p, v)
  }

  /** `if (vote.points <= 0) return` and `if (!submission) return`. */
  predicate Counted(lookup: OrderedMap<TrackKey, string>, v: Vote) {
    v.points > 0 && HasKey(lookup, VoteKey(v))
  }

  function CountedBy(lookup: OrderedMap<TrackKey, string>): Vote -> bool {
    v => Counted(lookup, v)
  }

  function VoterOf(v: Vote): string {
    v.voterId
  }

  /** The profiles after the submissions. */
  function SubmissionProfiles(subs: seq<Submission>, table: GenreTable): OrderedMap<string, Profile> {
    Accumulate([], subs, SubmitterOf, NewProfile, SubmitStep(table))
  }

  /** `profileMap`: the submissions, then the counted votes. */
  function ProfileMap(subs: seq<Submission>, votes: seq<Vote>, table: GenreTable): OrderedMap<string, Profile> {
    var lookup := SubmissionArtists(subs);
    Accumulate(SubmissionProfiles(subs, table), Filter(votes, CountedBy(lookup)), VoterOf, NewProfile, VoteStep(lookup, table))
  }

  /** `profileMap.get(id)`, with a competitor without a profile read as an
      empty one, as every field of the result does. */
  function ProfileOf(m: OrderedMap<string, Profile>, id: string): Profile {
    GetOr(m, id, NewProfile(id))
  }

  // ---------------------------------------------------------------------
  // What the folds do

  /** Some submission of the run credits the artist. */
  predicate ArtistIn(subs: seq<Submission>, x: string) {
    exists i | 0 <= i < |subs| :: x in ArtistNames(subs[i])
  }

  lemma {:induction false} AddArtistsFold(p: Profile, names: seq<string>, table: GenreTable)
    ensures Fold(p, names, AddArtist(table)).count == p.count
    ensures Fold(p, names, AddArtist(table)).votingGenres == p.votingGenres
    ensures NoDuplicates(p.artists) ==> NoDuplicates(Fold(p, names, AddArtist(table)).artists)
    decreases |names|
  {
    if names != [] {
      var q := Added(table, p, names[0]);
      AddArtistsFold(q, names[1..], table);
      if NoDuplicates(p.artists) && names[0] !in p.artists {
        assert q.artists == p.artists + [names[0]];
        forall i, j | 0 <= i < j < |q.artists| ensures q.artists[i] != q.artists[j] {
          if j == |p.artists| { assert q.artists[i] == p.artists[i]; }
        }
      }
    }
  }

  lemma {:induction false} AddArtistsHas(p: Profile, names: seq<string>, table: GenreTable, x: string)
    ensures x in Fold(p, names, AddArtist(table)).artists <==> x in p.artists || x in names
    decreases |names|
  {
    if names != [] {
      AddArtistsHas(Added(table, p, names[0]), names[1..], table, x);
      assert x in names <==> x == names[0] || x in names[1..];
    }
  }

  /** One submission adds one to the count, keeps the voting genres and
      adds only artists not listed yet. */
  lemma SubmittedFacts(table: GenreTable, p: Profile, s: Submission)
    ensures Submitted(table, p, s).count == p.count + 1
    ensures Submitted(table, p, s).votingGenres == p.votingGenres
    ensures NoDuplicates(p.artists) ==> NoDuplicates(Submitted(table, p, s).artists)
  {
    var names := ArtistNames(s);
    AddArtistsFold(p.(count := p.count + 1), names, table);
    assert Submitted(table, p, s) == Fold(p.(count := p.count + 1), names, AddArtist(table));
  }

  lemma SubmitFold(p: Profile, subs: seq<Submission>, table: GenreTable)
    ensures Fold(p, subs, SubmitStep(table)).count == p.count + |subs|
    ensures Fold(p, subs, SubmitStep(table)).votingGenres == p.votingGenres
    ensures NoDuplicates(p.artists) ==> NoDuplicates(Fold(p, subs, SubmitStep(table)).artists)
  {
    var step := SubmitStep(table);
    forall w: Profile, x: Submission
      ensures step(w, x).count == w.count + 1
      ensures step(w, x).votingGenres == w.votingGenres
      ensures NoDuplicates(w.artists) ==> NoDuplicates(step(w, x).artists)
    {
      SubmittedFacts(table, w, x);
    }
    FoldCount(p, subs, step, (w: Profile) => w.count);
    FoldKeeps(p, subs, step, (w: Profile) => w.votingGenres == p.votingGenres);
    if NoDuplicates(p.artists) {
      FoldKeeps(p, subs, step, (w: Profile) => NoDuplicates(w.artists));
    }
  }

  lemma ArtistInCons(subs: seq<Submission>, x: string)
    requires subs != []
    ensures ArtistIn(subs, x) <==> x in ArtistNames(subs[0]) || ArtistIn(subs[1..], x)
  {
    if ArtistIn(subs, x) {
      var i :| 0 <= i < |subs| && x in ArtistNames(subs[i]);
      if i > 0 { assert subs[i] == subs[1..][i - 1]; }
    }
    if ArtistIn(subs[1..], x) {
      var i :| 0 <= i < |subs[1..]| && x in ArtistNames(subs[1..][i]);
      assert subs[1..][i] == subs[i + 1];
    }
  }

  lemma {:induction false} SubmitFoldHas(p: Profile, subs: seq<Submission>, table: GenreTable, x: string)
    ensures x in Fold(p, subs, SubmitStep(table)).artists <==> x in p.artists || ArtistIn(subs, x)
    decreases |subs|
  {
    if subs != [] {
      var q := Submitted(table, p, subs[0]);
      assert SubmitStep(table)(p, subs[0]) == q;
      assert Fold(p, subs, SubmitStep(table)) == Fold(q, subs[1..], SubmitStep(table));
      AddArtistsHas(p.(count := p.count + 1), ArtistNames(subs[0]), table, x);
      assert x in q.artists <==> x in p.artists || x in ArtistNames(subs[0]);
      SubmitFoldHas(q, subs[1..], table, x);
      ArtistInCons(subs, x);
    }
  }

  lemma {:induction false} VoteArtistsFold(p: Profile, names: seq<string>, table: GenreTable, points: int)
    ensures Fold(p, names, VoteArtist(table, points)).count == p.count
    ensures Fold(p, names, VoteArtist(table, points)).artists == p.artists
    ensures Fold(p, names, VoteArtist(table, points)).genres == p.genres
    decreases |names|
  {
    if names != [] {
      VoteArtistsFold(VotedFor(table, points, p, names[0]), names[1..], table, points);
    }
  }

  lemma {:induction false} VoteFold(p: Profile, votes: seq<Vote>, lookup: OrderedMap<TrackKey, string>, table: GenreTable)
    ensures Fold(p, votes, VoteStep(lookup, table)).count == p.count
    ensures Fold(p, votes, VoteStep(lookup, table)).artists == p.artists
    ensures Fold(p, votes, VoteStep(lookup, table)).genres == p.genres
    decreases |votes|
  {
    if votes != [] {
      var v := votes[0];
      VoteArtistsFold(p, VotedArtists(lookup, v), table, v.points);
      VoteFold(Voted(lookup, table, p, v), votes[1..], lookup, table);
    }
  }

  /** The votes of a competitor that count. */
  function CountedVotesOf(subs: seq<Submission>, votes: seq<Vote>, id: string): seq<Vote> {
    Filter(Filter(votes, CountedBy(SubmissionArtists(subs))), KeyIs(VoterOf, id))
  }

  /** A competitor's profile is the empty one updated by their submissions,
      then by their counted votes. */
  lemma ProfileSteps(subs: seq<Submission>, votes: seq<Vote>, table: GenreTable, id: string)
    ensures ProfileOf(ProfileMap(subs, votes, table), id) ==
            Fold(Fold(NewProfile(id), Filter(subs, KeyIs(SubmitterOf, id)), SubmitStep(table)),
                 CountedVotesOf(subs, votes, id), VoteStep(SubmissionArtists(subs), table))
  {
    var lookup := SubmissionArtists(subs);
    var m1 := SubmissionProfiles(subs, table);
    AccumulateGet([], subs, SubmitterOf, NewProfile, SubmitStep(table), id);
    AccumulateGet(m1, Filter(votes, CountedBy(lookup)), VoterOf, NewProfile, VoteStep(lookup, table), id);
  }

  /** A competitor's profile: one count per submission of theirs, the
      distinct artists those submissions credit, and no points given to
      any genre unless some vote of theirs counts. */
  lemma ProfileFacts(subs: seq<Submission>, votes: seq<Vote>, table: GenreTable, id: string)
    ensures var p := ProfileOf(ProfileMap(subs, votes, table), id);
            var mine := Filter(subs, KeyIs(SubmitterOf, id));
            p.count == |mine| &&
            NoDuplicates(p.artists) &&
            (CountedVotesOf(subs, votes, id) == [] ==> p.votingGenres == [])
  {
    ProfileSteps(subs, votes, table, id);
    var mine := Filter(subs, KeyIs(SubmitterOf, id));
    SubmitFold(NewProfile(id), mine, table);
    VoteFold(Fold(NewProfile(id), mine, SubmitStep(table)), CountedVotesOf(subs, votes, id), SubmissionArtists(subs), table);
  }

  /** The artists of a profile are those some submission of the competitor
      credits. */
  lemma ProfileArtists(subs: seq<Submission>, votes: seq<Vote>, table: GenreTable, id: string, x: string)
    ensures x in ProfileOf(ProfileMap(subs, votes, table), id).artists <==>
            ArtistIn(Filter(subs, KeyIs(SubmitterOf, id)), x)
  {
    ProfileSteps(subs, votes, table, id);
    var mine := Filter(subs, KeyIs(SubmitterOf, id));
    SubmitFoldHas(NewProfile(id), mine, table, x);
    VoteFold(Fold(NewProfile(id), mine, SubmitStep(table)), CountedVotesOf(subs, votes, id), SubmissionArtists(subs), table);
  }
  // ---------------------------------------------------------------------
  // The profile of each competitor

  function EntryCount(e: (string, int)): real {
    e.1 as real
  }

  /** `[...genres.entries()].sort((a, b) => b[1] - a[1])`. */
  function RankedGenres(genres: OrderedMap<string, int>): seq<(string, int)> {
    StableSort(genres, EntryCount, true)
  }

  /** `Math.round((count / total) * 100)` on exact numbers, or 0 without
      any count. */
  function Percentage(count: int, total: int): int {
    if total > 0 then (200 * count + total) / (2 * total) else 0
  }

  /** A genre of the breakdown with its count and its rounded share. */
  datatype GenreShare = GenreShare(genre: string, count: int, percentage: int)

  function ShareOf(total: int): ((string, int)) -> GenreShare {
    (e: (string, int)) => GenreShare(e.0, e.1, Percentage(e.1, total))
  }

  /** `genreBreakdown`: the six most counted genres with their shares of
      all genre counts. */
  function Breakdown(genres: OrderedMap<string, int>): seq<GenreShare> {
    Map(Take(RankedGenres(genres), 6), ShareOf(Sum(genres)))
  }

  function ShareGenre(g: GenreShare): string {
    g.genre
  }

  /** `topGenres`. */
  function TopGenres(breakdown: seq<GenreShare>): seq<string> {
    Map(Take(breakdown, 3), ShareGenre)
  }

  datatype GenrePoints = GenrePoints(genre: string, pointsGiven: int)

  function PointsEntry(e: (string, int)): GenrePoints {
    GenrePoints(e.0, e.1)
  }

  /** `votingGenrePreference`: the five genres given the most points. */
  function VotingPreference(votingGenres: OrderedMap<string, int>): seq<GenrePoints> {
    Map(Take(StableSort(votingGenres, EntryCount, true), 5), PointsEntry)
  }

  function CountEntry(e: (string, int)): GenreCount {
    GenreCount(e.0, e.1)
  }

  /** The first pass: the six most counted genres, without shares. */
  function CandidateOf(m: OrderedMap<string, Profile>, c: Competitor): Candidate {
    Candidate(c.id, Map(Take(RankedGenres(ProfileOf(m, c.id).genres), 6), CountEntry))
  }

  function CandidateFor(m: OrderedMap<string, Profile>): Competitor -> Candidate {
    (c: Competitor) => CandidateOf(m, c)
  }

  /** `SubmitterMusicProfile`. */
  datatype SubmitterProfile = SubmitterProfile(
    competitorId: string, competitorName: string, uniqueArtists: int, topArtists: seq<string>,
    submissionCount: int, genreBreakdown: seq<GenreShare>, topGenres: seq<string>,
    votingGenrePreference: seq<GenrePoints>, personality: string, personalityEmoji: string)

  /** The second pass over the competitors. */
  function SummaryOf(m: OrderedMap<string, Profile>, assignments: OrderedMap<string, Assignment>, c: Competitor): SubmitterProfile {
    var p := ProfileOf(m, c.id);
    var breakdown := Breakdown(p.genres);
    var a := GetOr(assignments, c.id, MusicLover);
    SubmitterProfile(c.id, c.name, |p.artists|, Take(p.artists, 5), p.count, breakdown, TopGenres(breakdown),
                     VotingPreference(p.votingGenres), a.personality, a.emoji)
  }

  function ProfileFor(m: OrderedMap<string, Profile>, assignments: OrderedMap<string, Assignment>): Competitor -> SubmitterProfile {
    (c: Competitor) => SummaryOf(m, assignments, c)
  }

  function ProfileCount(p: SubmitterProfile): real {
    p.submissionCount as real
  }

  /** The personalities handed out for the competitors' genre breakdowns. */
  function HandedOut(subs: seq<Submission>, votes: seq<Vote>, competitors: seq<Competitor>, table: GenreTable,
                         pool: seq<Personality>): OrderedMap<string, Assignment> {
    AssignUnique(pool, Map(competitors, CandidateFor(ProfileMap(subs, votes, table))))
  }

  /** `getSubmitterProfiles`: one profile per competitor, most submissions
      first. */
  function SubmitterProfiles(subs: seq<Submission>, votes: seq<Vote>, competitors: seq<Competitor>, table: GenreTable,
                             pool: seq<Personality>): seq<SubmitterProfile> {
    var m := ProfileMap(subs, votes, table);
    StableSort(Map(competitors, ProfileFor(m, HandedOut(subs, votes, competitors, table, pool))), ProfileCount, true)
  }

  // ---------------------------------------------------------------------
  // Facts about the profiles

  /** `pct` is the whole percentage nearest to `count / total`, a half
      rounding up: `count / total * 100 - 1/2 <= pct < count / total * 100 + 1/2`. */
  predicate Rounded(count: int, total: int, pct: int) {
    -total <= 2 * (100 * count - pct * total) < total
  }

  lemma MulMono(a: int, b: int, c: int)
    requires a <= b && c > 0
    ensures a * c <= b * c
  {
  }

  /** The rounded share is the whole percentage nearest to the exact one,
      halves rounding up, and a count within the total gives 0 to 100. */
  lemma PercentageFacts(count: int, total: int)
    requires 0 <= count <= total && total > 0
    ensures Rounded(count, total, Percentage(count, total))
    ensures 0 <= Percentage(count, total) <= 100
  {
    var n := 200 * count + total;
    var d := 2 * total;
    var q := n / d;
    var r := n % d;
    assert n == d * q + r && 0 <= r < d;
    var qt := q * total;
    assert d * q == 2 * qt;
    assert 2 * (100 * count - qt) == r - total;
    if q < 0 {
      MulMono(q, -1, total);
    }
    if q > 100 {
      MulMono(101, q, total);
    }
  }

  /** Without any count every share is 0. */
  lemma PercentageNoTotal(count: int)
    ensures Percentage(count, 0) == 0
  {
  }

  lemma {:induction false} EntryAtMostSum(m: OrderedMap<string, int>, i: nat)
    requires forall j | 0 <= j < |m| :: m[j].1 >= 0
    requires i < |m|
    ensures 0 <= m[i].1 <= Sum(m)
    decreases |m|
  {
    if i > 0 {
      EntryAtMostSum(m[1..], i - 1);
      assert m[1..][i - 1] == m[i];
    } else {
      ZeroSumBelow(m[1..]);
    }
  }

  lemma {:induction false} ZeroSumBelow(m: OrderedMap<string, int>)
    requires forall j | 0 <= j < |m| :: m[j].1 >= 0
    ensures Sum(m) >= 0
    decreases |m|
  {
    if m != [] {
      ZeroSumBelow(m[1..]);
    }
  }

  /** The genre breakdown: at most six genres, all of them when there are
      that few, most counted first, and no genre left out counted more
      than one kept. */
  lemma BreakdownFacts(genres: OrderedMap<string, int>)
    ensures var b := Breakdown(genres);
            |b| == (if |genres| < 6 then |genres| else 6) &&
            (forall i, j | 0 <= i < j < |b| :: b[i].count >= b[j].count) &&
            (forall e, i | e in genres && e !in Take(RankedGenres(genres), 6) && 0 <= i < |b| :: e.1 <= b[i].count)
  {
    var top := Take(RankedGenres(genres), 6);
    var total := Sum(genres);
    SortedTop(genres, EntryCount, true, 6);
    var b := Breakdown(genres);
    forall i, j | 0 <= i < j < |b| ensures b[i].count >= b[j].count {
      assert b[i] == ShareOf(total)(top[i]) && b[j] == ShareOf(total)(top[j]);
      assert Before(EntryCount, true, top[i], top[j]);
    }
    forall e, i | e in genres && e !in top && 0 <= i < |b| ensures e.1 <= b[i].count {
      assert b[i] == ShareOf(total)(top[i]);
      assert Before(EntryCount, true, top[i], e);
    }
  }

  /** Every genre of the breakdown is a counted genre with its count and
      its share of all counts, rounded to the nearest whole percent. */
  lemma BreakdownEntry(genres: OrderedMap<string, int>, i: nat)
    requires forall j | 0 <= j < |genres| :: genres[j].1 >= 0
    requires i < |Breakdown(genres)|
    ensures var g := Breakdown(genres)[i];
            (g.genre, g.count) in genres &&
            0 <= g.percentage <= 100 &&
            (Sum(genres) > 0 ==> Rounded(g.count, Sum(genres), g.percentage))
  {
    var top := Take(RankedGenres(genres), 6);
    var total := Sum(genres);
    var e := top[i];
    assert Breakdown(genres)[i] == ShareOf(total)(e);
    assert ShareOf(total)(e) == GenreShare(e.0, e.1, Percentage(e.1, total));
    SortedTopElement(genres, EntryCount, true, 6, e);
    EntryInSum(genres, e);
    if total > 0 {
      PercentageFacts(e.1, total);
    }
  }

  /** A count of the map lies between zero and the sum of all counts. */
  lemma EntryInSum(m: OrderedMap<string, int>, e: (string, int))
    requires forall j | 0 <= j < |m| :: m[j].1 >= 0
    requires e in m
    ensures 0 <= e.1 <= Sum(m)
  {
    var k :| 0 <= k < |m| && m[k] == e;
    EntryAtMostSum(m, k);
  }

  /** The top genres are the first three of the breakdown. */
  lemma TopGenresFacts(breakdown: seq<GenreShare>)
    ensures |TopGenres(breakdown)| == (if |breakdown| < 3 then |breakdown| else 3)
    ensures forall i | 0 <= i < |TopGenres(breakdown)| :: TopGenres(breakdown)[i] == breakdown[i].genre
  {
  }

  /** The voting preference: at most five genres, each with the points the
      competitor's counted votes gave it, most points first. */
  lemma VotingPreferenceFacts(votingGenres: OrderedMap<string, int>)
    ensures var v := VotingPreference(votingGenres);
            |v| == (if |votingGenres| < 5 then |votingGenres| else 5) &&
            (forall i | 0 <= i < |v| :: (v[i].genre, v[i].pointsGiven) in votingGenres) &&
            (forall i, j | 0 <= i < j < |v| :: v[i].pointsGiven >= v[j].pointsGiven)
  {
    var top := Take(StableSort(votingGenres, EntryCount, true), 5);
    SortedTop(votingGenres, EntryCount, true, 5);
    var v := VotingPreference(votingGenres);
    forall i | 0 <= i < |v| ensures (v[i].genre, v[i].pointsGiven) in votingGenres {
      assert v[i] == PointsEntry(top[i]);
      SortedTopElement(votingGenres, EntryCount, true, 5, top[i]);
    }
    forall i, j | 0 <= i < j < |v| ensures v[i].pointsGiven >= v[j].pointsGiven {
      assert v[i] == PointsEntry(top[i]) && v[j] == PointsEntry(top[j]);
      assert Before(EntryCount, true, top[i], top[j]);
    }
  }

  // ---------------------------------------------------------------------
  // The genre counts of a profile

  /** Genre counts are never negative. */
  predicate CountsNonNegative(g: OrderedMap<string, int>) {
    forall i | 0 <= i < |g| :: g[i].1 >= 0
  }

  function GenresCounted(p: Profile): bool {
    CountsNonNegative(p.genres)
  }

  lemma AddedCounts(table: GenreTable, p: Profile, a: string)
    requires CountsNonNegative(p.genres)
    ensures CountsNonNegative(Added(table, p, a).genres)
  {
    TallyNonNegative(p.genres, InferGenre(table, a), SomeGenre, Weight(1));
  }

  lemma AddArtistsCounts(table: GenreTable, p: Profile, names: seq<string>)
    requires CountsNonNegative(p.genres)
    ensures CountsNonNegative(Fold(p, names, AddArtist(table)).genres)
  {
    forall w: Profile, a: string | GenresCounted(w) ensures GenresCounted(AddArtist(table)(w, a)) {
      AddedCounts(table, w, a);
    }
    FoldKeeps(p, names, AddArtist(table), GenresCounted);
  }

  lemma SubmittedCounts(table: GenreTable, p: Profile, s: Submission)
    requires CountsNonNegative(p.genres)
    ensures CountsNonNegative(Submitted(table, p, s).genres)
  {
    var names := ArtistNames(s);
    AddArtistsCounts(table, p.(count := p.count + 1), names);
    assert Submitted(table, p, s) == Fold(p.(count := p.count + 1), names, AddArtist(table));
  }

  /** Every genre count of a profile is at least zero. */
  lemma ProfileCounts(subs: seq<Submission>, votes: seq<Vote>, table: GenreTable, id: string)
    ensures CountsNonNegative(ProfileOf(ProfileMap(subs, votes, table), id).genres)
  {
    ProfileSteps(subs, votes, table, id);
    var mine := Filter(subs, KeyIs(SubmitterOf, id));
    forall w: Profile, x: Submission | GenresCounted(w) ensures GenresCounted(SubmitStep(table)(w, x)) {
      SubmittedCounts(table, w, x);
    }
    FoldKeeps(NewProfile(id), mine, SubmitStep(table), GenresCounted);
    VoteFold(Fold(NewProfile(id), mine, SubmitStep(table)), CountedVotesOf(subs, votes, id), SubmissionArtists(subs), table);
  }

  // ---------------------------------------------------------------------
  // Facts about the summaries

  /** A competitor's summary: their id and name, one submission counted
      per submission of theirs, the first five of their distinct artists,
      and the first three genres of the breakdown. */
  lemma SummaryFields(subs: seq<Submission>, votes: seq<Vote>, table: GenreTable,
                      assignments: OrderedMap<string, Assignment>, c: Competitor)
    ensures var m := ProfileMap(subs, votes, table);
            var s := SummaryOf(m, assignments, c);
            var p := ProfileOf(m, c.id);
            s.competitorId == c.id && s.competitorName == c.name &&
            s.submissionCount == |Filter(subs, KeyIs(SubmitterOf, c.id))| &&
            s.uniqueArtists == |p.artists| && NoDuplicates(p.artists) &&
            |s.topArtists| == (if |p.artists| < 5 then |p.artists| else 5) &&
            (forall i | 0 <= i < |s.topArtists| :: s.topArtists[i] == p.artists[i]) &&
            |s.topGenres| == (if |s.genreBreakdown| < 3 then |s.genreBreakdown| else 3) &&
            (forall i | 0 <= i < |s.topGenres| :: s.topGenres[i] == s.genreBreakdown[i].genre)
  {
    var m := ProfileMap(subs, votes, table);
    ProfileFacts(subs, votes, table, c.id);
    var s := SummaryOf(m, assignments, c);
    forall i | 0 <= i < |s.topGenres| ensures s.topGenres[i] == s.genreBreakdown[i].genre {
      assert s.topGenres[i] == ShareGenre(Take(s.genreBreakdown, 3)[i]);
    }
  }

  /** Every genre of a summary's breakdown is one of the competitor's
      genres with its count, and its percentage is the count's share of
      all their genre counts, rounded to the nearest whole percent. */
  lemma SummaryBreakdown(subs: seq<Submission>, votes: seq<Vote>, table: GenreTable,
                         assignments: OrderedMap<string, Assignment>, c: Competitor, i: nat)
    requires i < |SummaryOf(ProfileMap(subs, votes, table), assignments, c).genreBreakdown|
    ensures var p := ProfileOf(ProfileMap(subs, votes, table), c.id);
            var g := SummaryOf(ProfileMap(subs, votes, table), assignments, c).genreBreakdown[i];
            (g.genre, g.count) in p.genres && 0 <= g.count && 0 <= g.percentage <= 100 &&
            (Sum(p.genres) > 0 ==> Rounded(g.count, Sum(p.genres), g.percentage))
  {
    var p := ProfileOf(ProfileMap(subs, votes, table), c.id);
    ProfileCounts(subs, votes, table, c.id);
    BreakdownEntry(p.genres, i);
    var g := Breakdown(p.genres)[i];
    var k :| 0 <= k < |p.genres| && p.genres[k] == (g.genre, g.count);
  }

  lemma CandidateIds(m: OrderedMap<string, Profile>, competitors: seq<Competitor>, c: Competitor)
    requires c in competitors
    ensures c.id in Map(Map(competitors, CandidateFor(m)), CandidateId)
  {
    var j :| 0 <= j < |competitors| && competitors[j] == c;
    var cands := Map(competitors, CandidateFor(m));
    assert cands[j] == CandidateOf(m, c);
    assert Map(cands, CandidateId)[j] == c.id;
  }

  /** With a pool whose personalities all differ from the stand-in, every
      competitor's summary shows the personality handed out to them. */
  lemma SummaryPersonality(subs: seq<Submission>, votes: seq<Vote>, competitors: seq<Competitor>, table: GenreTable,
                           pool: seq<Personality>, c: Competitor)
    requires Distinguishable(pool) && c in competitors
    ensures var a := HandedOut(subs, votes, competitors, table, pool);
            var s := SummaryOf(ProfileMap(subs, votes, table), a, c);
            HasKey(a, c.id) &&
            s.personality == Get(a, c.id).value.personality &&
            s.personalityEmoji == Get(a, c.id).value.emoji
  {
    var m := ProfileMap(subs, votes, table);
    CandidateIds(m, competitors, c);
    AssignUniqueFacts(pool, Map(competitors, CandidateFor(m)));
  }

  /** No two competitors share a personality, except the stand-in "The
      Music Lover". */
  lemma UniquePersonalities(subs: seq<Submission>, votes: seq<Vote>, competitors: seq<Competitor>, table: GenreTable,
                            pool: seq<Personality>, c1: Competitor, c2: Competitor)
    requires Distinguishable(pool) && c1 in competitors && c2 in competitors && c1.id != c2.id
    ensures var m := ProfileMap(subs, votes, table);
            var a := HandedOut(subs, votes, competitors, table, pool);
            SummaryOf(m, a, c1).personality == SummaryOf(m, a, c2).personality ==>
            SummaryOf(m, a, c1).personality == MusicLoverName
  {
    var m := ProfileMap(subs, votes, table);
    SummaryPersonality(subs, votes, competitors, table, pool, c1);
    SummaryPersonality(subs, votes, competitors, table, pool, c2);
    AssignUniqueFacts(pool, Map(competitors, CandidateFor(m)));
  }

  /** Membership in the summaries of the competitors. */
  predicate Summarised(subs: seq<Submission>, votes: seq<Vote>, competitors: seq<Competitor>, table: GenreTable,
                       pool: seq<Personality>, s: SubmitterProfile) {
    s in Map(competitors, ProfileFor(ProfileMap(subs, votes, table), HandedOut(subs, votes, competitors, table, pool)))
  }

  /** `getSubmitterProfiles` gives exactly one summary per competitor,
      most submissions first. */
  lemma SubmitterProfilesFacts(subs: seq<Submission>, votes: seq<Vote>, competitors: seq<Competitor>, table: GenreTable,
                               pool: seq<Personality>)
    ensures var r := SubmitterProfiles(subs, votes, competitors, table, pool);
            |r| == |competitors| &&
            (forall i, j | 0 <= i < j < |r| :: r[i].submissionCount >= r[j].submissionCount) &&
            (forall s | s in r :: Summarised(subs, votes, competitors, table, pool, s)) &&
            (forall c | c in competitors ::
               SummaryOf(ProfileMap(subs, votes, table), HandedOut(subs, votes, competitors, table, pool), c) in r)
  {
    var m := ProfileMap(subs, votes, table);
    var a := HandedOut(subs, votes, competitors, table, pool);
    var all := Map(competitors, ProfileFor(m, a));
    var r := SubmitterProfiles(subs, votes, competitors, table, pool);
    assert r == StableSort(all, ProfileCount, true);
    forall i, j | 0 <= i < j < |r| ensures r[i].submissionCount >= r[j].submissionCount {
      assert Before(ProfileCount, true, r[i], r[j]);
    }
    forall s | s in r ensures s in all {
      assert s in multiset(r);
    }
    forall c | c in competitors ensures SummaryOf(m, a, c) in r {
      var j :| 0 <= j < |competitors| && competitors[j] == c;
      assert all[j] == SummaryOf(m, a, c);
      assert all[j] in multiset(all);
    }
  }

  // ---------------------------------------------------------------------
  // The loops of `getSubmitterProfiles`

  /** `sub.artists.split(',').forEach(a => { ...add... })` on one profile. */
  method AddArtistsLoop(table: GenreTable, p0: Profile, names: seq<string>) returns (p: Profile)
    ensures p == Fold(p0, names, AddArtist(table))
  {
    p := p0;
    for i := 0 to |names|
      invariant Fold(p, names[i..], AddArtist(table)) == Fold(p0, names, AddArtist(table))
    {
      var artist := names[i];
      assert names[i..] == [artist] + names[i + 1..];
      FoldCons(p, artist, names[i + 1..], AddArtist(table));
      var genres := TallyLoop(p.genres, InferGenre(table, artist), SomeGenre, Weight(1));
      var artists := if artist in p.artists then p.artists else p.artists + [artist];
      p := Profile(artists, genres, p.count, p.votingGenres);
    }
  }

  /** The points of one vote credited to each artist of the voted track. */
  method VoteArtistsLoop(table: GenreTable, points: int, p0: Profile, names: seq<string>) returns (p: Profile)
    ensures p == Fold(p0, names, VoteArtist(table, points))
  {
    p := p0;
    for i := 0 to |names|
      invariant Fold(p, names[i..], VoteArtist(table, points)) == Fold(p0, names, VoteArtist(table, points))
    {
      var artist := names[i];
      assert names[i..] == [artist] + names[i + 1..];
      FoldCons(p, artist, names[i + 1..], VoteArtist(table, points));
      var voting := TallyLoop(p.votingGenres, InferGenre(table, artist), SomeGenre, Weight(points));
      p := Profile(p.artists, p.genres, p.count, voting);
    }
  }

  /** The body of `submissions.forEach(...)`: create the competitor's
      profile if it is new, count the submission, add its artists. */
  method SubmitOne(m0: OrderedMap<string, Profile>, sub: Submission, table: GenreTable) returns (m: OrderedMap<string, Profile>)
    ensures m == Absorb(m0, sub, SubmitterOf, NewProfile, SubmitStep(table))
  {
    var id := sub.submitterId;
    assert SubmitterOf(sub) == id;
    Upsert(m0, sub, SubmitterOf, NewProfile, SubmitStep(table));
    m := m0;
    if !HasKey(m, id) {
      m := Set(m, id, NewProfile(id));
    }
    var profile := Get(m, id).value;
    var counted := Profile(profile.artists, profile.genres, profile.count + 1, profile.votingGenres);
    var updated := AddArtistsLoop(table, counted, ArtistNames(sub));
    assert counted == profile.(count := profile.count + 1);
    assert updated == Submitted(table, profile, sub);
    m := Set(m, id, updated);
  }

  /** `submissions.forEach(...)`. */
  method SubmissionsLoop(subs: seq<Submission>, table: GenreTable) returns (m: OrderedMap<string, Profile>)
    ensures m == SubmissionProfiles(subs, table)
  {
    m := [];
    for j := 0 to |subs|
      invariant Accumulate(m, subs[j..], SubmitterOf, NewProfile, SubmitStep(table)) == SubmissionProfiles(subs, table)
    {
      AccumulateStep(m, subs, j, SubmitterOf, NewProfile, SubmitStep(table));
      m := SubmitOne(m, subs[j], table);
    }
  }

  /** `votes.forEach(...)`: skip votes without positive points or without
      a submission on their key, else create the voter's profile if it is
      new and credit the points to the genres of the track's artists. */
  method VotesLoop(m0: OrderedMap<string, Profile>, votes: seq<Vote>, lookup: OrderedMap<TrackKey, string>, table: GenreTable)
    returns (m: OrderedMap<string, Profile>)
    ensures m == Accumulate(m0, Filter(votes, CountedBy(lookup)), VoterOf, NewProfile, VoteStep(lookup, table))
  {
    m := m0;
    for j := 0 to |votes|
      invariant Accumulate(m, Filter(votes[j..], CountedBy(lookup)), VoterOf, NewProfile, VoteStep(lookup, table)) ==
                Accumulate(m0, Filter(votes, CountedBy(lookup)), VoterOf, NewProfile, VoteStep(lookup, table))
    {
      var vote := votes[j];
      FilterStep(votes, CountedBy(lookup), j);
      var key := VoteKey(vote);
      var submission := Get(lookup, key);
      if vote.points > 0 && submission.Some? {
        assert CountedBy(lookup)(vote);
        var kept := Filter(votes[j..], CountedBy(lookup));
        assert kept == [vote] + Filter(votes[j + 1..], CountedBy(lookup));
        UpsertAt(m, kept, 0, VoterOf, NewProfile, VoteStep(lookup, table));
        assert kept[1..] == Filter(votes[j + 1..], CountedBy(lookup));
        var id := vote.voterId;
        if !HasKey(m, id) {
          m := Set(m, id, NewProfile(id));
        }
        var profile := Get(m, id).value;
        var names := Map(Split(submission.value, {','}), Trim);
        assert names == VotedArtists(lookup, vote);
        var updated := VoteArtistsLoop(table, vote.points, profile, names);
        assert updated == VoteStep(lookup, table)(profile, vote);
        m := Set(m, id, updated);
      } else {
        assert !CountedBy(lookup)(vote);
      }
    }
  }

  /** `getSubmitterProfiles`, with its loops. */
  method GetSubmitterProfiles(subs: seq<Submission>, votes: seq<Vote>, competitors: seq<Competitor>, table: GenreTable,
                              pool: seq<Personality>) returns (profiles: seq<SubmitterProfile>)
    ensures profiles == SubmitterProfiles(subs, votes, competitors, table, pool)
  {
    var lookup := IndexLoop([], subs, SubmissionKey, ArtistsField);
    var m := SubmissionsLoop(subs, table);
    m := VotesLoop(m, votes, lookup, table);
    var candidates := Map(competitors, CandidateFor(m));
    var assignments := AssignUniquePersonalities(pool, candidates);
    profiles := StableSort(Map(competitors, ProfileFor(m, assignments)), ProfileCount, true);
  }
}
