/**
 * The catalogue statistics of `musicAnalytics.ts`: per credited artist
 * (`getArtistStats`), per album (`getAlbumStats`), per genre
 * (`getGenreStats`) and the headline figures (`getMusicStats`).
 *
 * A submission credits every artist of its comma-separated `artists`
 * field; the points of a track are the summed points of the votes under
 * its key (track and round).
 */
module Library {
  import opened Options
  import opened Sequences
  import opened OrderedMaps
  import opened Sorting
  import opened Text
  import opened Records
  import opened Standings
  import opened Accumulators
  import opened Genres

  // ---------------------------------------------------------------------
  // Lookups shared by the statistics

  function TrackOf(v: Vote): Option<TrackKey> {
    Some(VoteKey(v))
  }

  /** `pointsLookup`: the summed points of the votes on each key. */
  function PointsByTrack(votes: seq<Vote>): OrderedMap<TrackKey, int> {
    Tally([], votes, TrackOf, Points)
  }

  /** `pointsLookup.get(key) || 0`. */
  function TrackPoints(lookup: OrderedMap<TrackKey, int>, s: Submission): int {
    GetOr(lookup, SubmissionKey(s), 0)
  }

  /** The points of a track are those of the votes cast on its key. */
  lemma TrackPointsSum(votes: seq<Vote>, s: Submission)
    ensures TrackPoints(PointsByTrack(votes), s) == SumFor(votes, TrackOf, Points, SubmissionKey(s))
  {
    TallyGet([], votes, TrackOf, Points, SubmissionKey(s));
  }

  function CompetitorName(c: Competitor): string {
    c.name
  }

  /** `new Map(competitors.map(c => [c.id, c.name]))`. */
  function NameMap(competitors: seq<Competitor>): OrderedMap<string, string> {
    Index([], competitors, CompetitorId, CompetitorName)
  }

  /** `competitorMap.get(id) || 'Unknown'`: an empty name reads as unknown. */
  function DisplayName(names: OrderedMap<string, string>, id: string): string {
    var n := GetOr(names, id, "");
    if n == "" then "Unknown" else n
  }

  /** The name shown for an id is that of the last competitor listed with
      the id, unless there is none or it is empty. */
  lemma DisplayNameOf(competitors: seq<Competitor>, id: string)
    ensures DisplayName(NameMap(competitors), id) ==
            match LastWith(competitors, CompetitorId, id)
            case Some(c) => if c.name == "" then "Unknown" else c.name
            case None => "Unknown"
  {
    IndexGet([], competitors, CompetitorId, CompetitorName, id);
  }

  /** `sub.artists.split(',').map(a => a.trim())`. */
  function ArtistNames(s: Submission): seq<string> {
    Map(Split(s.artists, {','}), Trim)
  }

  // ---------------------------------------------------------------------
  // getArtistStats

  /** One credited artist of one submission, with the track's points and
      the submitter's display name. */
  datatype Credit = Credit(artist: string, points: int, submitter: string)

  function CreditFor(points: int, submitter: string): string -> Credit {
    a => Credit(a, points, submitter)
  }

  /** The credits of one submission, one per artist part, in order. */
  function CreditsOf(s: Submission, lookup: OrderedMap<TrackKey, int>, names: OrderedMap<string, string>): seq<Credit> {
    Map(ArtistNames(s), CreditFor(TrackPoints(lookup, s), DisplayName(names, s.submitterId)))
  }

  /** The credits of all submissions, in submission order. */
  function Credits(subs: seq<Submission>, lookup: OrderedMap<TrackKey, int>, names: OrderedMap<string, string>): seq<Credit>
    decreases |subs|
  {
    if |subs| == 0 then [] else CreditsOf(subs[0], lookup, names) + Credits(subs[1..], lookup, names)
  }

  lemma CreditsAt(subs: seq<Submission>, i: nat, lookup: OrderedMap<TrackKey, int>, names: OrderedMap<string, string>)
    requires i < |subs|
    ensures Credits(subs[i..], lookup, names) == CreditsOf(subs[i], lookup, names) + Credits(subs[i + 1..], lookup, names)
  {
    assert subs[i..][0] == subs[i];
    assert subs[i..][1..] == subs[i + 1..];
  }

  datatype ArtistStats = ArtistStats(name: string, submissionCount: int, totalPoints: int, submitters: seq<string>, genres: seq<string>)

  function NewArtist(table: GenreTable): string -> ArtistStats {
    a => ArtistStats(a, 0, 0, [], InferGenre(table, a))
  }

  /** `submissionCount++`, `totalPoints += points`, and the submitter
      pushed unless already listed. */
  function CreditArtist(s: ArtistStats, c: Credit): ArtistStats {
    ArtistStats(s.name, s.submissionCount + 1, s.totalPoints + c.points,
                if c.submitter in s.submitters then s.submitters else s.submitters + [c.submitter],
                s.genres)
  }

  function CreditedArtist(c: Credit): string {
    c.artist
  }

  function CreditPoints(c: Credit): int {
    c.points
  }

  /** `artistMap`. */
  function ArtistTotals(subs: seq<Submission>, votes: seq<Vote>, competitors: seq<Competitor>, table: GenreTable): OrderedMap<string, ArtistStats> {
    Accumulate([], Credits(subs, PointsByTrack(votes), NameMap(competitors)), CreditedArtist, NewArtist(table), CreditArtist)
  }

  function ArtistCount(a: ArtistStats): real {
    a.submissionCount as real
  }

  /** `getArtistStats()`: the artists by submission count, most first. */
  function ArtistStatsOf(subs: seq<Submission>, votes: seq<Vote>, competitors: seq<Competitor>, table: GenreTable): seq<ArtistStats> {
    StableSort(Values(ArtistTotals(subs, votes, competitors, table)), ArtistCount, true)
  }

  /** Some credit of the run names submitter `x`. */
  predicate SubmittedBy(cs: seq<Credit>, x: string) {
    exists j | 0 <= j < |cs| :: cs[j].submitter == x
  }

  /** Some credit names artist `k` with submitter `x`. */
  predicate CreditedBy(cs: seq<Credit>, k: string, x: string) {
    exists j | 0 <= j < |cs| :: cs[j].artist == k && cs[j].submitter == x
  }

  lemma SubmittedByCons(cs: seq<Credit>, x: string)
    requires cs != []
    ensures SubmittedBy(cs, x) <==> cs[0].submitter == x || SubmittedBy(cs[1..], x)
  {
    if SubmittedBy(cs, x) {
      var j :| 0 <= j < |cs| && cs[j].submitter == x;
      if j > 0 { assert cs[1..][j - 1].submitter == x; }
    }
    if SubmittedBy(cs[1..], x) {
      var j :| 0 <= j < |cs[1..]| && cs[1..][j].submitter == x;
      assert cs[j + 1].submitter == x;
    }
  }

  /** What a run of credits does to one artist's record. */
  lemma {:induction false} CreditArtistFold(s: ArtistStats, cs: seq<Credit>)
    ensures var r := Fold(s, cs, CreditArtist);
            && r.name == s.name && r.genres == s.genres
            && r.submissionCount == s.submissionCount + |cs|
            && r.totalPoints == s.totalPoints + Total(cs, CreditPoints)
            && (NoDuplicates(s.submitters) ==> NoDuplicates(r.submitters))
            && forall x :: x in r.submitters <==> x in s.submitters || SubmittedBy(cs, x)
    decreases |cs|
  {
    if cs != [] {
      var s' := CreditArtist(s, cs[0]);
      CreditArtistFold(s', cs[1..]);
      forall x | SubmittedBy(cs, x) || SubmittedBy(cs[1..], x)
        ensures SubmittedBy(cs, x) <==> cs[0].submitter == x || SubmittedBy(cs[1..], x)
      {
        SubmittedByCons(cs, x);
      }
      assert SubmittedBy(cs, cs[0].submitter);
    }
  }

  /** The credits filed under an artist are the credits naming that artist. */
  lemma CreditsNaming(cs: seq<Credit>, k: string, x: string)
    ensures SubmittedBy(Filter(cs, KeyIs(CreditedArtist, k)), x) <==> CreditedBy(cs, k, x)
  {
    var f := Filter(cs, KeyIs(CreditedArtist, k));
    if SubmittedBy(f, x) {
      var j :| 0 <= j < |f| && f[j].submitter == x;
      FilterElements(cs, KeyIs(CreditedArtist, k), f[j]);
      var i :| 0 <= i < |cs| && cs[i] == f[j];
      assert CreditedArtist(f[j]) == f[j].artist;
      assert cs[i].artist == k && cs[i].submitter == x;
    }
    if CreditedBy(cs, k, x) {
      var j :| 0 <= j < |cs| && cs[j].artist == k && cs[j].submitter == x;
      assert CreditedArtist(cs[j]) == cs[j].artist;
      FilterKeeps(cs, KeyIs(CreditedArtist, k), cs[j]);
      var i :| 0 <= i < |f| && f[i] == cs[j];
      assert f[i].submitter == x;
    }
  }

  /** Every record of the artist map: it belongs to the name it is filed
      under, carries that name's genres, counts one per credit of the name,
      sums the points of those credits, and lists each submitter who
      credited the name exactly once. */
  lemma ArtistEntry(subs: seq<Submission>, votes: seq<Vote>, competitors: seq<Competitor>, table: GenreTable, i: nat)
    requires i < |ArtistTotals(subs, votes, competitors, table)|
    ensures var credits := Credits(subs, PointsByTrack(votes), NameMap(competitors));
            var e := ArtistTotals(subs, votes, competitors, table)[i];
            var mine := Filter(credits, KeyIs(CreditedArtist, e.0));
            && DistinctKeys(ArtistTotals(subs, votes, competitors, table))
            && e.1.name == e.0 && e.1.genres == InferGenre(table, e.0)
            && e.1.submissionCount == |mine|
            && e.1.totalPoints == Total(mine, CreditPoints)
            && NoDuplicates(e.1.submitters)
            && forall x :: x in e.1.submitters <==> CreditedBy(credits, e.0, x)
  {
    var credits := Credits(subs, PointsByTrack(votes), NameMap(competitors));
    AccumulateEntries(credits, CreditedArtist, NewArtist(table), CreditArtist, i);
    var e := ArtistTotals(subs, votes, competitors, table)[i];
    CreditArtistFold(NewArtist(table)(e.0), Filter(credits, KeyIs(CreditedArtist, e.0)));
    forall x | x in e.1.submitters || CreditedBy(credits, e.0, x)
      ensures x in e.1.submitters <==> CreditedBy(credits, e.0, x)
    {
      CreditsNaming(credits, e.0, x);
    }
  }

  /** Some credit names artist `k`. */
  predicate Credited(credits: seq<Credit>, k: string) {
    exists j | 0 <= j < |credits| :: credits[j].artist == k
  }

  lemma CreditsListed(credits: seq<Credit>, table: GenreTable, k: string)
    ensures HasKey(Accumulate([], credits, CreditedArtist, NewArtist(table), CreditArtist), k) <==> Credited(credits, k)
  {
    AccumulateHasKey([], credits, CreditedArtist, NewArtist(table), CreditArtist, k);
    if Credited(credits, k) {
      var j :| 0 <= j < |credits| && credits[j].artist == k;
      assert CreditedArtist(credits[j]) == k;
    }
    if exists j | 0 <= j < |credits| :: CreditedArtist(credits[j]) == k {
      var j :| 0 <= j < |credits| && CreditedArtist(credits[j]) == k;
      assert credits[j].artist == k;
    }
  }

  /** An artist has a record exactly when some submission credits it. */
  lemma ArtistListed(subs: seq<Submission>, votes: seq<Vote>, competitors: seq<Competitor>, table: GenreTable, k: string)
    ensures HasKey(ArtistTotals(subs, votes, competitors, table), k) <==>
            Credited(Credits(subs, PointsByTrack(votes), NameMap(competitors)), k)
  {
    CreditsListed(Credits(subs, PointsByTrack(votes), NameMap(competitors)), table, k);
  }

  function SubmissionCountOf(a: ArtistStats): int {
    a.submissionCount
  }

  lemma {:induction false} TotalOne<T>(items: seq<T>)
    ensures Total(items, (x: T) => 1) == |items|
    decreases |items|
  {
    if items != [] {
      TotalOne(items[1..]);
    }
  }

  /** The artists' counts add up to the number of credits. */
  lemma ArtistCountsSum(subs: seq<Submission>, votes: seq<Vote>, competitors: seq<Competitor>, table: GenreTable)
    ensures SumBy(ArtistTotals(subs, votes, competitors, table), SubmissionCountOf) ==
            |Credits(subs, PointsByTrack(votes), NameMap(competitors))|
  {
    var credits := Credits(subs, PointsByTrack(votes), NameMap(competitors));
    AccumulateSum([], credits, CreditedArtist, NewArtist(table), CreditArtist, SubmissionCountOf, (c: Credit) => 1);
    TotalOne(credits);
  }

  /** `artists.forEach(artist => ...)` for one submission: each artist's
      record, created on first sight, takes one credit. */
  method CreditArtists(m0: OrderedMap<string, ArtistStats>, artists: seq<string>, points: int, submitter: string, table: GenreTable)
    returns (m: OrderedMap<string, ArtistStats>)
    ensures m == Accumulate(m0, Map(artists, CreditFor(points, submitter)), CreditedArtist, NewArtist(table), CreditArtist)
  {
    ghost var credits := Map(artists, CreditFor(points, submitter));
    m := m0;
    for j := 0 to |artists|
      invariant Accumulate(m, credits[j..], CreditedArtist, NewArtist(table), CreditArtist) ==
                Accumulate(m0, credits, CreditedArtist, NewArtist(table), CreditArtist)
    {
      var artist := artists[j];
      var credit := Credit(artist, points, submitter);
      assert credits[j] == credit;
      assert CreditedArtist(credit) == artist;
      UpsertAt(m, credits, j, CreditedArtist, NewArtist(table), CreditArtist);
      if !HasKey(m, artist) {
        m := Set(m, artist, NewArtist(table)(artist));
      }
      var s := CreditArtist(Get(m, artist).value, credit);
      m := Set(m, artist, s);
    }
  }

  /** `getArtistStats`. */
  method ArtistStatsLoop(subs: seq<Submission>, votes: seq<Vote>, competitors: seq<Competitor>, table: GenreTable)
    returns (stats: seq<ArtistStats>)
    ensures stats == ArtistStatsOf(subs, votes, competitors, table)
    ensures Ordered(stats, ArtistCount, true)
    ensures multiset(stats) == multiset(Values(ArtistTotals(subs, votes, competitors, table)))
  {
    var names := IndexLoop([], competitors, CompetitorId, CompetitorName);
    var lookup := TallyLoop([], votes, TrackOf, Points);
    ghost var all := Credits(subs, lookup, names);
    var m: OrderedMap<string, ArtistStats> := [];
    for i := 0 to |subs|
      invariant Accumulate(m, Credits(subs[i..], lookup, names), CreditedArtist, NewArtist(table), CreditArtist) ==
                Accumulate([], all, CreditedArtist, NewArtist(table), CreditArtist)
    {
      var sub := subs[i];
      var points := GetOr(lookup, SubmissionKey(sub), 0);
      var submitter := DisplayName(names, sub.submitterId);
      CreditsAt(subs, i, lookup, names);
      AccumulateAppend(m, CreditsOf(sub, lookup, names), Credits(subs[i + 1..], lookup, names), CreditedArtist, NewArtist(table), CreditArtist);
      m := CreditArtists(m, ArtistNames(sub), points, submitter, table);
    }
    stats := StableSort(Values(m), ArtistCount, true);
  }

  // ---------------------------------------------------------------------
  // getAlbumStats

  datatype AlbumStats = AlbumStats(name: string, artist: string, submissionCount: int, totalPoints: int)

  /** `${sub.album}_${sub.artists}`. */
  function AlbumKey(s: Submission): string {
    s.album + "_" + s.artists
  }

  /** The record of a key not seen yet. Its name and artist are filled in by
      the first submission under the key. */
  function NewAlbum(k: string): AlbumStats {
    AlbumStats("", "", 0, 0)
  }

  /** The record the source creates for a new key from the submission that
      brings it. */
  function FirstAlbum(s: Submission): AlbumStats {
    AlbumStats(s.album, s.artists, 0, 0)
  }

  /** One submission counted: a record still at count 0 has just been
      created for this submission and takes its album and artists. */
  function CreditAlbumStep(lookup: OrderedMap<TrackKey, int>, a: AlbumStats, s: Submission): AlbumStats {
    var name := if a.submissionCount == 0 then s.album else a.name;
    var artist := if a.submissionCount == 0 then s.artists else a.artist;
    AlbumStats(name, artist, a.submissionCount + 1, a.totalPoints + TrackPoints(lookup, s))
  }

  function CreditAlbum(lookup: OrderedMap<TrackKey, int>): (AlbumStats, Submission) -> AlbumStats {
    (a: AlbumStats, s: Submission) => CreditAlbumStep(lookup, a, s)
  }

  function PointsOn(lookup: OrderedMap<TrackKey, int>): Submission -> int {
    s => TrackPoints(lookup, s)
  }

  /** `albumMap`. */
  function AlbumTotals(subs: seq<Submission>, votes: seq<Vote>): OrderedMap<string, AlbumStats> {
    Accumulate([], subs, AlbumKey, NewAlbum, CreditAlbum(PointsByTrack(votes)))
  }

  function AlbumCount(a: AlbumStats): real {
    a.submissionCount as real
  }

  /** `getAlbumStats()`: the albums by submission count, most first. */
  function AlbumStatsOf(subs: seq<Submission>, votes: seq<Vote>): seq<AlbumStats> {
    StableSort(Values(AlbumTotals(subs, votes)), AlbumCount, true)
  }

  /** A run of submissions adds one to the count and its points to the total
      for each; a record that is still new takes the names of the first
      submission, and a counted one keeps its own. */
  lemma {:induction false} CreditAlbumFold(lookup: OrderedMap<TrackKey, int>, a: AlbumStats, subs: seq<Submission>)
    requires a.submissionCount >= 0
    ensures var r := Fold(a, subs, CreditAlbum(lookup));
            && r.submissionCount == a.submissionCount + |subs|
            && r.totalPoints == a.totalPoints + Total(subs, PointsOn(lookup))
            && (a.submissionCount > 0 || subs == [] ==> r.name == a.name && r.artist == a.artist)
            && (a.submissionCount == 0 && subs != [] ==> r.name == subs[0].album && r.artist == subs[0].artists)
    decreases |subs|
  {
    if subs != [] {
      CreditAlbumFold(lookup, CreditAlbum(lookup)(a, subs[0]), subs[1..]);
    }
  }

  /** Every album record is filed under the key of some submission, and
      counts and sums exactly the submissions with that key, however their
      album and artist fields split around the `_`; it carries the album and
      artists of the first of them. */
  lemma AlbumEntry(subs: seq<Submission>, votes: seq<Vote>, i: nat)
    requires i < |AlbumTotals(subs, votes)|
    ensures var e := AlbumTotals(subs, votes)[i];
            var mine := Filter(subs, KeyIs(AlbumKey, e.0));
            && DistinctKeys(AlbumTotals(subs, votes))
            && mine != []
            && e.1.name == mine[0].album && e.1.artist == mine[0].artists
            && e.1.submissionCount == |mine|
            && e.1.totalPoints == Total(mine, PointsOn(PointsByTrack(votes)))
  {
    var lookup := PointsByTrack(votes);
    var m := AlbumTotals(subs, votes);
    AccumulateEntries(subs, AlbumKey, NewAlbum, CreditAlbum(lookup), i);
    var e := m[i];
    AccumulateHasKey([], subs, AlbumKey, NewAlbum, CreditAlbum(lookup), e.0);
    GetAt(m, i);
    var j :| 0 <= j < |subs| && AlbumKey(subs[j]) == e.0;
    FilterKeeps(subs, KeyIs(AlbumKey, e.0), subs[j]);
    CreditAlbumFold(lookup, NewAlbum(e.0), Filter(subs, KeyIs(AlbumKey, e.0)));
  }

  /** Two submissions whose album and artist fields differ, but run together
      around the `_`, share one album record. */
  lemma AlbumKeysMerge(a: Submission, b: Submission)
    requires a.album == "A_B" && a.artists == "C"
    requires b.album == "A" && b.artists == "B_C"
    ensures (a.album, a.artists) != (b.album, b.artists)
    ensures AlbumKey(a) == AlbumKey(b)
    ensures |AlbumTotals([a, b], [])| == 1
    ensures AlbumTotals([a, b], [])[0].1.name == "A_B"
    ensures AlbumTotals([a, b], [])[0].1.submissionCount == 2
  {
    assert AlbumKey(a) == "A_B_C";
    assert AlbumKey(b) == "A_B_C";
    var lookup := PointsByTrack([]);
    var m1 := Absorb([], a, AlbumKey, NewAlbum, CreditAlbum(lookup));
    assert m1 == [("A_B_C", CreditAlbumStep(lookup, NewAlbum("A_B_C"), a))];
    var m2 := Absorb(m1, b, AlbumKey, NewAlbum, CreditAlbum(lookup));
    assert m2 == [("A_B_C", CreditAlbumStep(lookup, m1[0].1, b))];
    assert [a, b][1..] == [b] && [b][1..] == [];
    assert Accumulate(m1, [b], AlbumKey, NewAlbum, CreditAlbum(lookup)) == m2;
    assert AlbumTotals([a, b], []) == Accumulate(m1, [b], AlbumKey, NewAlbum, CreditAlbum(lookup));
  }

  function AlbumSubmissions(a: AlbumStats): int {
    a.submissionCount
  }

  /** Every submission is counted under exactly one album. */
  lemma AlbumCountsSum(subs: seq<Submission>, votes: seq<Vote>)
    ensures SumBy(AlbumTotals(subs, votes), AlbumSubmissions) == |subs|
  {
    AccumulateSum([], subs, AlbumKey, NewAlbum, CreditAlbum(PointsByTrack(votes)), AlbumSubmissions, (s: Submission) => 1);
    TotalOne(subs);
  }

  /** Creating the record from the submission itself, as the source does,
      gives the same entry as absorbing the submission into a blank one. */
  lemma FirstAlbumUpsert(m: OrderedMap<string, AlbumStats>, lookup: OrderedMap<TrackKey, int>, sub: Submission)
    requires !HasKey(m, AlbumKey(sub))
    ensures var k := AlbumKey(sub);
            var m1 := Set(m, k, FirstAlbum(sub));
            var m2 := Set(m, k, NewAlbum(k));
            HasKey(m1, k) && HasKey(m2, k) &&
            Set(m1, k, CreditAlbumStep(lookup, Get(m1, k).value, sub)) ==
            Set(m2, k, CreditAlbumStep(lookup, Get(m2, k).value, sub))
  {
    var k := AlbumKey(sub);
    SetGet(m, k, FirstAlbum(sub));
    SetGet(m, k, NewAlbum(k));
    SetOver(m, k, FirstAlbum(sub), CreditAlbumStep(lookup, FirstAlbum(sub), sub));
    SetOver(m, k, NewAlbum(k), CreditAlbumStep(lookup, NewAlbum(k), sub));
  }

  /** `getAlbumStats`. */
  method AlbumStatsLoop(subs: seq<Submission>, votes: seq<Vote>) returns (stats: seq<AlbumStats>)
    ensures stats == AlbumStatsOf(subs, votes)
    ensures Ordered(stats, AlbumCount, true)
    ensures multiset(stats) == multiset(Values(AlbumTotals(subs, votes)))
  {
    var lookup := TallyLoop([], votes, TrackOf, Points);
    var m: OrderedMap<string, AlbumStats> := [];
    for i := 0 to |subs|
      invariant Accumulate(m, subs[i..], AlbumKey, NewAlbum, CreditAlbum(lookup)) ==
                Accumulate([], subs, AlbumKey, NewAlbum, CreditAlbum(lookup))
    {
      var sub := subs[i];
      var key := sub.album + "_" + sub.artists;
      assert AlbumKey(sub) == key;
      UpsertAt(m, subs, i, AlbumKey, NewAlbum, CreditAlbum(lookup));
      if !HasKey(m, key) {
        FirstAlbumUpsert(m, lookup, sub);
        m := Set(m, key, AlbumStats(sub.album, sub.artists, 0, 0));
      }
      var s := CreditAlbumStep(lookup, Get(m, key).value, sub);
      m := Set(m, key, s);
    }
    stats := StableSort(Values(m), AlbumCount, true);
  }

  // ---------------------------------------------------------------------
  // getGenreStats

  /** One genre listed by one artist record. */
  datatype Tag = Tag(genre: string, artist: ArtistStats)

  function TagWith(a: ArtistStats): string -> Tag {
    g => Tag(g, a)
  }

  /** The genres of every artist record, artist by artist. */
  function Tags(artists: seq<ArtistStats>): seq<Tag>
    decreases |artists|
  {
    if |artists| == 0 then [] else Map(artists[0].genres, TagWith(artists[0])) + Tags(artists[1..])
  }

  lemma TagsAt(artists: seq<ArtistStats>, i: nat)
    requires i < |artists|
    ensures Tags(artists[i..]) == Map(artists[i].genres, TagWith(artists[i])) + Tags(artists[i + 1..])
  {
    assert artists[i..][0] == artists[i];
    assert artists[i..][1..] == artists[i + 1..];
  }

  datatype GenreStats = GenreStats(genre: string, submissionCount: int, totalPoints: int, topArtists: seq<string>)

  function NewGenre(g: string): GenreStats {
    GenreStats(g, 0, 0, [])
  }

  /** The artist's count and points are added, and its name is listed while
      fewer than five are. */
  function CreditGenre(s: GenreStats, t: Tag): GenreStats {
    GenreStats(s.genre, s.submissionCount + t.artist.submissionCount, s.totalPoints + t.artist.totalPoints,
               if |s.topArtists| < 5 then s.topArtists + [t.artist.name] else s.topArtists)
  }

  function TagGenre(t: Tag): string {
    t.genre
  }

  function TagCount(t: Tag): int {
    t.artist.submissionCount
  }

  function TagPoints(t: Tag): int {
    t.artist.totalPoints
  }

  function TagName(t: Tag): string {
    t.artist.name
  }

  /** `genreMap`, over the artist records in the order given. */
  function GenreTotals(artists: seq<ArtistStats>): OrderedMap<string, GenreStats> {
    Accumulate([], Tags(artists), TagGenre, NewGenre, CreditGenre)
  }

  function GenreCount(g: GenreStats): real {
    g.submissionCount as real
  }

  /** `getGenreStats()`: over the sorted artist statistics. */
  function GenreStatsOf(subs: seq<Submission>, votes: seq<Vote>, competitors: seq<Competitor>, table: GenreTable): seq<GenreStats> {
    StableSort(Values(GenreTotals(ArtistStatsOf(subs, votes, competitors, table))), GenreCount, true)
  }

  lemma TakeFive(top: seq<string>, x: string, rest: seq<string>)
    requires |top| <= 5
    ensures |top| < 5 ==> Take((top + [x]) + rest, 5) == Take(top + ([x] + rest), 5)
    ensures |top| == 5 ==> Take(top + rest, 5) == top && Take(top + ([x] + rest), 5) == top
  {
    assert (top + [x]) + rest == top + ([x] + rest);
    if |top| == 5 {
      assert (top + rest)[..5] == top;
      assert (top + ([x] + rest))[..5] == top;
    }
  }

  /** What a run of tags does to one genre's record: the first five names
      are listed, in order. */
  lemma {:induction false} CreditGenreFold(s: GenreStats, ts: seq<Tag>)
    requires |s.topArtists| <= 5
    ensures var r := Fold(s, ts, CreditGenre);
            && r.genre == s.genre
            && r.submissionCount == s.submissionCount + Total(ts, TagCount)
            && r.totalPoints == s.totalPoints + Total(ts, TagPoints)
            && r.topArtists == Take(s.topArtists + Map(ts, TagName), 5)
    decreases |ts|
  {
    if ts == [] {
      assert s.topArtists + Map(ts, TagName) == s.topArtists;
    } else {
      var s' := CreditGenre(s, ts[0]);
      CreditGenreFold(s', ts[1..]);
      assert Map(ts, TagName) == [TagName(ts[0])] + Map(ts[1..], TagName);
      TakeFive(s.topArtists, TagName(ts[0]), Map(ts[1..], TagName));
    }
  }

  /** Every genre record: its count and points are the sums over the
      artists listing the genre, and its top artists are the first (at most
      five) of those artists. */
  lemma GenreEntry(artists: seq<ArtistStats>, i: nat)
    requires i < |GenreTotals(artists)|
    ensures var e := GenreTotals(artists)[i];
            var mine := Filter(Tags(artists), KeyIs(TagGenre, e.0));
            && DistinctKeys(GenreTotals(artists))
            && e.1.genre == e.0
            && e.1.submissionCount == Total(mine, TagCount)
            && e.1.totalPoints == Total(mine, TagPoints)
            && e.1.topArtists == Take(Map(mine, TagName), 5)
            && |e.1.topArtists| <= 5
  {
    AccumulateEntries(Tags(artists), TagGenre, NewGenre, CreditGenre, i);
    var e := GenreTotals(artists)[i];
    var mine := Filter(Tags(artists), KeyIs(TagGenre, e.0));
    CreditGenreFold(NewGenre(e.0), mine);
    assert [] + Map(mine, TagName) == Map(mine, TagName);
  }

  /** A genre has a record exactly when some artist lists it. */
  lemma GenreListed(artists: seq<ArtistStats>, g: string)
    ensures HasKey(GenreTotals(artists), g) <==> exists j | 0 <= j < |Tags(artists)| :: Tags(artists)[j].genre == g
  {
    AccumulateHasKey([], Tags(artists), TagGenre, NewGenre, CreditGenre, g);
    if exists j | 0 <= j < |Tags(artists)| :: Tags(artists)[j].genre == g {
      var j :| 0 <= j < |Tags(artists)| && Tags(artists)[j].genre == g;
      assert TagGenre(Tags(artists)[j]) == g;
    }
  }

  /** `artist.genres.forEach(genre => ...)` for one artist record. */
  method CreditGenres(m0: OrderedMap<string, GenreStats>, artist: ArtistStats) returns (m: OrderedMap<string, GenreStats>)
    ensures m == Accumulate(m0, Map(artist.genres, TagWith(artist)), TagGenre, NewGenre, CreditGenre)
  {
    ghost var tags := Map(artist.genres, TagWith(artist));
    m := m0;
    for j := 0 to |artist.genres|
      invariant Accumulate(m, tags[j..], TagGenre, NewGenre, CreditGenre) ==
                Accumulate(m0, tags, TagGenre, NewGenre, CreditGenre)
    {
      var genre := artist.genres[j];
      var tag := Tag(genre, artist);
      assert tags[j] == tag;
      assert TagGenre(tag) == genre;
      UpsertAt(m, tags, j, TagGenre, NewGenre, CreditGenre);
      if !HasKey(m, genre) {
        m := Set(m, genre, NewGenre(genre));
      }
      var s := CreditGenre(Get(m, genre).value, tag);
      m := Set(m, genre, s);
    }
  }

  /** `getGenreStats`. */
  method GenreStatsLoop(subs: seq<Submission>, votes: seq<Vote>, competitors: seq<Competitor>, table: GenreTable)
    returns (stats: seq<GenreStats>)
    ensures stats == GenreStatsOf(subs, votes, competitors, table)
    ensures Ordered(stats, GenreCount, true)
  {
    var artists := ArtistStatsLoop(subs, votes, competitors, table);
    var m: OrderedMap<string, GenreStats> := [];
    for i := 0 to |artists|
      invariant Accumulate(m, Tags(artists[i..]), TagGenre, NewGenre, CreditGenre) ==
                Accumulate([], Tags(artists), TagGenre, NewGenre, CreditGenre)
    {
      TagsAt(artists, i);
      AccumulateAppend(m, Map(artists[i].genres, TagWith(artists[i])), Tags(artists[i + 1..]), TagGenre, NewGenre, CreditGenre);
      m := CreditGenres(m, artists[i]);
    }
    stats := StableSort(Values(m), GenreCount, true);
  }

  // ---------------------------------------------------------------------
  // getMusicStats

  datatype MusicStats = MusicStats(
    totalTracks: int, uniqueArtists: int, uniqueAlbums: int, uniqueGenres: int,
    mostSubmittedArtist: string, mostSubmittedAlbum: string, topGenre: string)

  /** `list[0]?.name || 'N/A'`. */
  function FirstOr(names: seq<string>): string {
    if |names| == 0 || names[0] == "" then "N/A" else names[0]
  }

  function ArtistName(a: ArtistStats): string {
    a.name
  }

  function AlbumName(a: AlbumStats): string {
    a.name
  }

  function GenreName(g: GenreStats): string {
    g.genre
  }

  /** `getMusicStats()`. */
  function MusicStatsOf(subs: seq<Submission>, votes: seq<Vote>, competitors: seq<Competitor>, table: GenreTable): MusicStats {
    var artists := ArtistStatsOf(subs, votes, competitors, table);
    var albums := AlbumStatsOf(subs, votes);
    var genres := GenreStatsOf(subs, votes, competitors, table);
    MusicStats(|subs|, |artists|, |albums|, |genres|,
               FirstOr(Map(artists, ArtistName)), FirstOr(Map(albums, AlbumName)), FirstOr(Map(genres, GenreName)))
  }

  /** The number of distinct artist names credited. */
  function CreditedNames(credits: seq<Credit>): set<string> {
    set j | 0 <= j < |credits| :: credits[j].artist
  }

  /** The artist map has one entry per distinct credited name. */
  lemma CreditsDistinctNames(credits: seq<Credit>, table: GenreTable)
    ensures |Accumulate([], credits, CreditedArtist, NewArtist(table), CreditArtist)| == |CreditedNames(credits)|
  {
    var m := Accumulate([], credits, CreditedArtist, NewArtist(table), CreditArtist);
    AccumulateDistinct([], credits, CreditedArtist, NewArtist(table), CreditArtist);
    DistinctKeyCount(m);
    var keys := set i | 0 <= i < |m| :: m[i].0;
    forall k | k in keys ensures k in CreditedNames(credits) {
      var i :| 0 <= i < |m| && m[i].0 == k;
      GetAt(m, i);
      CreditsListed(credits, table, k);
      var j :| 0 <= j < |credits| && credits[j].artist == k;
    }
    forall k | k in CreditedNames(credits) ensures k in keys {
      var j :| 0 <= j < |credits| && credits[j].artist == k;
      CreditsListed(credits, table, k);
      HasKeyIffInKeys(m, k);
      var i :| 0 <= i < |m| && Keys(m)[i] == k;
    }
    assert keys == CreditedNames(credits);
  }

  /** `uniqueArtists` counts the distinct credited names. */
  lemma UniqueArtists(subs: seq<Submission>, votes: seq<Vote>, competitors: seq<Competitor>, table: GenreTable)
    ensures MusicStatsOf(subs, votes, competitors, table).uniqueArtists ==
            |CreditedNames(Credits(subs, PointsByTrack(votes), NameMap(competitors)))|
  {
    CreditsDistinctNames(Credits(subs, PointsByTrack(votes), NameMap(competitors)), table);
  }

  /** The most submitted artist is the first artist record (in first-credit
      order) with the largest count, unless there is none or its name is
      empty. */
  lemma MostSubmittedArtist(subs: seq<Submission>, votes: seq<Vote>, competitors: seq<Competitor>, table: GenreTable)
    ensures var m := ArtistTotals(subs, votes, competitors, table);
            var most := MusicStatsOf(subs, votes, competitors, table).mostSubmittedArtist;
            (m == [] ==> most == "N/A") &&
            (m != [] ==>
              var b := BestIndex(Values(m), ArtistCount, true);
              && most == (if m[b].1.name == "" then "N/A" else m[b].1.name)
              && (forall j | 0 <= j < |m| :: m[j].1.submissionCount <= m[b].1.submissionCount)
              && (forall j | 0 <= j < b :: m[j].1.submissionCount < m[b].1.submissionCount))
  {
    var m := ArtistTotals(subs, votes, competitors, table);
    if m != [] {
      SortHead(Values(m), ArtistCount, true);
      var b := BestIndex(Values(m), ArtistCount, true);
      forall j | 0 <= j < |m| ensures m[j].1.submissionCount <= m[b].1.submissionCount {
        assert Before(ArtistCount, true, Values(m)[b], Values(m)[j]);
      }
      forall j | 0 <= j < b ensures m[j].1.submissionCount < m[b].1.submissionCount {
        assert !Before(ArtistCount, true, Values(m)[j], Values(m)[b]);
      }
    }
  }

  /** `getMusicStats`. */
  method MusicStatsLoop(subs: seq<Submission>, votes: seq<Vote>, competitors: seq<Competitor>, table: GenreTable)
    returns (stats: MusicStats)
    ensures stats == MusicStatsOf(subs, votes, competitors, table)
    ensures stats.totalTracks == |subs|
  {
    var artists := ArtistStatsLoop(subs, votes, competitors, table);
    var albums := AlbumStatsLoop(subs, votes);
    var genres := GenreStatsLoop(subs, votes, competitors, table);
    stats := MusicStats(|subs|, |artists|, |albums|, |genres|,
                        FirstOr(Map(artists, ArtistName)), FirstOr(Map(albums, AlbumName)), FirstOr(Map(genres, GenreName)));
  }
}
