/**
 * The listener personalities of `musicAnalytics.ts`: the fixed pool of
 * personalities with their genre affinities, the score of a personality
 * against a competitor's genre breakdown (`scorePersonality`), and the
 * greedy hand-out that gives every competitor a personality nobody else
 * holds while the pool lasts (`assignUniquePersonalities`).
 *
 * The pool is a parameter of the algorithms; `Pool` is the one the source
 * uses.
 */
module Personalities {
  import opened Options
  import opened Sequences
  import opened OrderedMaps
  import opened Sorting
  import opened Text

  datatype Personality = Personality(name: string, emoji: string, genres: seq<string>)

  /** `personalityPool`. */
  const Pool: seq<Personality> := [
    Personality("The Indie Purist", "🎸", ["indie rock", "indie folk", "alternative", "garage rock"]),
    Personality("The Night Owl", "🌙", ["electronic", "house", "techno", "dance", "uk garage"]),
    Personality("The Beats Enthusiast", "🎤", ["hip-hop", "rap", "grime", "uk hip-hop"]),
    Personality("The Classic Rocker", "🤘", ["rock", "hard rock", "classic rock", "blues rock"]),
    Personality("The Smooth Operator", "🎷", ["jazz", "soul", "r&b", "neo-soul"]),
    Personality("The Chill Viber", "🌴", ["reggae", "ska", "dub", "dancehall"]),
    Personality("The Rebel", "⚡", ["punk rock", "post-punk", "hardcore punk", "emo"]),
    Personality("The Storyteller", "📖", ["folk", "singer-songwriter", "americana", "country"]),
    Personality("The Crowd Pleaser", "✨", ["pop", "dance pop", "synth-pop"]),
    Personality("The Deep Thinker", "🌀", ["progressive rock", "art rock", "psychedelic rock"]),
    Personality("The Sensitive Soul", "🍂", ["indie folk", "dream pop", "slowcore", "shoegaze"]),
    Personality("The Eclectic Tastemaker", "🎭", ["art pop", "experimental", "avant-garde"]),
    Personality("The Nostalgia Hunter", "📼", ["new wave", "synth-pop", "80s", "disco"]),
    Personality("The World Traveler", "🌍", ["afrobeat", "mpb", "tropicália", "world", "latin"]),
    Personality("The Underground Explorer", "🔦", ["idm", "ambient", "experimental", "hyperpop"]),
    Personality("The Dancefloor General", "🪩", ["disco", "funk", "dance", "house"]),
    Personality("The Vinyl Collector", "💿", ["soul", "funk", "jazz", "classic rock"]),
    Personality("The Festival Goer", "🎪", ["indie rock", "electronic", "alternative"]),
    Personality("The Bedroom DJ", "🎚️", ["electronic", "drum and bass", "jungle", "uk bass"]),
    Personality("The Melancholy Romantic", "🥀", ["dream pop", "shoegaze", "post-rock", "gothic rock"]),
    Personality("The Celtic Soul", "☘️", ["irish trad", "folk", "celtic", "folk punk"]),
    Personality("The Headphone Hermit", "🎧", ["ambient", "post-rock", "electronic", "idm"]),
    Personality("The Singalong Champion", "🎵", ["pop rock", "britpop", "power pop", "indie pop"]),
    Personality("The Riff Master", "🔥", ["heavy metal", "hard rock", "alternative metal", "nu metal"]),
    Personality("The Groove Seeker", "🕺", ["funk", "disco", "r&b", "soul"]),
    Personality("The Genre Bender", "🔀", ["alternative", "experimental", "art rock"]),
    Personality("The Sunset Chaser", "🌅", ["indie pop", "dream pop", "chillwave"]),
    Personality("The Late Night Philosopher", "🌃", ["post-punk", "gothic rock", "darkwave"])
  ]

  /** What a competitor is given: a personality's name and emoji. */
  datatype Assignment = Assignment(personality: string, emoji: string)

  const MusicLoverName := "The Music Lover"

  /** The stand-in once the pool is used up. */
  const MusicLover := Assignment(MusicLoverName, "🎶")

  function AssignmentOf(p: Personality): Assignment {
    Assignment(p.name, p.emoji)
  }

  /** The pool has 28 personalities, none of them the stand-in. */
  lemma PoolFacts()
    ensures |Pool| == 28
    ensures forall p | p in Pool :: p.name != MusicLoverName
  {
  }

  // ---------------------------------------------------------------------
  // scorePersonality

  /** One entry of a genre breakdown. */
  datatype GenreCount = GenreCount(genre: string, count: int)

  function LowerGenre(g: GenreCount): string {
    Lower(g.genre)
  }

  function CountOf(g: GenreCount): int {
    g.count
  }

  /** `genreCounts`: the lower-cased genres with their counts; of two
      entries that lower-case alike the later one wins. */
  function GenreCounts(breakdown: seq<GenreCount>): OrderedMap<string, int> {
    Index([], breakdown, LowerGenre, CountOf)
  }

  /** A breakdown genre and a target genre match when either contains the
      other. */
  predicate Matches(genre: string, target: string) {
    Contains(genre, target) || Contains(target, genre)
  }

  /** The points one target genre earns: ten per count of every matching
      genre. */
  function TargetScore(counts: OrderedMap<string, int>, target: string): int
    decreases |counts|
  {
    if |counts| == 0 then 0
    else (if Matches(counts[0].0, target) then counts[0].1 * 10 else 0) + TargetScore(counts[1..], target)
  }

  function TargetsScore(counts: OrderedMap<string, int>, targets: seq<string>): int
    decreases |targets|
  {
    if |targets| == 0 then 0 else TargetScore(counts, targets[0]) + TargetsScore(counts, targets[1..])
  }

  /** `scorePersonality`. */
  function Score(p: Personality, breakdown: seq<GenreCount>): int {
    TargetsScore(GenreCounts(breakdown), p.genres)
  }

  lemma {:induction false} NoCountsScore(targets: seq<string>)
    ensures TargetsScore([], targets) == 0
    decreases |targets|
  {
    if targets != [] {
      NoCountsScore(targets[1..]);
    }
  }

  /** A competitor without genres scores nothing with any personality. */
  lemma ScoreEmpty(p: Personality)
    ensures Score(p, []) == 0
  {
    NoCountsScore(p.genres);
  }

  /** With positive counts a target scores exactly when some genre
      matches it. */
  lemma {:induction false} TargetScorePositive(counts: OrderedMap<string, int>, target: string)
    requires forall j | 0 <= j < |counts| :: counts[j].1 > 0
    ensures TargetScore(counts, target) >= 0
    ensures TargetScore(counts, target) > 0 <==> exists j | 0 <= j < |counts| :: Matches(counts[j].0, target)
    decreases |counts|
  {
    if counts != [] {
      TargetScorePositive(counts[1..], target);
      if exists j | 0 <= j < |counts| :: Matches(counts[j].0, target) {
        var j :| 0 <= j < |counts| && Matches(counts[j].0, target);
        if j > 0 { assert counts[1..][j - 1] == counts[j]; }
      }
      if exists j | 0 <= j < |counts[1..]| :: Matches(counts[1..][j].0, target) {
        var j :| 0 <= j < |counts[1..]| && Matches(counts[1..][j].0, target);
        assert counts[j + 1] == counts[1..][j];
      }
    }
  }

  lemma {:induction false} TargetsScorePositive(counts: OrderedMap<string, int>, targets: seq<string>)
    requires forall j | 0 <= j < |counts| :: counts[j].1 > 0
    ensures TargetsScore(counts, targets) >= 0
    ensures TargetsScore(counts, targets) > 0 <==>
            exists t, j | t in targets && 0 <= j < |counts| :: Matches(counts[j].0, t)
    decreases |targets|
  {
    if targets != [] {
      TargetScorePositive(counts, targets[0]);
      TargetsScorePositive(counts, targets[1..]);
      if exists t, j | t in targets && 0 <= j < |counts| :: Matches(counts[j].0, t) {
        var t, j :| t in targets && 0 <= j < |counts| && Matches(counts[j].0, t);
        if t != targets[0] {
          assert t in targets[1..];
        }
      }
      if TargetScore(counts, targets[0]) > 0 {
        var j :| 0 <= j < |counts| && Matches(counts[j].0, targets[0]);
        assert targets[0] in targets;
      } else if TargetsScore(counts, targets[1..]) > 0 {
        var t, j :| t in targets[1..] && 0 <= j < |counts| && Matches(counts[j].0, t);
        assert t in targets;
      }
    }
  }

  /** Every entry of `genreCounts` holds the count of a breakdown entry with
      that lower-cased genre, and every breakdown genre has an entry. */
  lemma CountsFromBreakdown(breakdown: seq<GenreCount>, j: nat)
    requires j < |GenreCounts(breakdown)|
    ensures exists i | 0 <= i < |breakdown| ::
              LowerGenre(breakdown[i]) == GenreCounts(breakdown)[j].0 && breakdown[i].count == GenreCounts(breakdown)[j].1
  {
    var counts := GenreCounts(breakdown);
    IndexDistinct([], breakdown, LowerGenre, CountOf);
    GetAt(counts, j);
    IndexGet([], breakdown, LowerGenre, CountOf, counts[j].0);
    LastWithIsItem(breakdown, LowerGenre, counts[j].0);
    var x := LastWith(breakdown, LowerGenre, counts[j].0).value;
    var i :| 0 <= i < |breakdown| && breakdown[i] == x;
    assert CountOf(x) == x.count;
  }

  lemma BreakdownInCounts(breakdown: seq<GenreCount>, i: nat)
    requires i < |breakdown|
    ensures exists j | 0 <= j < |GenreCounts(breakdown)| :: GenreCounts(breakdown)[j].0 == LowerGenre(breakdown[i])
  {
    var counts := GenreCounts(breakdown);
    var k := LowerGenre(breakdown[i]);
    IndexGet([], breakdown, LowerGenre, CountOf, k);
    LastWithIsItem(breakdown, LowerGenre, k);
    HasKeyIffInKeys(counts, k);
    var j :| 0 <= j < |Keys(counts)| && Keys(counts)[j] == k;
  }

  /** A personality scores nothing or more, and with positive counts it
      scores exactly when one of its genres matches a lower-cased genre of
      the breakdown. */
  lemma ScorePositive(p: Personality, breakdown: seq<GenreCount>)
    requires forall i | 0 <= i < |breakdown| :: breakdown[i].count > 0
    ensures Score(p, breakdown) >= 0
    ensures Score(p, breakdown) > 0 <==>
            exists t, i | t in p.genres && 0 <= i < |breakdown| :: Matches(Lower(breakdown[i].genre), t)
  {
    var counts := GenreCounts(breakdown);
    forall j | 0 <= j < |counts| ensures counts[j].1 > 0 {
      CountsFromBreakdown(breakdown, j);
    }
    TargetsScorePositive(counts, p.genres);
    if exists t, i | t in p.genres && 0 <= i < |breakdown| :: Matches(Lower(breakdown[i].genre), t) {
      var t, i :| t in p.genres && 0 <= i < |breakdown| && Matches(Lower(breakdown[i].genre), t);
      BreakdownInCounts(breakdown, i);
      var j :| 0 <= j < |counts| && counts[j].0 == LowerGenre(breakdown[i]);
      assert Matches(counts[j].0, t);
    }
    if exists t, j | t in p.genres && 0 <= j < |counts| :: Matches(counts[j].0, t) {
      var t, j :| t in p.genres && 0 <= j < |counts| && Matches(counts[j].0, t);
      CountsFromBreakdown(breakdown, j);
      var i :| 0 <= i < |breakdown| && LowerGenre(breakdown[i]) == counts[j].0;
      assert Matches(Lower(breakdown[i].genre), t);
    }
  }

  /** The inner `genreCounts.forEach` for one target genre. */
  method ScoreTarget(counts: OrderedMap<string, int>, target: string, score0: int) returns (score: int)
    ensures score == score0 + TargetScore(counts, target)
  {
    score := score0;
    for j := 0 to |counts|
      invariant score + TargetScore(counts[j..], target) == score0 + TargetScore(counts, target)
    {
      assert counts[j..][0] == counts[j] && counts[j..][1..] == counts[j + 1..];
      var (genre, count) := counts[j];
      if Contains(genre, target) || Contains(target, genre) {
        score := score + count * 10;
      }
    }
  }

  /** `scorePersonality`, with its two nested loops. */
  method ScorePersonality(p: Personality, breakdown: seq<GenreCount>) returns (score: int)
    ensures score == Score(p, breakdown)
  {
    score := 0;
    var genreCounts := IndexLoop([], breakdown, LowerGenre, CountOf);
    for i := 0 to |p.genres|
      invariant score + TargetsScore(genreCounts, p.genres[i..]) == TargetsScore(genreCounts, p.genres)
    {
      assert p.genres[i..][0] == p.genres[i] && p.genres[i..][1..] == p.genres[i + 1..];
      score := ScoreTarget(genreCounts, p.genres[i], score);
    }
  }
  // ---------------------------------------------------------------------
  // assignUniquePersonalities

  /** A personality with its score for one competitor. */
  datatype Scored = Scored(personality: Personality, score: int)

  function ScoredFor(breakdown: seq<GenreCount>): Personality -> Scored {
    (p: Personality) => Scored(p, Score(p, breakdown))
  }

  function ScoreValue(s: Scored): real {
    s.score as real
  }

  /** Every personality of the pool scored, best first; ties keep pool
      order. */
  function Scores(pool: seq<Personality>, breakdown: seq<GenreCount>): seq<Scored> {
    StableSort(Map(pool, ScoredFor(breakdown)), ScoreValue, true)
  }

  /** What the hand-out is told about a competitor. */
  datatype Candidate = Candidate(competitorId: string, genreBreakdown: seq<GenreCount>)

  /** A competitor with the pool scored for them. */
  datatype Ranked = Ranked(competitorId: string, scores: seq<Scored>)

  function RankFor(pool: seq<Personality>): Candidate -> Ranked {
    (c: Candidate) => Ranked(c.competitorId, Scores(pool, c.genreBreakdown))
  }

  /** `b.scores[0]?.score || 0`. */
  function BestScore(r: Ranked): real {
    if |r.scores| == 0 then 0.0 else r.scores[0].score as real
  }

  /** Competitors with the strongest best match first. */
  function RankCandidates(pool: seq<Personality>, profiles: seq<Candidate>): seq<Ranked> {
    StableSort(Map(profiles, RankFor(pool)), BestScore, true)
  }

  function ScoredPersonality(s: Scored): Personality {
    s.personality
  }

  /** A competitor's personalities in order of preference. */
  function Choices(scores: seq<Scored>): seq<Personality> {
    Map(scores, ScoredPersonality)
  }

  /** The position of the first personality whose name is not taken yet,
      or the length when all are. */
  function FirstFree(ps: seq<Personality>, used: set<string>): (i: nat)
    ensures i <= |ps|
    ensures i < |ps| ==> ps[i].name !in used
    ensures forall j | 0 <= j < i :: ps[j].name in used
    decreases |ps|
  {
    if |ps| == 0 then 0
    else if ps[0].name !in used then 0
    else 1 + FirstFree(ps[1..], used)
  }

  /** `assignments` and `usedPersonalities`. */
  datatype HandOut = HandOut(assignments: OrderedMap<string, Assignment>, used: set<string>)

  /** Every name of the pool is taken. */
  predicate Full(pool: seq<Personality>, used: set<string>) {
    forall p | p in pool :: p.name in used
  }

  function Give(h: HandOut, id: string, p: Personality): HandOut {
    HandOut(Set(h.assignments, id, AssignmentOf(p)), h.used + {p.name})
  }

  /** One competitor: the first free personality of their preferences; if
      none is free and they have no personality yet, the first free one of
      the pool, or the stand-in. */
  function AssignOne(pool: seq<Personality>, h: HandOut, r: Ranked): HandOut {
    var choices := Choices(r.scores);
    var i := FirstFree(choices, h.used);
    if i < |choices| then Give(h, r.competitorId, choices[i])
    else if HasKey(h.assignments, r.competitorId) then h
    else
      var k := FirstFree(pool, h.used);
      if k < |pool| then Give(h, r.competitorId, pool[k])
      else HandOut(Set(h.assignments, r.competitorId, MusicLover), h.used)
  }

  function AssignAll(pool: seq<Personality>, h: HandOut, ranked: seq<Ranked>): HandOut
    decreases |ranked|
  {
    if |ranked| == 0 then h else AssignAll(pool, AssignOne(pool, h, ranked[0]), ranked[1..])
  }

  /** The state at the end of the hand-out. */
  function AssignState(pool: seq<Personality>, profiles: seq<Candidate>): HandOut {
    AssignAll(pool, HandOut([], {}), RankCandidates(pool, profiles))
  }

  /** `assignUniquePersonalities`. */
  function AssignUnique(pool: seq<Personality>, profiles: seq<Candidate>): OrderedMap<string, Assignment> {
    AssignState(pool, profiles).assignments
  }

  /** The preferences of a competitor rank the whole pool and nothing
      else. */
  predicate Covers(pool: seq<Personality>, r: Ranked) {
    (forall p | p in pool :: p in Choices(r.scores)) &&
    (forall p | p in Choices(r.scores) :: p in pool)
  }

  lemma RankCovers(pool: seq<Personality>, c: Candidate)
    ensures Covers(pool, RankFor(pool)(c))
  {
    var scored := Map(pool, ScoredFor(c.genreBreakdown));
    var scores := Scores(pool, c.genreBreakdown);
    forall p | p in pool ensures p in Choices(scores) {
      var i :| 0 <= i < |pool| && pool[i] == p;
      var x := ScoredFor(c.genreBreakdown)(p);
      assert x == scored[i];
      SortSameElements(scored, ScoreValue, true, x);
      var j :| 0 <= j < |scores| && scores[j] == x;
      assert ScoredPersonality(scores[j]) == p;
      assert Choices(scores)[j] == p;
    }
    forall p | p in Choices(scores) ensures p in pool {
      var j :| 0 <= j < |scores| && Choices(scores)[j] == p;
      assert ScoredPersonality(scores[j]) == p;
      SortSameElements(scored, ScoreValue, true, scores[j]);
      var i :| 0 <= i < |scored| && scored[i] == scores[j];
      assert scored[i] == ScoredFor(c.genreBreakdown)(pool[i]);
    }
  }

  /** When every preference is taken, so is every name of the pool: the
      search of the pool in the source never finds anything. */
  lemma FallbackFindsNothing(pool: seq<Personality>, h: HandOut, r: Ranked)
    requires Covers(pool, r)
    requires FirstFree(Choices(r.scores), h.used) == |Choices(r.scores)|
    ensures Full(pool, h.used)
    ensures FirstFree(pool, h.used) == |pool|
  {
    var choices := Choices(r.scores);
    forall p | p in pool ensures p.name in h.used {
      var j :| 0 <= j < |choices| && choices[j] == p;
    }
  }

  /** One competitor's turn: they end up with a personality; it is their
      first preference still free when there is one; otherwise the pool is
      used up, and they keep what they had or become the stand-in. */
  lemma AssignOneFacts(pool: seq<Personality>, h: HandOut, r: Ranked)
    requires Covers(pool, r)
    ensures var h' := AssignOne(pool, h, r);
            var choices := Choices(r.scores);
            var i := FirstFree(choices, h.used);
            HasKey(h'.assignments, r.competitorId) &&
            h.used <= h'.used &&
            (i < |choices| ==>
               Get(h'.assignments, r.competitorId) == Some(AssignmentOf(choices[i])) &&
               h'.used == h.used + {choices[i].name}) &&
            (i == |choices| ==>
               Full(pool, h.used) && h'.used == h.used &&
               Get(h'.assignments, r.competitorId) ==
                 if HasKey(h.assignments, r.competitorId) then Get(h.assignments, r.competitorId) else Some(MusicLover))
  {
    var choices := Choices(r.scores);
    var i := FirstFree(choices, h.used);
    if i < |choices| {
      SetGet(h.assignments, r.competitorId, AssignmentOf(choices[i]));
    } else {
      FallbackFindsNothing(pool, h, r);
      if !HasKey(h.assignments, r.competitorId) {
        SetGet(h.assignments, r.competitorId, MusicLover);
      }
    }
  }

  /** What the hand-out keeps true: a personality other than the stand-in
      is held by one competitor at most and is marked as taken, and the
      stand-in is only given out once the pool is used up. */
  ghost predicate Fair(pool: seq<Personality>, h: HandOut) {
    (forall k | HasKey(h.assignments, k) ::
       Get(h.assignments, k).value.personality != MusicLoverName ==> Get(h.assignments, k).value.personality in h.used) &&
    (forall k | HasKey(h.assignments, k) ::
       Get(h.assignments, k).value == MusicLover ==> Full(pool, h.used)) &&
    (forall k1, k2 | k1 != k2 && HasKey(h.assignments, k1) && HasKey(h.assignments, k2) ::
       Get(h.assignments, k1).value.personality == Get(h.assignments, k2).value.personality ==>
       Get(h.assignments, k1).value.personality == MusicLoverName)
  }

  lemma GiveFair(pool: seq<Personality>, h: HandOut, id: string, p: Personality)
    requires Fair(pool, h) && p.name !in h.used && AssignmentOf(p) != MusicLover
    ensures Fair(pool, Give(h, id, p))
  {
    var m := Set(h.assignments, id, AssignmentOf(p));
    SetGet(h.assignments, id, AssignmentOf(p));
    forall k | k != id
      ensures Get(m, k) == Get(h.assignments, k)
    {
      SetGetOther(h.assignments, id, AssignmentOf(p), k);
    }
  }

  lemma LoverFair(pool: seq<Personality>, h: HandOut, id: string)
    requires Fair(pool, h) && Full(pool, h.used)
    ensures Fair(pool, HandOut(Set(h.assignments, id, MusicLover), h.used))
  {
    var m := Set(h.assignments, id, MusicLover);
    SetGet(h.assignments, id, MusicLover);
    forall k | k != id
      ensures Get(m, k) == Get(h.assignments, k)
    {
      SetGetOther(h.assignments, id, MusicLover, k);
    }
  }

  /** No personality of the pool is the stand-in. */
  predicate Distinguishable(pool: seq<Personality>) {
    forall p | p in pool :: AssignmentOf(p) != MusicLover
  }

  lemma AssignOneFair(pool: seq<Personality>, h: HandOut, r: Ranked)
    requires Distinguishable(pool) && Covers(pool, r) && Fair(pool, h)
    ensures Fair(pool, AssignOne(pool, h, r))
  {
    var choices := Choices(r.scores);
    var i := FirstFree(choices, h.used);
    if i < |choices| {
      assert choices[i] in choices;
      GiveFair(pool, h, r.competitorId, choices[i]);
    } else if !HasKey(h.assignments, r.competitorId) {
      FallbackFindsNothing(pool, h, r);
      LoverFair(pool, h, r.competitorId);
    }
  }
  function RankedId(r: Ranked): string {
    r.competitorId
  }

  function CandidateId(c: Candidate): string {
    c.competitorId
  }

  /** Over a run of competitors: the hand-out stays fair, names once taken
      stay taken, nobody loses their personality, every competitor of the
      run ends up with one, and nobody else gains one. */
  lemma {:induction false} AssignAllFacts(pool: seq<Personality>, h: HandOut, ranked: seq<Ranked>)
    requires Distinguishable(pool) && Fair(pool, h)
    requires forall j | 0 <= j < |ranked| :: Covers(pool, ranked[j])
    ensures Fair(pool, AssignAll(pool, h, ranked))
    ensures h.used <= AssignAll(pool, h, ranked).used
    ensures forall k | HasKey(h.assignments, k) :: HasKey(AssignAll(pool, h, ranked).assignments, k)
    ensures forall j | 0 <= j < |ranked| :: HasKey(AssignAll(pool, h, ranked).assignments, ranked[j].competitorId)
    ensures forall k | HasKey(AssignAll(pool, h, ranked).assignments, k) ::
              HasKey(h.assignments, k) || k in Map(ranked, RankedId)
    decreases |ranked|
  {
    if ranked != [] {
      var r := ranked[0];
      var h1 := AssignOne(pool, h, r);
      AssignOneFacts(pool, h, r);
      AssignOneFair(pool, h, r);
      AssignOneKeys(pool, h, r);
      var rest := ranked[1..];
      assert forall j | 0 <= j < |rest| :: rest[j] == ranked[j + 1];
      AssignAllFacts(pool, h1, rest);
      var end := AssignAll(pool, h, ranked);
      assert Map(ranked, RankedId) == [RankedId(r)] + Map(rest, RankedId);
      forall j | 0 <= j < |ranked| ensures HasKey(end.assignments, ranked[j].competitorId) {
        if j > 0 { assert ranked[j] == rest[j - 1]; }
      }
    }
  }

  /** A turn keeps every key and adds only the competitor's own. */
  lemma AssignOneKeys(pool: seq<Personality>, h: HandOut, r: Ranked)
    ensures forall k | HasKey(h.assignments, k) :: HasKey(AssignOne(pool, h, r).assignments, k)
    ensures forall k | HasKey(AssignOne(pool, h, r).assignments, k) :: HasKey(h.assignments, k) || k == r.competitorId
  {
    var m := h.assignments;
    forall k, v | k != r.competitorId ensures Get(Set(m, r.competitorId, v), k) == Get(m, k) {
      SetGetOther(m, r.competitorId, v, k);
    }
    forall v ensures HasKey(Set(m, r.competitorId, v), r.competitorId) {
      SetGet(m, r.competitorId, v);
    }
  }

  /** Every ranked competitor has the whole pool among their preferences. */
  lemma RankedCover(pool: seq<Personality>, profiles: seq<Candidate>)
    ensures forall j | 0 <= j < |RankCandidates(pool, profiles)| :: Covers(pool, RankCandidates(pool, profiles)[j])
  {
    var ranked := Map(profiles, RankFor(pool));
    var sorted := RankCandidates(pool, profiles);
    forall j | 0 <= j < |sorted| ensures Covers(pool, sorted[j]) {
      SortSameElements(ranked, BestScore, true, sorted[j]);
      var i :| 0 <= i < |ranked| && ranked[i] == sorted[j];
      RankCovers(pool, profiles[i]);
    }
  }

  lemma {:induction false} SortKeepsIds(ranked: seq<Ranked>, profiles: seq<Candidate>, k: string)
    requires |ranked| == |profiles|
    requires forall i | 0 <= i < |ranked| :: RankedId(ranked[i]) == CandidateId(profiles[i])
    ensures k in Map(StableSort(ranked, BestScore, true), RankedId) <==> k in Map(profiles, CandidateId)
  {
    var sorted := StableSort(ranked, BestScore, true);
    if k in Map(sorted, RankedId) {
      var j :| 0 <= j < |sorted| && RankedId(sorted[j]) == k;
      SortSameElements(ranked, BestScore, true, sorted[j]);
      var i :| 0 <= i < |ranked| && ranked[i] == sorted[j];
      assert CandidateId(profiles[i]) == k;
    }
    if k in Map(profiles, CandidateId) {
      var i :| 0 <= i < |profiles| && CandidateId(profiles[i]) == k;
      SortSameElements(ranked, BestScore, true, ranked[i]);
      var j :| 0 <= j < |sorted| && sorted[j] == ranked[i];
      assert RankedId(sorted[j]) == k;
    }
  }

  /** Ranking reorders the competitors and loses none. */
  lemma RankedIds(pool: seq<Personality>, profiles: seq<Candidate>, k: string)
    ensures k in Map(RankCandidates(pool, profiles), RankedId) <==> k in Map(profiles, CandidateId)
  {
    var ranked := Map(profiles, RankFor(pool));
    forall i | 0 <= i < |ranked| ensures RankedId(ranked[i]) == CandidateId(profiles[i]) {
      assert ranked[i] == RankFor(pool)(profiles[i]);
    }
    SortKeepsIds(ranked, profiles, k);
  }

  /** `assignUniquePersonalities`: every competitor gets a personality and
      only competitors do; no two competitors share one, the stand-in
      apart, and the stand-in is given out only after the whole pool is. */
  lemma AssignUniqueFacts(pool: seq<Personality>, profiles: seq<Candidate>)
    requires Distinguishable(pool)
    ensures forall k | k in Map(profiles, CandidateId) :: HasKey(AssignUnique(pool, profiles), k)
    ensures forall k | HasKey(AssignUnique(pool, profiles), k) :: k in Map(profiles, CandidateId)
    ensures forall k1, k2 | k1 != k2 && HasKey(AssignUnique(pool, profiles), k1) && HasKey(AssignUnique(pool, profiles), k2) ::
              Get(AssignUnique(pool, profiles), k1).value.personality == Get(AssignUnique(pool, profiles), k2).value.personality ==>
              Get(AssignUnique(pool, profiles), k1).value.personality == MusicLoverName
    ensures forall k | HasKey(AssignUnique(pool, profiles), k) && Get(AssignUnique(pool, profiles), k).value == MusicLover ::
              Full(pool, AssignState(pool, profiles).used)
  {
    var ranked := RankCandidates(pool, profiles);
    RankedCover(pool, profiles);
    AssignAllFacts(pool, HandOut([], {}), ranked);
    var a := AssignUnique(pool, profiles);
    forall k | k in Map(profiles, CandidateId) ensures HasKey(a, k) {
      RankedIds(pool, profiles, k);
      var j :| 0 <= j < |ranked| && RankedId(ranked[j]) == k;
    }
    forall k | HasKey(a, k) ensures k in Map(profiles, CandidateId) {
      RankedIds(pool, profiles, k);
    }
  }

  /** The source's pool meets the condition of the facts above. */
  lemma PoolDistinguishable()
    ensures Distinguishable(Pool)
  {
    PoolFacts();
  }
  /** `personalityPool.map(p => ({ personality: p, score: scorePersonality(p, ...) }))`. */
  method ScoreAll(pool: seq<Personality>, breakdown: seq<GenreCount>) returns (scores: seq<Scored>)
    ensures scores == Map(pool, ScoredFor(breakdown))
  {
    scores := [];
    for i := 0 to |pool|
      invariant scores == Map(pool[..i], ScoredFor(breakdown))
    {
      var score := ScorePersonality(pool[i], breakdown);
      MapSnoc(pool, ScoredFor(breakdown), i);
      scores := scores + [Scored(pool[i], score)];
    }
    assert pool[..|pool|] == pool;
  }

  /** `for (const { personality } of profile.scores) if (!used.has(...)) ... break`. */
  method FirstFreeScore(scores: seq<Scored>, used: set<string>) returns (j: nat)
    ensures j == FirstFree(Choices(scores), used)
  {
    j := 0;
    while j < |scores| && scores[j].personality.name in used
      invariant j <= |scores|
      invariant forall l | 0 <= l < j :: Choices(scores)[l].name in used
    {
      assert Choices(scores)[j] == ScoredPersonality(scores[j]);
      j := j + 1;
    }
    assert j < |scores| ==> Choices(scores)[j] == ScoredPersonality(scores[j]);
  }

  /** `personalityPool.find(p => !used.has(p.name))`. */
  method FindFree(pool: seq<Personality>, used: set<string>) returns (k: nat)
    ensures k == FirstFree(pool, used)
  {
    k := 0;
    while k < |pool| && pool[k].name in used
      invariant k <= |pool|
      invariant forall l | 0 <= l < k :: pool[l].name in used
    {
      k := k + 1;
    }
  }

  /** `assignUniquePersonalities`, with its loops. */
  method AssignUniquePersonalities(pool: seq<Personality>, profiles: seq<Candidate>)
    returns (assignments: OrderedMap<string, Assignment>)
    ensures assignments == AssignUnique(pool, profiles)
  {
    var scoredProfiles: seq<Ranked> := [];
    for i := 0 to |profiles|
      invariant scoredProfiles == Map(profiles[..i], RankFor(pool))
    {
      var scores := ScoreAll(pool, profiles[i].genreBreakdown);
      scores := StableSort(scores, ScoreValue, true);
      MapSnoc(profiles, RankFor(pool), i);
      scoredProfiles := scoredProfiles + [Ranked(profiles[i].competitorId, scores)];
    }
    assert profiles[..|profiles|] == profiles;
    scoredProfiles := StableSort(scoredProfiles, BestScore, true);

    assignments := [];
    var usedPersonalities: set<string> := {};
    for i := 0 to |scoredProfiles|
      invariant AssignAll(pool, HandOut(assignments, usedPersonalities), scoredProfiles[i..]) ==
                AssignState(pool, profiles)
    {
      var profile := scoredProfiles[i];
      assert scoredProfiles[i..][0] == profile && scoredProfiles[i..][1..] == scoredProfiles[i + 1..];
      ghost var h := HandOut(assignments, usedPersonalities);
      var j := FirstFreeScore(profile.scores, usedPersonalities);
      if j < |profile.scores| {
        var personality := profile.scores[j].personality;
        assert personality == Choices(profile.scores)[j];
        assignments := Set(assignments, profile.competitorId, Assignment(personality.name, personality.emoji));
        usedPersonalities := usedPersonalities + {personality.name};
        SetGet(h.assignments, profile.competitorId, Assignment(personality.name, personality.emoji));
      }
      if !HasKey(assignments, profile.competitorId) {
        var k := FindFree(pool, usedPersonalities);
        if k < |pool| {
          assignments := Set(assignments, profile.competitorId, Assignment(pool[k].name, pool[k].emoji));
          usedPersonalities := usedPersonalities + {pool[k].name};
        } else {
          assignments := Set(assignments, profile.competitorId, Assignment("The Music Lover", "🎶"));
        }
      }
      assert HandOut(assignments, usedPersonalities) == AssignOne(pool, h, profile);
    }
  }
}
