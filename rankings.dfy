/**
 * The ranking helper shared by every award of `calculateAwards.ts`
 * (`createRankings`) and the award record it feeds.
 */
module Rankings {
  import opened Options
  import opened Sequences
  import opened OrderedMaps
  import opened Sorting
  import opened Records
  import opened Standings

  /** One line of an award's table; `formattedValue` is `formatFn(value)`. */
  datatype Ranking = Ranking(competitor: Competitor, value: real, formattedValue: string)

  /** An award: `winnerSecondary` is only set by the pair awards, `value` is
      the number the award headline shows, and `desc` is `sortOrder === 'desc'`. */
  datatype Award = Award(
    id: string, winner: Option<Competitor>, winnerSecondary: Option<Competitor>,
    value: real, rankings: seq<Ranking>, desc: bool)

  function EntryValue(e: (string, real)): real {
    e.1
  }

  /** `.filter(([id]) => competitorMap.has(id))`. */
  function Known(competitorMap: OrderedMap<string, Competitor>): ((string, real)) -> bool {
    (e: (string, real)) => HasKey(competitorMap, e.0)
  }

  /** `({ competitor: competitorMap.get(id)!, value, formattedValue: formatFn(value) })`;
      the entries reaching it have passed `Known`, so the lookup succeeds. */
  function RankingOf(competitorMap: OrderedMap<string, Competitor>, format: real -> string): ((string, real)) -> Ranking {
    (e: (string, real)) => Ranking(Get(competitorMap, e.0).GetOr(Competitor(e.0, "")), e.1, format(e.1))
  }

  /** `createRankings(data, formatFn, sortDesc)`. */
  function CreateRankings(data: OrderedMap<string, real>, competitors: seq<Competitor>, format: real -> string, desc: bool): seq<Ranking> {
    var competitorMap := CompetitorMap(competitors);
    Map(StableSort(Filter(data, Known(competitorMap)), EntryValue, desc), RankingOf(competitorMap, format))
  }

  /** `rankings[0]?.competitor || null`. */
  function Winner(rankings: seq<Ranking>): Option<Competitor> {
    if |rankings| == 0 then None else Some(rankings[0].competitor)
  }

  /** `rankings[0]?.value || 0`. */
  function TopValue(rankings: seq<Ranking>): real {
    if |rankings| == 0 then 0.0 else rankings[0].value
  }

  /** Turns a counter into the numbers `createRankings` ranks. */
  function AsReal(m: OrderedMap<string, int>): OrderedMap<string, real> {
    Map(m, (e: (string, int)) => (e.0, e.1 as real))
  }

  lemma AsRealGet(m: OrderedMap<string, int>, k: string)
    ensures Get(AsReal(m), k) == match Get(m, k) case Some(v) => Some(v as real) case None => None
  {
    AsRealGetFrom(m, k);
  }

  lemma {:induction false} AsRealGetFrom(m: OrderedMap<string, int>, k: string)
    ensures Get(AsReal(m), k) == match Get(m, k) case Some(v) => Some(v as real) case None => None
    decreases |m|
  {
    if |m| > 0 {
      AsRealTail(m);
      AsRealGetFrom(m[1..], k);
    }
  }

  lemma AsRealTail(m: OrderedMap<string, int>)
    requires m != []
    ensures AsReal(m)[0] == (m[0].0, m[0].1 as real) && AsReal(m)[1..] == AsReal(m[1..])
  {
  }

  lemma AsRealEntries(m: OrderedMap<string, int>, e: (string, real))
    requires e in AsReal(m)
    ensures exists v :: (e.0, v) in m && e.1 == v as real
  {
    var i :| 0 <= i < |AsReal(m)| && AsReal(m)[i] == e;
    assert (m[i].0, m[i].1) in m;
  }

  /** The entries `createRankings` sorts: the data of known competitors. */
  function KnownEntries(data: OrderedMap<string, real>, competitors: seq<Competitor>, desc: bool): seq<(string, real)> {
    StableSort(Filter(data, Known(CompetitorMap(competitors))), EntryValue, desc)
  }

  lemma RankingsAreEntries(data: OrderedMap<string, real>, competitors: seq<Competitor>, format: real -> string, desc: bool)
    ensures var r := CreateRankings(data, competitors, format, desc);
            var sorted := KnownEntries(data, competitors, desc);
            |r| == |sorted| && forall i | 0 <= i < |r| ::
              r[i] == Ranking(Get(CompetitorMap(competitors), sorted[i].0).GetOr(Competitor(sorted[i].0, "")), sorted[i].1, format(sorted[i].1))
  {
  }

  /** One line of a ranking table: a known competitor, a value the data
      holds under their id, and the formatter's text for that value. */
  lemma RankedLine(data: OrderedMap<string, real>, competitors: seq<Competitor>, format: real -> string, desc: bool, i: nat)
    requires i < |CreateRankings(data, competitors, format, desc)|
    ensures var r := CreateRankings(data, competitors, format, desc);
            r[i].competitor in competitors && (r[i].competitor.id, r[i].value) in data &&
            r[i].formattedValue == format(r[i].value)
  {
    var competitorMap := CompetitorMap(competitors);
    var known := Filter(data, Known(competitorMap));
    var sorted := KnownEntries(data, competitors, desc);
    RankingsAreEntries(data, competitors, format, desc);
    var e := sorted[i];
    SortSameElements(known, EntryValue, desc, e);
    FilterElements(data, Known(competitorMap), e);
    CompetitorMapGet(competitors, e.0);
  }

  /** The table is in the requested order. */
  lemma RankedOrder(data: OrderedMap<string, real>, competitors: seq<Competitor>, format: real -> string, desc: bool)
    ensures var r := CreateRankings(data, competitors, format, desc);
            forall i, j | 0 <= i < j < |r| :: if desc then r[i].value >= r[j].value else r[i].value <= r[j].value
  {
    RankingsAreEntries(data, competitors, format, desc);
  }

  /** Every entry of a known competitor is ranked. */
  lemma RankedComplete(data: OrderedMap<string, real>, competitors: seq<Competitor>, format: real -> string, desc: bool, e: (string, real), c: Competitor)
    requires e in data && c in competitors && c.id == e.0
    ensures var r := CreateRankings(data, competitors, format, desc);
            exists i | 0 <= i < |r| :: r[i].competitor.id == e.0 && r[i].value == e.1
  {
    var competitorMap := CompetitorMap(competitors);
    var known := Filter(data, Known(competitorMap));
    var sorted := KnownEntries(data, competitors, desc);
    var r := CreateRankings(data, competitors, format, desc);
    RankingsAreEntries(data, competitors, format, desc);
    CompetitorMapHas(competitors, c);
    CompetitorMapGet(competitors, e.0);
    FilterKeeps(data, Known(competitorMap), e);
    SortSameElements(known, EntryValue, desc, e);
    var i :| 0 <= i < |sorted| && sorted[i] == e;
    assert r[i].competitor.id == e.0 && r[i].value == e.1;
  }

  /** What a ranking table holds: only known competitors, each with a value
      of the data under their id and the formatter's text for it, in the
      requested order; and every known id of the data is ranked. */
  lemma CreateRankingsFacts(data: OrderedMap<string, real>, competitors: seq<Competitor>, format: real -> string, desc: bool)
    ensures var r := CreateRankings(data, competitors, format, desc);
            && |r| <= |data|
            && (forall i | 0 <= i < |r| ::
                  r[i].competitor in competitors && (r[i].competitor.id, r[i].value) in data &&
                  r[i].formattedValue == format(r[i].value))
            && (forall i, j | 0 <= i < j < |r| :: if desc then r[i].value >= r[j].value else r[i].value <= r[j].value)
            && (forall e, c | e in data && c in competitors && c.id == e.0 ::
                  exists i | 0 <= i < |r| :: r[i].competitor.id == e.0 && r[i].value == e.1)
  {
    var r := CreateRankings(data, competitors, format, desc);
    RankingsAreEntries(data, competitors, format, desc);
    forall i | 0 <= i < |r|
      ensures r[i].competitor in competitors && (r[i].competitor.id, r[i].value) in data &&
              r[i].formattedValue == format(r[i].value)
    {
      RankedLine(data, competitors, format, desc, i);
    }
    RankedOrder(data, competitors, format, desc);
    forall e, c | e in data && c in competitors && c.id == e.0
      ensures exists i | 0 <= i < |r| :: r[i].competitor.id == e.0 && r[i].value == e.1
    {
      RankedComplete(data, competitors, format, desc, e, c);
    }
  }

  /** The winner of a descending table has the largest value of all. */
  lemma WinnerIsBest(data: OrderedMap<string, real>, competitors: seq<Competitor>, format: real -> string)
    ensures var r := CreateRankings(data, competitors, format, true);
            (Winner(r).None? <==> forall e, c | e in data && c in competitors :: c.id != e.0) &&
            (Winner(r).Some? ==> forall e, c | e in data && c in competitors && c.id == e.0 :: r[0].value >= e.1)
  {
    var r := CreateRankings(data, competitors, format, true);
    if exists e, c | e in data && c in competitors :: c.id == e.0 {
      var e, c :| e in data && c in competitors && c.id == e.0;
      RankedComplete(data, competitors, format, true, e, c);
    }
    if Winner(r).Some? {
      RankedLine(data, competitors, format, true, 0);
      RankedOrder(data, competitors, format, true);
      forall e, c | e in data && c in competitors && c.id == e.0 ensures r[0].value >= e.1 {
        RankedComplete(data, competitors, format, true, e, c);
        var i :| 0 <= i < |r| && r[i].competitor.id == e.0 && r[i].value == e.1;
        if i > 0 { assert r[0].value >= r[i].value; }
      }
    }
  }
}
