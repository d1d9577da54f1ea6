/**
 * The four tables of a league export (`competitors.csv`, `rounds.csv`,
 * `submissions.csv`, `votes.csv`) and the getters of `parseData.ts` that
 * read them: the header row is dropped, a missing column reads as `''`,
 * a round's name is trimmed and a vote's points are `parseInt(..) || 0`.
 * The getters are functions of the raw text of each file.
 */
module Records {
  import opened Sequences
  import opened Text
  import opened Csv
  import opened CsvWriter

  datatype Competitor = Competitor(id: string, name: string)

  datatype Round = Round(id: string, created: string, name: string, description: string, playlistUrl: string)

  datatype Submission = Submission(
    spotifyUri: string, title: string, album: string, artists: string, submitterId: string,
    created: string, comment: string, roundId: string, visibleToVoters: string)

  datatype Vote = Vote(spotifyUri: string, voterId: string, created: string, points: int, comment: string, roundId: string)

  /** `row[i] || ''`: a missing column reads as the empty string. */
  function Column(row: seq<string>, i: nat): string {
    if i < |row| then row[i] else ""
  }

  /** The data rows of a file: `parseCSVMultiline(raw).slice(1)`. */
  function Body(raw: string): seq<seq<string>> {
    Drop(ParseCsv(raw), 1)
  }

  function CompetitorOf(row: seq<string>): Competitor {
    Competitor(Column(row, 0), Column(row, 1))
  }

  function RoundOf(row: seq<string>): Round {
    Round(Column(row, 0), Column(row, 1), Trim(Column(row, 2)), Column(row, 3), Column(row, 4))
  }

  function SubmissionOf(row: seq<string>): Submission {
    Submission(Column(row, 0), Column(row, 1), Column(row, 2), Column(row, 3), Column(row, 4),
               Column(row, 5), Column(row, 6), Column(row, 7), Column(row, 8))
  }

  function VoteOf(row: seq<string>): Vote {
    Vote(Column(row, 0), Column(row, 1), Column(row, 2), ParseIntOrZero(Column(row, 3)), Column(row, 4), Column(row, 5))
  }

  /** `getCompetitors()`. */
  function GetCompetitors(raw: string): seq<Competitor> {
    Map(Body(raw), CompetitorOf)
  }

  /** `getRounds()`. */
  function GetRounds(raw: string): seq<Round> {
    Map(Body(raw), RoundOf)
  }

  /** `getSubmissions()`. */
  function GetSubmissions(raw: string): seq<Submission> {
    Map(Body(raw), SubmissionOf)
  }

  /** `getVotes()`. */
  function GetVotes(raw: string): seq<Vote> {
    Map(Body(raw), VoteOf)
  }

  /** Every data row gives one record, the header row none, and a row too
      short for a column gives `''` there. */
  lemma GetterShape(raw: string)
    ensures |GetCompetitors(raw)| == |GetRounds(raw)| == |GetSubmissions(raw)| == |GetVotes(raw)|
            == if |ParseCsv(raw)| == 0 then 0 else |ParseCsv(raw)| - 1
    ensures forall i | 0 <= i < |GetCompetitors(raw)| ::
              GetCompetitors(raw)[i].name == if |ParseCsv(raw)[i + 1]| > 1 then ParseCsv(raw)[i + 1][1] else ""
    ensures forall i | 0 <= i < |GetVotes(raw)| ::
              GetVotes(raw)[i].points == if |ParseCsv(raw)[i + 1]| > 3 then ParseIntOrZero(ParseCsv(raw)[i + 1][3]) else 0
  {
    var rows := ParseCsv(raw);
    if |rows| > 0 {
      forall i | 0 <= i < |rows| - 1 ensures Body(raw)[i] == rows[i + 1] {
        DropAt(rows, 1, i);
      }
    }
  }

  /** A round's name never has white space at either end. */
  lemma RoundNamesTrimmed(raw: string)
    ensures forall i | 0 <= i < |GetRounds(raw)| :: Trim(GetRounds(raw)[i].name) == GetRounds(raw)[i].name
  {
    forall i | 0 <= i < |GetRounds(raw)| ensures Trim(GetRounds(raw)[i].name) == GetRounds(raw)[i].name {
      TrimIdempotent(Column(Body(raw)[i], 2));
    }
  }

  // ---------------------------------------------------------------------
  // Writing the tables back

  function CompetitorRow(c: Competitor): seq<string> {
    [c.id, c.name]
  }

  function RoundRow(r: Round): seq<string> {
    [r.id, r.created, r.name, r.description, r.playlistUrl]
  }

  function SubmissionRow(s: Submission): seq<string> {
    [s.spotifyUri, s.title, s.album, s.artists, s.submitterId, s.created, s.comment, s.roundId, s.visibleToVoters]
  }

  /** The points are written as `String(points)`. */
  function VoteRow(v: Vote): seq<string> {
    [v.spotifyUri, v.voterId, v.created, Show(v.points), v.comment, v.roundId]
  }

  /** A file written as a header row followed by data rows, each with at
      least one field, reads back as exactly its data rows. */
  lemma BodyOfTable(header: seq<string>, rows: seq<seq<string>>)
    requires header != [] && forall i | 0 <= i < |rows| :: rows[i] != []
    ensures Body(EncodeTable([header] + rows)) == rows
  {
    var table := [header] + rows;
    forall i | 0 <= i < |table| ensures table[i] != [] {
      if i > 0 { assert table[i] == rows[i - 1]; }
    }
    TableRoundTrip(table);
    ConsParts(header, rows);
  }

  lemma CompetitorsRoundTrip(header: seq<string>, cs: seq<Competitor>)
    requires header != []
    ensures GetCompetitors(EncodeTable([header] + Map(cs, CompetitorRow))) == cs
  {
    BodyOfTable(header, Map(cs, CompetitorRow));
    MapInverse(cs, CompetitorRow, CompetitorOf);
  }

  /** Rounds come back as written when their names carry no white space at
      either end; the getter trims every other name. */
  lemma RoundsRoundTrip(header: seq<string>, rs: seq<Round>)
    requires header != []
    requires forall i | 0 <= i < |rs| :: Trim(rs[i].name) == rs[i].name
    ensures GetRounds(EncodeTable([header] + Map(rs, RoundRow))) == rs
  {
    BodyOfTable(header, Map(rs, RoundRow));
    MapInverse(rs, RoundRow, RoundOf);
  }

  lemma SubmissionsRoundTrip(header: seq<string>, ss: seq<Submission>)
    requires header != []
    ensures GetSubmissions(EncodeTable([header] + Map(ss, SubmissionRow))) == ss
  {
    BodyOfTable(header, Map(ss, SubmissionRow));
    MapInverse(ss, SubmissionRow, SubmissionOf);
  }

  /** Vote points survive being written with `String` and read with
      `parseInt`, negative ones included. */
  lemma VotesRoundTrip(header: seq<string>, vs: seq<Vote>)
    requires header != []
    ensures GetVotes(EncodeTable([header] + Map(vs, VoteRow))) == vs
  {
    BodyOfTable(header, Map(vs, VoteRow));
    forall i | 0 <= i < |vs| ensures VoteOf(VoteRow(vs[i])) == vs[i] {
      VoteRowInverse(vs[i]);
    }
    MapInverse(vs, VoteRow, VoteOf);
  }

  /** One vote row reads back as its vote. */
  lemma VoteRowInverse(v: Vote)
    ensures VoteOf(VoteRow(v)) == v
  {
    ParseIntShow(v.points, "");
    AppendEmpty(Show(v.points));
  }
}
