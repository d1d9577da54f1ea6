/**
 * `genreMapping.ts`: the genres credited to an artist name
 * (`inferGenreFromArtist`) and the colour classes of the genres
 * (`getGenreColor`).
 *
 * The artist table and the colour table are parameters: each is the list of
 * entries of the source's object literal in declaration order, as
 * `Object.entries` yields them, so their names are distinct.
 */
module Genres {
  import opened Options
  import opened Sequences
  import opened OrderedMaps
  import opened Text

  /** `artistGenreMap`: artist names with their genre lists. */
  type GenreTable = OrderedMap<string, seq<string>>

  /** `genreColors`: genre names with their colour classes. */
  type ColorTable = OrderedMap<string, string>

  /** Every entry of the table lists at least one genre. */
  predicate Labelled(table: GenreTable) {
    forall i | 0 <= i < |table| :: table[i].1 != []
  }

  /** The partial-match test: one lower-cased name contains the other. */
  predicate Related(name: string, mapped: string) {
    Contains(Lower(name), Lower(mapped)) || Contains(Lower(mapped), Lower(name))
  }

  /** The index of the first table entry whose name is related to `name`,
      or `|table|` when there is none. */
  function FirstRelated(table: GenreTable, name: string): (i: nat)
    ensures i <= |table|
    ensures i < |table| ==> Related(name, table[i].0)
    ensures forall j | 0 <= j < i :: !Related(name, table[j].0)
    decreases |table|
  {
    if |table| == 0 then 0
    else if Related(name, table[0].0) then 0
    else 1 + FirstRelated(table[1..], name)
  }

  /** One name tried against the table: its exact entry, else the first
      entry related to it. */
  function MatchName(table: GenreTable, name: string): Option<seq<string>> {
    if HasKey(table, name) then Get(table, name)
    else
      var i := FirstRelated(table, name);
      if i < |table| then Some(table[i].1) else None
  }

  /** `artist.split(/[,&]/).map(p => p.trim())`. */
  function Parts(artist: string): seq<string> {
    Map(Split(artist, {',', '&'}), Trim)
  }

  /** The parts tried in order; the first one that matches decides. */
  function MatchParts(table: GenreTable, parts: seq<string>): Option<seq<string>>
    decreases |parts|
  {
    if |parts| == 0 then None
    else
      var r := MatchName(table, parts[0]);
      if r.Some? then r else MatchParts(table, parts[1..])
  }

  /** The keyword rules on the lower-cased name, in their fixed priority. */
  function Keywords(lower: string): seq<string> {
    if Contains(lower, "dj") || Contains(lower, "remix") then ["Electronic", "Dance"]
    else if Contains(lower, "jazz") || Contains(lower, "quartet") then ["Jazz"]
    else if Contains(lower, "orchestra") || Contains(lower, "symphony") then ["Classical", "Orchestral"]
    else if Contains(lower, "mc ") || Contains(lower, " mc") then ["Hip-Hop", "Rap"]
    else ["Other"]
  }

  /** The five lists the keyword rules can give. */
  const Fallbacks: seq<seq<string>> :=
    [["Electronic", "Dance"], ["Jazz"], ["Classical", "Orchestral"], ["Hip-Hop", "Rap"], ["Other"]]

  /** `inferGenreFromArtist`: the whole name, then its parts, then the
      keyword rules. */
  function InferGenre(table: GenreTable, artist: string): seq<string> {
    var whole := MatchName(table, artist);
    if whole.Some? then whole.value
    else
      var part := MatchParts(table, Parts(artist));
      if part.Some? then part.value else Keywords(Lower(artist))
  }

  lemma ContainsSelf(s: string)
    ensures Contains(s, s)
  {
  }

  lemma ContainsEmpty(s: string)
    ensures Contains(s, "")
  {
  }

  /** A name is related to itself. */
  lemma RelatedSelf(name: string)
    ensures Related(name, name)
  {
    ContainsSelf(Lower(name));
  }

  /** An exact table entry is returned unchanged, before any partial match. */
  lemma InferExact(table: GenreTable, artist: string)
    requires HasKey(table, artist)
    ensures InferGenre(table, artist) == Get(table, artist).value
  {
  }

  /** Without an exact entry, the first related entry in table order wins. */
  lemma InferFirstRelated(table: GenreTable, artist: string, i: nat)
    requires !HasKey(table, artist)
    requires i < |table| && Related(artist, table[i].0)
    requires forall j | 0 <= j < i :: !Related(artist, table[j].0)
    ensures InferGenre(table, artist) == table[i].1
  {
  }

  /** The empty name is contained in every name, so it takes the genres of
      the first entry. */
  lemma InferEmptyName(table: GenreTable)
    requires |table| > 0 && !HasKey(table, "")
    ensures InferGenre(table, "") == table[0].1
  {
    ContainsEmpty(Lower(table[0].0));
    assert Lower("") == "";
    InferFirstRelated(table, "", 0);
  }

  /** A name related to no table entry has no match of its own. */
  lemma {:induction false} MatchNameNone(table: GenreTable, name: string)
    requires forall i | 0 <= i < |table| :: !Related(name, table[i].0)
    ensures MatchName(table, name).None?
  {
    RelatedSelf(name);
    HasKeyIffInKeys(table, name);
  }

  /** The parts give no match exactly when none of them does. */
  lemma {:induction false} MatchPartsNone(table: GenreTable, parts: seq<string>)
    ensures MatchParts(table, parts).None? <==>
            forall p | 0 <= p < |parts| :: MatchName(table, parts[p]).None?
    decreases |parts|
  {
    if parts != [] {
      MatchPartsNone(table, parts[1..]);
      assert forall p | 1 <= p < |parts| :: parts[p] == parts[1..][p - 1];
    }
  }

  /** When neither the name nor any of its parts is related to a table
      entry, the keyword rules decide. */
  lemma InferFallback(table: GenreTable, artist: string)
    requires forall i | 0 <= i < |table| :: !Related(artist, table[i].0)
    requires forall p, i | 0 <= p < |Parts(artist)| && 0 <= i < |table| :: !Related(Parts(artist)[p], table[i].0)
    ensures InferGenre(table, artist) == Keywords(Lower(artist))
  {
    MatchNameNone(table, artist);
    var parts := Parts(artist);
    forall p | 0 <= p < |parts|
      ensures MatchName(table, parts[p]).None?
    {
      MatchNameNone(table, parts[p]);
    }
    MatchPartsNone(table, parts);
  }

  /** The keyword rules give "Other" exactly when no keyword occurs. */
  lemma KeywordsOther(lower: string)
    ensures Keywords(lower) == ["Other"] <==>
            !Contains(lower, "dj") && !Contains(lower, "remix") &&
            !Contains(lower, "jazz") && !Contains(lower, "quartet") &&
            !Contains(lower, "orchestra") && !Contains(lower, "symphony") &&
            !Contains(lower, "mc ") && !Contains(lower, " mc")
  {
  }

  /** A match found by name is the genre list of some table entry. */
  lemma MatchNameEntry(table: GenreTable, name: string)
    requires MatchName(table, name).Some?
    ensures exists i | 0 <= i < |table| :: MatchName(table, name).value == table[i].1
  {
    if HasKey(table, name) {
      GetIsEntry(table, name);
      var e := (name, Get(table, name).value);
      var i :| 0 <= i < |table| && table[i] == e;
      assert MatchName(table, name).value == table[i].1;
    } else {
      var i := FirstRelated(table, name);
      assert MatchName(table, name).value == table[i].1;
    }
  }

  /** A match found through the parts is the genre list of some entry. */
  lemma {:induction false} MatchPartsEntry(table: GenreTable, parts: seq<string>)
    requires MatchParts(table, parts).Some?
    ensures exists i | 0 <= i < |table| :: MatchParts(table, parts).value == table[i].1
    decreases |parts|
  {
    if MatchName(table, parts[0]).Some? {
      MatchNameEntry(table, parts[0]);
    } else {
      MatchPartsEntry(table, parts[1..]);
    }
  }

  /** The keyword rules give one of the five fixed lists. */
  lemma KeywordsFallback(lower: string)
    ensures Keywords(lower) in Fallbacks
  {
  }

  /** Every result is a table entry's genre list or one of the fixed
      fallback lists. */
  lemma InferOrigin(table: GenreTable, artist: string)
    ensures (exists i | 0 <= i < |table| :: InferGenre(table, artist) == table[i].1) ||
            InferGenre(table, artist) in Fallbacks
  {
    if MatchName(table, artist).Some? {
      MatchNameEntry(table, artist);
    } else if MatchParts(table, Parts(artist)).Some? {
      MatchPartsEntry(table, Parts(artist));
    } else {
      KeywordsFallback(Lower(artist));
    }
  }

  /** Every artist is credited with at least one genre. */
  lemma InferNeverEmpty(table: GenreTable, artist: string)
    requires Labelled(table)
    ensures InferGenre(table, artist) != []
  {
    InferOrigin(table, artist);
  }

  /** `getGenreColor`: the genre's own colour unless it is missing or
      empty, else the colour of "Other" (`None` where the source yields
      `undefined`). */
  function GenreColor(colors: ColorTable, genre: string): Option<string> {
    var own := Get(colors, genre);
    if own.Some? && own.value != "" then own else Get(colors, "Other")
  }

  /** With a non-empty "Other" entry every genre gets a non-empty colour:
      its own one if it has one, the colour of "Other" if not. */
  lemma GenreColorFacts(colors: ColorTable, genre: string)
    requires HasKey(colors, "Other") && Get(colors, "Other").value != ""
    ensures GenreColor(colors, genre).Some? && GenreColor(colors, genre).value != ""
    ensures HasKey(colors, genre) && Get(colors, genre).value != "" ==>
            GenreColor(colors, genre) == Get(colors, genre)
    ensures !HasKey(colors, genre) ==> GenreColor(colors, genre) == Get(colors, "Other")
  {
  }

  /** Any two genres without a colour of their own look the same. */
  lemma GenreColorShared(colors: ColorTable, a: string, b: string)
    requires !HasKey(colors, a) && !HasKey(colors, b)
    ensures GenreColor(colors, a) == GenreColor(colors, b)
  {
  }
}
