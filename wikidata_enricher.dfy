/**
 * The Wikidata genre enricher for release groups: extract the Wikidata entity ID from the URL of a
 * wikidata relation, read the entity's genre statements (property P136), follow each genre entity's
 * MusicBrainz link statement (property P8052) and look the linked MBID's genre name up in the
 * MusicBrainz database.
 */
module WikidataEnricher {
  import opened Wrappers
  import opened Core
  import opened RegexUtils

  const GENRE_PROPERTY_ID: string := "P136"
  const MUSICBRAINZ_LINK_PROPERTY_ID: string := "P8052"

  /** The value of a Wikidata statement: an entity ID, a string, or any other kind of value. */
  datatype Value = EntityIdValue(id: string) | StringValue(str: string) | OtherValue
  datatype Statement = Statement(value: Value)

  /**
   * The collaborators the enricher is built with: the Wikidata client (statements of one
   * property of one entity, absent when the entity cannot be read) and the MusicBrainz database
   * query for a genre's name by its MBID.
   */
  datatype Services = Services(
    findEntityPropertyValues: (string, string) -> Option<seq<Statement>>,
    queryGenreNameByMbid: string -> Option<string>)

  // ---------------------------------------------------------------------------------------------
  // ID_REGEX, `.+/(?<id>Q\d+)$`, run with `matches()`

  /** Java's line terminators: the characters a `.` in a pattern does not match. */
  predicate IsLineTerminator(c: char) {
    c == '\n' || c == '\r' || c == '\U{85}' || c == '\U{2028}' || c == '\U{2029}'
  }

  /** `Q\d+`: a Wikidata item ID. */
  predicate IsItemId(s: string) {
    |s| >= 2 && s[0] == 'Q' && IsDigits(s[1..])
  }

  /**
   * The whole of `s` matches `.+/(?<id>Q\d+)$` with the `/` of the pattern at index `i`: at least
   * one character that is not a line terminator, then `/`, then an item ID up to the end.
   */
  predicate SplitsAt(s: string, i: int) {
    && 0 < i < |s|
    && s[i] == '/'
    && (forall k :: 0 <= k < i ==> !IsLineTerminator(s[k]))
    && IsItemId(s[i + 1..])
  }

  /** The index of the last `/` in `s`. */
  function LastSlash(s: string): (r: Option<nat>)
    ensures r.Some? ==> r.value < |s| && s[r.value] == '/'
    ensures r.Some? ==> forall k :: r.value < k < |s| ==> s[k] != '/'
    ensures r.None? ==> forall k :: 0 <= k < |s| ==> s[k] != '/'
  {
    if |s| == 0 then None
    else if s[|s| - 1] == '/' then Some(|s| - 1)
    else LastSlash(s[..|s| - 1])
  }

  /**
   * `ID_REGEX.matcher(s)`. The group `Q\d+` holds no `/`, so a whole match can only put the
   * pattern's `/` on the last `/` of the input: the matcher tries that one split.
   */
  function IdMatcher(s: string): Matcher {
    match LastSlash(s)
    case None => NoMatch
    case Some(i) => if SplitsAt(s, i) then Matcher(true, map["id" := s[i + 1..]]) else NoMatch
  }

  /**
   * The ID extracted from a relation target: present exactly when the whole target matches the
   * pattern at some `/`, and then it is the item ID after that `/`, which is the last `/`.
   */
  lemma ExtractId(s: string)
    ensures MaybeGroup(IdMatcher(s), "id").Some? <==> exists i :: SplitsAt(s, i)
    ensures forall i :: SplitsAt(s, i) ==> MaybeGroup(IdMatcher(s), "id") == Some(s[i + 1..])
    ensures MaybeGroup(IdMatcher(s), "id").Some? ==>
              var id := MaybeGroup(IdMatcher(s), "id").value;
              IsItemId(id) && |id| < |s| && s[|s| - |id| - 1] == '/' && s[|s| - |id|..] == id
  {
  }

  /** Building a target from a prefix and an item ID and extracting the ID gives the ID back. */
  lemma ExtractIdRoundTrip(prefix: string, id: string)
    requires |prefix| > 0 && forall k :: 0 <= k < |prefix| ==> !IsLineTerminator(prefix[k])
    requires IsItemId(id)
    ensures MaybeGroup(IdMatcher(prefix + "/" + id), "id") == Some(id)
  {
    var s := prefix + "/" + id;
    assert s[|prefix| + 1..] == id;
    assert SplitsAt(s, |prefix|);
    ExtractId(s);
  }

  // ---------------------------------------------------------------------------------------------
  // genre lookup

  /**
   * `findGenreName`: the genre's name in the MusicBrainz database, reached through the FIRST of the
   * genre entity's MusicBrainz link statements, which must hold a string (the genre's MBID).
   */
  function FindGenreName(genreId: string, services: Services): (r: Option<string>)
    ensures var links := services.findEntityPropertyValues(genreId, MUSICBRAINZ_LINK_PROPERTY_ID);
            (links.None? || links.value == []) ==> r == None
    ensures var links := services.findEntityPropertyValues(genreId, MUSICBRAINZ_LINK_PROPERTY_ID);
            links.Some? && links.value != [] && !links.value[0].value.StringValue? ==> r == None
    ensures var links := services.findEntityPropertyValues(genreId, MUSICBRAINZ_LINK_PROPERTY_ID);
            links.Some? && links.value != [] && links.value[0].value.StringValue? ==>
              r == services.queryGenreNameByMbid(links.value[0].value.str)
    ensures var links := services.findEntityPropertyValues(genreId, MUSICBRAINZ_LINK_PROPERTY_ID);
            r.Some? ==> links.Some? && links.value != [] && links.value[0].value.StringValue?
                        && r == services.queryGenreNameByMbid(links.value[0].value.str)
  {
    var links := services.findEntityPropertyValues(genreId, MUSICBRAINZ_LINK_PROPERTY_ID);
    if links.None? || |links.value| == 0 then None
    else match links.value[0].value
      case StringValue(mbid) => services.queryGenreNameByMbid(mbid)
      case _ => None
  }

  /** What one genre statement adds to the result: the name of the genre it points to, if any. */
  function Contribution(statement: Statement, services: Services): set<string> {
    if statement.value.EntityIdValue? && FindGenreName(statement.value.id, services).Some?
    then {FindGenreName(statement.value.id, services).value}
    else {}
  }

  /** The genre names a list of genre statements yields: one per entity-ID statement whose name is found. */
  function GenreNames(statements: seq<Statement>, services: Services): set<string> {
    set i | 0 <= i < |statements| && statements[i].value.EntityIdValue?
                                 && FindGenreName(statements[i].value.id, services).Some?
          :: FindGenreName(statements[i].value.id, services).value
  }

  lemma GenreNamesAppend(statements: seq<Statement>, statement: Statement, services: Services)
    ensures GenreNames(statements + [statement], services)
            == GenreNames(statements, services) + Contribution(statement, services)
  {
    var s := statements + [statement];
    forall g | g in GenreNames(s, services)
      ensures g in GenreNames(statements, services) + Contribution(statement, services)
    {
      var i :| 0 <= i < |s| && s[i].value.EntityIdValue? && FindGenreName(s[i].value.id, services).Some?
                && g == FindGenreName(s[i].value.id, services).value;
      if i < |statements| {
        assert s[i] == statements[i];
      }
    }
    forall g | g in GenreNames(statements, services) ensures g in GenreNames(s, services) {
      var i :| 0 <= i < |statements| && statements[i].value.EntityIdValue?
                && FindGenreName(statements[i].value.id, services).Some?
                && g == FindGenreName(statements[i].value.id, services).value;
      assert s[i] == statements[i];
    }
    if Contribution(statement, services) != {} {
      assert s[|statements|] == statement;
    }
  }

  /**
   * `extractGenreNames`: walk the genre statements, adding the name behind every entity-ID
   * statement whose name can be found.
   */
  method ExtractGenreNames(statements: seq<Statement>, services: Services) returns (genres: set<string>)
    ensures genres == GenreNames(statements, services)
  {
    genres := {};
    for n := 0 to |statements|
      invariant genres == GenreNames(statements[..n], services)
    {
      var statement := statements[n];
      if statement.value.EntityIdValue? {
        var name := FindGenreName(statement.value.id, services);
        if name.Some? {
          genres := genres + {name.value};
        }
      }
      GenreNamesAppend(statements[..n], statement, services);
      assert statements[..n + 1] == statements[..n] + [statement];
    }
    assert statements[..|statements|] == statements;
  }

  /** A statement whose value is not an entity ID contributes nothing, wherever it stands. */
  lemma {:induction false} NonEntityStatementIgnored(before: seq<Statement>, statement: Statement,
                                                     after: seq<Statement>, services: Services)
    requires !statement.value.EntityIdValue?
    ensures GenreNames(before + [statement] + after, services) == GenreNames(before + after, services)
  {
    if after == [] {
      GenreNamesAppend(before, statement, services);
      assert before + [statement] + after == before + [statement];
      assert before + after == before;
    } else {
      var init, last := after[..|after| - 1], after[|after| - 1];
      NonEntityStatementIgnored(before, statement, init, services);
      GenreNamesAppend(before + [statement] + init, last, services);
      GenreNamesAppend(before + init, last, services);
      assert before + [statement] + after == (before + [statement] + init) + [last];
      assert before + after == (before + init) + [last];
    }
  }

  /** Every genre name produced was an answer of the MusicBrainz genre-name query. */
  lemma GenreNamesFromDatabase(statements: seq<Statement>, services: Services, genre: string)
    requires genre in GenreNames(statements, services)
    ensures exists mbid :: services.queryGenreNameByMbid(mbid) == Some(genre)
  {
  }

  // ---------------------------------------------------------------------------------------------
  // the enricher

  /**
   * `fetchGenres`: no ID in the target gives no genres; otherwise the genre names behind the
   * entity's genre statements, or none when the entity cannot be read.
   */
  function FetchGenres(relation: Relation, services: Services): set<string> {
    match MaybeGroup(IdMatcher(relation.targetId), "id")
    case None => {}
    case Some(id) =>
      match services.findEntityPropertyValues(id, GENRE_PROPERTY_ID)
      case None => {}
      case Some(statements) => GenreNames(statements, services)
  }

  /** A target without an item ID yields no genres, whatever the services would have answered. */
  lemma FetchGenresWithoutId(relation: Relation)
    requires forall i :: !SplitsAt(relation.targetId, i)
    ensures forall services :: FetchGenres(relation, services) == {}
  {
  }

  /** The genres fetched are those of the entity named by the target's item ID. */
  lemma FetchGenresOfEntity(relation: Relation, services: Services, i: int)
    requires SplitsAt(relation.targetId, i)
    ensures var id := relation.targetId[i + 1..];
            FetchGenres(relation, services)
            == match services.findEntityPropertyValues(id, GENRE_PROPERTY_ID)
               case None => {}
               case Some(statements) => GenreNames(statements, services)
  {
  }

  /** Every genre fetched is a genre name the MusicBrainz database answered with. */
  lemma FetchGenresFromDatabase(relation: Relation, services: Services, genre: string)
    requires genre in FetchGenres(relation, services)
    ensures exists mbid :: services.queryGenreNameByMbid(mbid) == Some(genre)
  {
  }

  /** `relationSupported`: a wikidata relation pointing at a URL. */
  predicate RelationSupported(relation: Relation) {
    relation.relationType == WIKIDATA_RELATION_TYPE && relation.targetType == URL_TARGET_TYPE
  }

  /** The example target the enricher was written against. */
  lemma ExampleTarget()
    ensures MaybeGroup(IdMatcher("https://www.wikidata.org/wiki/Q922756"), "id") == Some("Q922756")
  {
    ExtractIdRoundTrip("https://www.wikidata.org/wiki", "Q922756");
    assert "https://www.wikidata.org/wiki" + "/" + "Q922756" == "https://www.wikidata.org/wiki/Q922756";
  }
}
