/** The vocabulary shared by the enrichers, the enrichment services and the driver. */
module Core {

  /** A MusicBrainz identifier, as the text of a UUID. */
  type Mbid = string

  /** The kinds of MusicBrainz entity an enricher or an enrichment service works on. */
  datatype DataType = Release | ReleaseGroup

  /**
   * A MusicBrainz relation (`RelationWs2`): the relation-type URI, the target-type URI and the
   * target locator (a URL for URL relations).
   */
  datatype Relation = Relation(relationType: string, targetType: string, targetId: string)

  const WIKIDATA_RELATION_TYPE: string := "http://musicbrainz.org/ns/rel-2.0#wikidata"
  const DISCOGS_RELATION_TYPE: string := "http://musicbrainz.org/ns/rel-2.0#discogs"
  const URL_TARGET_TYPE: string := "http://musicbrainz.org/ns/rel-2.0#url"

  /** True when `c` is an ASCII decimal digit, the class `\d` stands for in a Java regex. */
  predicate IsDigit(c: char) {
    '0' <= c <= '9'
  }

  /** True when `s` is one or more ASCII decimal digits (`\d+`). */
  predicate IsDigits(s: string) {
    |s| > 0 && forall i :: 0 <= i < |s| ==> IsDigit(s[i])
  }
}
