/**
 * The Discogs genre enricher for release groups: extract the master ID from the URL of a discogs
 * relation, look the master up, and map its genres and styles onto known genre names.
 */
module DiscogsEnricher {
  import opened Wrappers
  import opened Core
  import opened RegexUtils

  /** A Discogs master: its genres are always present, its styles may be missing (null). */
  datatype DiscogsMaster = DiscogsMaster(genres: set<string>, styles: Option<set<string>>)

  /**
   * The collaborators the enricher is built with: the Discogs master lookup (absent when the
   * master cannot be read) and the genre matcher that maps raw tags onto known genre names.
   */
  datatype Services = Services(
    lookUpMaster: string -> Option<DiscogsMaster>,
    matchGenres: set<string> -> set<string>)

  // ---------------------------------------------------------------------------------------------
  // URL_REGEX, `https?://www\.discogs\.com/master/(?<id>\d+)`, run with `matches()`

  const HTTP_MASTER_PREFIX: string := "http://www.discogs.com/master/"
  const HTTPS_MASTER_PREFIX: string := "https://www.discogs.com/master/"

  /** `url` is, in its entirety, the http or https master URL of the master with ID `id`. */
  predicate IsMasterUrl(url: string, id: string) {
    IsDigits(id) && (url == HTTP_MASTER_PREFIX + id || url == HTTPS_MASTER_PREFIX + id)
  }

  /** `URL_REGEX.matcher(s)`: one of the two literal prefixes, then nothing but digits, at least one. */
  function UrlMatcher(s: string): Matcher {
    if |s| >= |HTTP_MASTER_PREFIX| && s[..|HTTP_MASTER_PREFIX|] == HTTP_MASTER_PREFIX
       && IsDigits(s[|HTTP_MASTER_PREFIX|..])
    then Matcher(true, map["id" := s[|HTTP_MASTER_PREFIX|..]])
    else if |s| >= |HTTPS_MASTER_PREFIX| && s[..|HTTPS_MASTER_PREFIX|] == HTTPS_MASTER_PREFIX
            && IsDigits(s[|HTTPS_MASTER_PREFIX|..])
    then Matcher(true, map["id" := s[|HTTPS_MASTER_PREFIX|..]])
    else NoMatch
  }

  /**
   * The master ID extracted from a relation target: present exactly when the whole target is a
   * master URL, and then it is that URL's ID, a non-empty run of decimal digits.
   */
  lemma ExtractMasterId(s: string)
    ensures MaybeGroup(UrlMatcher(s), "id").Some? ==> IsMasterUrl(s, MaybeGroup(UrlMatcher(s), "id").value)
    ensures forall id :: IsMasterUrl(s, id) ==> MaybeGroup(UrlMatcher(s), "id") == Some(id)
  {
    var p, q := HTTP_MASTER_PREFIX, HTTPS_MASTER_PREFIX;
    if |s| >= |p| && s[..|p|] == p && IsDigits(s[|p|..]) {
      assert s == p + s[|p|..];
    } else if |s| >= |q| && s[..|q|] == q && IsDigits(s[|q|..]) {
      assert s == q + s[|q|..];
    }
    forall id | IsMasterUrl(s, id) ensures MaybeGroup(UrlMatcher(s), "id") == Some(id) {
      if s == p + id {
        assert s[..|p|] == p && s[|p|..] == id;
      } else {
        assert s[..|q|] == q && s[|q|..] == id;
        assert s[4] == 's' != p[4];
      }
    }
  }

  /** A trailing slash after the ID makes the whole target fail to match. */
  lemma TrailingSlashRejected()
    ensures MaybeGroup(UrlMatcher("https://www.discogs.com/master/1381500/"), "id") == None
  {
    var s := "https://www.discogs.com/master/1381500/";
    assert s[|HTTPS_MASTER_PREFIX|..][7] == '/';
    assert s[4] == 's' != HTTP_MASTER_PREFIX[4];
  }

  // ---------------------------------------------------------------------------------------------
  // the enricher

  /** `extractGenres`: the master's genres together with its styles, if it has any. */
  function ExtractGenres(master: DiscogsMaster): (genres: set<string>)
    ensures master.genres <= genres
    ensures master.styles.None? ==> genres == master.genres
    ensures forall g :: g in genres <==> g in master.genres || (master.styles.Some? && g in master.styles.value)
  {
    match master.styles
    case None => master.genres
    case Some(styles) => master.genres + styles
  }

  /**
   * `fetchGenres`: no master ID in the target gives no genres; otherwise the matched genres of the
   * master, or none when the master cannot be looked up.
   */
  function FetchGenres(relation: Relation, services: Services): set<string> {
    match MaybeGroup(UrlMatcher(relation.targetId), "id")
    case None => {}
    case Some(id) =>
      match services.lookUpMaster(id)
      case None => {}
      case Some(master) => services.matchGenres(ExtractGenres(master))
  }

  /** A target that is not a master URL yields no genres, whatever the services would have answered. */
  lemma FetchGenresWithoutId(relation: Relation)
    requires forall id :: !IsMasterUrl(relation.targetId, id)
    ensures forall services :: FetchGenres(relation, services) == {}
  {
    ExtractMasterId(relation.targetId);
  }

  /**
   * For a master URL, the genres are the matched genres and styles of the master with that ID,
   * and none when that master cannot be looked up.
   */
  lemma FetchGenresOfMaster(relation: Relation, services: Services, id: string)
    requires IsMasterUrl(relation.targetId, id)
    ensures services.lookUpMaster(id).None? ==> FetchGenres(relation, services) == {}
    ensures services.lookUpMaster(id).Some? ==>
              FetchGenres(relation, services) == services.matchGenres(ExtractGenres(services.lookUpMaster(id).value))
  {
    ExtractMasterId(relation.targetId);
  }

  /** `isRelationSupported`: a discogs relation pointing at a URL. */
  predicate RelationSupported(relation: Relation) {
    relation.relationType == DISCOGS_RELATION_TYPE && relation.targetType == URL_TARGET_TYPE
  }
}
