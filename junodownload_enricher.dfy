/**
 * The Junodownload genre enricher for releases: scrape the release's product page and map the
 * genre it declares onto known genre names.
 */
module JunodownloadEnricher {
  import opened Wrappers
  import opened Core
  import opened RegexUtils

  /** An HTML element, reduced to its attributes. */
  datatype Element = Element(attributes: map<string, string>)

  /**
   * A loaded page, reduced to the elements the selector `[itemprop='genre']` picks out of it, in
   * document order.
   */
  datatype Document = Document(genreElements: seq<Element>)

  /**
   * The collaborators the enricher is built with: the host of a string parsed as a URL (absent
   * when it is not a well-formed URL), the page loader (absent when the page cannot be fetched)
   * and the genre matcher.
   */
  datatype Services = Services(
    urlHost: string -> Option<string>,
    load: string -> Option<Document>,
    matchGenres: set<string> -> set<string>)

  /** HOST_REGEX, `www\.junodownload\.com`: its dots are escaped, so it is a literal. */
  const JUNODOWNLOAD_HOST: string := "www.junodownload.com"

  /** `HOST_REGEX.matcher(host)`: a pattern of literal characters matches the whole host only when equal. */
  function HostMatcher(host: string): Matcher {
    Matcher(host == JUNODOWNLOAD_HOST, map[])
  }

  /**
   * `relationSupported`: only URL targets; of these, only targets that parse as a URL; of
   * these, only those whose host is exactly the Junodownload host. The relation type is not read.
   */
  predicate RelationSupported(relation: Relation, services: Services) {
    if relation.targetType != URL_TARGET_TYPE then false
    else match services.urlHost(relation.targetId)
      case None => false
      case Some(host) => HostMatcher(host).matches
  }

  /** The relation-capability predicate, case by case. */
  lemma RelationSupportedCases(relation: Relation, services: Services)
    ensures relation.targetType != URL_TARGET_TYPE ==>
              forall other: Services :: !RelationSupported(relation, other)
    ensures services.urlHost(relation.targetId).None? ==> !RelationSupported(relation, services)
    ensures RelationSupported(relation, services) <==>
              relation.targetType == URL_TARGET_TYPE && services.urlHost(relation.targetId) == Some(JUNODOWNLOAD_HOST)
    ensures forall t :: RelationSupported(relation, services) ==
                          RelationSupported(relation.(relationType := t), services)
  {
  }

  /** Hosts that a search for the pattern, or a pattern with unescaped dots, would have let through. */
  lemma NearMissHosts()
    ensures !HostMatcher("junodownload.com").matches
    ensures !HostMatcher("www.junodownload.com.example").matches
    ensures !HostMatcher("wwwxjunodownload.com").matches
  {
    assert "wwwxjunodownload.com"[3] != JUNODOWNLOAD_HOST[3];
  }

  /**
   * `Elements.attr(key)`: the value of `key` on the first element that has it, and the empty
   * string when none has it.
   */
  function FirstAttribute(elements: seq<Element>, key: string): (value: string)
    ensures (forall i :: 0 <= i < |elements| ==> key !in elements[i].attributes) ==> value == ""
    ensures forall i :: 0 <= i < |elements| && key in elements[i].attributes
                        && (forall j :: 0 <= j < i ==> key !in elements[j].attributes)
                        ==> value == elements[i].attributes[key]
  {
    if |elements| == 0 then ""
    else if key in elements[0].attributes then elements[0].attributes[key]
    else FirstAttribute(elements[1..], key)
  }

  /** `extractTags`: always exactly one tag, the `content` of the first genre element that has one. */
  function ExtractTags(document: Document): (tags: set<string>)
    ensures |tags| == 1
    ensures FirstAttribute(document.genreElements, "content") in tags
  {
    {FirstAttribute(document.genreElements, "content")}
  }

  /** `fetchGenres`: the matched tags of the loaded page, and none when the page cannot be loaded. */
  function FetchGenres(relation: Relation, services: Services): set<string> {
    match services.load(relation.targetId)
    case None => {}
    case Some(document) => services.matchGenres(ExtractTags(document))
  }

  /** The genres fetched are the matched first `content` attribute of the page, or none without a page. */
  lemma FetchGenresOfPage(relation: Relation, services: Services)
    ensures services.load(relation.targetId).None? ==> FetchGenres(relation, services) == {}
    ensures services.load(relation.targetId).Some? ==>
              FetchGenres(relation, services)
              == services.matchGenres({FirstAttribute(services.load(relation.targetId).value.genreElements, "content")})
  {
  }
}
