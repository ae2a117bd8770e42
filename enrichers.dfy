/**
 * The enricher interface: every enricher names the entity kind it works on and a predicate on
 * relations it can handle; a genre enricher additionally fetches genres for a relation.
 */
module Enrichers {
  import opened Wrappers
  import opened Core
  import WikidataEnricher
  import DiscogsEnricher
  import JunodownloadEnricher

  /** The collaborators of all genre enrichers, as injected into each. */
  datatype Env = Env(
    wikidata: WikidataEnricher.Services,
    discogs: DiscogsEnricher.Services,
    junodownload: JunodownloadEnricher.Services)

  /** The genre enrichers of this model. */
  datatype GenreEnricher = Wikidata | Discogs | Junodownload {

    /** `getDataType`. */
    function DataType(): DataType {
      match this
      case Wikidata => ReleaseGroup
      case Discogs => ReleaseGroup
      case Junodownload => Release
    }

    /** `relationSupported` / `isRelationSupported`. */
    predicate Supported(relation: Relation, env: Env) {
      match this
      case Wikidata => WikidataEnricher.RelationSupported(relation)
      case Discogs => DiscogsEnricher.RelationSupported(relation)
      case Junodownload => JunodownloadEnricher.RelationSupported(relation, env.junodownload)
    }

    /** `fetchGenres`. */
    function FetchGenres(relation: Relation, env: Env): set<string> {
      match this
      case Wikidata => WikidataEnricher.FetchGenres(relation, env.wikidata)
      case Discogs => DiscogsEnricher.FetchGenres(relation, env.discogs)
      case Junodownload => JunodownloadEnricher.FetchGenres(relation, env.junodownload)
    }
  }

  /**
   * Any enricher: one of the genre enrichers, or an enricher of another capability, known here
   * only by its entity kind and its relation predicate.
   */
  datatype Enricher = Genre(enricher: GenreEnricher) | Other(kind: DataType, supports: Relation -> bool) {

    function DataType(): DataType {
      match this
      case Genre(e) => e.DataType()
      case Other(kind, _) => kind
    }

    predicate Supported(relation: Relation, env: Env) {
      match this
      case Genre(e) => e.Supported(relation, env)
      case Other(_, supports) => supports(relation)
    }
  }

  /** The entity kind each genre enricher declares. */
  lemma DataTypes()
    ensures Wikidata.DataType() == ReleaseGroup
    ensures Discogs.DataType() == ReleaseGroup
    ensures Junodownload.DataType() == Release
  {
  }

  /** Which relations each genre enricher accepts. */
  lemma SupportedRelations(relation: Relation, env: Env)
    ensures Wikidata.Supported(relation, env) <==>
              relation.relationType == WIKIDATA_RELATION_TYPE && relation.targetType == URL_TARGET_TYPE
    ensures Discogs.Supported(relation, env) <==>
              relation.relationType == DISCOGS_RELATION_TYPE && relation.targetType == URL_TARGET_TYPE
    ensures Junodownload.Supported(relation, env) <==>
              relation.targetType == URL_TARGET_TYPE
              && env.junodownload.urlHost(relation.targetId) == Some(JunodownloadEnricher.JUNODOWNLOAD_HOST)
  {
  }

  /** The two release-group enrichers never claim the same relation. */
  lemma ReleaseGroupEnrichersExclusive(relation: Relation, env: Env)
    ensures !(Wikidata.Supported(relation, env) && Discogs.Supported(relation, env))
  {
  }
}
