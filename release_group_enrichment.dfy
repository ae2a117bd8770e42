/**
 * The release-group enrichment service: the release-group hooks of the enrichment pipeline
 * (fetch the entity, list its relations, run one enricher on one relation, merge the per-task
 * results, submit the merged genres).
 */
module ReleaseGroupEnrichment {
  import opened Wrappers
  import opened Core
  import opened Enrichers

  /** MIN_GENRE_USAGE, 0.90, the share of results a genre needs to survive the merge. */
  const MIN_GENRE_USAGE: real := 0.90

  /** A release group with its URL relations. */
  datatype ReleaseGroupEntity = ReleaseGroupEntity(id: Mbid, relations: seq<Relation>)

  /** The genres found by one task, or the merged genres of all tasks. */
  datatype EnrichmentResult = EnrichmentResult(genres: set<string>)

  /**
   * What the MusicBrainz lookup did: returned a release group or nothing, or threw the
   * `MusicbrainzException` that `fetchEntity` catches.
   */
  datatype Lookup = Returned(entity: Option<ReleaseGroupEntity>) | ThrewMusicbrainzException

  /** `getDataType`: this service handles release groups, as do its genre enrichers. */
  function DataType(): (kind: DataType)
    ensures kind == Wikidata.DataType() && kind == Discogs.DataType()
    ensures kind != Junodownload.DataType()
  {
    ReleaseGroup
  }

  /** `fetchEntity`: the looked-up release group; a lookup that throws a
   * `MusicbrainzException` is reported as absent. */
  function FetchEntity(mbid: Mbid, lookUpReleaseGroup: Mbid -> Lookup): (r: Option<ReleaseGroupEntity>)
    ensures lookUpReleaseGroup(mbid).ThrewMusicbrainzException? ==> r == None
    ensures lookUpReleaseGroup(mbid).Returned? ==> r == lookUpReleaseGroup(mbid).entity
  {
    match lookUpReleaseGroup(mbid)
    case ThrewMusicbrainzException => None
    case Returned(entity) => entity
  }

  /** `extractRelations`: the release group's own relation list, unchanged. */
  function ExtractRelations(entity: ReleaseGroupEntity): (relations: seq<Relation>)
    ensures relations == entity.relations
  {
    entity.relations
  }

  /**
   * `enrich`: the genres a genre enricher fetches for the relation, copied into a fresh result;
   * an enricher of another capability contributes an empty result.
   */
  method Enrich(entity: ReleaseGroupEntity, relation: Relation, enricher: Enricher, env: Env)
    returns (result: EnrichmentResult)
    ensures enricher.Genre? ==> result.genres == enricher.enricher.FetchGenres(relation, env)
    ensures !enricher.Genre? ==> result.genres == {}
  {
    var newGenres: set<string> := {};
    if enricher.Genre? {
      var genres := enricher.enricher.FetchGenres(relation, env);
      newGenres := newGenres + genres;
    }
    result := EnrichmentResult(newGenres);
  }

  /** The distinct genre sets among the per-task results: the votes the merge counts. */
  function Votes(results: seq<EnrichmentResult>): (votes: set<set<string>>)
    ensures forall r :: r in results ==> r.genres in votes
    ensures forall v :: v in votes ==> exists r :: r in results && r.genres == v
  {
    set r | r in results :: r.genres
  }

  /**
   * `mergeResults`: the most common genres among the distinct result sets, at the 0.90 share.
   * `getMostCommon` is a parameter of the model.
   */
  function MergeResults(results: seq<EnrichmentResult>,
                        getMostCommon: (set<set<string>>, real) -> set<string>): EnrichmentResult
  {
    EnrichmentResult(getMostCommon(Votes(results), MIN_GENRE_USAGE))
  }

  /** The merge only sees which genre sets occurred: not their order and not how often. */
  lemma MergeSeesDistinctVotes(results: seq<EnrichmentResult>, others: seq<EnrichmentResult>,
                               getMostCommon: (set<set<string>>, real) -> set<string>)
    requires forall r :: r in results <==> r in others
    ensures MergeResults(results, getMostCommon) == MergeResults(others, getMostCommon)
  {
    assert Votes(results) == Votes(others);
  }

  /** A task result equal to one already collected changes nothing: equal votes count once. */
  lemma RepeatedVoteCountsOnce(results: seq<EnrichmentResult>, repeated: EnrichmentResult,
                               getMostCommon: (set<set<string>>, real) -> set<string>)
    requires repeated in results
    ensures MergeResults(results + [repeated], getMostCommon) == MergeResults(results, getMostCommon)
  {
    MergeSeesDistinctVotes(results + [repeated], results, getMostCommon);
  }

  /** The merge passes exactly `getMostCommon`'s answer for the distinct votes and 0.90 through. */
  lemma MergeIsMostCommon(results: seq<EnrichmentResult>, getMostCommon: (set<set<string>>, real) -> set<string>)
    ensures MergeResults(results, getMostCommon).genres == getMostCommon(Votes(results), 9.0 / 10.0)
  {
  }

  /** A tag submission sent to MusicBrainz. */
  datatype Submission = Submission(releaseGroup: Mbid, genres: set<string>)

  /** The MusicBrainz edit controller, seen through the submissions it has received. */
  class EditController {
    var submissions: seq<Submission>

    constructor ()
      ensures submissions == []
    {
      submissions := [];
    }

    /** `submitReleaseGroupUserTags`. */
    method SubmitReleaseGroupUserTags(entity: ReleaseGroupEntity, genres: set<string>)
      modifies this
      ensures submissions == old(submissions) + [Submission(entity.id, genres)]
    {
      submissions := submissions + [Submission(entity.id, genres)];
    }
  }

  /** `updateEntity`: submit the merged genres for the release group, unless there are none. */
  method UpdateEntity(editController: EditController, entity: ReleaseGroupEntity, result: EnrichmentResult)
    modifies editController
    ensures result.genres == {} ==> editController.submissions == old(editController.submissions)
    ensures result.genres != {} ==>
              editController.submissions == old(editController.submissions) + [Submission(entity.id, result.genres)]
  {
    if result.genres != {} {
      editController.SubmitReleaseGroupUserTags(entity, result.genres);
    }
  }
}
