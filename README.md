# musicbrainz-enricher, modelled in Dafny

This project models the sequential core of musicbrainz-enricher. The program adds genre tags to
MusicBrainz releases and release groups. It reads the genres from external sources (Wikidata,
Discogs, Junodownload) through relations attached to the entity, and submits them back as user tags.

The model covers:

- **Named-group extraction** (`RegexUtils.maybeGroup`). A group is returned only when the pattern
  matches the *whole* input. A `Matcher` is the outcome of running a pattern over an input. The
  three patterns of the enrichers (`ID_REGEX`, `URL_REGEX`, `HOST_REGEX`) are hand-coded as
  string functions over `seq<char>`. Each is proved against an independent description of the
  strings it accepts.
- **The three genre enrichers.** Each is modelled with its data type, its relation-capability
  predicate and `fetchGenres`. Their external collaborators are injected as function-valued
  fields of a `Services` record: the Wikidata client, the MusicBrainz genre-name query, the
  Discogs master lookup, the genre matcher, the page loader and URL parsing. This mirrors the
  constructor injection of the source. Wikidata's `extractGenreNames` loop is a method proved
  equal to a set-comprehension specification.
- **The enricher interface** (`Enrichers`). It covers the genre enrichers and enrichers of other
  capabilities, with `DataType`, `Supported` and `FetchGenres`.
- **The release-group enrichment service.** It models `fetchEntity` (a `MusicbrainzException` from
  the lookup becomes "absent"), `extractRelations`, `enrich`, `mergeResults` and `updateEntity`.
  - `mergeResults` collapses the per-task results into a *set* of genre sets before it calls
    `getMostCommon`.
  - `updateEntity` submits only non-empty genre sets. Its submissions are logged on an
    `EditController` object.
- **The enrichment driver** (`EnrichmentService`). It runs a per-MBID loop: gate on the history
  store's due check, enrich, and mark checked only after a successful enrichment. The calls it
  makes are recorded as an event log on a `Driver` object and specified by the function `Sweep`.
  Each run also returns how it ended: it returns normally, or a NullPointerException escapes it
  (see Findings).
- **The paginated candidate feed** (`MusicbrainzAutoQueryService`). The count is read once. Pages
  are then requested at offsets 0, 1000, 2000, … below it, each with limit 1000. The loop is
  proved to make exactly ceil(count / 1000) requests and to hand every MBID to the consumer in
  order.

The source files come from two revisions of the repository, with package roots
`org.felixrilling` and `dev.rilling`. The model follows each file as written. Three facts about
the code that a reader might not expect:

- Identical genre sets from different tasks count as one vote in the consensus merge, because the
  per-task results are collected with `Collectors.toSet()`
  (ReleaseGroupEnrichmentService.java:97; `ReleaseGroupEnrichment.RepeatedVoteCountsOnce`).
- The driver marks a release as checked as soon as `ReleaseEnricherService.enrichRelease` returns
  normally (EnrichmentService.java:63-65). That service is not part of this model.
- The Junodownload capability predicate never reads the relation type. It checks only the target
  type and the URL host (JundownloadReleaseEnricher.java:52-64).

## Model

| member | source | states |
|---|---|---|
| `RegexUtils.MaybeGroup` | src/main/java/org/felixrilling/musicbrainzenricher/util/RegexUtils.java:15-16 | empty unless the whole input matched; when it matched, the named group's text if the group took part, empty (not a failure) if it did not |
| `WikidataEnricher.ExtractId` | src/main/java/org/felixrilling/musicbrainzenricher/enrichment/releasegroup/WikidataReleaseGroupEnricher.java:47 | an ID is extracted iff the whole target is ≥1 non-line-terminator characters, `/`, `Q` and digits; the ID is the item ID after that `/`, which is the last `/` of the target |
| `WikidataEnricher.ExtractIdRoundTrip` | src/main/java/org/felixrilling/musicbrainzenricher/enrichment/releasegroup/WikidataReleaseGroupEnricher.java:59 | prefix + `/` + item ID always extracts back to exactly that item ID |
| `WikidataEnricher.ExampleTarget` | src/main/java/org/felixrilling/musicbrainzenricher/enrichment/releasegroup/WikidataReleaseGroupEnricher.java:37 | the example Wikidata URL yields `Q922756` |
| `WikidataEnricher.LastSlash` | src/main/java/org/felixrilling/musicbrainzenricher/enrichment/releasegroup/WikidataReleaseGroupEnricher.java:47 | finds the last `/` of the target, or reports that there is none |
| `WikidataEnricher.FindGenreName` | src/main/java/org/felixrilling/musicbrainzenricher/enrichment/releasegroup/WikidataReleaseGroupEnricher.java:80-94 | empty when the link statements are absent or empty, or when the first one is not a string; otherwise the database's name for the MBID in the first link statement only |
| `WikidataEnricher.ExtractGenreNames` | src/main/java/org/felixrilling/musicbrainzenricher/enrichment/releasegroup/WikidataReleaseGroupEnricher.java:68-78 | the loop builds exactly the set of names found for the entity-ID statements |
| `WikidataEnricher.GenreNamesAppend` | src/main/java/org/felixrilling/musicbrainzenricher/enrichment/releasegroup/WikidataReleaseGroupEnricher.java:70-76 | one more statement adds exactly its own contribution: its genre name, or nothing |
| `WikidataEnricher.NonEntityStatementIgnored` | src/main/java/org/felixrilling/musicbrainzenricher/enrichment/releasegroup/WikidataReleaseGroupEnricher.java:71-72 | a statement whose value is not an entity ID changes nothing, wherever it stands in the list |
| `WikidataEnricher.GenreNamesFromDatabase` | src/main/java/org/felixrilling/musicbrainzenricher/enrichment/releasegroup/WikidataReleaseGroupEnricher.java:74 | every extracted name is an answer of `queryGenreNameByMbid` |
| `WikidataEnricher.FetchGenresWithoutId` | src/main/java/org/felixrilling/musicbrainzenricher/enrichment/releasegroup/WikidataReleaseGroupEnricher.java:59-63 | a target without an item ID yields the empty set for every choice of services |
| `WikidataEnricher.FetchGenresOfEntity` | src/main/java/org/felixrilling/musicbrainzenricher/enrichment/releasegroup/WikidataReleaseGroupEnricher.java:65 | with an ID: the genre names of the entity's P136 statements, or empty when the entity cannot be read |
| `WikidataEnricher.FetchGenresFromDatabase` | src/main/java/org/felixrilling/musicbrainzenricher/enrichment/releasegroup/WikidataReleaseGroupEnricher.java:93 | every fetched genre is a name the MusicBrainz database answered with |
| `DiscogsEnricher.ExtractMasterId` | src/main/java/org/felixrilling/musicbrainzenricher/enrichment/releasegroup/DiscogsReleaseGroupEnricher.java:27 | an ID is extracted iff the whole target is `http` or `https` + `://www.discogs.com/master/` + digits; the ID is those digits, non-empty |
| `DiscogsEnricher.TrailingSlashRejected` | src/main/java/org/felixrilling/musicbrainzenricher/enrichment/releasegroup/DiscogsReleaseGroupEnricher.java:39 | a master URL with a trailing slash yields no ID |
| `DiscogsEnricher.ExtractGenres` | src/main/java/org/felixrilling/musicbrainzenricher/enrichment/releasegroup/DiscogsReleaseGroupEnricher.java:48-54 | a genre is in the result iff it is a genre or a style of the master; always every genre; exactly the genres when styles are null |
| `DiscogsEnricher.FetchGenresWithoutId` | src/main/java/org/felixrilling/musicbrainzenricher/enrichment/releasegroup/DiscogsReleaseGroupEnricher.java:39-43 | a target that is not a master URL yields the empty set for every choice of services |
| `DiscogsEnricher.FetchGenresOfMaster` | src/main/java/org/felixrilling/musicbrainzenricher/enrichment/releasegroup/DiscogsReleaseGroupEnricher.java:44-45 | for a master URL: empty when the lookup yields nothing, else the matched genres and styles of that master |
| `JunodownloadEnricher.RelationSupportedCases` | src/main/java/org/felixrilling/musicbrainzenricher/enrichment/release/JundownloadReleaseEnricher.java:52-64 | false for a non-URL target type whatever URL parsing would say; false when the target does not parse; true iff URL target type and host exactly `www.junodownload.com`; the relation type is never read |
| `JunodownloadEnricher.NearMissHosts` | src/main/java/org/felixrilling/musicbrainzenricher/enrichment/release/JundownloadReleaseEnricher.java:31 | `junodownload.com`, `www.junodownload.com.example` and `wwwxjunodownload.com` are rejected (whole match, literal dots) |
| `JunodownloadEnricher.FirstAttribute` | src/main/java/org/felixrilling/musicbrainzenricher/enrichment/release/JundownloadReleaseEnricher.java:48 | the `content` attribute of the first selected element that has one, and `""` when none has |
| `JunodownloadEnricher.ExtractTags` | src/main/java/org/felixrilling/musicbrainzenricher/enrichment/release/JundownloadReleaseEnricher.java:47-49 | always exactly one tag, the first `content` attribute |
| `JunodownloadEnricher.FetchGenresOfPage` | src/main/java/org/felixrilling/musicbrainzenricher/enrichment/release/JundownloadReleaseEnricher.java:43-45 | empty when the page cannot be loaded; otherwise the genre matcher's answer for one single tag |
| `Enrichers.DataTypes` | src/main/java/org/felixrilling/musicbrainzenricher/enrichment/release/JundownloadReleaseEnricher.java:67-69 | Junodownload declares RELEASE; Wikidata and Discogs declare RELEASE_GROUP (their `getDataType`) |
| `Enrichers.SupportedRelations` | src/main/java/org/felixrilling/musicbrainzenricher/enrichment/releasegroup/WikidataReleaseGroupEnricher.java:97-100 | Wikidata: iff type is `…#wikidata` and target type `…#url`; Discogs likewise with `…#discogs` (its `isRelationSupported`); Junodownload: iff URL target whose host is exactly the Junodownload host |
| `Enrichers.ReleaseGroupEnrichersExclusive` | src/main/java/org/felixrilling/musicbrainzenricher/enrichment/releasegroup/DiscogsReleaseGroupEnricher.java:57-60 | no relation is claimed by both the Wikidata and the Discogs enricher |
| `ReleaseGroupEnrichment.DataType` | src/main/java/dev/rilling/musicbrainzenricher/enrichment/releasegroup/ReleaseGroupEnrichmentService.java:45-47 | the service handles RELEASE_GROUP, the kind of the Wikidata and Discogs enrichers and not of the Junodownload one |
| `ReleaseGroupEnrichment.FetchEntity` | src/main/java/dev/rilling/musicbrainzenricher/enrichment/releasegroup/ReleaseGroupEnrichmentService.java:51-63 | a lookup that throws a `MusicbrainzException` gives an absent entity; otherwise the lookup's own answer |
| `ReleaseGroupEnrichment.ExtractRelations` | src/main/java/dev/rilling/musicbrainzenricher/enrichment/releasegroup/ReleaseGroupEnrichmentService.java:67-69 | the entity's relation list, unchanged |
| `ReleaseGroupEnrichment.Enrich` | src/main/java/dev/rilling/musicbrainzenricher/enrichment/releasegroup/ReleaseGroupEnrichmentService.java:73-90 | exactly the genres the enricher fetches when it is a genre enricher, the empty set otherwise |
| `ReleaseGroupEnrichment.Votes` | src/main/java/dev/rilling/musicbrainzenricher/enrichment/releasegroup/ReleaseGroupEnrichmentService.java:95-97 | the votes are exactly the genre sets occurring among the results |
| `ReleaseGroupEnrichment.MergeSeesDistinctVotes` | src/main/java/dev/rilling/musicbrainzenricher/enrichment/releasegroup/ReleaseGroupEnrichmentService.java:95-97 | two result collections with the same members merge alike: order and multiplicity do not matter |
| `ReleaseGroupEnrichment.RepeatedVoteCountsOnce` | src/main/java/dev/rilling/musicbrainzenricher/enrichment/releasegroup/ReleaseGroupEnrichmentService.java:95-97 | adding a result equal to one already collected leaves the merge unchanged |
| `ReleaseGroupEnrichment.MergeIsMostCommon` | src/main/java/dev/rilling/musicbrainzenricher/enrichment/releasegroup/ReleaseGroupEnrichmentService.java:29 | the merged result is exactly `getMostCommon` of the distinct votes at the fixed share 9/10 |
| `ReleaseGroupEnrichment.UpdateEntity` | src/main/java/dev/rilling/musicbrainzenricher/enrichment/releasegroup/ReleaseGroupEnrichmentService.java:103-108 | no submission for empty genres; otherwise exactly one submission, of the merged genres for that release group |
| `EnrichmentService.Driver.VisitOne` | src/main/java/org/felixrilling/musicbrainzenricher/EnrichmentService.java:59-67 | for one MBID the calls are exactly `Visit`: none unless due, then the enrichment, then the mark only if it returned normally |
| `EnrichmentService.Driver.Consume` | src/main/java/org/felixrilling/musicbrainzenricher/EnrichmentService.java:58-68 | the consumer's calls over a sequence of MBIDs are exactly `Sweep` of it, appended to the log |
| `EnrichmentService.Driver.EnrichRelease` | src/main/java/org/felixrilling/musicbrainzenricher/EnrichmentService.java:56-73 | the calls made are exactly `Sweep` of the delivered MBIDs; the run returns when the candidate query failed and ends with a NullPointerException when it completed |
| `EnrichmentService.CompletedQueryEscapesAsWritten` | src/main/java/org/felixrilling/musicbrainzenricher/EnrichmentService.java:36-39 | a candidate query that completes makes the run end with a NullPointerException escaping |
| `EnrichmentService.Driver.EnrichReleaseDeferred` | src/main/java/org/felixrilling/musicbrainzenricher/EnrichmentService.java:56-73 | with binders that defer the query to `execute`, the same calls are made and the run always returns |
| `EnrichmentService.Driver.RunInDumpMode` | src/main/java/org/felixrilling/musicbrainzenricher/EnrichmentService.java:32-41 | RELEASE runs the sweep over the dump query's MBIDs and ends as `EnrichRelease` does; any other data type makes no call and returns |
| `EnrichmentService.Driver.RunInQueryMode` | src/main/java/org/felixrilling/musicbrainzenricher/EnrichmentService.java:43-54 | RELEASE runs the sweep over the search query's MBIDs and ends as `EnrichRelease` does; any other data type makes no call and returns |
| `EnrichmentService.SweepAppend` | src/main/java/org/felixrilling/musicbrainzenricher/EnrichmentService.java:58-69 | MBIDs are processed independently, in delivery order: the sweep of two parts is the first part's, then the second's |
| `EnrichmentService.MarkFollowsSuccessfulEnrichment` | src/main/java/org/felixrilling/musicbrainzenricher/EnrichmentService.java:63-65 | every mark-as-checked directly follows a normal return of the enrichment of the same MBID |
| `EnrichmentService.AttemptedExactlyWhenDue` | src/main/java/org/felixrilling/musicbrainzenricher/EnrichmentService.java:59-68 | enrichment is attempted iff the MBID was delivered and is due, whether earlier enrichments returned normally or threw a `QueryException` |
| `EnrichmentService.MarkedExactlyWhenEnriched` | src/main/java/org/felixrilling/musicbrainzenricher/EnrichmentService.java:63-68 | an MBID is marked iff it was delivered, is due and its enrichment returned normally |
| `EnrichmentService.NewlyChecked` | src/main/java/org/felixrilling/musicbrainzenricher/EnrichmentService.java:58-69 | the set of newly checked MBIDs is exactly the delivered, due, successfully enriched ones |
| `EnrichmentService.NotDueUntouched` | src/main/java/org/felixrilling/musicbrainzenricher/EnrichmentService.java:59-62 | an MBID that is not due is neither enriched nor marked |
| `AutoQuery.PageCountBound` | src/main/java/dev/rilling/musicbrainzenricher/api/musicbrainz/MusicbrainzAutoQueryService.java:35 | page k is requested iff k × 1000 is below the count |
| `AutoQuery.RequestsCoverCount` | src/main/java/dev/rilling/musicbrainzenricher/api/musicbrainz/MusicbrainzAutoQueryService.java:34-40 | no request for a count ≤ 0; otherwise ceil(count/1000) requests at offsets i × 1000, strictly increasing, all in [0, count), each with limit 1000 |
| `AutoQuery.ThreePagesFor2500` | src/main/java/dev/rilling/musicbrainzenricher/api/musicbrainz/MusicbrainzAutoQueryService.java:37 | a count of 2500 gives requests at offsets 0, 1000 and 2000 |
| `AutoQuery.Paginate` | src/main/java/dev/rilling/musicbrainzenricher/api/musicbrainz/MusicbrainzAutoQueryService.java:34-40 | the loop terminates, makes exactly the requests of `Requests(count)`, and hands on every MBID of every page in order |
| `AutoQuery.AutoQueryReleasesWithRelationships` | src/main/java/dev/rilling/musicbrainzenricher/api/musicbrainz/MusicbrainzAutoQueryService.java:30-41 | the release feed pages as `Paginate` does over the release repository |
| `AutoQuery.AutoQueryReleaseGroupsWithRelationships` | src/main/java/dev/rilling/musicbrainzenricher/api/musicbrainz/MusicbrainzAutoQueryService.java:43-53 | the release-group feed pages exactly like the release feed |
| `AutoQuery.NextOffsetAsWritten` | src/main/java/dev/rilling/musicbrainzenricher/api/musicbrainz/MusicbrainzAutoQueryService.java:51 | `offset += LIMIT` on a `long`: stays in the `long` range, wrapping by 2^64 past Long.MAX_VALUE |
| `AutoQuery.OffsetWrapsAsWritten` | src/main/java/dev/rilling/musicbrainzenricher/api/musicbrainz/MusicbrainzAutoQueryService.java:39 | with count = Long.MAX_VALUE the offset after the last intended page is negative and still below the count |
| `AutoQuery.NeverEndsAsWritten` | src/main/java/dev/rilling/musicbrainzenricher/api/musicbrainz/MusicbrainzAutoQueryService.java:35 | with count = Long.MAX_VALUE every offset the loop reaches is a multiple of 8 below the count, so the loop never ends |

## Left out

- The concurrent fan-out of enrichers. It lives in `AbstractEnrichmentService`, which is not part
  of this model. So is the matching of relations to enrichers. The executor, task isolation and
  the wait-for-all barrier are therefore not modelled.
- Rate limiting (`SpotifyBucketProvider`, `DiscogsBucketProvider`). These are bucket4j
  configuration with time-based refill, so they are not modelled.
- Process bootstrap (`MusicbrainzEnricherApplication`) and all logging are not modelled.
- `ScrapingService.load` is HTTP I/O. It is the parameter `load`, returning an optional document.
- External collaborators that are not part of this model become parameters. This covers
  `MergeUtils.getMostCommon`, `GenreMatcherService.match`, `WikidataService.findEntityPropertyValues`,
  `MusicbrainzDbQueryService.queryGenreNameByMbid`, `DiscogsQueryService.lookUpMaster`, the
  lookup and edit controllers, the history store and the repositories' count and page queries.
  No property of `getMostCommon` is assumed. In particular the model says nothing about whether
  its threshold is inclusive.
- The general regular-expression and URL engines are not modelled. The three patterns are
  hand-coded, and `new URL(...).getHost()` is the partial parameter `urlHost`.
- The HTML selector `[itemprop='genre']` is not evaluated. A document is modelled as the sequence
  of elements that the selector picks.
- `Matcher.group` with a name the pattern does not define throws. Both call sites pass `id`,
  which both patterns define, so this case is not modelled.
- `DiscogsRelease` is a DTO whose only logic is defensive copying. Its shape (required genres,
  optional styles) is reused as `DiscogsMaster`.
- `fetchEntity`'s include flags (URL relations, tags, user tags) are not modelled. The lookup is
  a parameter that returns an entity, returns nothing, or throws a `MusicbrainzException`.
- `EnrichmentService`: an exception other than `QueryException` from `checkIsDue`,
  `enrichRelease` or `markAsChecked` escapes the consumer and the query and ends the run, so no
  later MBID is attempted; not modelled. A failed enrichment in the model is one that threw a
  `QueryException`.
- `ReleaseGroupEnrichment.FetchEntity`: only a `MusicbrainzException` becomes absent; any other
  exception from the lookup propagates; not modelled.
- The Wikidata enricher imports `org.felixrilling.musicbrainzenricher.enrichment.RegexUtils`
  (WikidataReleaseGroupEnricher.java:7), which is not part of this model. Its `maybeGroup` is
  assumed to behave as `util.RegexUtils.maybeGroup`, which the Discogs enricher uses and which is
  modelled as `RegexUtils.MaybeGroup`.
- `EnrichmentService`: the due check and the outcome of `enrichRelease` are modelled as fixed
  per MBID for the duration of one run. The history store's timestamps are not modelled, and
  neither is whether a mark changes a later due check of the same MBID within the run.
- `WikidataEnricher.FetchGenresWithoutId`: states that the result is empty and independent of
  every service, not literally that no call is made. The model has no trace of calls into the
  enricher services.
- `DiscogsEnricher.FetchGenresWithoutId`: states that the result is empty and independent of
  every service, not literally that no lookup is made.
- `AutoQuery.Paginate`: the count is a value read once, before any request. The model therefore
  reflects the accepted staleness of the count, and does not model a repository whose count
  changes during the sweep.
- `AutoQuery.Paginate`: models the offset as an unbounded integer. The 64-bit `long` behaviour
  of the offset is modelled separately and reported under Findings.

## Findings

| source | as written | input that shows it | evidently intended | confidence | as-written member | corrected member |
|---|---|---|---|---|---|---|
| src/main/java/dev/rilling/musicbrainzenricher/api/musicbrainz/MusicbrainzAutoQueryService.java:39 | `offset += LIMIT` on a `long` wraps to a negative value once the offset passes Long.MAX_VALUE, and `offset < count` stays true | count = 9223372036854775807: after the page at offset 9223372036854775000, the next offset is -9223372036854775616, and every later offset is a multiple of 8 below the count, so the loop requests pages forever (`AutoQuery.NeverEndsAsWritten`) | offsets stay in [0, count) and the loop stops after ceil(count/1000) pages | low: no real table has that many rows; not executed | `AutoQuery.OffsetWrapsAsWritten` | `AutoQuery.Paginate` |
| src/main/java/org/felixrilling/musicbrainzenricher/EnrichmentService.java:36-39 | both binders (also :47-52) run the query inside `bind` and `return null`, and `.execute()` at :69 is called on that null; only `QueryException` is caught at :70 | any dump or search query that completes, e.g. one delivering no MBIDs: `bind` returns null and the NullPointerException escapes `runInDumpMode` (`EnrichmentService.CompletedQueryEscapesAsWritten`) | `bind` returns a NoOp that runs the query when executed, so a run whose query completes returns normally | high: `execute()` on a null reference always throws; not executed | `EnrichmentService.Driver.EnrichRelease` | `EnrichmentService.Driver.EnrichReleaseDeferred` |
