/**
 * The paginated candidate feed: count the entities with at least one relationship once, then
 * request their MBIDs page by page (offsets 0, 1000, 2000, ... below the count, each with limit
 * 1000) and hand every MBID of every page to the consumer, in order.
 */
module AutoQuery {
  import opened Core

  /** LIMIT, the page size. */
  const LIMIT: int := 1000

  /** A request for one page of MBIDs. */
  datatype PageRequest = PageRequest(offset: int, limit: int)

  /**
   * A repository as the feed uses it: the number of eligible entities (read once, when the feed
   * starts) and the page query.
   */
  datatype Repository = Repository(count: int, findPage: (int, int) -> seq<Mbid>)

  /** The number of pages needed to cover `count` entities. */
  function PageCount(count: int): nat {
    if count <= 0 then 0 else (count + LIMIT - 1) / LIMIT
  }

  /** The page requests the feed is meant to make for `count` entities. */
  function Requests(count: int): seq<PageRequest> {
    seq(PageCount(count), i => PageRequest(i * LIMIT, LIMIT))
  }

  /** The MBIDs the pages answer to `requests` hold, page after page. */
  function Pages(requests: seq<PageRequest>, findPage: (int, int) -> seq<Mbid>): seq<Mbid> {
    if requests == [] then []
    else Pages(requests[..|requests| - 1], findPage)
         + findPage(requests[|requests| - 1].offset, requests[|requests| - 1].limit)
  }

  /** Page `k` starts below the count exactly when `k` is one of the pages. */
  lemma PageCountBound(count: int, k: nat)
    ensures k < PageCount(count) <==> k * LIMIT < count
  {
  }

  /**
   * The requests: none for a count of at most zero; otherwise ceil(count / 1000) of them, at
   * offsets 0, 1000, 2000, ..., each below the count, each with limit 1000.
   */
  lemma RequestsCoverCount(count: int)
    ensures count <= 0 ==> Requests(count) == []
    ensures count > 0 ==> |Requests(count)| * LIMIT >= count && (|Requests(count)| - 1) * LIMIT < count
    ensures forall i :: 0 <= i < |Requests(count)| ==>
              Requests(count)[i].offset == i * LIMIT && Requests(count)[i].limit == LIMIT
              && 0 <= Requests(count)[i].offset < count
    ensures forall i, j :: 0 <= i < j < |Requests(count)| ==> Requests(count)[i].offset < Requests(count)[j].offset
  {
  }

  /** The example of a 2500-entity feed: three pages, at 0, 1000 and 2000. */
  lemma ThreePagesFor2500()
    ensures Requests(2500) == [PageRequest(0, LIMIT), PageRequest(1000, LIMIT), PageRequest(2000, LIMIT)]
  {
  }

  /**
   * The paging loop: request pages at increasing offsets until the offset reaches the count,
   * handing every MBID on to the consumer. Returns the requests made and what the consumer got.
   */
  method Paginate(repository: Repository) returns (requests: seq<PageRequest>, consumed: seq<Mbid>)
    ensures requests == Requests(repository.count)
    ensures consumed == Pages(requests, repository.findPage)
  {
    var count := repository.count;
    var offset := 0;
    requests, consumed := [], [];
    while offset < count
      invariant offset == |requests| * LIMIT
      invariant |requests| <= PageCount(count)
      invariant requests == Requests(count)[..|requests|]
      invariant consumed == Pages(requests, repository.findPage)
      decreases PageCount(count) - |requests|
    {
      PageCountBound(count, |requests|);
      var request := PageRequest(offset, LIMIT);
      consumed := consumed + repository.findPage(offset, LIMIT);
      assert (requests + [request])[..|requests|] == requests;
      requests := requests + [request];
      offset := offset + LIMIT;
    }
    PageCountBound(count, |requests|);
  }

  /** `autoQueryReleasesWithRelationships`. */
  method AutoQueryReleasesWithRelationships(releases: Repository)
    returns (requests: seq<PageRequest>, consumed: seq<Mbid>)
    ensures requests == Requests(releases.count)
    ensures consumed == Pages(requests, releases.findPage)
  {
    requests, consumed := Paginate(releases);
  }

  /** `autoQueryReleaseGroupsWithRelationships`: pages exactly as the release variant does. */
  method AutoQueryReleaseGroupsWithRelationships(releaseGroups: Repository)
    returns (requests: seq<PageRequest>, consumed: seq<Mbid>)
    ensures requests == Requests(releaseGroups.count)
    ensures consumed == Pages(requests, releaseGroups.findPage)
  {
    requests, consumed := Paginate(releaseGroups);
  }

  // ---------------------------------------------------------------------------------------------
  // The offset as written: a Java `long`, advanced with `offset += LIMIT`

  const LONG_MIN: int := -0x8000_0000_0000_0000
  const LONG_MAX: int := 0x7fff_ffff_ffff_ffff

  /** `offset + LIMIT` in 64-bit two's complement: past LONG_MAX it wraps to a negative value. */
  function NextOffsetAsWritten(offset: int): (next: int)
    requires LONG_MIN <= offset <= LONG_MAX
    ensures LONG_MIN <= next <= LONG_MAX
    ensures next == offset + LIMIT || next == offset + LIMIT - 0x1_0000_0000_0000_0000
  {
    if offset + LIMIT > LONG_MAX then offset + LIMIT - 0x1_0000_0000_0000_0000 else offset + LIMIT
  }

  /** The `long` offset after `n` turns of the loop as written. */
  function OffsetAsWritten(n: nat): (offset: int)
    ensures LONG_MIN <= offset <= LONG_MAX
  {
    if n == 0 then 0 else NextOffsetAsWritten(OffsetAsWritten(n - 1))
  }

  /**
   * With the count at LONG_MAX, the last page the feed is meant to request is at offset
   * 9223372036854775000; the loop as written then moves on to a negative offset, still below the
   * count, and requests a page there.
   */
  lemma OffsetWrapsAsWritten()
    ensures var last := 9_223_372_036_854_775_000;
            && Requests(LONG_MAX)[|Requests(LONG_MAX)| - 1].offset == last
            && NextOffsetAsWritten(last) < 0
            && NextOffsetAsWritten(last) < LONG_MAX
  {
  }

  /**
   * With the count at LONG_MAX the loop as written never ends: every offset it reaches is a
   * multiple of 8, so never LONG_MAX, so always below the count.
   */
  lemma {:induction false} NeverEndsAsWritten(n: nat)
    ensures OffsetAsWritten(n) % 8 == 0
    ensures OffsetAsWritten(n) < LONG_MAX
  {
    if n > 0 {
      NeverEndsAsWritten(n - 1);
    }
  }
}
