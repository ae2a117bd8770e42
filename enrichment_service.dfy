/**
 * The driver of the release enrichment: for every candidate MBID a query delivers, skip it unless
 * the history store says a check is due; otherwise enrich the release and, only when that
 * returned normally, mark the MBID as checked. An enrichment that throws a `QueryException` is
 * logged and the next MBID is processed; a failed candidate query ends the run without the failure escaping, while one
 * that completes ends it with a NullPointerException (see `OutcomeAsWritten`).
 */
module EnrichmentService {
  import opened Core

  /** A call the driver makes into the release enricher or into the history store. */
  datatype Event =
    | EnrichAttempted(mbid: Mbid, succeeded: bool)   // `enrichRelease(mbid)`: returned normally, or threw a `QueryException`
    | MarkedChecked(mbid: Mbid)                      // `markAsChecked(RELEASE, mbid)`

  /** The MBIDs a candidate query handed to the driver, and whether it then failed. */
  datatype Feed = Feed(delivered: seq<Mbid>, queryFailed: bool)

  /**
   * What the driver consults: the history store's due check, whether enriching a release returns
   * normally, and the candidate queries of the dump mode and (per search query) the query mode.
   */
  datatype Collaborators = Collaborators(
    isDue: Mbid -> bool,
    enrichSucceeds: Mbid -> bool,
    dumpFeed: Feed,
    queryFeed: string -> Feed)

  /** The calls made for one delivered MBID. */
  function Visit(mbid: Mbid, c: Collaborators): seq<Event> {
    if !c.isDue(mbid) then []
    else if c.enrichSucceeds(mbid) then [EnrichAttempted(mbid, true), MarkedChecked(mbid)]
    else [EnrichAttempted(mbid, false)]
  }

  /** The calls made for a sequence of delivered MBIDs, in delivery order. */
  function Sweep(mbids: seq<Mbid>, c: Collaborators): seq<Event> {
    if |mbids| == 0 then [] else Sweep(mbids[..|mbids| - 1], c) + Visit(mbids[|mbids| - 1], c)
  }

  /** The MBIDs marked as checked by a sequence of calls. */
  function Checked(events: seq<Event>): set<Mbid> {
    set e | e in events && e.MarkedChecked? :: e.mbid
  }

  /** Delivering one more MBID appends exactly its calls. */
  lemma SweepSnoc(mbids: seq<Mbid>, mbid: Mbid, c: Collaborators)
    ensures Sweep(mbids + [mbid], c) == Sweep(mbids, c) + Visit(mbid, c)
  {
    assert (mbids + [mbid])[..|mbids|] == mbids;
  }

  /** Proof helper, with no counterpart in the program: concatenation of sequences is associative. */
  lemma Associative<T>(a: seq<T>, b: seq<T>, c: seq<T>)
    ensures (a + b) + c == a + (b + c)
  {
  }

  /** One step of `SweepAppend`: the split survives delivering one more MBID after it. */
  lemma SweepAppendStep(first: seq<Mbid>, init: seq<Mbid>, last: Mbid, c: Collaborators)
    requires Sweep(first + init, c) == Sweep(first, c) + Sweep(init, c)
    ensures Sweep(first + (init + [last]), c) == Sweep(first, c) + Sweep(init + [last], c)
  {
    Associative(first, init, [last]);
    SweepSnoc(first + init, last, c);
    SweepSnoc(init, last, c);
    Associative(Sweep(first, c), Sweep(init, c), Visit(last, c));
  }

  /** The MBIDs are processed independently: a sweep over two parts is the sweep of one, then the other. */
  lemma {:induction false} SweepAppend(first: seq<Mbid>, second: seq<Mbid>, c: Collaborators)
    ensures Sweep(first + second, c) == Sweep(first, c) + Sweep(second, c)
  {
    if |second| == 0 {
      assert first + second == first;
    } else {
      var init, last := second[..|second| - 1], second[|second| - 1];
      assert second == init + [last];
      SweepAppend(first, init, c);
      SweepAppendStep(first, init, last, c);
    }
  }

  /** A check is marked only right after an enrichment of the same MBID that returned normally. */
  lemma {:induction false} MarkFollowsSuccessfulEnrichment(mbids: seq<Mbid>, c: Collaborators)
    ensures forall k :: 0 <= k < |Sweep(mbids, c)| && Sweep(mbids, c)[k].MarkedChecked? ==>
              0 < k && Sweep(mbids, c)[k - 1] == EnrichAttempted(Sweep(mbids, c)[k].mbid, true)
  {
    if mbids != [] {
      var init := mbids[..|mbids| - 1];
      MarkFollowsSuccessfulEnrichment(init, c);
      var before, visit := Sweep(init, c), Visit(mbids[|mbids| - 1], c);
      var events: seq<Event> := before + visit;
      forall k | 0 <= k < |events| && events[k].MarkedChecked?
        ensures 0 < k && events[k - 1] == EnrichAttempted(events[k].mbid, true)
      {
        if k < |before| {
          assert events[k] == before[k];
          assert 0 < k && before[k - 1] == EnrichAttempted(before[k].mbid, true);
          assert events[k - 1] == before[k - 1];
        } else {
          assert events[k] == visit[k - |before|];
        }
      }
    }
  }

  /**
   * Enrichment is attempted exactly for the delivered MBIDs that are due, with the outcome the
   * enricher gives; one that throws a `QueryException` does not keep later ones from being attempted.
   */
  lemma {:induction false} AttemptedExactlyWhenDue(mbids: seq<Mbid>, c: Collaborators, mbid: Mbid, succeeded: bool)
    ensures EnrichAttempted(mbid, succeeded) in Sweep(mbids, c) <==>
              mbid in mbids && c.isDue(mbid) && succeeded == c.enrichSucceeds(mbid)
  {
    if mbids != [] {
      var init, last := mbids[..|mbids| - 1], mbids[|mbids| - 1];
      AttemptedExactlyWhenDue(init, c, mbid, succeeded);
      assert mbids == init + [last];
    }
  }

  /** A check is marked exactly for the delivered MBIDs that are due and whose enrichment succeeded. */
  lemma {:induction false} MarkedExactlyWhenEnriched(mbids: seq<Mbid>, c: Collaborators, mbid: Mbid)
    ensures MarkedChecked(mbid) in Sweep(mbids, c) <==>
              mbid in mbids && c.isDue(mbid) && c.enrichSucceeds(mbid)
  {
    if mbids != [] {
      var init, last := mbids[..|mbids| - 1], mbids[|mbids| - 1];
      MarkedExactlyWhenEnriched(init, c, mbid);
      assert mbids == init + [last];
    }
  }

  /** The MBIDs newly checked by a run are the delivered ones that were due and were enriched. */
  lemma NewlyChecked(mbids: seq<Mbid>, c: Collaborators)
    ensures Checked(Sweep(mbids, c)) == set m | m in mbids && c.isDue(m) && c.enrichSucceeds(m)
  {
    forall m ensures m in Checked(Sweep(mbids, c)) <==> m in mbids && c.isDue(m) && c.enrichSucceeds(m) {
      MarkedExactlyWhenEnriched(mbids, c, m);
    }
  }

  /** An MBID that is not due is neither enriched nor marked. */
  lemma NotDueUntouched(mbids: seq<Mbid>, c: Collaborators, mbid: Mbid)
    requires !c.isDue(mbid)
    ensures forall e :: e in Sweep(mbids, c) ==> e.mbid != mbid
  {
  }

  /** How a run of the driver ends: it returns, or a NullPointerException escapes it. */
  datatype RunOutcome = Returned | NullPointerEscaped

  /**
   * How `enrichRelease` ends as written. Both binders run the candidate query inside `bind` and
   * then return null, so `.execute()` is called on null unless the query threw a QueryException,
   * which is caught.
   */
  function OutcomeAsWritten(feed: Feed): RunOutcome {
    if feed.queryFailed then Returned else NullPointerEscaped
  }

  /** Every run whose candidate query completes ends with a NullPointerException escaping. */
  lemma CompletedQueryEscapesAsWritten(feed: Feed)
    requires !feed.queryFailed
    ensures OutcomeAsWritten(feed) == NullPointerEscaped
  {
  }

  /** The driver, seen through the calls it has made into the enricher and the history store. */
  class Driver {
    var events: seq<Event>

    constructor ()
      ensures events == []
    {
      events := [];
    }

    /** The consumer's body for one MBID: skip it unless due, enrich it, and mark it if that succeeded. */
    method VisitOne(mbid: Mbid, c: Collaborators)
      modifies this
      ensures events == old(events) + Visit(mbid, c)
    {
      if c.isDue(mbid) {
        var succeeded := c.enrichSucceeds(mbid);
        events := events + [EnrichAttempted(mbid, succeeded)];
        if succeeded {
          events := events + [MarkedChecked(mbid)];
        }
      }
    }

    /** The consumer the driver binds, applied to each delivered MBID in turn. */
    method Consume(mbids: seq<Mbid>, c: Collaborators)
      modifies this
      ensures events == old(events) + Sweep(mbids, c)
    {
      for n := 0 to |mbids|
        invariant events == old(events) + Sweep(mbids[..n], c)
      {
        VisitOne(mbids[n], c);
        assert mbids[..n + 1] == mbids[..n] + [mbids[n]];
        SweepSnoc(mbids[..n], mbids[n], c);
        Associative(old(events), Sweep(mbids[..n], c), Visit(mbids[n], c));
      }
      assert mbids[..|mbids|] == mbids;
    }

    /**
     * `enrichRelease` with the binders as written: `bind` runs the query, which feeds every
     * delivered MBID to the consumer; a failed query is caught and the run returns; a query
     * that completes leaves `bind` returning null, and `.execute()` on it throws.
     */
    method EnrichRelease(feed: Feed, c: Collaborators) returns (outcome: RunOutcome)
      modifies this
      ensures events == old(events) + Sweep(feed.delivered, c)
      ensures outcome == OutcomeAsWritten(feed)
    {
      Consume(feed.delivered, c);
      if feed.queryFailed {
        outcome := Returned;
      } else {
        outcome := NullPointerEscaped;
      }
    }

    /**
     * `enrichRelease` with binders that return a NoOp running the query when executed: the same
     * calls are made, and the run always returns, a failed query being caught around `execute`.
     */
    method EnrichReleaseDeferred(feed: Feed, c: Collaborators) returns (outcome: RunOutcome)
      modifies this
      ensures events == old(events) + Sweep(feed.delivered, c)
      ensures outcome == Returned
    {
      Consume(feed.delivered, c);
      outcome := Returned;
    }

    /**
     * `runInDumpMode`: only releases are enriched; any other data type does nothing and returns.
     * A dump query that completes ends the run with a NullPointerException.
     */
    method RunInDumpMode(dataType: DataType, c: Collaborators) returns (outcome: RunOutcome)
      modifies this
      ensures dataType == Release ==> events == old(events) + Sweep(c.dumpFeed.delivered, c)
      ensures dataType == Release ==> outcome == OutcomeAsWritten(c.dumpFeed)
      ensures dataType != Release ==> events == old(events) && outcome == Returned
    {
      if dataType == Release {
        outcome := EnrichRelease(c.dumpFeed, c);
      } else {
        outcome := Returned;
      }
    }

    /**
     * `runInQueryMode`: only releases are enriched, from the MBIDs the search query delivers.
     * A search query that completes ends the run with a NullPointerException.
     */
    method RunInQueryMode(dataType: DataType, query: string, c: Collaborators) returns (outcome: RunOutcome)
      modifies this
      ensures dataType == Release ==> events == old(events) + Sweep(c.queryFeed(query).delivered, c)
      ensures dataType == Release ==> outcome == OutcomeAsWritten(c.queryFeed(query))
      ensures dataType != Release ==> events == old(events) && outcome == Returned
    {
      if dataType == Release {
        outcome := EnrichRelease(c.queryFeed(query), c);
      } else {
        outcome := Returned;
      }
    }
  }
}
