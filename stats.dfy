/** The link statistics of one crawl run (stats.Stats, which the code reaches
    through StatsManager.LinkStats). The counters are only ever incremented.
    The RWMutex around them is left out: updates are sequential here. */
module Stats {

  /** A snapshot of the four counters. */
  datatype Counters = Counters(totalLinks: nat, matchedLinks: nat, notMatchedLinks: nat, totalPages: nat)

  const Zero := Counters(0, 0, 0, 0)

  /** Every counter of `after` is at least the one of `before`. */
  predicate NoneDecreased(before: Counters, after: Counters)
  {
    && before.totalLinks <= after.totalLinks
    && before.matchedLinks <= after.matchedLinks
    && before.notMatchedLinks <= after.notMatchedLinks
    && before.totalPages <= after.totalPages
  }

  /** The counters of `c` raised by the increments counted in `d`. */
  function Plus(c: Counters, d: Counters): (r: Counters)
    ensures NoneDecreased(c, r)
  {
    Counters(c.totalLinks + d.totalLinks, c.matchedLinks + d.matchedLinks,
             c.notMatchedLinks + d.notMatchedLinks, c.totalPages + d.totalPages)
  }

  class LinkStats {
    var totalLinks: nat
    var matchedLinks: nat
    var notMatchedLinks: nat
    var totalPages: nat

    /** `&stats.Stats{}`: all counters at their zero value. */
    constructor ()
      ensures Value() == Zero
    {
      totalLinks, matchedLinks, notMatchedLinks, totalPages := 0, 0, 0, 0;
    }

    function Value(): Counters
      reads this
    {
      Counters(totalLinks, matchedLinks, notMatchedLinks, totalPages)
    }

    /** The increments the callbacks of a whole crawl run make, taken
        together: each counter rises by the matching count of `d`. */
    method AddCounts(d: Counters)
      modifies this
      ensures Value() == Plus(old(Value()), d)
    {
      totalLinks := totalLinks + d.totalLinks;
      matchedLinks := matchedLinks + d.matchedLinks;
      notMatchedLinks := notMatchedLinks + d.notMatchedLinks;
      totalPages := totalPages + d.totalPages;
    }

    method IncrementTotalLinks()
      modifies this
      ensures Value() == old(Value()).(totalLinks := old(totalLinks) + 1)
    {
      totalLinks := totalLinks + 1;
    }

    method IncrementMatchedLinks()
      modifies this
      ensures Value() == old(Value()).(matchedLinks := old(matchedLinks) + 1)
    {
      matchedLinks := matchedLinks + 1;
    }

    method IncrementNotMatchedLinks()
      modifies this
      ensures Value() == old(Value()).(notMatchedLinks := old(notMatchedLinks) + 1)
    {
      notMatchedLinks := notMatchedLinks + 1;
    }

    method IncrementTotalPages()
      modifies this
      ensures Value() == old(Value()).(totalPages := old(totalPages) + 1)
    {
      totalPages := totalPages + 1;
    }

    /** Report: the four counters by name, as logCrawlingStatistics reads them. */
    function Report(): (report: map<string, int>)
      reads this
      ensures report.Keys == {"TotalLinks", "MatchedLinks", "NotMatchedLinks", "TotalPages"}
      ensures report["TotalLinks"] == totalLinks && report["MatchedLinks"] == matchedLinks
      ensures report["NotMatchedLinks"] == notMatchedLinks && report["TotalPages"] == totalPages
    {
      map["TotalLinks" := totalLinks, "MatchedLinks" := matchedLinks,
          "NotMatchedLinks" := notMatchedLinks, "TotalPages" := totalPages]
    }
  }
}
