/** The older link bookkeeping of crawler/utils.go. A link whose terms match
    is scored, appended to the crawl's page list, counted as matched and
    saved on its own under the site's key. A link with no match is counted
    only as a link: this path never counts a non-match. */
module LegacyCrawler {
  import opened Common
  import opened Colly
  import GoStrings
  import Stats

  /** The record of the `models` package, reduced to the fields this file
      sets or that its UpdatePageData is named after (the package itself is
      not part of this model). */
  datatype PageData = PageData(url: string, matchingTerms: seq<string>, similarity: real)

  /** The code this file calls but which is not part of the model. */
  datatype Collaborators = Collaborators(
    /** e.Request.AbsoluteURL */
    absoluteURL: Resolver,
    /** TermMatcher.GetMatchingTerms(href, anchorText, searchTerms) */
    getMatchingTerms: (string, string, seq<string>) -> seq<string>,
    /** TermMatcher.CompareTerms(currentURL, joinedTerms): the similarity score */
    compareTerms: (string, string) -> real,
    /** PageData.UpdatePageData(matchingTerms, score): the record it leaves */
    updatePageData: (PageData, seq<string>, real) -> PageData)

  /** getHref: the resolved href, or an error exactly when it is empty. */
  function GetHref(lib: Collaborators, a: Anchor): (r: Result<string>)
    ensures r.Err? <==> lib.absoluteURL(a.pageURL, a.hrefAttr) == ""
    ensures r.Err? ==> r.error == MissingHref
    ensures r.Ok? ==> r.value == lib.absoluteURL(a.pageURL, a.hrefAttr)
  {
    var href := lib.absoluteURL(a.pageURL, a.hrefAttr);
    if href == "" then Err(MissingHref) else Ok(href)
  }

  /** createPageData: a record with only its URL set. */
  function CreatePageData(href: string): (p: PageData)
    ensures p.url == href && p.matchingTerms == [] && p.similarity == 0.0
  {
    PageData(href, [], 0.0)
  }

  /** One SaveResultsToRedis request of the database manager: the key and
      the records, and whether it failed. */
  datatype SaveRequest = SaveRequest(key: string, records: seq<PageData>, failed: bool)

  /** The counters, `cm.Results.Pages`, and the save requests made so far. */
  datatype State = State(counters: Stats.Counters, pages: seq<PageData>, saves: seq<SaveRequest>)

  /** The record handleMatchingTerms builds: scored against the page URL
      with the terms joined by spaces. */
  function ScoredRecord(lib: Collaborators, currentURL: string, pageData: PageData, matchingTerms: seq<string>): PageData
  {
    lib.updatePageData(pageData, matchingTerms, lib.compareTerms(currentURL, GoStrings.Join(matchingTerms, ' ')))
  }

  /** UpdateStats: MatchedLinks rises when some term matched, otherwise
      NotMatchedLinks. */
  function UpdateStatsStep(c: Stats.Counters, matchingTerms: seq<string>): (r: Stats.Counters)
    ensures matchingTerms != [] ==> r == c.(matchedLinks := c.matchedLinks + 1)
    ensures matchingTerms == [] ==> r == c.(notMatchedLinks := c.notMatchedLinks + 1)
  {
    if |matchingTerms| > 0 then c.(matchedLinks := c.matchedLinks + 1)
    else c.(notMatchedLinks := c.notMatchedLinks + 1)
  }

  /** handleMatchingTerms: append the scored record, update the counters,
      then save that one record under the crawl site's key. The save's
      failure is returned; the record stays appended either way. */
  function HandleMatchingTermsStep(lib: Collaborators, failsAt: nat -> bool, s: State, crawlSiteID: string,
                                   currentURL: string, pageData: PageData, matchingTerms: seq<string>)
    : (r: (State, Option<Error>))
    ensures var record := ScoredRecord(lib, currentURL, pageData, matchingTerms);
      && r.0.pages == s.pages + [record]
      && r.0.counters == UpdateStatsStep(s.counters, matchingTerms)
      && r.0.saves == s.saves + [SaveRequest(crawlSiteID, [record], failsAt(|s.saves|))]
      && (r.1.Some? <==> failsAt(|s.saves|))
  {
    var record := ScoredRecord(lib, currentURL, pageData, matchingTerms);
    var failed := failsAt(|s.saves|);
    (State(UpdateStatsStep(s.counters, matchingTerms), s.pages + [record],
           s.saves + [SaveRequest(crawlSiteID, [record], failed)]),
     if failed then Some(External("redis")) else None)
  }

  /** processLink: TotalLinks rises by one; only a link with matching terms
      is handled further. */
  function ProcessLinkStep(lib: Collaborators, failsAt: nat -> bool, s: State, a: Anchor, href: string,
                           crawlSiteID: string, searchTerms: seq<string>): (r: (State, Option<Error>))
    ensures var terms := lib.getMatchingTerms(href, a.text, searchTerms);
      var counted := s.(counters := s.counters.(totalLinks := s.counters.totalLinks + 1));
      && (terms == [] ==> r == (counted, None))
      && (terms != [] ==> r == HandleMatchingTermsStep(lib, failsAt, counted, crawlSiteID, a.pageURL, CreatePageData(href), terms))
  {
    var counted := s.(counters := s.counters.(totalLinks := s.counters.totalLinks + 1));
    var terms := lib.getMatchingTerms(href, a.text, searchTerms);
    if |terms| > 0 then HandleMatchingTermsStep(lib, failsAt, counted, crawlSiteID, a.pageURL, CreatePageData(href), terms)
    else (counted, None)
  }

  /** What one processLink does, stated through its effects: one more link;
      with no match nothing else changes; with a match one more matched
      link, one record appended and one single-record save under
      `crawlSiteID`. NotMatchedLinks never moves. */
  lemma ProcessLinkEffect(lib: Collaborators, failsAt: nat -> bool, s: State, a: Anchor, href: string,
                          crawlSiteID: string, searchTerms: seq<string>)
    ensures var (r, err) := ProcessLinkStep(lib, failsAt, s, a, href, crawlSiteID, searchTerms);
      var terms := lib.getMatchingTerms(href, a.text, searchTerms);
      && r.counters.totalLinks == s.counters.totalLinks + 1
      && r.counters.notMatchedLinks == s.counters.notMatchedLinks
      && r.counters.totalPages == s.counters.totalPages
      && (terms == [] ==>
            r.counters.matchedLinks == s.counters.matchedLinks && r.pages == s.pages && r.saves == s.saves && err == None)
      && (terms != [] ==>
            && r.counters.matchedLinks == s.counters.matchedLinks + 1
            && |r.pages| == |s.pages| + 1 && r.pages[..|s.pages|] == s.pages
            && r.pages[|s.pages|] == ScoredRecord(lib, a.pageURL, CreatePageData(href), terms)
            && |r.saves| == |s.saves| + 1 && r.saves[..|s.saves|] == s.saves
            && r.saves[|s.saves|].key == crawlSiteID
            && r.saves[|s.saves|].records == [r.pages[|s.pages|]]
            && (err.Some? <==> r.saves[|s.saves|].failed))
  {
    var terms := lib.getMatchingTerms(href, a.text, searchTerms);
    if terms != [] {
      var (r, err) := ProcessLinkStep(lib, failsAt, s, a, href, crawlSiteID, searchTerms);
      assert r.pages[..|s.pages|] == s.pages;
      assert r.saves[..|s.saves|] == s.saves;
    }
  }

  /** What this revision keeps true: every page appended was counted as
      matched and saved on its own, in the same order, and no link is ever
      counted as not matched. */
  ghost predicate Consistent(s: State)
  {
    && s.counters.notMatchedLinks == 0
    && s.counters.matchedLinks == |s.pages| == |s.saves|
    && s.counters.matchedLinks <= s.counters.totalLinks
    && forall i :: 0 <= i < |s.saves| ==> s.saves[i].records == [s.pages[i]]
  }

  lemma ProcessLinkPreservesConsistent(lib: Collaborators, failsAt: nat -> bool, s: State, a: Anchor, href: string,
                                       crawlSiteID: string, searchTerms: seq<string>)
    requires Consistent(s)
    ensures Consistent(ProcessLinkStep(lib, failsAt, s, a, href, crawlSiteID, searchTerms).0)
  {
    ProcessLinkEffect(lib, failsAt, s, a, href, crawlSiteID, searchTerms);
  }

  /** A link handed to processLink: the anchor and the href it resolved to. */
  datatype Link = Link(anchor: Anchor, href: string)

  /** processLink applied to one link after another. Its caller is not in
      this file; the run goes on to the next link whatever a call returns. */
  function Run(lib: Collaborators, failsAt: nat -> bool, s: State, links: seq<Link>,
               crawlSiteID: string, searchTerms: seq<string>): State
    decreases |links|
  {
    if links == [] then s
    else
      var next := ProcessLinkStep(lib, failsAt, s, links[0].anchor, links[0].href, crawlSiteID, searchTerms).0;
      Run(lib, failsAt, next, links[1..], crawlSiteID, searchTerms)
  }

  /** Processing the links of `a` and then those of `b` is the same as
      processing the links of `a + b`: the run takes them strictly in order. */
  lemma {:induction false} RunAppend(lib: Collaborators, failsAt: nat -> bool, s: State, a: seq<Link>, b: seq<Link>,
                                     crawlSiteID: string, searchTerms: seq<string>)
    ensures Run(lib, failsAt, s, a + b, crawlSiteID, searchTerms)
         == Run(lib, failsAt, Run(lib, failsAt, s, a, crawlSiteID, searchTerms), b, crawlSiteID, searchTerms)
    decreases |a|
  {
    if a == [] {
      assert a + b == b;
    } else {
      assert (a + b)[0] == a[0];
      assert (a + b)[1..] == a[1..] + b;
      var next := ProcessLinkStep(lib, failsAt, s, a[0].anchor, a[0].href, crawlSiteID, searchTerms).0;
      RunAppend(lib, failsAt, next, a[1..], b, crawlSiteID, searchTerms);
    }
  }

  /** The number of links GetMatchingTerms finds some term for. */
  function MatchedCount(lib: Collaborators, links: seq<Link>, searchTerms: seq<string>): nat
    decreases |links|
  {
    if links == [] then 0
    else (if lib.getMatchingTerms(links[0].href, links[0].anchor.text, searchTerms) == [] then 0 else 1)
         + MatchedCount(lib, links[1..], searchTerms)
  }

  /** Over any sequence of links from a consistent state: TotalLinks rises
      by the number of links, MatchedLinks by the matched ones, TotalPages
      stays, the pages and the save requests only grow at their ends, and
      consistency is kept, so there is one page and one single-record save
      per matched link. */
  lemma {:induction false} RunEffect(lib: Collaborators, failsAt: nat -> bool, s: State, links: seq<Link>,
                                     crawlSiteID: string, searchTerms: seq<string>)
    requires Consistent(s)
    ensures var r := Run(lib, failsAt, s, links, crawlSiteID, searchTerms);
      && Consistent(r)
      && r.counters.totalLinks == s.counters.totalLinks + |links|
      && r.counters.matchedLinks == s.counters.matchedLinks + MatchedCount(lib, links, searchTerms)
      && r.counters.totalPages == s.counters.totalPages
      && |r.pages| >= |s.pages| && r.pages[..|s.pages|] == s.pages
      && |r.saves| >= |s.saves| && r.saves[..|s.saves|] == s.saves
    decreases |links|
  {
    if links != [] {
      var a, href := links[0].anchor, links[0].href;
      var next := ProcessLinkStep(lib, failsAt, s, a, href, crawlSiteID, searchTerms).0;
      ProcessLinkEffect(lib, failsAt, s, a, href, crawlSiteID, searchTerms);
      ProcessLinkPreservesConsistent(lib, failsAt, s, a, href, crawlSiteID, searchTerms);
      RunEffect(lib, failsAt, next, links[1..], crawlSiteID, searchTerms);
      var r := Run(lib, failsAt, s, links, crawlSiteID, searchTerms);
      assert r == Run(lib, failsAt, next, links[1..], crawlSiteID, searchTerms);
      assert r.pages[..|s.pages|] == r.pages[..|next.pages|][..|s.pages|];
      assert r.saves[..|s.saves|] == r.saves[..|next.saves|][..|s.saves|];
    }
  }

  /** `cm.Results`: the pages collected so far. */
  class ResultsBuffer {
    var pages: seq<PageData>

    constructor ()
      ensures pages == []
    {
      pages := [];
    }
  }

  /** `cm.DBManager`: it records every save request; the n-th request fails
      exactly when `failsAt(n)`. */
  class DbManager {
    var requests: seq<SaveRequest>
    const failsAt: nat -> bool

    constructor (failsAt: nat -> bool)
      ensures requests == [] && this.failsAt == failsAt
    {
      requests := [];
      this.failsAt := failsAt;
    }

    method SaveResultsToRedis(records: seq<PageData>, key: string) returns (err: Option<Error>)
      modifies this
      ensures requests == old(requests) + [SaveRequest(key, records, failsAt(|old(requests)|))]
      ensures err.Some? <==> failsAt(|old(requests)|)
      ensures err.Some? ==> err == Some(External("redis"))
    {
      var failed := failsAt(|requests|);
      requests := requests + [SaveRequest(key, records, failed)];
      err := if failed then Some(External("redis")) else None;
    }
  }

  class CrawlManager {
    const lib: Collaborators
    const stats: Stats.LinkStats
    const results: ResultsBuffer
    const db: DbManager
    /** `cm.Options`: the site key and the search terms */
    const crawlSiteID: string
    const searchTerms: seq<string>

    constructor (lib: Collaborators, stats: Stats.LinkStats, results: ResultsBuffer, db: DbManager,
                 crawlSiteID: string, searchTerms: seq<string>)
      ensures this.lib == lib && this.stats == stats && this.results == results && this.db == db
      ensures this.crawlSiteID == crawlSiteID && this.searchTerms == searchTerms
    {
      this.lib := lib;
      this.stats := stats;
      this.results := results;
      this.db := db;
      this.crawlSiteID := crawlSiteID;
      this.searchTerms := searchTerms;
    }

    /** The present counters, pages and save requests. */
    function StateOf(): State
      reads stats, results, db
    {
      State(stats.Value(), results.pages, db.requests)
    }

    method UpdateStats(matchingTerms: seq<string>)
      modifies stats
      ensures stats.Value() == UpdateStatsStep(old(stats.Value()), matchingTerms)
    {
      if |matchingTerms| > 0 {
        stats.IncrementMatchedLinks();
      } else {
        stats.IncrementNotMatchedLinks();
      }
    }

    method HandleMatchingTerms(currentURL: string, pageData: PageData, matchingTerms: seq<string>)
      returns (err: Option<Error>)
      modifies stats, results, db
      ensures (StateOf(), err)
           == HandleMatchingTermsStep(lib, db.failsAt, old(StateOf()), crawlSiteID, currentURL, pageData, matchingTerms)
    {
      var score := lib.compareTerms(currentURL, GoStrings.Join(matchingTerms, ' '));
      var record := lib.updatePageData(pageData, matchingTerms, score);
      results.pages := results.pages + [record];
      UpdateStats(matchingTerms);
      err := db.SaveResultsToRedis([record], crawlSiteID);
    }

    method ProcessLink(a: Anchor, href: string) returns (err: Option<Error>)
      modifies stats, results, db
      ensures (StateOf(), err) == ProcessLinkStep(lib, db.failsAt, old(StateOf()), a, href, crawlSiteID, searchTerms)
    {
      stats.IncrementTotalLinks();
      var pageData := CreatePageData(href);
      var matchingTerms := lib.getMatchingTerms(href, a.text, searchTerms);
      if |matchingTerms| > 0 {
        err := HandleMatchingTerms(a.pageURL, pageData, matchingTerms);
        if err.Some? {
          return;
        }
      }
      return None;
    }
  }
}
