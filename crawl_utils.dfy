/** The link bookkeeping of internal/crawler/crawl_utils.go. For one anchor
    with a non-empty resolved href, the handler counts the link and asks for
    the matching terms. With no match it counts a non-match. With a match and
    a non-empty page URL it counts a match and, unless HandleMatchingLinks
    fails, appends a record carrying the terms and the page URL as ParentURL.
    It then hands the href to the collector.

    The state of one crawl is its counters and its result buffer. `State`
    holds them as values, the `*Step` functions say what each operation does
    to them, and the methods of `CrawlManager` are proved to do the same thing
    to the statistics object and the options' buffer. */
module CrawlUtils {
  import opened Common
  import opened Colly
  import GoStrings
  import Stats
  import Manager

  /** This revision's page record. Unlike the one in results.go it has a
      ParentURL. */
  datatype PageData = PageData(
    url: string,
    parentURL: string,
    links: seq<string>,
    searchTerms: seq<string>,
    matchingTerms: seq<string>,
    error: string)

  /** The code this file calls but which is not part of the model. */
  datatype Collaborators = Collaborators(
    /** e.Request.AbsoluteURL */
    absoluteURL: Resolver,
    /** termmatcher.GetMatchingTerms(href, anchorText, searchTerms) */
    getMatchingTerms: (string, string, seq<string>) -> seq<string>,
    /** MatchedLinkProcessor.HandleMatchingLinks: its error, if any */
    handleMatchingLinks: string -> Option<Error>,
    /** what Collector.Visit returns for an href */
    visit: string -> VisitOutcome)

  /** createPageData: a record with only its URL set. */
  function CreatePageData(href: string): (p: PageData)
    ensures p.url == href
    ensures p.parentURL == "" && p.links == [] && p.searchTerms == [] && p.matchingTerms == [] && p.error == ""
  {
    PageData(href, "", [], [], [], "")
  }

  /** updatePageData: sets the matching terms and the parent URL and keeps
      every other field. */
  function UpdatePageData(p: PageData, href: string, matchingTerms: seq<string>): (q: PageData)
    ensures q.matchingTerms == matchingTerms && q.parentURL == href
    ensures q.url == p.url && q.links == p.links && q.searchTerms == p.searchTerms && q.error == p.error
  {
    p.(matchingTerms := matchingTerms, parentURL := href)
  }

  /** getHref: the anchor's href attribute resolved against its page URL,
      possibly "". */
  function Href(lib: Collaborators, a: Anchor): string
  {
    lib.absoluteURL(a.pageURL, a.hrefAttr)
  }

  // ---------------------------------------------------------------------
  // splitSearchTerms

  /** The non-empty strings of `pieces`, in their order. */
  function NonEmptyPieces(pieces: seq<string>): (r: seq<string>)
    ensures |r| <= |pieces|
    ensures forall i :: 0 <= i < |r| ==> r[i] != ""
    ensures forall t :: t in r <==> t in pieces && t != ""
  {
    if pieces == [] then []
    else if pieces[0] == "" then NonEmptyPieces(pieces[1..])
    else [pieces[0]] + NonEmptyPieces(pieces[1..])
  }

  /** Filtering a concatenation filters each part. */
  lemma {:induction false} NonEmptyPiecesAppend(xs: seq<string>, ys: seq<string>)
    ensures NonEmptyPieces(xs + ys) == NonEmptyPieces(xs) + NonEmptyPieces(ys)
  {
    if xs == [] {
      assert xs + ys == ys;
    } else {
      assert (xs + ys)[1..] == xs[1..] + ys;
      NonEmptyPiecesAppend(xs[1..], ys);
    }
  }

  /** splitSearchTerms: the comma-separated pieces of `searchTerms` that are
      not empty, in order and not trimmed. */
  method SplitSearchTerms(searchTerms: string) returns (validTerms: seq<string>)
    ensures validTerms == NonEmptyPieces(GoStrings.Split(searchTerms, ','))
    ensures forall i :: 0 <= i < |validTerms| ==> validTerms[i] != "" && ',' !in validTerms[i]
  {
    var terms := GoStrings.Split(searchTerms, ',');
    validTerms := [];
    for k := 0 to |terms|
      invariant validTerms == NonEmptyPieces(terms[..k])
    {
      NonEmptyPiecesAppend(terms[..k], [terms[k]]);
      assert terms[..k + 1] == terms[..k] + [terms[k]];
      if terms[k] != "" {
        validTerms := validTerms + [terms[k]];
      }
    }
    assert terms[..|terms|] == terms;
    forall i | 0 <= i < |validTerms| ensures ',' !in validTerms[i] {
      assert validTerms[i] in terms;
    }
  }

  /** Neither the empty string nor commas alone give any term. */
  lemma SplitSearchTermsOfSeparatorsOnly()
    ensures NonEmptyPieces(GoStrings.Split("", ',')) == []
    ensures NonEmptyPieces(GoStrings.Split(",,", ',')) == []
  {
    assert ",,"[1..] == "," && ","[1..] == "";
    GoStrings.SplitUnfold(",", ',');
    GoStrings.SplitUnfold(",,", ',');
    assert GoStrings.Split(",,", ',') == ["", "", ""];
  }

  /** Spaces around a term are kept. */
  lemma SplitSearchTermsKeepsSpaces()
    ensures NonEmptyPieces(GoStrings.Split("a, b", ',')) == ["a", " b"]
  {
    assert "a, b"[1..] == ", b" && ", b"[1..] == " b";
    GoStrings.SplitOfSepFree(" b", ',');
    GoStrings.SplitUnfold(", b", ',');
    GoStrings.SplitUnfold("a, b", ',');
    var rest := GoStrings.Split(", b", ',');
    assert rest == ["", " b"];
    assert ['a'] + rest[0] == "a" && rest[1..] == [" b"];
    assert GoStrings.Split("a, b", ',') == ["a", " b"];
    assert NonEmptyPieces([" b"]) == [" b"] + NonEmptyPieces([]);
    assert NonEmptyPieces(["a", " b"]) == ["a"] + NonEmptyPieces([" b"]);
  }

  // ---------------------------------------------------------------------
  // The bookkeeping as a function on values

  /** The counters and the result buffer of one crawl. */
  datatype State = State(counters: Stats.Counters, results: seq<PageData>)

  /** ProcessMatchingLinkAndUpdateStats. `href` is the page URL that
      handleMatchingTerms passes in. With an empty page URL nothing changes.
      Otherwise MatchedLinks rises by one. When HandleMatchingLinks fails
      nothing is appended; when it succeeds one updated record is. */
  function ProcessMatchingLinkStep(lib: Collaborators, s: State, href: string, pageData: PageData, matchingTerms: seq<string>): (r: State)
    ensures href == "" ==> r == s
    ensures href != "" ==> r.counters == s.counters.(matchedLinks := s.counters.matchedLinks + 1)
    ensures href != "" && lib.handleMatchingLinks(href).Some? ==> r.results == s.results
    ensures href != "" && lib.handleMatchingLinks(href).None? ==>
      r.results == s.results + [UpdatePageData(pageData, href, matchingTerms)]
  {
    if href == "" then s
    else
      var counted := s.counters.(matchedLinks := s.counters.matchedLinks + 1);
      if lib.handleMatchingLinks(href).Some? then State(counted, s.results)
      else State(counted, s.results + [UpdatePageData(pageData, href, matchingTerms)])
  }

  /** handleMatchingTerms: a match goes to ProcessMatchingLinkAndUpdateStats;
      no match counts a non-matched link and appends nothing. */
  function HandleMatchingTermsStep(lib: Collaborators, s: State, currentURL: string, pageData: PageData, matchingTerms: seq<string>): (r: State)
    ensures matchingTerms == [] ==>
      r == s.(counters := s.counters.(notMatchedLinks := s.counters.notMatchedLinks + 1))
    ensures matchingTerms != [] ==> r == ProcessMatchingLinkStep(lib, s, currentURL, pageData, matchingTerms)
  {
    if |matchingTerms| > 0 then ProcessMatchingLinkStep(lib, s, currentURL, pageData, matchingTerms)
    else s.(counters := s.counters.(notMatchedLinks := s.counters.notMatchedLinks + 1))
  }

  /** processLink: TotalLinks rises by one, then the matching terms of the
      link are handled for the page it was found on. */
  function ProcessLinkStep(lib: Collaborators, s: State, a: Anchor, href: string, searchTerms: seq<string>): (r: State)
    ensures r.counters.totalLinks == s.counters.totalLinks + 1
    ensures r.counters.totalPages == s.counters.totalPages
  {
    var counted := s.(counters := s.counters.(totalLinks := s.counters.totalLinks + 1));
    HandleMatchingTermsStep(lib, counted, a.pageURL, CreatePageData(href),
                            lib.getMatchingTerms(href, a.text, searchTerms))
  }

  /** getAnchorElementHandler for one anchor: nothing happens when the href
      is empty; otherwise the link is processed. */
  function AnchorStep(lib: Collaborators, s: State, a: Anchor, searchTerms: seq<string>): (r: State)
    ensures Href(lib, a) == "" ==> r == s
    ensures Href(lib, a) != "" ==> r == ProcessLinkStep(lib, s, a, Href(lib, a), searchTerms)
  {
    if Href(lib, a) == "" then s else ProcessLinkStep(lib, s, a, Href(lib, a), searchTerms)
  }

  /** The state after the handler has run on each anchor in turn. */
  function Run(lib: Collaborators, s: State, anchors: seq<Anchor>, searchTerms: seq<string>): State
    decreases |anchors|
  {
    if anchors == [] then s else Run(lib, AnchorStep(lib, s, anchors[0], searchTerms), anchors[1..], searchTerms)
  }

  /** Handling the anchors of `a` and then those of `b` is the same as
      handling the anchors of `a + b`: the run takes them strictly in order. */
  lemma {:induction false} RunAppend(lib: Collaborators, s: State, a: seq<Anchor>, b: seq<Anchor>, searchTerms: seq<string>)
    ensures Run(lib, s, a + b, searchTerms) == Run(lib, Run(lib, s, a, searchTerms), b, searchTerms)
    decreases |a|
  {
    if a == [] {
      assert a + b == b;
    } else {
      assert (a + b)[0] == a[0];
      assert (a + b)[1..] == a[1..] + b;
      RunAppend(lib, AnchorStep(lib, s, a[0], searchTerms), a[1..], b, searchTerms);
    }
  }

  /** What one call of the handler does, in full. */
  lemma AnchorStepEffect(lib: Collaborators, s: State, a: Anchor, searchTerms: seq<string>)
    ensures var r := AnchorStep(lib, s, a, searchTerms);
      var href := Href(lib, a);
      var terms := lib.getMatchingTerms(href, a.text, searchTerms);
      && (href == "" ==> r == s)
      && (href != "" ==>
        && r.counters.totalLinks == s.counters.totalLinks + 1
        && r.counters.totalPages == s.counters.totalPages
        && (terms == [] ==>
              && r.counters.notMatchedLinks == s.counters.notMatchedLinks + 1
              && r.counters.matchedLinks == s.counters.matchedLinks
              && r.results == s.results)
        && (terms != [] && a.pageURL == "" ==>
              r.counters == s.counters.(totalLinks := s.counters.totalLinks + 1) && r.results == s.results)
        && (terms != [] && a.pageURL != "" ==>
              && r.counters.matchedLinks == s.counters.matchedLinks + 1
              && r.counters.notMatchedLinks == s.counters.notMatchedLinks
              && (lib.handleMatchingLinks(a.pageURL).Some? ==> r.results == s.results)
              && (lib.handleMatchingLinks(a.pageURL).None? ==>
                    r.results == s.results + [PageData(href, a.pageURL, [], [], terms, "")])))
  {
  }

  /** What the counters and the buffer always satisfy: no link is counted
      both ways or without being counted as a link, there is at most one
      record per matched link, and every record carries its terms and the
      page it was found on. */
  ghost predicate Consistent(s: State)
  {
    && s.counters.matchedLinks + s.counters.notMatchedLinks <= s.counters.totalLinks
    && |s.results| <= s.counters.matchedLinks
    && forall i :: 0 <= i < |s.results| ==> s.results[i].matchingTerms != [] && s.results[i].parentURL != ""
  }

  lemma AnchorStepPreservesConsistent(lib: Collaborators, s: State, a: Anchor, searchTerms: seq<string>)
    requires Consistent(s)
    ensures Consistent(AnchorStep(lib, s, a, searchTerms))
  {
    AnchorStepEffect(lib, s, a, searchTerms);
  }

  /** The number of anchors whose href resolves to something. */
  function CountResolved(lib: Collaborators, anchors: seq<Anchor>): (n: nat)
    ensures n <= |anchors|
  {
    if anchors == [] then 0
    else (if Href(lib, anchors[0]) == "" then 0 else 1) + CountResolved(lib, anchors[1..])
  }

  /** Over any run: the buffer only grows at its end, the counters never
      decrease, TotalLinks counts exactly the resolved anchors, TotalPages
      stays put, and consistency is kept. */
  lemma {:induction false} RunEffect(lib: Collaborators, s: State, anchors: seq<Anchor>, searchTerms: seq<string>)
    requires Consistent(s)
    ensures var r := Run(lib, s, anchors, searchTerms);
      && Consistent(r)
      && s.results <= r.results
      && Stats.NoneDecreased(s.counters, r.counters)
      && r.counters.totalLinks == s.counters.totalLinks + CountResolved(lib, anchors)
      && r.counters.totalPages == s.counters.totalPages
    decreases |anchors|
  {
    if anchors != [] {
      var s1 := AnchorStep(lib, s, anchors[0], searchTerms);
      AnchorStepEffect(lib, s, anchors[0], searchTerms);
      AnchorStepPreservesConsistent(lib, s, anchors[0], searchTerms);
      RunEffect(lib, s1, anchors[1..], searchTerms);
    }
  }

  // ---------------------------------------------------------------------
  // The crawl manager and its options

  /** CrawlOptions: the crawl's parameters and its result buffer. */
  class CrawlOptions {
    const crawlSiteID: string
    const searchTerms: seq<string>
    const debug: bool
    var results: seq<PageData>

    constructor (crawlSiteID: string, searchTerms: seq<string>, debug: bool)
      ensures this.crawlSiteID == crawlSiteID && this.searchTerms == searchTerms
      ensures this.debug == debug && results == []
    {
      this.crawlSiteID := crawlSiteID;
      this.searchTerms := searchTerms;
      this.debug := debug;
      results := [];
    }
  }

  /** createStartCrawlingOptions: fresh options with an empty buffer, and a
      fresh statistics object at zero. */
  method CreateStartCrawlingOptions(crawlSiteID: string, searchTerms: seq<string>, debug: bool)
    returns (options: CrawlOptions, stats: Stats.LinkStats)
    ensures fresh(options) && fresh(stats)
    ensures options.crawlSiteID == crawlSiteID && options.searchTerms == searchTerms && options.debug == debug
    ensures options.results == [] && stats.Value() == Stats.Zero
  {
    options := new CrawlOptions(crawlSiteID, searchTerms, debug);
    stats := new Stats.LinkStats();
  }

  class CrawlManager {
    const lib: Collaborators
    /** `cs.StatsManager.LinkStats` */
    const stats: Stats.LinkStats
    /** the hrefs handed to Collector.Visit, oldest first */
    ghost var visits: seq<string>

    constructor (lib: Collaborators, stats: Stats.LinkStats)
      ensures this.lib == lib && this.stats == stats && visits == []
    {
      this.lib := lib;
      this.stats := stats;
      visits := [];
    }

    /** The present counters and buffer. */
    function StateOf(options: CrawlOptions): State
      reads stats, options
    {
      State(stats.Value(), options.results)
    }

    method ProcessMatchingLinkAndUpdateStats(options: CrawlOptions, href: string, pageData: PageData, matchingTerms: seq<string>)
      modifies stats, options
      ensures StateOf(options) == ProcessMatchingLinkStep(lib, old(StateOf(options)), href, pageData, matchingTerms)
    {
      if href == "" {
        return;
      }
      stats.IncrementMatchedLinks();
      if lib.handleMatchingLinks(href).Some? {
        return;
      }
      var updated := UpdatePageData(pageData, href, matchingTerms);
      options.results := options.results + [updated];
    }

    method HandleMatchingTerms(options: CrawlOptions, currentURL: string, pageData: PageData, matchingTerms: seq<string>)
      modifies stats, options
      ensures StateOf(options) == HandleMatchingTermsStep(lib, old(StateOf(options)), currentURL, pageData, matchingTerms)
    {
      if |matchingTerms| > 0 {
        ProcessMatchingLinkAndUpdateStats(options, currentURL, pageData, matchingTerms);
      } else {
        stats.IncrementNotMatchedLinks();
      }
    }

    method ProcessLink(a: Anchor, href: string, options: CrawlOptions)
      modifies stats, options
      ensures StateOf(options) == ProcessLinkStep(lib, old(StateOf(options)), a, href, options.searchTerms)
    {
      stats.IncrementTotalLinks();
      var pageData := CreatePageData(href);
      var matchingTerms := lib.getMatchingTerms(href, a.text, options.searchTerms);
      HandleMatchingTerms(options, a.pageURL, pageData, matchingTerms);
    }

    /** The handler getAnchorElementHandler returns, run on one anchor: it
        updates the state as AnchorStep says and visits a resolved href. */
    method HandleAnchor(a: Anchor, options: CrawlOptions)
      modifies this, stats, options
      ensures StateOf(options) == AnchorStep(lib, old(StateOf(options)), a, options.searchTerms)
      ensures visits == old(visits) + (if Href(lib, a) == "" then [] else [Href(lib, a)])
    {
      var href := Href(lib, a);
      if href == "" {
        return;
      }
      ProcessLink(a, href, options);
      var report := Manager.VisitWithColly(lib.visit(href));
      visits := visits + [href];
    }
  }
}
