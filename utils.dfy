/** The link bookkeeping of internal/crawler/utils.go, a revision that
    differs from crawl_utils.go. Images (hrefs ending in ".png", ".jpg" or
    ".jpeg") are skipped as well as empty hrefs. Every processed link is
    counted as matched or as not matched, so TotalLinks is always
    MatchedLinks + NotMatchedLinks. A record is appended for every processed
    link found on a page with a non-empty URL, whether or not it matched.
    The record update and the append are methods this file calls but does
    not show; the append is taken to add the record at the end of the
    buffer. */
module InternalUtils {
  import opened Common
  import opened Colly
  import GoStrings
  import Stats
  import Results
  import Manager

  /** The code this file calls but which is not part of the model. */
  datatype Collaborators = Collaborators(
    /** e.Request.AbsoluteURL */
    absoluteURL: Resolver,
    /** termmatcher.GetMatchingTerms(href, anchorText, searchTerms) */
    getMatchingTerms: (string, string, seq<string>) -> seq<string>,
    /** PageData.UpdatePageData(href, matchingTerms): the record it leaves */
    updatePageData: (Results.PageData, string, seq<string>) -> Results.PageData,
    /** what Collector.Visit returns for an href */
    visit: string -> VisitOutcome)

  /** createPageData: a record with only its URL set. */
  function CreatePageData(href: string): (p: Results.PageData)
    ensures p.url == href
    ensures p == Results.EmptyPageData.(url := href)
  {
    Results.PageData(href, [], [], [], "")
  }

  /** getHref: the anchor's href attribute resolved against its page URL,
      possibly "". */
  function Href(lib: Collaborators, a: Anchor): string
  {
    lib.absoluteURL(a.pageURL, a.hrefAttr)
  }

  /** The skip test of GetAnchorElementHandler: an empty href, or one that
      ends in an image extension, compared case-sensitively. */
  predicate Skipped(href: string)
  {
    href == "" || GoStrings.HasSuffix(href, ".png") || GoStrings.HasSuffix(href, ".jpg")
    || GoStrings.HasSuffix(href, ".jpeg")
  }

  /** The extension test is case-sensitive and looks only at the end. */
  lemma SkippedExamples()
    ensures Skipped("") && Skipped("a.png") && Skipped("photo.jpeg")
    ensures !Skipped("a.PNG") && !Skipped("a.png?x=1") && !Skipped("page.html")
  {
    assert "a.png"[5 - 4..] == ".png";
    assert "photo.jpeg"[10 - 5..] == ".jpeg";
    assert "a.PNG"[1..] != ".png";
    assert "a.png?x=1"[9 - 4..] != ".png" && "a.png?x=1"[9 - 5..] != ".jpeg";
  }

  /** The counters and the result buffer of one crawl. */
  datatype State = State(counters: Stats.Counters, results: seq<Results.PageData>)

  /** UpdateStats: exactly one of MatchedLinks and NotMatchedLinks rises,
      MatchedLinks exactly when some term matched. */
  function UpdateStatsStep(c: Stats.Counters, matchingTerms: seq<string>): (r: Stats.Counters)
    ensures r.totalLinks == c.totalLinks && r.totalPages == c.totalPages
    ensures r.matchedLinks + r.notMatchedLinks == c.matchedLinks + c.notMatchedLinks + 1
    ensures r.matchedLinks == c.matchedLinks + 1 <==> matchingTerms != []
    ensures r.notMatchedLinks == c.notMatchedLinks + 1 <==> matchingTerms == []
  {
    if |matchingTerms| > 0 then c.(matchedLinks := c.matchedLinks + 1)
    else c.(notMatchedLinks := c.notMatchedLinks + 1)
  }

  /** ProcessMatchingLink: with an empty page URL nothing is appended;
      otherwise the updated record is appended, matched or not. */
  function ProcessMatchingLinkStep(lib: Collaborators, results: seq<Results.PageData>, href: string,
                                   pageData: Results.PageData, matchingTerms: seq<string>): (r: seq<Results.PageData>)
    ensures href == "" ==> r == results
    ensures href != "" ==> r == results + [lib.updatePageData(pageData, href, matchingTerms)]
  {
    if href == "" then results else results + [lib.updatePageData(pageData, href, matchingTerms)]
  }

  /** handleMatchingTerms: ProcessMatchingLink, then UpdateStats. */
  function HandleMatchingTermsStep(lib: Collaborators, s: State, currentURL: string,
                                   pageData: Results.PageData, matchingTerms: seq<string>): (r: State)
    ensures r.counters == UpdateStatsStep(s.counters, matchingTerms)
    ensures r.results == ProcessMatchingLinkStep(lib, s.results, currentURL, pageData, matchingTerms)
  {
    State(UpdateStatsStep(s.counters, matchingTerms),
          ProcessMatchingLinkStep(lib, s.results, currentURL, pageData, matchingTerms))
  }

  /** processLink: TotalLinks rises by one, then the link's terms are handled
      for the page it was found on. */
  function ProcessLinkStep(lib: Collaborators, s: State, a: Anchor, href: string, searchTerms: seq<string>): (r: State)
    ensures r.counters.totalLinks == s.counters.totalLinks + 1
    ensures r.counters.matchedLinks + r.counters.notMatchedLinks
         == s.counters.matchedLinks + s.counters.notMatchedLinks + 1
    ensures r.counters.totalPages == s.counters.totalPages
  {
    var counted := s.(counters := s.counters.(totalLinks := s.counters.totalLinks + 1));
    HandleMatchingTermsStep(lib, counted, a.pageURL, CreatePageData(href),
                            lib.getMatchingTerms(href, a.text, searchTerms))
  }

  /** GetAnchorElementHandler for one anchor: a skipped href changes nothing. */
  function AnchorStep(lib: Collaborators, s: State, a: Anchor, searchTerms: seq<string>): (r: State)
    ensures Skipped(Href(lib, a)) ==> r == s
    ensures !Skipped(Href(lib, a)) ==> r == ProcessLinkStep(lib, s, a, Href(lib, a), searchTerms)
  {
    if Skipped(Href(lib, a)) then s else ProcessLinkStep(lib, s, a, Href(lib, a), searchTerms)
  }

  /** The state after the handler has run on each anchor in turn. */
  function Run(lib: Collaborators, s: State, anchors: seq<Anchor>, searchTerms: seq<string>): State
    decreases |anchors|
  {
    if anchors == [] then s else Run(lib, AnchorStep(lib, s, anchors[0], searchTerms), anchors[1..], searchTerms)
  }

  /** Handling the anchors of `a` and then those of `b` is the same as
      handling the anchors of `a + b`: the run takes them strictly in order. */
  lemma {:induction false} RunAppend(lib: Collaborators, s: State, a: seq<Anchor>, b: seq<Anchor>, searchTerms: seq<string>)
    ensures Run(lib, s, a + b, searchTerms) == Run(lib, Run(lib, s, a, searchTerms), b, searchTerms)
    decreases |a|
  {
    if a == [] {
      assert a + b == b;
    } else {
      assert (a + b)[0] == a[0];
      assert (a + b)[1..] == a[1..] + b;
      RunAppend(lib, AnchorStep(lib, s, a[0], searchTerms), a[1..], b, searchTerms);
    }
  }

  /** Every link counted is counted as matched or as not matched. */
  ghost predicate Balanced(c: Stats.Counters)
  {
    c.totalLinks == c.matchedLinks + c.notMatchedLinks
  }

  lemma AnchorStepKeepsBalanced(lib: Collaborators, s: State, a: Anchor, searchTerms: seq<string>)
    requires Balanced(s.counters)
    ensures Balanced(AnchorStep(lib, s, a, searchTerms).counters)
  {
  }

  /** The anchors the handler processes. */
  function ProcessedCount(lib: Collaborators, anchors: seq<Anchor>): (n: nat)
    ensures n <= |anchors|
  {
    if anchors == [] then 0
    else (if Skipped(Href(lib, anchors[0])) then 0 else 1) + ProcessedCount(lib, anchors[1..])
  }

  /** The processed anchors for which some term matched. */
  function MatchedCount(lib: Collaborators, anchors: seq<Anchor>, searchTerms: seq<string>): (n: nat)
    ensures n <= ProcessedCount(lib, anchors)
  {
    if anchors == [] then 0
    else
      var a := anchors[0];
      (if !Skipped(Href(lib, a)) && lib.getMatchingTerms(Href(lib, a), a.text, searchTerms) != [] then 1 else 0)
      + MatchedCount(lib, anchors[1..], searchTerms)
  }

  /** The records the handler appends for `anchors`: one per processed
      anchor found on a page with a non-empty URL. */
  function Appended(lib: Collaborators, anchors: seq<Anchor>, searchTerms: seq<string>): (r: seq<Results.PageData>)
    ensures |r| <= ProcessedCount(lib, anchors)
  {
    if anchors == [] then []
    else
      var a := anchors[0];
      var href := Href(lib, a);
      (if Skipped(href) || a.pageURL == "" then []
       else [lib.updatePageData(CreatePageData(href), a.pageURL, lib.getMatchingTerms(href, a.text, searchTerms))])
      + Appended(lib, anchors[1..], searchTerms)
  }

  /** Over any run: TotalLinks rises by the processed anchors, MatchedLinks
      by those that matched, NotMatchedLinks by the rest, TotalPages stays,
      and the buffer gets exactly `Appended` at its end, so a balanced
      state stays balanced. */
  lemma {:induction false} RunEffect(lib: Collaborators, s: State, anchors: seq<Anchor>, searchTerms: seq<string>)
    ensures var r := Run(lib, s, anchors, searchTerms);
      && r.counters.totalLinks == s.counters.totalLinks + ProcessedCount(lib, anchors)
      && r.counters.matchedLinks == s.counters.matchedLinks + MatchedCount(lib, anchors, searchTerms)
      && r.counters.notMatchedLinks
         == s.counters.notMatchedLinks + ProcessedCount(lib, anchors) - MatchedCount(lib, anchors, searchTerms)
      && r.counters.totalPages == s.counters.totalPages
      && r.results == s.results + Appended(lib, anchors, searchTerms)
      && (Balanced(s.counters) ==> Balanced(r.counters))
    decreases |anchors|
  {
    if anchors == [] {
      assert s.results + [] == s.results;
    } else {
      var s1 := AnchorStep(lib, s, anchors[0], searchTerms);
      RunEffect(lib, s1, anchors[1..], searchTerms);
      var a := anchors[0];
      var href := Href(lib, a);
      var first := if Skipped(href) || a.pageURL == "" then []
        else [lib.updatePageData(CreatePageData(href), a.pageURL, lib.getMatchingTerms(href, a.text, searchTerms))];
      assert s1.results == s.results + first;
      assert Appended(lib, anchors, searchTerms) == first + Appended(lib, anchors[1..], searchTerms);
      assert s.results + first + Appended(lib, anchors[1..], searchTerms)
          == s.results + (first + Appended(lib, anchors[1..], searchTerms));
    }
  }

  /** From fresh statistics, the counters after a run are determined by the
      anchors alone. */
  lemma RunFromZero(lib: Collaborators, anchors: seq<Anchor>, searchTerms: seq<string>)
    ensures var r := Run(lib, State(Stats.Zero, []), anchors, searchTerms);
      && r.counters.totalLinks == ProcessedCount(lib, anchors)
      && r.counters.matchedLinks == MatchedCount(lib, anchors, searchTerms)
      && r.counters.notMatchedLinks == ProcessedCount(lib, anchors) - MatchedCount(lib, anchors, searchTerms)
      && r.counters.totalPages == 0
      && r.results == Appended(lib, anchors, searchTerms)
  {
    RunEffect(lib, State(Stats.Zero, []), anchors, searchTerms);
    assert [] + Appended(lib, anchors, searchTerms) == Appended(lib, anchors, searchTerms);
  }

  /** CrawlOptions: the crawl's search terms and its result buffer. */
  class CrawlOptions {
    const searchTerms: seq<string>
    var results: seq<Results.PageData>

    constructor (searchTerms: seq<string>)
      ensures this.searchTerms == searchTerms && results == []
    {
      this.searchTerms := searchTerms;
      results := [];
    }
  }

  class CrawlManager {
    const lib: Collaborators
    /** `cm.StatsManager.LinkStats` */
    const stats: Stats.LinkStats
    /** `cm.Options` */
    const options: CrawlOptions
    /** the hrefs handed to Collector.Visit, oldest first */
    ghost var visits: seq<string>

    constructor (lib: Collaborators, stats: Stats.LinkStats, options: CrawlOptions)
      ensures this.lib == lib && this.stats == stats && this.options == options && visits == []
    {
      this.lib := lib;
      this.stats := stats;
      this.options := options;
      visits := [];
    }

    /** The present counters and buffer. */
    function StateOf(): State
      reads this, stats, options
    {
      State(stats.Value(), options.results)
    }

    method UpdateStats(matchingTerms: seq<string>)
      modifies stats
      ensures stats.Value() == UpdateStatsStep(old(stats.Value()), matchingTerms)
    {
      if |matchingTerms| > 0 {
        stats.IncrementMatchedLinks();
      } else {
        stats.IncrementNotMatchedLinks();
      }
    }

    method ProcessMatchingLink(href: string, pageData: Results.PageData, matchingTerms: seq<string>)
      modifies options
      ensures options.results == ProcessMatchingLinkStep(lib, old(options.results), href, pageData, matchingTerms)
    {
      if href == "" {
        return;
      }
      var updated := lib.updatePageData(pageData, href, matchingTerms);
      options.results := options.results + [updated];
    }

    method HandleMatchingTerms(currentURL: string, pageData: Results.PageData, matchingTerms: seq<string>)
      modifies stats, options
      ensures StateOf() == HandleMatchingTermsStep(lib, old(StateOf()), currentURL, pageData, matchingTerms)
    {
      ProcessMatchingLink(currentURL, pageData, matchingTerms);
      UpdateStats(matchingTerms);
    }

    method ProcessLink(a: Anchor, href: string)
      modifies stats, options
      ensures StateOf() == ProcessLinkStep(lib, old(StateOf()), a, href, options.searchTerms)
    {
      stats.IncrementTotalLinks();
      var pageData := CreatePageData(href);
      var matchingTerms := lib.getMatchingTerms(href, a.text, options.searchTerms);
      HandleMatchingTerms(a.pageURL, pageData, matchingTerms);
    }

    /** The handler GetAnchorElementHandler returns, run on one anchor. The
        visit's error is propagated, but visitWithColly never reports one,
        so the handler never fails. */
    method HandleAnchor(a: Anchor) returns (err: Option<Error>)
      modifies this, stats, options
      ensures StateOf() == AnchorStep(lib, old(StateOf()), a, options.searchTerms)
      ensures visits == old(visits) + (if Skipped(Href(lib, a)) then [] else [Href(lib, a)])
      ensures err == None
    {
      var href := Href(lib, a);
      if Skipped(href) {
        return None;
      }
      ProcessLink(a, href);
      visits := visits + [href];
      err := Manager.VisitWithColly(lib.visit(href)).err;
    }
  }
}
