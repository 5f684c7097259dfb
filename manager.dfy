/** The crawl manager of internal/crawler/manager.go: the fail-fast start-up
    sequence, the collector configuration with its page counter, the
    visit-error policy, and Crawl. The steps whose code is not shown
    (parameter validation, the crawl itself) and the engine's own behaviour
    are the fields of `Engine`. */
module Manager {
  import opened Common
  import opened Colly
  import Stats
  import Results
  import UrlHost

  /** The level a visit outcome is logged at. */
  datatype LogLevel = DebugLevel | ErrorLevel

  /** What visitWithColly returns, and the level it logged at. */
  datatype VisitReport = VisitReport(err: Option<Error>, level: LogLevel)

  /** visitWithColly: every outcome is swallowed (no error is returned);
      only a failure other than "already visited" or "forbidden domain" is
      logged at error level. */
  function VisitWithColly(outcome: VisitOutcome): (report: VisitReport)
    ensures report.err == None
    ensures report.level == ErrorLevel <==> outcome == OtherFailure
    ensures outcome == AlreadyVisited || outcome == ForbiddenDomain ==> report.level == DebugLevel
  {
    match outcome
    case Visited => VisitReport(None, DebugLevel)
    case AlreadyVisited => VisitReport(None, DebugLevel)
    case ForbiddenDomain => VisitReport(None, DebugLevel)
    case OtherFailure => VisitReport(None, ErrorLevel)
  }

  /** HandleVisitError: the error is logged at error level and handed back
      unchanged. */
  function HandleVisitError(err: Error): (report: VisitReport)
    ensures report.err == Some(err) && report.level == ErrorLevel
  {
    VisitReport(Some(err), ErrorLevel)
  }

  /** The steps of StartCrawling, in the order the code runs them. */
  datatype Step =
    | RanValidateParameters | RanInitializeStatsManager | RanExtractHost
    | RanConfigureCollector | RanCreateOptions | RanPerformCrawling

  /** What a run of the collector leaves behind: its error, the records the
      anchor callbacks appended to the result buffer meanwhile, and the
      increments the OnScraped and anchor callbacks made to the counters. */
  datatype CrawlRun = CrawlRun(err: Option<Error>, appended: seq<Results.PageData>, counted: Stats.Counters)

  /** The collaborators whose code is not part of this model. */
  datatype Engine = Engine(
    /** url.Parse */
    parse: UrlParser,
    /** the settings colly.NewCollector starts from (the library's defaults) */
    collectorDefaults: CollectorConfig,
    /** Collector.Limit: the error it returns for a rule */
    limitError: LimitRule -> Option<Error>,
    /** Collector.Limit, when it returns an error: the rule list it leaves
        behind, given the list before the call and the rejected rule */
    rulesAfterRejection: (seq<LimitRule>, LimitRule) -> seq<LimitRule>,
    /** DefaultParallelism and DefaultDelay */
    defaultParallelism: nat,
    defaultDelay: nat,
    /** validateParameters(url, searchTerms, crawlSiteID, maxDepth) */
    validateParameters: (string, string, string, int) -> Option<Error>,
    /** performCrawling(ctx, url, options) with the manager's collector, for
        options (crawlSiteID, searchTerms, debug) */
    performCrawling: (CollectorConfig, string, string, string, bool) -> Option<Error>,
    /** the increments the collector's callbacks make to the counters while
       performCrawling runs with those arguments */
    crawlCounts: (CollectorConfig, string, string, string, bool) -> Stats.Counters,
    /** SetupCrawlingLogic(options) */
    setupCrawlingLogic: (string, seq<string>) -> Option<Error>,
    /** CrawlURL(url) with the manager's collector, after SetupCrawlingLogic
        registered the callbacks for options (crawlSiteID, searchTerms) */
    crawlURL: (Option<CollectorConfig>, string, string, seq<string>) -> CrawlRun)

  /** createLimitRule (internal/crawler/crawl_utils.go): every domain, the
      default parallelism and delay. */
  function CreateLimitRule(engine: Engine): (rule: LimitRule)
    ensures rule.domainGlob == "*"
    ensures rule.parallelism == engine.defaultParallelism && rule.delay == engine.defaultDelay
  {
    LimitRule("*", engine.defaultParallelism, engine.defaultDelay)
  }

  /** colly.NewCollector(Async(false), MaxDepth(maxDepth), Debugger(...)):
      the library defaults with those two options applied and no callbacks. */
  function NewCollector(engine: Engine, maxDepth: int): (c: CollectorConfig)
    ensures !c.async && c.maxDepth == maxDepth && !c.countsPages
    ensures c.allowedDomains == engine.collectorDefaults.allowedDomains
    ensures c.limitRules == engine.collectorDefaults.limitRules
    ensures c.allowURLRevisit == engine.collectorDefaults.allowURLRevisit
    ensures c.ignoreRobotsTxt == engine.collectorDefaults.ignoreRobotsTxt
  {
    engine.collectorDefaults.(async := false, maxDepth := maxDepth, countsPages := false)
  }

  /** The options of one crawl run; `results` is the buffer `*options.Results`. */
  class CrawlOptions {
    const crawlSiteID: string
    const searchTerms: seq<string>
    const debug: bool
    var results: seq<Results.PageData>

    constructor (crawlSiteID: string, searchTerms: seq<string>, debug: bool)
      ensures this.crawlSiteID == crawlSiteID && this.searchTerms == searchTerms
      ensures this.debug == debug && results == []
    {
      this.crawlSiteID := crawlSiteID;
      this.searchTerms := searchTerms;
      this.debug := debug;
      results := [];
    }
  }

  /** NewStatsManager: a fresh statistics object with every counter at zero. */
  method NewStatsManager() returns (s: Stats.LinkStats)
    ensures fresh(s) && s.Value() == Stats.Zero
  {
    s := new Stats.LinkStats();
  }

  class CrawlManager {
    const engine: Engine
    /** `cm.Collector`; None before the first configuration */
    var collector: Option<CollectorConfig>
    /** `cm.StatsManager.LinkStats`; null until StartCrawling installs it */
    var stats: Stats.LinkStats?
    /** the steps of StartCrawling that have run, oldest first */
    ghost var steps: seq<Step>

    constructor (engine: Engine)
      ensures this.engine == engine && collector == None && stats == null && steps == []
    {
      this.engine := engine;
      collector := None;
      stats := null;
      steps := [];
    }

    /** ConfigureCollector: a new collector for `allowedDomains` and
        `maxDepth`. When the limit rule is rejected its error is returned
        and the collector keeps the library's revisit and robots.txt
        defaults and has no page counter, with whatever rule list
        Collector.Limit left; otherwise the rule is added, revisits are
        refused, robots.txt is obeyed and OnScraped counts pages. */
    method ConfigureCollector(allowedDomains: seq<string>, maxDepth: int) returns (err: Option<Error>)
      modifies this`collector
      ensures err == engine.limitError(CreateLimitRule(engine))
      ensures var fresh_ := NewCollector(engine, maxDepth).(allowedDomains := allowedDomains);
        collector == Some(
          if err.Some? then fresh_.(limitRules := engine.rulesAfterRejection(fresh_.limitRules, CreateLimitRule(engine)))
          else fresh_.(limitRules := fresh_.limitRules + [CreateLimitRule(engine)],
                       allowURLRevisit := false, ignoreRobotsTxt := false, countsPages := true))
    {
      var c := NewCollector(engine, maxDepth);
      c := c.(allowedDomains := allowedDomains);
      collector := Some(c);
      var rule := CreateLimitRule(engine);
      err := engine.limitError(rule);
      if err.Some? {
        collector := Some(c.(limitRules := engine.rulesAfterRejection(c.limitRules, rule)));
        return;
      }
      c := c.(limitRules := c.limitRules + [rule]);
      c := c.(allowURLRevisit := false, ignoreRobotsTxt := false);
      c := c.(countsPages := true);
      collector := Some(c);
    }

    /** The OnScraped event for one page: the registered callback adds one
        to TotalPages; with no callback registered nothing changes. The
        callback dereferences `cm.StatsManager`, so it needs the statistics
        to be installed. */
    method OnScraped()
      requires collector.Some? && collector.value.countsPages ==> stats != null
      modifies stats
      ensures collector.Some? && collector.value.countsPages ==>
        stats.Value() == old(stats.Value()).(totalPages := old(stats.totalPages) + 1)
      ensures !(collector.Some? && collector.value.countsPages) && stats != null ==> stats.Value() == old(stats.Value())
    {
      if collector.Some? && collector.value.countsPages {
        stats.IncrementTotalPages();
      }
    }

    /** StartCrawling: validate, reset the statistics, extract the host,
        configure the collector for that host, create the options and
        crawl, returning the first error. Each failing step stops the
        sequence before the next one runs. */
    method StartCrawling(url: string, searchTerms: string, crawlSiteID: string, maxDepth: int, debug: bool)
      returns (err: Option<Error>)
      modifies this
      ensures var invalid := engine.validateParameters(url, searchTerms, crawlSiteID, maxDepth);
        var host := UrlHost.GetHostFromURL(engine.parse, url);
        var limitErr := engine.limitError(CreateLimitRule(engine));
        if invalid.Some? then
          && err == invalid
          && steps == old(steps) + [RanValidateParameters]
          && stats == old(stats) && collector == old(collector)
        else if host.Err? then
          && err == Some(host.error)
          && steps == old(steps) + [RanValidateParameters, RanInitializeStatsManager, RanExtractHost]
          && stats != null && fresh(stats) && stats.Value() == Stats.Zero && collector == old(collector)
        else if limitErr.Some? then
          && err == limitErr
          && steps == old(steps) + [RanValidateParameters, RanInitializeStatsManager, RanExtractHost, RanConfigureCollector]
          && stats != null && fresh(stats) && stats.Value() == Stats.Zero
          && collector.Some? && collector.value.allowedDomains == [host.value]
          && !collector.value.countsPages
        else
          && collector.Some?
          && err == engine.performCrawling(collector.value, url, crawlSiteID, searchTerms, debug)
          && steps == old(steps) + [RanValidateParameters, RanInitializeStatsManager, RanExtractHost,
                                    RanConfigureCollector, RanCreateOptions, RanPerformCrawling]
          && stats != null && fresh(stats)
          && stats.Value() == engine.crawlCounts(collector.value, url, crawlSiteID, searchTerms, debug)
          && collector.value.allowedDomains == [host.value]
          && collector.value.maxDepth == maxDepth
          && !collector.value.allowURLRevisit && !collector.value.ignoreRobotsTxt
          && collector.value.countsPages
    {
      steps := steps + [RanValidateParameters];
      err := engine.validateParameters(url, searchTerms, crawlSiteID, maxDepth);
      if err.Some? {
        return;
      }
      steps := steps + [RanInitializeStatsManager];
      stats := NewStatsManager();
      steps := steps + [RanExtractHost];
      var host := UrlHost.GetHostFromURL(engine.parse, url);
      if host.Err? {
        return Some(host.error);
      }
      steps := steps + [RanConfigureCollector];
      err := ConfigureCollector([host.value], maxDepth);
      if err.Some? {
        return;
      }
      steps := steps + [RanCreateOptions];
      steps := steps + [RanPerformCrawling];
      err := engine.performCrawling(collector.value, url, crawlSiteID, searchTerms, debug);
      stats.AddCounts(engine.crawlCounts(collector.value, url, crawlSiteID, searchTerms, debug));
    }

    /** Crawl: set up the callbacks, run the collector from `url`, and return
        the result buffer; on either error no results are returned. Records
        the callbacks appended and the counts they made stay either way. */
    method Crawl(url: string, options: CrawlOptions) returns (results: Option<seq<Results.PageData>>, err: Option<Error>)
      modifies options, stats
      ensures var setup := engine.setupCrawlingLogic(options.crawlSiteID, options.searchTerms);
        var run := engine.crawlURL(collector, url, options.crawlSiteID, options.searchTerms);
        if setup.Some? then
          && results == None && err == setup && options.results == old(options.results)
          && (stats != null ==> stats.Value() == old(stats.Value()))
        else
          && options.results == old(options.results) + run.appended
          && (stats != null ==> stats.Value() == Stats.Plus(old(stats.Value()), run.counted))
          && err == run.err
          && (run.err.Some? ==> results == None)
          && (run.err.None? ==> results == Some(options.results))
    {
      err := engine.setupCrawlingLogic(options.crawlSiteID, options.searchTerms);
      if err.Some? {
        return None, err;
      }
      var run := engine.crawlURL(collector, url, options.crawlSiteID, options.searchTerms);
      options.results := options.results + run.appended;
      if stats != null {
        stats.AddCounts(run.counted);
      }
      if run.err.Some? {
        return None, run.err;
      }
      return Some(options.results), None;
    }
  }

  /** Once configured successfully, each scraped page adds exactly one page
      to the count, however many pages there are. */
  method ScrapePages(m: CrawlManager, pages: nat)
    requires m.collector.Some? && m.collector.value.countsPages && m.stats != null
    modifies m.stats
    ensures m.stats.Value() == old(m.stats.Value()).(totalPages := old(m.stats.totalPages) + pages)
  {
    var i := 0;
    while i < pages
      invariant 0 <= i <= pages
      invariant m.stats.Value() == old(m.stats.Value()).(totalPages := old(m.stats.totalPages) + i)
    {
      m.OnScraped();
      i := i + 1;
    }
  }
}
