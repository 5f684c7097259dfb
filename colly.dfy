/** The fetch engine (gocolly/colly) as the crawler sees it: the anchor
    elements it dispatches, the outcome of a visit, and the collector
    settings the crawler writes. Fetching, parsing, robots.txt, depth and
    rate limiting themselves are outside the model. */
module Colly {

  /** An anchor element handed to the OnHTML callback: the URL of the page
      it was found on (`e.Request.URL`), its `href` attribute and its text. */
  datatype Anchor = Anchor(pageURL: string, hrefAttr: string, text: string)

  /** `e.Request.AbsoluteURL(href)`: resolve an href against a page URL. It
      may return "", which is the case the crawler tests for; which inputs
      give "" is colly's business and is left open. */
  type Resolver = (string, string) -> string

  /** What `Collector.Visit` returned. */
  datatype VisitOutcome = Visited | AlreadyVisited | ForbiddenDomain | OtherFailure

  /** colly.LimitRule: the domain glob, the parallelism and the delay. */
  datatype LimitRule = LimitRule(domainGlob: string, parallelism: nat, delay: nat)

  /** The collector settings the crawler sets or relies on. `countsPages`
      says whether the OnScraped callback that counts pages is registered. */
  datatype CollectorConfig = CollectorConfig(
    async: bool,
    maxDepth: int,
    allowedDomains: seq<string>,
    limitRules: seq<LimitRule>,
    allowURLRevisit: bool,
    ignoreRobotsTxt: bool,
    countsPages: bool)
}
