# streetcode-crawler (page-prowler): a Dafny model of the crawl core

This project models the core of a web crawler, written in Dafny. The crawler
follows every anchor of the pages it visits. For each link it decides, with a
term matcher, whether the link is related to a list of search terms. It keeps
four counters: total links, matched links, not-matched links and pages
scraped. It collects a page record for the links it keeps, and saves
serialised records into a Redis set.

The model covers the following parts:

- **The term matcher** (`TermMatcher`). It takes the title from the last
  path segment of the URL, normalises the title (dashes, stop words, trim,
  stemming), applies the 5-byte length bound, and then searches for a term
  with similarity exactly 1.
- **The page record** (`Results`). Validation, the validate-then-encode and
  decode-then-validate contracts, and the loop that saves a batch of records
  into one Redis set and stops at the first error.
- **The counters and the crawl manager** (`Stats`, `Manager`, `UrlHost`).
  The fail-fast `StartCrawling` sequence, the collector settings and the
  page counter, the visit-error policy, and `Crawl`.
- **The three revisions of the per-link bookkeeping**, each in its own
  module, because they differ:
  - `CrawlUtils` for `internal/crawler/crawl_utils.go`.
  - `InternalUtils` for `internal/crawler/utils.go`.
  - `LegacyCrawler` for `crawler/utils.go`.

  Each module has a value-level `State` (counters plus buffer), `...Step`
  functions for each operation, lemmas about runs over many anchors or links, and a
  `CrawlManager` class whose methods are proved to change the statistics
  object and the buffer exactly as the step functions say.
- **The seed URL normalisation of the HTTP handler** (`ApiServer`).

Library code is not part of the model. This covers url.Parse, the stop-word
cleaner, the stemmer, strings.ToLower, the similarity metric, JSON and colly. Each of these
appears as a function-typed field of a "collaborators" datatype (`TextLib`,
`Codec`, `Engine`, `Collaborators`), so that every statement holds for any
behaviour of that code. The Redis client is different: it is a class
(`Results.SetStore`, `LegacyCrawler.DbManager`) whose state the saves
change, and whose failures come from a `failsAt` oracle on the index of the
call. Code that the core calls but
that is not shown is handled the same way:

- `GetMatchingTerms`
- `MatchedLinkProcessor.HandleMatchingLinks`
- `PageData.UpdatePageData` in the two later revisions
- `validateParameters`
- `performCrawling`
- `SetupCrawlingLogic`
- `CrawlURL`

Go's `strings` functions are written out on `seq<char>` in `GoStrings`:
`Split`, `Join`, `TrimSpace` with Unicode white space, `HasPrefix`,
`HasSuffix` and `ReplaceAll`. `ByteLen` is Go's `len`, which counts UTF-8
bytes. The minimum title length therefore counts bytes, although the comment
on the constant speaks of a character limit. The model follows the code.

A few things the source leaves open are fixed as follows:

- In `crawl_utils.go`, handleMatchingTerms passes the page URL
  (`e.Request.URL`) to `ProcessMatchingLinkAndUpdateStats` as its `href`. So
  the empty-URL test and the stored ParentURL both concern the page URL.
- `MatchedLinkProcessor.UpdatePageData` and `AppendResult` are taken to do
  what the file's own `updatePageData` and `appendResult` do.
- In `internal/crawler/utils.go`, `AppendResult` is taken to append its
  record at the end of `cm.Options.Results`.
- In `manager.go`:
  - `initializeStatsManager` installs fresh statistics at zero.
  - `configureCollector(host, depth)` is `ConfigureCollector([host], depth)`.
  - `extractHostFromURL` is `GetHostFromURL`.

## Model

| member | source | states |
|---|---|---|
| GoStrings.Split | internal/termmatcher/termmatcher.go:61 | strings.Split with a one-character separator: at least one piece, and no piece holds the separator |
| GoStrings.Join | internal/termmatcher/termmatcher.go:80 | strings.Join with a one-character separator: the pieces in order with one separator between neighbours; its inverse is stated by JoinSplit |
| GoStrings.JoinSplit | internal/termmatcher/termmatcher.go:74-80 | splitting the join of at least one separator-free piece gives exactly those pieces back |
| GoStrings.HasPrefix | internal/crawler/api_server.go:37 | strings.HasPrefix: the string starts with the prefix |
| GoStrings.HasSuffix | internal/crawler/utils.go:37 | strings.HasSuffix: the string ends with the suffix |
| GoStrings.SplitJoin | internal/termmatcher/termmatcher.go:61-74 | joining the pieces of a split with the same separator gives the input back, which is why processTitle's split and join lose no text |
| GoStrings.SplitLast | internal/termmatcher/termmatcher.go:61-62 | the last piece of a split is the separator-free text after the last separator, or the whole string if there is none |
| GoStrings.ReplaceChar | internal/termmatcher/termmatcher.go:70 | strings.ReplaceAll of one character: same length, each occurrence replaced, every other character kept |
| GoStrings.TrimSpace | internal/termmatcher/termmatcher.go:72 | strings.TrimSpace: the result is an infix of the input, only Unicode white space is cut from either end, and the result neither starts nor ends with white space |
| GoStrings.TrimSpaceIdempotent | internal/crawler/api_server.go:36 | trimming twice is trimming once |
| GoStrings.ByteLen | internal/termmatcher/termmatcher.go:31 | len of a Go string: at least the number of characters, at most four times it, zero only for "" |
| TermMatcher.ExtractTitleFromURL | internal/termmatcher/termmatcher.go:47-65 | "" when the URL does not parse or the path is "" or "/"; otherwise the text after the last '/' of the path; never contains '/' |
| TermMatcher.TrailingSlashGivesEmptyTitle | internal/termmatcher/termmatcher.go:55-64 | a path ending in '/' gives the empty title |
| TermMatcher.DashesToSpaces | internal/termmatcher/termmatcher.go:70 | every '-' of the title becomes a space and nothing else changes |
| TermMatcher.StemmerInput | internal/termmatcher/termmatcher.go:70-74 | the words handed to the stemmer come from the dash-free title after stop-word cleaning and trimming; they contain no space, join back to that text, and have no white space at the outer ends |
| TermMatcher.ProcessTitle | internal/termmatcher/termmatcher.go:68-84 | processTitle: the stemmed words of StemmerInput joined with single spaces |
| TermMatcher.ProcessTitleWords | internal/termmatcher/termmatcher.go:74-80 | when the stemmer returns at least one word and none holds a space, splitting the processed title at spaces gives exactly the stemmed words |
| TermMatcher.ProcessTitleWithoutStemming | internal/termmatcher/termmatcher.go:68-84 | with an identity stemmer, processTitle equals the dash-free, stop-word-cleaned, trimmed title, so the split and the join undo each other |
| TermMatcher.TermMatches | internal/termmatcher/termmatcher.go:99-102 | one term matches when its lower-cased stem has similarity exactly 1 with the lower-cased title |
| TermMatcher.AnyTermMatches | internal/termmatcher/termmatcher.go:98-105 | the early-return loop is true exactly when some term, lower-cased and stemmed, has similarity 1 with the title |
| TermMatcher.MatchSearchTerms | internal/termmatcher/termmatcher.go:87-108 | true iff some term matches the lower-cased title; false for an empty term list |
| TermMatcher.MatchSearchTermsIgnoresOrder | internal/termmatcher/termmatcher.go:98-105 | two term lists with the same members give the same verdict, whatever the order or repetition |
| TermMatcher.Related | internal/termmatcher/termmatcher.go:17-44 | false for an empty title; otherwise true iff the processed title is non-empty, has at least MinTitleLength = 5 bytes and matches some term |
| TermMatcher.RelatedNeedsLongMatchedTitle | internal/termmatcher/termmatcher.go:24-43 | a related URL has a non-empty processed title of at least 5 bytes, a non-empty term list and a matching term |
| TermMatcher.ShortTitleNeverRelated | internal/termmatcher/termmatcher.go:30-34 | a processed title under 5 bytes is never related, for any terms |
| TermMatcher.ShortAsciiTitleNeverRelated | internal/termmatcher/termmatcher.go:30-34 | for ASCII text the byte bound is a character bound: a processed title of fewer than 5 ASCII characters is never related |
| TermMatcher.LengthBoundCountsBytes | internal/termmatcher/termmatcher.go:31 | the bound counts bytes: three two-byte characters pass it |
| Results.Validate | internal/crawler/results.go:20-29 | a record is valid exactly when its URL parses as a request URI; otherwise the error is an invalid-URL error |
| Results.ValidateReadsOnlyURL | internal/crawler/results.go:20-29 | two records with the same URL get the same verdict |
| Results.MarshalBinary | internal/crawler/results.go:32-37 | an invalid record gives its validation error and no bytes; a valid one gives its JSON encoding |
| Results.Unmarshal | internal/crawler/results.go:40-45 | the record is what decoding leaves in it; the decode error is returned if there is one, otherwise the validation verdict of the decoded record |
| Results.PageRecord.UnmarshalBinary | internal/crawler/results.go:40-45 | overwrites the receiver and returns the error exactly as Unmarshal says |
| Results.UnmarshalAfterMarshal | internal/crawler/results.go:32-45 | if decode inverts encode, a valid record marshals successfully and unmarshals back into itself with no error |
| Results.SetStore.SAdd | internal/crawler/results.go:74 | a failed SADD writes nothing; a successful one adds the member under the key and counts whether it was new |
| Results.AddAllEffect | internal/crawler/results.go:67-80 | a batch of successful SADDs under one key adds exactly the batch to that key's set and changes no other key |
| Results.SaveResultsToRedis | internal/crawler/results.go:59-82 | records are saved in order; it stops at the first record that fails validation, with that error and no SADD for it, or at the first failed SADD, with its error; every earlier record had its encoding added; nil error iff all were saved |
| Results.SavedBatchIsStored | internal/crawler/results.go:67-81 | after a full save, the encoding of every record is in the set under `key`, and no other key is created or changed |
| Stats.LinkStats.constructor | internal/crawler/manager.go:47 | a new statistics object has all four counters at zero |
| Stats.LinkStats.IncrementTotalLinks | internal/crawler/crawl_utils.go:37 | TotalLinks rises by one and nothing else changes |
| Stats.LinkStats.IncrementMatchedLinks | internal/crawler/crawl_utils.go:101 | MatchedLinks rises by one and nothing else changes |
| Stats.LinkStats.IncrementNotMatchedLinks | internal/crawler/crawl_utils.go:127 | NotMatchedLinks rises by one and nothing else changes |
| Stats.LinkStats.IncrementTotalPages | internal/crawler/manager.go:143 | TotalPages rises by one and nothing else changes |
| Stats.LinkStats.AddCounts | internal/crawler/manager.go:114 | the increments a whole crawl run's callbacks make are added counter by counter, so every counter rises by its own increment and none decreases |
| Stats.LinkStats.Report | internal/crawler/manager.go:150-152 | the report has exactly the four keys logCrawlingStatistics reads, each with its counter |
| UrlHost.GetHostFromURL | internal/crawler/utils.go:183-197 | an error exactly when the URL does not parse or has no host name; on success the host is non-empty and is the parsed host name |
| Manager.VisitWithColly | internal/crawler/manager.go:156-178 | returns no error for any outcome; logs at error level exactly for a failure other than already-visited or forbidden-domain, which are logged at debug level |
| Manager.HandleVisitError | internal/crawler/manager.go:82-85 | the error is logged at error level and returned unchanged |
| Manager.CreateLimitRule | internal/crawler/crawl_utils.go:131-137 | the rule covers every domain ("*") with the default parallelism and delay |
| Manager.NewCollector | internal/crawler/manager.go:119-123 | a synchronous collector with the requested maximum depth, the library defaults for everything else, and no callback |
| Manager.NewStatsManager | internal/crawler/manager.go:45-50 | a fresh statistics object with every counter at zero |
| Manager.CrawlManager.constructor | internal/crawler/manager.go:26-37 | no collector yet, no statistics manager (nil until StartCrawling installs one), no step run |
| Manager.CrawlManager.ConfigureCollector | internal/crawler/manager.go:118-147 | replaces the collector with a new one for the given domains and depth; when the limit rule is rejected, returns that error with the revisit and robots defaults untouched, no page counter, and the rule list Collector.Limit left; otherwise adds the rule, refuses revisits, obeys robots.txt and registers the page counter |
| Manager.CrawlManager.OnScraped | internal/crawler/manager.go:139-144 | with the callback registered, TotalPages rises by exactly one and nothing else changes; without it, nothing changes; the callback needs the statistics manager installed, as it dereferences it |
| Manager.ScrapePages | internal/crawler/manager.go:139-144 | after a successful configuration, n scraped pages add exactly n to TotalPages |
| Manager.CrawlManager.StartCrawling | internal/crawler/manager.go:97-116 | the steps run in order and the first failure stops the sequence: a validation error is returned before the statistics reset, the host extraction or the configuration; a host error before the configuration; a limit-rule error before the options or the crawl; otherwise the crawl's result is returned, with the collector set to the host, the depth, no revisits, robots.txt obeyed and pages counted, and the fresh statistics holding exactly the counts the crawl's callbacks made |
| Manager.CrawlManager.Crawl | internal/crawler/manager.go:60-73 | a setup error or a CrawlURL error gives no results and that error; otherwise the options' result buffer, which holds what the run appended, the run being determined by the collector, the URL and the options' site ID and search terms; a setup error leaves the counters alone, a run raises them by what its callbacks counted, error or not |
| CrawlUtils.Href | internal/crawler/crawl_utils.go:26-34 | getHref: the href attribute resolved against the page URL, possibly "" |
| CrawlUtils.CreatePageData | internal/crawler/crawl_utils.go:45-49 | a record with only its URL set |
| CrawlUtils.UpdatePageData | internal/crawler/crawl_utils.go:117-120 | sets the matching terms and the parent URL, keeps every other field |
| CrawlUtils.NonEmptyPieces | internal/crawler/crawl_utils.go:141-147 | the filter keeps exactly the non-empty pieces: no element is empty and a string is kept iff it is a non-empty piece |
| CrawlUtils.SplitSearchTerms | internal/crawler/crawl_utils.go:139-148 | the loop returns exactly the non-empty comma-separated pieces, in order; none is empty or contains ',' |
| CrawlUtils.SplitSearchTermsOfSeparatorsOnly | internal/crawler/crawl_utils.go:139-148 | "" and ",," give no terms |
| CrawlUtils.SplitSearchTermsKeepsSpaces | internal/crawler/crawl_utils.go:139-148 | pieces are not trimmed: "a, b" gives "a" and " b" |
| CrawlUtils.ProcessMatchingLinkStep | internal/crawler/crawl_utils.go:90-111 | an empty URL changes nothing; otherwise MatchedLinks rises by one, and exactly one updated record is appended only if HandleMatchingLinks succeeds |
| CrawlUtils.HandleMatchingTermsStep | internal/crawler/crawl_utils.go:59-66 | no match: NotMatchedLinks rises by one and nothing is appended; a match goes to ProcessMatchingLinkAndUpdateStats |
| CrawlUtils.ProcessLinkStep | internal/crawler/crawl_utils.go:68-75 | TotalLinks rises by exactly one per call; TotalPages is untouched |
| CrawlUtils.AnchorStep | internal/crawler/crawl_utils.go:11-24 | an empty href changes nothing; otherwise the link is processed |
| CrawlUtils.Run | internal/crawler/crawl_utils.go:11-24 | the handler applied to one anchor after another |
| CrawlUtils.RunAppend | internal/crawler/crawl_utils.go:11-24 | running over `a + b` is running over `a`, then over `b`: anchors are handled strictly in order |
| CrawlUtils.AnchorStepEffect | internal/crawler/crawl_utils.go:11-124 | per anchor: no change for an empty href; otherwise one more link and then, with no match, one more non-match and no record; with a match on an empty page URL, nothing more; with a match on a page, one more match, and if HandleMatchingLinks succeeds a record (link URL, page URL as parent, the terms) appended after the earlier ones |
| CrawlUtils.AnchorStepPreservesConsistent | internal/crawler/crawl_utils.go:11-124 | matched plus not matched never exceeds total, there are never more records than matched links, and every record has terms and a parent URL; each anchor keeps this |
| CrawlUtils.RunEffect | internal/crawler/crawl_utils.go:11-75 | over any sequence of anchors the buffer only grows at its end, no counter decreases, TotalLinks rises by the number of resolved hrefs, TotalPages stays and consistency is kept |
| CrawlUtils.CreateStartCrawlingOptions | internal/crawler/crawl_utils.go:150-153 | fresh options with the given parameters and an empty buffer, and fresh statistics at zero |
| CrawlUtils.CrawlManager.ProcessMatchingLinkAndUpdateStats | internal/crawler/crawl_utils.go:90-111 | changes the statistics and the buffer exactly as ProcessMatchingLinkStep |
| CrawlUtils.CrawlManager.HandleMatchingTerms | internal/crawler/crawl_utils.go:59-66 | changes the statistics and the buffer exactly as HandleMatchingTermsStep |
| CrawlUtils.CrawlManager.ProcessLink | internal/crawler/crawl_utils.go:68-75 | changes the statistics and the buffer exactly as ProcessLinkStep |
| CrawlUtils.CrawlManager.HandleAnchor | internal/crawler/crawl_utils.go:11-24 | changes the statistics and the buffer exactly as AnchorStep, and visits the href iff it is non-empty |
| InternalUtils.Href | internal/crawler/utils.go:60-68 | getHref: the href attribute resolved against the page URL, possibly "" |
| InternalUtils.Skipped | internal/crawler/utils.go:37-39 | an href is skipped when it is empty or ends in ".png", ".jpg" or ".jpeg" |
| InternalUtils.CreatePageData | internal/crawler/utils.go:89-93 | the zero record with only its URL set |
| InternalUtils.SkippedExamples | internal/crawler/utils.go:37-39 | empty hrefs and ".png"/".jpeg" endings are skipped; ".PNG", an extension followed by a query, and other pages are not: the test is a case-sensitive suffix match |
| InternalUtils.UpdateStatsStep | internal/crawler/utils.go:155-163 | exactly one of MatchedLinks and NotMatchedLinks rises: MatchedLinks iff there are matching terms |
| InternalUtils.ProcessMatchingLinkStep | internal/crawler/utils.go:141-149 | an empty URL appends nothing; otherwise one updated record is appended, even with no matching terms |
| InternalUtils.HandleMatchingTermsStep | internal/crawler/utils.go:119-122 | the record step runs first and the statistics are updated whether or not it appended |
| InternalUtils.ProcessLinkStep | internal/crawler/utils.go:124-134 | TotalLinks rises by one and Matched plus NotMatched rises by one |
| InternalUtils.AnchorStep | internal/crawler/utils.go:33-52 | a skipped href changes nothing; otherwise the link is processed |
| InternalUtils.Run | internal/crawler/utils.go:33-52 | the handler applied to one anchor after another |
| InternalUtils.RunAppend | internal/crawler/utils.go:33-52 | running over `a + b` is running over `a`, then over `b`: anchors are handled strictly in order |
| InternalUtils.AnchorStepKeepsBalanced | internal/crawler/utils.go:119-163 | TotalLinks = MatchedLinks + NotMatchedLinks is kept by every anchor |
| InternalUtils.RunEffect | internal/crawler/utils.go:33-163 | over any anchor sequence: TotalLinks rises by the processed anchors, MatchedLinks by those with terms, NotMatchedLinks by the rest, TotalPages stays, and exactly one record per processed anchor on a non-empty page URL is appended, in order |
| InternalUtils.RunFromZero | internal/crawler/utils.go:33-163 | from fresh statistics the counters and the buffer after a run are determined by the anchors: processed, matched, processed minus matched, zero pages |
| InternalUtils.CrawlManager.UpdateStats | internal/crawler/utils.go:155-163 | changes the counters exactly as UpdateStatsStep |
| InternalUtils.CrawlManager.ProcessMatchingLink | internal/crawler/utils.go:141-149 | changes the buffer exactly as ProcessMatchingLinkStep |
| InternalUtils.CrawlManager.HandleMatchingTerms | internal/crawler/utils.go:119-122 | changes the statistics and the buffer exactly as HandleMatchingTermsStep |
| InternalUtils.CrawlManager.ProcessLink | internal/crawler/utils.go:124-134 | changes the statistics and the buffer exactly as ProcessLinkStep |
| InternalUtils.CrawlManager.HandleAnchor | internal/crawler/utils.go:33-52 | changes the state exactly as AnchorStep, visits every non-skipped href, and never returns an error because visitWithColly never reports one |
| LegacyCrawler.GetHref | crawler/utils.go:12-18 | an error exactly when the resolved href is empty, otherwise the resolved href |
| LegacyCrawler.CreatePageData | crawler/utils.go:20-24 | a record with only its URL set |
| LegacyCrawler.ScoredRecord | crawler/utils.go:29-32 | the record after UpdatePageData with the matching terms and the CompareTerms score of the page URL against the terms joined by spaces |
| LegacyCrawler.UpdateStatsStep | crawler/utils.go:67-73 | MatchedLinks rises with matching terms, NotMatchedLinks without |
| LegacyCrawler.HandleMatchingTermsStep | crawler/utils.go:26-51 | the scored record is appended before the save, the counters are updated, one single-record save under the crawl site ID is made, and the save's failure is the returned error while the record stays appended |
| LegacyCrawler.ProcessLinkStep | crawler/utils.go:53-65 | TotalLinks rises by one; with no match nothing else happens and no error; with a match the matching terms are handled |
| LegacyCrawler.ProcessLinkEffect | crawler/utils.go:53-65 | per link: one more link, NotMatchedLinks never moves; no match leaves pages and saves as they were; a match adds one matched link, appends the scored record (ScoredRecord of the page URL, the link's record and the terms) after the earlier ones and one save of exactly that record under the site ID, whose failure is the error |
| LegacyCrawler.ProcessLinkPreservesConsistent | crawler/utils.go:26-65 | from a consistent state (no non-matches, one page and one single-record save per matched link) every processLink keeps it so |
| LegacyCrawler.Run | crawler/utils.go:53-65 | processLink applied to one link after another |
| LegacyCrawler.RunAppend | crawler/utils.go:53-65 | running over `a + b` is running over `a`, then over `b`: links are processed strictly in order |
| LegacyCrawler.RunEffect | crawler/utils.go:26-65 | from a consistent state, over any links: TotalLinks rises by their number, MatchedLinks by the matched ones, TotalPages stays, pages and saves only grow at their ends, and consistency is kept |
| LegacyCrawler.DbManager.SaveResultsToRedis | crawler/utils.go:43 | records the request (key, records) and fails exactly when the store's failure oracle says so |
| LegacyCrawler.CrawlManager.UpdateStats | crawler/utils.go:67-73 | changes the counters exactly as UpdateStatsStep |
| LegacyCrawler.CrawlManager.HandleMatchingTerms | crawler/utils.go:26-51 | changes the state and returns the error exactly as HandleMatchingTermsStep |
| LegacyCrawler.CrawlManager.ProcessLink | crawler/utils.go:53-65 | changes the state and returns the error exactly as ProcessLinkStep |
| ApiServer.HasScheme | internal/crawler/api_server.go:37 | the URL starts with "http://" or "https://" |
| ApiServer.NormalizeSeedURL | internal/crawler/api_server.go:31-39 | an error exactly for the empty string (checked before trimming); otherwise the result starts with "http://" or "https://": the trimmed URL when it already does, else "https://" followed by it |
| ApiServer.NormalizeIdempotent | internal/crawler/api_server.go:36-39 | normalising a normalised URL gives it back |
| ApiServer.BlankURLBecomesBareScheme | internal/crawler/api_server.go:31-39 | a non-empty URL of white space only passes the check and becomes "https://" |
| ApiServer.PostArticlesStart | internal/crawler/api_server.go:18-47 | a bind error or an empty URL is the handler's error; otherwise the crawl starts from the normalised URL, and the answer is 500 with the error text if it fails, 200 with the success message if it does not |

## Left out

- Logging is left out. Where a property depends on the level, it is returned as a tag (`Manager.LogLevel`). The timing (`time.Since`) and `printResults` are left out too, because they only produce output.
- The mutexes (`CrawlingMu`, `LinkStatsMu`) are left out. Counter updates are modelled as sequential.
- The nil-receiver check at the start of `ProcessMatchingLinkAndUpdateStats` is left out: the model's receiver has a non-null class type.
- The log.Fatalf on a nil manager in `PostArticlesStart` and a nil request field are left out: the model has no nil manager, and the request's URL is a plain string.
- The Smith-Waterman-Gotoh similarity is floating-point library code. Only the test "similarity == 1" appears, as the uninterpreted predicate `TextLib.similarityIsOne`. The similarity score of `crawler/utils.go` is an uninterpreted `real`.
- The colly engine is left out: fetching, HTML parsing, depth, robots.txt, rate limits and the recursion a visit triggers. A visit is an outcome chosen by the collaborators. The collector settings the crawler writes form `Colly.CollectorConfig`.
- url.Parse and ParseRequestURI appear only as a parser returning path and host name, and as a validity predicate.
- JSON is an abstract encode/decode pair.
- Results.MarshalBinary: the model never has json.Marshal fail. A record of strings and string slices always encodes.
- Results.SaveResultsToRedis: the context is left out, because it is only logged. The SADD count is left out, because it is only printed. The bytes-to-string conversion for SADD is the identity on the encoding.
- Manager.CrawlManager.StartCrawling: several steps whose code is not shown are collaborators: `validateParameters`, `createCrawlingOptions` and `performCrawling`. The configured collector and the options the crawl receives (site ID, terms, debug flag) are passed as their parameters. What the crawl's OnScraped and anchor callbacks count is an engine oracle (`Engine.crawlCounts`), applied in one step after the crawl instead of callback by callback. The depth reaches the crawl only through the collector's `maxDepth`; how colly uses it is left out, so nothing relates the outcomes of crawls at different depths.
- Manager.CrawlManager.Crawl: `SetupCrawlingLogic` and `CrawlURL` are collaborators. The run's outcome is a function of the manager's collector, the URL, and the options' site ID and search terms, which the registered callbacks use. The run's appends to the buffer and its increments to the counters are given by the `CrawlURL` outcome and applied in one step after the run. With no statistics installed the source's callbacks would dereference nil; the model then promises nothing about the counters.
- Manager.CrawlManager.constructor: it models `NewCrawlManager` without the logger, client, database and mutex handles, which the model does not have. The statistics manager starts as null, as in the source.
- Manager.CrawlManager.ConfigureCollector: the rule list that `Collector.Limit` leaves after rejecting a rule is colly's business, so it comes from the engine (`Engine.rulesAfterRejection`). On success the rule is taken to be appended.
- `logCrawlingStatistics` is left out, because it only logs `Report`.
- Go strings are byte sequences, but the model's strings are sequences of Unicode scalar values. A string that is not valid UTF-8 (a path percent-decoded from "/%FF", say) has no counterpart in the model. `ByteLen` is the UTF-8 length of valid text only.
- The anchor handlers pass on the error of visitWithColly, which is never set. That error branch is therefore never taken.
- `handleMatchingLinks`, `handleSetupError`, `incrementMatchedLinks` (crawl_utils.go) and the logging helpers are left out, because they have no effect beyond logging or one counter call.
- `GetMatchingTerms` is not part of this model. Neither is the `models` package of `crawler/utils.go`: its record is reduced to URL, terms and score, and its `UpdatePageData` is a collaborator.
- The generated HTTP routing, the CLI commands and the stream consumer are left out, because they are transport and process plumbing.
- `GetPing` is left out.
- Stats.LinkStats: the stats package is not part of this model. Its counters are taken to be plain increments starting from zero, which is what the crawler relies on.
