/** The term matcher: decides whether the title taken from a URL is related
    to any of the search terms. The URL parser, the stop-word cleaner, the
    stemmer, the lower-caser and the Smith-Waterman-Gotoh similarity are
    library code; they are the uninterpreted fields of `TextLib`. */
module TermMatcher {
  import opened Common
  import opened GoStrings

  /** Titles whose processed form has fewer bytes than this are not scored. */
  const MinTitleLength: nat := 5

  /** The library calls the matcher makes, left uninterpreted. */
  datatype TextLib = TextLib(
    parse: UrlParser,                         // url.Parse
    cleanStopwords: string -> string,         // stopwords.CleanString(_, "en", false)
    stemMultiple: seq<string> -> seq<string>, // stemmer.StemMultiple
    stem: string -> string,                   // stemmer.Stem
    toLower: string -> string,                // strings.ToLower
    similarityIsOne: (string, string) -> bool // strutil.Similarity(term, title, swg) == 1
  )

  /** extractTitleFromURL: the last '/'-separated segment of the parsed path,
      or "" when the URL does not parse or its path is "" or "/". */
  function ExtractTitleFromURL(lib: TextLib, urlString: string): (title: string)
    ensures lib.parse(urlString).None? ==> title == ""
    ensures lib.parse(urlString).Some? ==>
      var path := lib.parse(urlString).value.path;
      && (path == "" || path == "/" ==> title == "")
      && IsLastSegment(title, path, '/')
    ensures '/' !in title
  {
    match lib.parse(urlString)
    case None => ""
    case Some(u) =>
      if u.path == "" || u.path == "/" then ""
      else
        var segments := Split(u.path, '/');
        SplitLast(u.path, '/');
        segments[|segments| - 1]
  }

  /** A path that ends in '/' yields the empty title. */
  lemma TrailingSlashGivesEmptyTitle(lib: TextLib, urlString: string)
    requires lib.parse(urlString).Some?
    requires HasSuffix(lib.parse(urlString).value.path, "/")
    ensures ExtractTitleFromURL(lib, urlString) == ""
  {
    var path := lib.parse(urlString).value.path;
    var title := ExtractTitleFromURL(lib, urlString);
    assert path[|path| - 1] == '/' by {
      assert path[|path| - 1] == path[|path| - 1..][0];
    }
  }

  /** The first step of processTitle: every '-' becomes a space, nothing
      else changes. */
  function DashesToSpaces(title: string): (r: string)
    ensures |r| == |title| && '-' !in r
    ensures forall i :: 0 <= i < |r| ==> r[i] == (if title[i] == '-' then ' ' else title[i])
  {
    ReplaceChar(title, '-', ' ')
  }

  /** The words processTitle hands to the stemmer: the dash-free title is
      cleaned of stop words and trimmed, and then split at single spaces. */
  function StemmerInput(lib: TextLib, title: string): (words: seq<string>)
    ensures |words| >= 1
    ensures forall i :: 0 <= i < |words| ==> ' ' !in words[i]
    ensures Join(words, ' ') == TrimSpace(lib.cleanStopwords(DashesToSpaces(title)))
    ensures words[0] == [] || !IsSpace(words[0][0])
    ensures words[|words| - 1] == [] || !IsSpace(words[|words| - 1][|words[|words| - 1]| - 1])
  {
    var trimmed := TrimSpace(lib.cleanStopwords(DashesToSpaces(title)));
    var words := Split(trimmed, ' ');
    SplitJoin(trimmed, ' ');
    SplitKeepsTrimmedEnds(trimmed, ' ');
    words
  }

  /** Splitting a string that neither starts nor ends with white space gives
      a first piece that does not start with it and a last piece that does
      not end with it. */
  lemma SplitKeepsTrimmedEnds(t: string, sep: char)
    requires t == [] || (!IsSpace(t[0]) && !IsSpace(t[|t| - 1]))
    ensures var words := Split(t, sep);
      && (words[0] == [] || !IsSpace(words[0][0]))
      && (words[|words| - 1] == [] || !IsSpace(words[|words| - 1][|words[|words| - 1]| - 1]))
  {
    var words := Split(t, sep);
    SplitFirstLast(t, sep);
    var first, last := words[0], words[|words| - 1];
    if first != [] {
      assert first[0] == t[..|first|][0] == t[0];
    }
    if last != [] {
      assert last[|last| - 1] == t[|t| - |last|..][|last| - 1] == t[|t| - 1];
    }
  }

  /** The first piece of a split starts the input and the last ends it. */
  lemma SplitFirstLast(s: string, sep: char)
    ensures HasPrefix(s, Split(s, sep)[0])
    ensures HasSuffix(s, Split(s, sep)[|Split(s, sep)| - 1])
  {
    SplitLast(s, sep);
    SplitFirstIsPrefix(s, sep);
  }

  lemma {:induction false} SplitFirstIsPrefix(s: string, sep: char)
    ensures HasPrefix(s, Split(s, sep)[0])
    decreases |s|
  {
    if |s| > 0 {
      SplitFirstIsPrefix(s[1..], sep);
    }
  }

  /** processTitle: dashes to spaces, stop words removed, trimmed, split at
      spaces, each word stemmed, and the words joined with single spaces. */
  function ProcessTitle(lib: TextLib, title: string): (r: string)
    ensures r == Join(lib.stemMultiple(StemmerInput(lib, title)), ' ')
  {
    Join(lib.stemMultiple(StemmerInput(lib, title)), ' ')
  }

  /** When the stemmer returns at least one word and no word holds a space,
      splitting the processed title at spaces gives back exactly the stemmed
      words: the join loses nothing. */
  lemma ProcessTitleWords(lib: TextLib, title: string)
    requires var stemmed := lib.stemMultiple(StemmerInput(lib, title));
      |stemmed| >= 1 && forall i :: 0 <= i < |stemmed| ==> ' ' !in stemmed[i]
    ensures Split(ProcessTitle(lib, title), ' ') == lib.stemMultiple(StemmerInput(lib, title))
  {
    JoinSplit(lib.stemMultiple(StemmerInput(lib, title)), ' ');
  }

  /** With a stemmer that leaves every word as it is, processTitle is just
      the dash-free title cleaned of stop words and trimmed: the split at
      spaces and the join with spaces undo each other. */
  lemma ProcessTitleWithoutStemming(lib: TextLib, title: string)
    requires forall words :: lib.stemMultiple(words) == words
    ensures ProcessTitle(lib, title) == TrimSpace(lib.cleanStopwords(DashesToSpaces(title)))
  {
    assert lib.stemMultiple(StemmerInput(lib, title)) == StemmerInput(lib, title);
  }

  /** A search term counts as matched when its lower-cased stem has
      similarity exactly 1 with the lower-cased title. */
  predicate TermMatches(lib: TextLib, loweredTitle: string, term: string)
  {
    lib.similarityIsOne(lib.stem(lib.toLower(term)), loweredTitle)
  }

  /** The loop of matchSearchTerms: scan the terms in order and stop at the
      first one that matches. */
  function AnyTermMatches(lib: TextLib, loweredTitle: string, terms: seq<string>): (found: bool)
    ensures found <==> exists i :: 0 <= i < |terms| && TermMatches(lib, loweredTitle, terms[i])
  {
    if terms == [] then false
    else if TermMatches(lib, loweredTitle, terms[0]) then true
    else
      var found := AnyTermMatches(lib, loweredTitle, terms[1..]);
      assert forall i :: 1 <= i < |terms| ==> terms[i] == terms[1..][i - 1];
      found
  }

  /** matchSearchTerms: true exactly when some term matches the lower-cased
      title; false for an empty term list. */
  function MatchSearchTerms(lib: TextLib, title: string, terms: seq<string>): (matched: bool)
    ensures matched <==> exists t :: t in terms && TermMatches(lib, lib.toLower(title), t)
    ensures terms == [] ==> !matched
  {
    AnyTermMatches(lib, lib.toLower(title), terms)
  }

  /** The verdict depends only on which terms occur, not on their order or
      repetition. */
  lemma MatchSearchTermsIgnoresOrder(lib: TextLib, title: string, terms1: seq<string>, terms2: seq<string>)
    requires forall t :: t in terms1 <==> t in terms2
    ensures MatchSearchTerms(lib, title, terms1) == MatchSearchTerms(lib, title, terms2)
  {
  }

  /** Related: the URL's title is non-empty, its processed form is non-empty
      and at least MinTitleLength bytes long, and some search term matches it. */
  function Related(lib: TextLib, href: string, searchTerms: seq<string>): (related: bool)
    ensures ExtractTitleFromURL(lib, href) == "" ==> !related
    ensures var processed := ProcessTitle(lib, ExtractTitleFromURL(lib, href));
      related <==>
        && ExtractTitleFromURL(lib, href) != ""
        && processed != ""
        && ByteLen(processed) >= MinTitleLength
        && MatchSearchTerms(lib, processed, searchTerms)
  {
    var title := ExtractTitleFromURL(lib, href);
    if title == "" then false
    else
      var processedTitle := ProcessTitle(lib, title);
      if processedTitle == "" then false
      else if ByteLen(processedTitle) < MinTitleLength then false
      else MatchSearchTerms(lib, processedTitle, searchTerms)
  }

  /** A related URL has a processed title of at least MinTitleLength bytes
      that some search term matches; in particular the term list is not empty. */
  lemma RelatedNeedsLongMatchedTitle(lib: TextLib, href: string, searchTerms: seq<string>)
    requires Related(lib, href, searchTerms)
    ensures var processed := ProcessTitle(lib, ExtractTitleFromURL(lib, href));
      && processed != ""
      && ByteLen(processed) >= MinTitleLength
      && searchTerms != []
      && exists t :: t in searchTerms && TermMatches(lib, lib.toLower(processed), t)
  {
  }

  /** A processed title shorter than MinTitleLength bytes is never related,
      whatever the search terms. */
  lemma ShortTitleNeverRelated(lib: TextLib, href: string, searchTerms: seq<string>)
    requires ByteLen(ProcessTitle(lib, ExtractTitleFromURL(lib, href))) < MinTitleLength
    ensures !Related(lib, href, searchTerms)
  {
  }

  /** For ASCII text bytes and characters agree: a processed title of fewer
      than MinTitleLength ASCII characters is never related. */
  lemma ShortAsciiTitleNeverRelated(lib: TextLib, href: string, searchTerms: seq<string>)
    requires var processed := ProcessTitle(lib, ExtractTitleFromURL(lib, href));
      && |processed| < MinTitleLength
      && forall k :: 0 <= k < |processed| ==> processed[k] as int < 0x80
    ensures !Related(lib, href, searchTerms)
  {
    ByteLenOfAscii(ProcessTitle(lib, ExtractTitleFromURL(lib, href)));
    ShortTitleNeverRelated(lib, href, searchTerms);
  }

  /** The length bound is in bytes, not characters: a three-character title
      of two-byte characters passes it. */
  lemma LengthBoundCountsBytes()
    ensures |"ééé"| == 3 < MinTitleLength <= ByteLen("ééé")
  {
  }
}
