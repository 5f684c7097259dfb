/** Host extraction from internal/crawler/utils.go (GetHostFromURL and its
    wrapper extractHostFromURL), which StartCrawling uses for the allowed
    domain. */
module UrlHost {
  import opened Common

  /** GetHostFromURL: the host name of the parsed URL; an error when the URL
      does not parse or has no host. */
  function GetHostFromURL(parse: UrlParser, inputURL: string): (host: Result<string>)
    ensures host.Err? <==> parse(inputURL).None? || parse(inputURL).value.hostname == ""
    ensures parse(inputURL).None? ==> host == Err(URLParseFailed)
    ensures parse(inputURL).Some? && parse(inputURL).value.hostname == "" ==> host == Err(HostNotFound)
    ensures host.Ok? ==> host.value != "" && host.value == parse(inputURL).value.hostname
  {
    match parse(inputURL)
    case None => Err(URLParseFailed)
    case Some(u) => if u.hostname == "" then Err(HostNotFound) else Ok(u.hostname)
  }
}
