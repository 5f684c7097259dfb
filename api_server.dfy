/** The seed URL handling of PostArticlesStart (internal/crawler/api_server.go):
    an empty URL is refused, and the URL is then trimmed and given the
    "https://" scheme unless it already has "http://" or "https://". The
    request binding, the crawl it starts and the JSON reply are reduced to
    what decides the outcome. */
module ApiServer {
  import opened Common
  import GoStrings

  /** The URL has one of the two schemes the handler accepts as they are. */
  predicate HasScheme(url: string)
  {
    GoStrings.HasPrefix(url, "http://") || GoStrings.HasPrefix(url, "https://")
  }

  /** The emptiness check, then the trim and the scheme default. The check
      looks at the URL before trimming. */
  function NormalizeSeedURL(raw: string): (r: Result<string>)
    ensures r.Err? <==> raw == ""
    ensures r.Err? ==> r.error == EmptyURL
    ensures r.Ok? ==> HasScheme(r.value)
    ensures r.Ok? && HasScheme(GoStrings.TrimSpace(raw)) ==> r.value == GoStrings.TrimSpace(raw)
    ensures r.Ok? && !HasScheme(GoStrings.TrimSpace(raw)) ==> r.value == "https://" + GoStrings.TrimSpace(raw)
  {
    if raw == "" then Err(EmptyURL)
    else
      var url := GoStrings.TrimSpace(raw);
      if !GoStrings.HasPrefix(url, "http://") && !GoStrings.HasPrefix(url, "https://") then
        assert GoStrings.HasPrefix("https://" + url, "https://") by {
          assert ("https://" + url)[..8] == "https://";
        }
        Ok("https://" + url)
      else
        Ok(url)
  }

  /** Normalising a normalised URL changes nothing. */
  lemma NormalizeIdempotent(raw: string)
    requires NormalizeSeedURL(raw).Ok?
    ensures NormalizeSeedURL(NormalizeSeedURL(raw).value) == NormalizeSeedURL(raw)
  {
    var url := GoStrings.TrimSpace(raw);
    var u := NormalizeSeedURL(raw).value;
    assert u != "" && u[0] == 'h' by {
      if HasScheme(url) {
        assert url[0] == url[..7][0];
      } else {
        assert u == "https://" + url;
      }
    }
    assert u == url || u == "https://" + url;
    assert !GoStrings.IsSpace(u[|u| - 1]) by {
      if u == url {
      } else if url == "" {
        assert u[|u| - 1] == '/';
      } else {
        assert u[|u| - 1] == url[|url| - 1];
      }
    }
    GoStrings.TrimSpaceOfTrimmed(u);
  }

  /** A URL of spaces only passes the emptiness check and becomes the bare
      scheme. */
  lemma BlankURLBecomesBareScheme(raw: string)
    requires raw != ""
    requires forall i :: 0 <= i < |raw| ==> GoStrings.IsSpace(raw[i])
    ensures NormalizeSeedURL(raw) == Ok("https://")
  {
    GoStrings.TrimSpaceOfBlank(raw);
    assert "https://" + [] == "https://";
  }

  /** What PostArticlesStart answers with. */
  datatype Reply =
    | HandlerError(err: Error)
    | Json(status: nat, body: map<string, string>)

  const StatusOK: nat := 200
  const StatusInternalServerError: nat := 500

  /** PostArticlesStart: a bind error or an empty URL is returned as the
      handler's error; otherwise the crawl is started from the normalised
      URL, and its failure is answered with 500 and the error, its success
      with 200. `errorText` is err.Error(). */
  function PostArticlesStart(bindError: Option<Error>, rawURL: string,
                             startCrawling: string -> Option<Error>, errorText: Error -> string): (reply: Reply)
    ensures bindError.Some? ==> reply == HandlerError(bindError.value)
    ensures bindError.None? && rawURL == "" ==> reply == HandlerError(EmptyURL)
    ensures bindError.None? && rawURL != "" ==>
      var url := NormalizeSeedURL(rawURL).value;
      && reply.Json?
      && (reply.status == StatusOK <==> startCrawling(url).None?)
      && (startCrawling(url).Some? ==>
            reply == Json(StatusInternalServerError, map["error" := errorText(startCrawling(url).value)]))
      && (startCrawling(url).None? ==> reply.body == map["message" := "Crawling started successfully"])
  {
    if bindError.Some? then HandlerError(bindError.value)
    else
      match NormalizeSeedURL(rawURL)
      case Err(e) => HandlerError(e)
      case Ok(url) =>
        match startCrawling(url)
        case Some(e) => Json(StatusInternalServerError, map["error" := errorText(e)])
        case None => Json(StatusOK, map["message" := "Crawling started successfully"])
  }
}
