/** Failure-compatible wrappers, the errors the crawler raises or passes on,
    and the parsed-URL view that the code reads from net/url. */
module Common {

  datatype Option<+T> = None | Some(value: T)

  datatype Result<+T> = Ok(value: T) | Err(error: Error)

  /** The errors of the modelled code. Errors created by collaborators
      outside the model (Redis, colly, JSON, parameter validation) are
      carried as `External`, tagged with where they came from. */
  datatype Error =
    | InvalidURL                  // PageData.Validate: url.ParseRequestURI failed
    | EmptyURL                    // PostArticlesStart: "URL cannot be empty"
    | URLParseFailed              // GetHostFromURL: url.Parse failed
    | HostNotFound                // GetHostFromURL: "failed to extract host from URL"
    | MissingHref                 // crawler/utils.go getHref: anchor without href
    | External(origin: string)    // an error returned by a collaborator

  /** The two parts of a parsed URL that the code looks at: `u.Path` and
      `u.Hostname()`. */
  datatype Url = Url(path: string, hostname: string)

  /** net/url.Parse: `None` stands for a non-nil error. */
  type UrlParser = string -> Option<Url>
}
