/** Stand-ins for the foreign crates the engine calls: `url` (parsing, path segments),
    `regex` (compilation, matching) and `reqwest` (one request, one response). Each library
    behaviour is a function-valued field, so every property proved below holds for every
    behaviour those libraries could have. */
module Platform {
  import opened Wrappers

  type byte = b: int | 0 <= b < 0x100

  /** A parsed `Url`: its serialisation and its path segments; `None` for a
      cannot-be-a-base URL, for which `Url::path_segments` gives `None`. */
  datatype Url = Url(href: string, segments: Option<seq<string>>)

  /** A compiled `Regex`, identified by the pattern it was compiled from. */
  datatype Regex = Regex(source: string)

  /** The pure libraries: `Url::parse`, whether `Regex::new` accepts a pattern, and
      `Regex::is_match(pattern, text)`. */
  datatype Libs = Libs(
    parseUrl: string -> Option<Url>,
    regexValid: string -> bool,
    isMatch: (string, string) -> bool)

  /** One chunk of a response body as `bytes_stream` yields it: bytes, or a read error. */
  datatype Chunk = Data(bytes: seq<byte>) | Failed

  /** A GET request: its target and the `User-Agent` header, if one is set. */
  datatype Request = Request(url: Url, userAgent: Option<string>)

  /** A response: the status code, the declared `Content-Length` and the body stream. */
  datatype Response = Response(status: nat, contentLength: Option<nat>, body: seq<Chunk>)

  /** The HTTP client: `send` gives `None` when the request fails in transport. */
  datatype Client = Client(send: Request -> Option<Response>)

  /** The errors the engine raises, one constructor per distinct failure site. */
  datatype Error =
    | UrlParse(input: string)       // `Url::parse` refused the text
    | RegexSyntax(pattern: string)  // `Regex::new` refused the pattern
    | FetchFailed(api: Url)         // the metadata request failed in transport ("failed to get <api>")
    | StatusNotSuccess(api: Url)    // GitHub only: the metadata status is not 2xx ("failed to get <api>")
    | Decode                        // the metadata body is not the expected JSON shape
    | NoAssetsFound                 // GitHub: no asset URL matches the pattern
    | NoReleases                    // GitLab: the release list is empty
    | NoAssets                      // GitLab: no link of the first release is accepted
    | NoPathSegments                // the resolved URL is cannot-be-a-base
    | NoLastSegment                 // the path segment iterator is empty
    | SendFailed(url: Url)          // the download request failed in transport

  /** A printed line: which stream it goes to, and what it shows. */
  datatype Console = Stdout | Stderr
  datatype Message = Text(text: string) | ErrorReport(error: Error) | StatusReport(name: string, status: nat)
  datatype Line = Line(console: Console, message: Message)

  /** `StatusCode::is_success`: the 2xx range. */
  predicate IsSuccess(status: nat) {
    200 <= status <= 299
  }

  /** `Regex::new`: fails on a pattern the regex crate refuses. */
  function Compile(libs: Libs, pattern: string): (r: Result<Regex, Error>)
    ensures r.Ok? <==> libs.regexValid(pattern)
    ensures r.Ok? ==> r.value.source == pattern
    ensures r.Err? ==> r.error == RegexSyntax(pattern)
  {
    if libs.regexValid(pattern) then Ok(Regex(pattern)) else Err(RegexSyntax(pattern))
  }

  /** The compiled regex as a predicate on candidate texts. */
  function Matcher(libs: Libs, re: Regex): string -> bool {
    s => libs.isMatch(re.source, s)
  }

  /** The download name: the last of the URL's path segments. An empty last segment (a
      trailing slash) is accepted and gives the empty name. */
  function FileName(url: Url): (r: Result<string, Error>)
    ensures r.Ok? <==> url.segments.Some? && url.segments.value != []
    ensures r.Ok? ==> r.value == url.segments.value[|url.segments.value| - 1]
    ensures url.segments.None? ==> r == Err(NoPathSegments)
    ensures url.segments == Some([]) ==> r == Err(NoLastSegment)
  {
    match url.segments
    case None => Err(NoPathSegments)
    case Some(segs) => if segs == [] then Err(NoLastSegment) else Ok(segs[|segs| - 1])
  }

  /** The second half of `sync`, shared by both providers: parse the resolved link, derive
      the file name, then issue a plain GET (no `User-Agent`) to that same URL. */
  function OpenDownload(libs: Libs, client: Client, link: string): (r: Result<(string, Response), Error>)
    ensures libs.parseUrl(link).None? ==> r == Err(UrlParse(link))
    ensures libs.parseUrl(link).Some? && FileName(libs.parseUrl(link).value).Err? ==>
      r == Err(FileName(libs.parseUrl(link).value).error)
    ensures r.Ok? <==>
      libs.parseUrl(link).Some? && FileName(libs.parseUrl(link).value).Ok? &&
      client.send(Request(libs.parseUrl(link).value, None)).Some?
    ensures (libs.parseUrl(link).Some? && FileName(libs.parseUrl(link).value).Ok? &&
             client.send(Request(libs.parseUrl(link).value, None)).None?) ==>
      r == Err(SendFailed(libs.parseUrl(link).value))
    ensures r.Ok? ==>
      r.value.0 == FileName(libs.parseUrl(link).value).value &&
      Some(r.value.1) == client.send(Request(libs.parseUrl(link).value, None))
  {
    match libs.parseUrl(link)
    case None => Err(UrlParse(link))
    case Some(url) =>
      match FileName(url)
      case Err(e) => Err(e)
      case Ok(name) =>
        match client.send(Request(url, None))
        case None => Err(SendFailed(url))
        case Some(resp) => Ok((name, resp))
  }

  /** The examples of a resolved link with a file name and of one with a trailing slash. */
  lemma FileNameExamples(a: Url, b: Url)
    requires a.segments == Some(["path", "to", "artifact-1.2.3.tar.gz"])
    requires b.segments == Some(["path", "to", ""])
    ensures FileName(a) == Ok("artifact-1.2.3.tar.gz")
    ensures FileName(b) == Ok("")
  {
  }
}
