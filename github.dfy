/** The GitHub-style provider: one "latest release" object whose assets each carry a
    browser download URL, and a mandatory pattern. */
module Github {
  import opened Wrappers
  import opened Platform
  import opened LinkResolver
  import Iter

  /** The metadata shape `GET /repos/{repo}/releases/latest` is decoded into. */
  datatype Asset = Asset(browserDownloadUrl: string)
  datatype Root = Root(assets: seq<Asset>)

  /** One configured repository: `owner/name` and the pattern its asset must match. */
  datatype GithubConfig = GithubConfig(repo: string, reg: string)

  /** A constructed provider: the parsed metadata endpoint and the compiled pattern. */
  datatype Github = Github(api: Url, reg: Regex)

  const API_PREFIX := "https://api.github.com/repos/"
  const API_SUFFIX := "/releases/latest"
  const USER_AGENT := "reqwest"

  /** The endpoint template, filled in by concatenation. */
  function Endpoint(repo: string): string {
    API_PREFIX + repo + API_SUFFIX
  }

  /** Reads the repository back out of an endpoint, if the text has the template's shape. */
  function RepoOf(endpoint: string): Option<string> {
    if |endpoint| >= |API_PREFIX| + |API_SUFFIX| && endpoint[..|API_PREFIX|] == API_PREFIX
      && endpoint[|endpoint| - |API_SUFFIX|..] == API_SUFFIX
    then Some(endpoint[|API_PREFIX|..|endpoint| - |API_SUFFIX|])
    else None
  }

  /** The template loses nothing: the repository is recovered from its endpoint. */
  lemma EndpointRoundTrip(repo: string)
    ensures RepoOf(Endpoint(repo)) == Some(repo)
  {
  }

  /** Distinct repositories query distinct endpoints, and every endpoint is `https`. */
  lemma EndpointInjective(a: string, b: string)
    ensures Endpoint(a) == Endpoint(b) ==> a == b
    ensures Endpoint(a)[..8] == "https://"
  {
    EndpointRoundTrip(a);
    EndpointRoundTrip(b);
  }

  /** `Github::new`: the endpoint is parsed first, the pattern compiled second; either
      failure is the provider's construction error. */
  function New(libs: Libs, config: GithubConfig): (r: Result<Github, Error>)
    ensures libs.parseUrl(Endpoint(config.repo)).None? ==> r == Err(UrlParse(Endpoint(config.repo)))
    ensures libs.parseUrl(Endpoint(config.repo)).Some? && !libs.regexValid(config.reg) ==>
      r == Err(RegexSyntax(config.reg))
    ensures r.Ok? <==> libs.parseUrl(Endpoint(config.repo)).Some? && libs.regexValid(config.reg)
    ensures r.Ok? ==>
      Some(r.value.api) == libs.parseUrl(Endpoint(config.repo)) && r.value.reg == Regex(config.reg)
  {
    match libs.parseUrl(Endpoint(config.repo))
    case None => Err(UrlParse(Endpoint(config.repo)))
    case Some(api) =>
      match Compile(libs, config.reg)
      case Err(e) => Err(e)
      case Ok(reg) => Ok(Github(api, reg))
  }

  /** The metadata request: the endpoint, with the `User-Agent` GitHub insists on. */
  function MetadataRequest(g: Github): Request {
    Request(g.api, Some(USER_AGENT))
  }

  function DownloadUrl(a: Asset): string {
    a.browserDownloadUrl
  }

  /** The candidate list: every asset's download URL, in response order. */
  function Candidates(root: Root): seq<string> {
    Iter.Map(root.assets, DownloadUrl)
  }

  /** The `find_map` closure: an asset's URL if the pattern matches it. */
  function Pick(libs: Libs, reg: Regex): Asset -> Option<string> {
    (x: Asset) => if libs.isMatch(reg.source, x.browserDownloadUrl) then Some(x.browserDownloadUrl) else None
  }

  /** `Source::link`: fetch the latest release, refuse a non-2xx status before looking at the
      body, decode it, and return the first matching asset URL. */
  function Link(g: Github, libs: Libs, client: Client, json: seq<Chunk> -> Option<Root>): (r: Result<string, Error>)
    ensures var m := client.send(MetadataRequest(g));
      && (m.None? ==> r == Err(FetchFailed(g.api)))
      && (m.Some? && !IsSuccess(m.value.status) ==> r == Err(StatusNotSuccess(g.api)))
      && (m.Some? && IsSuccess(m.value.status) && json(m.value.body).None? ==> r == Err(Decode))
      && (r.Ok? ==> m.Some? && IsSuccess(m.value.status) && json(m.value.body).Some?)
  {
    match client.send(MetadataRequest(g))
    case None => Err(FetchFailed(g.api))
    case Some(resp) =>
      if !IsSuccess(resp.status) then Err(StatusNotSuccess(g.api))
      else
        match json(resp.body)
        case None => Err(Decode)
        case Some(root) =>
          match Iter.FindMap(root.assets, Pick(libs, g.reg))
          case None => Err(NoAssetsFound)
          case Some(link) => Ok(link)
  }

  /** On a decoded 2xx response, `link` is the shared first-match policy over the asset
      URLs with the provider's pattern: its result is the earliest matching asset URL, and
      "no assets found" exactly when none matches (an empty asset list included). */
  lemma LinkIsFirstMatch(g: Github, libs: Libs, client: Client, json: seq<Chunk> -> Option<Root>, resp: Response, root: Root)
    requires client.send(MetadataRequest(g)) == Some(resp) && IsSuccess(resp.status)
    requires json(resp.body) == Some(root)
    ensures Link(g, libs, client, json) ==
      match FirstMatch(Candidates(root), Some(Matcher(libs, g.reg)))
      case Some(link) => Ok(link)
      case None => Err(NoAssetsFound)
  {
    FindMapIsFirstMatch(root.assets, Pick(libs, g.reg), DownloadUrl, Some(Matcher(libs, g.reg)));
  }

  /** A link `link` returns is an asset URL of the decoded release, the pattern matches it,
      and it matches no asset listed before it. */
  lemma LinkIsEarliestMatchingAsset(g: Github, libs: Libs, client: Client, json: seq<Chunk> -> Option<Root>)
    requires Link(g, libs, client, json).Ok?
    ensures client.send(MetadataRequest(g)).Some?
    ensures json(client.send(MetadataRequest(g)).value.body).Some?
    ensures
      var assets := json(client.send(MetadataRequest(g)).value.body).value.assets;
      var link := Link(g, libs, client, json).value;
      libs.isMatch(g.reg.source, link) &&
      exists k :: 0 <= k < |assets| && assets[k].browserDownloadUrl == link &&
        forall j :: 0 <= j < k ==> !libs.isMatch(g.reg.source, assets[j].browserDownloadUrl)
  {
    var resp := client.send(MetadataRequest(g)).value;
    var root := json(resp.body).value;
    LinkIsFirstMatch(g, libs, client, json, resp, root);
    var pat := Some(Matcher(libs, g.reg));
    var cands := Candidates(root);
    var link := Link(g, libs, client, json).value;
    var k :| 0 <= k < |cands| && cands[k] == link && Accepts(pat, cands[k]) &&
      forall j :: 0 <= j < k ==> !Accepts(pat, cands[j]);
    assert root.assets[k].browserDownloadUrl == link;
    forall j | 0 <= j < k
      ensures !libs.isMatch(g.reg.source, root.assets[j].browserDownloadUrl)
    {
      assert !Accepts(pat, cands[j]);
    }
  }

  /** `Source::sync`: a `link` failure is returned as it is, before any URL is parsed or a
      second request is made; otherwise the download is opened on the resolved link. */
  function Sync(g: Github, libs: Libs, client: Client, json: seq<Chunk> -> Option<Root>): (r: Result<(string, Response), Error>)
    ensures Link(g, libs, client, json).Err? ==> r == Err(Link(g, libs, client, json).error)
    ensures Link(g, libs, client, json).Ok? ==> r == OpenDownload(libs, client, Link(g, libs, client, json).value)
  {
    match Link(g, libs, client, json)
    case Err(e) => Err(e)
    case Ok(link) => OpenDownload(libs, client, link)
  }

  /** The end-to-end example: of the assets `.../a.zip` and `.../b.tar.gz`, a pattern that
      matches only the second resolves to it, and `sync` names the file `b.tar.gz`. */
  lemma TarGzExample(g: Github, libs: Libs, client: Client, json: seq<Chunk> -> Option<Root>, resp: Response, url: Url)
    requires client.send(MetadataRequest(g)) == Some(resp) && IsSuccess(resp.status)
    requires json(resp.body) == Some(Root([Asset("https://x/y/a.zip"), Asset("https://x/y/b.tar.gz")]))
    requires !libs.isMatch(g.reg.source, "https://x/y/a.zip") && libs.isMatch(g.reg.source, "https://x/y/b.tar.gz")
    requires libs.parseUrl("https://x/y/b.tar.gz") == Some(url) && url.segments == Some(["y", "b.tar.gz"])
    requires client.send(Request(url, None)).Some?
    ensures Link(g, libs, client, json) == Ok("https://x/y/b.tar.gz")
    ensures Sync(g, libs, client, json).Ok? && Sync(g, libs, client, json).value.0 == "b.tar.gz"
  {
  }
}
