/** The GitLab-style provider: a list of releases, of which only the first is consulted,
    each holding asset links with a direct download URL, and an optional pattern. */
module Gitlab {
  import opened Wrappers
  import opened Platform
  import opened LinkResolver
  import Iter

  /** The metadata shape `GET /api/v4/projects/{id}/releases` is decoded into. */
  datatype ReleaseLink = ReleaseLink(id: int, name: string, url: string, directAssetUrl: string, linkType: string)
  datatype Assets = Assets(links: seq<ReleaseLink>)
  datatype Release = Release(assets: Assets)
  type Root = seq<Release>

  /** One configured project: the host, the project id and an optional pattern. */
  datatype GitlabConfig = GitlabConfig(host: string, id: string, reg: Option<string>)

  /** A constructed provider: the parsed endpoint and the compiled pattern, if any. */
  datatype Gitlab = Gitlab(api: Url, reg: Option<Regex>)

  const SCHEME := "https://"
  const PROJECTS := "/api/v4/projects/"
  const RELEASES := "/releases"

  /** The endpoint template, filled in by concatenation. */
  function Endpoint(host: string, id: string): string {
    SCHEME + host + PROJECTS + id + RELEASES
  }

  /** The index of the first '/' in `s`, or `|s|` when there is none. */
  function SlashAt(s: string): (i: nat)
    ensures i <= |s|
  {
    if s == [] || s[0] == '/' then 0 else 1 + SlashAt(s[1..])
  }

  /** Reads host and project id back out of an endpoint: the host runs up to the first '/'. */
  function HostAndIdOf(endpoint: string): Option<(string, string)> {
    if |endpoint| < |SCHEME| || endpoint[..|SCHEME|] != SCHEME then None
    else
      var rest := endpoint[|SCHEME|..];
      var h := SlashAt(rest);
      var tail := rest[h..];
      if |tail| >= |PROJECTS| + |RELEASES| && tail[..|PROJECTS|] == PROJECTS
        && tail[|tail| - |RELEASES|..] == RELEASES
      then Some((rest[..h], tail[|PROJECTS|..|tail| - |RELEASES|]))
      else None
  }

  lemma {:induction false} SlashAtAfter(host: string, t: string)
    requires '/' !in host && t != [] && t[0] == '/'
    ensures SlashAt(host + t) == |host|
  {
    if host != [] {
      assert (host + t)[1..] == host[1..] + t;
      SlashAtAfter(host[1..], t);
    } else {
      assert host + t == t;
    }
  }

  /** For a host without '/', the template loses nothing: host and project id are recovered
      from the endpoint, which always starts with `https://`. */
  lemma EndpointRoundTrip(host: string, id: string)
    requires '/' !in host
    ensures HostAndIdOf(Endpoint(host, id)) == Some((host, id))
    ensures Endpoint(host, id)[..|SCHEME|] == SCHEME
  {
    var e := Endpoint(host, id);
    assert e[..|SCHEME|] == SCHEME;
    var rest := e[|SCHEME|..];
    var t := PROJECTS + id + RELEASES;
    assert rest == host + t;
    SlashAtAfter(host, t);
    assert rest[..|host|] == host;
    assert rest[|host|..] == t;
    assert t[..|PROJECTS|] == PROJECTS;
    assert t[|t| - |RELEASES|..] == RELEASES;
    assert t[|PROJECTS|..|t| - |RELEASES|] == id;
  }

  /** `Gitlab::new`: the endpoint is parsed first; a pattern, when one is configured, is
      compiled second. Without a pattern the provider holds none. */
  function New(libs: Libs, config: GitlabConfig): (r: Result<Gitlab, Error>)
    ensures var api := libs.parseUrl(Endpoint(config.host, config.id));
      && (api.None? ==> r == Err(UrlParse(Endpoint(config.host, config.id))))
      && (api.Some? && config.reg.Some? && !libs.regexValid(config.reg.value) ==>
            r == Err(RegexSyntax(config.reg.value)))
      && (r.Ok? <==> api.Some? && (config.reg.None? || libs.regexValid(config.reg.value)))
      && (r.Ok? ==> Some(r.value.api) == api)
      && (r.Ok? && config.reg.None? ==> r.value.reg == None)
      && (r.Ok? && config.reg.Some? ==> r.value.reg == Some(Regex(config.reg.value)))
  {
    match libs.parseUrl(Endpoint(config.host, config.id))
    case None => Err(UrlParse(Endpoint(config.host, config.id)))
    case Some(api) =>
      match config.reg
      case None => Ok(Gitlab(api, None))
      case Some(pattern) =>
        match Compile(libs, pattern)
        case Err(e) => Err(e)
        case Ok(re) => Ok(Gitlab(api, Some(re)))
  }

  /** The metadata request: the endpoint, with no extra header. */
  function MetadataRequest(gl: Gitlab): Request {
    Request(gl.api, None)
  }

  function DirectUrl(x: ReleaseLink): string {
    x.directAssetUrl
  }

  /** The candidate list: the direct asset URL of every link of a release, in order. */
  function Candidates(release: Release): seq<string> {
    Iter.Map(release.assets.links, DirectUrl)
  }

  /** The provider's pattern in the shared resolver's terms: none, or the compiled matcher. */
  function Pattern(libs: Libs, reg: Option<Regex>): Option<string -> bool> {
    match reg
    case None => None
    case Some(re) => Some(Matcher(libs, re))
  }

  /** The `find_map` closure: a link's URL unless a pattern is present and does not match. */
  function Pick(libs: Libs, reg: Option<Regex>): ReleaseLink -> Option<string> {
    (x: ReleaseLink) =>
      if reg.Some? && !libs.isMatch(reg.value.source, x.directAssetUrl) then None
      else Some(x.directAssetUrl)
  }

  /** `Source::link`: fetch the release list (no status check is made), decode it, take the
      first release and return the first accepted direct asset URL. */
  function Link(gl: Gitlab, libs: Libs, client: Client, json: seq<Chunk> -> Option<Root>): (r: Result<string, Error>)
    ensures var m := client.send(MetadataRequest(gl));
      && (m.None? ==> r == Err(FetchFailed(gl.api)))
      && (m.Some? && json(m.value.body).None? ==> r == Err(Decode))
      && (r == Err(NoReleases) <==> m.Some? && json(m.value.body) == Some([]))
      && (r.Ok? || r == Err(NoAssets) ==> m.Some? && json(m.value.body).Some? && json(m.value.body).value != [])
  {
    match client.send(MetadataRequest(gl))
    case None => Err(FetchFailed(gl.api))
    case Some(resp) =>
      match json(resp.body)
      case None => Err(Decode)
      case Some(releases) =>
        if releases == [] then Err(NoReleases)
        else
          match Iter.FindMap(releases[0].assets.links, Pick(libs, gl.reg))
          case None => Err(NoAssets)
          case Some(link) => Ok(link)
  }

  /** Once a non-empty release list is decoded, `link` is the shared first-match policy over
      the first release's direct asset URLs, with the provider's optional pattern; with no
      pattern the first link is returned. Later releases play no part. */
  lemma LinkIsFirstMatch(gl: Gitlab, libs: Libs, client: Client, json: seq<Chunk> -> Option<Root>, resp: Response, releases: Root)
    requires client.send(MetadataRequest(gl)) == Some(resp)
    requires json(resp.body) == Some(releases) && releases != []
    ensures Link(gl, libs, client, json) ==
      match FirstMatch(Candidates(releases[0]), Pattern(libs, gl.reg))
      case Some(link) => Ok(link)
      case None => Err(NoAssets)
    ensures gl.reg.None? && releases[0].assets.links != [] ==>
      Link(gl, libs, client, json) == Ok(releases[0].assets.links[0].directAssetUrl)
  {
    var pat := Pattern(libs, gl.reg);
    forall x: ReleaseLink
      ensures Pick(libs, gl.reg)(x) == if Accepts(pat, DirectUrl(x)) then Some(DirectUrl(x)) else None
    {
    }
    FindMapIsFirstMatch(releases[0].assets.links, Pick(libs, gl.reg), DirectUrl, pat);
  }

  /** The status code is never looked at: two responses with the same body resolve alike. */
  lemma LinkIgnoresStatus(gl: Gitlab, libs: Libs, c1: Client, c2: Client, json: seq<Chunk> -> Option<Root>)
    requires c1.send(MetadataRequest(gl)).Some? && c2.send(MetadataRequest(gl)).Some?
    requires c1.send(MetadataRequest(gl)).value.body == c2.send(MetadataRequest(gl)).value.body
    ensures Link(gl, libs, c1, json) == Link(gl, libs, c2, json)
  {
  }

  /** `Source::sync`: a `link` failure is returned as it is, before any URL is parsed or a
      second request is made; otherwise the download is opened on the resolved link. */
  function Sync(gl: Gitlab, libs: Libs, client: Client, json: seq<Chunk> -> Option<Root>): (r: Result<(string, Response), Error>)
    ensures Link(gl, libs, client, json).Err? ==> r == Err(Link(gl, libs, client, json).error)
    ensures Link(gl, libs, client, json).Ok? ==> r == OpenDownload(libs, client, Link(gl, libs, client, json).value)
  {
    match Link(gl, libs, client, json)
    case Err(e) => Err(e)
    case Ok(link) => OpenDownload(libs, client, link)
  }
}
