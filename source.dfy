/** The registry of providers and the two operations run across it: `list`, which prints
    every provider's resolved link or error, and `sync`, which handles the resolved downloads one at
    a time: it reports each failure and runs each download task, which streams the body into
    a file, to its end before taking the next. */
module Source {
  import opened Wrappers
  import opened Platform
  import opened Iter
  import Github
  import Gitlab
  import Download

  /** The configuration: two optional lists of records, one per host kind. */
  datatype Config = Config(github: Option<seq<Github.GithubConfig>>, gitlab: Option<seq<Gitlab.GitlabConfig>>)

  /** The registry: the constructed providers of each kind, in configuration order. */
  datatype Sources = Sources(github: seq<Github.Github>, gitlab: seq<Gitlab.Gitlab>)

  /** The JSON decoders for the two metadata shapes. */
  datatype Json = Json(github: seq<Chunk> -> Option<Github.Root>, gitlab: seq<Chunk> -> Option<Gitlab.Root>)

  /** One construction attempt per GitHub record; an absent list is an empty one. */
  function GithubResults(libs: Libs, config: Config): seq<Result<Github.Github, Error>> {
    var records := config.github.GetOr([]);
    seq(|records|, i requires 0 <= i < |records| => Github.New(libs, records[i]))
  }

  /** One construction attempt per GitLab record; an absent list is an empty one. */
  function GitlabResults(libs: Libs, config: Config): seq<Result<Gitlab.Gitlab, Error>> {
    var records := config.gitlab.GetOr([]);
    seq(|records|, i requires 0 <= i < |records| => Gitlab.New(libs, records[i]))
  }

  /** `Sources::new`: each kind's results are partitioned into providers and errors; the
      errors of the GitHub records are followed by those of the GitLab records. */
  function New(libs: Libs, config: Config): (r: (Sources, seq<Error>))
    ensures config.github.None? ==> r.0.github == [] && r.1 == Errs(GitlabResults(libs, config))
    ensures config.gitlab.None? ==> r.0.gitlab == [] && r.1 == Errs(GithubResults(libs, config))
  {
    var gh := GithubResults(libs, config);
    var gl := GitlabResults(libs, config);
    (Sources(Oks(gh), Oks(gl)), Errs(gh) + Errs(gl))
  }

  /** Every record yields exactly one provider or one error, and the providers keep
      configuration order within their kind: the provider of record i comes right after the
      providers of the records before it. */
  lemma NewProviders(libs: Libs, config: Config)
    ensures var gh := GithubResults(libs, config);
      && |New(libs, config).0.github| + CountErr(gh) == |config.github.GetOr([])|
      && forall i :: 0 <= i < |gh| && gh[i].Ok? ==>
           CountOk(gh[..i]) < |New(libs, config).0.github| && New(libs, config).0.github[CountOk(gh[..i])] == gh[i].value
    ensures var gl := GitlabResults(libs, config);
      && |New(libs, config).0.gitlab| + CountErr(gl) == |config.gitlab.GetOr([])|
      && forall i :: 0 <= i < |gl| && gl[i].Ok? ==>
           CountOk(gl[..i]) < |New(libs, config).0.gitlab| && New(libs, config).0.gitlab[CountOk(gl[..i])] == gl[i].value
  {
    PartitionSizes(GithubResults(libs, config));
    PartitionSizes(GitlabResults(libs, config));
    OksAt(GithubResults(libs, config));
    OksAt(GitlabResults(libs, config));
  }

  /** The errors keep configuration order too: one per failed record, all of the GitHub
      records' errors before all of the GitLab records'. */
  lemma NewErrors(libs: Libs, config: Config)
    ensures var gh := GithubResults(libs, config);
      var gl := GitlabResults(libs, config);
      var errors := New(libs, config).1;
      && |errors| == CountErr(gh) + CountErr(gl)
      && (forall i :: 0 <= i < |gh| && gh[i].Err? ==>
            CountErr(gh[..i]) < |errors| && errors[CountErr(gh[..i])] == gh[i].error)
      && (forall i :: 0 <= i < |gl| && gl[i].Err? ==>
            CountErr(gh) + CountErr(gl[..i]) < |errors| && errors[CountErr(gh) + CountErr(gl[..i])] == gl[i].error)
  {
    var gh := GithubResults(libs, config);
    var gl := GitlabResults(libs, config);
    assert New(libs, config).1 == Errs(gh) + Errs(gl);
    ErrsAt(gh);
    ErrsAt(gl);
  }

  /** One invalid GitHub record and one valid GitLab record: exactly one construction error,
      and a registry holding exactly the GitLab provider. */
  lemma NewMixedExample(libs: Libs, ghc: Github.GithubConfig, glc: Gitlab.GitlabConfig)
    requires Github.New(libs, ghc).Err? && Gitlab.New(libs, glc).Ok?
    ensures New(libs, Config(Some([ghc]), Some([glc]))) ==
      (Sources([], [Gitlab.New(libs, glc).value]), [Github.New(libs, ghc).error])
  {
    var config := Config(Some([ghc]), Some([glc]));
    var none: seq<Result<Github.Github, Error>> := [];
    var nothing: seq<Result<Gitlab.Gitlab, Error>> := [];
    assert GithubResults(libs, config) == none + [Github.New(libs, ghc)];
    assert GitlabResults(libs, config) == nothing + [Gitlab.New(libs, glc)];
    OksErrsSnoc(none, Github.New(libs, ghc));
    OksErrsSnoc(nothing, Gitlab.New(libs, glc));
    assert Partition(none) == ([], []) && Partition(nothing) == ([], []);
    assert Errs(none) + [Github.New(libs, ghc).error] == [Github.New(libs, ghc).error];
    assert Oks(nothing) + [Gitlab.New(libs, glc).value] == [Gitlab.New(libs, glc).value];
    assert Oks(GithubResults(libs, config)) == [];
    assert Oks(GitlabResults(libs, config)) == [Gitlab.New(libs, glc).value];
    assert Errs(GithubResults(libs, config)) == [Github.New(libs, ghc).error];
    assert Errs(GitlabResults(libs, config)) == [];
    assert New(libs, config).1 == [Github.New(libs, ghc).error];
  }

  /** How `list` prints one result: a link on stdout, an error on stderr. */
  function ListLine(r: Result<string, Error>): Line {
    match r
    case Ok(link) => Line(Stdout, Text(link))
    case Err(e) => Line(Stderr, ErrorReport(e))
  }

  /** `Sources::list`: resolve every provider's link, GitHub providers first, each kind in
      registry order; then print one line per result in that same order. */
  method List(s: Sources, libs: Libs, client: Client, json: Json) returns (lines: seq<Line>)
    ensures |lines| == |s.github| + |s.gitlab|
    ensures forall k :: 0 <= k < |s.github| ==>
      lines[k] == ListLine(Github.Link(s.github[k], libs, client, json.github))
    ensures forall k :: 0 <= k < |s.gitlab| ==>
      lines[|s.github| + k] == ListLine(Gitlab.Link(s.gitlab[k], libs, client, json.gitlab))
  {
    var results: seq<Result<string, Error>> := [];
    for i := 0 to |s.github|
      invariant |results| == i
      invariant forall k :: 0 <= k < i ==> results[k] == Github.Link(s.github[k], libs, client, json.github)
    {
      results := results + [Github.Link(s.github[i], libs, client, json.github)];
    }
    for i := 0 to |s.gitlab|
      invariant |results| == |s.github| + i
      invariant forall k :: 0 <= k < |s.github| ==> results[k] == Github.Link(s.github[k], libs, client, json.github)
      invariant forall k :: 0 <= k < i ==> results[|s.github| + k] == Gitlab.Link(s.gitlab[k], libs, client, json.gitlab)
    {
      results := results + [Gitlab.Link(s.gitlab[i], libs, client, json.gitlab)];
    }
    lines := [];
    for i := 0 to |results|
      invariant |lines| == i
      invariant forall k :: 0 <= k < i ==> lines[k] == ListLine(results[k])
    {
      lines := lines + [ListLine(results[i])];
    }
  }

  /** The results `sync` collects, one per provider: GitHub providers first, each kind in
      registry order. */
  function SyncResults(s: Sources, libs: Libs, client: Client, json: Json): seq<Result<(string, Response), Error>> {
    seq(|s.github|, i requires 0 <= i < |s.github| => Github.Sync(s.github[i], libs, client, json.github)) +
    seq(|s.gitlab|, i requires 0 <= i < |s.gitlab| => Gitlab.Sync(s.gitlab[i], libs, client, json.gitlab))
  }

  /** The collecting half of `sync`: one result per provider, pushed in registry order. */
  method CollectSyncResults(s: Sources, libs: Libs, client: Client, json: Json)
    returns (results: seq<Result<(string, Response), Error>>)
    ensures results == SyncResults(s, libs, client, json)
  {
    ghost var rs := SyncResults(s, libs, client, json);
    results := [];
    for i := 0 to |s.github|
      invariant results == rs[..i]
    {
      results := results + [Github.Sync(s.github[i], libs, client, json.github)];
    }
    for i := 0 to |s.gitlab|
      invariant results == rs[..|s.github| + i]
    {
      results := results + [Gitlab.Sync(s.gitlab[i], libs, client, json.gitlab)];
    }
    assert results == rs;
  }

  /** What `sync` prints for one collected result, on stdout: the error, or the file name
      and status that the result's download task prints before it streams the body. */
  function ReportLine(r: Result<(string, Response), Error>): Line {
    match r
    case Ok(t) => Line(Stdout, StatusReport(t.0, t.1.status))
    case Err(e) => Line(Stdout, ErrorReport(e))
  }

  /** A result whose download task panics on a read error; awaiting that task panics `sync`. */
  predicate Aborts(r: Result<(string, Response), Error>) {
    r.Ok? && !Download.Completes(r.value.1.body)
  }

  /** The number of results before the first one whose download aborts (all of them when
      none does). */
  function Clean(rs: seq<Result<(string, Response), Error>>): (n: nat)
    ensures n <= |rs|
    ensures forall k :: 0 <= k < n ==> !Aborts(rs[k])
    ensures n < |rs| ==> Aborts(rs[n])
  {
    if rs == [] || Aborts(rs[0]) then 0 else 1 + Clean(rs[1..])
  }

  /** How many results `sync` handles: all of them, or those up to and including the first
      whose download aborts. */
  function Reached(rs: seq<Result<(string, Response), Error>>): nat {
    if Clean(rs) < |rs| then Clean(rs) + 1 else |rs|
  }

  /** What a download task leaves behind: the file it created and the bytes written to it. */
  function Saved(t: (string, Response)): (string, seq<byte>) {
    (t.0, Download.Written(t.1.body))
  }

  /** One arm of the `filter_map`: print the error, or run the download task to the end. */
  method Handle(r: Result<(string, Response), Error>)
    returns (line: Line, saved: Option<(string, seq<byte>)>, aborted: bool)
    ensures line == ReportLine(r)
    ensures saved == if r.Ok? then Some(Saved(r.value)) else None
    ensures aborted == Aborts(r)
  {
    match r {
      case Err(e) =>
        line, saved, aborted := Line(Stdout, ErrorReport(e)), None, false;
      case Ok(t) =>
        var status, file, barLength, written, bytes, position, completed, finished, positions := Download.Run(t.0, t.1);
        line, saved, aborted := status, Some((file, written)), !completed;
    }
  }

  /** Handling one more result extends the printed lines by its line and the created files
      by its file, if it has one. */
  lemma HandleStep(rs: seq<Result<(string, Response), Error>>, j: nat)
    requires j < |rs|
    ensures Map(rs[..j + 1], ReportLine) == Map(rs[..j], ReportLine) + [ReportLine(rs[j])]
    ensures Map(Oks(rs[..j + 1]), Saved) ==
      Map(Oks(rs[..j]), Saved) + (if rs[j].Ok? then [Saved(rs[j].value)] else [])
  {
    assert rs[..j + 1] == rs[..j] + [rs[j]];
    OksErrsSnoc(rs[..j], rs[j]);
  }

  /** The `filter_map` loop over the collected results. It is lazy and every task is awaited
      before the next result is taken, so the results are handled one at a time, in order: a
      failure prints its error, a success runs its download task to the end. The first task
      that panics ends `sync`. */
  method Dispatch(results: seq<Result<(string, Response), Error>>)
    returns (out: seq<Line>, files: seq<(string, seq<byte>)>, panicked: bool)
    ensures out == Map(results[..Reached(results)], ReportLine)
    ensures files == Map(Oks(results[..Reached(results)]), Saved)
    ensures panicked <==> Clean(results) < |results|
  {
    out, files, panicked := [], [], false;
    var j := 0;
    while j < |results| && !panicked
      invariant j <= |results|
      invariant !panicked ==> j <= Clean(results)
      invariant panicked ==> Clean(results) < |results| && j == Clean(results) + 1
      invariant out == Map(results[..j], ReportLine)
      invariant files == Map(Oks(results[..j]), Saved)
      decreases |results| - j
    {
      var line, saved, aborted := Handle(results[j]);
      HandleStep(results, j);
      out := out + [line];
      if saved.Some? {
        files := files + [saved.value];
      }
      panicked := aborted;
      j := j + 1;
    }
  }

  /** The files of the first m results keep result order: the file of success i comes right
      after the files of the successes before it. */
  lemma SavedAt(rs: seq<Result<(string, Response), Error>>, m: nat)
    requires m <= |rs|
    ensures |Map(Oks(rs[..m]), Saved)| == CountOk(rs[..m])
    ensures forall i :: 0 <= i < m && rs[i].Ok? ==>
      CountOk(rs[..i]) < |Map(Oks(rs[..m]), Saved)| && Map(Oks(rs[..m]), Saved)[CountOk(rs[..i])] == Saved(rs[i].value)
  {
    PartitionSizes(rs[..m]);
    OksAt(rs[..m]);
    forall i | 0 <= i < m
      ensures rs[..m][..i] == rs[..i]
    {
    }
  }

  /** `Sources::sync`: collect one result per provider, then handle them in that order. The
      i-th line printed belongs to the i-th result; every success up to the first aborting
      download creates a file holding the bytes read; without an aborting download every
      provider gets its line. */
  method Sync(s: Sources, libs: Libs, client: Client, json: Json)
    returns (out: seq<Line>, files: seq<(string, seq<byte>)>, panicked: bool)
    ensures var rs := SyncResults(s, libs, client, json);
      var m := Reached(rs);
      && |out| == m
      && (forall i :: 0 <= i < m ==> out[i] == ReportLine(rs[i]))
      && (panicked <==> exists i :: 0 <= i < |rs| && Aborts(rs[i]))
      && (!panicked ==> |out| == |s.github| + |s.gitlab|)
      && |files| == CountOk(rs[..m])
      && (forall i :: 0 <= i < m && rs[i].Ok? ==>
            CountOk(rs[..i]) < |files| && files[CountOk(rs[..i])] == Saved(rs[i].value))
  {
    var results := CollectSyncResults(s, libs, client, json);
    out, files, panicked := Dispatch(results);
    SavedAt(results, Reached(results));
  }

  /** The order of the output for a failure between two downloads that both complete: the
      first status line, then the error, then the second status line. */
  lemma SyncInterleavingExample(a: (string, Response), e: Error, b: (string, Response))
    requires Download.Completes(a.1.body) && Download.Completes(b.1.body)
    ensures var rs := [Ok(a), Err(e), Ok(b)];
      && Reached(rs) == 3
      && Map(rs[..Reached(rs)], ReportLine) ==
         [Line(Stdout, StatusReport(a.0, a.1.status)), Line(Stdout, ErrorReport(e)), Line(Stdout, StatusReport(b.0, b.1.status))]
  {
    var rs: seq<Result<(string, Response), Error>> := [Ok(a), Err(e), Ok(b)];
    assert rs[1..][1..][1..] == [];
  }

  /** A download that aborts stops `sync`: nothing after it is printed. */
  lemma SyncStopsAtAbortExample(a: (string, Response), e: Error)
    requires !Download.Completes(a.1.body)
    ensures var rs := [Ok(a), Err(e)];
      Reached(rs) == 1 && Map(rs[..Reached(rs)], ReportLine) == [Line(Stdout, StatusReport(a.0, a.1.status))]
  {
  }
}
