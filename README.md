# latest — release resolution and sync, modelled in Dafny

`latest` follows the latest published artifact of a set of GitHub and GitLab projects. The
registry (`Sources`) turns configuration records into providers and collects the records
that cannot be turned into one. For each provider, `link` fetches the host's release
metadata and picks the first asset URL the pattern accepts. `sync` also derives a file name
from that URL and opens the download. The orchestrator then handles the results one at a
time, in order: it prints each error, and it runs each opened download to its end before
taking the next result, streaming the body into its file while a progress bar follows the
byte count.

The model follows the source file by file:

- `wrappers.dfy` (`Wrappers`): Rust's `Option` and `Result`.
- `iter.dfy` (`Iter`): the standard-library iterator adaptors the code uses (`map`,
  `find_map`, `partition(Result::is_ok)` with `unwrap`/`unwrap_err`). It also proves that
  partitioning loses nothing and keeps order.
- `platform.dfy` (`Platform`): stand-ins for the `url`, `regex` and `reqwest` crates, and
  the file-name step shared by both providers' `sync`. Each library behaviour is a
  function-valued field (`Libs`, `Client`), so every property holds whatever those libraries
  do, given that the client answers the same request alike throughout a run.
- `link_resolver.dfy` (`LinkResolver`): the first-match policy `FirstMatch`, which both
  providers are proved to apply.
- `github.dfy` (`Github`), `gitlab.dfy` (`Gitlab`): the two providers, written as pure
  functions in the shape of `src/source/github.rs` and `src/source/gitlab.rs`.
- `source.dfy` (`Source`): `Sources::new` as a pure function. `list` and `sync` are methods
  whose loops push results in the source's order; `sync` runs each download task in turn.
- `download.dfy` (`Download`): the body of one download task. It is a `while` loop over the
  response's chunks that updates a `ProgressBar` and a `FileWriter` object.

Inputs that come from outside are parameters:

- the HTTP client: `Client.send`, where `None` is a transport error;
- the JSON decoders: `Source.Json`, where `None` is a decoding error;
- URL parsing: `Libs.parseUrl`, giving `None` or a `Url` with its path segments;
- regex compilation and matching: `Libs.regexValid` and `Libs.isMatch`;
- the response body: a sequence of chunks, where `Failed` is a read error.

Behaviour of the code worth knowing:

- A resolved URL whose last path segment is empty (a trailing slash) is accepted and gives
  the file name `""`.
- GitLab's `link` never consults the status code. A non-2xx response is handled exactly like
  a 2xx one, so it fails before selection only when its body does not decode as a release
  list; a 404 whose body decodes as `[]` still fails with "no releases".
- In `sync` the errors are printed to stdout (`println!`); in `list` they go to stderr
  (`eprintln!`).
- In `sync` the `filter_map` is lazy and each spawned task is awaited before the next result
  is taken, so at most one download runs at a time. An error is printed only after the
  downloads before it have finished, and a download that panics on a read error ends
  `sync` there.

## Model

| member | source | states |
|---|---|---|
| `Iter.Partition` | src/source.rs:29-36 | every result of the left fold lands in the half its `is_ok` selects |
| `Iter.PartitionSizes` | src/source.rs:29-46 | the two halves together hold exactly as many results as there were records, one per record |
| `Iter.PartitionAt` | src/source.rs:29-46 | the result at position i sits in its half right after the results of its kind that precede it |
| `Iter.OksAt` | src/source.rs:45-46 | the unwrapped providers are one per successful record, and record i's provider is at index `CountOk(rs[..i])` |
| `Iter.ErrsAt` | src/source.rs:47-51 | the unwrapped errors are one per failed record, and record i's error is at index `CountErr(rs[..i])` |
| `Iter.CountOkIncreases` | src/source.rs:29-46 | an earlier successful record sits strictly earlier among the providers than any later one |
| `Iter.OksErrsSnoc` | src/source.rs:87-115 | appending one result extends the successes by its value or the failures by its error, and nothing else |
| `Platform.Compile` | src/source/github.rs:37 | `Regex::new` succeeds exactly on valid patterns and keeps the pattern; otherwise a syntax error naming it |
| `Platform.FileName` | src/source/github.rs:79-90 | the name is the last path segment; it fails only without segments (cannot-be-a-base) or with an empty iterator; an empty last segment is accepted |
| `Platform.FileNameExamples` | src/source/gitlab.rs:83-94 | `.../artifact-1.2.3.tar.gz` gives `artifact-1.2.3.tar.gz`; a trailing slash gives `""` |
| `Platform.OpenDownload` | src/source/github.rs:78-92 | URL parse error, then file-name error, then transport error, in that order; on success the name comes from the parsed link and the response is the one a plain GET of that same URL returns |
| `Iter.FindMap` | src/source/github.rs:62-70 | `Iterator::find_map`: `None` exactly when the closure yields `None` for every element; otherwise the closure's value at an element before which it yields only `None` |
| `LinkResolver.FirstMatch` | src/source/gitlab.rs:73-76 | `None` exactly when no candidate is accepted; otherwise an accepted candidate with no accepted one before it; with no pattern, the first candidate |
| `LinkResolver.FirstMatchIsEarliest` | src/source/github.rs:62-66 | the earliest accepted candidate is chosen wherever it stands (and, when only one matches, that one) |
| `LinkResolver.FirstMatchAppend` | src/source/github.rs:62-66 | earlier candidates take precedence: a match in the first part of the list beats anything after it |
| `LinkResolver.FindMapIsFirstMatch` | src/source/github.rs:62-70 | a `find_map` whose closure yields a URL exactly when the pattern accepts it selects what `FirstMatch` selects |
| `Github.EndpointRoundTrip` | src/source/github.rs:33-36 | the repository is recovered from `https://api.github.com/repos/{repo}/releases/latest` |
| `Github.EndpointInjective` | src/source/github.rs:33-36 | distinct repositories give distinct endpoints, and every endpoint starts with `https://` |
| `Github.New` | src/source/github.rs:32-40 | an invalid endpoint URL fails first, then an invalid pattern; it succeeds exactly when both are valid, holding the parsed endpoint and the pattern |
| `Github.Link` | src/source/github.rs:45-72 | a transport error or a non-2xx status fails with the endpoint, before the body is decoded; an undecodable body fails; a success implies a decoded 2xx response |
| `Github.LinkIsFirstMatch` | src/source/github.rs:57-71 | on a decoded 2xx response, `link` is `FirstMatch` over the asset URLs with the pattern, and fails with "no assets found" exactly when none matches (an empty asset list included) |
| `Github.LinkIsEarliestMatchingAsset` | src/source/github.rs:62-66 | a returned link is the URL of a decoded asset, matches the pattern, and no earlier asset matches it |
| `Github.Sync` | src/source/github.rs:75-93 | a `link` failure is returned unchanged before any URL is parsed or second request made; otherwise the download is opened on the resolved link |
| `Github.TarGzExample` | src/source/github.rs:57-92 | of `a.zip` and `b.tar.gz`, a pattern matching only the second resolves to `https://x/y/b.tar.gz`, and `sync` names the file `b.tar.gz` |
| `Gitlab.EndpointRoundTrip` | src/source/gitlab.rs:45-48 | for a host without '/', host and project id are recovered from `https://{host}/api/v4/projects/{id}/releases`, which starts with `https://` |
| `Gitlab.New` | src/source/gitlab.rs:44-54 | an invalid URL fails first; without a pattern it succeeds holding none; with one, it also fails on an invalid pattern and otherwise holds it |
| `Gitlab.Link` | src/source/gitlab.rs:58-78 | a transport error or undecodable body fails; "no releases" exactly when the decoded list is empty; a link or "no assets" only with a non-empty release list |
| `Gitlab.LinkIsFirstMatch` | src/source/gitlab.rs:64-77 | with releases, `link` is `FirstMatch` over the first release's direct asset URLs with the optional pattern ("no assets" when none is accepted); without a pattern it is the first link; later releases play no part |
| `Gitlab.LinkIgnoresStatus` | src/source/gitlab.rs:59-66 | the status code is never consulted: two responses with the same body resolve alike |
| `Gitlab.Sync` | src/source/gitlab.rs:80-97 | a `link` failure is returned unchanged first; otherwise the download is opened on the resolved link |
| `Source.New` | src/source.rs:28-59 | an absent GitHub or GitLab list gives no providers and no errors of that kind |
| `Source.NewProviders` | src/source.rs:29-46 | per kind, one provider per successful record, in configuration order: record i's provider sits after the providers of the successful records before it |
| `Source.NewErrors` | src/source.rs:29-51 | one error per failed record, all GitHub errors first and then all GitLab errors, each kind in configuration order |
| `Source.NewMixedExample` | src/source.rs:28-59 | one invalid GitHub record and one valid GitLab record give exactly one error and a registry holding only the GitLab provider |
| `Source.List` | src/source.rs:61-77 | one line per provider, GitHub first, each kind in registry order: the link on stdout or the error on stderr |
| `Source.CollectSyncResults` | src/source.rs:80-86 | the collected results are each provider's `sync`, GitHub first, in registry order |
| `Source.Clean` | src/source.rs:104-116 | the results before the first one whose download task hits a read error: none of them aborts, and the next one, if any, does |
| `Source.Handle` | src/source.rs:88-113 | one arm of the `filter_map`: an error prints its line and creates nothing; a success prints its name and status, creates its file with the bytes read, and aborts exactly when its body has a read error |
| `Source.HandleStep` | src/source.rs:87-116 | handling one more result adds exactly its line to the output and its file, if it has one, to the files created |
| `Source.Dispatch` | src/source.rs:87-117 | the results are handled one at a time, in order, up to and including the first aborting download: the output is their lines in that order, the files are those of their successes in that order, and `sync` panics exactly when some download aborts |
| `Source.SavedAt` | src/source.rs:87-116 | the files created keep result order: success i's file comes right after the files of the successes before it |
| `Source.Sync` | src/source.rs:79-118 | the i-th line printed belongs to the i-th collected result, errors and download status lines interleaved in that order; every success handled creates its file with the bytes read, in order; without an aborting download every provider gets exactly one line |
| `Source.SyncInterleavingExample` | src/source.rs:87-117 | for a success, a failure and a success whose downloads complete, the output is the first status line, then the error, then the second status line |
| `Source.SyncStopsAtAbortExample` | src/source.rs:104-116 | a download that hits a read error ends `sync`: the error after it is never printed |
| `Download.Readable` | src/source.rs:104-105 | the chunks before the first read error: all are data, and the next one, if any, is the error |
| `Download.PositionsAt` | src/source.rs:106-107 | the k-th position the bar is set to is the total length of the first k + 1 chunks |
| `Download.FlattenLength` | src/source.rs:106-108 | the running byte counter equals the length of the bytes handed to the writer |
| `Download.ProgressBar.constructor` | src/source.rs:92 | `ProgressBar::new(length)`: the given length, position 0, not finished, nothing recorded yet |
| `Download.ProgressBar.Finish` | src/source.rs:110 | `pb.finish()`: the bar is finished; its length, position and recorded positions are unchanged |
| `Download.FileWriter.constructor` | src/source.rs:101-102 | `File::create(&name)` wrapped in a `BufWriter`: a file named `name` that has received nothing yet |
| `Download.ProgressBar.SetPosition` | src/source.rs:107 | the bar's position becomes the given count, recorded in order; nothing else changes |
| `Download.FileWriter.WriteAll` | src/source.rs:108 | the chunk is appended to what the file has received |
| `Download.Stream` | src/source.rs:103-109 | the loop stops at the first read error or the end of the stream; the file then holds the concatenation of the chunks read, the counter and the bar's position are their total length, and the bar was set to each running total in turn |
| `Download.Run` | src/source.rs:89-111 | prints name and status; the file written is the one named `name`; the bar length is the content length or 0; after each chunk the position is the total length so far, and at the end it is the byte count; the file gets the concatenation of the chunks before the first read error; the bar is finished exactly when no read error occurs |

## Left out

- HTTP transport (sending, streaming, `content_length`) is the `Client.send` parameter and the `Response` value. Connection behaviour, timeouts and proxies are not modelled. Because `Client.send` is a function of the request, the model takes the same request to get the same response throughout a run; no property relies on this.
- JSON decoding with serde is the pair of decoders in `Source.Json`. Only success or failure is modelled, not the JSON format.
- Regex compilation and matching are `Libs.regexValid` and `Libs.isMatch`, left uninterpreted. Regex syntax is not modelled.
- URL parsing is `Libs.parseUrl`, and its path segments are a field of `Url`. URL normalisation is not modelled, so the model does not tie a parsed URL's text to its input.
- `tokio::spawn` and the runtime that runs the spawned task are not modelled. The task is run in place, which gives the same order of effects because `sync` awaits each task before it takes the next result.
- `File::create` and write failures are not modelled, because they are file-system I/O. A failure of `File::create` (also for the empty name from a trailing slash) or of `write_all` panics the task through `unwrap`, and so `sync`. A failure while the `BufWriter` flushes its last bytes on drop is ignored: the file is left short and the task ends normally. The file is a `FileWriter` that always accepts data.
- Download.Run: a chunk read error makes the task panic, and awaiting it makes `sync` panic. The model returns `completed = false` and `Source.Sync` stops there with `panicked` set; the panic message is not modelled. What `ProgressBar::finish` draws, the bar's style and the ETA closure are cosmetic and not modelled.
- Download.Run: the byte counter is an unbounded `nat`. The source's `usize` counter and its cast to `u64` cannot overflow for real downloads.
- The text of error messages and of printed lines is represented by constructors of `Platform.Error` and `Source.Message`, not by strings. The two providers word their path-segment errors differently ("no path segments found" and "no path segments"); the model uses one constructor for both.
- The logging calls (`info!`, `trace!`, `#[instrument]`) are not modelled, because they only produce output.
- `src/config.rs` (loading and saving the configuration file) and `src/main.rs` (command line, proxy setup, tracing setup) are not part of this model; the configuration is the `Source.Config` value.
