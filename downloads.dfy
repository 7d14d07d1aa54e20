/**
 * The streaming downloader: validation of the `urls`/`kwds`/`fnames`
 * arguments, file-name derivation from request keys, the per-file
 * skip-or-write decision of `_download`, and `streaming_download` run one
 * task after another.  The file system is a `Disk` object whose `files`
 * map the methods update; HTTP responses come from a function value.
 */
module Downloads {
  import opened Wrappers
  import opened Text
  import opened Paths
  import opened Exceptions
  import opened RequestKey

  datatype UrlsArg = OneUrl(url: string) | ManyUrls(urls: seq<string>)

  /** One `kwds` dictionary: argument name to value. */
  type Kwds = map<string, Payload>

  datatype KwdsArg = OneKwds(kwds: Kwds) | ManyKwds(list: seq<Kwds>)

  datatype FnamesArg = OneFname(name: Path) | ManyFnames(names: seq<Path>)

  /** Where the destinations come from: given by the caller, or derived from request keys. */
  datatype FileSource = Given(paths: seq<Path>) | Derived(root: Path, prefix: string, ext: string)

  datatype Prepared = Prepared(urls: seq<string>, kwds: seq<Kwds>, files: FileSource)

  datatype Request = Request(verb: string, url: string, kwds: Kwds)

  /** A streamed response: the `Content-Length` header, if sent, and the body. */
  datatype Response = Response(contentLength: Option<int>, body: seq<byte>)

  /** `streaming_download` returns one path for a single URL string, a list otherwise. */
  datatype Downloaded = SinglePath(path: Path) | PathList(paths: seq<Path>)

  const ValidKwdsKeys: seq<string> := ["params", "data", "json", "headers"]
  const ValidMethods: seq<string> := ["GET", "POST"]
  const DefaultCacheDir := Path([".cache"])
  const HeadersKeyError := "create_request_key() got an unexpected keyword argument 'headers'"
  const NoWorkersError := "n_jobs == 0 in Parallel has no meaning"

  function UrlSeq(urls: UrlsArg): seq<string>
  {
    match urls
    case OneUrl(u) => [u]
    case ManyUrls(us) => us
  }

  function FnameSeq(fnames: FnamesArg): seq<Path>
  {
    match fnames
    case OneFname(n) => [n]
    case ManyFnames(ns) => ns
  }

  /** The keyword dictionaries: the given ones, or one default per URL. */
  function KwdSeq(kwds: Option<KwdsArg>, verb: string, count: nat): (r: seq<Kwds>)
    ensures kwds.None? ==> |r| == count
  {
    match kwds
    case None =>
      var dflt: Kwds := if verb == "GET" then map["params" := Absent] else map["data" := Absent];
      seq(count, _ => dflt)
    case Some(OneKwds(k)) => [k]
    case Some(ManyKwds(ks)) => ks
  }

  predicate KeysValid(kwds: seq<Kwds>)
  {
    forall i, k :: 0 <= i < |kwds| && k in kwds[i] ==> k in ValidKwdsKeys
  }

  /** The file extension with every `.` removed and one leading `.` put back, or empty. */
  function Extension(ext: string): (r: string)
    ensures r == "" <==> ReplaceChar(ext, '.', "") == ""
    ensures r != "" ==> r[0] == '.' && '.' !in r[1..] && r[1..] == ReplaceChar(ext, '.', "")
  {
    var bare := ReplaceChar(ext, '.', "");
    ReplaceCharDeletes(ext, '.');
    if bare == "" then "" else "." + bare
  }

  /** `_prepare_requests_args`: validate the arguments and choose the file-name source. */
  function PrepareRequestsArgs(urls: UrlsArg, kwds: Option<KwdsArg>, verb: string,
                               fnames: Option<FnamesArg>, rootDir: Option<Path>,
                               cacheDirEnv: Option<Path>, prefix: string, ext: string): (r: Result<Prepared, Error>)
    ensures var us := UrlSeq(urls); var ks := KwdSeq(kwds, verb, |us|);
      r.Ok? <==> KeysValid(ks) && |ks| == |us| && (fnames.Some? ==> |FnameSeq(fnames.value)| == |us|)
    ensures !KeysValid(KwdSeq(kwds, verb, |UrlSeq(urls)|)) ==> r == Err(InputValue("kwds", ValidKwdsKeys, None))
    ensures var us := UrlSeq(urls); var ks := KwdSeq(kwds, verb, |us|);
      KeysValid(ks) && |ks| != |us| ==> r == Err(InputType("urls/kwds", "list of same length", None))
    ensures var us := UrlSeq(urls); var ks := KwdSeq(kwds, verb, |us|);
      KeysValid(ks) && |ks| == |us| && fnames.Some? && |FnameSeq(fnames.value)| != |us| ==>
        r == Err(InputType("urls/fnames", "lists of same length", None))
    ensures r.Ok? ==> r.value.urls == UrlSeq(urls) && |r.value.kwds| == |r.value.urls|
    ensures r.Ok? && kwds.None? && verb == "GET" ==>
      forall i :: 0 <= i < |r.value.kwds| ==> r.value.kwds[i] == map["params" := Absent]
    ensures r.Ok? && kwds.None? && verb != "GET" ==>
      forall i :: 0 <= i < |r.value.kwds| ==> r.value.kwds[i] == map["data" := Absent]
    ensures r.Ok? && fnames.Some? ==> r.value.files == Given(FnameSeq(fnames.value))
    ensures r.Ok? && fnames.None? ==>
      r.value.files.Derived? && r.value.files.prefix == prefix && r.value.files.ext == Extension(ext) &&
      r.value.files.root == (if rootDir.Some? then rootDir.value
                             else if cacheDirEnv.Some? then cacheDirEnv.value else DefaultCacheDir)
  {
    var us := UrlSeq(urls);
    var ks := KwdSeq(kwds, verb, |us|);
    if !KeysValid(ks) then Err(InputValue("kwds", ValidKwdsKeys, None))
    else if |us| != |ks| then Err(InputType("urls/kwds", "list of same length", None))
    else if fnames.None? then
      var root := if rootDir.Some? then rootDir.value
                  else if cacheDirEnv.Some? then cacheDirEnv.value else DefaultCacheDir;
      Ok(Prepared(us, ks, Derived(root, prefix, Extension(ext))))
    else
      var fs := FnameSeq(fnames.value);
      if |us| != |fs| then Err(InputType("urls/fnames", "lists of same length", None))
      else Ok(Prepared(us, ks, Given(fs)))
  }

  predicate WellFormed(p: Prepared)
  {
    |p.kwds| == |p.urls| && (p.files.Given? ==> |p.files.paths| == |p.urls|)
  }

  function Arg(k: Kwds, name: string): Payload
  {
    if name in k then k[name] else Absent
  }

  /**
   * The destination of task `i`: the given path, or `root/prefix + key + ext`
   * where the key comes from `create_request_key(method, url, **kwds)`,
   * which rejects a `headers` entry.
   */
  function FileNameAt(p: Prepared, i: nat, verb: string, f: Foreign): Result<Path, Error>
    requires WellFormed(p) && i < |p.urls|
  {
    match p.files
    case Given(paths) => Ok(paths[i])
    case Derived(root, prefix, ext) =>
      var k := p.kwds[i];
      if "headers" in k then Err(PyTypeError(HeadersKeyError))
      else
        var key := CreateRequestKey(verb, p.urls[i], Arg(k, "params"), Arg(k, "data"), Arg(k, "json"), f);
        Ok(Child(root, prefix + key + ext))
  }

  function FileNames(p: Prepared, verb: string, f: Foreign): (r: seq<Result<Path, Error>>)
    requires WellFormed(p)
    ensures |r| == |p.urls|
  {
    seq(|p.urls|, i requires 0 <= i < |p.urls| => FileNameAt(p, i, verb, f))
  }

  function Responses(p: Prepared, verb: string, fetch: Request -> Response): (r: seq<Response>)
    requires WellFormed(p)
    ensures |r| == |p.urls|
  {
    seq(|p.urls|, i requires 0 <= i < |p.urls| => fetch(Request(verb, p.urls[i], p.kwds[i])))
  }

  // ---- `_download` ----

  /** `int(resp.headers.get("Content-Length", -1))`. */
  function ExpectedSize(resp: Response): int
  {
    if resp.contentLength.Some? then resp.contentLength.value else -1
  }

  /** The file exists and its size equals the announced length. */
  predicate Complete(fs: FileSystem, fname: Path, resp: Response)
  {
    fname in fs && |fs[fname]| == ExpectedSize(resp)
  }

  /** The response announces the length of the body it sends. */
  predicate Honest(resp: Response)
  {
    resp.contentLength == Some(|resp.body|)
  }

  /** The file system after `_download`: a complete file is kept, anything else is (re)written. */
  function AfterDownload(fs: FileSystem, fname: Path, resp: Response): (r: FileSystem)
    ensures r.Keys == fs.Keys + {fname}
    ensures forall k :: k in fs && k != fname ==> r[k] == fs[k]
    ensures Complete(fs, fname, resp) ==> r == fs
    ensures !Complete(fs, fname, resp) ==> r[fname] == resp.body
  {
    if Complete(fs, fname, resp) then fs else fs[fname := resp.body]
  }

  /** A file whose size matches `Content-Length` is left alone. */
  lemma DownloadKeepsCompleteFile(fs: FileSystem, fname: Path, resp: Response)
    requires Complete(fs, fname, resp)
    ensures AfterDownload(fs, fname, resp) == fs
  {
  }

  /** Without a `Content-Length` header the size never matches, so the body is always written. */
  lemma DownloadWithoutLengthWrites(fs: FileSystem, fname: Path, resp: Response)
    requires resp.contentLength.None?
    ensures AfterDownload(fs, fname, resp) == fs[fname := resp.body]
  {
  }

  /** After downloading an honest response the file is complete, so a repeat is a no-op. */
  lemma DownloadIdempotent(fs: FileSystem, fname: Path, resp: Response)
    requires Honest(resp)
    ensures Complete(AfterDownload(fs, fname, resp), fname, resp)
    ensures AfterDownload(AfterDownload(fs, fname, resp), fname, resp) == AfterDownload(fs, fname, resp)
  {
  }

  class Disk {
    var files: FileSystem

    constructor (initial: FileSystem)
      ensures files == initial
    {
      files := initial;
    }

    /** `_download`: write the streamed body unless the file is already complete. */
    method Download(resp: Response, fname: Path) returns (p: Path)
      modifies this
      ensures p == fname
      ensures files == AfterDownload(old(files), fname, resp)
    {
      var size := ExpectedSize(resp);
      if fname !in files || |files[fname]| != size {
        files := files[fname := resp.body];
      }
      p := fname;
    }
  }

  // ---- the batch ----

  /**
   * Run the tasks in input order: stop at the first destination that could
   * not be derived, otherwise download each one and collect the paths.
   */
  function RunTasks(fs: FileSystem, names: seq<Result<Path, Error>>, resps: seq<Response>): (Result<seq<Path>, Error>, FileSystem)
    requires |names| == |resps|
    decreases |names|
  {
    if |names| == 0 then (Ok([]), fs)
    else if names[0].Err? then (Err(names[0].error), fs)
    else
      var next := RunTasks(AfterDownload(fs, names[0].value, resps[0]), names[1..], resps[1..]);
      (Prepend(names[0].value, next.0), next.1)
  }

  function Prepend(p: Path, r: Result<seq<Path>, Error>): Result<seq<Path>, Error>
  {
    Combine([p], r)
  }

  /** The paths collected so far, followed by the outcome of the remaining tasks. */
  function Combine(done: seq<Path>, r: Result<seq<Path>, Error>): Result<seq<Path>, Error>
  {
    if r.Ok? then Ok(done + r.value) else r
  }

  function Dests(names: seq<Result<Path, Error>>): set<Path>
  {
    set i | 0 <= i < |names| && names[i].Ok? :: names[i].value
  }

  predicate AllOk(names: seq<Result<Path, Error>>)
  {
    forall i :: 0 <= i < |names| ==> names[i].Ok?
  }

  predicate Distinct(names: seq<Result<Path, Error>>)
  {
    forall i, j :: 0 <= i < j < |names| ==> names[i] != names[j]
  }

  /** The paths come back in input order, one per task. */
  lemma {:induction false} RunTasksKeepsOrder(fs: FileSystem, names: seq<Result<Path, Error>>, resps: seq<Response>)
    requires |names| == |resps|
    ensures var res := RunTasks(fs, names, resps).0;
      res.Ok? <==> AllOk(names)
    ensures var res := RunTasks(fs, names, resps).0;
      res.Ok? ==> |res.value| == |names| && forall i :: 0 <= i < |names| ==> names[i] == Ok(res.value[i])
    decreases |names|
  {
    if |names| > 0 && names[0].Ok? {
      RunTasksKeepsOrder(AfterDownload(fs, names[0].value, resps[0]), names[1..], resps[1..]);
      var rest := RunTasks(AfterDownload(fs, names[0].value, resps[0]), names[1..], resps[1..]).0;
      if rest.Ok? {
        forall i | 1 <= i < |names| ensures names[i] == Ok(([names[0].value] + rest.value)[i]) {
          assert names[1..][i - 1] == names[i];
        }
      } else {
        var k :| 0 <= k < |names[1..]| && !names[1..][k].Ok?;
        assert !names[k + 1].Ok?;
      }
    }
  }

  /** Only the tasks' own destinations are touched. */
  lemma {:induction false} RunTasksFrame(fs: FileSystem, names: seq<Result<Path, Error>>, resps: seq<Response>, k: Path)
    requires |names| == |resps|
    requires k !in Dests(names)
    ensures var out := RunTasks(fs, names, resps).1;
      (k in out <==> k in fs) && (k in fs ==> out[k] == fs[k])
    decreases |names|
  {
    if |names| > 0 && names[0].Ok? {
      assert k != names[0].value;
      assert Dests(names[1..]) <= Dests(names) by {
        forall p | p in Dests(names[1..]) ensures p in Dests(names) {
          var i :| 0 <= i < |names[1..]| && names[1..][i].Ok? && names[1..][i].value == p;
          assert names[i + 1].Ok? && names[i + 1].value == p;
        }
      }
      RunTasksFrame(AfterDownload(fs, names[0].value, resps[0]), names[1..], resps[1..], k);
    }
  }

  /** With distinct destinations and honest responses, every file is complete afterwards. */
  lemma {:induction false} RunTasksCompletes(fs: FileSystem, names: seq<Result<Path, Error>>, resps: seq<Response>)
    requires |names| == |resps| && AllOk(names) && Distinct(names)
    requires forall i :: 0 <= i < |resps| ==> Honest(resps[i])
    ensures var out := RunTasks(fs, names, resps).1;
      forall i :: 0 <= i < |names| ==> Complete(out, names[i].value, resps[i])
    decreases |names|
  {
    if |names| > 0 {
      var fs1 := AfterDownload(fs, names[0].value, resps[0]);
      RunTasksCompletes(fs1, names[1..], resps[1..]);
      assert names[0].value !in Dests(names[1..]);
      RunTasksFrame(fs1, names[1..], resps[1..], names[0].value);
      var out := RunTasks(fs, names, resps).1;
      forall i | 0 <= i < |names| ensures Complete(out, names[i].value, resps[i]) {
        if i > 0 {
          assert names[1..][i - 1] == names[i] && resps[1..][i - 1] == resps[i];
        }
      }
    }
  }

  /** When every destination is already complete, the run writes nothing. */
  lemma {:induction false} RunTasksSkipsComplete(fs: FileSystem, names: seq<Result<Path, Error>>, resps: seq<Response>)
    requires |names| == |resps| && AllOk(names)
    requires forall i :: 0 <= i < |names| ==> Complete(fs, names[i].value, resps[i])
    ensures RunTasks(fs, names, resps).1 == fs
    decreases |names|
  {
    if |names| > 0 {
      RunTasksSkipsComplete(fs, names[1..], resps[1..]);
    }
  }

  /** A second run of the same batch changes nothing and returns the same paths. */
  lemma RunTasksIdempotent(fs: FileSystem, names: seq<Result<Path, Error>>, resps: seq<Response>)
    requires |names| == |resps| && AllOk(names) && Distinct(names)
    requires forall i :: 0 <= i < |resps| ==> Honest(resps[i])
    ensures var first := RunTasks(fs, names, resps);
      RunTasks(first.1, names, resps) == first
  {
    var first := RunTasks(fs, names, resps);
    RunTasksCompletes(fs, names, resps);
    RunTasksSkipsComplete(first.1, names, resps);
    RunTasksKeepsOrder(fs, names, resps);
    RunTasksKeepsOrder(first.1, names, resps);
    var second := RunTasks(first.1, names, resps);
    assert second.0.value == first.0.value;
  }

  /** `min(n_jobs, len(urls))`. */
  function Workers(nJobs: int, count: nat): (r: int)
    ensures r <= nJobs && r <= count
    ensures r == nJobs || r == count
  {
    if nJobs < count then nJobs else count
  }

  /** What `streaming_download` returns, and the file system it leaves behind. */
  function StreamingDownloadSpec(fs: FileSystem, urls: UrlsArg, kwds: Option<KwdsArg>, fnames: Option<FnamesArg>,
                                 rootDir: Option<Path>, cacheDirEnv: Option<Path>, prefix: string, ext: string,
                                 verb: string, nJobs: int, f: Foreign, fetch: Request -> Response)
    : (Result<Downloaded, Error>, FileSystem)
  {
    var verb' := Upper(verb);
    if verb' !in ValidMethods then (Err(InputValue("method", ValidMethods, None)), fs)
    else
      var prep := PrepareRequestsArgs(urls, kwds, verb', fnames, rootDir, cacheDirEnv, prefix, ext);
      if prep.Err? then (Err(prep.error), fs)
      else if Workers(nJobs, |prep.value.urls|) == 0 then (Err(PyValueError(NoWorkersError)), fs)
      else
        var p := prep.value;
        var run := RunTasks(fs, FileNames(p, verb', f), Responses(p, verb', fetch));
        if run.0.Err? then (Err(run.0.error), run.1)
        else if urls.OneUrl? then (Ok(SinglePath(run.0.value[0])), run.1)
        else (Ok(PathList(run.0.value)), run.1)
  }

  /**
   * `streaming_download`, one task after another: upper-case and check the
   * method, prepare the arguments, cap the workers, then derive each
   * destination and download into it, in input order.
   */
  method StreamingDownload(disk: Disk, urls: UrlsArg, kwds: Option<KwdsArg>, fnames: Option<FnamesArg>,
                           rootDir: Option<Path>, cacheDirEnv: Option<Path>, prefix: string, ext: string,
                           verb: string, nJobs: int, f: Foreign, fetch: Request -> Response)
    returns (r: Result<Downloaded, Error>)
    modifies disk
    ensures (r, disk.files) == StreamingDownloadSpec(old(disk.files), urls, kwds, fnames, rootDir, cacheDirEnv,
                                                    prefix, ext, verb, nJobs, f, fetch)
  {
    var verb' := Upper(verb);
    if verb' !in ValidMethods {
      return Err(InputValue("method", ValidMethods, None));
    }
    var prep := PrepareRequestsArgs(urls, kwds, verb', fnames, rootDir, cacheDirEnv, prefix, ext);
    if prep.Err? {
      return Err(prep.error);
    }
    var p := prep.value;
    var workers := Workers(nJobs, |p.urls|);
    if workers == 0 {
      return Err(PyValueError(NoWorkersError));
    }
    var paths := RunAll(disk, p, verb', f, fetch);
    if paths.Err? {
      return Err(paths.error);
    }
    if urls.OneUrl? {
      return Ok(SinglePath(paths.value[0]));
    }
    return Ok(PathList(paths.value));
  }

  lemma CombinePrepend(done: seq<Path>, p: Path, r: Result<seq<Path>, Error>)
    ensures Combine(done, Prepend(p, r)) == Combine(done + [p], r)
  {
    if r.Ok? {
      assert done + ([p] + r.value) == (done + [p]) + r.value;
    }
  }

  /** One step of the batch: task `i` either fails or downloads and leaves the rest to run. */
  lemma RunTasksStep(fs: FileSystem, names: seq<Result<Path, Error>>, resps: seq<Response>, i: nat)
    requires |names| == |resps| && i < |names|
    ensures names[i].Err? ==> RunTasks(fs, names[i..], resps[i..]) == (Err(names[i].error), fs)
    ensures names[i].Ok? ==>
      var next := RunTasks(AfterDownload(fs, names[i].value, resps[i]), names[i + 1..], resps[i + 1..]);
      RunTasks(fs, names[i..], resps[i..]) == (Prepend(names[i].value, next.0), next.1)
  {
    assert names[i..][0] == names[i] && resps[i..][0] == resps[i];
    assert names[i..][1..] == names[i + 1..] && resps[i..][1..] == resps[i + 1..];
  }

  /** The download tasks of a prepared batch, run in input order on `disk`. */
  method RunAll(disk: Disk, p: Prepared, verb: string, f: Foreign, fetch: Request -> Response)
    returns (r: Result<seq<Path>, Error>)
    requires WellFormed(p)
    modifies disk
    ensures (r, disk.files) == RunTasks(old(disk.files), FileNames(p, verb, f), Responses(p, verb, fetch))
  {
    r := RunTasksOn(disk, FileNames(p, verb, f), Responses(p, verb, fetch));
  }

  /**
   * The loop over the zipped tasks: a task whose file name failed stops the
   * batch with that error; otherwise its response is written and its path kept.
   */
  method RunTasksOn(disk: Disk, names: seq<Result<Path, Error>>, resps: seq<Response>)
    returns (r: Result<seq<Path>, Error>)
    requires |names| == |resps|
    modifies disk
    ensures (r, disk.files) == RunTasks(old(disk.files), names, resps)
  {
    ghost var whole := RunTasks(disk.files, names, resps);
    var paths: seq<Path> := [];
    var i := 0;
    assert names[0..] == names && resps[0..] == resps;
    if whole.0.Ok? {
      assert [] + whole.0.value == whole.0.value;
    }
    while i < |names|
      invariant 0 <= i <= |names|
      invariant var rest := RunTasks(disk.files, names[i..], resps[i..]);
        whole == (Combine(paths, rest.0), rest.1)
    {
      RunTasksStep(disk.files, names, resps, i);
      if names[i].Err? {
        return Err(names[i].error);
      }
      ghost var rest := RunTasks(AfterDownload(disk.files, names[i].value, resps[i]), names[i + 1..], resps[i + 1..]);
      var got := disk.Download(resps[i], names[i].value);
      CombinePrepend(paths, got, rest.0);
      paths := paths + [got];
      i := i + 1;
    }
    assert names[i..] == [] && resps[i..] == [];
    assert paths + [] == paths;
    return Ok(paths);
  }

  /**
   * The returned paths follow the input order: entry `i` is the given file
   * name `i`, or the name derived from request `i`; a single URL string
   * gives a single path.
   */
  lemma StreamingDownloadOrder(fs: FileSystem, urls: UrlsArg, kwds: Option<KwdsArg>, fnames: Option<FnamesArg>,
                               rootDir: Option<Path>, cacheDirEnv: Option<Path>, prefix: string, ext: string,
                               verb: string, nJobs: int, f: Foreign, fetch: Request -> Response)
    ensures var r := StreamingDownloadSpec(fs, urls, kwds, fnames, rootDir, cacheDirEnv, prefix, ext, verb, nJobs, f, fetch).0;
      (r.Ok? && urls.OneUrl? ==> r.value.SinglePath?) &&
      (r.Ok? && urls.ManyUrls? ==> r.value.PathList? && |r.value.paths| == |urls.urls|) &&
      (r.Ok? && urls.ManyUrls? && fnames.Some? ==> r.value.paths == FnameSeq(fnames.value)) &&
      (r.Ok? && urls.OneUrl? && fnames.Some? ==> r.value.path == FnameSeq(fnames.value)[0])
  {
    var verb' := Upper(verb);
    var prep := PrepareRequestsArgs(urls, kwds, verb', fnames, rootDir, cacheDirEnv, prefix, ext);
    if verb' in ValidMethods && prep.Ok? {
      var p := prep.value;
      RunTasksKeepsOrder(fs, FileNames(p, verb', f), Responses(p, verb', fetch));
    }
  }

  /** Only `GET` and `POST`, in any letter case, are accepted; anything else fails before any download. */
  lemma StreamingDownloadChecksMethod(fs: FileSystem, urls: UrlsArg, kwds: Option<KwdsArg>, fnames: Option<FnamesArg>,
                                      rootDir: Option<Path>, cacheDirEnv: Option<Path>, prefix: string, ext: string,
                                      verb: string, nJobs: int, f: Foreign, fetch: Request -> Response)
    requires Upper(verb) != "GET" && Upper(verb) != "POST"
    ensures StreamingDownloadSpec(fs, urls, kwds, fnames, rootDir, cacheDirEnv, prefix, ext, verb, nJobs, f, fetch)
         == (Err(InputValue("method", ["GET", "POST"], None)), fs)
  {
  }

  /**
   * With honest responses and distinct destinations, running the same
   * download a second time gives the same result and writes nothing.
   */
  lemma StreamingDownloadIdempotent(fs: FileSystem, urls: UrlsArg, kwds: Option<KwdsArg>, fnames: Option<FnamesArg>,
                                    rootDir: Option<Path>, cacheDirEnv: Option<Path>, prefix: string, ext: string,
                                    verb: string, nJobs: int, f: Foreign, fetch: Request -> Response)
    requires forall q :: Honest(fetch(q))
    requires var verb' := Upper(verb);
      var prep := PrepareRequestsArgs(urls, kwds, verb', fnames, rootDir, cacheDirEnv, prefix, ext);
      prep.Ok? ==> Distinct(FileNames(prep.value, verb', f))
    ensures var first := StreamingDownloadSpec(fs, urls, kwds, fnames, rootDir, cacheDirEnv, prefix, ext, verb, nJobs, f, fetch);
      first.0.Ok? ==>
        StreamingDownloadSpec(first.1, urls, kwds, fnames, rootDir, cacheDirEnv, prefix, ext, verb, nJobs, f, fetch) == first
  {
    var verb' := Upper(verb);
    var prep := PrepareRequestsArgs(urls, kwds, verb', fnames, rootDir, cacheDirEnv, prefix, ext);
    var first := StreamingDownloadSpec(fs, urls, kwds, fnames, rootDir, cacheDirEnv, prefix, ext, verb, nJobs, f, fetch);
    if first.0.Ok? {
      assert verb' in ValidMethods && prep.Ok?;
      var run := RunTasks(fs, FileNames(prep.value, verb', f), Responses(prep.value, verb', fetch));
      assert run.0.Ok? && first.1 == run.1;
      BatchIdempotent(fs, prep.value, verb', f, fetch);
    }
  }

  /** A prepared batch with honest responses and distinct destinations: a successful run repeats itself. */
  lemma BatchIdempotent(fs: FileSystem, p: Prepared, verb: string, f: Foreign, fetch: Request -> Response)
    requires WellFormed(p) && Distinct(FileNames(p, verb, f))
    requires forall q :: Honest(fetch(q))
    ensures var run := RunTasks(fs, FileNames(p, verb, f), Responses(p, verb, fetch));
      run.0.Ok? ==> RunTasks(run.1, FileNames(p, verb, f), Responses(p, verb, fetch)) == run
  {
    var names, resps := FileNames(p, verb, f), Responses(p, verb, fetch);
    RunTasksKeepsOrder(fs, names, resps);
    if AllOk(names) {
      RunTasksIdempotent(fs, names, resps);
    }
  }
}
