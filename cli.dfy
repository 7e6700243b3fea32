/** The command line: which operation the flags select, how the token and the
    cache directory fall back to the environment, and how the process ends. */
module Cli {
  import opened Wrappers
  import opened PyValues
  import opened Events
  import opened Patterns
  import opened Kwargs
  import opened Downloads

  /** The parsed flags; an absent option is None, a store_true flag a bool.
      `revision` is None when `--revision` is not given. */
  datatype Args = Args(
    repoId: Option<string>,
    filename: Option<string>,
    dest: Option<string>,
    revision: Option<string>,
    token: Option<string>,
    cacheDir: Option<string>,
    snapshot: bool,
    allowPatterns: Option<string>,
    ignorePatterns: Option<string>,
    urlOnly: bool,
    check: bool)

  /** The environment variables the adapter reads. */
  datatype Env = Env(hfToken: Option<string>, hfHubCache: Option<string>, huggingfaceHubCache: Option<string>)

  const DEFAULT_REVISION: string := "main"
  const MSG_REPO_ID: string := "--repo-id is required (unless using --check)"
  const MSG_URL_FILENAME: string := "--filename is required for --url-only"
  const MSG_FILENAME: string := "--filename or --snapshot is required"

  /** What main does: the availability check, a parser error, or one of the
      three operations with its resolved parameters. */
  datatype Outcome =
    | Check
    | ParseError(msg: string)
    | CallUrl(repoId: string, filename: string, revision: string)
    | CallSnapshot(repoId: string, dest: Option<string>, revision: string, token: Option<string>,
                   cacheDir: Option<string>, allowPatterns: Option<seq<string>>,
                   ignorePatterns: Option<seq<string>>)
    | CallSingle(repoId: string, filename: string, dest: Option<string>, revision: string,
                 token: Option<string>, cacheDir: Option<string>)

  /** argparse's default for `--revision`; a given value, even "", is kept. */
  function Revision(a: Args): (r: string)
    ensures a.revision.None? ==> r == "main"
    ensures a.revision.Some? ==> r == a.revision.value
  {
    a.revision.GetOr(DEFAULT_REVISION)
  }

  /** The token used: `--token` when truthy, else HF_TOKEN, which may be None. */
  function ResolveToken(a: Args, e: Env): (t: Option<string>)
    ensures Truthy(a.token) ==> t == a.token
    ensures !Truthy(a.token) ==> t == e.hfToken
  {
    if Truthy(a.token) then a.token else e.hfToken
  }

  /** The cache directory used: `--cache-dir` when truthy, else HF_HUB_CACHE
      when truthy, else HUGGINGFACE_HUB_CACHE. */
  function ResolveCacheDir(a: Args, e: Env): (c: Option<string>)
    ensures Truthy(a.cacheDir) ==> c == a.cacheDir
    ensures !Truthy(a.cacheDir) && Truthy(e.hfHubCache) ==> c == e.hfHubCache
    ensures !Truthy(a.cacheDir) && !Truthy(e.hfHubCache) ==> c == e.huggingfaceHubCache
  {
    if Truthy(a.cacheDir) then a.cacheDir else Or(e.hfHubCache, e.huggingfaceHubCache)
  }

  /** Overwriting a falsy option with its fallback is Python's `or` chain over
      the option and the variables: the first truthy one wins, and the result
      is truthy iff one of them is. */
  lemma FallbacksAreOrChains(a: Args, e: Env)
    ensures ResolveToken(a, e) == OrChain([a.token, e.hfToken])
    ensures ResolveCacheDir(a, e) == OrChain([a.cacheDir, e.hfHubCache, e.huggingfaceHubCache])
    ensures Truthy(ResolveCacheDir(a, e)) <==>
      Truthy(a.cacheDir) || Truthy(e.hfHubCache) || Truthy(e.huggingfaceHubCache)
  {
    var xs := [a.cacheDir, e.hfHubCache, e.huggingfaceHubCache];
    assert xs[1..] == [e.hfHubCache, e.huggingfaceHubCache] && xs[1..][1..] == [e.huggingfaceHubCache];
    assert OrChain(xs[1..]) == Or(e.hfHubCache, e.huggingfaceHubCache);
    assert [a.token, e.hfToken][1..] == [e.hfToken];
  }

  /** main's decision: `--check` first, before any validation; then a falsy
      repo id is an error; then `--url-only` (needs a filename), then
      `--snapshot` (no filename needed), then single-file (needs a filename). */
  function Dispatch(a: Args, e: Env): (o: Outcome)
    ensures a.check ==> o == Check
    ensures o.ParseError? <==>
      !a.check && (!Truthy(a.repoId) || ((a.urlOnly || !a.snapshot) && !Truthy(a.filename)))
    ensures o.CallUrl? <==> !a.check && Truthy(a.repoId) && a.urlOnly && Truthy(a.filename)
    ensures o.CallSnapshot? <==> !a.check && Truthy(a.repoId) && !a.urlOnly && a.snapshot
    ensures o.CallSingle? <==>
      !a.check && Truthy(a.repoId) && !a.urlOnly && !a.snapshot && Truthy(a.filename)
    ensures o.ParseError? ==>
      o.msg == (if !Truthy(a.repoId) then MSG_REPO_ID else if a.urlOnly then MSG_URL_FILENAME else MSG_FILENAME)
    ensures o.CallUrl? ==> o == CallUrl(a.repoId.value, a.filename.value, Revision(a))
    ensures o.CallSnapshot? ==> o == CallSnapshot(a.repoId.value, a.dest, Revision(a),
      ResolveToken(a, e), ResolveCacheDir(a, e), SplitPatterns(a.allowPatterns), SplitPatterns(a.ignorePatterns))
    ensures o.CallSingle? ==> o == CallSingle(a.repoId.value, a.filename.value, a.dest, Revision(a),
      ResolveToken(a, e), ResolveCacheDir(a, e))
  {
    if a.check then Check
    else if !Truthy(a.repoId) then ParseError(MSG_REPO_ID)
    else
      var token := ResolveToken(a, e);
      var cacheDir := ResolveCacheDir(a, e);
      if a.urlOnly then
        if !Truthy(a.filename) then ParseError(MSG_URL_FILENAME)
        else CallUrl(a.repoId.value, a.filename.value, Revision(a))
      else if a.snapshot then
        CallSnapshot(a.repoId.value, a.dest, Revision(a), token, cacheDir,
                     SplitPatterns(a.allowPatterns), SplitPatterns(a.ignorePatterns))
      else if !Truthy(a.filename) then ParseError(MSG_FILENAME)
      else CallSingle(a.repoId.value, a.filename.value, a.dest, Revision(a), token, cacheDir)
  }

  // ---------------------------------------------------------------------------
  // How the process ends

  /** What `main()` returns. */
  datatype PyReturn = ReturnInt(n: int) | ReturnStr(s: string)

  /** `sys.exit(main())`, a `parser.error(...)`, or an exception escaping main. */
  datatype Termination = Returned(value: PyReturn) | UsageError(msg: string) | Raised(e: Exn)

  /** The process exit status: `sys.exit(n)` exits with n, `sys.exit(s)` for a
      string prints it to stderr and exits with 1, argparse errors exit with 2,
      an uncaught exception exits with 1. */
  function ExitCode(t: Termination): (code: int)
    ensures t.Raised? || t.UsageError? || (t.Returned? && t.value.ReturnStr?) ==> code != 0
    ensures t.Returned? && t.value.ReturnInt? ==> code == t.value.n
  {
    match t
    case Returned(ReturnInt(n)) => n
    case Returned(ReturnStr(_)) => 1
    case UsageError(_) => 2
    case Raised(_) => 1
  }

  /** The events of one invocation and how it ends. */
  datatype Session = Session(events: seq<Event>, term: Termination)

  /** `raise` out of main for a failed operation, else main's return value. */
  function Finish<T>(run: Run<T>, ret: T -> PyReturn): Session {
    Session(run.events, if run.result.Success? then Returned(ret(run.result.value)) else Raised(run.result.error))
  }

  /** Carrying out an outcome as the source does. The URL branch returns the URL
      from main (`return get_file_url(...)`). */
  function Execute(o: Outcome, host: Host): (s: Session)
    ensures o.Check? ==> s == Session([CheckAvailable()], Returned(ReturnInt(0)))
    ensures o.ParseError? ==> s == Session([], UsageError(o.msg))
    ensures o.CallUrl? ==>
      var run := UrlRun(host, o.repoId, o.filename, o.revision);
      && s.events == run.events
      && s.term == (if run.result.Success? then Returned(ReturnStr(run.result.value)) else Raised(run.result.error))
    ensures o.CallSnapshot? ==>
      var run := SnapshotRun(host, o.repoId, o.dest, o.revision, o.token, o.cacheDir,
                             o.allowPatterns, o.ignorePatterns);
      && s.events == run.events
      && s.term == (if run.result.Success? then Returned(ReturnInt(0)) else Raised(run.result.error))
    ensures o.CallSingle? ==>
      var run := SingleFileRun(host, o.repoId, o.filename, o.revision, o.token, o.cacheDir, None);
      && s.events == run.events
      && s.term == (if run.result.Success? then Returned(ReturnInt(0)) else Raised(run.result.error))
  {
    match o
    case Check => Session([CheckAvailable()], Returned(ReturnInt(0)))
    case ParseError(msg) => Session([], UsageError(msg))
    case CallUrl(r, f, rev) => Finish(UrlRun(host, r, f, rev), (url: string) => ReturnStr(url))
    case CallSnapshot(r, d, rev, t, c, allow, ignore) =>
      Finish(SnapshotRun(host, r, d, rev, t, c, allow, ignore), (_: SnapshotResult) => ReturnInt(0))
    case CallSingle(r, f, d, rev, t, c) =>
      Finish(SingleFileRun(host, r, f, rev, t, c, None), (_: FileResult) => ReturnInt(0))
  }

  /** main(), statement by statement: it overwrites the token and the cache
      directory in place, then tests the mode flags in order. */
  method RunMain(args: Args, env: Env, host: Host) returns (events: seq<Event>, term: Termination)
    ensures Session(events, term) == Execute(Dispatch(args, env), host)
  {
    var a := args;
    if a.check {
      events := [CheckAvailable()];
      term := Returned(ReturnInt(0));
      return;
    }
    if !Truthy(a.repoId) {
      events, term := [], UsageError(MSG_REPO_ID);
      return;
    }
    if !Truthy(a.token) {
      a := a.(token := env.hfToken);
    }
    if !Truthy(a.cacheDir) {
      a := a.(cacheDir := Or(env.hfHubCache, env.huggingfaceHubCache));
    }
    var revision := a.revision.GetOr(DEFAULT_REVISION);
    if a.urlOnly {
      if !Truthy(a.filename) {
        events, term := [], UsageError(MSG_URL_FILENAME);
        return;
      }
      assert Dispatch(args, env) == CallUrl(a.repoId.value, a.filename.value, revision);
      var url;
      events, url := GetFileUrl(host, a.repoId.value, a.filename.value, revision);
      term := if url.Success? then Returned(ReturnStr(url.value)) else Raised(url.error);
      return;
    }
    if a.snapshot {
      var allowPatterns := SplitPatterns(a.allowPatterns);
      var ignorePatterns := SplitPatterns(a.ignorePatterns);
      assert Dispatch(args, env) == CallSnapshot(a.repoId.value, a.dest, revision, a.token, a.cacheDir,
                                                 allowPatterns, ignorePatterns);
      var result;
      events, result := DownloadSnapshot(host, a.repoId.value, a.dest, revision, a.token, a.cacheDir,
                                         allowPatterns, ignorePatterns);
      term := if result.Success? then Returned(ReturnInt(0)) else Raised(result.error);
      return;
    }
    if !Truthy(a.filename) {
      events, term := [], UsageError(MSG_FILENAME);
      return;
    }
    assert Dispatch(args, env) == CallSingle(a.repoId.value, a.filename.value, a.dest, revision,
                                             a.token, a.cacheDir);
    var result;
    events, result := DownloadSingleFile(host, a.repoId.value, a.filename.value, a.dest, revision,
                                         a.token, a.cacheDir, None);
    term := if result.Success? then Returned(ReturnInt(0)) else Raised(result.error);
  }

  // ---------------------------------------------------------------------------
  // Properties of an invocation

  predicate HasError(evs: seq<Event>) {
    exists i :: 0 <= i < |evs| && evs[i].kind == "error"
  }

  /** `--check` sends one "complete" `{available: true, version: null}` and
      exits 0 whatever the other flags, the environment and the host. */
  lemma CheckAlwaysSucceeds(a: Args, e: Env, host: Host)
    requires a.check
    ensures var s := Execute(Dispatch(a, e), host);
      && s.events == [CheckAvailable()]
      && ExitCode(s.term) == 0
  {
  }

  /** Every invocation: a parser error prints no event; anything else prints a
      well-formed stream whose last event is "error" exactly when an exception
      escapes main, and that event carries the exception's message and class
      name; the URL lookup prints no "start". */
  lemma {:induction false} SessionShape(a: Args, e: Env, host: Host)
    ensures var o := Dispatch(a, e);
      var s := Execute(o, host);
      && (s.events == [] <==> o.ParseError?)
      && (s.term.UsageError? <==> o.ParseError?)
      && (s.events != [] ==> WellFormedStream(s.events) && TerminalCount(s.events) == 1)
      && (s.term.Raised? <==> s.events != [] && s.events[|s.events| - 1].kind == "error")
      && (s.term.Raised? ==> s.events[|s.events| - 1] == ErrorFor(s.term.e))
      && (HasError(s.events) <==> s.term.Raised?)
      && (o.CallUrl? ==> forall i :: 0 <= i < |s.events| ==> s.events[i].kind != "start")
      && (s.term.Raised? || s.term.UsageError? ==> ExitCode(s.term) != 0)
  {
    var o := Dispatch(a, e);
    var s := Execute(o, host);
    if s.events != [] {
      WellFormedHasOneTerminal(s.events);
      var last := |s.events| - 1;
      if HasError(s.events) {
        var i :| 0 <= i < |s.events| && s.events[i].kind == "error";
        assert IsTerminal(s.events[i]);
        assert i == last;
      }
      if s.term.Raised? {
        assert s.events[last].kind == "error";
      }
    }
  }

  /** In single-file mode `--dest` is accepted and ignored: the library call
      never receives `local_dir` (nor `local_dir_use_symlinks`), and changing
      `--dest` changes nothing in the session. */
  lemma SingleFileIgnoresDest(a: Args, e: Env, host: Host, d: Option<string>)
    requires Dispatch(a, e).CallSingle?
    ensures var o := Dispatch(a, e);
      var kw := SingleKwargs(o.repoId, o.filename, o.revision, o.token, o.cacheDir, None);
      "local_dir" !in kw && "local_dir_use_symlinks" !in kw
    ensures Dispatch(a.(dest := d), e).CallSingle?
    ensures Execute(Dispatch(a.(dest := d), e), host) == Execute(Dispatch(a, e), host)
  {
  }

  /** In snapshot mode `--dest` does matter: it reaches the library call as
      `local_dir` exactly when it is truthy. */
  lemma SnapshotUsesDest(a: Args, e: Env)
    requires Dispatch(a, e).CallSnapshot?
    ensures var o := Dispatch(a, e);
      var kw := SnapshotKwargs(o.repoId, o.dest, o.revision, o.token, o.cacheDir, o.allowPatterns, o.ignorePatterns);
      && ("local_dir" in kw <==> Truthy(a.dest))
      && ("allow_patterns" in kw <==> Truthy(a.allowPatterns))
      && ("ignore_patterns" in kw <==> Truthy(a.ignorePatterns))
      && ("token" in kw <==> Truthy(a.token) || Truthy(e.hfToken))
  {
  }

  // ---------------------------------------------------------------------------
  // The URL-only exit status

  /** As written, a successful `--url-only` lookup prints "complete" and no
      error, yet main returns the URL string and the process exits with 1. */
  lemma UrlSuccessExitsOne(a: Args, e: Env, host: Host)
    requires Dispatch(a, e).CallUrl?
    requires var o := Dispatch(a, e); host.hfHubUrl(o.repoId, o.filename, o.revision).Success?
    ensures var s := Execute(Dispatch(a, e), host);
      !HasError(s.events) && s.events[0].kind == "complete" && ExitCode(s.term) == 1
  {
  }

  /** The same input, written out: `--repo-id gpt2 --filename config.json
      --url-only` with a lookup that succeeds. */
  lemma UrlSuccessExitsOneExample(e: Env, host: Host)
    requires host.hfHubUrl("gpt2", "config.json", "main").Success?
    ensures var a := Args(Some("gpt2"), Some("config.json"), None, None, None, None,
                          false, None, None, true, false);
      ExitCode(Execute(Dispatch(a, e), host).term) == 1
  {
  }

  /** With `get_file_url(...)` followed by `return 0`, as the other modes do. */
  function ExecuteFixed(o: Outcome, host: Host): (r: Session)
    ensures r.events == Execute(o, host).events
    ensures o.CallUrl? && Execute(o, host).term.Returned? ==> r.term == Returned(ReturnInt(0))
    ensures !(o.CallUrl? && Execute(o, host).term.Returned?) ==> r.term == Execute(o, host).term
    ensures r.term.Returned? ==> r.term.value.ReturnInt?
  {
    var s := Execute(o, host);
    if o.CallUrl? && s.term.Returned? then s.(term := Returned(ReturnInt(0))) else s
  }

  /** With the fix, the exit status is 0 exactly when the flags parse and no
      "error" event is sent; the events are unchanged. */
  lemma FixedExitZeroIffNoError(a: Args, e: Env, host: Host)
    ensures var o := Dispatch(a, e);
      var s := ExecuteFixed(o, host);
      && s.events == Execute(o, host).events
      && (ExitCode(s.term) == 0 <==> !o.ParseError? && !HasError(s.events))
  {
  }

  // ---------------------------------------------------------------------------
  // `--dest` in single-file mode

  /** As written, `--repo-id gpt2 --filename config.json --dest ./models`
      downloads without `local_dir`: the destination never reaches the library. */
  lemma DestIgnoredExample(e: Env, host: Host)
    ensures var a := Args(Some("gpt2"), Some("config.json"), Some("./models"), None, None, None,
                          false, None, None, false, false);
      var o := Dispatch(a, e);
      && o.CallSingle?
      && "local_dir" !in SingleKwargs(o.repoId, o.filename, o.revision, o.token, o.cacheDir, None)
  {
  }

  /** With `local_dir=args.dest` passed to download_single_file, as the
      docstring and the usage examples describe. */
  function ExecuteDestFixed(o: Outcome, host: Host): (s: Session)
    ensures !o.CallSingle? ==> s == Execute(o, host)
    ensures o.CallSingle? ==>
      var run := SingleFileRun(host, o.repoId, o.filename, o.revision, o.token, o.cacheDir, o.dest);
      && s.events == run.events
      && s.term == (if run.result.Success? then Returned(ReturnInt(0)) else Raised(run.result.error))
  {
    match o
    case CallSingle(r, f, d, rev, t, c) =>
      Finish(SingleFileRun(host, r, f, rev, t, c, d), (_: FileResult) => ReturnInt(0))
    case _ => Execute(o, host)
  }

  /** With the fix, single-file mode downloads into `--dest` exactly when it is
      truthy, without symlinks, and the event stream keeps its shape. */
  lemma DestFixedReachesLibrary(a: Args, e: Env, host: Host)
    requires Dispatch(a, e).CallSingle?
    ensures var o := Dispatch(a, e);
      var kw := SingleKwargs(o.repoId, o.filename, o.revision, o.token, o.cacheDir, o.dest);
      && ("local_dir" in kw <==> Truthy(a.dest))
      && (Truthy(a.dest) ==> kw["local_dir"] == Str(a.dest.value) && kw["local_dir_use_symlinks"] == Bool(false))
    ensures var s := ExecuteDestFixed(Dispatch(a, e), host);
      && WellFormedStream(s.events) && |s.events| == 2
      && (s.term.Raised? <==> s.events[1].kind == "error")
  {
  }
}
