/** The four operations the adapter offers: single-file download, snapshot
    download, URL lookup and the availability check. The hub library and the
    file system are supplied as a Host record of functions; the adapter only
    builds their arguments, inspects what they return and reports events. */
module Downloads {
  import opened Wrappers
  import opened PyValues
  import opened Events
  import opened Kwargs

  /** One file that `os.walk` lists: `os.path.exists`, `os.path.islink` and
      `os.path.getsize` of its path. */
  datatype Entry = Entry(present: bool, isLink: bool, size: nat)

  /** The collaborators outside the adapter. `walk(p)` lists the `files` of
      each directory `os.walk(p)` visits, in visiting order. */
  datatype Host = Host(
    hfHubDownload: Dict -> Result<string, Exn>,
    snapshotDownload: Dict -> Result<string, Exn>,
    hfHubUrl: (string, string, string) -> Result<string, Exn>,
    pathExists: string -> bool,
    getSize: string -> nat,
    walk: string -> seq<seq<Entry>>)

  /** `huggingface_hub` imported successfully: otherwise the process exits at
      import time and no operation runs. */
  const HF_AVAILABLE: bool := true

  /** The events an operation sends and what it returns or raises. */
  datatype Run<T> = Run(events: seq<Event>, result: Result<T, Exn>)

  datatype FileResult = FileResult(filePath: string, fileSize: nat)
  datatype SnapshotResult = SnapshotResult(snapshotPath: string, fileCount: nat, totalSize: nat)

  // ---------------------------------------------------------------------------
  // Snapshot aggregation

  /** A listed file is counted when it exists and is not a symbolic link. */
  predicate Counted(e: Entry) {
    e.present && !e.isLink
  }

  /** The directories' file lists, concatenated in walking order. */
  function Flatten(dirs: seq<seq<Entry>>): seq<Entry> {
    if dirs == [] then [] else Flatten(dirs[..|dirs| - 1]) + dirs[|dirs| - 1]
  }

  /** The counted entries, in order. */
  function CountedEntries(es: seq<Entry>): (r: seq<Entry>)
    ensures |r| <= |es|
    ensures forall k :: 0 <= k < |r| ==> Counted(r[k])
  {
    if es == [] then []
    else CountedEntries(es[..|es| - 1]) + if Counted(es[|es| - 1]) then [es[|es| - 1]] else []
  }

  /** The counted entries are exactly the counted files of the input, each as
      often as it occurs there. */
  lemma {:induction false} CountedEntriesFilter(es: seq<Entry>)
    ensures forall x :: multiset(CountedEntries(es))[x] == if Counted(x) then multiset(es)[x] else 0
    decreases |es|
  {
    if es != [] {
      var front := es[..|es| - 1];
      assert es == front + [es[|es| - 1]];
      CountedEntriesFilter(front);
    }
  }

  function SumSizes(es: seq<Entry>): nat {
    if es == [] then 0 else SumSizes(es[..|es| - 1]) + es[|es| - 1].size
  }

  lemma {:induction false} CountedAppend(a: seq<Entry>, b: seq<Entry>)
    ensures CountedEntries(a + b) == CountedEntries(a) + CountedEntries(b)
    decreases |b|
  {
    if b != [] {
      var b' := b[..|b| - 1];
      assert (a + b)[..|a + b| - 1] == a + b';
      assert (a + b)[|a + b| - 1] == b[|b| - 1];
      CountedAppend(a, b');
    } else {
      assert a + b == a;
    }
  }

  lemma {:induction false} SumAppend(a: seq<Entry>, b: seq<Entry>)
    ensures SumSizes(a + b) == SumSizes(a) + SumSizes(b)
    decreases |b|
  {
    if b != [] {
      var b' := b[..|b| - 1];
      assert (a + b)[..|a + b| - 1] == a + b';
      assert (a + b)[|a + b| - 1] == b[|b| - 1];
      SumAppend(a, b');
    } else {
      assert a + b == a;
    }
  }

  /** The snapshot's (file_count, total_size): counted files of the walk and
      the sum of their sizes, or (0, 0) when the snapshot path does not exist. */
  datatype Totals = Totals(fileCount: nat, totalSize: nat)

  function SnapshotTotals(host: Host, path: string): (r: Totals)
    ensures !host.pathExists(path) ==> r == Totals(0, 0)
    ensures r.fileCount <= |Flatten(host.walk(path))|
    ensures r.fileCount == 0 ==> r.totalSize == 0
  {
    if host.pathExists(path) then
      var counted := CountedEntries(Flatten(host.walk(path)));
      Totals(|counted|, SumSizes(counted))
    else Totals(0, 0)
  }

  /** The nested walk loop of download_snapshot. */
  method CountSnapshot(host: Host, snapshotPath: string) returns (fileCount: nat, totalSize: nat)
    ensures Totals(fileCount, totalSize) == SnapshotTotals(host, snapshotPath)
  {
    totalSize, fileCount := 0, 0;
    if host.pathExists(snapshotPath) {
      var dirs := host.walk(snapshotPath);
      var i := 0;
      while i < |dirs|
        invariant 0 <= i <= |dirs|
        invariant fileCount == |CountedEntries(Flatten(dirs[..i]))|
        invariant totalSize == SumSizes(CountedEntries(Flatten(dirs[..i])))
      {
        var files := dirs[i];
        ghost var done := CountedEntries(Flatten(dirs[..i]));
        var j := 0;
        while j < |files|
          invariant 0 <= j <= |files|
          invariant fileCount == |done| + |CountedEntries(files[..j])|
          invariant totalSize == SumSizes(done) + SumSizes(CountedEntries(files[..j]))
        {
          var f := files[j];
          assert files[..j + 1][..j] == files[..j] && files[..j + 1][j] == f;
          if f.present && !f.isLink {
            assert CountedEntries(files[..j + 1]) == CountedEntries(files[..j]) + [f];
            assert SumSizes([f]) == f.size by { assert [f][..0] == []; }
            SumAppend(CountedEntries(files[..j]), [f]);
            totalSize := totalSize + f.size;
            fileCount := fileCount + 1;
          } else {
            assert CountedEntries(files[..j + 1]) == CountedEntries(files[..j]);
          }
          j := j + 1;
        }
        assert files[..j] == files;
        assert dirs[..i + 1][..i] == dirs[..i];
        CountedAppend(Flatten(dirs[..i]), files);
        SumAppend(done, CountedEntries(files));
        i := i + 1;
      }
      assert dirs[..i] == dirs;
    }
  }

  /** Every counted file adds its size: the total is at least the size of
      any counted file, and the count is positive. (That an empty count
      gives a zero total is an ensures of `SnapshotTotals`.) */
  lemma {:induction false} TotalCoversEachFile(es: seq<Entry>, k: nat)
    requires k < |es| && Counted(es[k])
    ensures SumSizes(CountedEntries(es)) >= es[k].size
    ensures |CountedEntries(es)| >= 1
    decreases |es|
  {
    var front := es[..|es| - 1];
    if k == |es| - 1 {
      SumAppend(CountedEntries(front), [es[k]]);
    } else {
      assert front[k] == es[k];
      TotalCoversEachFile(front, k);
      SumAppend(CountedEntries(front), CountedEntries(es)[|CountedEntries(front)|..]);
      assert CountedEntries(es) == CountedEntries(front) + CountedEntries(es)[|CountedEntries(front)|..];
    }
  }

  // ---------------------------------------------------------------------------
  // The operations

  function StartSingle(repoId: string, filename: string, revision: string): Event {
    SendProgress("start", Some(map["repo_id" := Str(repoId), "filename" := Str(filename),
                                   "revision" := Str(revision)]))
  }

  function StartSnapshot(repoId: string, revision: string): Event {
    SendProgress("start", Some(map["repo_id" := Str(repoId), "revision" := Str(revision),
                                   "type" := Str("snapshot")]))
  }

  /** download_single_file: "start", the library call, then "complete" with the
      path and its size (0 when the path does not exist), or one "error" and the
      exception re-raised. */
  function SingleFileRun(host: Host, repoId: string, filename: string, revision: string,
                         token: Option<string>, cacheDir: Option<string>,
                         localDir: Option<string>): (r: Run<FileResult>)
    ensures |r.events| == 2 && r.events[0] == StartSingle(repoId, filename, revision)
    ensures WellFormedStream(r.events)
    ensures var call := host.hfHubDownload(SingleKwargs(repoId, filename, revision, token, cacheDir, localDir));
      && (r.result.Failure? <==> call.Failure?)
      && (call.Failure? ==> r.result.error == call.error && r.events[1] == ErrorFor(call.error))
      && (call.Success? ==>
            && r.result.value.filePath == call.value
            && r.result.value.fileSize == (if host.pathExists(call.value) then host.getSize(call.value) else 0)
            && r.events[1] == SendComplete(map["file_path" := Str(call.value),
                                               "file_size" := Int(r.result.value.fileSize),
                                               "repo_id" := Str(repoId), "filename" := Str(filename)]))
  {
    var start := StartSingle(repoId, filename, revision);
    match host.hfHubDownload(SingleKwargs(repoId, filename, revision, token, cacheDir, localDir))
    case Failure(e) => Run([start, ErrorFor(e)], Failure(e))
    case Success(path) =>
      var size := if host.pathExists(path) then host.getSize(path) else 0;
      Run([start, SendComplete(map["file_path" := Str(path), "file_size" := Int(size),
                                   "repo_id" := Str(repoId), "filename" := Str(filename)])],
          Success(FileResult(path, size)))
  }

  /** download_snapshot: "start", the library call, the walk, then "complete"
      with the aggregates, or one "error" and the exception re-raised. */
  function SnapshotRun(host: Host, repoId: string, dest: Option<string>, revision: string,
                       token: Option<string>, cacheDir: Option<string>,
                       allowPatterns: Option<seq<string>>,
                       ignorePatterns: Option<seq<string>>): (r: Run<SnapshotResult>)
    ensures |r.events| == 2 && r.events[0] == StartSnapshot(repoId, revision)
    ensures WellFormedStream(r.events)
    ensures var call := host.snapshotDownload(
              SnapshotKwargs(repoId, dest, revision, token, cacheDir, allowPatterns, ignorePatterns));
      && (r.result.Failure? <==> call.Failure?)
      && (call.Failure? ==> r.result.error == call.error && r.events[1] == ErrorFor(call.error))
      && (call.Success? ==>
            && r.result.value.snapshotPath == call.value
            && Totals(r.result.value.fileCount, r.result.value.totalSize) == SnapshotTotals(host, call.value)
            && r.events[1] == SendComplete(map["snapshot_path" := Str(call.value),
                                               "file_count" := Int(r.result.value.fileCount),
                                               "total_size" := Int(r.result.value.totalSize),
                                               "repo_id" := Str(repoId)]))
  {
    var start := StartSnapshot(repoId, revision);
    match host.snapshotDownload(SnapshotKwargs(repoId, dest, revision, token, cacheDir, allowPatterns, ignorePatterns))
    case Failure(e) => Run([start, ErrorFor(e)], Failure(e))
    case Success(path) =>
      var totals := SnapshotTotals(host, path);
      Run([start, SendComplete(map["snapshot_path" := Str(path), "file_count" := Int(totals.fileCount),
                                   "total_size" := Int(totals.totalSize), "repo_id" := Str(repoId)])],
          Success(SnapshotResult(path, totals.fileCount, totals.totalSize)))
  }

  /** get_file_url: no "start"; one "complete" with the URL, or one "error" and
      the exception re-raised. */
  function UrlRun(host: Host, repoId: string, filename: string, revision: string): (r: Run<string>)
    ensures |r.events| == 1 && WellFormedStream(r.events)
    ensures forall i :: 0 <= i < |r.events| ==> r.events[i].kind != "start"
    ensures r.result == host.hfHubUrl(repoId, filename, revision)
    ensures r.result.Failure? ==> r.events[0] == ErrorFor(r.result.error)
    ensures r.result.Success? ==>
      r.events[0] == SendComplete(map["url" := Str(r.result.value), "repo_id" := Str(repoId),
                                      "filename" := Str(filename)])
  {
    match host.hfHubUrl(repoId, filename, revision)
    case Failure(e) => Run([ErrorFor(e)], Failure(e))
    case Success(url) =>
      Run([SendComplete(map["url" := Str(url), "repo_id" := Str(repoId), "filename" := Str(filename)])],
          Success(url))
  }

  /** check_available: one "complete" event `{available, version: null}`. */
  function CheckAvailable(): (ev: Event)
    ensures ev.kind == "complete" && ev.data.Keys == {"available", "version"}
    ensures ev.data["available"] == Bool(true) && ev.data["version"] == Null
  {
    SendComplete(map["available" := Bool(HF_AVAILABLE), "version" := Null])
  }

  method DownloadSingleFile(host: Host, repoId: string, filename: string, dest: Option<string>,
                            revision: string, token: Option<string>, cacheDir: Option<string>,
                            localDir: Option<string>)
    returns (events: seq<Event>, result: Result<FileResult, Exn>)
    ensures Run(events, result) == SingleFileRun(host, repoId, filename, revision, token, cacheDir, localDir)
  {
    events := [StartSingle(repoId, filename, revision)];
    var kwargs := BuildSingleKwargs(repoId, filename, revision, token, cacheDir, localDir);
    var call := host.hfHubDownload(kwargs);
    if call.Failure? {
      events := events + [SendError(call.error.message, Some(call.error.className))];
      result := Failure(call.error);
      return;
    }
    var filePath := call.value;
    var fileSize := if host.pathExists(filePath) then host.getSize(filePath) else 0;
    events := events + [SendComplete(map["file_path" := Str(filePath), "file_size" := Int(fileSize),
                                         "repo_id" := Str(repoId), "filename" := Str(filename)])];
    result := Success(FileResult(filePath, fileSize));
  }

  method DownloadSnapshot(host: Host, repoId: string, dest: Option<string>, revision: string,
                          token: Option<string>, cacheDir: Option<string>,
                          allowPatterns: Option<seq<string>>, ignorePatterns: Option<seq<string>>)
    returns (events: seq<Event>, result: Result<SnapshotResult, Exn>)
    ensures Run(events, result) ==
      SnapshotRun(host, repoId, dest, revision, token, cacheDir, allowPatterns, ignorePatterns)
  {
    events := [StartSnapshot(repoId, revision)];
    var kwargs := BuildSnapshotKwargs(repoId, dest, revision, token, cacheDir, allowPatterns, ignorePatterns);
    var call := host.snapshotDownload(kwargs);
    if call.Failure? {
      events := events + [SendError(call.error.message, Some(call.error.className))];
      result := Failure(call.error);
      return;
    }
    var snapshotPath := call.value;
    var fileCount, totalSize := CountSnapshot(host, snapshotPath);
    events := events + [SendComplete(map["snapshot_path" := Str(snapshotPath),
                                         "file_count" := Int(fileCount),
                                         "total_size" := Int(totalSize),
                                         "repo_id" := Str(repoId)])];
    result := Success(SnapshotResult(snapshotPath, fileCount, totalSize));
  }

  method GetFileUrl(host: Host, repoId: string, filename: string, revision: string)
    returns (events: seq<Event>, result: Result<string, Exn>)
    ensures Run(events, result) == UrlRun(host, repoId, filename, revision)
  {
    result := host.hfHubUrl(repoId, filename, revision);
    if result.Failure? {
      events := [SendError(result.error.message, Some(result.error.className))];
    } else {
      events := [SendComplete(map["url" := Str(result.value), "repo_id" := Str(repoId),
                                  "filename" := Str(filename)])];
    }
  }
}
