/** The keyword arguments the two download functions pass to the hub library.
    Each call has mandatory keys; every optional key is present exactly when
    its value is truthy. */
module Kwargs {
  import opened Wrappers
  import opened PyValues

  const SINGLE_KEYS: set<string> :=
    {"repo_id", "filename", "revision", "token", "cache_dir", "local_dir", "local_dir_use_symlinks"}

  const SNAPSHOT_KEYS: set<string> :=
    {"repo_id", "revision", "token", "cache_dir", "allow_patterns", "ignore_patterns",
     "local_dir", "local_dir_use_symlinks"}

  /** `d[key] = value` if `cond`, as the source writes `if x: kwargs[key] = x`. */
  function PutIf(d: Dict, cond: bool, key: string, v: Value): Dict {
    if cond then d[key := v] else d
  }

  /** The kwargs of `hf_hub_download` in download_single_file. */
  function SingleKwargs(repoId: string, filename: string, revision: string,
                        token: Option<string>, cacheDir: Option<string>,
                        localDir: Option<string>): (kw: Dict)
    ensures kw.Keys <= SINGLE_KEYS
    ensures "repo_id" in kw && kw["repo_id"] == Str(repoId)
    ensures "filename" in kw && kw["filename"] == Str(filename)
    ensures "revision" in kw && kw["revision"] == Str(revision)
    ensures "token" in kw <==> Truthy(token)
    ensures "token" in kw ==> kw["token"] == Str(token.value)
    ensures "cache_dir" in kw <==> Truthy(cacheDir)
    ensures "cache_dir" in kw ==> kw["cache_dir"] == Str(cacheDir.value)
    ensures "local_dir" in kw <==> Truthy(localDir)
    ensures "local_dir" in kw ==> kw["local_dir"] == Str(localDir.value)
    ensures "local_dir_use_symlinks" in kw <==> "local_dir" in kw
    ensures "local_dir_use_symlinks" in kw ==> kw["local_dir_use_symlinks"] == Bool(false)
  {
    var kw := map["repo_id" := Str(repoId), "filename" := Str(filename), "revision" := Str(revision)];
    var kw := PutIf(kw, Truthy(token), "token", Str(token.GetOr("")));
    var kw := PutIf(kw, Truthy(cacheDir), "cache_dir", Str(cacheDir.GetOr("")));
    var kw := PutIf(kw, Truthy(localDir), "local_dir", Str(localDir.GetOr("")));
    PutIf(kw, Truthy(localDir), "local_dir_use_symlinks", Bool(false))
  }

  /** The kwargs of `snapshot_download` in download_snapshot; `dest` becomes
      `local_dir`. */
  function SnapshotKwargs(repoId: string, dest: Option<string>, revision: string,
                          token: Option<string>, cacheDir: Option<string>,
                          allowPatterns: Option<seq<string>>,
                          ignorePatterns: Option<seq<string>>): (kw: Dict)
    ensures kw.Keys <= SNAPSHOT_KEYS
    ensures "repo_id" in kw && kw["repo_id"] == Str(repoId)
    ensures "revision" in kw && kw["revision"] == Str(revision)
    ensures "filename" !in kw
    ensures "token" in kw <==> Truthy(token)
    ensures "token" in kw ==> kw["token"] == Str(token.value)
    ensures "cache_dir" in kw <==> Truthy(cacheDir)
    ensures "cache_dir" in kw ==> kw["cache_dir"] == Str(cacheDir.value)
    ensures "allow_patterns" in kw <==> TruthyList(allowPatterns)
    ensures "allow_patterns" in kw ==> kw["allow_patterns"] == StrList(allowPatterns.value)
    ensures "ignore_patterns" in kw <==> TruthyList(ignorePatterns)
    ensures "ignore_patterns" in kw ==> kw["ignore_patterns"] == StrList(ignorePatterns.value)
    ensures "local_dir" in kw <==> Truthy(dest)
    ensures "local_dir" in kw ==> kw["local_dir"] == Str(dest.value)
    ensures "local_dir_use_symlinks" in kw <==> "local_dir" in kw
    ensures "local_dir_use_symlinks" in kw ==> kw["local_dir_use_symlinks"] == Bool(false)
  {
    var kw := map["repo_id" := Str(repoId), "revision" := Str(revision)];
    var kw := PutIf(kw, Truthy(token), "token", Str(token.GetOr("")));
    var kw := PutIf(kw, Truthy(cacheDir), "cache_dir", Str(cacheDir.GetOr("")));
    var kw := PutIf(kw, TruthyList(allowPatterns), "allow_patterns", StrList(allowPatterns.GetOr([])));
    var kw := PutIf(kw, TruthyList(ignorePatterns), "ignore_patterns", StrList(ignorePatterns.GetOr([])));
    var kw := PutIf(kw, Truthy(dest), "local_dir", Str(dest.GetOr("")));
    PutIf(kw, Truthy(dest), "local_dir_use_symlinks", Bool(false))
  }

  /** download_single_file's kwargs, inserted one condition at a time. */
  method BuildSingleKwargs(repoId: string, filename: string, revision: string,
                           token: Option<string>, cacheDir: Option<string>,
                           localDir: Option<string>) returns (kw: Dict)
    ensures kw == SingleKwargs(repoId, filename, revision, token, cacheDir, localDir)
  {
    kw := map["repo_id" := Str(repoId), "filename" := Str(filename), "revision" := Str(revision)];
    if Truthy(token) {
      kw := kw["token" := Str(token.value)];
    }
    if Truthy(cacheDir) {
      kw := kw["cache_dir" := Str(cacheDir.value)];
    }
    if Truthy(localDir) {
      kw := kw["local_dir" := Str(localDir.value)];
      kw := kw["local_dir_use_symlinks" := Bool(false)];
    }
  }

  /** download_snapshot's kwargs, inserted one condition at a time. */
  method BuildSnapshotKwargs(repoId: string, dest: Option<string>, revision: string,
                             token: Option<string>, cacheDir: Option<string>,
                             allowPatterns: Option<seq<string>>,
                             ignorePatterns: Option<seq<string>>) returns (kw: Dict)
    ensures kw == SnapshotKwargs(repoId, dest, revision, token, cacheDir, allowPatterns, ignorePatterns)
  {
    kw := map["repo_id" := Str(repoId), "revision" := Str(revision)];
    ghost var k0 := kw;
    if Truthy(token) {
      kw := kw["token" := Str(token.value)];
    }
    assert kw == PutIf(k0, Truthy(token), "token", Str(token.GetOr("")));
    ghost var k1 := kw;
    if Truthy(cacheDir) {
      kw := kw["cache_dir" := Str(cacheDir.value)];
    }
    assert kw == PutIf(k1, Truthy(cacheDir), "cache_dir", Str(cacheDir.GetOr("")));
    ghost var k2 := kw;
    if TruthyList(allowPatterns) {
      kw := kw["allow_patterns" := StrList(allowPatterns.value)];
    }
    assert kw == PutIf(k2, TruthyList(allowPatterns), "allow_patterns", StrList(allowPatterns.GetOr([])));
    ghost var k3 := kw;
    if TruthyList(ignorePatterns) {
      kw := kw["ignore_patterns" := StrList(ignorePatterns.value)];
    }
    assert kw == PutIf(k3, TruthyList(ignorePatterns), "ignore_patterns", StrList(ignorePatterns.GetOr([])));
    ghost var k4 := kw;
    if Truthy(dest) {
      kw := kw["local_dir" := Str(dest.value)];
      kw := kw["local_dir_use_symlinks" := Bool(false)];
    }
    assert kw == PutIf(PutIf(k4, Truthy(dest), "local_dir", Str(dest.GetOr(""))),
                       Truthy(dest), "local_dir_use_symlinks", Bool(false));
  }
}
