# hf_download adapter: a Dafny model

`backend/scripts/hf_download.py` is a command-line adapter. It exposes two
functions of the `huggingface_hub` library to a calling process: single-file
download and whole-repository snapshot download. It also offers a URL lookup
and an availability check. It reports what happens as JSON-line events
(`start`, `progress`, `complete`, `error`) on standard output.

This project models the adapter's own decision logic:

- **Dispatch.** The flags select exactly one mode, in a fixed order:
  `--check`, then `--url-only`, then `--snapshot`, then single-file. Each
  mode has its own argument errors.
- **Parameter resolution.** The token falls back to `HF_TOKEN`. The cache
  directory falls back to `HF_HUB_CACHE`, then to `HUGGINGFACE_HUB_CACHE`.
  Both fallbacks use Python truthiness, so an empty string counts as absent.
  `--revision` defaults to `main`.
- **Pattern splitting.** `--allow-patterns` and `--ignore-patterns` are
  split on commas.
- **Keyword arguments.** The dictionaries passed to `hf_hub_download` and
  `snapshot_download` are built one key at a time.
- **Event streams.** Each operation emits its events and either returns or
  raises. The exit status follows.
- **Snapshot aggregation.** A snapshot's file count and total size cover
  the non-symlink files found by the walk.
- **`ProgressReporter`.** It throttles `progress` events to one per
  reporting interval.

Modules (files):

- `Wrappers` (`wrappers.dfy`): Option and Result.
- `PyValues` (`pyvalues.dfy`): dictionary and JSON values, truthiness,
  and Python's `or`.
- `Events` (`events.dfy`): `send_progress`, `send_error`, `send_complete`
  and the shape of an event stream.
- `Patterns` (`patterns.dfy`): `str.split(",")` and `",".join`.
- `Kwargs` (`kwargs.dfy`): the two keyword-argument dictionaries. Each is a
  specification function plus an in-place building method.
- `Progress` (`progress.dfy`): the `ProgressReporter` class, its one-call
  step function and replays of call sequences.
- `Downloads` (`downloads.dfy`): the four operations and the walk loop.
  The library and the file system come in as a `Host` record of functions.
- `Cli` (`cli.dfy`): the parsed flags, the environment, `main`'s decision
  (`Dispatch`), its execution (`Execute`, and `RunMain`, which mirrors the
  source statement by statement) and the exit status.

Some things outside the adapter are supplied as parameters:

- **Library and file system.** `hf_hub_download`, `snapshot_download`,
  `hf_hub_url`, `os.path.exists`, `os.path.getsize` and `os.walk` are
  fields of `Host`. The library calls return a success or an exception.
  The walk gives, for each directory visited, its files as
  `(exists, islink, size)` records.
- **Time.** The reporter takes the current time as an integer number of
  milliseconds from its caller. The 0.5 s interval becomes 500.
- **Output.** Printing is not modelled. An operation returns the sequence
  of events it would print.

Where the informal description and the code disagree, the model follows the
code:

- A successful `--url-only` run exits with status 1, not 0 (see Findings).
- In single-file mode `--dest` is ignored, although the usage text and the
  examples advertise it. `download_single_file` takes `dest` but never uses
  it, and `main` passes no `local_dir` (see Findings).
- `--check` always reports `available: true`. When the import fails, the
  process exits before `main` runs.

## Model

| member | source | states |
|---|---|---|
| `PyValues.Or` | backend/scripts/hf_download.py:307 | `x or y` returns `x` if `x` is truthy, else `y`. The result is truthy iff either operand is. |
| `PyValues.OrChainFirstTruthy` | backend/scripts/hf_download.py:307 | A left-to-right `or` chain returns its first truthy operand. If no operand is truthy, it returns the last one. It is falsy only when every operand is. |
| `Events.SendProgress` | backend/scripts/hf_download.py:37-43 | The event carries the given type. Its payload is `data`, or `{}` when `data` is None or empty. |
| `Events.SendError` | backend/scripts/hf_download.py:46-55 | An `error` event with exactly the keys `message` and `code`. `code` is null when no code is given. |
| `Events.SendComplete` | backend/scripts/hf_download.py:58-64 | A `complete` event whose payload is the result dict. |
| `Events.ErrorFor` | backend/scripts/hf_download.py:151-152 | A caught exception becomes an `error` event with `message = str(e)` and `code` = the exception's class name. |
| `Events.WellFormedHasOneTerminal` | backend/scripts/hf_download.py:111-153 | Restates the stream shape that `Cli.SessionShape` establishes (at most one `start`, first, then `progress` events, then one terminal event last) as a count: exactly one `complete` or `error` event. |
| `Patterns.Split` | backend/scripts/hf_download.py:317-318 | `split(sep)` returns at least one piece, and no piece contains the separator. |
| `Patterns.SplitLength` | backend/scripts/hf_download.py:317 | The number of pieces is the number of separators plus one. |
| `Patterns.JoinSplit` | backend/scripts/hf_download.py:317 | Joining the pieces with `","` gives back the original string. |
| `Patterns.SplitJoin` | backend/scripts/hf_download.py:317 | Splitting a join of comma-free pieces gives back the same pieces. |
| `Patterns.SplitPatterns` | backend/scripts/hf_download.py:317-318 | The result is None iff the pattern string is absent or empty. Otherwise it is a non-empty list of comma-free pieces, one more than the commas, that rejoins to the string. |
| `Patterns.SplitExamples` | backend/scripts/hf_download.py:317-318 | `"a,b,c"` gives `["a","b","c"]`. `"a,,b"` keeps its empty piece in order. `""` and None give None. |
| `Kwargs.SingleKwargs` | backend/scripts/hf_download.py:119-131 | `repo_id`, `filename` and `revision` are always present. `token`, `cache_dir` and `local_dir` are present iff truthy, each with its value. `local_dir_use_symlinks=False` is present iff `local_dir` is. No other key appears. |
| `Kwargs.SnapshotKwargs` | backend/scripts/hf_download.py:181-196 | `repo_id` and `revision` are always present and `filename` never is. `token`, `cache_dir`, `allow_patterns` and `ignore_patterns` are present iff truthy. `local_dir` is present iff `dest` is truthy. `local_dir_use_symlinks=False` is present iff `local_dir` is. No other key appears. |
| `Kwargs.BuildSingleKwargs` | backend/scripts/hf_download.py:119-131 | Inserting one conditional key at a time yields exactly `SingleKwargs`. |
| `Kwargs.BuildSnapshotKwargs` | backend/scripts/hf_download.py:181-196 | Inserting one conditional key at a time yields exactly `SnapshotKwargs`. |
| `Progress.Percentage` | backend/scripts/hf_download.py:90 | When `total <= 0` the percentage is the integer 0 and no division happens. Otherwise percentage × total equals current × 100. |
| `Progress.ProgressEvent` | backend/scripts/hf_download.py:87-91 | A `progress` event with exactly `current`, `total` and `percentage`. |
| `Progress.ReportStep` | backend/scripts/hf_download.py:76-92 | `total` and `current` are overwritten only by a given value. The step emits iff `now - last >= 500`. `last` becomes `now` only when it emits. The event reports the updated counts. |
| `Progress.EmissionsSpaced` | backend/scripts/hf_download.py:86-92 | Over any call sequence, the k-th emission comes at least (k+1) intervals after the initial `last`. Emissions i < j are at least (j−i) intervals apart. The final `last` is the time of the last emission. |
| `Progress.FreshReporterThrottles` | backend/scripts/hf_download.py:70-92 | From a fresh reporter, any two emissions are at least 500 ms apart. |
| `Progress.ProgressReporter.constructor` | backend/scripts/hf_download.py:70-74 | A new reporter starts with current, total and last all 0. |
| `Progress.ProgressReporter.Report` | backend/scripts/hf_download.py:76-92 | The new fields and the event sent are exactly those of `ReportStep` applied to the old fields. |
| `Downloads.CountedEntries` | backend/scripts/hf_download.py:208 | The selected entries all exist and are not symbolic links. There are never more of them than entries. |
| `Downloads.CountedEntriesFilter` | backend/scripts/hf_download.py:205-210 | Each existing non-link file is counted as often as it is listed. Nothing else is counted. |
| `Downloads.SnapshotTotals` | backend/scripts/hf_download.py:202-210 | A missing snapshot path gives a count and size of 0. The count never exceeds the number of walked files. No counted file means a total size of 0. |
| `Downloads.CountSnapshot` | backend/scripts/hf_download.py:202-210 | `file_count` is the number of existing non-link files in the walk, and `total_size` is the sum of their sizes. Both are 0 when the snapshot path does not exist. |
| `Downloads.TotalCoversEachFile` | backend/scripts/hf_download.py:209-210 | Every counted file adds to the count, and the total size is at least that file's size. |
| `Downloads.SingleFileRun` | backend/scripts/hf_download.py:111-153 | Exactly two events: `start` (repo id, filename, revision) and then the terminal event. The call fails iff the library call on `SingleKwargs` fails, and then the second event is the error event for that exception. On success the result and the `complete` event carry the returned path and its size, or 0 when the path does not exist. |
| `Downloads.SnapshotRun` | backend/scripts/hf_download.py:173-227 | Exactly two events: `start` (type `snapshot`) and then the terminal event. The call fails iff `snapshot_download` on `SnapshotKwargs` fails, and then the exception is reported once and re-raised. On success the count and size are the walk aggregates. |
| `Downloads.UrlRun` | backend/scripts/hf_download.py:230-242 | One event, never a `start`. It is `complete` with the URL when the lookup succeeds, else the error event, and the exception is re-raised. |
| `Downloads.CheckAvailable` | backend/scripts/hf_download.py:245-250 | One `complete` event `{available: true, version: null}`. |
| `Downloads.DownloadSingleFile` | backend/scripts/hf_download.py:95-153 | The events and the result equal `SingleFileRun`. `dest` has no influence. |
| `Downloads.DownloadSnapshot` | backend/scripts/hf_download.py:156-227 | The events and the result equal `SnapshotRun`. |
| `Downloads.GetFileUrl` | backend/scripts/hf_download.py:230-242 | The events and the result equal `UrlRun`. |
| `Cli.Revision` | backend/scripts/hf_download.py:282 | The revision is `main` when `--revision` is absent. A given value, even `""`, is kept. |
| `Cli.ResolveToken` | backend/scripts/hf_download.py:301-303 | The token is `--token` when truthy, else `HF_TOKEN`, which may be None. |
| `Cli.ResolveCacheDir` | backend/scripts/hf_download.py:305-307 | The cache directory is `--cache-dir` when truthy, else `HF_HUB_CACHE` when truthy, else `HUGGINGFACE_HUB_CACHE`. An empty `HF_HUB_CACHE` falls through. |
| `Cli.FallbacksAreOrChains` | backend/scripts/hf_download.py:301-307 | Both fallbacks equal `or` chains over the flag and the variables. The cache directory is truthy iff one of the three is. |
| `Cli.Dispatch` | backend/scripts/hf_download.py:293-341 | `--check` wins before any validation. The iff conditions for each of: parse error, URL mode, snapshot mode, single-file mode. Which message each parse error carries. Each call's parameters, including the fallbacks and the split patterns. |
| `Cli.ExitCode` | backend/scripts/hf_download.py:346-347 | An exit with an integer uses that integer. An exit with a string, a parser error or an uncaught exception gives a non-zero status. |
| `Cli.Execute` | backend/scripts/hf_download.py:294-343 | `--check` emits the availability event and returns 0. A parse error emits nothing and exits with the parser's message. URL, snapshot and single-file modes emit the events of `UrlRun`, `SnapshotRun` and `SingleFileRun`. Single-file mode passes no `local_dir`. On success they return the URL string (URL mode) or 0. On failure the exception escapes. |
| `Cli.ExecuteFixed` | backend/scripts/hf_download.py:313 | The corrected `main` (return 0 after the URL lookup) emits the same events as `Execute`. A successful URL lookup returns 0. Every other run ends as in `Execute`. Any normal return is an integer. |
| `Cli.RunMain` | backend/scripts/hf_download.py:253-343 | Running main step by step, with its in-place overwrites of token and cache dir, gives exactly `Execute(Dispatch(args, env), host)`. |
| `Cli.CheckAlwaysSucceeds` | backend/scripts/hf_download.py:294-296 | `--check` emits exactly the availability event and exits 0, whatever the other flags, the environment and the host. |
| `Cli.SessionShape` | backend/scripts/hf_download.py:293-343 | A parse error emits no event. Any other run emits a well-formed stream with exactly one terminal event. An error event is present iff an exception escapes, and it is the last event, carrying that exception. URL mode emits no `start`. Failures exit non-zero. |
| `Cli.SingleFileIgnoresDest` | backend/scripts/hf_download.py:334-341 | In single-file mode the kwargs never hold `local_dir` or `local_dir_use_symlinks`. Changing `--dest` changes nothing in the session. |
| `Cli.SnapshotUsesDest` | backend/scripts/hf_download.py:316-327 | In snapshot mode `local_dir` is passed iff `--dest` is truthy. The pattern keys are passed iff their flags are truthy. `token` is passed iff `--token` or `HF_TOKEN` is truthy. |
| `Cli.UrlSuccessExitsOne` | backend/scripts/hf_download.py:309-313 | As written, a successful URL lookup emits `complete` and no error, yet the process exits with status 1. |
| `Cli.UrlSuccessExitsOneExample` | backend/scripts/hf_download.py:313 | The concrete input `--repo-id gpt2 --filename config.json --url-only` with a successful lookup exits with 1. |
| `Cli.FixedExitZeroIffNoError` | backend/scripts/hf_download.py:309-313 | With `return 0` after the URL lookup, the events are unchanged. The exit status is 0 iff the flags parse and no error event is sent. |
| `Cli.DestIgnoredExample` | backend/scripts/hf_download.py:334-341 | As written, `--repo-id gpt2 --filename config.json --dest ./models` builds download kwargs without `local_dir`. |
| `Cli.ExecuteDestFixed` | backend/scripts/hf_download.py:334-341 | The corrected single-file call passes `--dest` as `local_dir`. Every other mode is unchanged from `Execute`. |
| `Cli.DestFixedReachesLibrary` | backend/scripts/hf_download.py:95-131 | With the fix, single-file kwargs hold `local_dir` iff `--dest` is truthy. It then equals `--dest`, with `local_dir_use_symlinks=False`. The session is a well-formed two-event stream that raises iff its last event is an error. |

## Findings

| source | as written | input that shows it | evidently intended | confidence | as-written member | corrected member |
|---|---|---|---|---|---|---|
| backend/scripts/hf_download.py:313 | `return get_file_url(...)` makes `main` return the URL string. `sys.exit(url)` then prints the URL to stderr and exits with status 1. | `--repo-id gpt2 --filename config.json --url-only` with a lookup that succeeds | Exit 0 after a successful lookup, as every other successful mode does (lines 296, 328, 343). | not executed | `Cli.UrlSuccessExitsOne` | `Cli.FixedExitZeroIffNoError` |
| backend/scripts/hf_download.py:334-341 | `main` passes `dest=args.dest` to `download_single_file`, which never reads `dest` (lines 111-131), and passes no `local_dir`. The file goes to the cache, not to `--dest`. | `--repo-id gpt2 --filename config.json --dest ./models` | Download into `--dest`, as the usage text (line 15), the docstring (line 102) and the examples (lines 262-263) say. | not executed | `Cli.DestIgnoredExample` | `Cli.DestFixedReachesLibrary` |

`Cli.Execute` and `Cli.RunMain` model the code as written. `Cli.ExecuteFixed`
is the corrected version, and `Cli.FixedExitZeroIffNoError` proves
"exit 0 iff no error" about it. `Cli.ExecuteDestFixed` is the corrected
single-file call, and `Cli.DestFixedReachesLibrary` proves that `--dest`
reaches the library.

## Left out

- The `huggingface_hub` functions `hf_hub_download`, `snapshot_download` and `hf_hub_url` are foreign library code. They are fields of `Host`, and each returns a success or an exception.
- JSON serialisation, `print` and flushing are I/O. An operation returns the events it would print, in order. `sys.exit`'s write of a string to stderr is not modelled either.
- `os.walk`, `os.path.exists`, `os.path.islink` and `os.path.getsize` are file-system access. They are given as `Host` functions. Exceptions they might raise are not modelled: a `getsize` that fails after `exists` succeeded, or a walk error, which `os.walk` ignores by default. So no error event from the file system is modelled.
- `time.time()` is a wall-clock float. Time is integer milliseconds supplied by the caller.
- The percentage is an IEEE double in the source. The model computes it as an exact real. Only the zero-total guard and the ratio are stated.
- `ProgressReporter.report`'s `progress` argument is ignored by the source, so it is left out. Nothing in the file creates a reporter, so it is modelled on its own and not wired into the downloads.
- The internals of argparse are not modelled: help and epilog text, unknown or malformed flags, usage text. The parsed flags are a record, and `parser.error` is a `UsageError` outcome with exit status 2.
- The import-failure path (lines 25-34) prints to stderr and exits 1 at import time, before `main`. It is left out, so `HF_AVAILABLE` is the constant true. `HfFileSystem` and `hf_tqdm` are imported but never used.
- The docstring's "Resume/pause support via chunk management" (line 12) has no code behind it.
- Exceptions outside `Exception` (such as `KeyboardInterrupt`) and failures of `print` inside the `try` blocks are not modelled.
- The reduction of the exit status modulo 256 by the operating system does not matter here, because `main` only returns 0 or a string.
