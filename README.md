# prober — a Dafny model of the scanning core

prober takes a list of bug-bounty targets and runs an OWASP ZAP scan against each of them.
It has four parts:

- a loader that turns Bugcrowd program data into targets;
- an orchestrator that feeds scan tasks to a small pool of asynchronous workers and hands
  back their results;
- a ZAP runner that runs ZAP in Docker and keeps the high-risk alerts of its JSON report;
- the shared result types and report file naming.

This project models those four parts in Dafny and proves what they promise.

| file | module | models |
|---|---|---|
| `outcomes.dfy` | `Outcomes` | Python exceptions as values (`Outcome<T>`, `Option<T>`). `Flatten` is the `for x in xs: out.extend(f(x))` loop, which ends at the first exception. |
| `json.dfy` | `Json` | Values that `json.loads` returns. Models subscripting by a key (the last duplicate key wins), iteration (a dict yields its keys), `in` a set of strings (a list or a dict is unhashable) and truthiness. |
| `text.dfy` | `Text` | `str(n)`, `f'{n:05d}'` and Python's string order. |
| `base_runner.py` → `base_runner.dfy` | `BaseRunner` | `make_report_filename`, the `ScanResult` fields, and `ScanError.__repr__` / `write_report`. |
| `zap_runner.py` → `zap_runner.dfy` | `ZapRunner` | The level-to-risk-code mapping, the alert filter across sites, `write_report`, the ZAP and Docker command vectors, and how `zap_scan` ends. |
| `loader.py` → `loader.dfy` | `Loader` | `_load_bugcrowd_program` and `load_targets`: the choice and order of files, the list check, and concatenation in order. |
| `orchestrator.py` → `orchestrator.dfy` | `Orchestrator` | The `Orchestrator` and `_Worker` classes as a transition system: one method per step between suspension points. |

Pure code is modelled as functions with lemmas beside them. Code that works by updating
state is modelled as methods proved against those functions:

- `ZapScanResult.__init__`;
- the two loops of `load_targets`;
- `_load_bugcrowd_program`;
- every step of the orchestrator and its workers.

The orchestrator is a class with these fields:

- its two queues, as sequences;
- its workers, as `Worker` objects whose `busy` and `toStop` flags the steps update in place;
- the cache of the Docker image pull.

Ghost fields record:

- every id that `scan` returned;
- every id that `next_result` delivered;
- each worker's fields, as values.

The class invariant `Valid` includes a conservation law. Every submitted id is counted exactly once, in one of four places:

- queued as a task;
- held by a busy worker;
- queued as a result;
- already delivered.

Every step keeps this law. So when `next_result` reports the end, the delivered ids are
exactly the submitted ones, as a multiset.

Where the code does something other than what a reader would expect, the model follows the
code:

- `url.lstrip('https://').lstrip('http://')` strips a leading run of *characters* from
  the set `h t p s : /`, not a prefix. `https://tools-api…` loses the `t` of `tools`
  (`BaseRunner.StripIsSetBased`). The second `lstrip` never removes anything.
- Report names can collide. URLs that differ only in which unwanted symbol stands at a
  position get the same file name when the strip keeps both whole: neither starts with
  one of `h t p s : /` nor ends with `/` (`BaseRunner.DistinctUrlsCanShareName`).
- With no levels requested, alerts with a risk code outside `0`–`3` are still dropped.
- `_processing` has no `try`/`finally`. A scan that raises leaves it with `_in_processing`
  still true and ends the worker's coroutine. This happens for any exception of the scan:
  an empty URL, a report that does not parse, or a report the filter cannot read
  (`KeyError`/`TypeError`). From then on `_is_any_task_processing`
  stays true, so `next_result` never raises `NoMoreResults`. In `__aexit__`, awaiting that
  worker re-raises its exception, so the worker list is not cleared
  (`Orchestrator.Orchestrator.NextResult`, `Orchestrator.Orchestrator.AwaitWorkers`).
- `next_result` checks for the end first and only then waits for a result. The end can
  therefore be reported only when nothing is queued and no worker is busy at that moment.
- `json.loads` keeps the last of several members with the same key, and iterating over a
  dict yields its keys in the order they first appeared.

## Model

| member | source | states |
|---|---|---|
| Outcomes.Flatten | loader.py:35-37 | The extend loop succeeds exactly when every call succeeds. When it fails, the exception is that of the first call that raised. |
| Outcomes.FlattenAppend | loader.py:30-38 | Looping over two parts gives the outputs of the first part followed by those of the second, and an exception in the first part wins. |
| Outcomes.FirstFailureWins | loader.py:30-38 | If calls before position k succeed and call k raises, the whole loop raises call k's exception. |
| Json.Lookup | loader.py:43 | A key is missing exactly when no member has it. Otherwise the value is that of the last member with the key. |
| Json.Subscript | loader.py:43 | `value[key]`: a dict holding the key gives the value of its last member with that key. A dict without the key raises `KeyError(key)`, and a non-dict raises `TypeError`. |
| Json.Iterate | loader.py:43 | A list yields its items, a string its characters as one-character strings, and a dict its distinct keys. Iterating raises exactly on null, booleans and numbers. |
| Json.InStrings | loader.py:44 | True exactly for a string in the set. Raises exactly for a list or a dict, which are unhashable. |
| Json.DistinctKeys | zap_runner.py:47 | Iterating over a dict yields exactly the member names, each once. |
| Text.DecimalString | orchestrator.py:65 | `str(n)`: at least one digit, all digits, and no leading zero. |
| Text.DecimalRoundTrip | orchestrator.py:65 | Reading back the digits of `str(n)` gives n. |
| Text.ZeroPadded | base_runner.py:56 | `f'{n:05d}'`: exactly `width` digits whose value is n. |
| Text.LexLeTotal | loader.py:26-27 | The string order that `sorted` uses relates every two names. |
| Text.LexLeTransitive | loader.py:26-27 | The string order is transitive. |
| Text.LexLeAntisymmetric | loader.py:26-27 | Two names that are each at most the other are equal. |
| BaseRunner.BaseRepr | base_runner.py:19-20 | The representation is the scanner, then `: `, then the URL. |
| BaseRunner.NewScanResult | base_runner.py:29-32 | Keeps scanner, URL and raw data. A level is stored exactly when it was requested, and duplicate levels collapse. |
| BaseRunner.LevelSetSize | base_runner.py:32 | The set of levels is never larger than the list of levels. |
| BaseRunner.ErrorRepr | base_runner.py:42-43 | The base representation followed by ` (message)`. |
| BaseRunner.ErrorWriteReport | base_runner.py:45-47 | Always writes exactly the captured output to `make_report_filename(scanner + '-error', url)`. |
| BaseRunner.LeadingRun | base_runner.py:53 | `lstrip` cuts the longest leading run of characters from the set. |
| BaseRunner.TrailingRun | base_runner.py:53 | `rstrip` cuts the longest trailing run of characters from the set. |
| BaseRunner.Translate | base_runner.py:51-54 | Same length, and no unwanted symbol remains. Every unwanted symbol becomes `_` and every other character stays in place. |
| BaseRunner.StrippedUrl | base_runner.py:53 | The result is the URL minus its leading run of `h t p s : /` and its trailing `/`s. It neither starts with such a character nor ends with `/`. |
| BaseRunner.SecondStripIsNoop | base_runner.py:53 | `lstrip('http://')` after `lstrip('https://')` removes nothing. |
| BaseRunner.StrippedUrlIs | base_runner.py:53 | The stripped URL is exactly the slice between the leading run and the trailing run of `/`. |
| BaseRunner.BareUrlIsKept | base_runner.py:53 | A URL that starts with none of those characters and does not end with `/` is kept whole. |
| BaseRunner.StripIsSetBased | base_runner.py:53 | `https://tools-api.cryptocompare.com/` becomes `ools-api.cryptocompare.com`. |
| BaseRunner.Truncated | base_runner.py:55-56 | A part of up to 200 characters is unchanged. A longer part becomes its first 200 characters, `_` and five digits whose value is the random number: 206 characters. |
| BaseRunner.SanitizedUrl | base_runner.py:51-56 | The URL part contains no unwanted symbol and has at most 206 characters. |
| BaseRunner.MakeReportFilename | base_runner.py:50-57 | The name is the prefix (not sanitised), `-`, the sanitised URL and `.json`. |
| BaseRunner.JsonFileName | base_runner.py:57 | `f'{prefix}-{part}.json'`: prefix, dash, part and `.json` at their positions. |
| BaseRunner.TranslateMergesUnwanted | base_runner.py:51-54 | Strings that differ only in which unwanted symbol is used translate alike. |
| BaseRunner.TranslateKeepsClean | base_runner.py:51-54 | A string without unwanted symbols translates to itself. |
| BaseRunner.DistinctUrlsCanShareName | base_runner.py:50-57 | Two URLs that the strip keeps whole and that differ only in which unwanted symbols they use get the same report name. |
| BaseRunner.ShortNameIsDeterministic | base_runner.py:55-57 | When the sanitised part fits in 200 characters, the name does not depend on the random draw. |
| BaseRunner.LongNameRecordsSuffix | base_runner.py:55-56 | When the part was truncated, different draws give different names. |
| BaseRunner.SanitizedIsBare | base_runner.py:53-54 | An untruncated sanitised part is the translated stripped URL. It neither starts with a URL character nor ends with `/`. |
| BaseRunner.SanitizeIsIdempotent | base_runner.py:50-57 | Sanitising an untruncated sanitised part again changes nothing. |
| ZapRunner.ZapScript | zap_runner.py:23-27 | A full scan runs `zap-full-scan.py`, a baseline scan `zap-baseline.py`, an API scan `zap-api-scan.py`. |
| ZapRunner.ZapScriptInjective | zap_runner.py:23-27 | Different scan types run different scripts. |
| ZapRunner.ZapCommandLine | zap_runner.py:69-70 | The vector is `[script, '-m', '5', '-t', url, '-J', 'zap-report.json']`. 5 minutes is the 300-second limit, and the wait timeout is 360 seconds. |
| ZapRunner.DockerRunCommand | zap_runner.py:71-80 | `docker run --rm --volume <workdir>:/zap/wrk --memory=2g --cpus=1` of the stable ZAP image: a throw-away container capped at 2 GB and one CPU, with the work directory mounted where ZAP writes its report, followed by the ZAP vector. |
| ZapRunner.DockerPullCommand | zap_runner.py:107-109 | `docker pull` of the given image. |
| ZapRunner.LevelCode | zap_runner.py:32-37 | Info, low, medium and high map to `0`, `1`, `2` and `3`: a level's code is its rank. |
| ZapRunner.LevelCodesAreRiskCodes | zap_runner.py:32-37 | The mapping is injective, and its codes are exactly ZAP's four risk codes. |
| ZapRunner.ZapLevels | zap_runner.py:41-45 | With levels given, a level's code is selected exactly when the level was requested. With none given, all four codes are selected. |
| ZapRunner.Matches | zap_runner.py:49 | `alert['riskcode'] in zap_levels` is true exactly for a string code in the set. A non-dict alert raises `TypeError`, a dict without `riskcode` raises `KeyError('riskcode')`, and a list or dict code (unhashable) raises `TypeError`. |
| ZapRunner.Filter | zap_runner.py:49 | An alert is kept exactly when its risk code is among the codes. |
| ZapRunner.FilterIsSubsequence | zap_runner.py:46-49 | The kept alerts are a subsequence of all alerts, in their original order. |
| ZapRunner.FilterAppend | zap_runner.py:47-49 | Filtering a concatenation is concatenating the filtered parts. |
| ZapRunner.KeptAlerts | zap_runner.py:49 | The comprehension succeeds exactly when every alert can be tested, and then equals the filter. Otherwise it raises what testing the first untestable alert raises. |
| ZapRunner.SiteAlerts | zap_runner.py:48-49 | A site succeeds exactly when its `alerts` can be read and iterated and every alert can be tested. It then contributes the filter of those alerts. An error reading `alerts` propagates. |
| ZapRunner.CollectAlerts | zap_runner.py:46-49 | The collection succeeds exactly when every site does. Every collected alert carries a selected code. |
| ZapRunner.NewZapScanResult | zap_runner.py:39-49 | The constructor computes exactly `ZapResultOf`: the base fields, and the alerts kept across the report's sites, or the first exception raised while reading them. |
| ZapRunner.ExtendSiteAlerts | zap_runner.py:46-49 | The `for`/`extend` loop over sites computes exactly the flattened per-site contributions, including the exception of the first site that raises. |
| ZapRunner.CollectWellFormed | zap_runner.py:46-49 | On well-formed sites nothing raises, and the alerts are the filter of all alerts in report order. |
| ZapRunner.ZapResultOfWellFormed | zap_runner.py:39-49 | A well-formed report yields exactly the filtered alerts, as a subsequence of all alerts. |
| ZapRunner.KeptIffRequestedLevel | zap_runner.py:41-43 | With levels given, an alert is kept exactly when its code is that of a requested level. |
| ZapRunner.NoLevelsKeepsRiskCodes | zap_runner.py:44-45 | With no levels, an alert is kept exactly when its code is one of `0`–`3`. |
| ZapRunner.MissingSitesRaise | zap_runner.py:47 | A report without `site` raises `KeyError('site')`. |
| ZapRunner.ZapWriteReport | zap_runner.py:55-58 | Nothing is written exactly when no alert survived. Otherwise the alert list is written to `make_report_filename('zap', url)`. |
| ZapRunner.StreamReport | zap_runner.py:99-100 | `name: None` for a missing stream. Otherwise `name:`, a newline and the stream text, verbatim. |
| ZapRunner.ScanOutcome | zap_runner.py:61-104 | The outcome is one of four cases. (1) An empty URL raises `ValueError`. (2) A missing report gives a `ScanError` whose output is the stderr part, a newline and the stdout part. (3) A parse exception propagates. (4) Otherwise the outcome is the `ZapScanResult` filtered to `high`, or the exception it raised. |
| ZapRunner.ZapScan | zap_runner.py:61-104 | An empty URL runs no command. Otherwise the run is a pull (only on first use) and then the run command. The outcome is `ScanOutcome`. |
| ZapRunner.FoundAlertsAreHigh | zap_runner.py:103-104 | Every alert of a successful scan has risk code `3`. |
| ZapRunner.HighOnlyCodes | zap_runner.py:104 | Requesting `high` selects exactly the code `3`. |
| Loader.EntryTargets | loader.py:44-47 | An entry yields a target exactly when its type is allowed, its `uri` is truthy and it has a `name`. The target is `(name, type, uri)`. An entry of another hashable type, or an allowed one with a falsy `uri`, is skipped without error. A missing `type`, or a missing `uri` or `name` on an allowed entry, raises `KeyError` with that key. A non-dict entry, or a list or dict `type` (unhashable), raises `TypeError`. |
| Loader.LoadBugcrowdProgram | loader.py:41-48 | The append loop computes exactly `ProgramTargets`, including the first exception. |
| Loader.ProgramTargetsAreKeptEntries | loader.py:43-48 | A target is returned exactly when some entry yields it. There are never more targets than entries. |
| Loader.ProgramTargetsAreAllowed | loader.py:43-46 | Every target has an allowed type and a truthy resource. |
| Loader.EntryTargetsInOrder | loader.py:42-48 | The targets of concatenated entry lists are the concatenated targets, in order. |
| Loader.AllowedEntryIsTarget | loader.py:44-47 | An `api`/`website` entry with a URI becomes `Target(name, type, uri)`. |
| Loader.OtherEntryIsSkipped | loader.py:44-45 | An entry of another type, or with an empty URI, is skipped without error. |
| Loader.SampleProgramTargets | tests/test_loader.py:9-36 | On illustrative Bugcrowd-shaped data (the test's own data file is not part of this model), the `api` and `website` entries become targets in order, each with the entry's URI as its resource; an entry of another type and one with an empty URI are skipped. |
| Loader.JsonSuffixIff | loader.py:27 | `path.suffix == '.json'` holds exactly for names longer than `.json` that end with it. |
| Loader.JsonFiles | loader.py:26-27 | Exactly the regular files with suffix `.json` are chosen, each as many times as the listing holds it. |
| Loader.InsertByName | loader.py:26 | Inserting into a sorted list keeps it sorted and adds exactly the new entry. |
| Loader.SortByName | loader.py:26-27 | `sorted` gives ascending names and a permutation of its input. |
| Loader.FilesToRead | loader.py:25-29 | A plain file is read alone. |
| Loader.DirectoryReadsSortedJsonFiles | loader.py:25-29 | A directory is read through its regular `.json` files in name order. Each is read exactly as often as the listing holds it, and nothing else is read. |
| Loader.FileTargets | loader.py:32-37 | A file whose top level is not a list raises the format error, and a read or parse exception propagates. |
| Loader.AllTargets | loader.py:21-38 | A missing path raises `Path … does not exist`. |
| Loader.LoadTargets | loader.py:21-38 | `load_targets` computes exactly `AllTargets`. |
| Loader.LoadFiles | loader.py:30-38 | The outer loop over files computes exactly the flattened per-file targets, including the first exception. |
| Loader.LoadPrograms | loader.py:35-37 | The inner loop over programs computes exactly the flattened per-program targets. |
| Loader.FileTargetsInOrder | loader.py:30-38 | Targets come out in file order, then program order. |
| Loader.LoadedTargetsAreAllowed | loader.py:21-48 | Every loaded target has an allowed type and a truthy resource. |
| Loader.NonListFileIsRejected | loader.py:33-34 | A non-list file rejects the whole load if every file before it succeeded. |
| Orchestrator.EscapeChar | orchestrator.py:51 | `repr` escapes exactly the backslash, the quote and the ASCII control characters. Every other character is kept. |
| Orchestrator.QuoteFor | orchestrator.py:51 | `repr` uses `"` exactly when the text has a `'` and no `"`. |
| Orchestrator.StrRepr | orchestrator.py:51 | The escaped text between two copies of the chosen quote. |
| Orchestrator.EscapedRoundTrip | orchestrator.py:51 | Reading the escaped text back gives the scanner name. |
| Orchestrator.PlainIsKept | orchestrator.py:51 | A name of printable characters without quote or backslash is shown as is. |
| Orchestrator.QuoteIsEscaped | orchestrator.py:51 | Inside the quotes, the quote character always follows a backslash. |
| Orchestrator.IdleIffNothingHeld | orchestrator.py:76-77 | No worker is busy exactly when no task is held by a worker. |
| Orchestrator.SubmitConserves | orchestrator.py:52 | Queuing a task keeps every id counted once. |
| Orchestrator.DequeueConserves | orchestrator.py:107-113 | A worker taking the front task keeps every id counted once. |
| Orchestrator.CompleteConserves | orchestrator.py:112-114 | A worker putting its result keeps every id counted once. |
| Orchestrator.DeliverConserves | orchestrator.py:56-61 | Handing out the front result keeps every id counted once. |
| Orchestrator.SameHoldingsConserve | orchestrator.py:103-115 | Steps that change no worker's task keep every id counted once. |
| Orchestrator.AddIdleConserves | orchestrator.py:63-67 | Adding an idle worker keeps every id counted once. |
| Orchestrator.DropIdleConserves | orchestrator.py:69-74 | Dropping idle workers keeps every id counted once. |
| Orchestrator.AllDeliveredAtEnd | orchestrator.py:56-61 | With both queues empty and no worker busy, the delivered ids are a permutation of the submitted ids. |
| Orchestrator.SameOccurrencesSameMultiset | orchestrator.py:56-61 | Equal counts for every id mean equal multisets. |
| Orchestrator.WorkerNamesDistinct | orchestrator.py:64-65 | `worker_1`, `worker_2`, … are pairwise different. |
| Orchestrator.Worker.constructor | orchestrator.py:86-92 | A new worker is not busy, not stopping, holds no task and runs. |
| Orchestrator.Worker.SendStopSignal | orchestrator.py:94-95 | Only the stop flag changes, and it becomes true. |
| Orchestrator.Worker.BeginProcessing | orchestrator.py:117-119 | The worker becomes busy with the task; nothing else changes. |
| Orchestrator.Worker.EndProcessing | orchestrator.py:120-121 | The worker becomes idle; nothing else changes. |
| Orchestrator.Worker.Crash | orchestrator.py:112-113 | The worker ends with the exception and its busy flag is left as it was. |
| Orchestrator.Worker.Stop | orchestrator.py:109-110 | The worker's loop ends; nothing else changes. |
| Orchestrator.Orchestrator.constructor | orchestrator.py:40-43 | Empty queues and no workers. The image-pull cache is taken as it stands in the process. |
| Orchestrator.Orchestrator.Scan | orchestrator.py:45-54 | `zap` appends exactly one task with id `(scanner, url)` at the back and returns that id. Any other scanner raises `Unexpected scanner value <repr>` and leaves the queue unchanged. |
| Orchestrator.Orchestrator.IsAnyTaskProcessing | orchestrator.py:76-77 | True exactly when some worker is busy. |
| Orchestrator.Orchestrator.NextResult | orchestrator.py:56-61 | `NoMoreResults` exactly when both queues are empty and no worker is busy, and then every submitted id has been delivered. Otherwise the front result is delivered, FIFO, or the turn times out. A crashed worker rules out `NoMoreResults`. |
| Orchestrator.Orchestrator.Enter | orchestrator.py:63-67 | Adds exactly two fresh workers named `worker_1` and `worker_2`, idle and not stopping. |
| Orchestrator.Orchestrator.AddWorker | orchestrator.py:66 | Appends one fresh idle worker with the given name. |
| Orchestrator.Orchestrator.SignalStop | orchestrator.py:70-71 | Every worker's stop flag is set; nothing else changes. |
| Orchestrator.Orchestrator.AwaitWorkers | orchestrator.py:72-74 | The worker list is emptied exactly when every worker has stopped. Otherwise the first unstopped worker is still running, or it crashed and its exception is re-raised. |
| Orchestrator.Orchestrator.WorkerDequeue | orchestrator.py:105-113 | The front task leaves the queue, and the worker becomes busy with it. |
| Orchestrator.Orchestrator.WorkerPollTimeout | orchestrator.py:107-111 | On an empty queue, the worker stops exactly when its stop flag is set; otherwise it waits again. |
| Orchestrator.Orchestrator.WorkerComplete | orchestrator.py:112-114 | The scan's outcome follows `ScanOutcome`. A result is appended with the task's id and the worker becomes idle. An exception crashes the worker, which stays busy. |
| Orchestrator.Orchestrator.FinishTask | orchestrator.py:112-114 | Exactly one result with the task's id goes to the back of the result queue, and the worker becomes idle. |
| Orchestrator.Orchestrator.CrashWorker | orchestrator.py:112-113 | The worker crashes; both queues are unchanged. |

## Left out

- asyncio is not modelled. Each stretch of a coroutine between two awaits is one atomic method, and the caller chooses which enabled step runs next. Fairness and liveness are not claimed.
- The one-second `wait_for` timeouts are not modelled as time. They become the steps `NextResult` returning `TimedOut` and `WorkerPollTimeout`.
- The shared `asyncio.Queue` objects are not modelled as objects. They are the orchestrator's `tasks` and `results` sequences, and an unbounded `put` never suspends.
- Worker tasks are not modelled as coroutine objects. `_Task.func` becomes the task's scan type. The scan runs in `WorkerComplete`, which takes as a parameter what the process left behind.
- Docker, the ZAP process, `subprocess`, `SIGINT`, `communicate` and `tempfile` are not modelled. The model checks only:
  - which commands are run, as string vectors;
  - whether the report appeared;
  - the parsed report and the captured streams, which are parameters.
- Only the pull-once effect of `_pull_docker_image`'s `@cache` is modelled, as the `imagePulled` flag. An orchestrator is constructed with the cache state of the process.
- `json.loads`, `read_text`, `write_text`, `json.dumps`, `Path.exists`, `iterdir` and `is_file` are not modelled. Parsed values and directory listings are inputs. `write_report` returns the file name and the content instead of writing them.
- UTF-8 decoding of the process output is not modelled. The streams are given as text, and decode errors are not modelled.
- `Path` normalisation is not modelled: the path is a string, used only in the error message.
- `random.randrange` is not modelled. The suffix is a parameter in 1..99998.
- Timing and logging are not modelled: `time.monotonic`, the minute/second split, and all `_logger` calls.
- The `__repr__` methods of `_Task` and `ZapScanResult` are not modelled; they are used only for logging. The `levels` set is not rendered.
- Orchestrator.StrRepr: non-ASCII characters that Python's `repr` would escape (`\x..`, `\u....`, `\U........`) are kept as is. Only ASCII control characters are escaped.
- `cli.py`, `main.py` and `prober.py` are not part of this model. They are argument parsing and process entry.
