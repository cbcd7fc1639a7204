/** The orchestrator: a queue of scan tasks served by a pool of workers, and a queue of
    their results. Every worker is a coroutine; the model takes each stretch of a coroutine
    between two suspension points as one method, and whoever calls the methods plays the
    event loop, choosing which enabled step runs next. */
module Orchestrator {
  import opened Outcomes
  import opened Json
  import opened Text
  import opened BaseRunner
  import opened ZapRunner

  const WorkersNumber: nat := 2
  const ZapScanner: string := "zap"

  datatype TaskId = TaskId(scanner: string, url: string)

  /** `_Task`: the id and the scan that runs when a worker awaits it. */
  datatype Task = Task(id: TaskId, scanType: ZapScanType)

  datatype Result = Result(id: TaskId, scanResult: ZapOutcome)

  /* ---------- `repr` of the rejected scanner name ---------- */

  function HexDigit(d: nat): (c: char)
    requires d < 16
  {
    if d < 10 then (48 + d) as char else (87 + d) as char
  }

  function HexValue(c: char): (d: nat)
    ensures d < 16
  {
    if '0' <= c <= '9' then c as int - 48
    else if 'a' <= c <= 'f' then c as int - 87
    else 0
  }

  /** How `repr` writes one character inside a string quoted with `quote`: a backslash,
      the quote and the ASCII control characters are escaped, the rest is kept. */
  function EscapeChar(c: char, quote: char): (r: string)
    ensures 1 <= |r| <= 4
    ensures |r| == 1 <==> c != '\\' && c != quote && ' ' <= c && c as int != 127
    ensures |r| == 1 ==> r == [c]
    ensures |r| > 1 ==> r[0] == '\\'
  {
    if c == '\\' then "\\\\"
    else if c == quote then ['\\', quote]
    else if c == '\t' then "\\t"
    else if c == '\n' then "\\n"
    else if c == '\r' then "\\r"
    else if c < ' ' || c as int == 127 then ['\\', 'x', HexDigit(c as int / 16), HexDigit(c as int % 16)]
    else [c]
  }

  function Escaped(s: string, quote: char): string
  {
    if s == [] then [] else EscapeChar(s[0], quote) + Escaped(s[1..], quote)
  }

  /** `repr` quotes with `"` only when the text holds a `'` and no `"`. */
  function QuoteFor(s: string): (q: char)
    ensures q == '"' || q == '\''
    ensures q == '"' <==> '\'' in s && '"' !in s
  {
    if '\'' in s && '"' !in s then '"' else '\''
  }

  /** `{value!r}` for a string. */
  function StrRepr(s: string): (r: string)
    ensures |r| >= 2 && r[0] == QuoteFor(s) && r[|r| - 1] == QuoteFor(s)
    ensures r[1..|r| - 1] == Escaped(s, QuoteFor(s))
  {
    [QuoteFor(s)] + Escaped(s, QuoteFor(s)) + [QuoteFor(s)]
  }

  function UnexpectedScannerMessage(scanner: string): string
  {
    "Unexpected scanner value " + StrRepr(scanner)
  }

  /** Reading a Python string literal's body back: the inverse of `Escaped`. */
  function Unescaped(t: string): string
    decreases |t|
  {
    if t == [] then []
    else if t[0] == '\\' && |t| >= 2 then
      if t[1] == 't' then "\t" + Unescaped(t[2..])
      else if t[1] == 'n' then "\n" + Unescaped(t[2..])
      else if t[1] == 'r' then "\r" + Unescaped(t[2..])
      else if t[1] == 'x' && |t| >= 4 then [(16 * HexValue(t[2]) + HexValue(t[3])) as char] + Unescaped(t[4..])
      else [t[1]] + Unescaped(t[2..])
    else [t[0]] + Unescaped(t[1..])
  }

  lemma EscapeCharRoundTrip(c: char, quote: char, rest: string)
    requires quote == '\'' || quote == '"'
    ensures Unescaped(EscapeChar(c, quote) + rest) == [c] + Unescaped(rest)
  {
    var e := EscapeChar(c, quote) + rest;
    if |EscapeChar(c, quote)| == 4 {
      var hi, lo := c as int / 16, c as int % 16;
      assert HexValue(HexDigit(hi)) == hi && HexValue(HexDigit(lo)) == lo;
      assert e[4..] == rest;
    } else if |EscapeChar(c, quote)| == 2 {
      assert e[2..] == rest;
    } else {
      assert e[1..] == rest;
    }
  }

  /** The escaping loses nothing: the quoted text gives back the original string. */
  lemma {:induction false} EscapedRoundTrip(s: string, quote: char)
    requires quote == '\'' || quote == '"'
    ensures Unescaped(Escaped(s, quote)) == s
  {
    if s != [] {
      EscapeCharRoundTrip(s[0], quote, Escaped(s[1..], quote));
      EscapedRoundTrip(s[1..], quote);
    }
  }

  /** A name made of printable characters without quotes or backslashes is shown as is. */
  lemma {:induction false} PlainIsKept(s: string, quote: char)
    requires forall i :: 0 <= i < |s| ==> s[i] != '\\' && s[i] != quote && ' ' <= s[i] && s[i] as int != 127
    ensures Escaped(s, quote) == s
  {
    if s != [] {
      PlainIsKept(s[1..], quote);
    }
  }

  /** Inside the quotes, the chosen quote character never stands alone: each one is escaped. */
  lemma {:induction false} QuoteIsEscaped(s: string, quote: char, i: nat)
    requires quote == '\'' || quote == '"'
    requires i < |Escaped(s, quote)| && Escaped(s, quote)[i] == quote
    ensures i > 0 && Escaped(s, quote)[i - 1] == '\\'
  {
    var head := EscapeChar(s[0], quote);
    assert Escaped(s, quote) == head + Escaped(s[1..], quote);
    if i < |head| {
      assert head[i] == quote;
      if s[0] == quote {
        assert head == ['\\', quote];
      }
    } else {
      QuoteIsEscaped(s[1..], quote, i - |head|);
      if i - |head| > 0 {
        assert Escaped(s, quote)[i - 1] == Escaped(s[1..], quote)[i - |head| - 1];
      }
    }
  }

  /* ---------- workers, seen as values ---------- */

  /** Where a worker's `_target` coroutine is: looping, returned, or ended by an exception. */
  datatype WorkerState = Running | Stopped | Crashed(exc: Exception)

  /** One worker's fields at a moment. `current` is the task it is awaiting, which the
      source keeps in a local variable of `_target`. */
  datatype WorkerView = WorkerView(busy: bool, toStop: bool, current: Option<Task>, state: WorkerState)

  /** A worker is busy exactly while it holds a task; it can stop only while it waits for
      a task, and it can crash only inside a scan, so a crashed worker stays busy. */
  predicate ViewValid(v: WorkerView) {
    && (v.busy <==> v.current.Some?)
    && (v.state.Stopped? ==> !v.busy)
    && (v.state.Crashed? ==> v.busy)
  }

  predicate AllValid(views: seq<WorkerView>) {
    forall k :: 0 <= k < |views| ==> ViewValid(views[k])
  }

  predicate AnyBusy(views: seq<WorkerView>) {
    exists k :: 0 <= k < |views| && views[k].busy
  }

  /** 1 when the worker holds the task with this id, 0 otherwise. */
  function Holds(v: WorkerView, id: TaskId): nat {
    if v.current.Some? && v.current.value.id == id then 1 else 0
  }

  /** How many workers hold a task with this id. */
  function HeldCount(views: seq<WorkerView>, id: TaskId): nat {
    if views == [] then 0 else HeldCount(views[..|views| - 1], id) + Holds(views[|views| - 1], id)
  }

  lemma HeldCountAppend(views: seq<WorkerView>, v: WorkerView, id: TaskId)
    ensures HeldCount(views + [v], id) == HeldCount(views, id) + Holds(v, id)
  {
    assert (views + [v])[..|views|] == views;
  }

  /** Changing one worker changes the count by what that worker holds. */
  lemma {:induction false} HeldCountUpdate(views: seq<WorkerView>, i: nat, v: WorkerView, id: TaskId)
    requires i < |views|
    ensures HeldCount(views[i := v], id) + Holds(views[i], id) == HeldCount(views, id) + Holds(v, id)
  {
    var n := |views|;
    var prefix := views[..n - 1];
    if i == n - 1 {
      assert views[i := v][..n - 1] == prefix;
    } else {
      assert views[i := v][..n - 1] == prefix[i := v];
      HeldCountUpdate(prefix, i, v, id);
    }
  }

  /** The count depends only on the tasks the workers hold. */
  lemma {:induction false} HeldCountSameHoldings(a: seq<WorkerView>, b: seq<WorkerView>, id: TaskId)
    requires |a| == |b| && forall k :: 0 <= k < |a| ==> a[k].current == b[k].current
    ensures HeldCount(a, id) == HeldCount(b, id)
  {
    if a != [] {
      HeldCountSameHoldings(a[..|a| - 1], b[..|b| - 1], id);
    }
  }

  lemma {:induction false} IdleHoldsNothing(views: seq<WorkerView>, id: TaskId)
    requires AllValid(views) && !AnyBusy(views)
    ensures HeldCount(views, id) == 0
  {
    if views != [] {
      var prefix := views[..|views| - 1];
      assert AllValid(prefix);
      assert !views[|views| - 1].busy;
      IdleHoldsNothing(prefix, id);
    }
  }

  lemma {:induction false} BusyHoldsItsTask(views: seq<WorkerView>, k: nat)
    requires AllValid(views) && k < |views| && views[k].busy
    ensures HeldCount(views, views[k].current.value.id) > 0
  {
    var n := |views|;
    var prefix := views[..n - 1];
    if k < n - 1 {
      assert AllValid(prefix) && prefix[k] == views[k];
      BusyHoldsItsTask(prefix, k);
    }
  }

  /** No worker is busy exactly when no task is held: `_is_any_task_processing` is the test
      for tasks taken from the queue whose results are not in the result queue yet. */
  lemma IdleIffNothingHeld(views: seq<WorkerView>)
    requires AllValid(views)
    ensures !AnyBusy(views) <==> forall id :: HeldCount(views, id) == 0
  {
    if AnyBusy(views) {
      var k :| 0 <= k < |views| && views[k].busy;
      BusyHoldsItsTask(views, k);
    } else {
      forall id
        ensures HeldCount(views, id) == 0
      {
        IdleHoldsNothing(views, id);
      }
    }
  }

  /* ---------- no task is lost or duplicated ---------- */

  function TaskIds(tasks: seq<Task>): (ids: seq<TaskId>)
    ensures |ids| == |tasks| && forall k :: 0 <= k < |tasks| ==> ids[k] == tasks[k].id
  {
    seq(|tasks|, k requires 0 <= k < |tasks| => tasks[k].id)
  }

  function ResultIds(results: seq<Result>): (ids: seq<TaskId>)
    ensures |ids| == |results| && forall k :: 0 <= k < |results| ==> ids[k] == results[k].id
  {
    seq(|results|, k requires 0 <= k < |results| => results[k].id)
  }

  /** How many times an id occurs in a sequence. */
  function Occurrences(ids: seq<TaskId>, id: TaskId): nat {
    if ids == [] then 0
    else Occurrences(ids[..|ids| - 1], id) + (if ids[|ids| - 1] == id then 1 else 0)
  }

  lemma OccurrencesSingle(x: TaskId, id: TaskId)
    ensures Occurrences([x], id) == if x == id then 1 else 0
  {
    assert [x][..0] == [];
  }

  lemma {:induction false} OccurrencesAppend(a: seq<TaskId>, b: seq<TaskId>, id: TaskId)
    ensures Occurrences(a + b, id) == Occurrences(a, id) + Occurrences(b, id)
  {
    if b == [] {
      assert a + b == a;
    } else {
      assert (a + b)[..|a + b| - 1] == a + b[..|b| - 1];
      OccurrencesAppend(a, b[..|b| - 1], id);
    }
  }

  /** The count is the multiplicity in the sequence's multiset. */
  lemma {:induction false} OccurrencesIsMultiplicity(ids: seq<TaskId>, id: TaskId)
    ensures multiset(ids)[id] == Occurrences(ids, id)
  {
    if ids != [] {
      var n := |ids|;
      assert ids == ids[..n - 1] + [ids[n - 1]];
      OccurrencesIsMultiplicity(ids[..n - 1], id);
    }
  }

  /** Two sequences with the same counts are permutations of each other. */
  lemma SameOccurrencesSameMultiset(a: seq<TaskId>, b: seq<TaskId>)
    requires forall id :: Occurrences(a, id) == Occurrences(b, id)
    ensures multiset(a) == multiset(b)
  {
    forall id
      ensures multiset(a)[id] == multiset(b)[id]
    {
      OccurrencesIsMultiplicity(a, id);
      OccurrencesIsMultiplicity(b, id);
    }
  }

  /** Every task ever submitted is in exactly one place: waiting in the task queue, held
      by a worker, waiting in the result queue as its result, or already delivered. */
  ghost predicate Conserved(submitted: seq<TaskId>, tasks: seq<Task>, views: seq<WorkerView>,
                      results: seq<Result>, delivered: seq<TaskId>) {
    forall id :: Occurrences(submitted, id)
                   == Occurrences(TaskIds(tasks), id) + HeldCount(views, id)
                      + Occurrences(ResultIds(results), id) + Occurrences(delivered, id)
  }

  /** `scan` puts one task at the back of the queue. */
  lemma SubmitConserves(submitted: seq<TaskId>, tasks: seq<Task>, views: seq<WorkerView>,
                        results: seq<Result>, delivered: seq<TaskId>, task: Task)
    requires Conserved(submitted, tasks, views, results, delivered)
    ensures Conserved(submitted + [task.id], tasks + [task], views, results, delivered)
  {
    assert TaskIds(tasks + [task]) == TaskIds(tasks) + [task.id];
    forall id
      ensures Occurrences(submitted + [task.id], id)
                == Occurrences(TaskIds(tasks + [task]), id) + HeldCount(views, id)
                   + Occurrences(ResultIds(results), id) + Occurrences(delivered, id)
    {
      OccurrencesAppend(submitted, [task.id], id);
      OccurrencesAppend(TaskIds(tasks), [task.id], id);
    }
  }

  /** A worker takes the task at the front of the queue. */
  lemma DequeueConserves(submitted: seq<TaskId>, tasks: seq<Task>, views: seq<WorkerView>,
                         results: seq<Result>, delivered: seq<TaskId>, i: nat)
    requires Conserved(submitted, tasks, views, results, delivered)
    requires tasks != [] && i < |views| && views[i].current.None?
    ensures Conserved(submitted, tasks[1..], views[i := views[i].(busy := true, current := Some(tasks[0]))],
                      results, delivered)
  {
    var held := views[i].(busy := true, current := Some(tasks[0]));
    assert TaskIds(tasks) == [tasks[0].id] + TaskIds(tasks[1..]);
    forall id
      ensures Occurrences(submitted, id)
                == Occurrences(TaskIds(tasks[1..]), id) + HeldCount(views[i := held], id)
                   + Occurrences(ResultIds(results), id) + Occurrences(delivered, id)
    {
      OccurrencesAppend([tasks[0].id], TaskIds(tasks[1..]), id);
      OccurrencesSingle(tasks[0].id, id);
      HeldCountUpdate(views, i, held, id);
    }
  }

  /** A worker finishes its task and puts the result at the back of the result queue. */
  lemma CompleteConserves(submitted: seq<TaskId>, tasks: seq<Task>, views: seq<WorkerView>,
                          results: seq<Result>, delivered: seq<TaskId>, i: nat, outcome: ZapOutcome)
    requires Conserved(submitted, tasks, views, results, delivered)
    requires i < |views| && views[i].current.Some?
    ensures Conserved(submitted, tasks, views[i := views[i].(busy := false, current := None)],
                      results + [Result(views[i].current.value.id, outcome)], delivered)
  {
    var r := Result(views[i].current.value.id, outcome);
    var idle := views[i].(busy := false, current := None);
    assert ResultIds(results + [r]) == ResultIds(results) + [r.id];
    forall id
      ensures Occurrences(submitted, id)
                == Occurrences(TaskIds(tasks), id) + HeldCount(views[i := idle], id)
                   + Occurrences(ResultIds(results + [r]), id) + Occurrences(delivered, id)
    {
      OccurrencesAppend(ResultIds(results), [r.id], id);
      OccurrencesSingle(r.id, id);
      HeldCountUpdate(views, i, idle, id);
    }
  }

  /** `next_result` hands out the result at the front of the queue. */
  lemma DeliverConserves(submitted: seq<TaskId>, tasks: seq<Task>, views: seq<WorkerView>,
                         results: seq<Result>, delivered: seq<TaskId>)
    requires Conserved(submitted, tasks, views, results, delivered)
    requires results != []
    ensures Conserved(submitted, tasks, views, results[1..], delivered + [results[0].id])
  {
    assert ResultIds(results) == [results[0].id] + ResultIds(results[1..]);
    forall id
      ensures Occurrences(submitted, id)
                == Occurrences(TaskIds(tasks), id) + HeldCount(views, id)
                   + Occurrences(ResultIds(results[1..]), id) + Occurrences(delivered + [results[0].id], id)
    {
      OccurrencesAppend([results[0].id], ResultIds(results[1..]), id);
      OccurrencesAppend(delivered, [results[0].id], id);
    }
  }

  /** Steps that leave every worker's task where it is keep the count. */
  lemma SameHoldingsConserve(submitted: seq<TaskId>, tasks: seq<Task>, views: seq<WorkerView>,
                             views': seq<WorkerView>, results: seq<Result>, delivered: seq<TaskId>)
    requires Conserved(submitted, tasks, views, results, delivered)
    requires |views'| == |views| && forall k :: 0 <= k < |views| ==> views'[k].current == views[k].current
    ensures Conserved(submitted, tasks, views', results, delivered)
  {
    forall id
      ensures HeldCount(views', id) == HeldCount(views, id)
    {
      HeldCountSameHoldings(views, views', id);
    }
  }

  /** A new worker holds nothing. */
  lemma AddIdleConserves(submitted: seq<TaskId>, tasks: seq<Task>, views: seq<WorkerView>,
                         results: seq<Result>, delivered: seq<TaskId>, v: WorkerView)
    requires Conserved(submitted, tasks, views, results, delivered) && v.current.None?
    ensures Conserved(submitted, tasks, views + [v], results, delivered)
  {
    forall id
      ensures HeldCount(views + [v], id) == HeldCount(views, id)
    {
      HeldCountAppend(views, v, id);
    }
  }

  /** Workers that hold nothing can be dropped. */
  lemma DropIdleConserves(submitted: seq<TaskId>, tasks: seq<Task>, views: seq<WorkerView>,
                          results: seq<Result>, delivered: seq<TaskId>)
    requires Conserved(submitted, tasks, views, results, delivered)
    requires AllValid(views) && !AnyBusy(views)
    ensures Conserved(submitted, tasks, [], results, delivered)
  {
    forall id
      ensures HeldCount(views, id) == HeldCount([], id)
    {
      IdleHoldsNothing(views, id);
    }
  }

  /** When `next_result` gives up, every submitted task has had its result delivered. */
  lemma AllDeliveredAtEnd(submitted: seq<TaskId>, tasks: seq<Task>, views: seq<WorkerView>,
                          results: seq<Result>, delivered: seq<TaskId>)
    requires Conserved(submitted, tasks, views, results, delivered) && AllValid(views)
    requires tasks == [] && results == [] && !AnyBusy(views)
    ensures multiset(submitted) == multiset(delivered)
  {
    assert TaskIds(tasks) == [] && ResultIds(results) == [];
    forall id
      ensures Occurrences(submitted, id) == Occurrences(delivered, id)
    {
      IdleHoldsNothing(views, id);
    }
    SameOccurrencesSameMultiset(submitted, delivered);
  }

  /* ---------- the objects ---------- */

  /** `f"worker_{worker_no}"`. */
  function WorkerName(n: nat): string
  {
    "worker_" + DecimalString(n)
  }

  /** Workers get pairwise different names. */
  lemma WorkerNamesDistinct(n: nat, m: nat)
    requires n != m
    ensures WorkerName(n) != WorkerName(m)
  {
    var a, b := WorkerName(n), WorkerName(m);
    assert a[7..] == DecimalString(n) && b[7..] == DecimalString(m);
    DecimalRoundTrip(n);
    DecimalRoundTrip(m);
  }

  /** `_Worker`. */
  class Worker {
    const name: string
    var busy: bool
    var toStop: bool
    var current: Option<Task>
    var state: WorkerState

    function View(): WorkerView
      reads this
    {
      WorkerView(busy, toStop, current, state)
    }

    /** A new worker waits for tasks; its coroutine starts at once. */
    constructor(name: string)
      ensures this.name == name && View() == WorkerView(false, false, None, Running)
    {
      this.name := name;
      busy := false;
      toStop := false;
      current := None;
      state := Running;
    }

    /** `send_stop_signal`: the flag is set and never cleared. */
    method SendStopSignal()
      modifies this
      ensures View() == old(View()).(toStop := true)
    {
      toStop := true;
    }

    /** Entering `_processing` with the task just taken from the queue. */
    method BeginProcessing(task: Task)
      modifies this
      ensures View() == old(View()).(busy := true, current := Some(task))
    {
      busy := true;
      current := Some(task);
    }

    /** Leaving `_processing` after the scan returned. */
    method EndProcessing()
      modifies this
      ensures View() == old(View()).(busy := false, current := None)
    {
      busy := false;
      current := None;
    }

    /** The scan raised: the exception leaves `_processing` without clearing the flag and
        ends `_target`. */
    method Crash(e: Exception)
      modifies this
      ensures View() == old(View()).(state := Crashed(e))
    {
      state := Crashed(e);
    }

    /** `_target` breaks out of its loop and returns. */
    method Stop()
      modifies this
      ensures View() == old(View()).(state := Stopped)
    {
      state := Stopped;
    }
  }

  /** One turn of the loop in `next_result`: a result, the end, or a one-second timeout
      after which the loop tries again. */
  datatype NextOutcome = Delivered(result: Result) | NoMoreResults | TimedOut

  /** One turn of the second loop of `__aexit__`: it waits on a worker that still runs,
      re-raises the exception of the first worker that crashed, or finishes. */
  datatype ExitProgress = StillRunning | AllStopped

  /** What a ZAP scan of a task finds outside the program: the temporary directory, the
      parsed report if ZAP wrote one, and the process output. */
  datatype ScanObservation = ScanObservation(workdir: string, report: Option<Outcome<Json>>,
                                             stdout: Option<string>, stderr: Option<string>)

  /** `Orchestrator`. Its two queues are the `Queue` objects it shares with its workers;
      `imagePulled` is the cache of `_pull_docker_image`; the cache lives as long as the
      process, so a new orchestrator starts from whatever earlier ones left in it.
      The ghost fields record every id `scan` returned, every id `next_result` handed out,
      and each worker's fields as values. */
  class Orchestrator {
    var tasks: seq<Task>
    var results: seq<Result>
    var workers: seq<Worker>
    var imagePulled: bool
    ghost var submitted: seq<TaskId>
    ghost var delivered: seq<TaskId>
    ghost var views: seq<WorkerView>
    ghost var Repr: set<Worker>

    ghost predicate Valid()
      reads this, Repr
    {
      && (forall k :: 0 <= k < |workers| ==> workers[k] in Repr)
      && (forall i, j :: 0 <= i < j < |workers| ==> workers[i] != workers[j])
      && |views| == |workers|
      && (forall k :: 0 <= k < |workers| ==> workers[k].View() == views[k])
      && AllValid(views)
      && Conserved(submitted, tasks, views, results, delivered)
    }

    constructor(pulled: bool)
      ensures Valid()
      ensures tasks == [] && results == [] && workers == [] && imagePulled == pulled
      ensures submitted == [] && delivered == []
    {
      tasks := [];
      results := [];
      workers := [];
      imagePulled := pulled;
      submitted := [];
      delivered := [];
      views := [];
      Repr := {};
    }

    /** `scan`: a ZAP full scan is queued and its id returned; any other scanner raises. */
    method Scan(scanner: string, url: string) returns (r: Outcome<TaskId>)
      requires Valid()
      modifies this
      ensures Valid()
      ensures scanner == ZapScanner ==>
                && r == Ok(TaskId(scanner, url))
                && tasks == old(tasks) + [Task(TaskId(scanner, url), Full)]
                && submitted == old(submitted) + [TaskId(scanner, url)]
      ensures scanner != ZapScanner ==>
                && r == Raised(RuntimeError(UnexpectedScannerMessage(scanner)))
                && tasks == old(tasks) && submitted == old(submitted)
      ensures results == old(results) && workers == old(workers) && delivered == old(delivered)
      ensures imagePulled == old(imagePulled) && views == old(views)
    {
      var id := TaskId(scanner, url);
      if scanner != ZapScanner {
        return Raised(RuntimeError(UnexpectedScannerMessage(scanner)));
      }
      var task := Task(id, Full);
      SubmitConserves(submitted, tasks, views, results, delivered, task);
      tasks := tasks + [task];
      submitted := submitted + [id];
      r := Ok(id);
    }

    /** `_is_any_task_processing`. */
    function IsAnyTaskProcessing(): (r: bool)
      requires Valid()
      reads this, Repr
      ensures r <==> AnyBusy(views)
    {
      exists k :: 0 <= k < |workers| && workers[k].busy
    }

    /** One turn of `next_result`. It ends only when both queues are empty and no worker is
        busy, and then every submitted task has been delivered; a crashed worker stays busy,
        so once one has crashed the end is never reported. */
    method NextResult() returns (r: NextOutcome)
      requires Valid()
      modifies this
      ensures Valid()
      ensures r == NoMoreResults <==> old(results) == [] && old(tasks) == [] && !AnyBusy(views)
      ensures r == NoMoreResults ==> multiset(submitted) == multiset(delivered)
      ensures (exists k :: 0 <= k < |views| && views[k].state.Crashed?) ==> r != NoMoreResults
      ensures r.Delivered? <==> old(results) != []
      ensures r.Delivered? ==>
                && r.result == old(results)[0] && results == old(results)[1..]
                && delivered == old(delivered) + [r.result.id]
      ensures !r.Delivered? ==> results == old(results) && delivered == old(delivered)
      ensures tasks == old(tasks) && workers == old(workers) && submitted == old(submitted)
      ensures imagePulled == old(imagePulled) && views == old(views)
    {
      if results == [] && tasks == [] && !IsAnyTaskProcessing() {
        AllDeliveredAtEnd(submitted, tasks, views, results, delivered);
        return NoMoreResults;
      }
      if results == [] {
        return TimedOut;
      }
      r := Delivered(results[0]);
      DeliverConserves(submitted, tasks, views, results, delivered);
      delivered := delivered + [results[0].id];
      results := results[1..];
    }

    /** `__aenter__`: two new idle workers, `worker_1` and `worker_2`, join the pool. */
    method Enter()
      requires Valid()
      modifies this
      ensures Valid()
      ensures |workers| == |old(workers)| + WorkersNumber && workers[..|old(workers)|] == old(workers)
      ensures forall k :: |old(workers)| <= k < |workers| ==> fresh(workers[k])
      ensures forall k :: |old(workers)| <= k < |workers| ==> workers[k].name == WorkerName(k - |old(workers)| + 1)
      ensures forall k :: |old(workers)| <= k < |workers| ==> workers[k].View() == WorkerView(false, false, None, Running)
      ensures tasks == old(tasks) && results == old(results) && imagePulled == old(imagePulled)
      ensures submitted == old(submitted) && delivered == old(delivered)
    {
      ghost var n0 := |workers|;
      for n := 1 to WorkersNumber + 1
        invariant Valid()
        invariant |workers| == n0 + n - 1 && workers[..n0] == old(workers)
        invariant forall k :: n0 <= k < |workers| ==> fresh(workers[k])
        invariant forall k :: n0 <= k < |workers| ==> workers[k].name == WorkerName(k - n0 + 1)
        invariant forall k :: n0 <= k < |workers| ==> workers[k].View() == WorkerView(false, false, None, Running)
        invariant tasks == old(tasks) && results == old(results) && imagePulled == old(imagePulled)
        invariant submitted == old(submitted) && delivered == old(delivered)
      {
        AddWorker(WorkerName(n));
      }
    }

    /** `self._workers.append(_Worker(name, ...))`. */
    method AddWorker(name: string)
      requires Valid()
      modifies this
      ensures Valid()
      ensures |workers| == |old(workers)| + 1 && workers[..|old(workers)|] == old(workers)
      ensures fresh(workers[|old(workers)|]) && workers[|old(workers)|].name == name
      ensures workers[|old(workers)|].View() == WorkerView(false, false, None, Running)
      ensures tasks == old(tasks) && results == old(results) && imagePulled == old(imagePulled)
      ensures submitted == old(submitted) && delivered == old(delivered)
    {
      var w := new Worker(name);
      AddIdleConserves(submitted, tasks, views, results, delivered, w.View());
      workers := workers + [w];
      views := views + [w.View()];
      Repr := Repr + {w};
    }

    /** The first loop of `__aexit__`: every worker is asked to stop. */
    method SignalStop()
      requires Valid()
      modifies this, Repr
      ensures Valid()
      ensures workers == old(workers) && Repr == old(Repr)
      ensures forall k :: 0 <= k < |workers| ==> workers[k].View() == old(workers[k].View()).(toStop := true)
      ensures tasks == old(tasks) && results == old(results) && imagePulled == old(imagePulled)
      ensures submitted == old(submitted) && delivered == old(delivered)
    {
      ghost var before := views;
      for k := 0 to |workers|
        modifies Repr
        invariant forall j :: 0 <= j < k ==> workers[j].View() == before[j].(toStop := true)
        invariant forall j :: k <= j < |workers| ==> workers[j].View() == before[j]
      {
        workers[k].SendStopSignal();
      }
      views := seq(|before|, j requires 0 <= j < |before| => before[j].(toStop := true));
      SameHoldingsConserve(submitted, tasks, before, views, results, delivered);
    }

    /** One pass of the second loop of `__aexit__` and the reset after it. Awaiting a
        crashed worker re-raises its exception, and the pool is then never emptied. */
    method AwaitWorkers() returns (r: Outcome<ExitProgress>)
      requires Valid()
      modifies this
      ensures Valid()
      ensures r == Ok(AllStopped) <==> forall k :: 0 <= k < |old(workers)| ==> old(workers)[k].state.Stopped?
      ensures r == Ok(AllStopped) ==> workers == []
      ensures r != Ok(AllStopped) ==>
                && workers == old(workers)
                && exists k :: 0 <= k < |workers|
                     && (forall j :: 0 <= j < k ==> workers[j].state.Stopped?)
                     && ((workers[k].state.Running? && r == Ok(StillRunning))
                         || (workers[k].state.Crashed? && r == Raised(workers[k].state.exc)))
      ensures tasks == old(tasks) && results == old(results) && imagePulled == old(imagePulled)
      ensures submitted == old(submitted) && delivered == old(delivered)
    {
      for k := 0 to |workers|
        invariant forall j :: 0 <= j < k ==> workers[j].state.Stopped?
      {
        match workers[k].state
        case Running =>
          return Ok(StillRunning);
        case Crashed(e) =>
          return Raised(e);
        case Stopped =>
      }
      DropIdleConserves(submitted, tasks, views, results, delivered);
      workers := [];
      views := [];
      r := Ok(AllStopped);
    }

    /** A waiting worker's `get` returns the task at the front of the queue and the worker
        enters `_processing`. */
    method WorkerDequeue(i: nat)
      requires Valid() && i < |workers|
      requires workers[i].state.Running? && !workers[i].busy && tasks != []
      modifies this, workers[i]
      ensures Valid()
      ensures tasks == old(tasks)[1..] && workers == old(workers)
      ensures workers[i].View() == old(workers[i].View()).(busy := true, current := Some(old(tasks)[0]))
      ensures results == old(results) && imagePulled == old(imagePulled)
      ensures submitted == old(submitted) && delivered == old(delivered)
    {
      var w := workers[i];
      var task := tasks[0];
      DequeueConserves(submitted, tasks, views, results, delivered, i);
      tasks := tasks[1..];
      w.BeginProcessing(task);
      views := views[i := w.View()];
    }

    /** A waiting worker's `get` times out on the empty queue: the worker returns if it was
        asked to stop and waits again otherwise. */
    method WorkerPollTimeout(i: nat)
      requires Valid() && i < |workers|
      requires workers[i].state.Running? && !workers[i].busy && tasks == []
      modifies this, workers[i]
      ensures Valid()
      ensures workers == old(workers) && tasks == old(tasks) && results == old(results)
      ensures submitted == old(submitted) && delivered == old(delivered) && imagePulled == old(imagePulled)
      ensures old(workers[i].toStop) ==> workers[i].View() == old(workers[i].View()).(state := Stopped)
      ensures !old(workers[i].toStop) ==> workers[i].View() == old(workers[i].View())
    {
      var w := workers[i];
      if w.toStop {
        ghost var before := views;
        w.Stop();
        views := views[i := w.View()];
        SameHoldingsConserve(submitted, tasks, before, views, results, delivered);
      }
    }

    /** A busy worker's scan ends. A result leaves `_processing` and goes to the back of the
        result queue; an exception ends the worker with its flag still set and its task
        never answered. */
    method WorkerComplete(i: nat, obs: ScanObservation)
      requires Valid() && i < |workers|
      requires workers[i].state.Running? && workers[i].busy
      modifies this, workers[i]
      ensures Valid()
      ensures workers == old(workers) && tasks == old(tasks)
      ensures submitted == old(submitted) && delivered == old(delivered)
      ensures imagePulled == (old(imagePulled) || old(workers[i].current).value.id.url != [])
      ensures var task := old(workers[i].current).value;
              var outcome := ScanOutcome(task.id.url, obs.report, obs.stdout, obs.stderr);
              && (outcome.Ok? ==>
                    && results == old(results) + [Result(task.id, outcome.value)]
                    && workers[i].View() == old(workers[i].View()).(busy := false, current := None))
              && (outcome.Raised? ==>
                    && results == old(results)
                    && workers[i].View() == old(workers[i].View()).(state := Crashed(outcome.exc)))
    {
      var task := workers[i].current.value;
      var commands, outcome := ZapScan(task.id.url, task.scanType, imagePulled, obs.workdir,
                                       obs.report, obs.stdout, obs.stderr);
      imagePulled := imagePulled || task.id.url != [];
      if outcome.Raised? {
        CrashWorker(i, outcome.exc);
      } else {
        FinishTask(i, outcome.value);
      }
    }

    /** The end of `_processing` and the `put` after it. */
    method FinishTask(i: nat, scanResult: ZapOutcome)
      requires Valid() && i < |workers| && workers[i].state.Running? && workers[i].busy
      modifies this, workers[i]
      ensures Valid()
      ensures workers == old(workers) && tasks == old(tasks) && imagePulled == old(imagePulled)
      ensures results == old(results) + [Result(old(workers[i].current).value.id, scanResult)]
      ensures workers[i].View() == old(workers[i].View()).(busy := false, current := None)
      ensures submitted == old(submitted) && delivered == old(delivered)
    {
      var w := workers[i];
      var id := w.current.value.id;
      CompleteConserves(submitted, tasks, views, results, delivered, i, scanResult);
      w.EndProcessing();
      results := results + [Result(id, scanResult)];
      views := views[i := w.View()];
    }

    /** An exception out of the scan ends the worker's coroutine. */
    method CrashWorker(i: nat, e: Exception)
      requires Valid() && i < |workers| && workers[i].busy
      modifies this, workers[i]
      ensures Valid()
      ensures workers == old(workers) && tasks == old(tasks) && results == old(results)
      ensures imagePulled == old(imagePulled)
      ensures submitted == old(submitted) && delivered == old(delivered)
      ensures workers[i].View() == old(workers[i].View()).(state := Crashed(e))
    {
      var w := workers[i];
      ghost var before := views;
      w.Crash(e);
      views := views[i := w.View()];
      SameHoldingsConserve(submitted, tasks, before, views, results, delivered);
    }
  }
}
