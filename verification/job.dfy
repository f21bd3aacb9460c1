/** The job wrapper of lib/job.ts: a local shadow `{logs, params, state}` of one
    engine-native job that is written through to the engine on every mutation.
    The engine is abstracted as the sequence of calls the wrapper makes on it. */
module Job {
  import opened Wrappers
  import opened Values

  datatype Level = Debug | Error | Info | Warn

  /** One entry of the log trail; `time` is the clock reading taken when the
      entry is appended, supplied by the caller. */
  datatype LogEntry = LogEntry(level: Level, time: int, body: seq<Value>)

  /** The record that is persisted as a whole on every write. */
  datatype Data = Data(logs: seq<LogEntry>, params: Value, state: Value)

  /** The engine calls that only forward and keep no local state. */
  datatype ProxyOp = Progress(value: int) | GetState | Remove | Retry | Discard | Promote | Finished

  /** One call made on the engine-native job. */
  datatype Effect = Persist(snapshot: Data) | Forward(op: ProxyOp)

  /** A wrapper: its local data and every engine call it has made, oldest first. */
  datatype Job = Job(data: Data, effects: seq<Effect>)

  /** A call on the wrapper; `UpdateCall(None)` is `update()` with no argument. */
  datatype Call =
    | UpdateCall(arg: Option<Value>)
    | LogCall(level: Level, time: int, body: seq<Value>)
    | ProxyCall(op: ProxyOp)

  // ---------------------------------------------------------------------------
  // The engine's view: the snapshots written so far

  /** The persistence writes among `effects`, in the order they were made.
      When the last engine call was a write, it is the last snapshot. */
  function Snapshots(effects: seq<Effect>): (w: seq<Data>)
    ensures effects != [] && effects[|effects| - 1].Persist? ==>
      w != [] && w[|w| - 1] == effects[|effects| - 1].snapshot
  {
    if effects == [] then []
    else
      var rest := Snapshots(effects[1..]);
      match effects[0]
      case Persist(d) => [d] + rest
      case Forward(_) => rest
  }

  /** What the engine holds for the job: the last snapshot written, if any.
      A write made as the last engine call is what the engine holds. */
  function Persisted(effects: seq<Effect>): (r: Option<Data>)
    ensures effects != [] && effects[|effects| - 1].Persist? ==>
      r == Some(effects[|effects| - 1].snapshot)
  {
    var w := Snapshots(effects);
    if w == [] then None else Some(w[|w| - 1])
  }

  lemma {:induction false} SnapshotsAppend(a: seq<Effect>, b: seq<Effect>)
    ensures Snapshots(a + b) == Snapshots(a) + Snapshots(b)
  {
    if a != [] {
      assert (a + b)[1..] == a[1..] + b;
      SnapshotsAppend(a[1..], b);
    } else {
      assert a + b == b;
    }
  }

  /** Appending one effect adds its snapshot, if it is a write, at the end. */
  lemma SnapshotsPush(effects: seq<Effect>, e: Effect)
    ensures Snapshots(effects + [e]) == Snapshots(effects) + (if e.Persist? then [e.snapshot] else [])
  {
    SnapshotsAppend(effects, [e]);
    assert Snapshots([e]) == (if e.Persist? then [e.snapshot] else []) by {
      assert [e][1..] == [];
    }
  }

  /** The write-through invariant: the engine never holds another job's params,
      every write carried a prefix of the current log trail, and the last write
      is exactly the local record (before the first write the record is the
      freshly constructed one: no logs, no state). */
  ghost predicate Valid(j: Job) {
    var w := Snapshots(j.effects);
    && (forall i :: 0 <= i < |w| ==> w[i].params == j.data.params && w[i].logs <= j.data.logs)
    && (if w == [] then j.data.logs == [] && j.data.state == Undefined
        else w[|w| - 1] == j.data)
  }

  // ---------------------------------------------------------------------------
  // Operations

  /** `new Job(job)`: empty logs, the engine job's data as params, no state,
      and nothing written yet. */
  function New(engineData: Value): (j: Job)
    ensures j.data.logs == [] && j.data.params == engineData && j.data.state == Undefined
    ensures j.effects == [] && Persisted(j.effects) == None
    ensures Valid(j)
  {
    Job(Data([], engineData, Undefined), [])
  }

  /** `update(state?)`: replaces `state` exactly when an argument was passed
      (an explicit `undefined` included), then writes the whole record once. */
  function Update(j: Job, arg: Option<Value>): (r: Job)
    ensures arg.None? ==> r.data.state == j.data.state
    ensures arg.Some? ==> r.data.state == arg.value
    ensures r.data.logs == j.data.logs && r.data.params == j.data.params
    ensures r.effects == j.effects + [Persist(r.data)]
    ensures Snapshots(r.effects) == Snapshots(j.effects) + [r.data]
    ensures Persisted(r.effects) == Some(r.data)
  {
    var d := if arg.Some? then j.data.(state := arg.value) else j.data;
    SnapshotsPush(j.effects, Persist(d));
    Job(d, j.effects + [Persist(d)])
  }

  /** The contract shared by `log` and its four level wrappers: `entry` is
      appended after the existing, unchanged entries, state and params are
      untouched, and exactly one write of the new record is made. */
  ghost predicate Logged(j: Job, r: Job, entry: LogEntry) {
    && r.data.logs == j.data.logs + [entry]
    && r.data.state == j.data.state
    && r.data.params == j.data.params
    && r.effects == j.effects + [Persist(r.data)]
    && Persisted(r.effects) == Some(r.data)
  }

  /** `log(level, ...body)`: push the entry, then `update()` with no argument. */
  function Log(j: Job, level: Level, time: int, body: seq<Value>): (r: Job)
    ensures Logged(j, r, LogEntry(level, time, body))
    ensures r.data.logs[|j.data.logs|] == LogEntry(level, time, body)
  {
    var pushed := j.(data := j.data.(logs := j.data.logs + [LogEntry(level, time, body)]));
    Update(pushed, None)
  }

  function Debug(j: Job, time: int, body: seq<Value>): (r: Job)
    ensures Logged(j, r, LogEntry(Level.Debug, time, body))
  {
    Log(j, Level.Debug, time, body)
  }

  function Error(j: Job, time: int, body: seq<Value>): (r: Job)
    ensures Logged(j, r, LogEntry(Level.Error, time, body))
  {
    Log(j, Level.Error, time, body)
  }

  function Info(j: Job, time: int, body: seq<Value>): (r: Job)
    ensures Logged(j, r, LogEntry(Level.Info, time, body))
  {
    Log(j, Level.Info, time, body)
  }

  function Warn(j: Job, time: int, body: seq<Value>): (r: Job)
    ensures Logged(j, r, LogEntry(Level.Warn, time, body))
  {
    Log(j, Level.Warn, time, body)
  }

  /** The proxies (`progress`, `getState`, `remove`, `retry`, `discard`,
      `promote`, `finished`): one forwarded engine call, no local change and
      no write. */
  function Proxy(j: Job, op: ProxyOp): (r: Job)
    ensures r.data == j.data
    ensures r.effects == j.effects + [Forward(op)]
    ensures Snapshots(r.effects) == Snapshots(j.effects)
  {
    SnapshotsPush(j.effects, Forward(op));
    Job(j.data, j.effects + [Forward(op)])
  }

  function Step(j: Job, c: Call): Job {
    match c
    case UpdateCall(arg) => Update(j, arg)
    case LogCall(level, time, body) => Log(j, level, time, body)
    case ProxyCall(op) => Proxy(j, op)
  }

  /** The calls applied one after another, each awaited before the next. */
  function Run(j: Job, calls: seq<Call>): Job
    decreases |calls|
  {
    if calls == [] then j else Run(Step(j, calls[0]), calls[1..])
  }

  // ---------------------------------------------------------------------------
  // Reference definitions of what a call sequence should do

  /** The log entries the calls append, in call order. */
  function Entries(calls: seq<Call>): seq<LogEntry> {
    if calls == [] then []
    else
      (match calls[0]
       case LogCall(level, time, body) => [LogEntry(level, time, body)]
       case _ => [])
      + Entries(calls[1..])
  }

  /** The number of calls that write the record (`update` and `log`). */
  function Mutations(calls: seq<Call>): nat {
    if calls == [] then 0
    else (if calls[0].ProxyCall? then 0 else 1) + Mutations(calls[1..])
  }

  /** The argument of the last `update` called with one, or `current`. */
  function LastState(calls: seq<Call>, current: Value): Value {
    if calls == [] then current
    else
      var next := if calls[0].UpdateCall? && calls[0].arg.Some? then calls[0].arg.value else current;
      LastState(calls[1..], next)
  }

  // ---------------------------------------------------------------------------
  // Properties

  /** Every operation keeps the write-through invariant. */
  lemma StepPreservesValid(j: Job, c: Call)
    requires Valid(j)
    ensures Valid(Step(j, c))
  {
  }

  lemma {:induction false} RunPreservesValid(j: Job, calls: seq<Call>)
    requires Valid(j)
    ensures Valid(Run(j, calls))
    decreases |calls|
  {
    if calls != [] {
      StepPreservesValid(j, calls[0]);
      RunPreservesValid(Step(j, calls[0]), calls[1..]);
    }
  }

  /** One call: params are kept, the call's entry (if any) is appended, and
      the engine receives one write exactly when the call mutates. */
  lemma StepSummary(j: Job, c: Call)
    ensures Step(j, c).data.params == j.data.params
    ensures Step(j, c).data.logs == j.data.logs + Entries([c])
    ensures |Snapshots(Step(j, c).effects)| == |Snapshots(j.effects)| + Mutations([c])
  {
  }

  /** Awaited calls in sequence: params never change, the log trail is the old
      one followed by the new entries in call order, and the engine receives
      exactly one write per `update`/`log` call. */
  lemma {:induction false} RunSummary(j: Job, calls: seq<Call>)
    ensures Run(j, calls).data.params == j.data.params
    ensures Run(j, calls).data.logs == j.data.logs + Entries(calls)
    ensures |Snapshots(Run(j, calls).effects)| == |Snapshots(j.effects)| + Mutations(calls)
    decreases |calls|
  {
    if calls != [] {
      var c := calls[0];
      var j1 := Step(j, c);
      StepSummary(j, c);
      RunSummary(j1, calls[1..]);
      assert [c][1..] == [];
      assert Entries(calls) == Entries([c]) + Entries(calls[1..]);
      assert Mutations(calls) == Mutations([c]) + Mutations(calls[1..]);
      assert j.data.logs + Entries([c]) + Entries(calls[1..]) == j.data.logs + Entries(calls);
    }
  }

  /** After awaited calls in sequence, `state` is the argument of the last
      `update` that was passed one, and the earlier engine calls are kept. */
  lemma {:induction false} RunState(j: Job, calls: seq<Call>)
    ensures Run(j, calls).data.state == LastState(calls, j.data.state)
    ensures j.effects <= Run(j, calls).effects
    decreases |calls|
  {
    if calls != [] {
      RunState(Step(j, calls[0]), calls[1..]);
    }
  }

  /** What the engine holds after awaited calls on a fresh job, once at least
      one of them wrote: the log entries in call order, the job's data as
      params, and the last explicitly passed state. */
  lemma PersistedInCallOrder(p: Value, calls: seq<Call>)
    requires Mutations(calls) > 0
    ensures Persisted(Run(New(p), calls).effects) == Some(Data(Entries(calls), p, LastState(calls, Undefined)))
  {
    var j := New(p);
    var r := Run(j, calls);
    RunPreservesValid(j, calls);
    RunSummary(j, calls);
    RunState(j, calls);
    assert Snapshots(r.effects) != [];
    assert r.data.logs == Entries(calls);
    assert r.data == Data(Entries(calls), p, LastState(calls, Undefined));
  }

  /** n awaited `log` calls: the trail grows by n entries, the i-th new entry is
      the i-th call's, and the engine receives n more writes. */
  lemma LogsInCallOrder(j: Job, calls: seq<Call>)
    requires forall k :: 0 <= k < |calls| ==> calls[k].LogCall?
    ensures |Run(j, calls).data.logs| == |j.data.logs| + |calls|
    ensures forall k :: 0 <= k < |calls| ==>
      Run(j, calls).data.logs[|j.data.logs| + k] == LogEntry(calls[k].level, calls[k].time, calls[k].body)
    ensures Run(j, calls).data.logs[..|j.data.logs|] == j.data.logs
    ensures |Snapshots(Run(j, calls).effects)| == |Snapshots(j.effects)| + |calls|
  {
    RunSummary(j, calls);
    OnlyLogs(calls);
  }

  lemma {:induction false} OnlyLogs(calls: seq<Call>)
    requires forall k :: 0 <= k < |calls| ==> calls[k].LogCall?
    ensures |Entries(calls)| == |calls| == Mutations(calls)
    ensures forall k :: 0 <= k < |calls| ==>
      Entries(calls)[k] == LogEntry(calls[k].level, calls[k].time, calls[k].body)
  {
    if calls != [] {
      OnlyLogs(calls[1..]);
    }
  }

  /** The arity sentinel: `update()` keeps a set state while `update(undefined)`
      clears it, and both make exactly one write. */
  lemma UpdateArityMatters(j: Job, x: Value)
    requires x != Undefined
    ensures Update(Update(j, Some(x)), None).data.state == x
    ensures Update(Update(j, Some(x)), Some(Undefined)).data.state == Undefined
    ensures Persisted(Update(Update(Update(j, None), Some(x)), None).effects).value.state == x
    ensures |Snapshots(Update(Update(j, Some(x)), None).effects)| == |Snapshots(j.effects)| + 2
  {
  }

  /** A handler that calls `job.info("sending")` on a fresh job leaves the
      engine holding exactly one log entry, at level info, with body
      `["sending"]`, and the job's data as params. */
  lemma InfoOnFreshJob(payload: Value, time: int)
    ensures var r := Info(New(payload), time, [Str("sending")]);
      && Persisted(r.effects) == Some(Data([LogEntry(Level.Info, time, [Str("sending")])], payload, Undefined))
      && |Snapshots(r.effects)| == 1
  {
    var entry := LogEntry(Level.Info, time, [Str("sending")]);
    var r := Info(New(payload), time, [Str("sending")]);
    assert r.data.logs == [] + [entry];
    assert r.data == Data([entry], payload, Undefined);
    assert r.effects == [Persist(r.data)];
    assert Snapshots(r.effects) == [r.data] by {
      assert r.effects[1..] == [];
    }
  }
}
