/** The task registry of lib/jobba.ts: a map from task id to the queue that
    serves it. A queue is abstracted to its name, its options, the processing
    function bound to it and the jobs added to it, oldest first. */
module Jobba {
  import opened Wrappers
  import opened Values

  /** The identity of a processing function `(job) => Promise<any>`. */
  datatype Processor = Processor(name: string)

  /** A job added to a queue: its data and its per-job options. */
  datatype Pending = Pending(data: Value, options: Value)

  datatype Queue = Queue(id: string, options: Value, processor: Processor, pending: seq<Pending>)

  /** A task descriptor, read as the arguments `(id, fn, options)` of `register`. */
  datatype Task = Task(id: string, fn: Processor, options: Value)

  datatype Jobba = Jobba(config: Value, queues: map<string, Queue>)

  /** Scheduling against an id that was never registered. */
  datatype ScheduleError = UnknownTask(id: string)

  /** Every queue is stored under its own name. */
  ghost predicate WellFormed(r: Jobba) {
    forall id :: id in r.queues ==> r.queues[id].id == id
  }

  /** `new Jobba(config)`: no queues yet. */
  function New(config: Value): (r: Jobba)
    ensures r.config == config && |r.queues| == 0
    ensures WellFormed(r)
  {
    Jobba(config, map[])
  }

  /** `register(id, fn, options)`: a new queue object named `id` with `options`
      and `fn` bound as its processor, with nothing added through it yet,
      replaces whatever was stored under `id`; every other entry is kept.
      The replaced queue object is only dropped from the map. */
  function Register(r: Jobba, id: string, fn: Processor, options: Value): (r': Jobba)
    ensures r'.config == r.config
    ensures r'.queues.Keys == r.queues.Keys + {id}
    ensures r'.queues[id].id == id && r'.queues[id].options == options
    ensures r'.queues[id].processor == fn && r'.queues[id].pending == []
    ensures forall k :: k in r.queues && k != id ==> r'.queues[k] == r.queues[k]
    ensures WellFormed(r) ==> WellFormed(r')
  {
    r.(queues := r.queues[id := Queue(id, options, fn, [])])
  }

  /** `schedule(id, data, options)`: adds `(data, options)` to the end of the
      queue registered under `id`. An unregistered id is an `UnknownTask`
      error; a failure carries no registry, so the caller keeps the one it
      passed in. */
  function Schedule(r: Jobba, id: string, data: Value, options: Value): (res: Result<Jobba, ScheduleError>)
    ensures res.Failure? <==> id !in r.queues
    ensures res.Failure? ==> res.error == UnknownTask(id)
    ensures res.Success? ==>
      && res.value.config == r.config
      && res.value.queues.Keys == r.queues.Keys
      && res.value.queues[id].pending == r.queues[id].pending + [Pending(data, options)]
      && res.value.queues[id].id == r.queues[id].id
      && res.value.queues[id].options == r.queues[id].options
      && res.value.queues[id].processor == r.queues[id].processor
      && (forall k :: k in r.queues && k != id ==> res.value.queues[k] == r.queues[k])
    ensures res.Success? && WellFormed(r) ==> WellFormed(res.value)
  {
    if id !in r.queues then Failure(UnknownTask(id))
    else
      var q := r.queues[id];
      Success(r.(queues := r.queues[id := q.(pending := q.pending + [Pending(data, options)])]))
  }

  /** `schedule` called for each item in turn, stopping at the first error. */
  function ScheduleAll(r: Jobba, id: string, items: seq<Pending>): Result<Jobba, ScheduleError>
    decreases |items|
  {
    if items == [] then Success(r)
    else
      match Schedule(r, id, items[0].data, items[0].options)
      case Failure(e) => Failure(e)
      case Success(r1) => ScheduleAll(r1, id, items[1..])
  }

  /** `register` called for each task in turn. */
  function RegisterAll(r: Jobba, tasks: seq<Task>): Jobba
    decreases |tasks|
  {
    if tasks == [] then r
    else
      var last := tasks[|tasks| - 1];
      Register(RegisterAll(r, tasks[..|tasks| - 1]), last.id, last.fn, last.options)
  }

  /** The queue `register(t.id, t.fn, t.options)` creates. */
  function FreshQueue(t: Task): Queue {
    Queue(t.id, t.options, t.fn, [])
  }

  /** Task `i` is the last one with its id. */
  ghost predicate LastWithId(tasks: seq<Task>, i: int)
    requires 0 <= i < |tasks|
  {
    forall k :: i < k < |tasks| ==> tasks[k].id != tasks[i].id
  }

  // ---------------------------------------------------------------------------
  // Properties

  /** Re-registering an id replaces the map entry: only the last registration
      is stored under the id, whatever was stored there before. */
  lemma ReRegisterReplaces(r: Jobba, id: string, fnA: Processor, optA: Value, fnB: Processor, optB: Value)
    ensures Register(Register(r, id, fnA, optA), id, fnB, optB) == Register(r, id, fnB, optB)
    ensures Register(Register(r, id, fnA, optA), id, fnB, optB).queues[id].processor == fnB
  {
  }

  /** After `register(id, fn, o)`, scheduling on `id` succeeds and the queue
      object stored under `id` has had exactly that one job added through it,
      with `fn` bound as its processor. */
  lemma RegisterThenSchedule(r: Jobba, id: string, fn: Processor, o: Value, data: Value, jobOptions: Value)
    ensures Schedule(Register(r, id, fn, o), id, data, jobOptions).Success?
    ensures Schedule(Register(r, id, fn, o), id, data, jobOptions).value.queues[id]
         == Queue(id, o, fn, [Pending(data, jobOptions)])
  {
  }

  /** Jobs scheduled one after another on a registered id are added to its
      queue object in call order after the ones already added, and no other
      queue changes; on an unregistered id the first call fails. */
  lemma {:induction false} ScheduleInOrder(r: Jobba, id: string, items: seq<Pending>)
    ensures id in r.queues ==>
      && ScheduleAll(r, id, items).Success?
      && ScheduleAll(r, id, items).value.queues.Keys == r.queues.Keys
      && ScheduleAll(r, id, items).value.queues[id].pending == r.queues[id].pending + items
      && ScheduleAll(r, id, items).value.queues[id].processor == r.queues[id].processor
      && (forall k :: k in r.queues && k != id ==> ScheduleAll(r, id, items).value.queues[k] == r.queues[k])
    ensures id !in r.queues && items != [] ==>
      ScheduleAll(r, id, items) == Failure(UnknownTask(id))
    decreases |items|
  {
    if items != [] && id in r.queues {
      var r1 := Schedule(r, id, items[0].data, items[0].options).value;
      ScheduleInOrder(r1, id, items[1..]);
      assert r.queues[id].pending + [items[0]] + items[1..] == r.queues[id].pending + items;
    }
  }

  /** The ids of a list of tasks. */
  function Ids(tasks: seq<Task>): set<string> {
    set i | 0 <= i < |tasks| :: tasks[i].id
  }

  lemma IdsPush(tasks: seq<Task>)
    requires tasks != []
    ensures Ids(tasks) == Ids(tasks[..|tasks| - 1]) + {tasks[|tasks| - 1].id}
  {
  }

  /** Registering a list of tasks grows the domain by exactly their ids and
      keeps the registry's config and well-formedness. */
  lemma {:induction false} RegisterAllDomain(r: Jobba, tasks: seq<Task>)
    ensures RegisterAll(r, tasks).queues.Keys == r.queues.Keys + Ids(tasks)
    ensures RegisterAll(r, tasks).config == r.config
    ensures WellFormed(r) ==> WellFormed(RegisterAll(r, tasks))
    decreases |tasks|
  {
    if tasks != [] {
      RegisterAllDomain(r, tasks[..|tasks| - 1]);
      IdsPush(tasks);
    }
  }

  /** After registering a list of tasks, the queue under each id is the fresh
      one of the last task with that id: the last registration wins. */
  lemma {:induction false} RegisterAllLastWins(r: Jobba, tasks: seq<Task>, i: int)
    requires 0 <= i < |tasks| && LastWithId(tasks, i)
    ensures tasks[i].id in RegisterAll(r, tasks).queues
    ensures RegisterAll(r, tasks).queues[tasks[i].id] == FreshQueue(tasks[i])
    decreases |tasks|
  {
    var n := |tasks| - 1;
    if i < n {
      var init := tasks[..n];
      assert init[i] == tasks[i];
      assert tasks[n].id != tasks[i].id;
      assert LastWithId(init, i) by {
        forall k | i < k < |init| ensures init[k].id != init[i].id {
          assert init[k] == tasks[k];
        }
      }
      RegisterAllLastWins(r, init, i);
    }
  }

  /** Registering a list of tasks keeps every entry whose id none of them has. */
  lemma {:induction false} RegisterAllKeepsOthers(r: Jobba, tasks: seq<Task>, k: string)
    requires k in r.queues && k !in Ids(tasks)
    ensures k in RegisterAll(r, tasks).queues && RegisterAll(r, tasks).queues[k] == r.queues[k]
    decreases |tasks|
  {
    if tasks != [] {
      IdsPush(tasks);
      RegisterAllKeepsOthers(r, tasks[..|tasks| - 1], k);
      RegisterAllDomain(r, tasks[..|tasks| - 1]);
    }
  }
}
