# jobba, modelled in Dafny

jobba is a thin layer over a durable job queue (Bull) and an HTTP framework
(Koa with koa-router). This project models the three pieces of sequential
bookkeeping that the layer itself does:

- **Job** (`job.dfy`, lib/job.ts). This wraps one engine-native job. It holds a
  local record `{logs, params, state}` and writes the whole record through to
  the engine on every `update` and every `log`. The engine is modelled as the
  sequence of calls the wrapper makes on it: `Persist(snapshot)` for
  `job.update(data)`, and `Forward(op)` for the proxies. `update(state?)`
  looks at how many arguments it got, not at their value. So its argument is
  an `Option<Value>`: `None` means "no argument", and `Some(Undefined)` is an
  explicit `undefined`. The clock reading for a log entry is a parameter.
- **Jobba** (`jobba.dfy`, lib/jobba.ts). This is the task registry: a map from
  task id to a queue object `{id, options, processor, pending}`. `pending`
  lists the jobs added through that queue object. `register` replaces the
  map entry under the id (last write wins for the entry). `schedule` adds
  `(data, options)` through the queue object stored under the id. When the id
  is not registered, `schedule` returns an `UnknownTask` error. A failure
  carries no registry, so the caller keeps the one it had.
- **Server** (`server.dfy`, lib/server.ts). The router, the application and
  the registry are modelled as the sequence of calls the server makes on
  them: `AddRoute`, `Use` and `AddTask`. The route table, the middleware
  chain and the registered tasks are read off that sequence. `register`
  accepts either of its two call shapes. `init` works in a fixed order: the
  application routes, then `GET /routes`, then the tasks, then four
  middleware in order (body parser, context injection, router routes,
  allowed methods).

`wrappers.dfy` defines `Option` and `Result`. `values.dfy` defines the opaque
JavaScript `Value` that the layer passes through verbatim.

Assumptions where the source is incomplete or does not type-check:
- lib/server.ts:5 imports `Task` from `./jobba`, but lib/jobba.ts exports no
  `Task`. The model declares `Jobba.Task = Task(id, fn, options)`.
- lib/server.ts:66 calls `this.jobba.register(task)` with one object, but
  `register` takes `(id, fn, options)` (lib/jobba.ts:14). The model reads this
  as `register(task.id, task.fn, task.options)`.
- lib/server.ts:6 imports the application routes from `./routes`.
  lib/routes is not part of this model, so `Server.New` and `Server.Init`
  take the route list as a parameter. `new Jobba()` gets no config, which is
  modelled as `Undefined`.
- A route object may lack `method` (src/routes/index.ts passes one without).
  lib/server.ts:30 would then throw on `method.toLowerCase()`. The model
  returns `MethodUndefined(path)` instead of assuming a method is present.
  The constructor throws in that case, so no server exists and no partial
  state is kept.
- Handlers are tags: the default no-op, the `/routes` handler
  `ListRoutes(routes)`, and `App(name)` for application code. Processing
  functions are tags as well (`Jobba.Processor`).

- lib/jobba.ts:21 does not check the lookup. For an unregistered id,
  `this.queues.get(id)` is `undefined` and `.add` throws a TypeError. The
  model returns an explicit `UnknownTask(id)` error in its place.

Further facts about the code that the model keeps:
- The `/routes` handler sets the body to the array `initRoutes` was given
  (lib/server.ts:58-59). That array does not include `/routes` itself.
- Registering a route after `start` is not rejected. The model has no
  listening state.

## Model

| member | source | states |
|---|---|---|
| `Job.New` | lib/job.ts:18-24 | A new job has no logs, the engine job's data as params and an undefined state. No write has been made yet. The write-through invariant `Valid` holds. |
| `Job.Update` | lib/job.ts:35-38 | With no argument the state is unchanged. With an argument, including an explicit undefined, the state becomes exactly that argument. Logs and params are kept. Exactly one write is appended, and it carries the whole new record, so the engine now holds the local record. |
| `Job.Log` | lib/job.ts:40-47 | The new entry `{level, time, body}` is appended after the unchanged earlier entries. State and params are untouched. Exactly one write of the new record is made, as with `update()` called without an argument. |
| `Job.Debug` | lib/job.ts:48 | Behaves as `log` at level debug: one entry appended, state and params kept, one write. |
| `Job.Error` | lib/job.ts:49 | Behaves as `log` at level error. |
| `Job.Info` | lib/job.ts:50 | Behaves as `log` at level info. |
| `Job.Warn` | lib/job.ts:51 | Behaves as `log` at level warn. |
| `Job.Persisted` | lib/job.ts:37 | When the last engine call was a write of the record, that record is what the engine holds. |
| `Job.Proxy` | lib/job.ts:27-33 | A proxy call forwards one engine call. It leaves the local record as it was and makes no write. |
| `Job.StepPreservesValid` | lib/job.ts:35-47 | Every operation keeps the write-through invariant. Every write carried the job's own params and a prefix of the current log trail. The last write equals the local record, so no partial write is ever what the engine holds. |
| `Job.RunPreservesValid` | lib/job.ts:35-47 | The invariant holds after any sequence of awaited calls. |
| `Job.RunSummary` | lib/job.ts:19-47 | After any sequence of awaited calls, params are unchanged. The log trail is the old one followed by the new entries in call order. The engine got exactly one write per `update`/`log` call. |
| `Job.RunState` | lib/job.ts:35-36 | After a sequence of calls, the state is the argument of the last `update` that was passed one, or the old state if there was none. Earlier engine calls are kept as a prefix. |
| `Job.PersistedInCallOrder` | lib/job.ts:18-47 | After awaited calls on a fresh job, at least one of which writes, the engine holds exactly the log entries in call order, the job's data as params, and the last explicitly passed state. |
| `Job.LogsInCallOrder` | lib/job.ts:40-47 | After n `log` calls the trail has n more entries. The k-th new entry is the k-th call's. The old entries are a prefix. The engine got n more writes. |
| `Job.UpdateArityMatters` | lib/job.ts:35-37 | `update()` keeps a state that was set. `update(undefined)` clears it. Each call makes one write. |
| `Job.InfoOnFreshJob` | lib/job.ts:40-50 | `info("sending")` on a fresh job leaves the engine holding exactly one entry, at level info, with body `["sending"]`. Params are the job's data and the state is undefined. One write was made. |
| `Jobba.New` | lib/jobba.ts:9-12 | A new registry keeps its config and has no queues. |
| `Jobba.Register` | lib/jobba.ts:14-18 | The domain becomes the old domain plus `id`. The map entry under `id` is a new queue object named `id`, with the given options, `fn` bound as its processor, and nothing added through it yet. Every other entry is unchanged. Queue names keep matching their keys. |
| `Jobba.Schedule` | lib/jobba.ts:20-22 | The call fails exactly when `id` is not registered, with `UnknownTask(id)` and no new registry. Otherwise `(data, options)` is appended to the jobs added through the queue object under `id`. Its name, options and processor stay the same, and so do the domain and every other entry. |
| `Jobba.ReRegisterReplaces` | lib/jobba.ts:14-17 | Registering an id twice gives the same map as registering it only the second time. The queue object stored under the id has the second processor bound to it. |
| `Jobba.RegisterThenSchedule` | lib/jobba.ts:14-22 | After `register(id, fn, o)`, `schedule(id, data, jo)` succeeds. The queue object stored under `id` has had exactly that one job added through it, and `fn` is bound to it as its processor. |
| `Jobba.ScheduleInOrder` | lib/jobba.ts:20-22 | Jobs scheduled one after another on a registered id are added through its queue object in call order, after the ones added before. The processor, the domain and the other entries do not change. On an unregistered id the first call fails. |
| `Jobba.RegisterAllDomain` | lib/jobba.ts:14-17 | After registering a list of tasks, the domain is the old domain plus the task ids. Config and well-formedness are kept. |
| `Jobba.RegisterAllLastWins` | lib/jobba.ts:15-16 | After registering a list of tasks, the map entry under an id is the fresh queue object of the last task with that id. |
| `Jobba.RegisterAllKeepsOthers` | lib/jobba.ts:16 | Registering a list of tasks keeps every entry whose id none of the tasks has. |
| `Server.Register` | lib/server.ts:24-31 | A path string is recorded with the given method or `Get`, and the given handler or the no-op. A route object supplies its own path, method and handler. A route object without a method fails with its path. On success exactly one route call is appended, earlier calls are kept in order, and the registry is untouched. |
| `Server.RegisterAppendsOneRoute` | lib/server.ts:30 | A successful `register` grows the route table by exactly one entry. The earlier entries stay a prefix, and the middleware chain and tasks do not change. |
| `Server.ObjectIgnoresPositional` | lib/server.ts:25-29 | With a route object, the positional method and handler arguments have no effect. |
| `Server.InitRoutes` | lib/server.ts:53-61 | Succeeds exactly when every route has a method. It then appends the routes in input order, followed by one `GET /routes` whose handler lists exactly the input routes, and leaves the registry alone. Otherwise it fails with the path of the first route that has no method. |
| `Server.InitTasks` | lib/server.ts:63-68 | Hands the tasks to the registry in input order, with one task call per task appended to the trace. The registry's domain becomes the old domain plus every task id. |
| `Server.Init` | lib/server.ts:38-51 | The calls come in this order: routes, `GET /routes`, tasks, then body parser, context injection, router routes and allowed methods. It fails exactly when a route lacks a method. |
| `Server.New` | lib/server.ts:15-22 | On a fresh server, the calls come in this order: the application routes, `GET /routes`, the tasks, then the four middleware. So the route table is the application routes in input order with `GET /routes` last, the middleware chain is the four middleware in order, and the tasks are the input tasks. The registry has an undefined config and is the result of registering the tasks in input order on an empty one (`Jobba.RegisterAll`). Its domain is exactly the task ids, with each queue stored under its own name. |
| `Server.InitLayout` | lib/server.ts:38-60 | The trace `init` produces projects to that route table, middleware chain and task list. |
| `Server.Inject` | lib/server.ts:44-48 | Sets `ctx.server` to the server and `ctx.jobba` to its registry and keeps the body. It calls `next` exactly once, with the injected context. |
| `Server.Invoke` | lib/server.ts:24-60 | The default no-op handler (line 24) leaves the context as it was. The `/routes` handler (lines 58-59) sets the body to its route list and keeps the injected server and registry. |
| `Server.RoutesEndpointServesInput` | lib/server.ts:58-60 | `/routes` is a GET route. Its body is exactly the input route list, with the same length, so it does not list itself. |

## Left out

- Jobba.Register: models the map entry only. `pending` records only the `.add` calls made through that queue object. `new Bull(id, options)` reopens the engine queue by name, so jobs stored under that name earlier, including those added through a replaced queue object, stay pending in the engine. "Last write wins" holds for the map entry, not for which processor runs a job. The replaced queue object is never closed, and its processor keeps taking jobs for `id`. The engine's actual job order also depends on per-job options such as priority, lifo and delay, so "call order" is the order of the `.add` calls, not the processing order.
- Queue creation, worker dispatch, concurrency, retries and persistence inside Bull are left out. The engine is an effect sink: a write trace for a job, a pending list for a queue.
- Koa and koa-router internals are left out: request matching, `allowedMethods`, body parsing, and handlers given as non-functions. Middleware are tags.
- `Server.start` (lib/server.ts:33-36), the port constant and the `console.log` calls are left out. They are I/O.
- The results of the job proxies (lib/job.ts:27-33) and the promises returned by `update` and `log` are left out. Only "one forwarded call, no local change" is modelled. Engine errors are not modelled.
- Real `Date` values are left out. The time of a log entry is a parameter.
- Races between unawaited `log`/`update` calls on one job, and between `register` and `schedule`, are left out. The model is sequential.
- Job numbers are integers, not IEEE doubles. Progress is an integer.
- `App` handlers are application code outside this layer, so `Server.Invoke` requires a handler this layer defines.
- src/routes/index.ts is not modelled. It is a single registration call that delegates to a module that is not part of this model.
