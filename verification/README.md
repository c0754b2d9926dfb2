# Controller worker-connection handler, modelled in Dafny

This project models the core of the decomp-permuter controller's per-worker
connection handler (`src/net/controller/src/server.rs`). Many permuters each
produce a stream of work units. Each connected worker ("server") pulls units
and reports results. The handler decides, one scheduling step at a time, what
to send the worker next. It also accounts for the cost of what the worker
reports back.

Three critical sections run under the global registry lock and the
connection's own lock. Each one is modelled as one atomic method:

- **Scheduling step** (`Scheduler.ChooseWorkStep`, one iteration of
  `choose_work`). The cases are tried in the order the code tries them:
  - admit a registry permuter the connection does not know yet;
  - reap a job whose permuter has left the registry;
  - sleep when no job is eligible;
  - when the chosen permuter's queue is empty, mark it stale, ask it for
    more work and retry;
  - otherwise pop its next unit, release one limiter slot, debit the job's
    energy and renormalise all energies.

  Which job is admitted, reaped or chosen among equals depends on hash-map
  iteration order, so the model picks any qualifying id.
- **Update handling** (`Reader.HandleUpdate`, the locked block of
  `server_read`). It replaces the 100 ms cost estimate with the measured cost
  and applies the job's state transition. It then forwards the update, tagged
  with the worker's identity, to the permuter's result sink. An update about
  a job or permuter that no longer exists is ignored.
- **Disconnect cleanup** (`Supervisor.Cleanup`, the end of
  `handle_connect_server`). Every permuter whose job on this connection is
  `Loaded` is sent exactly one `Disconnect` result, and the worker's
  registration is removed.

The shared registry is the class `Types.Registry`. Its `permuters` map holds
`Permuter` records. Each record has a priority, a stale flag, `energy_add`, a
FIFO work queue, the free slots of its in-flight limiter (a counter) and an
outbox. The outbox is the sequence of results that `send_result` delivered.
The per-connection state is the class `Types.ServerState`, holding
`min_priority` and the job map. Energies, priorities and measured times are
exact `real`s.

Each method is proved against a value-level specification: the predicates
`Scheduler.ChooseWorkSpec` and `Reader.UpdateSpec`, and the function
`Supervisor.DisconnectNotified`. The lemmas state the properties of those
predicates. The frame layout of `send_work` is modelled as a pure function,
with a decoding partner and a round-trip lemma.

## Model

| member | source | states |
|---|---|---|
| `Types.FreshKey` | src/net/controller/src/server.rs:293 | the key returned is not in use and is larger than every key in use |
| `Types.Registry.InsertServer` | src/net/controller/src/server.rs:293-296 | the worker's record is added under a key that was not in use; no other registration changes |
| `Types.Registry.RemoveServer` | src/net/controller/src/server.rs:324 | exactly the given registration is removed |
| `Types.ServerState.constructor` | src/net/controller/src/server.rs:288-291 | a new connection starts with the worker's priority floor and no jobs |
| `Scheduler.FindUnadmitted` | src/net/controller/src/server.rs:137-142 | finds a registry permuter with no job on the connection, and finds none exactly when every registry permuter already has a job |
| `Scheduler.FindBest` | src/net/controller/src/server.rs:160-178 | either returns a job whose permuter is gone, or confirms that every job's permuter is live; in the latter case it returns an eligible job of least energy, or none exactly when no job is eligible |
| `Scheduler.Renormalise` | src/net/controller/src/server.rs:208-213 | every job's energy drops by the given amount; states and the key set are unchanged |
| `Scheduler.ChooseWorkStep` | src/net/controller/src/server.rs:134-215 | one iteration satisfies ChooseWorkSpec: the first case that applies among admit, reap, sleep, retry and work, with the full new registry and job map |
| `Scheduler.AdmissionFirst` | src/net/controller/src/server.rs:137-158 | an Add is returned exactly when some registry permuter has no job; it carries that permuter's client id, name and data, inserts a Loading job with energy 0, and changes nothing else |
| `Scheduler.ReapBeforeWork` | src/net/controller/src/server.rs:164-177 | a job whose permuter is gone never gets work; once admission has nothing to do, one such job is deleted and Remove is returned for it, with nothing else changed |
| `Scheduler.WorkIsEligibleAndCheapest` | src/net/controller/src/server.rs:160-202 | Work goes only to a Loaded, non-stale job with priority at least the floor and energy at most that of every eligible job; every job is live; the seed is the head of a non-empty queue |
| `Scheduler.WorkPopsOneUnit` | src/net/controller/src/server.rs:190-203 | on Work the chosen queue loses exactly its head; the limiter gets exactly one slot back; the permuter's other fields and all other permuters are unchanged |
| `Scheduler.WorkRenormalises` | src/net/controller/src/server.rs:205-213 | on Work every other job's energy drops by the chosen job's old energy, the chosen job ends at `energy_add * 100`, and pairwise differences among the other jobs are preserved |
| `Scheduler.WorkKeepsEligibility` | src/net/controller/src/server.rs:201-213 | a Work step changes no job's eligibility |
| `Scheduler.WorkLeavesEligibleNonNegative` | src/net/controller/src/server.rs:161-213 | after Work every eligible job's energy is non-negative |
| `Scheduler.WorkRotatesAmongTied` | src/net/controller/src/server.rs:164-213 | if another eligible job was tied with the chosen one and the chosen one has positive `energy_add`, the next step cannot give the chosen job work again |
| `Scheduler.SleepOnlyWhenIdle` | src/net/controller/src/server.rs:180-186 | the step sleeps exactly when registry and jobs have the same ids and no job is eligible; a sleeping step changes nothing |
| `Scheduler.RetryMarksStale` | src/net/controller/src/server.rs:190-200 | Retry happens only for the best job when its queue is empty; that permuter becomes stale and gets exactly one NeedWork; jobs and other permuters are unchanged; the next step cannot give it work |
| `Reader.AttachSource` | src/net/controller/src/server.rs:66-73 | a Result with `has_source` consumes exactly one frame and stores it as the compressed source; any other update consumes none; a missing frame is an error |
| `Reader.HandleUpdate` | src/net/controller/src/server.rs:74-100 | the locked block satisfies UpdateSpec: it reconciles the energy, applies the state transition and forwards the update only when both the job and the permuter exist |
| `Reader.ReadStep` | src/net/controller/src/server.rs:56-101 | a NeedWork message changes nothing; an update whose announced payload frame is missing fails before the lock; any other update is handled by UpdateSpec after its payload is attached |
| `Reader.UpdateReconciles` | src/net/controller/src/server.rs:77-100 | when job and permuter both exist, energy changes by exactly `energy_add * (time_cost_ms - 100)` and one tagged Result is appended to that permuter's outbox, with nothing else changed; otherwise nothing changes and nothing is sent |
| `Reader.UpdateTransitions` | src/net/controller/src/server.rs:84-93 | InitDone leads to Loaded and raises the log-new flag; InitFailed and Disconnect lead to Failed; Result keeps the state |
| `Reader.SelectReportCycle` | src/net/controller/src/server.rs:74-100 | after Work then the job's report, the job's energy is exactly `energy_add * time_cost_ms` and every other job carries only the renormalisation shift |
| `Writer.SendWorkFrames` | src/net/controller/src/server.rs:219-254 | one JSON frame naming the permuter, typed work/add/remove after the decision; for add it is followed by exactly two binary frames |
| `Writer.SendWorkRoundTrip` | src/net/controller/src/server.rs:224-252 | reading the frames back yields the permuter id and the decision that were sent |
| `Writer.SendWorkInjective` | src/net/controller/src/server.rs:224-252 | distinct decisions produce distinct frame sequences |
| `Supervisor.Connect` | src/net/controller/src/server.rs:286-296 | a fresh connection state with the worker's floor and no jobs; the worker is registered under a new key |
| `Supervisor.Cleanup` | src/net/controller/src/server.rs:310-325 | the registry becomes DisconnectNotified of the connection's jobs, and the worker's registration is removed |
| `Supervisor.CleanupNotifiesLoadedOnce` | src/net/controller/src/server.rs:312-322 | each permuter still in the registry whose job here is Loaded gets exactly one `Result(who_id, who_name, Disconnect)`; permuters whose job is Loading, Failed or absent are untouched |
| `Supervisor.ConnectThenCleanup` | src/net/controller/src/server.rs:286-325 | running the setup and then the cleanup on one registry, with no job admitted in between, leaves the registered workers and every permuter exactly as they were |

## Left out

- Async machinery is not modelled. This covers the tokio tasks, `try_join!`, the mpsc pulse channel and its `try_send` coalescing, `SERVER_WORK_QUEUE_SIZE`, the new-work notification wait and the mutexes. Each critical section is one atomic method; the outer loops are only the repetition of these steps.
- The busy Retry loop appears only as the `Retry` outcome of one step; the immediate re-run of the loop is left to the caller.
- Port I/O and serialisation are not modelled: `recv`/`send`, `serde_json` decoding of `ServerMessage`, the docker-image handshake and the JSON text of outgoing messages. Inbound payload frames are a sequence parameter. An outgoing message is a datatype per "type".
- The loop of `server_write` is not modelled. Its scheduling step and its frame layout are (`ChooseWorkStep`, `SendWorkFrames`).
- `state.log_stats` and its records are not modelled. `HandleUpdate` and `ReadStep` only return the log-new flag.
- The contents of `PermuterData` are opaque: a metadata handle plus the two compressed blobs. The `data` field of an "add" message is modelled by that handle.
- The opaque fields of `ServerUpdate` variants (the `..` in the matches) are left out. Only `has_source` and `compressed_source` are kept.
- The semaphore is modelled only as its count of free slots, and `send_result` only as appending to the permuter's outbox.
- Slot-map keys for registered workers are modelled as naturals larger than any key in use.
- Floating-point behaviour is not modelled. Energies, priorities and `time_cost_ms` are exact reals.
- Scheduler.WorkLeavesEligibleNonNegative: assumes the chosen permuter's `energy_add` is non-negative. `server.rs` relies on this but does not check it, and a negative weight would break the property.
