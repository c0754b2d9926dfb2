/**
 * Data model of the controller's per-worker connection handler: the shared
 * permuter registry (guarded by the global lock `state.m`) and the
 * per-connection server state (guarded by its own lock).
 */
module Types {

  datatype Option<T> = None | Some(value: T)

  /** Failure of the underlying port, the only error the modelled sections raise. */
  datatype ReadError = PortClosed

  datatype ReadResult<T> = Ok(value: T) | Err(error: ReadError)

  type PermuterId = nat
  type ServerId = nat
  /** Identity of the user a permuter or a worker belongs to (opaque). */
  type UserId = string
  type Bytes = seq<bv8>

  /** Fixed per-unit cost estimate debited when a unit is handed out. */
  const TIME_COST_MS_GUESS: real := 100.0

  /** One unit of work of a permuter. */
  datatype PermuterWork = PermuterWork(seed: nat)

  /**
   * A permuter's payload. The JSON part is kept as an opaque handle; the two
   * compressed blobs travel as raw frames after the "add" message.
   */
  datatype PermuterData = PermuterData(meta: nat, compressedSource: Bytes, compressedTargetOBin: Bytes)

  /** What a worker reports about a permuter it runs. */
  datatype ServerUpdate =
    | InitDone
    | InitFailed
    | Result(hasSource: bool, compressedSource: Option<Bytes>)
    | Disconnect

  /** What the controller delivers to a permuter's owner through its sink. */
  datatype PermuterResult =
    | NeedWork
    | Result(whoId: UserId, whoName: string, update: ServerUpdate)

  /**
   * A registry entry. `semaphore` counts the free slots of the permuter's
   * in-flight limiter and `outbox` is everything `send_result` delivered.
   */
  datatype Permuter = Permuter(
    clientId: UserId,
    clientName: string,
    data: PermuterData,
    priority: real,
    stale: bool,
    energyAdd: real,
    workQueue: seq<PermuterWork>,
    semaphore: nat,
    outbox: seq<PermuterResult>)

  datatype JobState = Loading | Loaded | Failed

  /** A connection's view of one permuter: lifecycle state and energy debt. */
  datatype Job = Job(state: JobState, energy: real)

  /** What the scheduler decided to send to the worker for some permuter. */
  datatype ToSend =
    | Work(work: PermuterWork)
    | Add(clientId: UserId, clientName: string, data: PermuterData)
    | Remove

  /** The reporting worker's identity, used to tag forwarded updates. */
  datatype Worker = Worker(id: UserId, name: string)

  datatype ConnectServerData = ConnectServerData(minPriority: real, numCores: nat)

  datatype ConnectedServer = ConnectedServer(minPriority: real, numCores: nat)

  /** A key not in use for a newly registered worker; the model picks one above every key in use. */
  method FreshKey(keys: set<nat>) returns (k: nat)
    ensures k !in keys
    ensures forall x :: x in keys ==> x < k
  {
    k := 0;
    var todo := keys;
    while todo != {}
      invariant todo <= keys
      invariant forall x :: x in keys && x !in todo ==> x < k
      decreases todo
    {
      var x :| x in todo;
      if k <= x {
        k := x + 1;
      }
      todo := todo - {x};
    }
  }

  /** The registry part of the global state `state.m`. */
  class Registry {
    var permuters: map<PermuterId, Permuter>
    var servers: map<ServerId, ConnectedServer>

    /** Registers a connected worker under a key not in use. */
    method InsertServer(server: ConnectedServer) returns (id: ServerId)
      modifies this`servers
      ensures id !in old(servers)
      ensures servers == old(servers)[id := server]
    {
      id := FreshKey(servers.Keys);
      servers := servers[id := server];
    }

    method RemoveServer(id: ServerId)
      modifies this`servers
      ensures servers == old(servers) - {id}
    {
      servers := servers - {id};
    }
  }

  /** Per-connection state: the worker's priority floor and its jobs. */
  class ServerState {
    var minPriority: real
    var jobs: map<PermuterId, Job>

    constructor (minPriority: real)
      ensures this.minPriority == minPriority && jobs == map[]
    {
      this.minPriority := minPriority;
      jobs := map[];
    }
  }
}
