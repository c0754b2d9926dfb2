/**
 * The reader side of a worker connection (`server_read`): one inbound
 * message per iteration. An update first picks up its payload frame when it
 * announces one, then, under both locks, reconciles the job's energy with the
 * measured cost, applies the job's state transition and forwards the update
 * to the permuter's owner.
 */
module Reader {
  import opened Types
  import Scheduler

  /** A decoded inbound message. */
  datatype ServerMessage =
    | NeedWorkMsg
    | Update(permuterId: PermuterId, timeCostMs: real, update: ServerUpdate)

  /** What the locked section hands back: whether a newly loaded job is to be logged, and the unread frames. */
  datatype ReadOutcome = ReadOutcome(logNew: bool, rest: seq<Bytes>)

  predicate NeedsSource(u: ServerUpdate)
  {
    u.Result? && u.hasSource
  }

  /**
   * Reads the payload frame of a result that has a source: exactly one
   * frame is consumed when the update announces one, none otherwise, and a
   * closed port is an error.
   */
  function AttachSource(u: ServerUpdate, incoming: seq<Bytes>): (r: ReadResult<(ServerUpdate, seq<Bytes>)>)
    ensures r.Err? <==> NeedsSource(u) && incoming == []
    ensures r.Ok? ==> |r.value.1| == |incoming| - (if NeedsSource(u) then 1 else 0)
    ensures r.Ok? ==> r.value.1 == incoming[|incoming| - |r.value.1|..]
    ensures r.Ok? && NeedsSource(u) ==> r.value.0 == u.(compressedSource := Some(incoming[0]))
    ensures r.Ok? && !NeedsSource(u) ==> r.value.0 == u
  {
    if NeedsSource(u) then
      if incoming == [] then Err(PortClosed)
      else Ok((u.(compressedSource := Some(incoming[0])), incoming[1..]))
    else Ok((u, incoming))
  }

  /** The job's energy after replacing the estimated cost by the measured one. */
  function Reconciled(energy: real, energyAdd: real, timeCostMs: real): (e: real)
  {
    energy - energyAdd * TIME_COST_MS_GUESS + energyAdd * timeCostMs
  }

  /** The job state after an update. */
  function NextState(s: JobState, u: ServerUpdate): (next: JobState)
  {
    match u
    case InitDone => Loaded
    case InitFailed => Failed
    case Disconnect => Failed
    case Result(_, _) => s
  }

  /**
   * The specification of the locked section for an update about `id`:
   * registry `p0` and jobs `j0` before, `p1` and `j1` after.
   */
  ghost predicate UpdateSpec(p0: map<PermuterId, Permuter>, j0: map<PermuterId, Job>,
                             who: Worker, id: PermuterId, timeCostMs: real, u: ServerUpdate,
                             p1: map<PermuterId, Permuter>, j1: map<PermuterId, Job>, logNew: bool)
  {
    if id in j0 && id in p0 then
      && j1 == j0[id := Job(NextState(j0[id].state, u),
                            Reconciled(j0[id].energy, p0[id].energyAdd, timeCostMs))]
      && p1 == p0[id := p0[id].(outbox := p0[id].outbox + [PermuterResult.Result(who.id, who.name, u)])]
      && logNew == u.InitDone?
    else
      p1 == p0 && j1 == j0 && !logNew
  }

  /** The locked update-handling block, atomically under both locks. */
  method HandleUpdate(reg: Registry, conn: ServerState, who: Worker,
                      id: PermuterId, timeCostMs: real, u: ServerUpdate)
    returns (logNew: bool)
    modifies reg`permuters, conn`jobs
    ensures UpdateSpec(old(reg.permuters), old(conn.jobs), who, id, timeCostMs, u,
                       reg.permuters, conn.jobs, logNew)
  {
    logNew := false;
    if id in conn.jobs {
      if id in reg.permuters {
        var perm := reg.permuters[id];
        var job := conn.jobs[id];
        var energy := job.energy - perm.energyAdd * TIME_COST_MS_GUESS;
        energy := energy + perm.energyAdd * timeCostMs;
        var state := job.state;
        match u {
          case InitDone =>
            state := Loaded;
            logNew := true;
          case InitFailed =>
            state := Failed;
          case Disconnect =>
            state := Failed;
          case Result(_, _) =>
        }
        assert state == NextState(job.state, u);
        assert energy == Reconciled(job.energy, perm.energyAdd, timeCostMs);
        conn.jobs := conn.jobs[id := Job(state, energy)];
        reg.permuters := reg.permuters[id := perm.(outbox := perm.outbox + [PermuterResult.Result(who.id, who.name, u)])];
      }
    }
  }

  /**
   * One iteration of the reader loop on a decoded message, with `incoming`
   * the frames the port will deliver next. NeedWorkMsg changes nothing; an
   * update whose announced payload frame is missing fails before any lock
   * is taken.
   */
  method ReadStep(reg: Registry, conn: ServerState, who: Worker,
                  msg: ServerMessage, incoming: seq<Bytes>)
    returns (r: ReadResult<ReadOutcome>)
    modifies reg`permuters, conn`jobs
    ensures msg.NeedWorkMsg? ==>
              r == Ok(ReadOutcome(false, incoming))
              && reg.permuters == old(reg.permuters) && conn.jobs == old(conn.jobs)
    ensures msg.Update? && AttachSource(msg.update, incoming).Err? ==>
              r.Err? && reg.permuters == old(reg.permuters) && conn.jobs == old(conn.jobs)
    ensures msg.Update? && AttachSource(msg.update, incoming).Ok? ==>
              var (u, rest) := AttachSource(msg.update, incoming).value;
              && r.Ok? && r.value.rest == rest
              && UpdateSpec(old(reg.permuters), old(conn.jobs), who, msg.permuterId, msg.timeCostMs, u,
                            reg.permuters, conn.jobs, r.value.logNew)
  {
    match msg
    case NeedWorkMsg =>
      return Ok(ReadOutcome(false, incoming));
    case Update(id, timeCostMs, update) =>
      var attached := AttachSource(update, incoming);
      if attached.Err? {
        return Err(attached.error);
      }
      var (u, rest) := attached.value;
      var logNew := HandleUpdate(reg, conn, who, id, timeCostMs, u);
      return Ok(ReadOutcome(logNew, rest));
  }

  // ---------------------------------------------------------------------
  // Properties of the update handler, stated on UpdateSpec.
  // ---------------------------------------------------------------------

  /**
   * When both the job and its permuter exist, the energy moves by exactly
   * the cost weight times (measured - estimated) and the update is forwarded
   * once, tagged with the worker; otherwise nothing changes.
   */
  lemma UpdateReconciles(p0: map<PermuterId, Permuter>, j0: map<PermuterId, Job>,
                         who: Worker, id: PermuterId, timeCostMs: real, u: ServerUpdate,
                         p1: map<PermuterId, Permuter>, j1: map<PermuterId, Job>, logNew: bool)
    requires UpdateSpec(p0, j0, who, id, timeCostMs, u, p1, j1, logNew)
    ensures id in j0 && id in p0 ==>
              && id in j1 && j1.Keys == j0.Keys && p1.Keys == p0.Keys
              && j1[id].energy - j0[id].energy == p0[id].energyAdd * (timeCostMs - TIME_COST_MS_GUESS)
              && p1[id].outbox == p0[id].outbox + [PermuterResult.Result(who.id, who.name, u)]
              && p1[id] == p0[id].(outbox := p1[id].outbox)
              && (forall k :: k in j0 && k != id ==> j1[k] == j0[k])
              && (forall k :: k in p0 && k != id ==> p1[k] == p0[k])
    ensures !(id in j0 && id in p0) ==> p1 == p0 && j1 == j0 && !logNew
  {
  }

  /** The job state transitions and the one-shot flag for a newly loaded job. */
  lemma UpdateTransitions(p0: map<PermuterId, Permuter>, j0: map<PermuterId, Job>,
                          who: Worker, id: PermuterId, timeCostMs: real, u: ServerUpdate,
                          p1: map<PermuterId, Permuter>, j1: map<PermuterId, Job>, logNew: bool)
    requires UpdateSpec(p0, j0, who, id, timeCostMs, u, p1, j1, logNew)
    requires id in j0 && id in p0
    ensures id in j1
    ensures u.InitDone? ==> j1[id].state == Loaded && logNew
    ensures u.InitFailed? || u.Disconnect? ==> j1[id].state == Failed && !logNew
    ensures u.Result? ==> j1[id].state == j0[id].state && !logNew
  {
  }

  /**
   * One full select-report cycle: the job handed a unit, once its result
   * comes back, carries exactly its cost weight times the measured cost,
   * and every other job just carries the renormalisation shift.
   */
  lemma SelectReportCycle(p0: map<PermuterId, Permuter>, j0: map<PermuterId, Job>, minPriority: real,
                          id: PermuterId, w: PermuterWork,
                          p1: map<PermuterId, Permuter>, j1: map<PermuterId, Job>,
                          who: Worker, timeCostMs: real, u: ServerUpdate,
                          p2: map<PermuterId, Permuter>, j2: map<PermuterId, Job>, logNew: bool)
    requires Scheduler.ChooseWorkSpec(p0, j0, minPriority, Scheduler.Dispatch(id, Work(w)), p1, j1)
    requires UpdateSpec(p1, j1, who, id, timeCostMs, u, p2, j2, logNew)
    ensures id in j0 && id in p0 && id in j2 && j2.Keys == j0.Keys
    ensures j2[id].energy == p0[id].energyAdd * timeCostMs
    ensures forall k :: k in j0 && k != id ==> j2[k].energy == j0[k].energy - j0[id].energy
  {
    Scheduler.WorkRenormalises(p0, j0, minPriority, id, w, p1, j1);
    Scheduler.WorkPopsOneUnit(p0, j0, minPriority, id, w, p1, j1);
    UpdateReconciles(p1, j1, who, id, timeCostMs, u, p2, j2, logNew);
  }
}
