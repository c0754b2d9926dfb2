/**
 * One iteration of `choose_work`: the critical section run under the
 * registry lock and the connection lock. It admits a new permuter, reaps a
 * job whose permuter is gone, sleeps, asks an empty permuter for more work,
 * or hands out the next unit of the eligible job with the least energy.
 */
module Scheduler {
  import opened Types

  /** Outcome of one iteration of the scheduling loop. */
  datatype Step =
    | Dispatch(id: PermuterId, toSend: ToSend)  // returned to the writer
    | Sleep                                     // wait for the new-work notification
    | Retry(id: PermuterId)                     // `id` was out of work; loop again at once

  /** Outcome of the scan over the connection's jobs. */
  datatype Scan =
    | Reap(id: PermuterId)
    | Best(choice: Option<PermuterId>)

  /** A job that may receive work on this connection. */
  ghost predicate Eligible(perms: map<PermuterId, Permuter>, jobs: map<PermuterId, Job>,
                           minPriority: real, id: PermuterId)
  {
    && id in jobs && id in perms
    && jobs[id].state == Loaded
    && !perms[id].stale
    && perms[id].priority >= minPriority
  }

  /** An eligible job with no more energy than any other eligible job. */
  ghost predicate IsBest(perms: map<PermuterId, Permuter>, jobs: map<PermuterId, Job>,
                         minPriority: real, id: PermuterId)
  {
    && Eligible(perms, jobs, minPriority, id)
    && forall k :: Eligible(perms, jobs, minPriority, k) ==> jobs[id].energy <= jobs[k].energy
  }

  ghost predicate HasEligible(perms: map<PermuterId, Permuter>, jobs: map<PermuterId, Job>,
                              minPriority: real)
  {
    exists id :: Eligible(perms, jobs, minPriority, id)
  }

  /** Every job's energy lowered by `d`. */
  function Shifted(jobs: map<PermuterId, Job>, d: real): (shifted: map<PermuterId, Job>)
  {
    map id | id in jobs :: jobs[id].(energy := jobs[id].energy - d)
  }

  ghost predicate AdmitSpec(p0: map<PermuterId, Permuter>, j0: map<PermuterId, Job>,
                            step: Step, p1: map<PermuterId, Permuter>, j1: map<PermuterId, Job>)
  {
    && step.Dispatch?
    && step.id in p0 && step.id !in j0
    && step.toSend == Add(p0[step.id].clientId, p0[step.id].clientName, p0[step.id].data)
    && j1 == j0[step.id := Job(Loading, 0.0)]
    && p1 == p0
  }

  ghost predicate ReapSpec(p0: map<PermuterId, Permuter>, j0: map<PermuterId, Job>,
                           step: Step, p1: map<PermuterId, Permuter>, j1: map<PermuterId, Job>)
  {
    && step.Dispatch? && step.toSend == Remove
    && step.id in j0 && step.id !in p0
    && j1 == j0 - {step.id}
    && p1 == p0
  }

  ghost predicate RetrySpec(p0: map<PermuterId, Permuter>, j0: map<PermuterId, Job>,
                            id: PermuterId, p1: map<PermuterId, Permuter>, j1: map<PermuterId, Job>)
  {
    && id in p0 && p0[id].workQueue == []
    && p1 == p0[id := p0[id].(stale := true, outbox := p0[id].outbox + [NeedWork])]
    && j1 == j0
  }

  ghost predicate WorkSpec(p0: map<PermuterId, Permuter>, j0: map<PermuterId, Job>,
                           id: PermuterId, w: PermuterWork,
                           p1: map<PermuterId, Permuter>, j1: map<PermuterId, Job>)
  {
    && id in p0 && id in j0
    && p0[id].workQueue != [] && w == p0[id].workQueue[0]
    && p1 == p0[id := p0[id].(workQueue := p0[id].workQueue[1..], semaphore := p0[id].semaphore + 1)]
    && j1 == Shifted(j0[id := j0[id].(energy := j0[id].energy + p0[id].energyAdd * TIME_COST_MS_GUESS)],
                     j0[id].energy)
  }

  /**
   * The specification of one iteration: registry `p0` and jobs `j0` before,
   * `p1` and `j1` after. The cases are tried in the order the code tries them.
   */
  ghost predicate ChooseWorkSpec(p0: map<PermuterId, Permuter>, j0: map<PermuterId, Job>,
                                 minPriority: real, step: Step,
                                 p1: map<PermuterId, Permuter>, j1: map<PermuterId, Job>)
  {
    if !(p0.Keys <= j0.Keys) then AdmitSpec(p0, j0, step, p1, j1)
    else if !(j0.Keys <= p0.Keys) then ReapSpec(p0, j0, step, p1, j1)
    else if !HasEligible(p0, j0, minPriority) then step == Sleep && p1 == p0 && j1 == j0
    else
      match step
      case Retry(id) => IsBest(p0, j0, minPriority, id) && RetrySpec(p0, j0, id, p1, j1)
      case Dispatch(id, Work(w)) => IsBest(p0, j0, minPriority, id) && WorkSpec(p0, j0, id, w, p1, j1)
      case _ => false
  }

  /** The admission search: some registry permuter this connection has no job for. */
  method FindUnadmitted(perms: map<PermuterId, Permuter>, jobs: map<PermuterId, Job>)
    returns (found: Option<PermuterId>)
    ensures found.Some? ==> found.value in perms && found.value !in jobs
    ensures found.None? <==> perms.Keys <= jobs.Keys
  {
    var todo := perms.Keys;
    while todo != {}
      invariant todo <= perms.Keys
      invariant forall id :: id in perms && id !in todo ==> id in jobs
      decreases todo
    {
      var id :| id in todo;
      if id !in jobs {
        return Some(id);
      }
      todo := todo - {id};
    }
    return None;
  }

  /**
   * The scan over the connection's jobs: stops at a job whose permuter is
   * gone, otherwise keeps the eligible job of least energy seen so far
   * (a later job replaces it only when strictly cheaper).
   */
  method FindBest(perms: map<PermuterId, Permuter>, jobs: map<PermuterId, Job>, minPriority: real)
    returns (scan: Scan)
    ensures scan.Reap? ==> scan.id in jobs && scan.id !in perms
    ensures scan.Best? ==> jobs.Keys <= perms.Keys
    ensures scan.Best? && scan.choice.Some? ==> IsBest(perms, jobs, minPriority, scan.choice.value)
    ensures scan.Best? && scan.choice.None? ==> !HasEligible(perms, jobs, minPriority)
  {
    var todo := jobs.Keys;
    ghost var done: set<PermuterId> := {};
    var best: Option<PermuterId> := None;
    var bestCost := 0.0;
    while todo != {}
      invariant todo !! done && todo + done == jobs.Keys
      invariant forall id :: id in done ==> id in perms
      invariant best.Some? ==> best.value in done && Eligible(perms, jobs, minPriority, best.value)
                               && bestCost == jobs[best.value].energy
      invariant best.Some? ==> forall id :: id in done && Eligible(perms, jobs, minPriority, id) ==>
                                 bestCost <= jobs[id].energy
      invariant best.None? ==> forall id :: id in done ==> !Eligible(perms, jobs, minPriority, id)
      decreases todo
    {
      var id :| id in todo;
      if id in perms {
        var perm := perms[id];
        var job := jobs[id];
        if job.state == Loaded && !perm.stale && perm.priority >= minPriority
           && (best.None? || job.energy < bestCost)
        {
          bestCost := job.energy;
          best := Some(id);
        }
      } else {
        return Reap(id);
      }
      todo := todo - {id};
      done := done + {id};
    }
    return Best(best);
  }

  /** The renormalisation loop: subtract `minEnergy` from every job's energy. */
  method Renormalise(conn: ServerState, minEnergy: real)
    modifies conn`jobs
    ensures conn.jobs == Shifted(old(conn.jobs), minEnergy)
  {
    ghost var before := conn.jobs;
    var todo := conn.jobs.Keys;
    while todo != {}
      invariant todo <= before.Keys
      invariant conn.jobs.Keys == before.Keys
      invariant forall id :: id in conn.jobs ==>
                  conn.jobs[id] == if id in todo then before[id]
                                   else before[id].(energy := before[id].energy - minEnergy)
      decreases todo
    {
      var id :| id in todo;
      conn.jobs := conn.jobs[id := conn.jobs[id].(energy := conn.jobs[id].energy - minEnergy)];
      todo := todo - {id};
    }
  }

  /** One iteration of the scheduling loop, atomically under both locks. */
  method ChooseWorkStep(reg: Registry, conn: ServerState) returns (step: Step)
    modifies reg`permuters, conn`jobs
    ensures ChooseWorkSpec(old(reg.permuters), old(conn.jobs), conn.minPriority,
                           step, reg.permuters, conn.jobs)
  {
    var unadmitted := FindUnadmitted(reg.permuters, conn.jobs);
    if unadmitted.Some? {
      var id := unadmitted.value;
      var perm := reg.permuters[id];
      conn.jobs := conn.jobs[id := Job(Loading, 0.0)];
      return Dispatch(id, Add(perm.clientId, perm.clientName, perm.data));
    }
    var scan := FindBest(reg.permuters, conn.jobs, conn.minPriority);
    match scan
    case Reap(id) =>
      conn.jobs := conn.jobs - {id};
      return Dispatch(id, Remove);
    case Best(None) =>
      return Sleep;
    case Best(Some(id)) =>
      var perm := reg.permuters[id];
      if perm.workQueue == [] {
        reg.permuters := reg.permuters[id := perm.(stale := true, outbox := perm.outbox + [NeedWork])];
        return Retry(id);
      }
      var work := perm.workQueue[0];
      reg.permuters := reg.permuters[id := perm.(workQueue := perm.workQueue[1..],
                                                 semaphore := perm.semaphore + 1)];
      var minEnergy := conn.jobs[id].energy;
      conn.jobs := conn.jobs[id := conn.jobs[id].(energy := minEnergy + perm.energyAdd * TIME_COST_MS_GUESS)];
      Renormalise(conn, minEnergy);
      return Dispatch(id, Work(work));
  }

  // ---------------------------------------------------------------------
  // Properties of one iteration, stated on ChooseWorkSpec.
  // ---------------------------------------------------------------------

  /** Admission comes first: a registry permuter without a job is added, and nothing else changes. */
  lemma AdmissionFirst(p0: map<PermuterId, Permuter>, j0: map<PermuterId, Job>, minPriority: real,
                       step: Step, p1: map<PermuterId, Permuter>, j1: map<PermuterId, Job>)
    requires ChooseWorkSpec(p0, j0, minPriority, step, p1, j1)
    ensures (step.Dispatch? && step.toSend.Add?) <==> exists id :: id in p0 && id !in j0
    ensures step.Dispatch? && step.toSend.Add? ==>
              && step.id in p0 && step.id !in j0
              && step.toSend == Add(p0[step.id].clientId, p0[step.id].clientName, p0[step.id].data)
              && j1 == j0[step.id := Job(Loading, 0.0)] && p1 == p0
  {
    if exists id :: id in p0 && id !in j0 {
      var id :| id in p0 && id !in j0;
      assert !(p0.Keys <= j0.Keys);
    }
  }

  /**
   * Reaping: when admission has nothing to do and some job's permuter is
   * gone, exactly that job is deleted and a removal is returned; a job whose
   * permuter is gone never receives work.
   */
  lemma ReapBeforeWork(p0: map<PermuterId, Permuter>, j0: map<PermuterId, Job>, minPriority: real,
                       step: Step, p1: map<PermuterId, Permuter>, j1: map<PermuterId, Job>,
                       gone: PermuterId)
    requires ChooseWorkSpec(p0, j0, minPriority, step, p1, j1)
    requires gone in j0 && gone !in p0
    ensures !(step.Dispatch? && step.toSend.Work?)
    ensures p0.Keys <= j0.Keys ==>
              && step.Dispatch? && step.toSend == Remove
              && step.id in j0 && step.id !in p0
              && j1 == j0 - {step.id} && p1 == p0
  {
    assert !(j0.Keys <= p0.Keys);
  }

  /** A unit of work goes only to an eligible job of least energy, with every job on the connection live. */
  lemma WorkIsEligibleAndCheapest(p0: map<PermuterId, Permuter>, j0: map<PermuterId, Job>,
                                  minPriority: real, id: PermuterId, w: PermuterWork,
                                  p1: map<PermuterId, Permuter>, j1: map<PermuterId, Job>)
    requires ChooseWorkSpec(p0, j0, minPriority, Dispatch(id, Work(w)), p1, j1)
    ensures p0.Keys == j0.Keys
    ensures id in j0 && id in p0
    ensures j0[id].state == Loaded && !p0[id].stale && p0[id].priority >= minPriority
    ensures forall k :: Eligible(p0, j0, minPriority, k) ==> j0[id].energy <= j0[k].energy
    ensures p0[id].workQueue != [] && w == p0[id].workQueue[0]
  {
  }

  /** On Work the chosen queue loses exactly its head, the limiter gets one slot back, and no other permuter changes. */
  lemma WorkPopsOneUnit(p0: map<PermuterId, Permuter>, j0: map<PermuterId, Job>,
                        minPriority: real, id: PermuterId, w: PermuterWork,
                        p1: map<PermuterId, Permuter>, j1: map<PermuterId, Job>)
    requires ChooseWorkSpec(p0, j0, minPriority, Dispatch(id, Work(w)), p1, j1)
    ensures id in p0 && id in p1 && p1.Keys == p0.Keys
    ensures p0[id].workQueue == [w] + p1[id].workQueue
    ensures p1[id].semaphore == p0[id].semaphore + 1
    ensures p1[id] == p0[id].(workQueue := p1[id].workQueue, semaphore := p1[id].semaphore)
    ensures forall k :: k in p0 && k != id ==> p1[k] == p0[k]
  {
  }

  /**
   * On Work every job's energy drops by the chosen job's old energy and the
   * chosen job ends at its cost weight times the per-unit estimate, so the
   * differences among the other jobs are preserved.
   */
  lemma WorkRenormalises(p0: map<PermuterId, Permuter>, j0: map<PermuterId, Job>,
                         minPriority: real, id: PermuterId, w: PermuterWork,
                         p1: map<PermuterId, Permuter>, j1: map<PermuterId, Job>)
    requires ChooseWorkSpec(p0, j0, minPriority, Dispatch(id, Work(w)), p1, j1)
    ensures id in j0 && id in p0 && j1.Keys == j0.Keys
    ensures j1[id] == Job(j0[id].state, p0[id].energyAdd * TIME_COST_MS_GUESS)
    ensures forall k :: k in j0 && k != id ==> j1[k] == j0[k].(energy := j0[k].energy - j0[id].energy)
    ensures forall k, l :: k in j0 && l in j0 && k != id && l != id ==>
              j1[k].energy - j1[l].energy == j0[k].energy - j0[l].energy
  {
  }

  /** Eligibility is not changed by a Work step: it touches no state, staleness or priority. */
  lemma WorkKeepsEligibility(p0: map<PermuterId, Permuter>, j0: map<PermuterId, Job>,
                             minPriority: real, id: PermuterId, w: PermuterWork,
                             p1: map<PermuterId, Permuter>, j1: map<PermuterId, Job>, k: PermuterId)
    requires ChooseWorkSpec(p0, j0, minPriority, Dispatch(id, Work(w)), p1, j1)
    ensures Eligible(p1, j1, minPriority, k) <==> Eligible(p0, j0, minPriority, k)
  {
    WorkRenormalises(p0, j0, minPriority, id, w, p1, j1);
    WorkPopsOneUnit(p0, j0, minPriority, id, w, p1, j1);
  }

  /** After Work, every eligible job's energy is non-negative (given a non-negative cost weight). */
  lemma WorkLeavesEligibleNonNegative(p0: map<PermuterId, Permuter>, j0: map<PermuterId, Job>,
                                      minPriority: real, id: PermuterId, w: PermuterWork,
                                      p1: map<PermuterId, Permuter>, j1: map<PermuterId, Job>)
    requires ChooseWorkSpec(p0, j0, minPriority, Dispatch(id, Work(w)), p1, j1)
    requires id in p0 && p0[id].energyAdd >= 0.0
    ensures forall k :: Eligible(p1, j1, minPriority, k) ==> j1[k].energy >= 0.0
  {
    WorkRenormalises(p0, j0, minPriority, id, w, p1, j1);
    forall k | Eligible(p1, j1, minPriority, k)
      ensures j1[k].energy >= 0.0
    {
      WorkKeepsEligibility(p0, j0, minPriority, id, w, p1, j1, k);
    }
  }

  /**
   * Fair rotation: if another eligible job was tied with the chosen one and
   * the chosen one has a positive cost weight, the next iteration cannot
   * hand the chosen one work again.
   */
  lemma WorkRotatesAmongTied(p0: map<PermuterId, Permuter>, j0: map<PermuterId, Job>,
                             minPriority: real, a: PermuterId, w: PermuterWork,
                             p1: map<PermuterId, Permuter>, j1: map<PermuterId, Job>,
                             c: PermuterId,
                             step: Step, p2: map<PermuterId, Permuter>, j2: map<PermuterId, Job>)
    requires ChooseWorkSpec(p0, j0, minPriority, Dispatch(a, Work(w)), p1, j1)
    requires c != a && Eligible(p0, j0, minPriority, c)
    requires a in j0 && j0[c].energy == j0[a].energy
    requires a in p0 && p0[a].energyAdd > 0.0
    requires ChooseWorkSpec(p1, j1, minPriority, step, p2, j2)
    ensures !(step.Dispatch? && step.toSend.Work? && step.id == a)
  {
    WorkRenormalises(p0, j0, minPriority, a, w, p1, j1);
    WorkKeepsEligibility(p0, j0, minPriority, a, w, p1, j1, c);
    assert j1[c].energy < j1[a].energy;
    assert !IsBest(p1, j1, minPriority, a);
  }

  /** Sleep happens exactly when nothing is to be admitted, reaped or worked on, and it changes nothing. */
  lemma SleepOnlyWhenIdle(p0: map<PermuterId, Permuter>, j0: map<PermuterId, Job>, minPriority: real,
                          step: Step, p1: map<PermuterId, Permuter>, j1: map<PermuterId, Job>)
    requires ChooseWorkSpec(p0, j0, minPriority, step, p1, j1)
    ensures step == Sleep <==> p0.Keys == j0.Keys && forall k :: !Eligible(p0, j0, minPriority, k)
    ensures step == Sleep ==> p1 == p0 && j1 == j0
  {
  }

  /**
   * Retry: the chosen job's queue was empty; its permuter becomes stale and
   * gets exactly one NeedWork, nothing else changes, and the next iteration
   * cannot hand that job work.
   */
  lemma RetryMarksStale(p0: map<PermuterId, Permuter>, j0: map<PermuterId, Job>, minPriority: real,
                        id: PermuterId, p1: map<PermuterId, Permuter>, j1: map<PermuterId, Job>,
                        step: Step, p2: map<PermuterId, Permuter>, j2: map<PermuterId, Job>)
    requires ChooseWorkSpec(p0, j0, minPriority, Retry(id), p1, j1)
    requires ChooseWorkSpec(p1, j1, minPriority, step, p2, j2)
    ensures IsBest(p0, j0, minPriority, id) && p0[id].workQueue == []
    ensures j1 == j0 && p1.Keys == p0.Keys
    ensures p1[id] == p0[id].(stale := true, outbox := p0[id].outbox + [NeedWork])
    ensures forall k :: k in p0 && k != id ==> p1[k] == p0[k]
    ensures !(step.Dispatch? && step.toSend.Work? && step.id == id)
  {
    assert !Eligible(p1, j1, minPriority, id);
  }
}
