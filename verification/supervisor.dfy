/**
 * The connection supervisor (`handle_connect_server`): it sets up the
 * connection's state and registers the worker, and once the reader and the
 * writer have stopped it tells the owner of every job the worker had loaded
 * that the worker is gone, and deregisters the worker.
 */
module Supervisor {
  import opened Types

  /** The result delivered to a permuter's owner when the worker vanishes. */
  function DisconnectNotice(who: Worker): (notice: PermuterResult)
  {
    PermuterResult.Result(who.id, who.name, Disconnect)
  }

  /** Needs a disconnect notice: loaded on this connection. */
  predicate LoadedOn(jobs: map<PermuterId, Job>, id: PermuterId)
  {
    id in jobs && jobs[id].state == Loaded
  }

  /** The registry after the permuters in `ids` that are loaded on the connection got their notice. */
  function NotifiedAmong(perms: map<PermuterId, Permuter>, jobs: map<PermuterId, Job>,
                         who: Worker, ids: set<PermuterId>): (notified: map<PermuterId, Permuter>)
  {
    map id | id in perms ::
      if id in ids && LoadedOn(jobs, id)
      then perms[id].(outbox := perms[id].outbox + [DisconnectNotice(who)])
      else perms[id]
  }

  /** The registry after cleanup: every permuter loaded on the connection got its notice. */
  function DisconnectNotified(perms: map<PermuterId, Permuter>, jobs: map<PermuterId, Job>,
                              who: Worker): (notified: map<PermuterId, Permuter>)
  {
    NotifiedAmong(perms, jobs, who, jobs.Keys)
  }

  /** Connection setup: an empty job map with the worker's priority floor, and the worker registered. */
  method Connect(reg: Registry, data: ConnectServerData) returns (conn: ServerState, serverId: ServerId)
    modifies reg`servers
    ensures fresh(conn)
    ensures conn.minPriority == data.minPriority && conn.jobs == map[]
    ensures serverId !in old(reg.servers)
    ensures reg.servers == old(reg.servers)[serverId := ConnectedServer(data.minPriority, data.numCores)]
  {
    conn := new ServerState(data.minPriority);
    serverId := reg.InsertServer(ConnectedServer(data.minPriority, data.numCores));
  }

  /** The cleanup block, atomically under the registry lock. */
  method Cleanup(reg: Registry, conn: ServerState, who: Worker, serverId: ServerId)
    modifies reg
    ensures reg.permuters == DisconnectNotified(old(reg.permuters), conn.jobs, who)
    ensures reg.servers == old(reg.servers) - {serverId}
  {
    ghost var before := reg.permuters;
    var todo := conn.jobs.Keys;
    while todo != {}
      invariant todo <= conn.jobs.Keys
      invariant reg.permuters == NotifiedAmong(before, conn.jobs, who, conn.jobs.Keys - todo)
      invariant reg.servers == old(reg.servers)
      decreases todo
    {
      var id :| id in todo;
      if conn.jobs[id].state == Loaded {
        if id in reg.permuters {
          var perm := reg.permuters[id];
          reg.permuters := reg.permuters[id := perm.(outbox := perm.outbox + [DisconnectNotice(who)])];
        }
      }
      todo := todo - {id};
    }
    reg.RemoveServer(serverId);
  }

  /**
   * Every permuter still in the registry whose job on this connection is
   * loaded gets exactly one disconnect notice; every other permuter is left
   * as it was, and no permuter appears or disappears.
   */
  lemma CleanupNotifiesLoadedOnce(perms: map<PermuterId, Permuter>, jobs: map<PermuterId, Job>,
                                  who: Worker, id: PermuterId)
    requires id in perms
    ensures DisconnectNotified(perms, jobs, who).Keys == perms.Keys
    ensures LoadedOn(jobs, id) ==>
              DisconnectNotified(perms, jobs, who)[id]
                == perms[id].(outbox := perms[id].outbox + [PermuterResult.Result(who.id, who.name, Disconnect)])
    ensures !LoadedOn(jobs, id) ==> DisconnectNotified(perms, jobs, who)[id] == perms[id]
  {
  }

  /**
   * A connection that is set up and cleaned up with no job in between leaves
   * the registered workers and the permuters exactly as they were.
   */
  method ConnectThenCleanup(reg: Registry, data: ConnectServerData, who: Worker)
    modifies reg
    ensures reg.servers == old(reg.servers)
    ensures reg.permuters == old(reg.permuters)
  {
    var conn, serverId := Connect(reg, data);
    Cleanup(reg, conn, who, serverId);
  }
}
