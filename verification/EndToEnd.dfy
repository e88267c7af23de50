/** The cache server and the leases together: whose bytes reach which job. */
module EndToEnd {
  import opened JobIdentity
  import Cache = CacheRuns
  import CacheTheorems
  import CacheStore
  import Lease = LeaseRuns
  import LeaseSafety
  import LeaseTheorems

  /**
   When the identity served to was granted to a connection, the bytes come from the repository of the
   job started on that connection's own lease, under a ref resolved for that job.
   */
  lemma ServedToItsJob(
    ws: seq<Cache.World>, steps: seq<Cache.Step>, s: CacheStore.Store, k: nat, v: Cache.Answered,
    ls: seq<Lease.World>, moves: seq<Lease.Step>, base: nat, size: nat, m: nat, g: Lease.Grant)
    requires Cache.Run(ws, steps, s) && k < |ws| && v in ws[k].served
    requires Lease.Run(ls, moves, base, size) && m < |ls| && g in ls[m].grants && g.identity == v.to
    ensures v.id in ws[k].heap
    ensures var e, gen := ws[k].heap[v.id], g.conn.bound;
            && gen in ls[m].jobs && e.repo == Lower(ls[m].jobs[gen].repository)
            && exists a :: (ls[m].jobs[gen], a) in ls[m].answers && e.rf in a.readRefs
  {
    CacheTheorems.ServedBytes(ws, steps, s, k, v);
    LeaseTheorems.GrantsAreOwn(ls, moves, base, size, m, g);
    var a :| (ls[m].jobs[g.conn.bound], a) in ls[m].answers && LeaseSafety.MadeFrom(g.identity, a);
    assert a.readRefs == v.to.readRefs;
  }

  /**
   When the identity an upload was made under was granted to a connection, that connection's lease and
   job are the ones that reserved the entry: no other VM's bytes are ever in it.
   */
  lemma UploadedByItsOwner(
    ws: seq<Cache.World>, steps: seq<Cache.Step>, s: CacheStore.Store, k: nat, x: Cache.Sent,
    ls: seq<Lease.World>, moves: seq<Lease.Step>, base: nat, size: nat, m: nat, g: Lease.Grant)
    requires Cache.Run(ws, steps, s) && k < |ws| && x in ws[k].log
    requires Lease.Run(ls, moves, base, size) && m < |ls| && g in ls[m].grants && g.identity == x.who
    ensures x.id in ws[k].heap
    ensures var e, gen := ws[k].heap[x.id], g.conn.bound;
            && e.generation == gen && gen in ls[m].jobs && gen in ls[m].holders && ls[m].holders[gen].ip == g.conn.ip
            && e.jobID == ls[m].jobs[gen].jobID && e.runID == ls[m].jobs[gen].runID
            && e.repo == Lower(ls[m].jobs[gen].repository)
  {
    CacheTheorems.LoggedByOwner(ws, steps, s, k, x);
    LeaseTheorems.GrantsAreOwn(ls, moves, base, size, m, g);
  }
}
