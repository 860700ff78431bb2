/** The invariant of every run: the cloud against the ledger, and what each create
    callback knows of both. */
module Invariant {
  import opened Types
  import opened Transactions
  import opened CreationPlans
  import opened Ledger
  import opened Protocol
  import opened Standing

  // ----- requests

  predicate Over(c: Cloud, q: Request) {
    q in c.requests && (c.requests[q].Refused? || c.requests[q].Failed?)
  }

  predicate Accepted(c: Cloud, q: Request) {
    q in c.requests && (c.requests[q].Running? || c.requests[q].Succeeded? || c.requests[q].Failed?)
  }

  predicate Done(c: Cloud, q: Request) {
    q in c.requests && c.requests[q].Succeeded?
  }

  /** Every other request of this one's name is over. */
  ghost predicate Alone(c: Cloud, q: Request) {
    forall p :: p in c.requests && p.name == q.name && !Over(c, p) ==> p == q
  }

  /** A generation has at most one request that is not over. */
  ghost predicate UniqueOpen(c: Cloud) {
    forall q :: q in c.requests && q.name != NONE && !Over(c, q) ==> Alone(c, q)
  }

  /** A request without a name comes from a callback that lost its reservation. */
  predicate Barren(p: Progress) {
    p.Sent? || p.Refused?
  }

  // ----- the cloud by itself

  /** A generation that has had its VM has nothing pending; a VM's generation has had
      it, and has it once. */
  ghost predicate FleetOk(c: Cloud) {
    && UniqueOpen(c)
    && (forall q :: q in c.requests && Done(c, q) ==> q.name in c.appeared)
    && (forall q :: q in c.requests && q.name in c.appeared ==> Done(c, q) || Over(c, q))
    && (forall i :: i in c.vms ==> i.name in c.appeared)
    && (forall i, j :: i in c.vms && j in c.vms && i.name == j.name ==> i == j)
  }

  // ----- the cloud against the ledger

  /** A saved attempt is one of the plan's. */
  predicate Saved(g: Generation) {
    g.zone != NONE ==> Submittable(AttemptOf(g))
  }

  /** Of all requests ever submitted for a reserved name only the one its record
      saved, credential and all, can be anything but over; its VM runs in the saved
      zone; a recorded operation is that of an accepted request; and a row that is
      detached or confirmed has had its VM. */
  ghost predicate RowFits(c: Cloud, n: Id, g: Generation, detached: bool) {
    && (forall q :: q in c.requests && q.name == n && !Over(c, q) ==>
          q == RequestOf(g) && g.template != NONE && g.jit != NONE)
    && (forall i :: i in c.vms && i.name == n ==> i.zone == g.zone && i.model == g.model)
    && (n in c.appeared ==> Done(c, RequestOf(g)))
    && (detached || g.createdAt != NEVER ==> n in c.appeared)
    && (g.operation != NONE ==> Accepted(c, RequestOf(g)))
  }

  /** A record without a VM has no operation recorded and is not confirmed to have one. */
  predicate Unmade(g: Generation) {
    g.vm == NONE ==> g.createdAt == NEVER && g.operation == NONE
  }

  ghost predicate RowsFit(t: Tables, c: Cloud) {
    && (forall n :: n in t.runners ==>
          RowFits(c, n, t.runners[n].rec.gen, t.runners[n].owner == NONE) && Saved(t.runners[n].rec.gen))
    && (forall k :: k in t.jobs ==> Unmade(t.jobs[k].gen) && Saved(t.jobs[k].gen))
  }

  ghost predicate NamesDrawn(s: System) {
    && (forall q :: q in s.cloud.requests ==>
          && q.zone != NONE && q.model != NoModel
          && (if q.name != NONE then q.name in s.nonces else Barren(s.cloud.requests[q])))
    && (forall n :: n in s.cloud.appeared ==> n in s.nonces)
  }

  // ----- what other actors remember

  ghost predicate MemoryOk(s: System) {
    && (forall n :: n in s.swept ==> n in s.cloud.appeared)
    && (forall n :: n in s.doomed ==> n in s.cloud.appeared)
    && (forall n :: n in s.gone ==> n in s.cloud.appeared && !VmExists(s.cloud, n))
    && (forall k :: k in s.t.jobs && s.t.jobs[k].pendingDelete != NONE ==>
          s.t.jobs[k].pendingDelete in s.cloud.appeared)
    && (forall p :: p in s.payloads && s.payloads[p].deletes.Some? ==> s.payloads[p].deletes.value in s.cloud.appeared)
    && (forall d :: d in s.deletions ==> d.1 in s.cloud.appeared)
  }

  // ----- create workers

  /** The worker found the job over before it started to create anything. */
  predicate KnewOver(w: Worker) {
    w.r.terminal && !Creating(w.pc)
  }

  /** No VM came or can come of anything submitted under this name. */
  ghost predicate Untouched(c: Cloud, n: Id) {
    n !in c.appeared && forall q :: q in c.requests && q.name == n ==> Over(c, q)
  }

  /** The stored claim is still the snapshot's; the one foreign change possible is
      a full release, and then the worker found the job over, or it has not saved an
      attempt yet and nothing was submitted that is not over. */
  ghost predicate Faithful(t: Tables, c: Cloud, w: Worker) {
    var g := Load(t, w.key).gen;
    || g == w.r.gen
    || (&& g.vm == NONE && w.r.gen.vm !in t.runners && (KnewOver(w) || w.r.gen.zone == NONE)
        && (w.r.gen.vm != NONE && w.r.gen.zone == NONE ==> Untouched(c, w.r.gen.vm)))
  }

  predicate Unfinished(w: Worker) {
    w.r.gen.createdAt == NEVER
  }

  /** The next attempt is the saved one, if one is saved. */
  ghost predicate Continues(rest: seq<Attempt>, g: Generation) {
    AllSubmittable(rest) && (g.zone != NONE ==> |rest| > 0 && rest[0] == AttemptOf(g))
  }

  /** A reservation past the JIT step has its credential. */
  predicate Armed(g: Generation) {
    g.vm != NONE ==> g.jit != NONE
  }

  /** The worker has an attempt saved and goes on from it. */
  ghost predicate Trying(w: Worker, rest: seq<Attempt>) {
    Unfinished(w) && Armed(w.r.gen) && w.r.gen.zone != NONE && AllSubmittable(rest)
  }

  /** What a worker at each point knows about its generation. */
  ghost predicate Knows(c: Cloud, w: Worker) {
    var g := w.r.gen;
    var q := RequestOf(g);
    match w.pc
    case AtStatus => true
    case AtAdopt => g.vm == NONE && Unfinished(w)
    case AtReread => true
    case AtInspect => g.vm != NONE
    case AtRegister => w.status.Some? && g.zone != NONE
    case AtDelete(_) => g.vm in c.appeared
    case AtRelease(_) => true
    case AtDetach(_) => true
    case AtKeep => g.vm in c.appeared && g.zone != NONE && !w.r.terminal
    case AtResolve => g.vm != NONE && g.zone != NONE && Unfinished(w)
    case AtRecheck(stockout) => g.vm != NONE && g.zone != NONE && Unfinished(w) && (stockout ==> Over(c, q))
    case AtForget => g.vm != NONE && g.zone != NONE && Unfinished(w) && Over(c, q)
    case AtDecide => Unfinished(w)
    case AtDiscard(_) => Unsubmitted(g)
    case AtAdmit => Unfinished(w) && (g.vm != NONE ==> !w.r.terminal)
    case AtJit => Unfinished(w) && g.vm != NONE
    case AtPlan => Unfinished(w) && Armed(g)
    case AtAttempt(rest) => Unfinished(w) && Armed(g) && Continues(rest, g)
    case AtSend(rest) => Trying(w, rest)
    case AtAwait(rest) => Trying(w, rest) && q in c.requests
    case AtRecord(rest, _) => Trying(w, rest) && g.vm != NONE && Accepted(c, q)
    case AtWait(rest) => Trying(w, rest) && g.vm != NONE && Accepted(c, q)
    case AtClear(rest, _) => Trying(w, rest) && (g.vm != NONE ==> Over(c, q))
    case AtCreated => Unfinished(w) && g.vm in c.appeared && g.zone != NONE
    case AtEnd(_) => true
    case AtFinish(_) => true
  }

  /** While its lease runs, its snapshot is faithful, what it knows is so, and it
      knows of any deletion under way. */
  ghost predicate WorkerFits(s: System, w: Worker) {
    && (w.r.gen.vm != NONE ==> w.r.gen.vm in s.nonces) && Saved(w.r.gen)
    && (w.pc.AtRegister? || w.pc.AtDetach? ==> w.r.gen.vm in s.cloud.appeared)
    && (InLease(s, w) ==>
          Knows(s.cloud, w) && (w.key in s.deleting ==> KnewOver(w)) && (!w.pc.AtReread? ==> Faithful(s.t, s.cloud, w)))
  }

  ghost predicate Inv(cfg: Config, s: System) {
    && AllStand(cfg, s) && FleetOk(s.cloud) && RowsFit(s.t, s.cloud) && NamesDrawn(s) && MemoryOk(s)
    && (forall id :: id in s.workers ==> WorkerFits(s, s.At(id)))
  }

  lemma InitialOk(cfg: Config, now: Time)
    requires cfg.Valid() && now > NEVER
    ensures Inv(cfg, Initial(now))
  {
  }

  // ----- consequences

  /** What the invariant says about one worker. */
  lemma Know(cfg: Config, s: System, id: Id)
    requires Inv(cfg, s) && id in s.workers
    ensures WorkerFits(s, s.At(id)) && WorkerStands(s, id, s.At(id)) && s.At(id).key != NONE
    ensures BooksOk(cfg, s.t) && FleetOk(s.cloud) && RowsFit(s.t, s.cloud) && NamesDrawn(s) && NamesOk(s)
    ensures cfg.Valid() && s.now > NEVER && DeletingOk(s)
  {
  }

  /** The row behind a stored claim. */
  lemma ClaimRow(cfg: Config, t: Tables, c: Cloud, key: Id)
    requires BooksOk(cfg, t) && RowsFit(t, c) && Load(t, key).gen.vm != NONE
    ensures var g := Load(t, key).gen;
            && key in t.jobs && g.vm in t.runners && RowOf(t, g.vm).rec == t.jobs[key] && RowOf(t, g.vm).owner == key
            && RowFits(c, g.vm, g, false)
  {
    var g := Load(t, key).gen;
    assert t.runners[g.vm].owner == key != NONE;
    assert RowFits(c, g.vm, t.runners[g.vm].rec.gen, false);
  }

  /** A reservation without a saved attempt has nothing in the cloud. */
  lemma UnsubmittedIsGone(s: System, g: Generation)
    requires NamesDrawn(s) && RowFits(s.cloud, g.vm, g, false) && g.zone == NONE
    ensures Untouched(s.cloud, g.vm)
  {
  }

  /** Neither has one whose saved attempt is over. */
  lemma OverIsGone(s: System, g: Generation)
    requires RowFits(s.cloud, g.vm, g, false) && Over(s.cloud, RequestOf(g))
    ensures Untouched(s.cloud, g.vm)
  {
  }

  /** A worker inside its lease that has an attempt saved, and knows of nothing over,
      has its claim stored; so has one whose generation's VM has appeared. */
  lemma ClaimBehind(cfg: Config, s: System, id: Id)
    requires Inv(cfg, s) && id in s.workers && InLease(s, s.At(id)) && !s.At(id).pc.AtReread?
    ensures var w := s.At(id);
            var g := w.r.gen;
            && (Load(s.t, w.key).gen == g || Load(s.t, w.key).gen.vm == NONE)
            && (g.zone != NONE && !KnewOver(w) ==> Load(s.t, w.key).gen == g)
            && (Load(s.t, w.key).gen != g ==> g.vm !in s.t.runners)
            && (Load(s.t, w.key).gen == g && g.vm != NONE ==>
                  RowFits(s.cloud, g.vm, g, false) && g.vm in s.t.runners && RowOf(s.t, g.vm).owner == w.key)
            && (g.vm in s.cloud.appeared ==> g.zone != NONE)
  {
    hide BooksOk, RowFits, DeletingOk, MemoryOk, Knows, HolderFits;
    Know(cfg, s, id);
    var w := s.At(id);
    if Load(s.t, w.key).gen == w.r.gen && w.r.gen.vm != NONE {
      ClaimRow(cfg, s.t, s.cloud, w.key);
      AppearedIsSaved(s, w.r.gen);
    }
  }

  lemma AppearedIsSaved(s: System, g: Generation)
    requires NamesDrawn(s) && RowFits(s.cloud, g.vm, g, false)
    ensures g.vm in s.cloud.appeared ==> g.zone != NONE
  {
  }

  /** A generation lives in at most one zone, in every run. */
  lemma OneZone(cfg: Config, s: System, i: Instance, j: Instance)
    requires Inv(cfg, s) && i in s.cloud.vms && j in s.cloud.vms && i.name == j.name
    ensures i == j
  {
  }
}
