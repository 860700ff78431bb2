/** Steps of the cloud, and of the workers that talk to it. */
module CloudSteps {
  import opened Types
  import opened Transactions
  import opened CreationPlans
  import opened Ledger
  import opened Protocol
  import opened Standing
  import opened Invariant
  import opened WorkerSteps

  function With(c: Cloud, q: Request, p: Progress): Cloud {
    c.(requests := c.requests[q := p])
  }

  // ----- a worker's own request

  /** Two workers inside their leases never work on one generation. */
  lemma OneWorkerPerName(cfg: Config, s: System, id: Id, id2: Id)
    requires Inv(cfg, s) && id in s.workers && id2 in s.workers && id != id2
    requires InLease(s, s.At(id)) && Creating(s.At(id).pc) && s.At(id).r.gen.vm != NONE && s.At(id).r.gen.zone != NONE
    requires InLease(s, s.At(id2)) && !s.At(id2).pc.AtReread?
    ensures s.At(id2).r.gen.vm != s.At(id).r.gen.vm
  {
    hide BooksOk, RowsFit, FleetOk, NamesDrawn, DeletingOk, RowFits, Knows, HolderFits;
    ClaimBehind(cfg, s, id);
    ClaimBehind(cfg, s, id2);
    Know(cfg, s, id);
    Know(cfg, s, id2);
  }

  /** What a worker may turn its own request into: a request that has had a VM
      stays as it is. */
  predicate MayBecome(c: Cloud, q: Request, p: Progress) {
    (q in c.requests && c.requests[q] == p) ||
    ((q !in c.requests || c.requests[q].Sent? || c.requests[q].Refused?) && !p.Succeeded? && !p.Failed?)
  }

  /** A request is none of another row's business. */
  lemma RequestElsewhere(c: Cloud, q: Request, p: Progress, n: Id, g: Generation, detached: bool)
    requires RowFits(c, n, g, detached) && q.name != n && MayBecome(c, q, p)
    ensures RowFits(With(c, q, p), n, g, detached)
  {
  }

  /** A request without a name concerns nobody. */
  lemma NamelessFleet(c: Cloud, q: Request, p: Progress)
    requires FleetOk(c) && q.name == NONE && NONE !in c.appeared
    requires Barren(p) && (q in c.requests ==> Barren(c.requests[q]))
    ensures FleetOk(With(c, q, p))
  {
  }

  /** A request of a stored claim, credential and all, stays the only open one. */
  lemma OwnRequestFleet(c: Cloud, g: Generation, p: Progress)
    requires FleetOk(c) && RowFits(c, g.vm, g, false) && MayBecome(c, RequestOf(g), p)
    ensures FleetOk(With(c, RequestOf(g), p))
  {
  }

  lemma OwnRowFits(c: Cloud, g: Generation, p: Progress)
    requires RowFits(c, g.vm, g, false) && g.template != NONE && g.jit != NONE && MayBecome(c, RequestOf(g), p)
    ensures RowFits(With(c, RequestOf(g), p), g.vm, g, false)
  {
  }

  lemma RequestFits(cfg: Config, t: Tables, c: Cloud, key: Id, q: Request, p: Progress)
    requires BooksOk(cfg, t) && RowsFit(t, c) && MayBecome(c, q, p)
    requires var g := Load(t, key).gen; q.name == NONE || (q == RequestOf(g) && g.template != NONE && g.jit != NONE)
    ensures RowsFit(t, With(c, q, p))
  {
    hide BooksOk, RowFits, MayBecome, Saved, Unmade;
    var g := Load(t, key).gen;
    KeysAreReal(cfg, t);
    if q.name != NONE { ClaimRow(cfg, t, c, key); }
    forall n | n in t.runners
      ensures RowFits(With(c, q, p), n, t.runners[n].rec.gen, t.runners[n].owner == NONE)
    {
      if n == q.name {
        OwnRowFits(c, g, p);
      } else {
        RequestElsewhere(c, q, p, n, t.runners[n].rec.gen, t.runners[n].owner == NONE);
      }
    }
  }

  /** A request of another name, or without one, is none of a worker's business. */
  lemma ForeignRequest(s: System, q: Request, p: Progress, w: Worker)
    requires WorkerFits(s, w) && NONE !in s.cloud.appeared
    requires w.r.gen.vm != q.name || q.name == NONE || w.pc.AtReread? || !InLease(s, w)
    ensures WorkerFits(s.(cloud := With(s.cloud, q, p)), w)
  {
    hide AllSubmittable, Continues;
  }

  /** Everything but this worker's own part, and memory. */
  ghost predicate OthersFit(s: System, id: Id) {
    && FleetOk(s.cloud) && RowsFit(s.t, s.cloud) && NamesDrawn(s)
    && (forall i :: i in s.workers && i != id ==> WorkerFits(s, s.At(i)))
  }

  /** A worker about to submit, or waiting for the answer, has its claim stored: this is
      where the deadline of opContext and the longer lease meet. */
  lemma Underway(cfg: Config, s: System, id: Id)
    requires Inv(cfg, s) && id in s.workers && s.now < s.At(id).deadline
    requires s.At(id).pc.AtSend? || s.At(id).pc.AtAwait?
    ensures InLease(s, s.At(id)) && Trying(s.At(id), Rest(s.At(id).pc)) && Submittable(AttemptOf(s.At(id).r.gen))
    ensures Load(s.t, s.At(id).key).gen == s.At(id).r.gen && WorkerStands(s, id, s.At(id))
    ensures var g := s.At(id).r.gen; g.vm != NONE ==> RowFits(s.cloud, g.vm, g, false) && g.vm in s.nonces
  {
    hide BooksOk, RowsFit, FleetOk, NamesDrawn, DeletingOk, RowFits, HolderFits, AllSubmittable;
    Know(cfg, s, id);
    ClaimBehind(cfg, s, id);
  }

  /** A worker's own request changes under everybody else's eyes. */
  lemma RequestKeeps(cfg: Config, s: System, id: Id, p: Progress)
    requires Inv(cfg, s) && id in s.workers && s.now < s.At(id).deadline
    requires s.At(id).pc.AtSend? || s.At(id).pc.AtAwait?
    requires MayBecome(s.cloud, RequestOf(s.At(id).r.gen), p) && (s.At(id).r.gen.vm == NONE ==> Barren(p))
    ensures OthersFit(s.(cloud := With(s.cloud, RequestOf(s.At(id).r.gen), p)), id)
  {
    hide BooksOk, RowsFit, FleetOk, MemoryOk, DeletingOk, WorkerFits, WorkerStands, RowFits, EvidenceOk;
    var w := s.At(id);
    var q := RequestOf(w.r.gen);
    var s2 := s.(cloud := With(s.cloud, q, p));
    Underway(cfg, s, id);
    if q.name == NONE {
      NamelessFleet(s.cloud, q, p);
    } else {
      OwnRequestFleet(s.cloud, w.r.gen, p);
    }
    RequestFits(cfg, s.t, s.cloud, w.key, q, p);
    forall i | i in s.workers && i != id ensures WorkerFits(s2, s.At(i)) {
      if q.name != NONE && InLease(s, s.At(i)) && !s.At(i).pc.AtReread? { OneWorkerPerName(cfg, s, id, i); }
      ForeignRequest(s, q, p, s.At(i));
    }
  }

  lemma SendKeeps(cfg: Config, s: System, id: Id, rest: seq<Attempt>)
    requires Inv(cfg, s) && id in s.workers && s.now < s.At(id).deadline && s.At(id).pc == AtSend(rest)
    ensures OthersFit(SendStep(s, id, rest), id) && GoesKnowing(SendStep(s, id, rest), id)
  {
    hide Inv, OthersFit, AllSubmittable, RowFits, WorkerStands;
    var q := RequestOf(s.At(id).r.gen);
    var c := Submitted(s.cloud, q, s.At(id).deadline);
    NamelessAreBarren(cfg, s, q);
    assert c == With(s.cloud, q, c.requests[q]);
    RequestKeeps(cfg, s, id, c.requests[q]);
    Underway(cfg, s, id);
    OthersGo(s.(cloud := c), id, AtAwait(rest));
  }

  lemma NamelessAreBarren(cfg: Config, s: System, q: Request)
    requires Inv(cfg, s)
    ensures q in s.cloud.requests && q.name == NONE ==> Barren(s.cloud.requests[q])
  {
  }

  lemma OthersGo(s: System, id: Id, pc: Pc)
    requires OthersFit(s, id)
    ensures OthersFit(Goto(s, id, pc), id)
  {
    hide FleetOk, RowsFit, Knows, Faithful, Saved;
  }

  lemma ReceiveKeeps(cfg: Config, s: System, id: Id, rest: seq<Attempt>, reply: Reply)
    requires Inv(cfg, s) && id in s.workers && s.now < s.At(id).deadline && s.At(id).pc == AtAwait(rest)
    requires MayReply(s.cloud, s.At(id).r.gen, reply)
    ensures OthersFit(ReceiveStep(s, id, rest, reply), id) && GoesKnowing(ReceiveStep(s, id, rest, reply), id)
  {
    hide Inv, OthersFit, AllSubmittable, RowFits, WorkerStands;
    var q := RequestOf(s.At(id).r.gen);
    var s2 := ReceiveStep(s, id, rest, reply);
    Underway(cfg, s, id);
    match reply {
      case Refuse(why) => RequestKeeps(cfg, s, id, Refused);
      case Duplicate => Unchanged(cfg, s, id);
      case Took(operation) =>
        RequestKeeps(cfg, s, id, if s.cloud.requests[q].Sent? then Running else s.cloud.requests[q]);
    }
    OthersGo(s.(cloud := s2.cloud), id, s2.At(id).pc);
  }

  lemma Unchanged(cfg: Config, s: System, id: Id)
    requires Inv(cfg, s)
    ensures OthersFit(s, id) && forall i :: i in s.cloud.vms ==> i.name in s.cloud.appeared
  {
    hide RowsFit, WorkerFits, NamesDrawn, UniqueOpen;
  }

  // ----- VMs that go

  lemma FewerVmsFit(t: Tables, c: Cloud, vms: set<Instance>)
    requires FleetOk(c) && RowsFit(t, c) && vms <= c.vms
    ensures FleetOk(c.(vms := vms)) && RowsFit(t, c.(vms := vms))
  {
    forall n | n in t.runners ensures RowFits(c.(vms := vms), n, t.runners[n].rec.gen, t.runners[n].owner == NONE) {
      assert RowFits(c, n, t.runners[n].rec.gen, t.runners[n].owner == NONE);
    }
  }

  /** Losing VMs keeps everything. */
  lemma FewerVms(cfg: Config, s: System, vms: set<Instance>)
    requires Inv(cfg, s) && vms <= s.cloud.vms
    ensures Inv(cfg, s.(cloud := s.cloud.(vms := vms)))
  {
    hide BooksOk, EvidenceOk, FleetOk, RowsFit;
    var s2 := s.(cloud := s.cloud.(vms := vms));
    FewerVmsFit(s.t, s.cloud, vms);
    forall id | id in s2.workers ensures WorkerFits(s2, s2.At(id)) && WorkerStands(s2, id, s2.At(id)) {
      assert WorkerFits(s, s.At(id)) && WorkerStands(s, id, s.At(id));
      FewerVmsWorker(s, vms, s.At(id));
    }
  }

  lemma FewerVmsWorker(s: System, vms: set<Instance>, w: Worker)
    requires WorkerFits(s, w)
    ensures WorkerFits(s.(cloud := s.cloud.(vms := vms)), w)
  {
    hide AllSubmittable, Continues;
  }

  // ----- requests that move on

  /** Requests only move forward and only into what their state allows. */
  ghost predicate Progresses(c: Cloud, q: Request, p: Progress) {
    q in c.requests && q.name != NONE &&
    if c.requests[q].Sent? then p.Running? else c.requests[q].Running? && (p.Succeeded? || p.Failed?)
  }

  function After(c: Cloud, q: Request, p: Progress): Cloud {
    if p.Succeeded? then
      Cloud(c.requests[q := p], c.vms + {Instance(q.name, q.zone, q.model)}, c.appeared + {q.name})
    else With(c, q, p)
  }

  lemma ProgressFleet(c: Cloud, q: Request, p: Progress)
    requires FleetOk(c) && Progresses(c, q, p)
    ensures FleetOk(After(c, q, p)) && q.name !in c.appeared
  {
    assert Alone(c, q);
  }

  lemma ProgressRow(c: Cloud, q: Request, p: Progress, n: Id, g: Generation, detached: bool)
    requires FleetOk(c) && Progresses(c, q, p) && RowFits(c, n, g, detached) && g.vm == n
    ensures RowFits(After(c, q, p), n, g, detached)
  {
  }

  lemma ProgressWorker(s: System, q: Request, p: Progress, w: Worker)
    requires WorkerFits(s, w) && Progresses(s.cloud, q, p)
    ensures WorkerFits(s.(cloud := After(s.cloud, q, p)), w)
  {
    hide AllSubmittable, Continues;
  }

  lemma ProgressKeeps(cfg: Config, s: System, q: Request, p: Progress)
    requires Inv(cfg, s) && Progresses(s.cloud, q, p)
    ensures var s2 := s.(cloud := After(s.cloud, q, p));
            OthersFit(s2, NONE) && MemoryOk(s2) && forall i :: i in s2.workers ==> WorkerFits(s2, s2.At(i))
  {
    hide BooksOk, WorkerFits, WorkerStands, EvidenceOk, DeletingOk, RowFits, FleetOk;
    var s2 := s.(cloud := After(s.cloud, q, p));
    ProgressFleet(s.cloud, q, p);
    KeysAreReal(cfg, s.t);
    forall n | n in s.t.runners
      ensures RowFits(s2.cloud, n, s.t.runners[n].rec.gen, s.t.runners[n].owner == NONE)
    {
      ProgressRow(s.cloud, q, p, n, s.t.runners[n].rec.gen, s.t.runners[n].owner == NONE);
    }
    forall i | i in s2.workers ensures WorkerFits(s2, s2.At(i)) {
      ProgressWorker(s, q, p, s.At(i));
    }
  }
}
