/** What the lease and the dispatch token fence off. */
module Fences {
  import opened Types
  import opened Records
  import opened Transactions
  import opened Ledger
  import opened Protocol
  import opened Transitions
  import opened Standing
  import opened Counters
  import opened Invariant
  import opened Safety
  import opened Coverage
  import opened Tokens

  /** A worker that lost its lease, to time or to another worker, can no longer
      change anything stored, wherever it is: only finishTask is left to it. */
  lemma LeaseLoserIsInert(cfg: Config, s: System, id: Id, act: WorkAction)
    requires WorkEnabled(s, id, act) && !act.FinishTask?
    requires var lease := Load(s.t, s.At(id).key).lease; lease.holder != id || lease.until < s.now
    ensures WorkStep(cfg, s, id, act).t == s.t
  {
    hide WorkStep, WorkCall, WorkEnabled, Mirror, Prepare;
    WorkStepCalls(cfg, s, id, act);
    WorkCallKinds(cfg, s, id, act);
  }

  /** The tables agree on everything but the schedule of owned rows. */
  ghost predicate SameClaims(t: Tables, t2: Tables) {
    && t2.jobs == t.jobs && t2.fleet == t.fleet && t2.evidence == t.evidence
    && t2.runners.Keys == t.runners.Keys
    && (forall n :: n in t.runners ==>
          var row, row2 := t.runners[n], t2.runners[n];
          row2 == row || (row.owner != NONE && row2 == row.(pool := row2.pool, nextActionAt := row2.nextActionAt)))
  }

  lemma PrepareIsIdempotent(r: Record, now: Time)
    requires Filed(r)
    ensures Prepare(r, now) == r
  {
  }

  /** finishTask under a superseded dispatch token rewrites what is there. */
  lemma StaleTokenIsInert(cfg: Config, t: Tables, now: Time, key: Id, token: Id, err: WorkError)
    requires BooksOk(cfg, t) && key in t.jobs && token != NONE && token != Load(t, key).dispatch.token
    ensures var tx := Update(t, cfg, now, key, err.Permanent?, Finish(token, err));
            tx.Committed? && SameClaims(t, tx.t)
  {
    hide Prepare;
    var r := t.jobs[key];
    PrepareIsIdempotent(r, now);
    if r.gen.vm != NONE {
      assert t.runners[r.gen.vm].owner == key != NONE;
    }
  }

  /** A superseded callback, without lease and without dispatch, changes nothing
      that counts, whatever it still does. */
  lemma SupersededWorkerIsInert(cfg: Config, run: seq<System>, acts: seq<Action>, i: nat, id: Id, act: WorkAction)
    requires IsRun(cfg, run, acts) && i < |acts| && ActionAt(acts, i) == Work(id, act)
    requires var s := StateAt(run, i);
             var r := Load(s.t, s.At(id).key);
             (r.lease.holder != id || r.lease.until < s.now) && r.dispatch.token != s.At(id).dispatch
    ensures SameClaims(StateAt(run, i).t, StateAt(run, i + 1).t)
  {
    hide WorkStep, WorkEnabled, Update, BooksOk, DeletingOk, WorkCall;
    var s := StateAt(run, i);
    assert Enabled(cfg, s, Work(id, act)) && StateAt(run, i + 1) == Step(cfg, s, Work(id, act));
    RunStands(cfg, run, acts, i);
    WorkerIsThere(s, id, act);
    Stands(cfg, s, id);
    var w := s.At(id);
    if act.FinishTask? {
      RunTokens(cfg, run, acts, i);
      WorkStepCalls(cfg, s, id, act);
      FinishCalls(cfg, s, id);
      StaleTokenIsInert(cfg, s.t, s.now, w.key, w.dispatch, ErrorAt(w.pc));
    } else {
      LeaseLoserIsInert(cfg, s, id, act);
    }
  }

  lemma FinishCalls(cfg: Config, s: System, id: Id)
    ensures var w := s.At(id);
            var err := ErrorAt(w.pc);
            WorkCall(cfg, s, id, FinishTask)
                == if err.Contended? then NoCall else CallUpdate(w.key, err.Permanent?, Finish(w.dispatch, err))
  {
  }

  /** Lease fencing of the local snapshot, as long as finishTask asks before it gives
      back: while a worker's lease lasts, the lease is stored as its own and the stored
      claim is the snapshot's.  The one foreign change possible is a full release, and
      then the job is over and the row is gone; in a patient run nothing of the
      generation is left in the cloud either. */
  lemma SnapshotIsFaithful(cfg: Config, run: seq<System>, acts: seq<Action>, i: nat, id: Id)
    requires IsCheckedRun(cfg, run, acts) && i < |run| && id in StateAt(run, i).workers
    requires InLease(StateAt(run, i), StateAt(run, i).At(id)) && !StateAt(run, i).At(id).pc.AtReread?
    ensures
      var s := StateAt(run, i);
      var w := s.At(id);
      var r := Load(s.t, w.key);
      && r.lease == Lease(id, w.until)
      && (w.r.gen.vm == NONE ==> r.gen.vm == NONE)
      && (r.gen == w.r.gen || (r.terminal && r.gen.vm == NONE && w.r.gen.vm !in s.t.runners))
      && (IsPatientRun(cfg, run, acts) && r.gen != w.r.gen ==> Gone(s.cloud, w.r.gen.vm, s.now))
  {
    hide Inv, BooksOk, IsRun, DeletingOk, Tallied, RowFits, FleetOk, RowsFit;
    var s := StateAt(run, i);
    RunReckons(cfg, run, acts, i);
    Stands(cfg, s, id);
    RunKeeps(cfg, run, acts, i);
    ClaimBehind(cfg, s, id);
    assert Relies(s, s.At(id));
    if IsPatientRun(cfg, run, acts) && s.At(id).r.gen.vm !in s.t.runners { NoVmIsUncounted(cfg, run, acts, i); }
  }

  /** A cloud call under way is inside the caller's own lease. */
  lemma CallerHoldsLease(cfg: Config, s: System, id: Id, act: WorkAction)
    requires AllStand(cfg, s) && WorkEnabled(s, id, act) && IsCloudCall(act)
    ensures id in s.workers && Load(s.t, s.At(id).key).lease == Lease(id, s.At(id).until) && s.now < s.At(id).until
  {
    hide Answerable, BooksOk, EvidenceOk, DeletingOk, HolderFits;
    Stands(cfg, s, id);
  }

  /** Mutual exclusion of side effects: at no time of any run are cloud calls of two
      callbacks for one job under way, because a callback's deadline passes before its
      lease. */
  lemma OneCallerPerJob(cfg: Config, run: seq<System>, acts: seq<Action>, i: nat, id1: Id, id2: Id,
      act1: WorkAction, act2: WorkAction)
    requires IsRun(cfg, run, acts) && i < |run|
    requires var s := StateAt(run, i);
             WorkEnabled(s, id1, act1) && WorkEnabled(s, id2, act2) && s.At(id1).key == s.At(id2).key
    requires IsCloudCall(act1) && IsCloudCall(act2)
    ensures id1 == id2
  {
    hide AllStand, Enabled, Step, WorkEnabled;
    RunStands(cfg, run, acts, i);
    CallerHoldsLease(cfg, StateAt(run, i), id1, act1);
    CallerHoldsLease(cfg, StateAt(run, i), id2, act2);
  }
}
