/** What a step means to the callbacks that do not make it, and to what actors remember. */
module OtherSteps {
  import opened Types
  import opened Records
  import opened Transactions
  import opened Ledger
  import opened Protocol
  import opened Transitions
  import opened Standing
  import opened Invariant
  import opened Effects
  import opened WorkerSteps

  lemma StepJustified(cfg: Config, s: System, a: Action)
    requires Inv(cfg, s) && Enabled(cfg, s, a)
    ensures CallJustified(cfg, s, CallOf(cfg, s, a))
  {
    hide WorkCall, WorkEnabled, BooksOk, RowsFit, FleetOk, NamesDrawn, MemoryOk, WorkerFits, Update, Detach;
    if a.Work? { WorkJustified(cfg, s, a.id, a.act); } else { OtherCallKinds(cfg, s, a); }
  }

  /** The call after which this worker's claim is gone: the worker found the job over,
      or has not saved an attempt, and nothing of the generation is pending. */
  lemma SurrenderKnown(cfg: Config, s: System, a: Action, id: Id)
    requires Inv(cfg, s) && Enabled(cfg, s, a) && id in s.workers && !ActsFor(a, id) && InLease(s, s.At(id))
    requires Surrenders(s.t, CallOf(cfg, s, a), s.At(id).key)
    ensures var g := Load(s.t, s.At(id).key).gen;
            g.vm != NONE && (KnewOver(s.At(id)) || g.zone == NONE) && (g.zone == NONE ==> Untouched(s.cloud, g.vm))
  {
    hide WorkCall, WorkEnabled, BooksOk, RowsFit, FleetOk, NamesDrawn, MemoryOk, RowFits, Knows, Faithful, Untouched,
      KnewOver, EvidenceOk, HolderFits;
    Know(cfg, s, id);
    var key := s.At(id).key;
    if a.Work? { WorkCallKinds(cfg, s, a.id, a.act); } else { OtherCallKinds(cfg, s, a); }
    ClaimRow(cfg, s.t, s.cloud, key);
    if Load(s.t, key).gen.zone == NONE { UnsubmittedIsGone(s, Load(s.t, key).gen); }
  }

  /** The row of a claim that was given up is gone. */
  lemma SurrenderDrops(cfg: Config, t: Tables, now: Time, c: Call, key: Id)
    requires BooksOk(cfg, t) && now > NEVER && Lawful(cfg, t, now, c) && Surrenders(t, c, key)
    requires Load(t, key).gen.vm != NONE && Load(Perform(cfg, t, now, c), key).gen.vm == NONE
    ensures Load(t, key).gen.vm !in Perform(cfg, t, now, c).runners
  {
    hide Update, BooksOk, Releases, Admissible, Filed;
    LoadFiled(cfg, t, key);
    OwnershipIsBijective(cfg, t, key, Load(t, key).gen.vm);
    if Update(t, cfg, now, c.key, c.capacity, c.change).Committed? {
      RowsAfterUpdate(cfg, t, now, c.key, c.capacity, c.change, Load(t, key).gen.vm);
    }
  }

  /** Nobody else makes a worker's snapshot false, but by giving up its claim as above. */
  lemma StaysFaithful(cfg: Config, s: System, a: Action, id: Id)
    requires Inv(cfg, s) && Enabled(cfg, s, a) && id in s.workers && !ActsFor(a, id)
    requires InLease(s, s.At(id)) && !s.At(id).pc.AtReread?
    ensures Faithful(Step(cfg, s, a).t, s.cloud, s.At(id))
  {
    hide Step, Enabled, BooksOk, RowsFit, FleetOk, NamesDrawn, MemoryOk, DeletingOk, Knows, Perform, CallOf, Lawful,
      Foreign, Surrenders, Untouched, EvidenceOk, HolderFits;
    var w := s.At(id);
    var c := CallOf(cfg, s, a);
    var s2 := Step(cfg, s, a);
    Know(cfg, s, id);
    StepStands(cfg, s, a);
    StepCalls(cfg, s, a);
    StepLawful(cfg, s, a);
    StepForeign(cfg, s, a, id);
    CallUnharmed(cfg, s.t, s.now, c, w.key, id);
    if w.r.gen.vm in s2.t.runners && w.r.gen.vm !in s.t.runners {
      NewNames(cfg, s, a, w.r.gen.vm);
      KeysAreReal(cfg, s2.t);
    }
    if Load(s2.t, w.key).gen != Load(s.t, w.key).gen {
      SurrenderKnown(cfg, s, a, id);
      SurrenderDrops(cfg, s.t, s.now, c, w.key);
    }
  }

  /** A delete task is dispatched only while nobody works on the job. */
  lemma NewlyDeleting(cfg: Config, s: System, a: Action, key: Id)
    requires Enabled(cfg, s, a) && key in Step(cfg, s, a).deleting && key !in s.deleting
    ensures !LeaseLive(Load(s.t, key), s.now)
  {
    hide Update, WorkStep, RememberRunnerId, RecordAssignment, MayAnswer, ShouldRemove, Answerable;
    if a.Work? { WorkStepFrame(cfg, s, a.id, a.act); }
  }

  /** A step that leaves the cloud alone, to a worker that does not make it. */
  lemma OtherFits(cfg: Config, s: System, a: Action, id: Id)
    requires Inv(cfg, s) && Enabled(cfg, s, a) && id in s.workers && !ActsFor(a, id)
    requires var s2 := Step(cfg, s, a);
             AllStand(cfg, s2) && s2.cloud == s.cloud && s.now <= s2.now && s.nonces <= s2.nonces
    ensures WorkerFits(Step(cfg, s, a), s.At(id))
  {
    hide Step, Enabled, AllStand, BooksOk, RowsFit, FleetOk, NamesDrawn, MemoryOk, DeletingOk, Knows, Faithful,
      HolderFits, EvidenceOk, KnewOver, Saved;
    var w := s.At(id);
    Know(cfg, s, id);
    if InLease(s, w) {
      if w.key in Step(cfg, s, a).deleting && w.key !in s.deleting { NewlyDeleting(cfg, s, a, w.key); }
      if !w.pc.AtReread? { StaysFaithful(cfg, s, a, id); }
    }
  }

  /** A claim starts from what is stored, and knows of a deletion under way. */
  lemma NewcomerFits(cfg: Config, s: System, s2: System, a: Action, id: Id)
    requires Joins(cfg, s, s2, a) && IsNew(s, s2, id) && AllStand(cfg, s2) && RowsFit(s2.t, s2.cloud)
    ensures WorkerFits(s2, s2.At(id))
  {
    hide BooksOk, Update, RowFits, EvidenceOk;
    var key := s2.At(id).key;
    assert Saved(Load(s2.t, key).gen);
    LoadFiled(cfg, s2.t, key);
    KeysAreReal(cfg, s2.t);
  }

  // ----- what actors remember

  ghost predicate OwedOk(t: Tables, c: Cloud) {
    forall k :: k in t.jobs && t.jobs[k].pendingDelete != NONE ==> t.jobs[k].pendingDelete in c.appeared
  }

  /** A deletion is owed of a runner whose VM has come up. */
  lemma OwedKeeps(cfg: Config, s: System, a: Action)
    requires Inv(cfg, s) && Enabled(cfg, s, a)
    ensures OwedOk(Step(cfg, s, a).t, s.cloud)
  {
    hide Step, AllStand, WorkEnabled, RowsFit, FleetOk, NamesDrawn, WorkerFits, Perform, Lawful, WorkCall;
    var s2 := Step(cfg, s, a);
    StepCalls(cfg, s, a);
    StepLawful(cfg, s, a);
    BooksStand(cfg, s);
    forall k | k in s2.t.jobs && s2.t.jobs[k].pendingDelete != NONE
      ensures s2.t.jobs[k].pendingDelete in s.cloud.appeared
    {
      CallOnOwed(cfg, s.t, s.now, CallOf(cfg, s, a), k);
      if a.Work? { WorkCallKinds(cfg, s, a.id, a.act); }
    }
  }

  lemma DispatchRecalls(cfg: Config, s: System, key: Id, token: Id, delay: Time)
    requires MemoryOk(s) && OwedOk(DispatchStep(cfg, s, key, token, delay).t, s.cloud)
    ensures MemoryOk(DispatchStep(cfg, s, key, token, delay))
  {
    hide Update, MaySend;
  }

  lemma StartRecalls(cfg: Config, s: System, token: Id)
    requires MemoryOk(s) && token in s.payloads && OwedOk(StartTaskStep(cfg, s, token).t, s.cloud)
    ensures MemoryOk(StartTaskStep(cfg, s, token))
  {
    hide Update;
  }

  lemma ClaimRecalls(cfg: Config, s: System, start: Start, id: Id, override: Option<Id>)
    requires MemoryOk(s) && OwedOk(ClaimStep(cfg, s, start, id, override).t, s.cloud)
    ensures MemoryOk(ClaimStep(cfg, s, start, id, override))
  {
    hide Update;
  }

  /** The steps that come to a verdict, and the deletion one leads to. */
  predicate Judges(a: Action) {
    a.DeleteVerdict? || a.SweepPage? || a.SweepVerdict? || a.SweepAbsent? || a.DeleteVm? || a.OrphanVerdict?
  }

  lemma VerdictRecalls(cfg: Config, s: System, a: Action)
    requires MemoryOk(s) && Enabled(cfg, s, a) && Judges(a)
    requires forall i :: i in s.cloud.vms ==> i.name in s.cloud.appeared
    requires forall n :: n in s.t.runners && RowOf(s.t, n).owner == NONE ==> n in s.cloud.appeared
    ensures MemoryOk(Step(cfg, s, a))
  {
    hide MayAnswer, ShouldRemove;
  }

  /** The other steps leave everything remembered alone. */
  lemma IdleRecalls(cfg: Config, s: System, a: Action)
    requires !a.Work? && !a.CloudSucceed? && !a.Dispatch? && !a.StartTask? && !a.ClaimJob? && !Judges(a)
    ensures var s2 := Step(cfg, s, a);
            && s2 == s.(t := s2.t, cloud := s2.cloud, now := s2.now)
            && s2.cloud.appeared == s.cloud.appeared && s2.cloud.vms <= s.cloud.vms
  {
    hide Update, RecordAssignment, RememberRunnerId, ReleaseRunner, DeferRunner, ClaimStep, DispatchStep,
      StartTaskStep, WorkStep;
  }

  lemma RecallFrom(s: System, s2: System)
    requires MemoryOk(s) && OwedOk(s2.t, s.cloud) && s2 == s.(t := s2.t, cloud := s2.cloud, now := s2.now)
    requires s2.cloud.appeared == s.cloud.appeared && s2.cloud.vms <= s.cloud.vms
    ensures MemoryOk(s2)
  {
  }

  /** What is remembered is about names whose VM has appeared; what is gone stays gone. */
  lemma RecallKeeps(cfg: Config, s: System, a: Action)
    requires MemoryOk(s) && Enabled(cfg, s, a) && !a.Work? && !a.CloudSucceed? && OwedOk(Step(cfg, s, a).t, s.cloud)
    requires forall i :: i in s.cloud.vms ==> i.name in s.cloud.appeared
    requires forall n :: n in s.t.runners && RowOf(s.t, n).owner == NONE ==> n in s.cloud.appeared
    ensures MemoryOk(Step(cfg, s, a))
  {
    hide MemoryOk, OwedOk, ClaimStep, DispatchStep, StartTaskStep, WorkEnabled, WorkStep, RowOf, MayAnswer,
      ShouldRemove;
    match a {
      case Dispatch(key, token, delay) => DispatchRecalls(cfg, s, key, token, delay);
      case StartTask(token) => StartRecalls(cfg, s, token);
      case ClaimJob(start, id, override) => ClaimRecalls(cfg, s, start, id, override);
      case _ =>
        if Judges(a) {
          VerdictRecalls(cfg, s, a);
        } else {
          hide Enabled, Step;
          IdleRecalls(cfg, s, a);
          RecallFrom(s, Step(cfg, s, a));
        }
    }
  }
}
