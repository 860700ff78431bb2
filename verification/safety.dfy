/** The invariant that ties the cloud to the ledger holds in every state of every run. */
module Safety {
  import opened Types
  import opened Records
  import opened Transactions
  import opened Ledger
  import opened Protocol
  import opened Transitions
  import opened Standing
  import opened Invariant
  import opened Effects
  import opened WorkerSteps
  import opened CloudSteps
  import opened OtherSteps

  // ----- the worker that acts

  lemma PlacedKnowing(s2: System, id: Id)
    requires !Active(s2.At(id).pc) || s2.At(id).pc.AtRelease?
    ensures GoesKnowing(s2, id)
  {
  }

  lemma LooksKnowing(cfg: Config, s: System, id: Id, act: WorkAction)
    requires Inv(cfg, s) && WorkEnabled(s, id, act) && CallsNothing(act) && !act.Crash?
    ensures GoesKnowing(WorkStep(cfg, s, id, act), id)
  {
    hide Inv, GoesKnowing, SendStep, ReceiveStep, ResolveStep, RecheckStep, AfterLookup, AfterRegistration, AfterWait,
      AttemptsFor, MayReply, MayEndWait, MayLookUp, MayAnswer, IsCandidateList, VmExists, Without;
    var w := s.At(id);
    match act {
      case Inspect(stopped) => InspectKnows(cfg, s, id, stopped);
      case AskRegistration(reg) => RegistrationKnows(cfg, s, id, reg);
      case DeleteOwn => PlacedKnowing(WorkStep(cfg, s, id, act), id);
      case Resolve(op) => ResolveKnows(cfg, s, id, op);
      case Recheck => RecheckKnows(cfg, s, id, w.pc == AtRecheck(true));
      case MakePlan(start, benched) => PlanKnows(cfg, s, id, start, benched);
      case Send => SendKeeps(cfg, s, id, Rest(w.pc));
      case Receive(reply) => ReceiveKeeps(cfg, s, id, Rest(w.pc), reply);
      case Wait(result) => WaitKnows(cfg, s, id, result);
      case Abort(err) => PlacedKnowing(WorkStep(cfg, s, id, act), id);
    }
  }

  lemma StoresKnowing(cfg: Config, s: System, id: Id, act: WorkAction)
    requires Inv(cfg, s) && WorkEnabled(s, id, act) && !CallsNothing(act) && !act.FinishTask?
    ensures GoesKnowing(WorkStep(cfg, s, id, act), id)
  {
    hide Inv, GoesKnowing, Write, StatusStep, AdoptStep, RereadStep, DecideStep, AdmitStep, IssueJitStep,
      SaveNextStep, DetachStep, DropStep, IsCandidateList, MayReply, MayEndWait, MayLookUp, MayAnswer;
    var w := s.At(id);
    match act {
      case CheckStatus(answer) => StatusKnows(cfg, s, id, answer);
      case TryAdopt(_, names) => AdoptKnows(cfg, s, id, names);
      case RereadJob => RereadKnows(cfg, s, id);
      case ReleaseOwn => ReleaseKnows(cfg, s, id, if w.pc == AtRelease(true) then AtDecide else AtEnd(NoError));
      case Discard => ReleaseKnows(cfg, s, id, if w.pc == AtDiscard(true) then AtAdmit else AtEnd(NoError));
      case Forget =>
        ForgetKnows(cfg, s, w.(failed := Some(AttemptOf(w.r.gen))), id, w.r.gen.model == Standard, AtDecide);
      case Decide => DecideKnows(cfg, s, id);
      case Admit(name) => AdmitKnows(cfg, s, id, name);
      case IssueJit(jit) => JitKnows(cfg, s, id, jit);
      case SaveNext => SaveNextKnows(cfg, s, id, Rest(w.pc));
      case SaveOp => SaveOpKnows(cfg, s, id, Rest(w.pc), OperationAt(w.pc));
      case Clear =>
        assert Put(s, id, w) == s;
        ForgetKnows(cfg, s, w, id, w.r.gen.model == Standard, AfterClear(w.pc));
      case _ => EndsThere(cfg, s, id, act);
    }
  }

  lemma EndsThere(cfg: Config, s: System, id: Id, act: WorkAction)
    requires act.DetachOwn? || act.KeepOwn? || act.Created? || act.Drop?
    ensures GoesKnowing(WorkStep(cfg, s, id, act), id)
  {
    hide Update, Detach, Knows;
  }

  /** No worker starts to create for a job it knows is over. */
  lemma OverCreatesNothing(cfg: Config, s: System, id: Id, act: WorkAction)
    requires Inv(cfg, s) && WorkEnabled(s, id, act) && !Leaves(act) && InLease(s, s.At(id)) && KnewOver(s.At(id))
    ensures Creating(WorkStep(cfg, s, id, act).At(id).pc) ==>
              && s.At(id).r.gen.vm == NONE && !Finished(s.t, s.At(id).key)
              && WorkStep(cfg, s, id, act).At(id).r == Load(WorkStep(cfg, s, id, act).t, s.At(id).key)
  {
    hide Inv, WorkStep, Answerable;
    KnowsHere(cfg, s, id);
    CreationStarts(cfg, s, id, act);
    if act.Admit? { AdmitStarts(cfg, s, id, act.name); }
  }

  lemma AdmitStarts(cfg: Config, s: System, id: Id, name: Id)
    ensures var s2 := WorkStep(cfg, s, id, Admit(name));
            s2.At(id).pc.AtJit? ==>
              || s.At(id).r.gen.vm != NONE
              || (!Finished(s.t, s.At(id).key) && s2.At(id).r == Load(s2.t, s.At(id).key))
  {
    hide Update;
  }

  /** A worker goes on knowing of a deletion under way. */
  lemma OwnKnewOver(cfg: Config, s: System, id: Id, act: WorkAction)
    requires Inv(cfg, s) && WorkEnabled(s, id, act) && !Leaves(act) && AllStand(cfg, WorkStep(cfg, s, id, act))
    requires InLease(s, s.At(id)) && s.At(id).key in s.deleting
    ensures KnewOver(WorkStep(cfg, s, id, act).At(id))
  {
    hide WorkStep, WorkEnabled, BooksOk, FleetOk, RowsFit, NamesDrawn, MemoryOk, Knows, Faithful, Creating,
      EvidenceOk, HolderFits;
    WorkerIsThere(s, id, act);
    Know(cfg, s, id);
    WorkStepFrame(cfg, s, id, act);
    OverCreatesNothing(cfg, s, id, act);
  }

  lemma StaysFaithfulSo(t: Tables, c: Cloud, w: Worker, t2: Tables, c2: Cloud, w2: Worker)
    requires w2.key == w.key
    requires w2.r != Load(t2, w.key) ==>
      && Faithful(t, c, w) && w2.r == w.r && Load(t2, w.key).gen == Load(t, w.key).gen && (KnewOver(w) ==> KnewOver(w2))
      && (w.r.gen.vm !in t.runners ==> w.r.gen.vm !in t2.runners)
      && (Load(t, w.key).gen == w.r.gen || (Untouched(c, w.r.gen.vm) ==> Untouched(c2, w.r.gen.vm)))
    ensures Faithful(t2, c2, w2)
  {
    hide Untouched, KnewOver;
  }

  /** A worker's own step keeps its snapshot faithful. */
  lemma OwnFaithful(cfg: Config, s: System, id: Id, act: WorkAction)
    requires Inv(cfg, s) && WorkEnabled(s, id, act) && !Leaves(act) && AllStand(cfg, WorkStep(cfg, s, id, act))
    requires var s2 := WorkStep(cfg, s, id, act); InLease(s2, s2.At(id)) && !s2.At(id).pc.AtReread?
    ensures var s2 := WorkStep(cfg, s, id, act); Faithful(s2.t, s2.cloud, s2.At(id))
  {
    hide Inv, Faithful, OnlyMoves, Draws, ReachesCloud, WorkStep, WorkEnabled, AllStand, FleetOk, RowsFit, NamesDrawn,
      MemoryOk, Knows, Tracks, Untouched, Creating, WorkerStands, BooksOk, DeletingOk;
    var s2 := WorkStep(cfg, s, id, act);
    var w := s.At(id);
    WorkerIsThere(s, id, act);
    Know(cfg, s, id);
    InvParts(cfg, s);
    StepTracks(cfg, s, id, act);
    SameJob(cfg, s, id, act);
    TracksLoad(s, s2, id);
    if s2.At(id).r != Load(s2.t, w.key) {
      if KnewOver(w) { OverCreatesNothing(cfg, s, id, act); }
      OwnStaysOut(cfg, s, id, act);
      LostStaysUntouched(cfg, s, id, act);
    }
    StaysFaithfulSo(s.t, s.cloud, w, s2.t, s2.cloud, s2.At(id));
  }

  /** A name of a snapshot does not enter the ledger again. */
  lemma StaysOut(cfg: Config, s: System, a: Action, n: Id)
    requires AllStand(cfg, s) && Enabled(cfg, s, a) && AllStand(cfg, Step(cfg, s, a)) && (n != NONE ==> n in s.nonces)
    ensures n !in s.t.runners ==> n !in Step(cfg, s, a).t.runners
  {
    hide AllStand, Enabled, Step;
    BooksStand(cfg, Step(cfg, s, a));
    KeysAreReal(cfg, Step(cfg, s, a).t);
    if n !in s.t.runners && n in Step(cfg, s, a).t.runners { NewNames(cfg, s, a, n); }
  }

  lemma OwnStaysOut(cfg: Config, s: System, id: Id, act: WorkAction)
    requires Inv(cfg, s) && WorkEnabled(s, id, act) && !Leaves(act) && AllStand(cfg, WorkStep(cfg, s, id, act))
    ensures var n := s.At(id).r.gen.vm; n !in s.t.runners ==> n !in WorkStep(cfg, s, id, act).t.runners
  {
    hide WorkStep, WorkEnabled, AllStand, FleetOk, RowsFit, NamesDrawn, MemoryOk, Knows, Faithful, KnewOver, Saved;
    WorkerIsThere(s, id, act);
    Know(cfg, s, id);
    StaysOut(cfg, s, Work(id, act), s.At(id).r.gen.vm);
  }

  lemma SameJob(cfg: Config, s: System, id: Id, act: WorkAction)
    requires id in s.workers && !Leaves(act)
    ensures var w, w2 := s.At(id), WorkStep(cfg, s, id, act).At(id);
            w2.key == w.key && w2.until == w.until && (w2.r == w.r || w2.r == Load(WorkStep(cfg, s, id, act).t, w.key))
    ensures WorkStep(cfg, s, id, act).now == s.now
  {
    hide WorkStep, Draws, ReachesCloud;
    WorkStepFrame(cfg, s, id, act);
  }

  lemma TracksLoad(s: System, s2: System, id: Id)
    requires Tracks(s, s2, id) && Active(s2.At(id).pc)
    ensures Active(s.At(id).pc)
    ensures || s2.At(id).r == Load(s2.t, s.At(id).key) || s2.At(id).pc.AtReread?
            || (Load(s2.t, s.At(id).key).gen == Load(s.t, s.At(id).key).gen && !s.At(id).pc.AtReread?)
  {
  }

  /** A worker that lost its claim submits nothing. */
  lemma LostStaysUntouched(cfg: Config, s: System, id: Id, act: WorkAction)
    requires Inv(cfg, s) && WorkEnabled(s, id, act) && !Leaves(act)
    ensures var s2 := WorkStep(cfg, s, id, act);
            || Load(s.t, s.At(id).key).gen == s.At(id).r.gen
            || (forall n :: Untouched(s.cloud, n) ==> Untouched(s2.cloud, n))
  {
    hide Inv, RowFits, Trying, WorkerStands, Answerable, Untouched;
    if ReachesCloud(act) {
      if act.DeleteOwn? { DeletionTouchesNothing(cfg, s, id); } else { Underway(cfg, s, id); }
    } else {
      hide WorkStep;
      WorkStepFrame(cfg, s, id, act);
    }
  }

  lemma DeletionTouchesNothing(cfg: Config, s: System, id: Id)
    ensures forall n :: Untouched(s.cloud, n) ==> Untouched(WorkStep(cfg, s, id, DeleteOwn).cloud, n)
  {
  }

  lemma OwnFits(cfg: Config, s: System, id: Id, act: WorkAction)
    requires Inv(cfg, s) && WorkEnabled(s, id, act) && !Leaves(act)
    requires var s2 := WorkStep(cfg, s, id, act); AllStand(cfg, s2) && RowsFit(s2.t, s2.cloud)
    ensures var s2 := WorkStep(cfg, s, id, act); WorkerFits(s2, s2.At(id))
  {
    hide WorkStep, WorkEnabled, BooksOk, FleetOk, RowFits, NamesDrawn, MemoryOk, Knows, Faithful, EvidenceOk,
      HolderFits, KnewOver, Saved, Unmade;
    var s2 := WorkStep(cfg, s, id, act);
    WorkerIsThere(s, id, act);
    Know(cfg, s, id);
    WorkStepFrame(cfg, s, id, act);
    if CallsNothing(act) { LooksKnowing(cfg, s, id, act); } else { StoresKnowing(cfg, s, id, act); }
    if InLease(s2, s2.At(id)) {
      StepTracks(cfg, s, id, act);
      TracksLoad(s, s2, id);
      if s.At(id).key in s.deleting { OwnKnewOver(cfg, s, id, act); }
      if !s2.At(id).pc.AtReread? { OwnFaithful(cfg, s, id, act); }
    }
    assert Saved(Load(s2.t, s.At(id).key).gen);
    KeysAreReal(cfg, s2.t);
  }

  // ----- everybody else

  /** A worker's step that leaves the cloud alone. */
  lemma QuietKeeps(cfg: Config, s: System, id: Id, act: WorkAction)
    requires Inv(cfg, s) && WorkEnabled(s, id, act) && !ReachesCloud(act) && AllStand(cfg, WorkStep(cfg, s, id, act))
    ensures OthersFit(WorkStep(cfg, s, id, act), id) && MemoryOk(WorkStep(cfg, s, id, act))
  {
    hide Inv, WorkStep, WorkEnabled, AllStand, FleetOk, RowsFit, WorkerFits, WorkCall, Perform, Lawful, CallJustified,
      OwedOk;
    var a := Work(id, act);
    var s2 := WorkStep(cfg, s, id, act);
    WorkerIsThere(s, id, act);
    WorkStepFrame(cfg, s, id, act);
    StepIsWork(cfg, s, id, act);
    StepJustified(cfg, s, a);
    Lawfully(cfg, s, a);
    CallFits(cfg, s, CallOf(cfg, s, a));
    StepCalls(cfg, s, a);
    OwedKeeps(cfg, s, a);
    InvParts(cfg, s);
    MemoryFrom(s, s2);
    forall i | i in s2.workers && i != id ensures WorkerFits(s2, s2.At(i)) {
      OtherFits(cfg, s, a, i);
    }
  }

  lemma StepIsWork(cfg: Config, s: System, id: Id, act: WorkAction)
    requires WorkEnabled(s, id, act)
    ensures Enabled(cfg, s, Work(id, act)) && Step(cfg, s, Work(id, act)) == WorkStep(cfg, s, id, act)
  {
  }

  lemma Lawfully(cfg: Config, s: System, a: Action)
    requires Inv(cfg, s) && Enabled(cfg, s, a)
    ensures Lawful(cfg, s.t, s.now, CallOf(cfg, s, a))
  {
    hide AllStand, RowsFit, FleetOk, NamesDrawn, MemoryOk, WorkerFits, Enabled, Lawful, CallOf;
    StepLawful(cfg, s, a);
  }

  lemma InvParts(cfg: Config, s: System)
    requires Inv(cfg, s)
    ensures AllStand(cfg, s) && FleetOk(s.cloud) && RowsFit(s.t, s.cloud) && NamesDrawn(s) && MemoryOk(s)
    ensures forall i :: i in s.cloud.vms ==> i.name in s.cloud.appeared
    ensures forall n :: n in s.t.runners && RowOf(s.t, n).owner == NONE ==> n in s.cloud.appeared
  {
    hide AllStand, NamesDrawn, MemoryOk, WorkerFits, UniqueOpen, Saved, Unmade;
    forall n | n in s.t.runners && s.t.runners[n].owner == NONE ensures n in s.cloud.appeared {
      assert RowFits(s.cloud, n, s.t.runners[n].rec.gen, true);
    }
  }

  lemma MemoryFrom(s: System, s2: System)
    requires MemoryOk(s) && OwedOk(s2.t, s.cloud)
    requires s2 == s.(t := s2.t, cloud := s2.cloud, workers := s2.workers, nonces := s2.nonces)
    requires s2.cloud.appeared == s.cloud.appeared && s2.cloud.vms <= s.cloud.vms
    ensures MemoryOk(s2)
  {
  }

  /** The three steps of a worker that reach into the cloud. */
  lemma LoudKeeps(cfg: Config, s: System, id: Id, act: WorkAction)
    requires Inv(cfg, s) && WorkEnabled(s, id, act) && ReachesCloud(act)
    ensures OthersFit(WorkStep(cfg, s, id, act), id) && MemoryOk(WorkStep(cfg, s, id, act))
  {
    hide Inv, OthersFit, AllStand, FleetOk, RowsFit, NamesDrawn, MemoryOk, GoesKnowing, OwedOk, WorkStep, Answerable,
      MayReply, SendStep, ReceiveStep, DeleteStep;
    InvParts(cfg, s);
    LoudSteps(cfg, s, id, act);
    match act {
      case Send => SendKeeps(cfg, s, id, Rest(s.At(id).pc));
      case Receive(reply) => ReceiveKeeps(cfg, s, id, Rest(s.At(id).pc), reply);
      case DeleteOwn => DeletesKeeping(cfg, s, id, s.At(id).pc == AtDelete(true));
    }
    OwedHere(s);
    LoudFrame(cfg, s, id, act);
    MemoryFrom(s, WorkStep(cfg, s, id, act));
  }

  lemma LoudSteps(cfg: Config, s: System, id: Id, act: WorkAction)
    requires WorkEnabled(s, id, act) && ReachesCloud(act)
    ensures match act {
              case Send => WorkStep(cfg, s, id, act) == SendStep(s, id, Rest(s.At(id).pc))
              case Receive(reply) =>
                WorkStep(cfg, s, id, act) == ReceiveStep(s, id, Rest(s.At(id).pc), reply)
                && MayReply(s.cloud, s.At(id).r.gen, reply)
              case _ => WorkStep(cfg, s, id, act) == DeleteStep(s, id, s.At(id).pc == AtDelete(true))
            }
  {
    hide SendStep, ReceiveStep, DeleteStep, MayReply;
  }

  lemma OwedHere(s: System)
    requires MemoryOk(s)
    ensures OwedOk(s.t, s.cloud)
  {
  }

  lemma LoudFrame(cfg: Config, s: System, id: Id, act: WorkAction)
    requires ReachesCloud(act)
    ensures var s2 := WorkStep(cfg, s, id, act);
            && s2 == s.(cloud := s2.cloud, workers := s2.workers)
            && s2.cloud.appeared == s.cloud.appeared && s2.cloud.vms <= s.cloud.vms
  {
  }

  lemma DeletesKeeping(cfg: Config, s: System, id: Id, resume: bool)
    requires Inv(cfg, s)
    ensures OthersFit(DeleteStep(s, id, resume), id)
  {
    hide Inv, OthersFit;
    FewerVms(cfg, s, Without(s.cloud.vms, s.At(id).r.gen.vm));
    Unchanged(cfg, s.(cloud := s.cloud.(vms := Without(s.cloud.vms, s.At(id).r.gen.vm))), id);
    OthersGo(s.(cloud := s.cloud.(vms := Without(s.cloud.vms, s.At(id).r.gen.vm))), id, AtRelease(resume));
  }

  lemma WorkKeeps(cfg: Config, s: System, id: Id, act: WorkAction)
    requires Inv(cfg, s) && WorkEnabled(s, id, act) && AllStand(cfg, WorkStep(cfg, s, id, act))
    ensures Inv(cfg, WorkStep(cfg, s, id, act))
  {
    hide WorkStep, WorkEnabled, AllStand, FleetOk, RowsFit, NamesDrawn, MemoryOk, WorkerFits;
    if ReachesCloud(act) { LoudKeeps(cfg, s, id, act); } else { QuietKeeps(cfg, s, id, act); }
    WorkerIsThere(s, id, act);
    WorkStepFrame(cfg, s, id, act);
    if !Leaves(act) { OwnFits(cfg, s, id, act); }
  }

  // ----- the other actors, the cloud and the clock

  predicate MovesRequest(a: Action) {
    a.CloudAccept? || a.CloudSucceed? || a.CloudFail?
  }

  predicate LosesVms(a: Action) {
    a.CloudLose? || a.DeleteVm?
  }

  /** A step of somebody else that leaves the cloud alone. */
  lemma OtherQuietKeeps(cfg: Config, s: System, a: Action)
    requires Inv(cfg, s) && Enabled(cfg, s, a) && !a.Work? && !MovesRequest(a) && !LosesVms(a)
    requires AllStand(cfg, Step(cfg, s, a))
    ensures Inv(cfg, Step(cfg, s, a))
  {
    hide Step, Enabled, AllStand, FleetOk, RowsFit, WorkerFits, Perform, Lawful, CallJustified, CallOf, OwedOk, Joins,
      MemoryOk;
    var s2 := Step(cfg, s, a);
    StepFrame(cfg, s, a);
    QuietCloud(cfg, s, a);
    StepJustified(cfg, s, a);
    Lawfully(cfg, s, a);
    CallFits(cfg, s, CallOf(cfg, s, a));
    StepCalls(cfg, s, a);
    OwedKeeps(cfg, s, a);
    InvParts(cfg, s);
    RecallKeeps(cfg, s, a);
    OtherWorkersStay(cfg, s, a);
    forall i | i in s2.workers ensures WorkerFits(s2, s2.At(i)) {
      if i in s.workers && s2.At(i) == s.At(i) {
        OtherFits(cfg, s, a, i);
      } else {
        NewcomerFits(cfg, s, s2, a, i);
      }
    }
  }

  lemma QuietCloud(cfg: Config, s: System, a: Action)
    requires !a.Work? && !MovesRequest(a) && !LosesVms(a)
    ensures Step(cfg, s, a).cloud == s.cloud
  {
    hide Update, WorkStep, RecordAssignment, RememberRunnerId, ReleaseRunner, DeferRunner;
  }

  lemma CloudKeeps(cfg: Config, s: System, a: Action)
    requires Inv(cfg, s) && Enabled(cfg, s, a) && (MovesRequest(a) || LosesVms(a)) && AllStand(cfg, Step(cfg, s, a))
    ensures Inv(cfg, Step(cfg, s, a))
  {
    hide AllStand, FleetOk, RowsFit, MemoryOk, WorkerFits, WorkEnabled, WorkStep, VmExists, MayAnswer, ShouldRemove;
    InvParts(cfg, s);
    match a {
      case CloudAccept(q) => ProgressKeeps(cfg, s, q, Running);
      case CloudSucceed(q) => ProgressKeeps(cfg, s, q, Succeeded);
      case CloudFail(q) => ProgressKeeps(cfg, s, q, Failed);
      case CloudLose(vm) => FewerVms(cfg, s, s.cloud.vms - {vm});
      case DeleteVm(name) =>
        FewerVms(cfg, s, Without(s.cloud.vms, name));
        DeletionRecalls(cfg, s, name);
        RememberingFits(s.(cloud := s.cloud.(vms := Without(s.cloud.vms, name))), s.gone + {name});
    }
  }

  lemma DeletionRecalls(cfg: Config, s: System, name: Id)
    requires MemoryOk(s) && name in s.doomed
    ensures MemoryOk(s.(cloud := s.cloud.(vms := Without(s.cloud.vms, name)), gone := s.gone + {name}))
  {
  }

  lemma RememberingFits(s: System, gone: set<Id>)
    ensures forall i :: WorkerFits(s, s.At(i)) ==> WorkerFits(s.(gone := gone), s.At(i))
  {
    hide Knows, Faithful, KnewOver, Saved;
  }

  /** Every step of every actor keeps the invariant. */
  lemma StepKeeps(cfg: Config, s: System, a: Action)
    requires Inv(cfg, s) && Enabled(cfg, s, a)
    ensures Inv(cfg, Step(cfg, s, a))
  {
    hide Inv, AllStand, WorkStep, WorkEnabled;
    InvParts(cfg, s);
    StepStands(cfg, s, a);
    if a.Work? {
      WorkKeeps(cfg, s, a.id, a.act);
    } else if MovesRequest(a) || LosesVms(a) {
      CloudKeeps(cfg, s, a);
    } else {
      OtherQuietKeeps(cfg, s, a);
    }
  }

  // ----- runs

  lemma {:induction false} RunKeeps(cfg: Config, run: seq<System>, acts: seq<Action>, i: nat)
    requires IsRun(cfg, run, acts) && i < |run|
    ensures Inv(cfg, StateAt(run, i))
  {
    hide Inv, Enabled, Step;
    if i == 0 {
      InitialOk(cfg, StateAt(run, 0).now);
    } else {
      RunKeeps(cfg, run, acts, i - 1);
      StepKeeps(cfg, StateAt(run, i - 1), ActionAt(acts, i - 1));
    }
  }
}
