/** Who may delete a VM: nobody, while its assigned job is not known completed. */
module Verdicts {
  import opened Types
  import opened Transactions
  import opened Protocol
  import opened Transitions
  import opened Standing

  /** The step is a check whose outcome is to delete this generation. */
  ghost predicate Condemns(cfg: Config, s: System, a: Action, name: Id) {
    match a
    case Work(id, act) =>
      var w := s.At(id);
      w.r.gen.vm == name &&
      match act {
        case Inspect(stopped) => AfterLookup(w, VmExists(s.cloud, name), stopped) == AtDelete(true)
        case AskRegistration(reg) => AfterRegistration(cfg, w, reg, s.now) == AtDelete(false)
        case _ => false
      }
    case DeleteVerdict(_, n) => n == name
    case SweepVerdict(n, _, _) => n == name
    case OrphanVerdict(vm, _) => vm.name == name
    case _ => false
  }

  /** The check found the VM stopped. */
  predicate FoundStopped(a: Action) {
    match a
    case Work(_, act) => act.Inspect? && act.stopped
    case SweepVerdict(_, stopped, _) => stopped
    case OrphanVerdict(_, stopped) => stopped
    case _ => false
  }

  /** A check never condemns a running VM whose assigned job is not confirmed
      completed, whatever GitHub says about its registration. */
  lemma AssignedIsSpared(cfg: Config, s: System, a: Action, name: Id)
    requires Enabled(cfg, s, a) && Condemns(cfg, s, a, name) && Assigned(s.t, name)
    ensures FoundStopped(a)
  {
  }

  /** A check that condemned it, and did so fairly. */
  ghost predicate Fairly(cfg: Config, s: System, a: Action, name: Id) {
    Condemns(cfg, s, a, name) && (FoundStopped(a) || !Assigned(s.t, name))
  }

  /** Some earlier check was such a one. */
  ghost predicate Condemned(cfg: Config, run: seq<System>, acts: seq<Action>, i: nat, name: Id) {
    exists j: nat :: j < i && Fairly(cfg, StateAt(run, j), ActionAt(acts, j), name)
  }

  predicate Deleting(w: Worker, name: Id) {
    w.pc.AtDelete? && w.r.gen.vm == name
  }

  /** Nothing is marked for deletion, and no worker is about to delete, but after
      such a check. */
  lemma DoomedOrigin(cfg: Config, s: System, a: Action, name: Id)
    requires Enabled(cfg, s, a)
    ensures name in Step(cfg, s, a).doomed ==> name in s.doomed || Condemns(cfg, s, a, name)
  {
    hide Update, WorkStep, WorkEnabled, RememberRunnerId, RecordAssignment, MayAnswer, ShouldRemove;
    if a.Work? {
      StepWorkers(cfg, s, a);
    }
  }

  /** Only an instance lookup and a registration check lead to AtDelete. */
  lemma OwnDeletion(cfg: Config, s: System, id: Id, act: WorkAction, name: Id)
    requires !Leaves(act) && Deleting(WorkStep(cfg, s, id, act).At(id), name)
    ensures Condemns(cfg, s, Work(id, act), name)
  {
    hide WorkStep, ShouldRemove;
    WorkStepGoes(cfg, s, id, act);
    if act.Inspect? || act.AskRegistration? { LookingKeepsSnapshot(cfg, s, id, act); }
  }

  lemma LookingKeepsSnapshot(cfg: Config, s: System, id: Id, act: WorkAction)
    requires act.Inspect? || act.AskRegistration?
    ensures WorkStep(cfg, s, id, act).At(id).r == s.At(id).r
  {
    hide VmExists, AfterLookup, AfterRegistration;
  }

  lemma DeleterOrigin(cfg: Config, s: System, a: Action, id: Id, name: Id)
    requires Enabled(cfg, s, a) && id in Step(cfg, s, a).workers && Deleting(Step(cfg, s, a).At(id), name)
    ensures (id in s.workers && Deleting(s.At(id), name)) || Condemns(cfg, s, a, name)
  {
    hide Step, Enabled, WorkStep, WorkEnabled, Condemns;
    StepWorkers(cfg, s, a);
    if ActsFor(a, id) {
      OwnDeletion(cfg, s, id, a.act, name);
    } else if IsNew(s, Step(cfg, s, a), id) {
      NewcomerDeletesNothing(cfg, s, Step(cfg, s, a), a, id);
    }
  }

  lemma NewcomerDeletesNothing(cfg: Config, s: System, s2: System, a: Action, id: Id)
    requires Joins(cfg, s, s2, a) && IsNew(s, s2, id)
    ensures !s2.At(id).pc.AtDelete?
  {
    hide Update;
  }

  lemma {:induction false} DoomedIsCondemned(cfg: Config, run: seq<System>, acts: seq<Action>, i: nat, name: Id)
    requires IsRun(cfg, run, acts) && i < |run|
    ensures var s := StateAt(run, i);
            name in s.doomed || (exists id :: id in s.workers && Deleting(s.At(id), name)) ==>
              Condemned(cfg, run, acts, i, name)
  {
    hide Enabled, Step, Fairly, Condemns, Deleting;
    if i > 0 {
      var s, a := StateAt(run, i - 1), ActionAt(acts, i - 1);
      DoomedIsCondemned(cfg, run, acts, i - 1, name);
      DoomedOrigin(cfg, s, a, name);
      forall id | id in StateAt(run, i).workers && Deleting(StateAt(run, i).At(id), name)
        ensures (id in s.workers && Deleting(s.At(id), name)) || Condemns(cfg, s, a, name)
      {
        DeleterOrigin(cfg, s, a, id, name);
      }
      if Condemns(cfg, s, a, name) { CondemnsFairly(cfg, s, a, name); }
    }
  }

  lemma CondemnsFairly(cfg: Config, s: System, a: Action, name: Id)
    requires Enabled(cfg, s, a) && Condemns(cfg, s, a, name)
    ensures Fairly(cfg, s, a, name)
  {
    hide Enabled, Condemns, Assigned, FoundStopped;
    if Assigned(s.t, name) { AssignedIsSpared(cfg, s, a, name); }
  }

  /** Which steps take a VM away. */
  lemma RemovalStep(cfg: Config, s: System, a: Action, vm: Instance)
    requires Enabled(cfg, s, a) && vm in s.cloud.vms && vm !in Step(cfg, s, a).cloud.vms
    ensures
      || a == CloudLose(vm)
      || vm.name in s.doomed
      || (exists id :: id in s.workers && Deleting(s.At(id), vm.name))
  {
    hide Update, WorkStep, WorkEnabled, RememberRunnerId, RecordAssignment, MayAnswer, ShouldRemove;
    if a.Work? {
      StepWorkers(cfg, s, a);
      WorkerIsThere(s, a.id, a.act);
      WorkStepFrame(cfg, s, a.id, a.act);
      if ReachesCloud(a.act) { LoudRemoval(cfg, s, a.id, a.act, vm); }
    }
  }

  lemma LoudRemoval(cfg: Config, s: System, id: Id, act: WorkAction, vm: Instance)
    requires WorkEnabled(s, id, act) && ReachesCloud(act)
    requires vm in s.cloud.vms && vm !in WorkStep(cfg, s, id, act).cloud.vms
    ensures id in s.workers && Deleting(s.At(id), vm.name)
  {
  }

  /** Busy runners are safe: in any run whatsoever, a VM that disappears was lost by
      the cloud itself, or some actor's check had found it stopped, or had found no
      assignment whose job was not yet known completed. */
  lemma AssignedRunnerIsNeverDeleted(cfg: Config, run: seq<System>, acts: seq<Action>, i: nat, vm: Instance)
    requires IsRun(cfg, run, acts) && i < |acts|
    requires vm in StateAt(run, i).cloud.vms && vm !in StateAt(run, i + 1).cloud.vms
    ensures ActionAt(acts, i) == CloudLose(vm) || Condemned(cfg, run, acts, i, vm.name)
  {
    hide Enabled, Step, Condemned, Deleting;
    DoomedIsCondemned(cfg, run, acts, i, vm.name);
    RemovalStep(cfg, StateAt(run, i), ActionAt(acts, i), vm);
  }
}
