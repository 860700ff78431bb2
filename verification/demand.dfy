/** No VM without demand: a callback creates only after GitHub told it that the job
    is still queued. */
module Demand {
  import opened Types
  import opened Transactions
  import opened Protocol
  import opened Transitions
  import opened Standing

  /** The points a callback reaches only for a queued job. */
  predicate Provisions(pc: Pc) {
    pc.AtAdopt? || pc.AtAdmit? || pc.AtKeep? || pc == AtDiscard(true) || Creating(pc)
  }

  predicate DemandKnown(w: Worker) {
    Provisions(w.pc) ==> w.status == Some(Queued)
  }

  /** Only the status check sets the status, to what GitHub answered. */
  lemma CheckedStatus(cfg: Config, s: System, id: Id, act: WorkAction)
    requires WorkEnabled(s, id, act) && DemandKnown(s.At(id)) && !Leaves(act)
    ensures var w, w2 := s.At(id), WorkStep(cfg, s, id, act).At(id);
            && DemandKnown(w2)
            && w2.status == match act {
                 case CheckStatus(answer) => if w.r.terminal then Some(Completed) else answer
                 case _ => w.status
               }
  {
    hide WorkStep, Answerable, VmExists, ShouldRemove;
    WorkStepGoes(cfg, s, id, act);
  }

  /** Some check of this very callback was answered with queued. */
  ghost predicate WasQueued(acts: seq<Action>, i: nat, id: Id) {
    exists j: nat :: j < i && ActionAt(acts, j) == Work(id, CheckStatus(Some(Queued)))
  }

  ghost predicate DemandOk(s: System, acts: seq<Action>, i: nat) {
    forall id :: id in s.workers ==>
      DemandKnown(s.At(id)) && (s.At(id).status == Some(Queued) ==> WasQueued(acts, i, id))
  }

  /** A worker after a step: itself, a newcomer without a status, or the actor. */
  lemma WorkerAfter(cfg: Config, s: System, a: Action, id: Id)
    requires Enabled(cfg, s, a) && id in Step(cfg, s, a).workers && (id in s.workers ==> DemandKnown(s.At(id)))
    ensures var w2 := Step(cfg, s, a).At(id);
            && DemandKnown(w2)
            && (w2.status == Some(Queued) ==>
                  (id in s.workers && s.At(id).status == Some(Queued)) || a == Work(id, CheckStatus(Some(Queued))))
  {
    hide Step, Enabled, WorkStep, WorkEnabled;
    StepWorkers(cfg, s, a);
    if ActsFor(a, id) {
      CheckedStatus(cfg, s, id, a.act);
    } else if IsNew(s, Step(cfg, s, a), id) {
      NewcomerKnowsNothing(cfg, s, Step(cfg, s, a), a, id);
    }
  }

  lemma NewcomerKnowsNothing(cfg: Config, s: System, s2: System, a: Action, id: Id)
    requires Joins(cfg, s, s2, a) && IsNew(s, s2, id)
    ensures s2.At(id).status == None && DemandKnown(s2.At(id))
  {
    hide Update;
  }

  lemma {:induction false} RunKeepsDemand(cfg: Config, run: seq<System>, acts: seq<Action>, i: nat)
    requires IsRun(cfg, run, acts) && i < |run|
    ensures DemandOk(StateAt(run, i), acts, i)
  {
    hide Enabled, Step, DemandKnown;
    if i > 0 {
      RunKeepsDemand(cfg, run, acts, i - 1);
      forall id | id in StateAt(run, i).workers
        ensures DemandKnown(StateAt(run, i).At(id))
        ensures StateAt(run, i).At(id).status == Some(Queued) ==> WasQueued(acts, i, id)
      {
        WorkerAfter(cfg, StateAt(run, i - 1), ActionAt(acts, i - 1), id);
      }
    }
  }

  /** In any run, a callback adopts, reserves, asks for a credential, saves an
      attempt or submits an insert only after its own status check was answered with
      queued. */
  lemma NoVmWithoutDemand(cfg: Config, run: seq<System>, acts: seq<Action>, i: nat, id: Id, act: WorkAction)
    requires IsRun(cfg, run, acts) && i < |acts| && ActionAt(acts, i) == Work(id, act)
    requires act.TryAdopt? || act.Admit? || act.IssueJit? || act.SaveNext? || act.Send?
    ensures WasQueued(acts, i, id)
  {
    hide Step, Answerable, WasQueued;
    RunKeepsDemand(cfg, run, acts, i);
    assert Enabled(cfg, StateAt(run, i), Work(id, act));
  }
}
