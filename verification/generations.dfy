/** A generation is reserved once, becomes a VM at most once, and never returns. */
module Generations {
  import opened Types
  import opened Transactions
  import opened Protocol
  import opened Transitions
  import opened Standing
  import opened Invariant
  import opened CloudSteps
  import opened Safety
  import opened Coverage
  import opened Tokens

  /** A name that has been drawn and has no row never gets one. */
  lemma {:induction false} DrawnNameStaysOut(cfg: Config, run: seq<System>, acts: seq<Action>, i: nat, j: nat, n: Id)
    requires IsRun(cfg, run, acts) && i <= j < |run|
    requires n in StateAt(run, i).nonces && n !in StateAt(run, i).t.runners
    ensures n !in StateAt(run, j).t.runners
  {
    hide AllStand, Enabled, Step;
    if i < j {
      DrawnNameStaysOut(cfg, run, acts, i, j - 1, n);
      RunGrows(cfg, run, acts, i, j - 1);
      RunStands(cfg, run, acts, j - 1);
      if n in StateAt(run, j).t.runners { NewNames(cfg, StateAt(run, j - 1), ActionAt(acts, j - 1), n); }
    }
  }

  /** Releasing is final: once a reservation has ended, no insert submitted for it,
      however late, is accepted or becomes a VM, and its name is never reserved
      again, for the rest of the run. */
  lemma ReleasedForGood(cfg: Config, run: seq<System>, acts: seq<Action>, i: nat, j: nat, m: nat, n: Id)
    requires IsPatientRun(cfg, run, acts) && i < j <= m < |run|
    requires n in StateAt(run, i).t.runners && n !in StateAt(run, j).t.runners
    ensures var s := StateAt(run, m); n !in s.t.runners && Gone(s.cloud, n, s.now)
  {
    hide AllStand, Enabled, Step, Patient;
    RunStands(cfg, run, acts, i);
    NamedRow(cfg, StateAt(run, i), n);
    RunGrows(cfg, run, acts, i, j);
    DrawnNameStaysOut(cfg, run, acts, j, m, n);
    NoVmIsUncounted(cfg, run, acts, m);
  }

  lemma NamedRow(cfg: Config, s: System, n: Id)
    requires AllStand(cfg, s) && n in s.t.runners
    ensures n in s.nonces
  {
  }

  lemma StepOnAppeared(cfg: Config, s: System, a: Action)
    requires Enabled(cfg, s, a)
    ensures s.cloud.appeared <= Step(cfg, s, a).cloud.appeared
  {
    hide WorkStep, Update, Answerable, RememberRunnerId, RecordAssignment, MayAnswer, ShouldRemove;
    if a.Work? {
      WorkStepFrame(cfg, s, a.id, a.act);
      if ReachesCloud(a.act) { LoudFrame(cfg, s, a.id, a.act); }
    }
  }

  lemma {:induction false} AppearedStays(cfg: Config, run: seq<System>, acts: seq<Action>, i: nat, j: nat, n: Id)
    requires IsRun(cfg, run, acts) && i <= j < |run| && n in StateAt(run, i).cloud.appeared
    ensures n in StateAt(run, j).cloud.appeared
  {
    hide Enabled, Step;
    if i < j {
      AppearedStays(cfg, run, acts, i, j - 1, n);
      StepOnAppeared(cfg, StateAt(run, j - 1), ActionAt(acts, j - 1));
    }
  }

  /** What comes up has not been up before. */
  lemma ComesUpFresh(cfg: Config, s: System, q: Request)
    requires Inv(cfg, s) && Enabled(cfg, s, CloudSucceed(q))
    ensures q.name !in s.cloud.appeared && q.name in Step(cfg, s, CloudSucceed(q)).cloud.appeared
  {
    hide AllStand, RowsFit, MemoryOk, WorkerFits, WorkEnabled, MayAnswer, ShouldRemove, FleetOk;
    ProgressFleet(s.cloud, q, Succeeded);
  }

  /** An uncertain insert never yields a second VM: over a whole run, whatever it is,
      with every retry, takeover and crash, a generation comes up at most once. */
  lemma GenerationAppearsOnce(cfg: Config, run: seq<System>, acts: seq<Action>, i: nat, j: nat, p: Request, q: Request)
    requires IsRun(cfg, run, acts) && i < j < |acts|
    requires ActionAt(acts, i) == CloudSucceed(p) && ActionAt(acts, j) == CloudSucceed(q)
    ensures p.name != q.name
  {
    hide Inv, Step, Enabled;
    RunKeeps(cfg, run, acts, i);
    RunKeeps(cfg, run, acts, j);
    ComesUpFresh(cfg, StateAt(run, i), p);
    ComesUpFresh(cfg, StateAt(run, j), q);
    if p.name == q.name { AppearedStays(cfg, run, acts, i + 1, j, p.name); }
  }

  /** And in no state of any run are there two VMs of one generation, be it in two zones. */
  lemma OneZonePerGeneration(cfg: Config, run: seq<System>, acts: seq<Action>, i: nat, vm: Instance, vm2: Instance)
    requires IsRun(cfg, run, acts) && i < |run|
    requires vm in StateAt(run, i).cloud.vms && vm2 in StateAt(run, i).cloud.vms && vm.name == vm2.name
    ensures vm == vm2
  {
    hide Inv, Enabled, Step;
    RunKeeps(cfg, run, acts, i);
    OneZone(cfg, StateAt(run, i), vm, vm2);
  }
}
