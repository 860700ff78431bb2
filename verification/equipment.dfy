/** Where finishTask asks first, a saved attempt always has its JIT credential. */
module Equipment {
  import opened Types
  import opened Records
  import opened Transactions
  import opened Callbacks
  import opened Ledger
  import opened Protocol
  import opened Transitions
  import opened Standing
  import opened Counters
  import opened Invariant
  import opened WorkerSteps
  import opened Safety

  predicate Credentialed(g: Generation) {
    g.zone != NONE ==> g.jit != NONE
  }

  ghost predicate TablesCredentialed(t: Tables) {
    && (forall k :: k in t.jobs ==> Credentialed(t.jobs[k].gen))
    && (forall n :: n in t.runners ==> Credentialed(t.runners[n].rec.gen))
  }

  ghost predicate AllCredentialed(s: System) {
    TablesCredentialed(s.t) && forall id :: id in s.workers ==> Credentialed(s.At(id).r.gen)
  }

  /** The callbacks that could leave a saved attempt without. */
  predicate Supplies(r: Record, c: Change) {
    (c.SaveAttempt? ==> r.gen.jit != NONE) && (c.SaveJit? ==> c.jit != NONE)
  }

  ghost predicate CallSupplies(cfg: Config, t: Tables, now: Time, c: Call) {
    match c
    case CallUpdate(key, capacity, change) =>
      Update(t, cfg, now, key, capacity, change).Committed? ==> Supplies(Load(t, key), change)
    case _ => true
  }

  lemma ChangeKeepsCredential(c: Change, cfg: Config, now: Time, r: Record, f: Fleet)
    requires Credentialed(r.gen) && Supplies(r, c)
    ensures var o := Apply(c, cfg, now, r, f); o.Accept? ==> Credentialed(o.r.gen)
  {
  }

  lemma UpdateKeepsCredentials(cfg: Config, t: Tables, now: Time, key: Id, capacity: bool, c: Change)
    requires TablesCredentialed(t) && Update(t, cfg, now, key, capacity, c).Committed? && Supplies(Load(t, key), c)
    ensures TablesCredentialed(Update(t, cfg, now, key, capacity, c).t)
  {
    hide Apply;
    ChangeKeepsCredential(c, cfg, now, Load(t, key), Counts(t, capacity));
  }

  lemma CallKeepsCredentials(cfg: Config, t: Tables, now: Time, c: Call)
    requires TablesCredentialed(t) && CallSupplies(cfg, t, now, c)
    ensures TablesCredentialed(Perform(cfg, t, now, c))
  {
    hide Update, Supplies;
    match c {
      case CallUpdate(key, capacity, change) =>
        if Update(t, cfg, now, key, capacity, change).Committed? {
          UpdateKeepsCredentials(cfg, t, now, key, capacity, change);
        }
      case _ =>
    }
  }

  lemma WorkSupplies(cfg: Config, s: System, id: Id, act: WorkAction)
    requires Inv(cfg, s) && Reckoned(cfg, s) && WorkEnabled(s, id, act)
    ensures CallSupplies(cfg, s.t, s.now, WorkCall(cfg, s, id, act))
  {
    hide Inv, WorkCall, Update, Tallied, Answerable;
    WorkCallKinds(cfg, s, id, act);
    IssuedIsReal(cfg, s, id, act);
    match WorkCall(cfg, s, id, act) {
      case CallUpdate(key, capacity, c) =>
        if c.SaveAttempt? && Update(s.t, cfg, s.now, key, capacity, c).Committed? {
          LeadsOn(cfg, s, id, capacity, c);
          ClaimAfter(cfg, s.t, s.now, key, capacity, c);
          assert Relies(s, s.At(id));
        }
      case _ =>
    }
  }

  lemma IssuedIsReal(cfg: Config, s: System, id: Id, act: WorkAction)
    requires WorkEnabled(s, id, act)
    ensures match WorkCall(cfg, s, id, act) {
              case CallUpdate(_, _, c) => c.SaveJit? ==> c.jit != NONE
              case _ => true
            }
  {
    hide MayAnswer, MayLookUp, MayReply, MayEndWait, IsCandidateList;
  }

  lemma StepCredentialed(cfg: Config, s: System, a: Action)
    requires Inv(cfg, s) && Reckoned(cfg, s) && Enabled(cfg, s, a) && AllCredentialed(s)
    ensures AllCredentialed(Step(cfg, s, a))
  {
    hide Inv, Reckoned, Step, Perform, TablesCredentialed, CallSupplies, WorkCall, WorkEnabled, WorkStep, AllStand,
      FleetOk, RowsFit, NamesDrawn, MemoryOk;
    InvParts(cfg, s);
    StepCalls(cfg, s, a);
    StepWorkers(cfg, s, a);
    if a.Work? { WorkSupplies(cfg, s, a.id, a.act); } else { OtherSupplies(cfg, s, a); }
    CallKeepsCredentials(cfg, s.t, s.now, CallOf(cfg, s, a));
    forall key ensures Credentialed(Load(Step(cfg, s, a).t, key).gen) {
      LoadedCredential(Step(cfg, s, a).t, key);
    }
  }

  lemma OtherSupplies(cfg: Config, s: System, a: Action)
    requires AllStand(cfg, s) && Enabled(cfg, s, a) && !a.Work?
    ensures CallSupplies(cfg, s.t, s.now, CallOf(cfg, s, a))
  {
    hide Enabled, CallOf, BooksOk, Update, WorkerStands;
    OtherCallKinds(cfg, s, a);
  }

  lemma LoadedCredential(t: Tables, key: Id)
    requires TablesCredentialed(t)
    ensures Credentialed(Load(t, key).gen)
  {
  }

  lemma {:induction false} RunCredentialed(cfg: Config, run: seq<System>, acts: seq<Action>, i: nat)
    requires IsCheckedRun(cfg, run, acts) && i < |run|
    ensures AllCredentialed(StateAt(run, i))
  {
    hide Inv, Reckoned, AllStand, Step, Enabled, Checked;
    if i > 0 {
      hide AllCredentialed;
      RunCredentialed(cfg, run, acts, i - 1);
      RunKeeps(cfg, run, acts, i - 1);
      RunReckons(cfg, run, acts, i - 1);
      StepCredentialed(cfg, StateAt(run, i - 1), ActionAt(acts, i - 1));
    }
  }

  predicate Equipped(g: Generation) {
    g.zone != NONE ==> g.template != NONE && g.model != NoModel && g.jit != NONE
  }

  /** Every job's claim, every row and every snapshot. */
  ghost predicate EverythingEquipped(s: System) {
    && (forall k :: k in s.t.jobs ==> Equipped(s.t.jobs[k].gen))
    && (forall n :: n in s.t.runners ==> Equipped(s.t.runners[n].rec.gen))
    && (forall id :: id in s.workers ==> Equipped(s.At(id).r.gen))
  }

  /** In every checked run a saved attempt has its template, its model and its JIT
      credential, in every record, row and snapshot. */
  lemma RunEquipped(cfg: Config, run: seq<System>, acts: seq<Action>, i: nat)
    requires IsCheckedRun(cfg, run, acts) && i < |run|
    ensures EverythingEquipped(StateAt(run, i))
  {
    hide AllStand, FleetOk, NamesDrawn, MemoryOk, Knows, Faithful, IsRun, Checked, RowFits;
    RunCredentialed(cfg, run, acts, i);
    RunKeeps(cfg, run, acts, i);
  }
}
