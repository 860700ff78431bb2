/** The second counter: what finishTask must ask before it gives a reservation back. */
module Counters {
  import opened Types
  import opened Records
  import opened Transactions
  import opened Callbacks
  import opened Ledger
  import opened Protocol
  import opened Transitions
  import opened Standing

  /** What finishTask could ask of the record its own transaction holds: no other
      callback's lease on the job is running, or the job is over.  To tell its own lease
      from another's it needs the lease token, which processJob draws and keeps to
      itself: the token has to be handed on. */
  predicate SafeToRelease(r: Record, id: Id, now: Time) {
    !LeaseLive(r, now) || r.lease.holder == id || r.terminal
  }

  /** finishTask gives an unsubmitted reservation back only after asking. */
  predicate Checked(cfg: Config, s: System, a: Action) {
    match a
    case Work(id, FinishTask) =>
      var r := Load(s.t, s.At(id).key);
      Releases(Finish(s.At(id).dispatch, ErrorAt(s.At(id).pc)), r) ==> SafeToRelease(r, id, s.now)
    case _ => true
  }

  /** While its lease runs, the claim of an open job is the worker's snapshot; a worker
      that creates has a reservation, and so has one that submits, open job or not. */
  ghost predicate Relies(s: System, w: Worker) {
    var r := Load(s.t, w.key);
    InLease(s, w) && !w.pc.AtReread? ==>
      && (r.terminal || r.gen == w.r.gen)
      && (Creating(w.pc) ==> w.r.gen.vm != NONE || (r.terminal && !w.pc.AtSend?))
  }

  ghost predicate Reckoned(cfg: Config, s: System) {
    Tallied(cfg, s.t) && forall id :: id in s.workers ==> Relies(s, s.At(id))
  }

  // ----- the counter

  /** The one callback that could count a standard attempt for nobody. */
  ghost predicate Attributable(cfg: Config, t: Tables, now: Time, c: Call) {
    match c
    case CallUpdate(key, capacity, SaveAttempt(token, a)) =>
      Update(t, cfg, now, key, capacity, SaveAttempt(token, a)).Committed? ==>
        Load(t, key).gen.vm != NONE || Load(t, key).terminal
    case _ => true
  }

  lemma CallKeepsTally(cfg: Config, t: Tables, now: Time, c: Call)
    requires BooksOk(cfg, t) && Tallied(cfg, t) && now > NEVER
    requires Lawful(cfg, t, now, c) && Attributable(cfg, t, now, c)
    ensures Tallied(cfg, Perform(cfg, t, now, c))
  {
    hide BooksOk, Update, Detach, Adopt, DeferRunner, ReleaseRunner, RememberRunnerId, RecordAssignment, Admissible,
      StandardNames, NoStray;
    match c {
      case NoCall =>
      case CallUpdate(key, capacity, change) =>
        if Update(t, cfg, now, key, capacity, change).Committed? {
          UpdateKeepsTally(cfg, t, now, key, capacity, change);
        }
      case CallDetach(key, token, spare, due) =>
        if Detach(t, now, key, token, spare, due).Committed? { DetachKeepsBooks(cfg, t, now, key, token, spare, due); }
      case CallAdopt(key, token, names) =>
        if Adopt(t, now, key, token, names).Committed? { AdoptKeepsBooks(cfg, t, now, key, token, names); }
      case CallDefer(name, due, available) =>
        DeferKeepsBooks(cfg, t, name, due, available);
        SameStrays(t, DeferRunner(t, name, due, available));
      case CallRelease(name) =>
        ReleaseKeepsBooks(cfg, t, name);
        SameStrays(t, ReleaseRunner(t, name));
      case CallRemember(name, id) =>
        if RememberRunnerId(t, name, id).Committed? { RememberKeepsBooks(cfg, t, name, id); }
      case CallAssign(key, name, job) =>
        if RecordAssignment(t, now, key, name, job).Committed? {
          AssignmentKeepsBooks(cfg, t, now, key, name, job);
          SameStrays(t, RecordAssignment(t, now, key, name, job).t);
        }
    }
  }

  lemma SameStrays(t: Tables, t2: Tables)
    requires NoStray(t) && t2.jobs == t.jobs
    ensures NoStray(t2)
  {
  }

  lemma WorkAttributable(cfg: Config, s: System, id: Id, act: WorkAction)
    requires AllStand(cfg, s) && Reckoned(cfg, s) && WorkEnabled(s, id, act)
    ensures Attributable(cfg, s.t, s.now, WorkCall(cfg, s, id, act))
  {
    hide WorkCall, WorkEnabled, BooksOk, Update, DeletingOk, Tallied;
    WorkCallKinds(cfg, s, id, act);
    Stands(cfg, s, id);
    assert Relies(s, s.At(id));
    match WorkCall(cfg, s, id, act) {
      case CallUpdate(key, capacity, c) =>
        if c.SaveAttempt? && Update(s.t, cfg, s.now, key, capacity, c).Committed? {
          CommitsInLease(cfg, s, id, capacity, c);
        }
      case _ =>
    }
  }

  // ----- what others do to a claim inside its lease

  /** A claim surrendered under a running lease of another callback is that of a
      finished job. */
  lemma SurrenderedIsOver(cfg: Config, s: System, a: Action, id: Id)
    requires AllStand(cfg, s) && Enabled(cfg, s, a) && Checked(cfg, s, a)
    requires id in s.workers && InLease(s, s.At(id)) && !ActsFor(a, id)
    requires Surrenders(s.t, CallOf(cfg, s, a), s.At(id).key)
    ensures Finished(s.t, s.At(id).key)
  {
    hide WorkCall, WorkEnabled, BooksOk, MayAnswer, ShouldRemove, HolderFits, EvidenceOk, VmExists;
    Stands(cfg, s, id);
    if a.Work? { WorkCallKinds(cfg, s, a.id, a.act); } else { OtherCallKinds(cfg, s, a); }
  }

  lemma OtherRelies(cfg: Config, s: System, a: Action, id: Id)
    requires AllStand(cfg, s) && Reckoned(cfg, s) && Enabled(cfg, s, a) && Checked(cfg, s, a)
    requires id in s.workers && !ActsFor(a, id)
    ensures Relies(Step(cfg, s, a), s.At(id))
  {
    hide BooksOk, DeletingOk, Step, Enabled, Perform, CallOf, Foreign, Lawful, Tallied, Surrenders, Checked,
      HolderFits;
    var w := s.At(id);
    Stands(cfg, s, id);
    assert Relies(s, w);
    StepFrame(cfg, s, a);
    StepCalls(cfg, s, a);
    StepLawful(cfg, s, a);
    StepForeign(cfg, s, a, id);
    CallUnharmed(cfg, s.t, s.now, CallOf(cfg, s, a), w.key, id);
    if InLease(s, w) {
      if Surrenders(s.t, CallOf(cfg, s, a), w.key) { SurrenderedIsOver(cfg, s, a, id); }
      if s.t.jobs[w.key].terminal { CallKeepsFinished(cfg, s.t, s.now, CallOf(cfg, s, a), w.key); }
    }
  }

  // ----- what a worker does to its own

  lemma OwnClaim(cfg: Config, s: System, id: Id, act: WorkAction)
    requires AllStand(cfg, s) && Reckoned(cfg, s) && WorkEnabled(s, id, act) && !Leaves(act)
    ensures var s2 := WorkStep(cfg, s, id, act);
            var w2 := s2.At(id);
            InLease(s2, w2) && !w2.pc.AtReread? ==>
              && (Load(s2.t, w2.key).terminal || Load(s2.t, w2.key).gen == w2.r.gen)
              && InLease(s, s.At(id)) && (Load(s.t, w2.key).terminal ==> Load(s2.t, w2.key).terminal)
  {
    hide WorkStep, WorkEnabled, BooksOk, EvidenceOk, DeletingOk, Perform, WorkCall, Tallied, HolderFits;
    WorkerIsThere(s, id, act);
    Stands(cfg, s, id);
    assert Relies(s, s.At(id));
    StepTracks(cfg, s, id, act);
    WorkStepFrame(cfg, s, id, act);
    WorkStepCalls(cfg, s, id, act);
    if s.t.jobs[s.At(id).key].terminal {
      CallKeepsFinished(cfg, s.t, s.now, WorkCall(cfg, s, id, act), s.At(id).key);
    }
  }

  lemma CreatorWrites(cfg: Config, s: System, id: Id, act: WorkAction)
    requires Fits(act, s.At(id).pc) && Creates(act)
    ensures Creating(s.At(id).pc)
    ensures match WorkCall(cfg, s, id, act) {
              case CallUpdate(key, _, c) => key == s.At(id).key && (WritesClaim(c) || c.ForgetAttempt?)
              case c => c == NoCall
            }
  {
  }

  /** The writes between reservation and recorded creation keep the name. */
  lemma CreatingKeepsName(cfg: Config, s: System, id: Id, act: WorkAction)
    requires Fits(act, s.At(id).pc) && Creates(act)
    ensures var key := s.At(id).key;
            Load(Perform(cfg, s.t, s.now, WorkCall(cfg, s, id, act)), key).gen.vm == Load(s.t, key).gen.vm
    ensures Creating(s.At(id).pc)
  {
    hide Update, WorkCall, Fits, WritesClaim, Creates, Creating;
    CreatorWrites(cfg, s, id, act);
    match WorkCall(cfg, s, id, act) {
      case CallUpdate(key, capacity, c) =>
        if Update(s.t, cfg, s.now, key, capacity, c).Committed? { WriteKeepsName(cfg, s.t, s.now, key, capacity, c); }
      case _ =>
    }
  }

  lemma WriteKeepsName(cfg: Config, t: Tables, now: Time, key: Id, capacity: bool, c: Change)
    requires Update(t, cfg, now, key, capacity, c).Committed? && (WritesClaim(c) || c.ForgetAttempt?)
    ensures Load(Update(t, cfg, now, key, capacity, c).t, key).gen.vm == Load(t, key).gen.vm
  {
    hide Update;
    ClaimAfter(cfg, t, now, key, capacity, c);
  }

  /** Nobody comes to submit an attempt of a job that was over when it was saved. */
  lemma SavedBeforeSent(cfg: Config, s: System, id: Id, act: WorkAction)
    requires Creates(act)
    ensures WorkStep(cfg, s, id, act).At(id).pc.AtSend? ==> !Load(s.t, s.At(id).key).terminal
  {
    hide Update, Load, AttemptsFor, AttemptOf, Submitted, RequestOf, Write, Goto, ProgressOf;
    forall s2: System, pc ensures Goto(s2, id, pc).At(id).pc == pc {
      GotoGoes(s2, id, pc);
    }
    forall s1: System, capacity, c, refresh, pc
      ensures var pc2 := Write(cfg, s1, id, capacity, c, refresh, pc).At(id).pc;
              pc2.AtEnd? || (pc2 == pc && (c.SaveAttempt? ==> !Load(s1.t, s1.At(id).key).terminal))
    {
      WriteGoes(cfg, s1, id, capacity, c, refresh, pc);
      if Update(s1.t, cfg, s1.now, s1.At(id).key, capacity, c).Committed? {
        ClaimAfter(cfg, s1.t, s1.now, s1.At(id).key, capacity, c);
      }
    }
  }

  /** An admitted worker has a reservation. */
  lemma AdmittedHasName(cfg: Config, s: System, id: Id, name: Id)
    requires name != NONE
    ensures var w2 := WorkStep(cfg, s, id, Admit(name)).At(id); w2.pc.AtJit? ==> w2.r.gen.vm != NONE
  {
    hide Update;
    var w := s.At(id);
    if Update(s.t, cfg, s.now, w.key, true, Reserve(id, name)).Committed? {
      ClaimAfter(cfg, s.t, s.now, w.key, true, Reserve(id, name));
    }
  }

  /** A worker in the middle of creating keeps its reservation. */
  lemma CreatorHasName(cfg: Config, s: System, id: Id, act: WorkAction)
    requires AllStand(cfg, s) && Reckoned(cfg, s) && WorkEnabled(s, id, act) && Creates(act)
    ensures var s2 := WorkStep(cfg, s, id, act);
            var w2 := s2.At(id);
            InLease(s2, w2) && Creating(w2.pc) ==>
              w2.r.gen.vm != NONE || (Load(s2.t, w2.key).terminal && !w2.pc.AtSend?)
  {
    hide WorkStep, WorkEnabled, AllStand, Perform, WorkCall, Tallied, Fits, Answerable, Draws, ReachesCloud;
    WorkerIsThere(s, id, act);
    OwnClaim(cfg, s, id, act);
    WorkStepFrame(cfg, s, id, act);
    WorkStepCalls(cfg, s, id, act);
    assert Relies(s, s.At(id));
    CreatingKeepsName(cfg, s, id, act);
    SavedBeforeSent(cfg, s, id, act);
  }

  lemma OwnRelies(cfg: Config, s: System, id: Id, act: WorkAction)
    requires AllStand(cfg, s) && Reckoned(cfg, s) && WorkEnabled(s, id, act) && !Leaves(act)
    ensures var s2 := WorkStep(cfg, s, id, act); Relies(s2, s2.At(id))
  {
    hide WorkStep, AllStand, Reckoned, Load;
    OwnClaim(cfg, s, id, act);
    if Creates(act) {
      CreatorHasName(cfg, s, id, act);
    } else {
      CreationStarts(cfg, s, id, act);
      if act.Admit? { AdmittedHasName(cfg, s, id, act.name); }
    }
  }

  // ----- steps and runs

  lemma StepTally(cfg: Config, s: System, a: Action)
    requires AllStand(cfg, s) && Reckoned(cfg, s) && Enabled(cfg, s, a)
    ensures Tallied(cfg, Step(cfg, s, a).t)
  {
    hide BooksOk, DeletingOk, Step, Perform, Lawful, Tallied, WorkCall, WorkerStands, Update, WorkEnabled;
    StepCalls(cfg, s, a);
    StepLawful(cfg, s, a);
    if a.Work? { WorkAttributable(cfg, s, a.id, a.act); } else { OtherCallKinds(cfg, s, a); }
    CallKeepsTally(cfg, s.t, s.now, CallOf(cfg, s, a));
  }

  lemma StepReckons(cfg: Config, s: System, a: Action)
    requires AllStand(cfg, s) && Reckoned(cfg, s) && Enabled(cfg, s, a) && Checked(cfg, s, a)
    ensures Reckoned(cfg, Step(cfg, s, a))
  {
    hide AllStand, Step, Enabled, Tallied, Relies, WorkStep, WorkEnabled;
    var s2 := Step(cfg, s, a);
    StepTally(cfg, s, a);
    StepWorkers(cfg, s, a);
    forall id | id in s2.workers ensures Relies(s2, s2.At(id)) {
      if ActsFor(a, id) {
        OwnRelies(cfg, s, id, a.act);
      } else if id in s.workers && s2.At(id) == s.At(id) {
        OtherRelies(cfg, s, a, id);
      } else {
        NewcomerRelies(cfg, s, s2, a, id);
      }
    }
  }

  lemma NewcomerRelies(cfg: Config, s: System, s2: System, a: Action, id: Id)
    requires Joins(cfg, s, s2, a) && IsNew(s, s2, id)
    ensures Relies(s2, s2.At(id))
  {
    hide Update;
  }

  ghost predicate IsCheckedRun(cfg: Config, run: seq<System>, acts: seq<Action>) {
    IsRun(cfg, run, acts) && forall i :: 0 <= i < |acts| ==> Checked(cfg, StateAt(run, i), ActionAt(acts, i))
  }

  lemma {:induction false} RunReckons(cfg: Config, run: seq<System>, acts: seq<Action>, i: nat)
    requires IsCheckedRun(cfg, run, acts) && i < |run|
    ensures Reckoned(cfg, StateAt(run, i)) && AllStand(cfg, StateAt(run, i))
  {
    hide AllStand, Enabled, Step, Checked;
    RunStands(cfg, run, acts, i);
    if i == 0 {
      NothingStandard(EmptyTables().runners);
    } else {
      hide Reckoned;
      RunReckons(cfg, run, acts, i - 1);
      StepReckons(cfg, StateAt(run, i - 1), ActionAt(acts, i - 1));
    }
  }

  // ----- a fleet without on-demand capacity

  lemma SpotChange(c: Change, cfg: Config, now: Time, r: Record, f: Fleet)
    requires r.gen.model != Standard && !(c.SaveAttempt? && c.attempt.model == Standard)
    ensures var o := Apply(c, cfg, now, r, f); o.Accept? ==> o.f.standard == f.standard
  {
  }

  lemma SpotCall(cfg: Config, t: Tables, now: Time, c: Call)
    requires BooksOk(cfg, t) && !cfg.allowStandard && Lawful(cfg, t, now, c)
    ensures Perform(cfg, t, now, c).fleet.standard == t.fleet.standard
  {
    hide Apply, Mirror, Prepare;
    if c.CallUpdate? && Update(t, cfg, now, c.key, c.capacity, c.change).Committed? {
      SpotChange(c.change, cfg, now, Load(t, c.key), Counts(t, c.capacity));
    }
  }

  /** Where on-demand capacity is not allowed the second counter never moves. */
  lemma {:induction false} SpotFleetIsCounted(cfg: Config, run: seq<System>, acts: seq<Action>, i: nat)
    requires IsRun(cfg, run, acts) && !cfg.allowStandard && i < |run|
    ensures StateAt(run, i).t.fleet.standard == 0
  {
    hide AllStand, Enabled, Step, Perform, CallOf, Lawful;
    if i > 0 {
      SpotFleetIsCounted(cfg, run, acts, i - 1);
      RunStands(cfg, run, acts, i - 1);
      BooksStand(cfg, StateAt(run, i - 1));
      StepCalls(cfg, StateAt(run, i - 1), ActionAt(acts, i - 1));
      StepLawful(cfg, StateAt(run, i - 1), ActionAt(acts, i - 1));
      var s, a := StateAt(run, i - 1), ActionAt(acts, i - 1);
      SpotCall(cfg, s.t, s.now, CallOf(cfg, s, a));
    }
  }
}
