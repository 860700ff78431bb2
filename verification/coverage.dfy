/** Capacity safety: in a patient run every VM, and every insert that may still become
    one, has a ledger row. */
module Coverage {
  import opened Types
  import opened Records
  import opened Transactions
  import opened CreationPlans
  import opened Callbacks
  import opened Ledger
  import opened Protocol
  import opened Transitions
  import opened Standing
  import opened Invariant
  import opened WorkerSteps
  import opened CloudSteps
  import opened Safety

  /** A request that may still turn into a VM; one without a name never does. */
  predicate Live(c: Cloud, q: Request, now: Time) {
    q in c.requests && q.name != NONE && (c.requests[q].Running? || (c.requests[q].Sent? && now <= c.requests[q].until))
  }

  ghost predicate NoLive(c: Cloud, name: Id, now: Time) {
    forall q :: q in c.requests && q.name == name ==> !Live(c, q, now)
  }

  /** No VM of this name exists and none can appear. */
  ghost predicate Gone(c: Cloud, name: Id, now: Time) {
    NoLive(c, name, now) && !VmExists(c, name)
  }

  /** What a worker about to release, by the stored claim or after a second look,
      has made sure of. */
  ghost predicate Sure(s: System, w: Worker) {
    InLease(s, w) ==>
      && (w.pc.AtRelease? ==> Gone(s.cloud, w.r.gen.vm, s.now))
      && (w.pc == AtRecheck(false) ==> NoLive(s.cloud, w.r.gen.vm, s.now))
  }

  ghost predicate Covered(s: System) {
    && (forall q :: q in s.cloud.requests && Live(s.cloud, q, s.now) ==> q.name in s.t.runners)
    && (forall i :: i in s.cloud.vms ==> i.name in s.t.runners)
    && (forall id :: id in s.workers ==> Sure(s, s.At(id)))
  }

  // ----- the age rule

  /** The age rule is sound when the margin of the last submission is over. */
  ghost predicate MarginOver(c: Cloud, g: Generation, now: Time) {
    var q := RequestOf(g);
    q in c.requests && c.requests[q].Sent? ==> c.requests[q].until < now
  }

  ghost predicate ByAge(cfg: Config, g: Generation, op: Operation, now: Time) {
    op.Missing? && g.operation == NONE && AttemptDone(cfg, g, op, now)
  }

  /** resolveAttempt gives up by age on an insert that Compute does not list.  What
      its guard in the source lacks: the propagation margin of the last submission
      must be over. */
  ghost predicate Patient(cfg: Config, s: System, a: Action) {
    match a
    case Work(id, Resolve(op)) => ByAge(cfg, s.At(id).r.gen, op, s.now) ==> MarginOver(s.cloud, s.At(id).r.gen, s.now)
    case _ => true
  }

  // ----- what is gone

  /** A VM that has appeared and is not there any more never comes back. */
  lemma AppearedOnce(s: System, name: Id)
    requires FleetOk(s.cloud) && name in s.cloud.appeared
    ensures NoLive(s.cloud, name, s.now)
  {
    hide UniqueOpen;
  }

  lemma UntouchedIsGone(s: System, name: Id)
    requires FleetOk(s.cloud) && Untouched(s.cloud, name)
    ensures Gone(s.cloud, name, s.now)
  {
    hide UniqueOpen;
  }

  /** What has no row has nothing live. */
  lemma UncoveredIsQuiet(s: System, name: Id)
    requires Covered(s) && name !in s.t.runners
    ensures NoLive(s.cloud, name, s.now)
  {
    hide Sure;
  }

  // ----- rows that are dropped

  /** The calls that drop a row: the sweep's release, and an update that gives a claim up. */
  predicate Drops(t: Tables, c: Call, n: Id) {
    match c
    case CallUpdate(key, _, change) =>
      && Load(t, key).gen.vm == n
      && (change.ReleaseClaim? || change == DeleteDone(n) || Releases(change, Load(t, key)))
    case CallRelease(name) => name == n
    case _ => false
  }

  lemma UpdateDrops(cfg: Config, t: Tables, now: Time, key: Id, capacity: bool, c: Change, n: Id)
    requires BooksOk(cfg, t) && now > NEVER && Admissible(cfg, t, key, c)
    requires Update(t, cfg, now, key, capacity, c).Committed?
    requires n in t.runners && n !in Update(t, cfg, now, key, capacity, c).t.runners
    ensures Drops(t, CallUpdate(key, capacity, c), n)
  {
    hide Update, BooksOk, Apply, Releases, Filed;
    RowsAfterUpdate(cfg, t, now, key, capacity, c, n);
    KeysAreReal(cfg, t);
    OwnershipIsBijective(cfg, t, key, n);
    if NeedsFence(c) {
      ClaimAfter(cfg, t, now, key, capacity, c);
    } else {
      Stored(cfg, t, now, key, capacity, c);
      UnfencedClaim(c, cfg, now, Load(t, key), Counts(t, capacity));
    }
  }

  lemma CallDrops(cfg: Config, t: Tables, now: Time, c: Call, n: Id)
    requires BooksOk(cfg, t) && now > NEVER && Lawful(cfg, t, now, c)
    requires n in t.runners && n !in Perform(cfg, t, now, c).runners
    ensures Drops(t, c, n)
  {
    hide Update, Detach, Adopt, RememberRunnerId, BooksOk, Admissible, RecordOk;
    match c {
      case CallUpdate(key, capacity, change) =>
        if Update(t, cfg, now, key, capacity, change).Committed? { UpdateDrops(cfg, t, now, key, capacity, change, n); }
      case CallDetach(key, token, spare, due) =>
        if Detach(t, now, key, token, spare, due).Committed? { Detached(cfg, t, now, key, token, spare, due); }
      case CallAdopt(key, token, names) =>
        if Adopt(t, now, key, token, names).Committed? { Adopted(cfg, t, now, key, token, names); }
      case CallRemember(name, id) => if RememberRunnerId(t, name, id).Committed? { Remembered(cfg, t, name, id); }
      case _ =>
    }
  }

  /** Only a worker that made sure releases its claim. */
  lemma ReleasedIsGone(cfg: Config, s: System, id: Id, act: WorkAction, capacity: bool)
    requires Inv(cfg, s) && Covered(s) && WorkEnabled(s, id, act)
    requires WorkCall(cfg, s, id, act) == CallUpdate(s.At(id).key, capacity, ReleaseClaim(id))
    requires Update(s.t, cfg, s.now, s.At(id).key, capacity, ReleaseClaim(id)).Committed?
    ensures var n := Load(s.t, s.At(id).key).gen.vm; n != NONE ==> Gone(s.cloud, n, s.now)
  {
    hide Inv, FleetOk, Gone, NoLive, Update, WorkEnabled, WorkCall, Untouched, Over, AllStand, RowsFit, NamesDrawn,
      MemoryOk;
    Releaser(cfg, s, id, act, capacity);
    WriterKnows(cfg, s, id, capacity, ReleaseClaim(id));
    LeadsOn(cfg, s, id, capacity, ReleaseClaim(id));
    if s.At(id).pc.AtDiscard? && Load(s.t, s.At(id).key).gen.vm != NONE {
      InvParts(cfg, s);
      UntouchedIsGone(s, Load(s.t, s.At(id).key).gen.vm);
    }
  }

  lemma Releaser(cfg: Config, s: System, id: Id, act: WorkAction, capacity: bool)
    requires WorkEnabled(s, id, act)
    requires WorkCall(cfg, s, id, act) == CallUpdate(s.At(id).key, capacity, ReleaseClaim(id))
    ensures id in s.workers && (s.At(id).pc.AtRelease? || s.At(id).pc.AtDiscard?)
  {
    hide Answerable;
  }

  lemma GoneForgood(cfg: Config, s: System, name: Id)
    requires Inv(cfg, s) && name in s.gone
    ensures Gone(s.cloud, name, s.now)
  {
    hide AllStand, RowsFit, NamesDrawn, FleetOk, WorkerFits, NoLive;
    AppearedOnce(s, name);
  }

  /** finishTask releases what was never submitted. */
  lemma FinishedIsGone(cfg: Config, s: System, key: Id)
    requires Inv(cfg, s) && Load(s.t, key).gen.zone == NONE && Load(s.t, key).gen.vm != NONE
    ensures Gone(s.cloud, Load(s.t, key).gen.vm, s.now)
  {
    hide Inv, Gone, Untouched, RowFits, FleetOk, RowsFit, NamesDrawn, AllStand;
    InvParts(cfg, s);
    BooksStand(cfg, s);
    ClaimRow(cfg, s.t, s.cloud, key);
    UnsubmittedIsGone(s, Load(s.t, key).gen);
    UntouchedIsGone(s, Load(s.t, key).gen.vm);
  }

  /** Whoever drops a row, nothing of its name is left. */
  lemma DroppedIsGone(cfg: Config, s: System, a: Action, n: Id)
    requires Inv(cfg, s) && Covered(s) && Enabled(cfg, s, a)
    requires n in s.t.runners && n !in Step(cfg, s, a).t.runners
    ensures Gone(s.cloud, n, s.now) && Drops(s.t, CallOf(cfg, s, a), n)
  {
    hide Inv, AllStand, BooksOk, Covered, Gone, Perform, Update, WorkCall, WorkEnabled, MayAnswer, ShouldRemove,
      WorkStep;
    InvParts(cfg, s);
    BooksStand(cfg, s);
    StepCalls(cfg, s, a);
    Lawfully(cfg, s, a);
    CallDrops(cfg, s.t, s.now, CallOf(cfg, s, a), n);
    KeysAreReal(cfg, s.t);
    if a.Work? { WorkerDrops(cfg, s, a.id, a.act, n); } else { OtherDrops(cfg, s, a, n); }
  }

  lemma WorkerDrops(cfg: Config, s: System, id: Id, act: WorkAction, n: Id)
    requires Inv(cfg, s) && Covered(s) && WorkEnabled(s, id, act)
    requires Drops(s.t, WorkCall(cfg, s, id, act), n) && n != NONE
    requires n in s.t.runners && n !in Perform(cfg, s.t, s.now, WorkCall(cfg, s, id, act)).runners
    ensures Gone(s.cloud, n, s.now)
  {
    hide Inv, Covered, Gone, Update, WorkCall, WorkEnabled;
    WorkCallKinds(cfg, s, id, act);
    match WorkCall(cfg, s, id, act) {
      case CallUpdate(key, capacity, c) =>
        if c.ReleaseClaim? { ReleasedIsGone(cfg, s, id, act, capacity); } else { FinishedIsGone(cfg, s, key); }
    }
  }

  lemma OtherDrops(cfg: Config, s: System, a: Action, n: Id)
    requires Inv(cfg, s) && Enabled(cfg, s, a) && !a.Work? && Drops(s.t, CallOf(cfg, s, a), n)
    ensures Gone(s.cloud, n, s.now)
  {
    hide Inv, Gone, WorkEnabled, WorkCall, MayAnswer, ShouldRemove;
    if n in s.gone { GoneForgood(cfg, s, n); }
  }

  // ----- what comes up

  /** The step changes this request for its sender. */
  predicate OwnRequest(s: System, a: Action, q: Request) {
    a.Work? && (a.act.Send? || a.act.Receive?) && q == RequestOf(s.At(a.id).r.gen)
  }

  /** A request is live because it was, or because a worker whose claim has a row is
      submitting it. */
  lemma LiveBefore(cfg: Config, s: System, a: Action, q: Request)
    requires Enabled(cfg, s, a)
    requires Live(Step(cfg, s, a).cloud, q, Step(cfg, s, a).now) && !OwnRequest(s, a, q)
    ensures Live(s.cloud, q, s.now)
  {
    hide Update, WorkStep, RememberRunnerId, RecordAssignment, MayAnswer, ShouldRemove, VmExists, Without, Answerable;
    if a.Work? {
      WorkStepFrame(cfg, s, a.id, a.act);
      if ReachesCloud(a.act) { LoudBefore(cfg, s, a.id, a.act, q); }
    }
  }

  lemma LoudBefore(cfg: Config, s: System, id: Id, act: WorkAction, q: Request)
    requires ReachesCloud(act) && !OwnRequest(s, Work(id, act), q)
    ensures var c := WorkStep(cfg, s, id, act).cloud;
            q in c.requests ==> q in s.cloud.requests && c.requests[q] == s.cloud.requests[q]
  {
  }

  lemma OwnIsWork(s: System, a: Action, q: Request)
    requires OwnRequest(s, a, q)
    ensures a.Work?
  {
  }

  lemma SenderHasRow(cfg: Config, s: System, id: Id, act: WorkAction, q: Request)
    requires Inv(cfg, s) && WorkEnabled(s, id, act) && OwnRequest(s, Work(id, act), q) && q.name != NONE
    ensures q.name in s.t.runners && WorkStep(cfg, s, id, act).t == s.t && WorkStep(cfg, s, id, act).now == s.now
    ensures id in s.workers && InLease(s, s.At(id)) && Creating(s.At(id).pc)
    ensures s.At(id).r.gen.vm == q.name && s.At(id).r.gen.zone != NONE
  {
    hide Inv, MayReply, WorkStep, RowFits, AllStand, RowsFit, FleetOk, NamesDrawn, MemoryOk, WorkerStands,
      AllSubmittable;
    LoudFrame(cfg, s, id, act);
    Underway(cfg, s, id);
    InvParts(cfg, s);
    BooksStand(cfg, s);
    ClaimRow(cfg, s.t, s.cloud, s.At(id).key);
  }

  /** A VM is there because it was, or because its live insert succeeded. */
  lemma VmBefore(cfg: Config, s: System, a: Action, i: Instance)
    requires Inv(cfg, s) && Enabled(cfg, s, a) && i in Step(cfg, s, a).cloud.vms
    ensures i in s.cloud.vms || !NoLive(s.cloud, i.name, s.now)
  {
    hide AllStand, RowsFit, FleetOk, MemoryOk, WorkerFits, Update, WorkStep, RememberRunnerId, RecordAssignment,
      MayAnswer, ShouldRemove, Answerable;
    if a.Work? {
      WorkStepFrame(cfg, s, a.id, a.act);
      if ReachesCloud(a.act) { LoudFrame(cfg, s, a.id, a.act); }
    }
    if a.CloudSucceed? { assert i in s.cloud.vms || Live(s.cloud, a.q, s.now); }
  }

  // ----- workers that made sure

  lemma StaysSure(cfg: Config, s: System, a: Action, id: Id)
    requires Inv(cfg, s) && Covered(s) && Enabled(cfg, s, a) && id in s.workers && !ActsFor(a, id)
    ensures Sure(Step(cfg, s, a), s.At(id))
  {
    hide Inv, Step, Enabled, OwnRequest, Live;
    var s2 := Step(cfg, s, a);
    var w := s.At(id);
    StepFrame(cfg, s, a);
    assert Sure(s, w);
    if InLease(s2, w) && (w.pc.AtRelease? || w.pc == AtRecheck(false)) {
      forall q | q in s2.cloud.requests && q.name == w.r.gen.vm ensures !Live(s2.cloud, q, s2.now) {
        if Live(s2.cloud, q, s2.now) { LiveElsewhere(cfg, s, a, id, q); }
      }
      forall i | i in s2.cloud.vms && w.pc.AtRelease? ensures i.name != w.r.gen.vm {
        VmBefore(cfg, s, a, i);
      }
    }
  }

  /** Nothing of a name a worker is sure of comes up. */
  lemma LiveElsewhere(cfg: Config, s: System, a: Action, id: Id, q: Request)
    requires Inv(cfg, s) && Enabled(cfg, s, a) && id in s.workers && !ActsFor(a, id)
    requires InLease(s, s.At(id)) && !s.At(id).pc.AtReread? && NoLive(s.cloud, s.At(id).r.gen.vm, s.now)
    requires q.name == s.At(id).r.gen.vm
    ensures !Live(Step(cfg, s, a).cloud, q, Step(cfg, s, a).now)
  {
    hide Inv, Step, OwnRequest, WorkEnabled, WorkStep;
    if Live(Step(cfg, s, a).cloud, q, Step(cfg, s, a).now) {
      if OwnRequest(s, a, q) {
        OwnIsWork(s, a, q);
        SenderHasRow(cfg, s, a.id, a.act, q);
        OneWorkerPerName(cfg, s, a.id, id);
      } else {
        LiveBefore(cfg, s, a, q);
      }
    }
  }

  /** Where a worker gets to the points where it has to be sure. */
  lemma SurePoints(cfg: Config, s: System, id: Id, act: WorkAction)
    requires !Leaves(act)
    ensures var pc := WorkStep(cfg, s, id, act).At(id).pc;
            && (pc.AtRelease? ==> act.Inspect? || act.DeleteOwn? || act.Recheck?)
            && (pc.AtRecheck? ==> act.Resolve?)
  {
    hide WorkStep, VmExists, ShouldRemove;
    WorkStepGoes(cfg, s, id, act);
  }

  lemma InspectMakesSure(cfg: Config, s: System, id: Id, stopped: bool)
    requires Inv(cfg, s) && Covered(s) && id in s.workers && s.At(id).pc.AtInspect?
    ensures var s2 := Goto(s, id, AfterLookup(s.At(id), VmExists(s.cloud, s.At(id).r.gen.vm), stopped));
            Sure(s2, s2.At(id))
  {
    hide Inv, Covered, NoLive, FleetOk, Trying, Continues;
    var pc := AfterLookup(s.At(id), VmExists(s.cloud, s.At(id).r.gen.vm), stopped);
    GotoGoes(s, id, pc);
    KnowsHere(cfg, s, id);
    hide Goto;
    if InLease(s, s.At(id)) && pc.AtRelease? {
      ClaimBehind(cfg, s, id);
      InvParts(cfg, s);
      if s.At(id).r.gen.vm in s.cloud.appeared { AppearedOnce(s, s.At(id).r.gen.vm); }
      if s.At(id).r.gen.vm !in s.t.runners { UncoveredIsQuiet(s, s.At(id).r.gen.vm); }
    }
  }

  lemma DeleteMakesSure(cfg: Config, s: System, id: Id, resume: bool)
    requires Inv(cfg, s) && id in s.workers && s.At(id).pc.AtDelete?
    ensures var s2 := DeleteStep(s, id, resume); Sure(s2, s2.At(id))
  {
    hide Inv, AllStand, RowsFit, NamesDrawn, MemoryOk, FleetOk;
    KnowsHere(cfg, s, id);
    InvParts(cfg, s);
    if InLease(s, s.At(id)) { AppearedOnce(s, s.At(id).r.gen.vm); }
  }

  lemma RecheckMakesSure(cfg: Config, s: System, id: Id, stockout: bool)
    requires Covered(s) && id in s.workers && s.At(id).pc == AtRecheck(stockout)
    ensures var s2 := RecheckStep(s, id, stockout); Sure(s2, s2.At(id))
  {
    hide NoLive;
    assert Sure(s, s.At(id));
  }

  /** A settled lookup leaves nothing of the generation pending. */
  lemma ResolveMakesSure(cfg: Config, s: System, id: Id, op: Operation)
    requires Inv(cfg, s) && Covered(s) && id in s.workers && s.At(id).pc.AtResolve?
    requires MayLookUp(s.cloud, s.At(id).r.gen, op) && Patient(cfg, s, Work(id, Resolve(op)))
    ensures var s2 := ResolveStep(cfg, s, id, op); Sure(s2, s2.At(id))
  {
    hide Inv, Covered, FleetOk, AllStand, RowsFit, NamesDrawn, MemoryOk;
    var g := s.At(id).r.gen;
    if InLease(s, s.At(id)) {
      ClaimBehind(cfg, s, id);
      KnowsHere(cfg, s, id);
      InvParts(cfg, s);
      DoneIsHere(s, RequestOf(g));
      if g.vm in s.cloud.appeared { AppearedOnce(s, g.vm); }
      if g.vm !in s.t.runners { UncoveredIsQuiet(s, g.vm); }
    }
  }

  lemma DoneIsHere(s: System, q: Request)
    requires FleetOk(s.cloud)
    ensures Done(s.cloud, q) ==> q.name in s.cloud.appeared
  {
  }

  lemma MakesSure(cfg: Config, s: System, id: Id, act: WorkAction)
    requires Inv(cfg, s) && Covered(s) && WorkEnabled(s, id, act) && Patient(cfg, s, Work(id, act)) && !Leaves(act)
    ensures Sure(WorkStep(cfg, s, id, act), WorkStep(cfg, s, id, act).At(id))
  {
    hide Inv, Covered, Gone, NoLive, AfterLookup, VmExists, MayLookUp, MayReply, MayEndWait, MayAnswer,
      IsCandidateList, Patient, DeleteStep, RecheckStep, ResolveStep;
    match act {
      case Inspect(stopped) => InspectMakesSure(cfg, s, id, stopped);
      case DeleteOwn => DeleteMakesSure(cfg, s, id, s.At(id).pc == AtDelete(true));
      case Recheck => RecheckMakesSure(cfg, s, id, s.At(id).pc == AtRecheck(true));
      case Resolve(op) => ResolveMakesSure(cfg, s, id, op);
      case _ =>
        hide WorkStep;
        SurePoints(cfg, s, id, act);
    }
  }

  // ----- steps and runs

  lemma StepCovers(cfg: Config, s: System, a: Action)
    requires Inv(cfg, s) && Covered(s) && Enabled(cfg, s, a) && Patient(cfg, s, a)
    ensures Covered(Step(cfg, s, a))
  {
    hide Inv, Step, WorkStep, Answerable, Live, Sure, OwnRequest, Patient, Drops;
    var s2 := Step(cfg, s, a);
    forall q | q in s2.cloud.requests && Live(s2.cloud, q, s2.now) ensures q.name in s2.t.runners {
      LiveHasRow(cfg, s, a, q);
    }
    forall i | i in s2.cloud.vms ensures i.name in s2.t.runners {
      VmHasRow(cfg, s, a, i);
    }
    StepWorkers(cfg, s, a);
    forall id | id in s2.workers ensures Sure(s2, s2.At(id)) {
      if ActsFor(a, id) {
        MakesSure(cfg, s, id, a.act);
      } else if id in s.workers && s2.At(id) == s.At(id) {
        StaysSure(cfg, s, a, id);
      } else {
        NewcomerIsSure(cfg, s, s2, a, id);
      }
    }
  }

  lemma NewcomerIsSure(cfg: Config, s: System, s2: System, a: Action, id: Id)
    requires Joins(cfg, s, s2, a) && IsNew(s, s2, id)
    ensures Sure(s2, s2.At(id))
  {
    hide Update;
  }

  lemma LiveHasRow(cfg: Config, s: System, a: Action, q: Request)
    requires Inv(cfg, s) && Covered(s) && Enabled(cfg, s, a) && Live(Step(cfg, s, a).cloud, q, Step(cfg, s, a).now)
    ensures q.name in Step(cfg, s, a).t.runners
  {
    hide Inv, WorkStep, WorkEnabled, OwnRequest, Sure, Drops;
    if OwnRequest(s, a, q) {
      OwnIsWork(s, a, q);
      SenderHasRow(cfg, s, a.id, a.act, q);
    } else {
      LiveBefore(cfg, s, a, q);
      if q.name !in Step(cfg, s, a).t.runners { DroppedIsGone(cfg, s, a, q.name); }
    }
  }

  lemma VmHasRow(cfg: Config, s: System, a: Action, i: Instance)
    requires Inv(cfg, s) && Covered(s) && Enabled(cfg, s, a) && i in Step(cfg, s, a).cloud.vms
    ensures i.name in Step(cfg, s, a).t.runners
  {
    hide Inv, Step, Enabled, Sure, Live, Drops;
    VmBefore(cfg, s, a, i);
    if i.name in s.t.runners && i.name !in Step(cfg, s, a).t.runners { DroppedIsGone(cfg, s, a, i.name); }
  }

  ghost predicate IsPatientRun(cfg: Config, run: seq<System>, acts: seq<Action>) {
    IsRun(cfg, run, acts) && forall i :: 0 <= i < |acts| ==> Patient(cfg, StateAt(run, i), ActionAt(acts, i))
  }

  lemma {:induction false} RunCovers(cfg: Config, run: seq<System>, acts: seq<Action>, i: nat)
    requires IsPatientRun(cfg, run, acts) && i < |run|
    ensures Covered(StateAt(run, i)) && Inv(cfg, StateAt(run, i))
  {
    hide Inv, Enabled, Step, Patient;
    RunKeeps(cfg, run, acts, i);
    if i > 0 {
      hide Covered;
      RunCovers(cfg, run, acts, i - 1);
      StepCovers(cfg, StateAt(run, i - 1), ActionAt(acts, i - 1));
    }
  }

  /** The headline: every VM and every insert that may still become one has a
      ledger row, and the VMs of one generation are one. */
  ghost predicate NothingUncounted(s: System) {
    && (forall i :: i in s.cloud.vms ==> i.name in s.t.runners)
    && (forall q :: q in s.cloud.requests && Live(s.cloud, q, s.now) ==> q.name in s.t.runners)
    && (forall i, j :: i in s.cloud.vms && j in s.cloud.vms && i.name == j.name ==> i == j)
  }

  lemma CoveredCounts(cfg: Config, s: System)
    requires Inv(cfg, s) && Covered(s)
    ensures NothingUncounted(s)
    ensures |s.cloud.vms| <= s.t.fleet.runners <= cfg.maxRunners
  {
    hide RowsFit, NamesDrawn, MemoryOk, WorkerFits, UniqueOpen, WorkerStands, Sure, DeletingOk;
    var names := set i | i in s.cloud.vms :: i.name;
    NamesCount(s.cloud.vms);
    assert names <= s.t.runners.Keys;
    SubsetSize(names, s.t.runners.Keys);
  }

  /** VMs with pairwise different names are no more than their names. */
  lemma {:induction false} NamesCount(vms: set<Instance>)
    requires forall i, j :: i in vms && j in vms && i.name == j.name ==> i == j
    ensures |vms| == |set i | i in vms :: i.name|
  {
    if vms == {} {
      assert (set i | i in vms :: i.name) == {};
    } else {
      var v :| v in vms;
      var rest := vms - {v};
      NamesCount(rest);
      assert (set i | i in vms :: i.name) == (set i | i in rest :: i.name) + {v.name};
      assert v.name !in (set i | i in rest :: i.name);
    }
  }

  /** Capacity safety: over every interleaving and crash of a patient run, every VM
      and every insert that may still become one has a ledger row, a generation
      lives in at most one zone, and the VMs never exceed the counter, nor the
      counter the configured fleet. */
  lemma NoVmIsUncounted(cfg: Config, run: seq<System>, acts: seq<Action>, i: nat)
    requires IsPatientRun(cfg, run, acts) && i < |run|
    ensures var s := StateAt(run, i);
            NothingUncounted(s) && |s.cloud.vms| <= s.t.fleet.runners <= cfg.maxRunners
  {
    hide Inv, Covered, IsPatientRun;
    RunCovers(cfg, run, acts, i);
    CoveredCounts(cfg, StateAt(run, i));
  }
}
