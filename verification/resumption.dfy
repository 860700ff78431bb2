/** What a create callback tries: the plan from where it stands, and nothing twice. */
module Resumption {
  import opened Types
  import opened Records
  import opened Transactions
  import opened Callbacks
  import opened CreationPlans
  import opened Ledger
  import opened Protocol
  import opened Transitions
  import opened Standing

  // ----- where the plan is taken up

  /** The point a callback goes to when it has its plan. */
  ghost function Planned(cfg: Config, s: System, id: Id, start: nat, benched: set<Id>): Pc {
    WorkStep(cfg, s, id, MakePlan(start, benched)).At(id).pc
  }

  /** A callback with an attempt saved makes that one first and goes on after it; one whose
      attempt Compute settled as a stockout goes on after that; any other starts over. */
  lemma PlanIsTakenUp(cfg: Config, s: System, id: Id, start: nat, benched: set<Id>)
    requires Distinct(cfg.zones)
    ensures var w, pc := s.At(id), Planned(cfg, s, id, start, benched);
            var plan := Plan(cfg, start, w.override, benched);
            var saved := AttemptOf(w.r.gen);
            && pc.AtAttempt?
            && (w.r.gen.zone != NONE ==>
                  && |pc.rest| > 0 && pc.rest[0] == saved
                  && (saved !in plan ==> pc.rest == [saved] + plan)
                  && (forall i :: 0 <= i < |plan| && plan[i] == saved ==> pc.rest == plan[i..]))
            && (w.r.gen.zone == NONE && w.failed.Some? ==>
                  && w.failed.value !in pc.rest
                  && (w.failed.value !in plan ==> pc.rest == plan)
                  && (forall i :: 0 <= i < |plan| && plan[i] == w.failed.value ==> pc.rest == plan[i + 1..]))
            && (w.r.gen.zone == NONE && w.failed.None? ==> pc.rest == plan)
            && Distinct(pc.rest)
  {
    hide Plan, AttemptsAfter, Distinct, AttemptOf;
    var w := s.At(id);
    var plan := Plan(cfg, start, w.override, benched);
    PlanIsDistinctAndSpotFirst(cfg, start, w.override, benched);
    if w.r.gen.zone != NONE {
      AfterAttempt(plan, AttemptOf(w.r.gen));
    } else if w.failed.Some? {
      AfterAttempt(plan, w.failed.value);
    }
  }

  /** In short: no attempt twice, and not the one that was dropped. */
  lemma PlanIsFresh(cfg: Config, s: System, id: Id, start: nat, benched: set<Id>, a: Attempt)
    requires Distinct(cfg.zones)
    ensures var w, pc := s.At(id), Planned(cfg, s, id, start, benched);
            && pc.AtAttempt? && Distinct(pc.rest)
            && (w.r.gen.zone == NONE && w.failed == Some(a) ==> a !in pc.rest)
  {
    hide WorkStep, Distinct, Plan, AttemptOf;
    PlanIsTakenUp(cfg, s, id, start, benched);
  }

  /** What comes after an attempt of a plan without repetition. */
  lemma AfterAttempt(plan: seq<Attempt>, a: Attempt)
    requires Distinct(plan)
    ensures var rest := AttemptsAfter(plan, a);
            && a !in rest && Distinct(rest) && Distinct([a] + rest)
            && (a !in plan ==> rest == plan)
            && (forall i :: 0 <= i < |plan| && plan[i] == a ==> rest == plan[i + 1..] && [a] + rest == plan[i..])
  {
    forall i | 0 <= i < |plan| && plan[i] == a
      ensures AttemptsAfter(plan, a) == plan[i + 1..]
    {
      FollowingAt(plan, i);
    }
    if a in plan { var i :| 0 <= i < |plan| && plan[i] == a; }
  }

  // ----- no attempt twice

  predicate InLoop(pc: Pc) {
    pc.AtAttempt? || pc.AtSend? || pc.AtAwait? || pc.AtRecord? || pc.AtWait? || pc.AtClear?
  }

  predicate Planning(pc: Pc) {
    pc.AtDecide? || pc.AtDiscard? || pc.AtAdmit? || pc.AtJit? || pc.AtPlan?
  }

  /** It dropped the attempt itself, a stockout that Compute settled, and saved no other. */
  predicate Dropped(w: Worker, a: Attempt) {
    Planning(w.pc) && w.failed == Some(a) && w.r.gen.zone == NONE
  }

  /** The callback is past this attempt: it is not among those still to try, and will not
      be when it makes its plan. */
  ghost predicate Past(w: Worker, a: Attempt) {
    || !Active(w.pc) || w.pc.AtCreated? || Dropped(w, a)
    || (InLoop(w.pc) && a !in Rest(w.pc) && (w.pc.AtSend? ==> AttemptOf(w.r.gen) != a))
  }

  /** A claim without a saved attempt gets none on the way to the plan. */
  lemma WrittenZone(cfg: Config, s: System, id: Id, capacity: bool, c: Change)
    requires AllStand(cfg, s) && id in s.workers && Planning(s.At(id).pc) && s.At(id).r.gen.zone == NONE
    requires CarriedBy(c, id) && (c.SaveDemand? || c.ReleaseClaim? || c.Reserve? || c.SaveJit?)
    requires Update(s.t, cfg, s.now, s.At(id).key, capacity, c).Committed?
    ensures Load(Update(s.t, cfg, s.now, s.At(id).key, capacity, c).t, s.At(id).key).gen.zone == NONE
  {
    hide AllStand, Update, BooksOk;
    Stands(cfg, s, id);
    CommitsInLease(cfg, s, id, capacity, c);
    ClaimAfter(cfg, s.t, s.now, s.At(id).key, capacity, c);
  }

  lemma WritesDropped(cfg: Config, s: System, ns: set<Id>, id: Id, capacity: bool, c: Change, refresh: bool, pc: Pc,
      a: Attempt)
    requires AllStand(cfg, s) && id in s.workers && Dropped(s.At(id), a) && Planning(pc)
    requires CarriedBy(c, id) && (c.SaveDemand? || c.ReleaseClaim? || c.Reserve? || c.SaveJit?)
    ensures var w2 := Write(cfg, s.(nonces := ns), id, capacity, c, refresh, pc).At(id);
            !Active(w2.pc) || Dropped(w2, a)
  {
    hide AllStand, Update, Write, Load;
    var s1 := s.(nonces := ns);
    WriteGoes(cfg, s1, id, capacity, c, refresh, pc);
    if Update(s1.t, cfg, s1.now, s1.At(id).key, capacity, c).Committed? { WrittenZone(cfg, s, id, capacity, c); }
  }

  lemma DecidesDropped(cfg: Config, s: System, id: Id, a: Attempt)
    requires AllStand(cfg, s) && id in s.workers && Dropped(s.At(id), a)
    ensures var w2 := DecideStep(cfg, s, id).At(id); !Active(w2.pc) || Dropped(w2, a)
  {
    var w := s.At(id);
    var pc := AfterDemand(w, s.now);
    assert !Active(pc) || Planning(pc);
    hide AllStand, Write, AfterDemand;
    assert s.(nonces := s.nonces) == s;
    if w.status.Some? {
      var c := SaveDemand(id, w.status.value);
      if Planning(pc) {
        WritesDropped(cfg, s, s.nonces, id, false, c, false, pc, a);
      } else {
        WriteGoes(cfg, s, id, false, c, false, pc);
      }
    }
  }

  lemma AdmitsDropped(cfg: Config, s: System, id: Id, name: Id, a: Attempt)
    requires AllStand(cfg, s) && id in s.workers && Dropped(s.At(id), a)
    ensures var w2 := AdmitStep(cfg, s, id, name).At(id); !Active(w2.pc) || Dropped(w2, a)
  {
    hide AllStand, Write;
    WritesDropped(cfg, s, s.nonces + {name}, id, true, Reserve(id, name), true, AtJit, a);
    WriteGoes(cfg, s.(nonces := s.nonces + {name}), id, true, Reserve(id, name), false, AtEnd(NoError));
  }

  /** On the way to its plan. */
  lemma StaysDropped(cfg: Config, s: System, id: Id, act: WorkAction, a: Attempt)
    requires AllStand(cfg, s) && WorkEnabled(s, id, act) && Dropped(s.At(id), a)
    requires act.Decide? || act.Discard? || act.Admit? || act.IssueJit?
    ensures var w2 := WorkStep(cfg, s, id, act).At(id); !Active(w2.pc) || Dropped(w2, a)
  {
    hide AllStand, Write, DecideStep, AdmitStep, Answerable;
    assert s.(nonces := s.nonces) == s;
    match act {
      case Decide => DecidesDropped(cfg, s, id, a);
      case Admit(name) => AdmitsDropped(cfg, s, id, name, a);
      case IssueJit(jit) => WritesDropped(cfg, s, s.nonces, id, false, SaveJit(id, jit), true, AtPlan, a);
      case Discard =>
        WritesDropped(cfg, s, s.nonces, id, true, ReleaseClaim(id), true, AtAdmit, a);
        WriteGoes(cfg, s, id, true, ReleaseClaim(id), true, AtEnd(NoError));
    }
  }

  /** The attempts still to try are all different, and a saved one is not among them. */
  ghost predicate Orderly(w: Worker) {
    InLoop(w.pc) ==> Distinct(Rest(w.pc)) && (w.pc.AtSend? ==> AttemptOf(w.r.gen) !in Rest(w.pc))
  }

  /** In the loop: saving takes the first of the attempts still to try, or skips it, and
      nothing else touches them. */
  ghost predicate GoesAlong(act: WorkAction, w: Worker, w2: Worker) {
    var rest := Rest(w.pc);
    || !Active(w2.pc) || w2.pc.AtCreated?
    || (&& InLoop(w2.pc)
        && if act.SaveNext?
           then rest != [] && Rest(w2.pc) == rest[1..] && (w2.pc.AtSend? ==> AttemptOf(w2.r.gen) == rest[0])
           else Rest(w2.pc) == rest && !w2.pc.AtSend?)
  }

  lemma SavesAlong(cfg: Config, s: System, id: Id, rest: seq<Attempt>)
    requires rest == Rest(s.At(id).pc)
    ensures GoesAlong(SaveNext, s.At(id), SaveNextStep(cfg, s, id, rest).At(id))
  {
    hide Update, Write, Goto, Load, AttemptOf;
    if rest != [] {
      var capacity := (s.At(id).r.gen.model == Standard) != (rest[0].model == Standard);
      var c := SaveAttempt(id, rest[0]);
      GotoGoes(s, id, AtAttempt(rest[1..]));
      WriteGoes(cfg, s, id, capacity, c, true, AtSend(rest[1..]));
      if Update(s.t, cfg, s.now, s.At(id).key, capacity, c).Committed? {
        ClaimAfter(cfg, s.t, s.now, s.At(id).key, capacity, c);
      }
    }
    GotoGoes(s, id, AtEnd(Transient));
  }

  lemma QuietlyAlong(cfg: Config, s: System, id: Id, act: WorkAction)
    requires WorkEnabled(s, id, act) && InLoop(s.At(id).pc) && CallsNothing(act) && !Leaves(act)
    ensures GoesAlong(act, s.At(id), WorkStep(cfg, s, id, act).At(id))
  {
    hide Answerable, Submitted, RequestOf, ProgressOf, AttemptOf;
  }

  lemma RecordsAlong(cfg: Config, s: System, id: Id)
    requires WorkEnabled(s, id, SaveOp)
    ensures GoesAlong(SaveOp, s.At(id), WorkStep(cfg, s, id, SaveOp).At(id))
  {
    hide Write, Update, Load, AttemptOf;
    var w := s.At(id);
    WriteGoes(cfg, s, id, false, SaveOperation(id, OperationAt(w.pc)), true, AtWait(Rest(w.pc)));
  }

  lemma ClearsAlong(cfg: Config, s: System, id: Id)
    requires WorkEnabled(s, id, Clear)
    ensures GoesAlong(Clear, s.At(id), WorkStep(cfg, s, id, Clear).At(id))
  {
    hide Write, Update, Load, AttemptOf;
    var w := s.At(id);
    WriteGoes(cfg, s, id, w.r.gen.model == Standard, ForgetAttempt(id), true, AfterClear(w.pc));
  }

  lemma LoopGoesAlong(cfg: Config, s: System, id: Id, act: WorkAction)
    requires WorkEnabled(s, id, act) && InLoop(s.At(id).pc) && !Leaves(act)
    ensures GoesAlong(act, s.At(id), WorkStep(cfg, s, id, act).At(id))
  {
    hide GoesAlong, Write, Answerable, SaveNextStep, AttemptOf;
    if CallsNothing(act) {
      hide WorkStep;
      QuietlyAlong(cfg, s, id, act);
    } else if act.SaveNext? {
      SavesAlong(cfg, s, id, Rest(s.At(id).pc));
    } else if act.SaveOp? {
      RecordsAlong(cfg, s, id);
    } else {
      ClearsAlong(cfg, s, id);
    }
  }

  lemma AlongIsPast(act: WorkAction, w: Worker, w2: Worker, a: Attempt)
    requires InLoop(w.pc) && GoesAlong(act, w, w2)
    ensures Past(w, a) ==> Past(w2, a)
    ensures Orderly(w) ==> Orderly(w2)
  {
    hide AttemptOf;
  }

  predicate Over(pc: Pc) {
    !Active(pc) || pc.AtCreated?
  }

  /** Only a callback that made its plan gets into the loop, and a callback that is through
      with it does not come back. */
  lemma StaysOutside(cfg: Config, s: System, id: Id, act: WorkAction)
    requires WorkEnabled(s, id, act) && !InLoop(s.At(id).pc) && !act.MakePlan? && !Leaves(act)
    ensures var pc := WorkStep(cfg, s, id, act).At(id).pc;
            && !InLoop(pc)
            && (Over(s.At(id).pc) || act.Abort? ==> Over(pc))
  {
    hide WorkStep, Answerable;
    WorkStepGoes(cfg, s, id, act);
  }

  /** A callback past an attempt stays past it. */
  lemma StaysPast(cfg: Config, s: System, id: Id, act: WorkAction, a: Attempt)
    requires Distinct(cfg.zones) && AllStand(cfg, s) && WorkEnabled(s, id, act) && !Leaves(act) && Past(s.At(id), a)
    ensures Past(WorkStep(cfg, s, id, act).At(id), a)
  {
    hide AllStand, WorkStep, Answerable, AttemptOf, Distinct, Plan;
    if act.MakePlan? {
      PlanIsFresh(cfg, s, id, act.start, act.benched, a);
    } else if InLoop(s.At(id).pc) {
      hide Past, GoesAlong, WorkEnabled, Orderly;
      LoopGoesAlong(cfg, s, id, act);
      AlongIsPast(act, s.At(id), WorkStep(cfg, s, id, act).At(id), a);
    } else if Over(s.At(id).pc) || act.Abort? {
      StaysOutside(cfg, s, id, act);
    } else {
      StaysDropped(cfg, s, id, act, a);
    }
  }

  lemma StaysOrderly(cfg: Config, s: System, id: Id, act: WorkAction)
    requires Distinct(cfg.zones) && WorkEnabled(s, id, act) && !Leaves(act) && Orderly(s.At(id))
    ensures Orderly(WorkStep(cfg, s, id, act).At(id))
  {
    hide WorkStep, WorkEnabled, AttemptOf, Distinct, Plan;
    if act.MakePlan? {
      PlanIsFresh(cfg, s, id, act.start, act.benched, SavedBy(s, id));
    } else if InLoop(s.At(id).pc) {
      hide Past, GoesAlong, Orderly;
      LoopGoesAlong(cfg, s, id, act);
      AlongIsPast(act, s.At(id), WorkStep(cfg, s, id, act).At(id), SavedBy(s, id));
    } else {
      StaysOutside(cfg, s, id, act);
    }
  }

  lemma {:induction false} RunOrderly(cfg: Config, run: seq<System>, acts: seq<Action>, i: nat)
    requires IsRun(cfg, run, acts) && i < |run| && Distinct(cfg.zones)
    ensures forall id :: id in StateAt(run, i).workers ==> Orderly(StateAt(run, i).At(id))
  {
    hide Enabled, Step, Orderly, Distinct;
    if i > 0 {
      RunOrderly(cfg, run, acts, i - 1);
      var s, a := StateAt(run, i - 1), ActionAt(acts, i - 1);
      forall id | id in StateAt(run, i).workers ensures Orderly(StateAt(run, i).At(id)) {
        OrderlyAfter(cfg, s, a, id);
      }
    }
  }

  lemma OrderlyAfter(cfg: Config, s: System, a: Action, id: Id)
    requires Distinct(cfg.zones) && Enabled(cfg, s, a) && id in Step(cfg, s, a).workers
    requires id in s.workers ==> Orderly(s.At(id))
    ensures Orderly(Step(cfg, s, a).At(id))
  {
    hide Enabled, Step, WorkStep, WorkEnabled, Distinct, LeaseEnd;
    StepWorkers(cfg, s, a);
    if ActsFor(a, id) { StaysOrderly(cfg, s, id, a.act); }
  }

  lemma PastAfter(cfg: Config, s: System, a: Action, id: Id, attempt: Attempt)
    requires Distinct(cfg.zones) && AllStand(cfg, s) && Enabled(cfg, s, a) && id in s.nonces
    requires id in s.workers ==> Past(s.At(id), attempt)
    ensures id in Step(cfg, s, a).nonces
    ensures id in Step(cfg, s, a).workers ==> Past(Step(cfg, s, a).At(id), attempt)
  {
    hide Step, AllStand, WorkStep, WorkEnabled, Distinct, Past, LeaseEnd;
    StepWorkers(cfg, s, a);
    StepFrame(cfg, s, a);
    if ActsFor(a, id) && id in Step(cfg, s, a).workers { StaysPast(cfg, s, id, a.act, attempt); }
  }

  lemma {:induction false} PastForGood(cfg: Config, run: seq<System>, acts: seq<Action>, i: nat, j: nat, id: Id,
      a: Attempt)
    requires IsRun(cfg, run, acts) && i <= j < |run| && Distinct(cfg.zones) && id in StateAt(run, i).nonces
    requires id in StateAt(run, i).workers ==> Past(StateAt(run, i).At(id), a)
    ensures id in StateAt(run, j).nonces
    ensures id in StateAt(run, j).workers ==> Past(StateAt(run, j).At(id), a)
  {
    hide Enabled, Step, Past, Distinct, AllStand;
    if i < j {
      PastForGood(cfg, run, acts, i, j - 1, id, a);
      RunStands(cfg, run, acts, j - 1);
      PastAfter(cfg, StateAt(run, j - 1), ActionAt(acts, j - 1), id, a);
    }
  }

  /** The attempt a callback has saved. */
  function SavedBy(s: System, id: Id): Attempt {
    AttemptOf(s.At(id).r.gen)
  }

  /** A submission, or dropping a settled attempt, puts the callback past the attempt. */
  lemma LeavesBehind(cfg: Config, s: System, id: Id, act: WorkAction)
    requires WorkEnabled(s, id, act) && (act.Send? || act.Forget?) && Orderly(s.At(id))
    ensures Past(WorkStep(cfg, s, id, act).At(id), SavedBy(s, id))
  {
    hide Update, Write, Submitted, RequestOf, Distinct;
    if act.Forget? {
      var w := s.At(id);
      var s1 := Put(s, id, w.(failed := Some(AttemptOf(w.r.gen))));
      var capacity := w.r.gen.model == Standard;
      WriteGoes(cfg, s1, id, capacity, ForgetAttempt(id), true, AtDecide);
      if Update(s.t, cfg, s.now, w.key, capacity, ForgetAttempt(id)).Committed? {
        ClaimAfter(cfg, s.t, s.now, w.key, capacity, ForgetAttempt(id));
      }
    }
  }

  /** No callback makes one attempt twice, nor one it dropped because Compute settled it. */
  lemma NoAttemptTwice(cfg: Config, run: seq<System>, acts: seq<Action>, i: nat, j: nat, id: Id, act: WorkAction)
    requires IsRun(cfg, run, acts) && i < j < |acts| && Distinct(cfg.zones)
    requires ActionAt(acts, i) == Work(id, act) && (act.Send? || act.Forget?) && ActionAt(acts, j) == Work(id, Send)
    ensures SavedBy(StateAt(run, j), id) != SavedBy(StateAt(run, i), id)
  {
    hide Step, WorkStep, AllStand, Distinct, Orderly, Answerable;
    var s := StateAt(run, i);
    RunOrderly(cfg, run, acts, i);
    RunStands(cfg, run, acts, i);
    assert Enabled(cfg, s, Work(id, act)) && Enabled(cfg, StateAt(run, j), Work(id, Send));
    LeavesBehind(cfg, s, id, act);
    StepIsOwn(cfg, s, id, act);
    HolderIsDrawn(cfg, s, id, act);
    PastForGood(cfg, run, acts, i + 1, j, id, SavedBy(s, id));
  }

  lemma StepIsOwn(cfg: Config, s: System, id: Id, act: WorkAction)
    ensures Step(cfg, s, Work(id, act)) == WorkStep(cfg, s, id, act)
  {
  }

  lemma HolderIsDrawn(cfg: Config, s: System, id: Id, act: WorkAction)
    requires AllStand(cfg, s) && WorkEnabled(s, id, act)
    ensures id in s.nonces && id in WorkStep(cfg, s, id, act).nonces
  {
    hide WorkStep;
    WorkStepFrame(cfg, s, id, act);
  }
}
