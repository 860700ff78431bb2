/** What a create callback knows after each of its steps. */
module WorkerSteps {
  import opened Types
  import opened Records
  import opened Transactions
  import opened CreationPlans
  import opened Callbacks
  import opened Ledger
  import opened Protocol
  import opened Transitions
  import opened Standing
  import opened Invariant
  import opened Effects

  /** The worker knows what it has to at the point it reaches, if it is still inside
      its lease. */
  ghost predicate GoesKnowing(s2: System, id: Id) {
    && (InLease(s2, s2.At(id)) ==> Knows(s2.cloud, s2.At(id)))
    && (s2.At(id).pc.AtRegister? || s2.At(id).pc.AtDetach? ==> s2.At(id).r.gen.vm in s2.cloud.appeared)
  }

  /** A worker's transaction that leads on: it committed, inside the lease, and the
      stored claim it met is the snapshot's or was released. */
  lemma LeadsOn(cfg: Config, s: System, id: Id, capacity: bool, c: Change)
    requires Inv(cfg, s) && id in s.workers && Active(s.At(id).pc) && CarriedBy(c, id)
    requires Update(s.t, cfg, s.now, s.At(id).key, capacity, c).Committed?
    ensures InLease(s, s.At(id)) && Knows(s.cloud, s.At(id)) && Unmade(Load(s.t, s.At(id).key).gen)
    ensures !s.At(id).pc.AtReread? ==>
              || Load(s.t, s.At(id).key).gen == s.At(id).r.gen
              || (Load(s.t, s.At(id).key).gen.vm == NONE && (KnewOver(s.At(id)) || s.At(id).r.gen.zone == NONE))
  {
    hide BooksOk, FleetOk, NamesDrawn, MemoryOk, DeletingOk, Update, Knows, Unmade, RowFits;
    Know(cfg, s, id);
    CommitsInLease(cfg, s, id, capacity, c);
  }

  /** What the worker knows where it is. */
  lemma KnowsHere(cfg: Config, s: System, id: Id)
    requires Inv(cfg, s) && id in s.workers
    ensures cfg.Valid() && Saved(s.At(id).r.gen) && (InLease(s, s.At(id)) ==> Knows(s.cloud, s.At(id)))
    ensures s.At(id).pc.AtRegister? || s.At(id).pc.AtDetach? ==> s.At(id).r.gen.vm in s.cloud.appeared
  {
    hide BooksOk, RowsFit, NamesDrawn, MemoryOk, DeletingOk, FleetOk, Knows, Saved;
    Know(cfg, s, id);
  }

  // ----- steps that look

  lemma InspectKnows(cfg: Config, s: System, id: Id, stopped: bool)
    requires Inv(cfg, s) && id in s.workers && s.At(id).pc.AtInspect?
    ensures GoesKnowing(Goto(s, id, AfterLookup(s.At(id), VmExists(s.cloud, s.At(id).r.gen.vm), stopped)), id)
  {
    hide BooksOk, RowsFit, NamesDrawn, MemoryOk, DeletingOk, UniqueOpen;
    Know(cfg, s, id);
    if InLease(s, s.At(id)) { ClaimBehind(cfg, s, id); }
  }

  lemma RegistrationKnows(cfg: Config, s: System, id: Id, reg: Registration)
    requires Inv(cfg, s) && id in s.workers && s.At(id).pc.AtRegister?
    ensures GoesKnowing(Goto(s, id, AfterRegistration(cfg, s.At(id), reg, s.now)), id)
  {
    hide Inv, OfflineExpired;
    KnowsHere(cfg, s, id);
  }

  lemma ResolveKnows(cfg: Config, s: System, id: Id, op: Operation)
    requires Inv(cfg, s) && id in s.workers && s.At(id).pc.AtResolve? && MayLookUp(s.cloud, s.At(id).r.gen, op)
    ensures GoesKnowing(ResolveStep(cfg, s, id, op), id)
  {
    hide Inv, AttemptDone;
    KnowsHere(cfg, s, id);
  }

  lemma RecheckKnows(cfg: Config, s: System, id: Id, stockout: bool)
    requires Inv(cfg, s) && id in s.workers && s.At(id).pc == AtRecheck(stockout)
    ensures GoesKnowing(RecheckStep(s, id, stockout), id)
  {
    hide Inv, VmExists;
    KnowsHere(cfg, s, id);
  }

  /** What has been created has appeared. */
  lemma WaitKnows(cfg: Config, s: System, id: Id, result: WaitResult)
    requires Inv(cfg, s) && id in s.workers && s.At(id).pc.AtWait? && MayEndWait(s.cloud, s.At(id).r.gen, result)
    ensures GoesKnowing(Goto(s, id, AfterWait(Rest(s.At(id).pc), result)), id)
  {
    hide Inv, AllSubmittable, Saved;
    KnowsHere(cfg, s, id);
    CreatedHasAppeared(cfg, s, s.At(id).r.gen, result);
  }

  lemma CreatedHasAppeared(cfg: Config, s: System, g: Generation, result: WaitResult)
    requires Inv(cfg, s) && MayEndWait(s.cloud, g, result)
    ensures if result.WaitFailed? then Over(s.cloud, RequestOf(g)) else g.vm in s.cloud.appeared
  {
    hide AllStand, RowsFit, NamesDrawn, MemoryOk, UniqueOpen, WorkerFits;
  }

  // ----- steps that write

  /** A status or a re-read leaves the claim as stored, and a record without a VM
      holds nothing of an old claim. */
  lemma RefreshKnows(cfg: Config, s: System, w: Worker, id: Id, c: Change, pc: Pc)
    requires Inv(cfg, s) && id in s.workers && Active(s.At(id).pc) && w == s.At(id).(status := w.status)
    requires (c.SaveStatus? || c.Reread?) && CarriedBy(c, id)
    requires pc == AtAdopt || pc == AtInspect || pc == AtDecide
    requires pc == AtInspect <==> Load(s.t, s.At(id).key).gen.vm != NONE
    ensures GoesKnowing(Write(cfg, Put(s, id, w), id, false, c, true, pc), id)
  {
    hide Inv, Update, Write;
    WriteGoes(cfg, Put(s, id, w), id, false, c, true, pc);
    if Update(s.t, cfg, s.now, w.key, false, c).Committed? {
      LeadsOn(cfg, s, id, false, c);
      ClaimAfter(cfg, s.t, s.now, w.key, false, c);
    }
  }

  lemma StatusKnows(cfg: Config, s: System, id: Id, answer: Option<Status>)
    requires Inv(cfg, s) && id in s.workers && s.At(id).pc.AtStatus?
    ensures GoesKnowing(StatusStep(cfg, s, id, answer), id)
  {
    hide Inv, Write, GoesKnowing;
    var w := s.At(id);
    var seen := if w.r.terminal then Some(Completed) else answer;
    var r := Load(s.t, w.key);
    RefreshKnows(cfg, s, w.(status := seen), id, SaveStatus(id, seen),
                 if seen == Some(Queued) && r.gen.vm == NONE then AtAdopt else InspectOrDecide(r));
  }

  lemma RereadKnows(cfg: Config, s: System, id: Id)
    requires Inv(cfg, s) && id in s.workers && s.At(id).pc.AtReread?
    ensures GoesKnowing(RereadStep(cfg, s, id), id)
  {
    hide Inv, Write, GoesKnowing;
    assert Put(s, id, s.At(id)) == s;
    RefreshKnows(cfg, s, s.At(id), id, Reread(id), InspectOrDecide(Load(s.t, s.At(id).key)));
  }

  lemma AdoptKnows(cfg: Config, s: System, id: Id, names: seq<Id>)
    requires Inv(cfg, s) && id in s.workers && s.At(id).pc.AtAdopt?
    ensures GoesKnowing(AdoptStep(s, id, names), id)
  {
    hide BooksOk, RowsFit, NamesDrawn, MemoryOk, DeletingOk, FleetOk, Adopt, Load;
    Know(cfg, s, id);
  }

  /** What a release leaves is a record without a claim. */
  lemma ReleaseKnows(cfg: Config, s: System, id: Id, pc: Pc)
    requires Inv(cfg, s) && id in s.workers && (s.At(id).pc.AtRelease? || s.At(id).pc.AtDiscard?)
    requires pc == AtDecide || pc == AtAdmit || pc.AtEnd?
    ensures GoesKnowing(Write(cfg, s, id, true, ReleaseClaim(id), true, pc), id)
  {
    hide Inv, Update, Write;
    WriteGoes(cfg, s, id, true, ReleaseClaim(id), true, pc);
    if Update(s.t, cfg, s.now, s.At(id).key, true, ReleaseClaim(id)).Committed? {
      ClaimAfter(cfg, s.t, s.now, s.At(id).key, true, ReleaseClaim(id));
    }
  }

  /** Forgetting an attempt, settled or rejected. */
  lemma ForgetKnows(cfg: Config, s: System, w: Worker, id: Id, capacity: bool, pc: Pc)
    requires Inv(cfg, s) && id in s.workers && (s.At(id).pc.AtForget? || s.At(id).pc.AtClear?)
    requires w == s.At(id).(failed := w.failed)
    requires pc == AtDecide || pc.AtEnd? || (s.At(id).pc.AtClear? && pc == AtAttempt(Rest(s.At(id).pc)))
    ensures GoesKnowing(Write(cfg, Put(s, id, w), id, capacity, ForgetAttempt(id), true, pc), id)
  {
    hide Inv, Update, Write, AllSubmittable;
    WriteGoes(cfg, Put(s, id, w), id, capacity, ForgetAttempt(id), true, pc);
    if Update(s.t, cfg, s.now, w.key, capacity, ForgetAttempt(id)).Committed? {
      LeadsOn(cfg, s, id, capacity, ForgetAttempt(id));
      ClaimAfter(cfg, s.t, s.now, w.key, capacity, ForgetAttempt(id));
    }
  }

  lemma DecideKnows(cfg: Config, s: System, id: Id)
    requires Inv(cfg, s) && id in s.workers && s.At(id).pc.AtDecide?
    ensures GoesKnowing(DecideStep(cfg, s, id), id)
  {
    hide Inv, Update, Write;
    var w := s.At(id);
    KnowsHere(cfg, s, id);
    if w.status.Some? { WriteGoes(cfg, s, id, false, SaveDemand(id, w.status.value), false, AfterDemand(w, s.now)); }
  }

  lemma AdmitKnows(cfg: Config, s: System, id: Id, name: Id)
    requires Inv(cfg, s) && id in s.workers && s.At(id).pc.AtAdmit? && name != NONE
    ensures GoesKnowing(AdmitStep(cfg, s, id, name), id)
  {
    hide Inv, Update;
    var w := s.At(id);
    KnowsHere(cfg, s, id);
    if Update(s.t, cfg, s.now, w.key, true, Reserve(id, name)).Committed? {
      LeadsOn(cfg, s, id, true, Reserve(id, name));
      ClaimAfter(cfg, s.t, s.now, w.key, true, Reserve(id, name));
    }
  }

  lemma JitKnows(cfg: Config, s: System, id: Id, jit: Id)
    requires Inv(cfg, s) && id in s.workers && s.At(id).pc.AtJit? && jit != NONE
    ensures GoesKnowing(IssueJitStep(cfg, s, id, jit), id)
  {
    hide Inv, Update, Write, Trying, Continues, Over, Accepted, RowFits, AllSubmittable;
    KnowsHere(cfg, s, id);
    WriteGoes(cfg, s, id, false, SaveJit(id, jit), true, AtPlan);
    if Update(s.t, cfg, s.now, s.At(id).key, false, SaveJit(id, jit)).Committed? {
      LeadsOn(cfg, s, id, false, SaveJit(id, jit));
      ClaimAfter(cfg, s.t, s.now, s.At(id).key, false, SaveJit(id, jit));
    }
  }

  lemma PlanKnows(cfg: Config, s: System, id: Id, start: nat, benched: set<Id>)
    requires Inv(cfg, s) && id in s.workers && s.At(id).pc.AtPlan?
    ensures GoesKnowing(Goto(s, id, AtAttempt(AttemptsFor(cfg, s.At(id), start, benched))), id)
  {
    hide Inv, Plan;
    KnowsHere(cfg, s, id);
    var w := s.At(id);
    var full := Plan(cfg, start, w.override, benched);
    PlanSubmittable(cfg, start, w.override, benched);
    AfterSubmittable(full, AttemptOf(w.r.gen));
    if w.failed.Some? { AfterSubmittable(full, w.failed.value); }
  }

  /** A worker that may not use on-demand capacity has not saved such an attempt. */
  lemma SkippedUnsaved(cfg: Config, s: System, id: Id, rest: seq<Attempt>)
    requires Inv(cfg, s) && id in s.workers && s.At(id).pc == AtAttempt(rest) && InLease(s, s.At(id))
    requires rest != [] && rest[0].model == Standard && !cfg.allowStandard
    ensures s.At(id).r.gen.zone == NONE
  {
    hide RowsFit, NamesDrawn, MemoryOk, DeletingOk, FleetOk, HolderFits, AllSubmittable;
    Know(cfg, s, id);
  }

  lemma SaveKnows(cfg: Config, s: System, id: Id, rest: seq<Attempt>, capacity: bool)
    requires Inv(cfg, s) && id in s.workers && s.At(id).pc == AtAttempt(rest) && rest != []
    ensures GoesKnowing(Write(cfg, s, id, capacity, SaveAttempt(id, rest[0]), true, AtSend(rest[1..])), id)
  {
    hide Inv, Update, Write;
    var c := SaveAttempt(id, rest[0]);
    WriteGoes(cfg, s, id, capacity, c, true, AtSend(rest[1..]));
    assert rest[0] in rest && forall a :: a in rest[1..] ==> a in rest;
    if Update(s.t, cfg, s.now, s.At(id).key, capacity, c).Committed? {
      LeadsOn(cfg, s, id, capacity, c);
      ClaimAfter(cfg, s.t, s.now, s.At(id).key, capacity, c);
    }
  }

  lemma SaveNextKnows(cfg: Config, s: System, id: Id, rest: seq<Attempt>)
    requires Inv(cfg, s) && id in s.workers && s.At(id).pc == AtAttempt(rest)
    ensures GoesKnowing(SaveNextStep(cfg, s, id, rest), id)
  {
    hide Inv, Write;
    KnowsHere(cfg, s, id);
    if rest != [] {
      assert forall a :: a in rest[1..] ==> a in rest;
      if rest[0].model == Standard && !cfg.allowStandard {
        if InLease(s, s.At(id)) { SkippedUnsaved(cfg, s, id, rest); }
      } else {
        SaveKnows(cfg, s, id, rest, (s.At(id).r.gen.model == Standard) != (rest[0].model == Standard));
      }
    }
  }

  lemma SaveOpKnows(cfg: Config, s: System, id: Id, rest: seq<Attempt>, operation: Id)
    requires Inv(cfg, s) && id in s.workers && s.At(id).pc == AtRecord(rest, operation)
    ensures GoesKnowing(Write(cfg, s, id, false, SaveOperation(id, operation), true, AtWait(rest)), id)
  {
    hide Inv, Update, Write, AllSubmittable;
    var c := SaveOperation(id, operation);
    WriteGoes(cfg, s, id, false, c, true, AtWait(rest));
    if Update(s.t, cfg, s.now, s.At(id).key, false, c).Committed? {
      LeadsOn(cfg, s, id, false, c);
      ClaimAfter(cfg, s.t, s.now, s.At(id).key, false, c);
    }
  }

  // ----- what its calls owe the cloud

  /** What is behind the claim a committed write meets. */
  lemma WriterKnows(cfg: Config, s: System, id: Id, capacity: bool, c: Change)
    requires Inv(cfg, s) && id in s.workers && Active(s.At(id).pc) && !s.At(id).pc.AtReread? && CarriedBy(c, id)
    requires Update(s.t, cfg, s.now, s.At(id).key, capacity, c).Committed?
    ensures
      var w := s.At(id);
      var g := Load(s.t, w.key).gen;
      && Knows(s.cloud, w)
      && (g == w.r.gen || (g.vm == NONE && (KnewOver(w) || w.r.gen.zone == NONE)))
      && (g.vm != NONE && (g.zone == NONE || Over(s.cloud, RequestOf(g))) ==> Untouched(s.cloud, g.vm))
      && (g.vm != NONE ==> RowFits(s.cloud, g.vm, g, false)) && NamesDrawn(s) && NONE !in s.cloud.appeared
  {
    hide BooksOk, RowsFit, MemoryOk, DeletingOk, FleetOk, Update, Untouched, HolderFits, Knows, Faithful, RowFits,
      Over;
    Know(cfg, s, id);
    LeadsOn(cfg, s, id, capacity, c);
    ClaimBehind(cfg, s, id);
    var g := Load(s.t, s.At(id).key).gen;
    if g.vm != NONE {
      if g.zone == NONE { UnsubmittedIsGone(s, g); }
      if Over(s.cloud, RequestOf(g)) { OverIsGone(s, g); }
    }
  }

  /** The steps that edit a claim. */
  predicate Edits(act: WorkAction) {
    act.KeepOwn? || act.Forget? || act.IssueJit? || act.SaveNext? || act.SaveOp? || act.Clear? || act.Created?
  }

  /** Dropping a saved attempt that is over, or saving the next one, replaces nothing
      that could still become a VM; what is recorded on a claim is so. */
  lemma EditJustified(cfg: Config, s: System, id: Id, act: WorkAction, key: Id, capacity: bool, c: Change)
    requires Inv(cfg, s) && WorkEnabled(s, id, act) && Edits(act)
    requires WorkCall(cfg, s, id, act) == CallUpdate(key, capacity, c)
    requires Update(s.t, cfg, s.now, key, capacity, c).Committed?
    ensures Justified(s, key, c)
  {
    hide Inv, Update, Untouched, Over, WorkCall, WorkEnabled, Edits, RowFits, NamesDrawn;
    EditIsOwn(cfg, s, id, act);
    WriterKnows(cfg, s, id, capacity, c);
  }

  /** The point at which a worker makes this edit. */
  predicate EditPoint(w: Worker, c: Change) {
    match c
    case KeepRunning(_) => w.pc.AtKeep?
    case ForgetAttempt(_) => w.pc.AtForget? || w.pc.AtClear?
    case SaveJit(_, jit) => w.pc.AtJit? && w.r.gen.jit == NONE && jit != NONE
    case SaveAttempt(_, a) => w.pc.AtAttempt? && w.pc.rest != [] && a == w.pc.rest[0]
    case SaveOperation(_, _) => w.pc.AtRecord?
    case MarkCreated(_) => w.pc.AtCreated?
    case _ => false
  }

  lemma EditIsOwn(cfg: Config, s: System, id: Id, act: WorkAction)
    requires WorkEnabled(s, id, act) && Edits(act)
    ensures id in s.workers && Active(s.At(id).pc) && !s.At(id).pc.AtReread?
    ensures match WorkCall(cfg, s, id, act) {
              case CallUpdate(key, _, c) => CarriedBy(c, id) && key == s.At(id).key && EditPoint(s.At(id), c)
              case c => c == NoCall
            }
  {
    hide IsCandidateList, MayAnswer, MayLookUp, MayReply, MayEndWait;
  }

  lemma OthersEditNothing(cfg: Config, s: System, id: Id, act: WorkAction)
    requires !Edits(act)
    ensures match WorkCall(cfg, s, id, act) {
              case CallUpdate(_, _, c) => !WritesClaim(c) && !c.ForgetAttempt?
              case _ => true
            }
  {
  }

  /** A detached runner's VM has appeared, even if the lease ends at this instant. */
  lemma DetachJustified(cfg: Config, s: System, id: Id, spare: bool, due: Time)
    requires Inv(cfg, s) && id in s.workers && s.At(id).pc.AtDetach?
    ensures CallJustified(cfg, s, CallDetach(s.At(id).key, id, spare, due))
  {
    hide BooksOk, RowsFit, NamesDrawn, MemoryOk, DeletingOk, FleetOk, Knows, Faithful, Prepare;
    Know(cfg, s, id);
  }

  lemma WorkJustified(cfg: Config, s: System, id: Id, act: WorkAction)
    requires Inv(cfg, s) && WorkEnabled(s, id, act)
    ensures CallJustified(cfg, s, WorkCall(cfg, s, id, act))
  {
    hide Inv, WorkCall, WorkEnabled, Edits, Update, Detach;
    if Edits(act) {
      EditIsOwn(cfg, s, id, act);
      match WorkCall(cfg, s, id, act) {
        case CallUpdate(key, capacity, c) =>
          if Update(s.t, cfg, s.now, key, capacity, c).Committed? {
            hide Justified;
            EditJustified(cfg, s, id, act, key, capacity, c);
          }
        case _ =>
      }
    } else {
      OthersEditNothing(cfg, s, id, act);
      WorkCallKinds(cfg, s, id, act);
      match WorkCall(cfg, s, id, act) {
        case CallDetach(_, _, spare, due) => DetachJustified(cfg, s, id, spare, due);
        case _ =>
      }
    }
  }
}
