/** What a create callback puts on record at each of its steps, while it holds its lease. */
module Recordings {
  import opened Types
  import opened Records
  import opened Transactions
  import opened Fields
  import opened Protocol
  import opened Decisions

  /** The record of its job before the step, and after. */
  function Before(s: System, id: Id): Record {
    Load(s.t, s.At(id).key)
  }

  ghost function Afterwards(cfg: Config, s: System, id: Id, act: WorkAction): Record {
    Load(WorkStep(cfg, s, id, act).t, s.At(id).key)
  }

  /** A job is due at this time, unless its marker stands longer. */
  predicate DueAt(r: Record, due: int) {
    Actionable(r) ==> r.nextActionAt == if due < r.dispatch.until then r.dispatch.until else due
  }

  /** A callback that does not touch the counters goes through while the lease holds. */
  lemma Through(cfg: Config, s: System, id: Id, c: Change, refresh: bool, pc: Pc)
    requires Holds(s, id) && CarriedBy(c, id) && s.now > NEVER
    requires c.KeepRunning? || c.SaveJit? || c.SaveOperation? || c.MarkCreated? || c.DropLease?
    ensures var s2 := Write(cfg, s, id, false, c, refresh, pc);
            var r, r2, w2 := Before(s, id), Load(s2.t, s.At(id).key), s2.At(id);
            && w2.pc == pc && (refresh ==> w2.r == r2)
            && r2.job == r.job && r2.terminal == r.terminal && r2.failure == r.failure
            && r2.lease == (if c.DropLease? then r.lease.(holder := NONE) else r.lease)
            && r2.gen == (match c
                  case SaveJit(_, jit) => r.gen.(jit := jit, jitIssuedAt := s.now)
                  case SaveOperation(_, operation) => r.gen.(operation := operation)
                  case MarkCreated(_) => r.gen.(createdAt := s.now)
                  case KeepRunning(_) => if r.gen.createdAt != NEVER then r.gen else r.gen.(createdAt := s.now)
                  case _ => r.gen)
            && (c.KeepRunning? || c.MarkCreated? ==> DueAt(r2, s.now + 2 * MINUTE))
  {
    hide Prepare, Mirror;
    PreparedFields(Apply(c, cfg, s.now, Before(s, id), Fleet(0, 0, 0)).r, s.now);
  }

  /** Its runner registered: the first time it was known to run, and another look in two minutes. */
  lemma KeepingIsRecorded(cfg: Config, s: System, id: Id)
    requires Holds(s, id) && s.now > NEVER
    ensures var r, r2 := Before(s, id), Afterwards(cfg, s, id, KeepOwn);
            && r2.gen == (if r.gen.createdAt != NEVER then r.gen else r.gen.(createdAt := s.now))
            && DueAt(r2, s.now + 2 * MINUTE) && NextPoint(cfg, s, id, KeepOwn) == AtEnd(NoError)
  {
    hide Write, DueAt;
    Through(cfg, s, id, KeepRunning(id), false, AtEnd(NoError));
  }

  /** The creation: its time, and another look in two minutes. */
  lemma CreationIsRecorded(cfg: Config, s: System, id: Id)
    requires Holds(s, id) && s.now > NEVER
    ensures var r, r2 := Before(s, id), Afterwards(cfg, s, id, Created);
            && r2.gen == r.gen.(createdAt := s.now)
            && DueAt(r2, s.now + 2 * MINUTE) && NextPoint(cfg, s, id, Created) == AtEnd(NoError)
  {
    hide Write, DueAt;
    Through(cfg, s, id, MarkCreated(id), false, AtEnd(NoError));
  }

  /** The credential, with the time it was issued; one that is there is used again. */
  lemma CredentialIsRecorded(cfg: Config, s: System, id: Id, jit: Id)
    requires Holds(s, id) && s.now > NEVER
    ensures var r, r2 := Before(s, id), Afterwards(cfg, s, id, IssueJit(jit));
            && NextPoint(cfg, s, id, IssueJit(jit)) == AtPlan
            && (s.At(id).r.gen.jit != NONE ==> r2 == r)
            && (s.At(id).r.gen.jit == NONE ==>
                  && r2.gen == r.gen.(jit := jit, jitIssuedAt := s.now)
                  && WorkStep(cfg, s, id, IssueJit(jit)).At(id).r == r2)
  {
    hide Write;
    Through(cfg, s, id, SaveJit(id, jit), true, AtPlan);
  }

  /** The operation of an accepted insert, before it is waited for. */
  lemma OperationIsRecorded(cfg: Config, s: System, id: Id)
    requires Holds(s, id) && s.now > NEVER && s.At(id).pc.AtRecord?
    ensures var w, w2 := s.At(id), WorkStep(cfg, s, id, SaveOp).At(id);
            && Afterwards(cfg, s, id, SaveOp).gen == Before(s, id).gen.(operation := OperationAt(w.pc))
            && w2.r == Afterwards(cfg, s, id, SaveOp) && w2.pc == AtWait(Rest(w.pc))
  {
    hide Write;
    Through(cfg, s, id, SaveOperation(id, OperationAt(s.At(id).pc)), true, AtWait(Rest(s.At(id).pc)));
  }

  /** The end of the lease; how the callback ended is what finishTask hears. */
  lemma LeaseIsGivenBack(cfg: Config, s: System, id: Id)
    requires s.At(id).pc.AtEnd? && s.now > NEVER
    ensures var w, r, r2 := s.At(id), Before(s, id), Afterwards(cfg, s, id, Drop);
            && NextPoint(cfg, s, id, Drop) == AtFinish(ErrorAt(w.pc))
            && (if Holds(s, id) then r2.lease.holder == NONE && r2.gen == r.gen && r2.job == r.job else r2 == r)
  {
    hide Prepare, Mirror;
    PreparedFields(Apply(DropLease(id), cfg, s.now, Before(s, id), Fleet(0, 0, 0)).r, s.now);
  }

  /** A dropped attempt frees its place on demand; the reservation, its credential and the
      time of its first attempt stay. */
  lemma DroppingIsRecorded(cfg: Config, s: System, id: Id, act: WorkAction)
    requires id in s.workers && Holds(s, id) && s.now > NEVER && (act.Forget? || act.Clear?)
    requires Before(s, id).gen.model == s.At(id).r.gen.model
    ensures var s2 := WorkStep(cfg, s, id, act);
            var w, w2, r, r2 := s.At(id), s2.At(id), Before(s, id), Load(s2.t, s.At(id).key);
            && r2.gen == r.gen.(zone := NONE, model := NoModel, operation := NONE, template := NONE)
            && w2.r == r2 && w2.failed == (if act.Forget? then Some(AttemptOf(w.r.gen)) else w.failed)
            && s2.t.fleet.standard == s.t.fleet.standard - (if r.gen.model == Standard then 1 else 0)
            && s2.t.fleet.runners == s.t.fleet.runners
  {
    hide Write;
    var w := s.At(id);
    Forgetting(cfg, s, w, id, AfterClear(w.pc));
    Forgetting(cfg, s, w.(failed := Some(AttemptOf(w.r.gen))), id, AtDecide);
    assert Put(s, id, w) == s;
  }

  lemma Forgetting(cfg: Config, s: System, w: Worker, id: Id, pc: Pc)
    requires Holds(s, id) && s.now > NEVER && w == s.At(id).(failed := w.failed)
    requires Before(s, id).gen.model == w.r.gen.model
    ensures var s2 := Write(cfg, Put(s, id, w), id, w.r.gen.model == Standard, ForgetAttempt(id), true, pc);
            var r, r2 := Before(s, id), Load(s2.t, w.key);
            && r2.gen == r.gen.(zone := NONE, model := NoModel, operation := NONE, template := NONE)
            && s2.At(id).r == r2 && s2.At(id).failed == w.failed
            && s2.t.fleet.standard == s.t.fleet.standard - (if r.gen.model == Standard then 1 else 0)
            && s2.t.fleet.runners == s.t.fleet.runners
  {
    hide Prepare, Mirror;
    var f := if w.r.gen.model == Standard then s.t.fleet else Fleet(0, 0, 0);
    PreparedFields(Apply(ForgetAttempt(id), cfg, s.now, Before(s, id), f).r, s.now);
  }

  /** A released claim is gone from the job, the ledger and the counters, and the callback
      goes on for the queued job, or ends. */
  lemma ReleaseIsRecorded(cfg: Config, s: System, id: Id, act: WorkAction)
    requires Holds(s, id) && s.now > NEVER && (act.ReleaseOwn? || act.Discard?)
    ensures var s2 := WorkStep(cfg, s, id, act);
            var w, r, r2 := s.At(id), Before(s, id), Load(s2.t, s.At(id).key);
            && r2.gen == NoGeneration(r.gen.machine) && r2.runnerId == NONE && s2.At(id).r == r2
            && (r.gen.vm != NONE ==> r.gen.vm !in s2.t.runners)
            && s2.t.fleet.runners == s.t.fleet.runners - (if r.gen.vm != NONE then 1 else 0)
            && s2.At(id).pc == (if act.ReleaseOwn? then (if w.pc == AtRelease(true) then AtDecide else AtEnd(NoError))
                                else if w.pc == AtDiscard(true) then AtAdmit else AtEnd(NoError))
  {
    hide Write;
    Releasing(cfg, s, id, if s.At(id).pc == AtRelease(true) then AtDecide else AtEnd(NoError));
    Releasing(cfg, s, id, if s.At(id).pc == AtDiscard(true) then AtAdmit else AtEnd(NoError));
  }

  lemma Releasing(cfg: Config, s: System, id: Id, pc: Pc)
    requires Holds(s, id) && s.now > NEVER
    ensures var s2 := Write(cfg, s, id, true, ReleaseClaim(id), true, pc);
            var r, r2 := Before(s, id), Load(s2.t, s.At(id).key);
            && r2.gen == NoGeneration(r.gen.machine) && r2.runnerId == NONE && s2.At(id).r == r2 && s2.At(id).pc == pc
            && (r.gen.vm != NONE ==> r.gen.vm !in s2.t.runners)
            && s2.t.fleet.runners == s.t.fleet.runners - (if r.gen.vm != NONE then 1 else 0)
  {
    hide Prepare;
    PreparedFields(Apply(ReleaseClaim(id), cfg, s.now, Before(s, id), s.t.fleet).r, s.now);
  }
}
