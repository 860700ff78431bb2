/** Which runners the next job of a pool may adopt: those found idle, and no others. */
module Advertising {
  import opened Types
  import opened Records
  import opened Transactions
  import opened Ledger
  import opened Protocol
  import opened Transitions
  import opened Standing

  predicate Advertised(t: Tables, n: Id) {
    n in t.runners && t.runners[n].available
  }

  /** Only detaching as spare advertises a runner, and a deferral that asks for it. */
  lemma CallAdvertises(cfg: Config, t: Tables, now: Time, c: Call, n: Id)
    requires BooksOk(cfg, t) && now > NEVER && Lawful(cfg, t, now, c)
    requires Advertised(Perform(cfg, t, now, c), n) && !Advertised(t, n)
    ensures
      || (c.CallDetach? && c.spare && LeaseHeld(Load(t, c.key), c.token, now) && Load(t, c.key).gen.vm == n != NONE)
      || (c.CallDefer? && c.name == n && c.available)
  {
    hide Apply, Prepare, BooksOk;
  }

  /** And only being adopted, an assignment, a release or another deferral ends it. */
  lemma CallWithdraws(cfg: Config, t: Tables, now: Time, c: Call, n: Id)
    requires BooksOk(cfg, t) && now > NEVER && Lawful(cfg, t, now, c)
    requires Advertised(t, n) && !Advertised(Perform(cfg, t, now, c), n)
    ensures
      || (c.CallAdopt? && n in c.names && (n in t.evidence || Load(Perform(cfg, t, now, c), c.key).gen.vm == n))
      || (c.CallAssign? && c.name == n)
      || (c.CallRelease? && c.name == n)
      || (c.CallDefer? && c.name == n && !(c.available && !t.runners[n].rec.terminal && n !in t.evidence))
  {
    hide Update, Adopt, Detach, BooksOk;
    match c {
      case CallUpdate(key, capacity, change) =>
        if Update(t, cfg, now, key, capacity, change).Committed? {
          RowsAfterUpdate(cfg, t, now, key, capacity, change, n);
          UnownedIsFree(cfg, t, n);
        }
      case CallDetach(key, token, spare, due) =>
        if Detach(t, now, key, token, spare, due).Committed? {
          Detached(cfg, t, now, key, token, spare, due);
          UnownedIsFree(cfg, t, n);
        }
      case CallAdopt(key, token, names) =>
        if Adopt(t, now, key, token, names).Committed? { AdoptWithdraws(cfg, t, now, key, token, names, n); }
      case _ =>
    }
  }

  lemma UnownedIsFree(cfg: Config, t: Tables, n: Id)
    requires BooksOk(cfg, t) && Advertised(t, n)
    ensures t.runners[n].owner == NONE && n != NONE && NONE !in t.jobs
  {
  }

  lemma AdoptWithdraws(cfg: Config, t: Tables, now: Time, key: Id, token: Id, names: seq<Id>, n: Id)
    requires Adopt(t, now, key, token, names).Committed? && Advertised(t, n)
    requires BooksOk(cfg, t) && forall m :: m in names ==> m in t.runners && t.runners[m].available
    ensures var t2 := Adopt(t, now, key, token, names).t;
            Advertised(t2, n) || (n in names && (n in t.evidence || Load(t2, key).gen.vm == n))
  {
    hide Prepare, BooksOk;
    if FirstFree(t.evidence, names) == Some(n) {
      PrepareKeepsClaim(AdoptedFrom(t, key, n, now), now);
      VmOfRow(cfg, t, n);
    }
  }

  function AdoptedFrom(t: Tables, key: Id, n: Id, now: Time): Record {
    var r := Load(t, key);
    RowOf(t, n).rec.(job := r.job, source := r.source, lease := r.lease, seenAt := r.seenAt, terminal := false,
                     pendingDelete := NONE, dispatch := r.dispatch, failure := NONE, nextActionAt := now)
  }

  lemma VmOfRow(cfg: Config, t: Tables, n: Id)
    requires BooksOk(cfg, t) && n in t.runners
    ensures t.runners[n].rec.gen.vm == n
  {
  }

  // ----- the steps

  /** The steps that advertise a runner. */
  ghost predicate Advertises(s: System, a: Action, n: Id) {
    match a
    case Work(id, act) =>
      act.DetachOwn? && id in s.workers && s.At(id).pc == AtDetach(true) && s.At(id).r.gen.vm == n
    case DeferRow(name, _, available) => name == n && available
    case _ => false
  }

  lemma StepAdvertises(cfg: Config, s: System, a: Action, n: Id)
    requires AllStand(cfg, s) && Enabled(cfg, s, a)
    requires Advertised(Step(cfg, s, a).t, n) && !Advertised(s.t, n)
    ensures Advertises(s, a, n)
  {
    hide BooksOk, Step, Enabled, Perform, Lawful, EvidenceOk, DeletingOk;
    StepCalls(cfg, s, a);
    StepLawful(cfg, s, a);
    CallAdvertises(cfg, s.t, s.now, CallOf(cfg, s, a), n);
    CallsToAdvertise(cfg, s, a, n);
  }

  lemma CallsToAdvertise(cfg: Config, s: System, a: Action, n: Id)
    requires AllStand(cfg, s) && Enabled(cfg, s, a)
    requires var c := CallOf(cfg, s, a);
             || (&& c.CallDetach? && c.spare && LeaseHeld(Load(s.t, c.key), c.token, s.now)
                 && Load(s.t, c.key).gen.vm == n != NONE)
             || (c.CallDefer? && c.name == n && c.available)
    ensures Advertises(s, a, n)
  {
    hide BooksOk, Answerable, MayAnswer, ShouldRemove;
  }

  /** The steps that take a runner off the market. */
  ghost predicate Withdraws(s: System, s2: System, a: Action, n: Id) {
    match a
    case Work(id, TryAdopt(_, names)) => n in names && (n in s.t.evidence || Load(s2.t, s.At(id).key).gen.vm == n)
    case Assign(_, name, _) => name == n
    case ReleaseRow(name) => name == n
    case DeferRow(name, _, asked) => name == n && !(asked && !RowOf(s.t, n).rec.terminal && n !in s.t.evidence)
    case _ => false
  }

  /** An advertised runner stays so until it is adopted, an assignment names it, its row is
      released, or it is put off for another reason than being idle. */
  lemma StepWithdraws(cfg: Config, s: System, a: Action, n: Id)
    requires AllStand(cfg, s) && Enabled(cfg, s, a)
    requires Advertised(s.t, n) && !Advertised(Step(cfg, s, a).t, n)
    ensures Withdraws(s, Step(cfg, s, a), a, n)
  {
    hide BooksOk, Step, Enabled, Perform, Lawful, EvidenceOk, DeletingOk, WorkerStands;
    StepCalls(cfg, s, a);
    StepLawful(cfg, s, a);
    CallWithdraws(cfg, s.t, s.now, CallOf(cfg, s, a), n);
  }

  /** Whoever is adopted was advertised, in the pool that was asked for. */
  lemma AdoptedFromPool(cfg: Config, s: System, id: Id, pool: Pool, names: seq<Id>, n: Id)
    requires AllStand(cfg, s) && WorkEnabled(s, id, TryAdopt(pool, names))
    requires var t2 := WorkStep(cfg, s, id, TryAdopt(pool, names)).t;
             n in s.t.runners && n in t2.runners && RowOf(s.t, n).owner == NONE && RowOf(t2, n).owner != NONE
    ensures RowOf(s.t, n).available && RowOf(s.t, n).pool == pool && n !in s.t.evidence
    ensures RowOf(WorkStep(cfg, s, id, TryAdopt(pool, names)).t, n).owner == s.At(id).key
  {
    hide BooksOk, Prepare, WorkerStands, EvidenceOk, DeletingOk;
  }

  // ----- what a detached and a deferred runner's row says

  /** Detaching under the lease frees the job and leaves the runner to a row of its own,
      due in two minutes, in the pool of its job, and advertised exactly if it is spare and
      no assignment names it. */
  lemma HandedOn(cfg: Config, s: System, id: Id)
    requires AllStand(cfg, s) && WorkEnabled(s, id, DetachOwn) && LeaseHeld(Load(s.t, s.At(id).key), id, s.now)
    requires Load(s.t, s.At(id).key).gen.vm != NONE
    ensures var r, t2 := Load(s.t, s.At(id).key), WorkStep(cfg, s, id, DetachOwn).t;
            var row := RowOf(t2, r.gen.vm);
            && r.gen.vm in t2.runners && row.owner == NONE && row.rec == r && row.pool == PoolOf(r.source, r.job)
            && (row.available <==> s.At(id).pc == AtDetach(true) && r.gen.vm !in s.t.evidence)
            && row.nextActionAt == s.now + 2 * MINUTE && Load(t2, s.At(id).key).gen == NoGeneration(r.gen.machine)
  {
    hide BooksOk, HolderFits, Prepare;
    Stands(cfg, s, id);
    var r := Load(s.t, s.At(id).key);
    PrepareKeepsClaim(Unclaimed(r, s.now).(nextActionAt := s.now + 30), s.now);
  }

  /** A deferral reschedules an unowned row and advertises its runner exactly if that was
      asked, the job of its record is open and no assignment names it. */
  lemma PutOff(cfg: Config, s: System, n: Id, due: Time, asked: bool)
    requires n in s.t.runners && RowOf(s.t, n).owner == NONE
    ensures var row, row2 := RowOf(s.t, n), RowOf(Step(cfg, s, DeferRow(n, due, asked)).t, n);
            && n in Step(cfg, s, DeferRow(n, due, asked)).t.runners
            && row2 == row.(nextActionAt := due, available := row2.available)
            && (row2.available <==> asked && !row.rec.terminal && n !in s.t.evidence)
  {
  }

  // ----- over runs

  /** The callback's own check found this runner idle, and its job open. */
  ghost predicate FoundIdle(run: seq<System>, acts: seq<Action>, i: nat, id: Id, n: Id) {
    exists j: nat :: j < i && IdleAt(StateAt(run, j), ActionAt(acts, j), id, n)
  }

  ghost predicate IdleAt(s: System, a: Action, id: Id, n: Id) {
    a == Work(id, AskRegistration(Idle)) && s.At(id).r.gen.vm == n && !s.At(id).r.terminal && !Assigned(s.t, n)
  }

  /** Who is about to detach its runner as spare has just found it idle. */
  lemma SpareWasIdle(cfg: Config, s: System, a: Action, id: Id)
    requires Enabled(cfg, s, a) && id in Step(cfg, s, a).workers && Step(cfg, s, a).At(id).pc == AtDetach(true)
    ensures var w2 := Step(cfg, s, a).At(id);
            (id in s.workers && s.At(id) == w2) || IdleAt(s, a, id, w2.r.gen.vm)
  {
    hide Step, WorkStep, ShouldRemove, LeaseEnd;
    StepWorkers(cfg, s, a);
    if ActsFor(a, id) {
      WorkStepGoes(cfg, s, id, a.act);
      if a.act.AskRegistration? { AskingKeepsSnapshot(cfg, s, id, a.act.reg); }
    }
  }

  lemma AskingKeepsSnapshot(cfg: Config, s: System, id: Id, reg: Registration)
    ensures WorkStep(cfg, s, id, AskRegistration(reg)).At(id).r == s.At(id).r
  {
    hide AfterRegistration;
  }

  lemma {:induction false} SparesWereIdle(cfg: Config, run: seq<System>, acts: seq<Action>, i: nat, id: Id)
    requires IsRun(cfg, run, acts) && i < |run|
    requires id in StateAt(run, i).workers && StateAt(run, i).At(id).pc == AtDetach(true)
    ensures FoundIdle(run, acts, i, id, StateAt(run, i).At(id).r.gen.vm)
  {
    hide Enabled, Step, IdleAt;
    if i > 0 {
      SpareWasIdle(cfg, StateAt(run, i - 1), ActionAt(acts, i - 1), id);
      if !IdleAt(StateAt(run, i - 1), ActionAt(acts, i - 1), id, StateAt(run, i).At(id).r.gen.vm) {
        SparesWereIdle(cfg, run, acts, i - 1, id);
      }
    }
  }

  /** A runner is advertised only by the sweep that asked for it, or by a callback whose own
      check, for an open job, had found it idle and unassigned. */
  lemma AdvertisedWasIdle(cfg: Config, run: seq<System>, acts: seq<Action>, i: nat, n: Id)
    requires IsRun(cfg, run, acts) && i < |acts|
    requires Advertised(StateAt(run, i + 1).t, n) && !Advertised(StateAt(run, i).t, n)
    ensures var a := ActionAt(acts, i);
            || (a.DeferRow? && a.name == n && a.available)
            || (a.Work? && a.act.DetachOwn? && FoundIdle(run, acts, i, a.id, n))
  {
    hide Enabled, Step, AllStand, Advertised, IdleAt;
    RunStands(cfg, run, acts, i);
    StepAdvertises(cfg, StateAt(run, i), ActionAt(acts, i), n);
    if ActionAt(acts, i).Work? { SparesWereIdle(cfg, run, acts, i, ActionAt(acts, i).id); }
  }
}
