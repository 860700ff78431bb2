/** The deletion a completed delivery asks for: owed until it is done. */
module Debts {
  import opened Types
  import opened Records
  import opened Transactions
  import opened Callbacks
  import opened Ledger
  import opened Protocol
  import opened Transitions
  import opened Fields
  import opened Standing
  import opened Invariant
  import opened Safety

  /** The job is over and owes the deletion of this runner, and is due for it. */
  predicate OwesDeletion(t: Tables, key: Id, n: Id) {
    && key in t.jobs
    && var r := t.jobs[key];
    && r.pendingDelete == n && r.terminal && r.needsReconcile && r.nextActionAt != NEVER && r.expiresAt == NEVER
  }

  /** What pays the debt, or puts another in its place. */
  predicate Pays(a: Action, key: Id, n: Id) {
    match a
    case DeleteRecorded(k, name) => k == key && name == n
    case Intake(k, job, _, completed, owned) => k == key && completed && owned && job.runner != n
    case _ => false
  }

  /** No callback forgets what is owed. */
  lemma ChangeOwes(c: Change, cfg: Config, now: Time, r: Record, f: Fleet)
    requires r.pendingDelete != NONE && c != DeleteDone(r.pendingDelete)
    requires c.Observe? && c.completed && c.owned ==> c.job.runner == r.pendingDelete
    ensures var o := Apply(c, cfg, now, r, f); o.Accept? ==> o.r.pendingDelete == r.pendingDelete
  {
  }

  lemma CallOwes(cfg: Config, t: Tables, now: Time, c: Call, key: Id)
    requires BooksOk(cfg, t) && now > NEVER && Lawful(cfg, t, now, c)
    requires Load(t, key).pendingDelete != NONE
    requires c.CallUpdate? && c.key == key ==>
      && c.change != DeleteDone(Load(t, key).pendingDelete)
      && (c.change.Observe? && c.change.completed && c.change.owned ==>
            c.change.job.runner == Load(t, key).pendingDelete)
    ensures Load(Perform(cfg, t, now, c), key).pendingDelete == Load(t, key).pendingDelete
  {
    hide Update, Detach, Adopt, RememberRunnerId, BooksOk, RecordOk, Admissible, Owes, Apply;
    match c {
      case CallUpdate(k, capacity, change) =>
        if Update(t, cfg, now, k, capacity, change).Committed? {
          Stored(cfg, t, now, k, capacity, change);
          if k == key { ChangeOwes(change, cfg, now, Load(t, k), Counts(t, capacity)); }
        }
      case CallDetach(k, token, spare, due) =>
        if Detach(t, now, k, token, spare, due).Committed? { Detached(cfg, t, now, k, token, spare, due); }
      case CallAdopt(k, token, names) =>
        if Adopt(t, now, k, token, names).Committed? {
          Adopted(cfg, t, now, k, token, names);
          LoadFiled(cfg, t, key);
          DebtorsAreOver(cfg, t, key);
        }
      case CallRemember(name, id) => if RememberRunnerId(t, name, id).Committed? { Remembered(cfg, t, name, id); }
      case _ =>
    }
  }

  lemma DebtorsAreOver(cfg: Config, t: Tables, key: Id)
    requires BooksOk(cfg, t) && Load(t, key).pendingDelete != NONE
    ensures OwesDeletion(t, key, Load(t, key).pendingDelete)
  {
    LoadFiled(cfg, t, key);
  }

  lemma StepOwes(cfg: Config, s: System, a: Action, key: Id, n: Id)
    requires AllStand(cfg, s) && Enabled(cfg, s, a) && OwesDeletion(s.t, key, n) && n != NONE && !Pays(a, key, n)
    ensures Load(Step(cfg, s, a).t, key).pendingDelete == n
  {
    hide BooksOk, Step, Enabled, Perform, Lawful, EvidenceOk, DeletingOk, WorkerStands, WorkCall, CallOf;
    StepCalls(cfg, s, a);
    StepLawful(cfg, s, a);
    CallsThatPay(cfg, s, a, key, n);
    CallOwes(cfg, s.t, s.now, CallOf(cfg, s, a), key);
  }

  lemma CallsThatPay(cfg: Config, s: System, a: Action, key: Id, n: Id)
    requires !Pays(a, key, n)
    ensures var c := CallOf(cfg, s, a);
            c.CallUpdate? && c.key == key ==>
              && c.change != DeleteDone(n)
              && (c.change.Observe? && c.change.completed && c.change.owned ==> c.change.job.runner == n)
  {
  }

  // ----- over runs

  /** A completed delivery that names a runner of the fleet leaves its deletion owed. */
  lemma DeliveryOwes(cfg: Config, s: System, key: Id, job: Job, source: Id)
    requires Inv(cfg, s) && Enabled(cfg, s, Intake(key, job, source, true, true))
    ensures Load(Step(cfg, s, Intake(key, job, source, true, true)).t, key).pendingDelete == job.runner != NONE
  {
    hide AllStand, FleetOk, RowsFit, MemoryOk, WorkerFits, Prepare;
    var c := Observe(job, source, true, true);
    PrepareBounds(Apply(c, cfg, s.now, Load(s.t, key), Fleet(0, 0, 0)).r, s.now);
    NoneIsNotDrawn(cfg, s);
  }

  lemma NoneIsNotDrawn(cfg: Config, s: System)
    requires AllStand(cfg, s)
    ensures NONE !in s.nonces
  {
  }

  /** And owed it stays, with the job due for it, until it is done or another completed
      delivery names another runner. */
  lemma {:induction false} OwedUntilPaid(cfg: Config, run: seq<System>, acts: seq<Action>, i: nat, j: nat, key: Id,
      job: Job, source: Id)
    requires IsRun(cfg, run, acts) && i < j < |run| && ActionAt(acts, i) == Intake(key, job, source, true, true)
    requires forall m :: i < m < j ==> !Pays(ActionAt(acts, m), key, job.runner)
    ensures OwesDeletion(StateAt(run, j).t, key, job.runner) && job.runner != NONE
  {
    hide Enabled, Step, Inv, AllStand, OwesDeletion, BooksOk;
    RunStands(cfg, run, acts, j - 1);
    RunStands(cfg, run, acts, j);
    if i + 1 == j {
      RunKeeps(cfg, run, acts, i);
      DeliveryOwes(cfg, StateAt(run, i), key, job, source);
    } else {
      OwedUntilPaid(cfg, run, acts, i, j - 1, key, job, source);
      StepOwes(cfg, StateAt(run, j - 1), ActionAt(acts, j - 1), key, job.runner);
    }
    BooksStand(cfg, StateAt(run, j));
    DebtorsAreOver(cfg, StateAt(run, j).t, key);
  }

  /** Meanwhile every task sent for the job is one to delete that runner, and one is sent
      whenever nothing stands in its way. */
  lemma TaskCarriesDebt(cfg: Config, run: seq<System>, acts: seq<Action>, i: nat, j: nat, key: Id, job: Job, source: Id,
      token: Id, delay: Time)
    requires IsRun(cfg, run, acts) && i < j < |acts| && ActionAt(acts, i) == Intake(key, job, source, true, true)
    requires forall m :: i < m < j ==> !Pays(ActionAt(acts, m), key, job.runner)
    requires ActionAt(acts, j) == Action.Dispatch(key, token, delay)
    ensures var s, s2 := StateAt(run, j), StateAt(run, j + 1);
            && (token in s2.payloads ==> token in s.payloads || s2.Task(token) == Payload(key, Some(job.runner)))
            && (Sendable(Load(s.t, key), s.now, delay) ==> s2.Task(token) == Payload(key, Some(job.runner)))
  {
    hide Step, Enabled, Pays;
    OwedUntilPaid(cfg, run, acts, i, j, key, job, source);
    DispatchSends(cfg, StateAt(run, j), key, token, delay);
  }

  /** A task is sent exactly when the job is to be looked at and nothing stands in the way;
      it is one to delete the runner whose deletion is owed, if one is, and else to create. */
  lemma DispatchSends(cfg: Config, s: System, key: Id, token: Id, delay: Time)
    ensures var r, s2 := Load(s.t, key), Step(cfg, s, Action.Dispatch(key, token, delay));
            var task := Payload(key, if r.pendingDelete != NONE then Some(r.pendingDelete) else None);
            if r.needsReconcile && Sendable(r, s.now, delay) then s2.payloads == s.payloads[token := task]
            else s2.payloads == s.payloads
  {
    hide Update;
  }

  /** The delivery of such a task, while its marker stands, starts the deletion; that of any
      other starts a create callback. */
  lemma DeliveryStarts(cfg: Config, s: System, token: Id)
    requires token in s.payloads && token != NONE && Load(s.t, s.Task(token).key).dispatch.token == token
    ensures var s2 := Step(cfg, s, StartTask(token));
            var key := s.Task(token).key;
            match s.Task(token).deletes
            case Some(n) => s2.deletions == s.deletions + {(key, n)} && s2.starts == s.starts
            case None => s2.starts == s.starts + {Start(key, token, s.now)} && s2.deletions == s.deletions
  {
    hide Prepare;
  }

  /** Recording the deletion pays the debt, if it is of this runner, and releases the job's
      claim, if it is on this runner. */
  lemma DeletionIsRecorded(cfg: Config, s: System, key: Id, n: Id)
    requires n != NONE
    ensures var r, t2 := Load(s.t, key), Step(cfg, s, DeleteRecorded(key, n)).t;
            var r2 := Load(t2, key);
            && r2.pendingDelete == (if r.pendingDelete == n then NONE else r.pendingDelete)
            && r2.gen == (if r.gen.vm == n then NoGeneration(r.gen.machine) else r.gen)
            && (r.gen.vm == n ==> n !in t2.runners && t2.fleet.runners == s.t.fleet.runners - 1)
            && (r.gen.vm != n ==> t2.fleet == s.t.fleet)
  {
    hide Prepare;
    PrepareBounds(Apply(DeleteDone(n), cfg, s.now, Load(s.t, key), s.t.fleet).r, s.now);
  }
}
