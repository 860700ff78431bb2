/** The store as the source writes it: transactions that read documents into local
    records, assign fields, and write back; proved against Transactions. */
module DocumentStore {
  import opened Types
  import opened Records
  import opened Transactions
  import opened DispatchWindow
  import opened Ledger

  /** The local copies of one transaction, r and f in the source's callbacks. */
  class Draft {
    var r: Record
    var f: Fleet

    constructor (r: Record, f: Fleet)
      ensures this.r == r && this.f == f
    {
      this.r, this.f := r, f;
    }

    method PrepareRecord(now: Time)
      modifies `r
      ensures r == Prepare(old(r), now)
    {
      r := r.(needsReconcile := (r.failure == NONE && !r.terminal) || r.gen.vm != NONE || r.pendingDelete != NONE);
      if r.needsReconcile {
        r := r.(expiresAt := NEVER);
        if r.nextActionAt == NEVER { r := r.(nextActionAt := now); }
        if r.dispatch.until > r.nextActionAt { r := r.(nextActionAt := r.dispatch.until); }
      } else if r.terminal && r.gen.vm == NONE && r.pendingDelete == NONE {
        if r.expiresAt == NEVER { r := r.(expiresAt := now + WEEK); }
      }
    }

    method ReleaseReservation(now: Time)
      modifies this
      ensures r == Unclaimed(old(r), now) && f == Uncounted(old(r), old(f))
    {
      if r.gen.vm != NONE {
        f := f.(runners := f.runners - 1);
        if r.gen.model == Standard { f := f.(standard := f.standard - 1); }
      }
      r := r.(gen := r.gen.(vm := NONE, zone := NONE, model := NoModel, jit := NONE));
      r := r.(gen := r.gen.(createdAt := NEVER));
      r := r.(gen := r.gen.(operation := NONE));
      r := r.(gen := r.gen.(template := NONE));
      r := r.(gen := r.gen.(jitIssuedAt := NEVER));
      r := r.(runnerId := NONE);
      r := r.(gen := r.gen.(attemptedAt := NEVER));
      if r.terminal && r.pendingDelete == NONE { r := r.(expiresAt := now + WEEK); }
    }

    method ClearAttempt()
      modifies this
      ensures Records.ClearAttempt(old(r), old(f)) == Accept(r, f)
    {
      if r.gen.model == Standard { f := f.(standard := f.standard - 1); }
      r := r.(gen := r.gen.(zone := NONE, model := NoModel, operation := NONE, template := NONE));
    }

    /** The callback of observe. */
    method Observe(cfg: Config, now: Time, job: Job, source: Id, completed: bool, owned: bool)
      modifies `r
      ensures r == DoObserve(Records.Change.Observe(job, source, completed, owned), cfg, now, old(r))
    {
      var changed := r.job.status != job.status || (!r.terminal && completed);
      if !r.terminal || completed { r := r.(job := job); }
      if r.source == NONE || r.source !in cfg.sources { r := r.(source := source); }
      if completed && owned {
        r := r.(pendingDelete := job.runner);
        r := r.(expiresAt := NEVER);
      }
      r := r.(terminal := r.terminal || completed);
      if changed {
        r := r.(nextActionAt := now);
        r := r.(dispatch := r.dispatch.(until := NEVER));
        r := r.(dispatch := r.dispatch.(token := NONE));
      }
      if r.seenAt == NEVER { r := r.(seenAt := now); }
      if r.terminal && r.gen.vm == NONE && r.pendingDelete == NONE { r := r.(expiresAt := now + WEEK); }
    }

    /** The callback of finishTask. */
    method Finish(cfg: Config, now: Time, token: Id, err: WorkError)
      requires !err.Contended?
      modifies this
      ensures DoFinish(Records.Change.Finish(token, err), cfg, now, old(r), old(f)) == Accept(r, f)
    {
      if token != NONE && token != r.dispatch.token { return; }
      var transient := err.Transient?;
      if !transient {
        r := r.(dispatch := r.dispatch.(until := NEVER));
        r := r.(dispatch := r.dispatch.(token := NONE));
      }
      if !transient { r := r.(nextActionAt := now + 2 * MINUTE); }
      if err.NoError? && r.job.status == InProgress { r := r.(nextActionAt := now + 10 * MINUTE); }
      if err.RetryAt? { r := r.(nextActionAt := err.until); }
      if err.Permanent? {
        if r.gen.zone == NONE && r.gen.vm != NONE { ReleaseReservation(now); }
        r := r.(failure := err.message);
        r := r.(nextActionAt := now + 60 * MINUTE);
      }
    }

    /** The callback of deleteRunner. */
    method DeleteDone(cfg: Config, now: Time, name: Id)
      modifies this
      ensures DoDeleteDone(name, now, old(r), old(f)) == Accept(r, f)
    {
      if r.pendingDelete == name { r := r.(pendingDelete := NONE); }
      if r.gen.vm == name { ReleaseReservation(now); }
      if r.terminal && r.gen.vm == NONE && r.pendingDelete == NONE { r := r.(expiresAt := now + WEEK); }
    }

    /** The callback of the creation loop. */
    method SaveAttempt(cfg: Config, now: Time, a: Attempt) returns (err: Option<Failure>)
      modifies this
      ensures match DoSaveAttempt(a, cfg, now, old(r), old(f))
              case Reject(_, _, e) => err == Some(e)
              case Accept(r1, f1) => err == None && r == r1 && f == f1
    {
      if r.terminal { return Some(JobCompleted); }
      if a.model == Standard && r.gen.model != Standard {
        if f.standard >= cfg.maxStandard { return Some(FleetFull); }
        f := f.(standard := f.standard + 1);
      }
      if a.model != Standard && r.gen.model == Standard { f := f.(standard := f.standard - 1); }
      r := r.(gen := r.gen.(zone := a.zone, model := a.model, machine := a.machine));
      if r.gen.template == NONE { r := r.(gen := r.gen.(attemptedAt := now)); }
      r := r.(gen := r.gen.(template := a.template));
      return None;
    }

    /** mutate, mutateJob and the bare callbacks: the fence, then the change. */
    method RunChange(c: Change, cfg: Config, now: Time) returns (err: Option<Failure>)
      modifies this
      ensures match Apply(c, cfg, now, old(r), old(f))
              case Reject(_, _, e) => err == Some(e)
              case Accept(r1, f1) => err == None && r == r1 && f == f1
    {
      err := None;
      if NeedsFence(c) && (r.lease.holder != c.token || !(now < r.lease.until)) { return Some(LeaseBusy); }
      match c {
        case Observe(job, source, completed, owned) => Observe(cfg, now, job, source, completed, owned);
        case Claim(token) =>
          if r.job.id == NONE { return Some(UnknownJob); }
          if r.lease.holder != NONE && now < r.lease.until { return Some(LeaseBusy); }
          r := r.(lease := Lease(token, now + cfg.taskTimeout + 60));
        case SaveStatus(_, seen) =>
          if !r.terminal && seen.Some? {
            r := r.(job := r.job.(status := seen.value));
            r := r.(terminal := seen.value == Completed);
          }
        case Reread(_) =>
        case ReleaseClaim(_) => ReleaseReservation(now);
        case KeepRunning(_) =>
          if r.gen.createdAt == NEVER { r := r.(gen := r.gen.(createdAt := now)); }
          r := r.(nextActionAt := now + 2 * MINUTE);
        case ForgetAttempt(_) => ClearAttempt();
        case SaveDemand(_, status) =>
          if !r.terminal { r := r.(job := r.job.(status := status)); }
          r := r.(nextActionAt := now + 10 * MINUTE);
        case Reserve(_, name) =>
          if r.terminal { return None; }
          if f.runners >= cfg.maxRunners { return Some(FleetFull); }
          r := r.(gen := r.gen.(vm := name));
          r := r.(expiresAt := NEVER);
          f := f.(runners := f.runners + 1);
        case SaveJit(_, jit) => r := r.(gen := r.gen.(jit := jit, jitIssuedAt := now));
        case SaveAttempt(_, a) => err := SaveAttempt(cfg, now, a);
        case SaveOperation(_, operation) => r := r.(gen := r.gen.(operation := operation));
        case MarkCreated(_) =>
          r := r.(gen := r.gen.(createdAt := now));
          r := r.(nextActionAt := now + 2 * MINUTE);
        case DropLease(_) => r := r.(lease := r.lease.(holder := NONE));
        case Enqueue(token, delay) =>
          if !r.needsReconcile || r.dispatch.until > now || (r.lease.holder != NONE
              && r.lease.until > now) { return None; }
          if r.nextActionAt > now + delay { return None; }
          r := r.(dispatch := r.dispatch.(token := token));
          r := r.(dispatch := r.dispatch.(until := now + delay + WindowOf(cfg)));
        case EnqueueFailed(token) =>
          if r.dispatch.token == token {
            r := r.(dispatch := r.dispatch.(until := NEVER));
            r := r.(nextActionAt := now + MINUTE);
          }
        case CheckActive(token) =>
          if token == NONE || r.dispatch.token != token { return Some(TaskObsolete); }
        case Finish(token, e) => if !e.Contended? { Finish(cfg, now, token, e); }
        case DeleteDone(name) => DeleteDone(cfg, now, name);
        case Recreate(name) =>
          var valid := !r.terminal && r.gen.vm == name && name != NONE;
          var due := now + RECREATE_DELAY;
          if valid && r.nextActionAt > due { r := r.(nextActionAt := due); }
      }
    }
  }

  // ----- candidate search of Adopt

  datatype Candidate = Candidate(row: Row, taken: bool)

  lemma {:induction false} FirstFreeSnoc(evidence: map<Id, Evidence>, names: seq<Id>, n: Id)
    ensures FirstFree(evidence, names + [n]) ==
            if FirstFree(evidence, names).Some? then FirstFree(evidence, names)
            else if n !in evidence then Some(n) else None
  {
    if names == [] {
      assert [] + [n] == [n];
    } else {
      assert (names + [n])[1..] == names[1..] + [n];
      FirstFreeSnoc(evidence, names[1..], n);
    }
  }

  lemma NothingWithdrawn(t: Tables)
    ensures Withdrawn(t, []) == t.runners
  {
  }

  lemma NoneFree(evidence: map<Id, Evidence>)
    ensures FirstFree(evidence, []).None?
  {
  }

  lemma WithdrawnSnoc(t: Tables, names: seq<Id>, n: Id)
    requires n in t.runners
    ensures var rows := Withdrawn(t, names);
            && n in rows
            && Withdrawn(t, names + [n]) == if n in t.evidence then rows[n := rows[n].(available := false)] else rows
  {
  }

  /** The four collections, with one method per transaction. */
  class Store {
    var jobs: map<Id, Record>
    var runners: map<Id, Row>
    var fleet: Fleet
    var evidence: map<Id, Evidence>

    ghost function Contents(): Tables
      reads this
    {
      Tables(jobs, runners, fleet, evidence)
    }

    constructor ()
      ensures Contents() == EmptyTables()
    {
      jobs, runners, fleet, evidence := map[], map[], Fleet(0, 0, 0), map[];
    }

    /** Update and UpdateJob; a permitted change keeps the ledger's invariant. */
    method Update(cfg: Config, now: Time, key: Id, capacity: bool, c: Change) returns (err: Option<Failure>)
      modifies `jobs, `runners, `fleet
      ensures match Transactions.Update(old(Contents()), cfg, now, key, capacity, c)
              case Aborted(_, e) => err == Some(e) && Contents() == old(Contents())
              case Committed(t) => err == None && Contents() == t
      ensures old(LedgerOk(cfg, Contents())) && now > NEVER && old(Permitted(cfg, Contents(), key, c)) ==>
                LedgerOk(cfg, Contents())
    {
      hide Apply, Prepare, LedgerOk, Permitted;
      ghost var t := Contents();
      var r, counts := BlankRecord(), Fleet(0, 0, 0);
      if key in jobs { r := jobs[key]; }
      var oldName := r.gen.vm;
      if capacity { counts := fleet; }
      var before := counts;
      var draft := new Draft(r, counts);
      err := draft.RunChange(c, cfg, now);
      if err.Some? { return; }
      draft.PrepareRecord(now);
      if draft.f != before && !capacity { return Some(JobOnlyChangedCapacity); }
      r, counts := draft.r, draft.f;
      jobs := jobs[key := r];
      if capacity && oldName != NONE && oldName != r.gen.vm { runners := runners - {oldName}; }
      if r.gen.vm != NONE {
        runners := runners[r.gen.vm := Row(r.gen.vm, key, PoolOf(r.source, r.job), false, NEVER, r)];
      }
      if counts != before {
        counts := counts.(revision := counts.revision + 1);
        fleet := counts;
      }
      if LedgerOk(cfg, t) && now > NEVER && Permitted(cfg, t, key, c) {
        UpdateKeepsLedger(cfg, t, now, key, capacity, c);
      }
    }

    method Detach(cfg: Config, now: Time, key: Id, token: Id, spare: bool, due: Time) returns (err: Option<Failure>)
      modifies `jobs, `runners
      ensures match Transactions.Detach(old(Contents()), now, key, token, spare, due)
              case Aborted(_, e) => err == Some(e) && Contents() == old(Contents())
              case Committed(t) => err == None && Contents() == t
      ensures old(LedgerOk(cfg, Contents())) && now > NEVER ==> LedgerOk(cfg, Contents())
    {
      hide LedgerOk, Prepare;
      ghost var t := Contents();
      if key !in jobs { return Some(NotFound); }
      var r := jobs[key];
      if r.lease.holder != token || now > r.lease.until { return Some(LeaseBusy); }
      if r.gen.vm == NONE { return None; }
      var taken := r.gen.vm in evidence;
      var row := Row(r.gen.vm, NONE, PoolOf(r.source, r.job), spare && !taken, due, r);
      runners := runners[r.gen.vm := row];
      var draft := new Draft(r, Fleet(0, 0, 0));
      draft.ReleaseReservation(now);
      draft.r := draft.r.(nextActionAt := now + 30);
      draft.PrepareRecord(now);
      jobs := jobs[key := draft.r];
      err := None;
      if LedgerOk(cfg, t) && now > NEVER { DetachKeepsLedger(cfg, t, now, key, token, spare, due); }
    }

    /** names is the answer of the pool query; every candidate is read, then every
        assignment, before the first write. */
    method Adopt(cfg: Config, now: Time, key: Id, token: Id, names: seq<Id>)
        returns (adopted: bool, err: Option<Failure>)
      requires forall n :: n in names ==> n in runners && runners[n].available && runners[n].name == n
      modifies `jobs, `runners
      ensures match Transactions.Adopt(old(Contents()), now, key, token, names)
              case Aborted(_, e) => err == Some(e) && Contents() == old(Contents())
              case Committed(t) => err == None && Contents() == t
      ensures adopted <==> old(key in jobs && LeaseHeld(jobs[key], token, now) && !jobs[key].terminal
                               && jobs[key].gen.vm == NONE && FirstFree(evidence, names).Some?)
      ensures old(LedgerOk(cfg, Contents())) && now > NEVER ==> LedgerOk(cfg, Contents())
    {
      hide Prepare, LedgerOk;
      ghost var t := Contents();
      adopted := false;
      if key !in jobs { return false, Some(NotFound); }
      var r := jobs[key];
      if r.lease.holder != token || now > r.lease.until { return false, Some(LeaseBusy); }
      if r.terminal || r.gen.vm != NONE { return false, None; }
      var candidates := ReadCandidates(names);
      var chosen := Choose(candidates, names);
      err := None;
      if chosen.Some? {
        var row := candidates[chosen.value].row;
        var draft := new Draft(row.rec, Fleet(0, 0, 0));
        draft.r := draft.r.(job := r.job, source := r.source, lease := r.lease, seenAt := r.seenAt);
        draft.r := draft.r.(terminal := false, pendingDelete := NONE);
        draft.r := draft.r.(dispatch := r.dispatch, failure := NONE, nextActionAt := now);
        draft.PrepareRecord(now);
        row := row.(owner := key, available := false, rec := draft.r);
        runners := runners[row.name := row];
        jobs := jobs[key := draft.r];
        adopted := true;
      }
      if LedgerOk(cfg, t) && now > NEVER { AdoptKeepsLedger(cfg, t, now, key, token, names); }
    }

    /** The writing loop of Adopt: candidates assigned meanwhile leave the pool, and
        the first of the others is chosen. */
    method Choose(candidates: seq<Candidate>, ghost names: seq<Id>) returns (chosen: Option<nat>)
      requires |candidates| == |names|
      requires forall i :: 0 <= i < |names| ==>
                 names[i] in runners && candidates[i] == Candidate(runners[names[i]], names[i] in evidence)
                 && runners[names[i]].name == names[i]
      modifies `runners
      ensures runners == Withdrawn(old(Contents()), names)
      ensures chosen.None? <==> FirstFree(evidence, names).None?
      ensures chosen.Some? ==> chosen.value < |names| && FirstFree(evidence, names) == Some(names[chosen.value])
    {
      hide Withdrawn, FirstFree;
      ghost var t := Contents();
      assert Withdrawn(t, []) == runners by { NothingWithdrawn(t); }
      assert FirstFree(evidence, []).None? by { NoneFree(evidence); }
      chosen := None;
      for i := 0 to |candidates|
        invariant runners == Withdrawn(t, names[..i])
        invariant chosen.None? <==> FirstFree(evidence, names[..i]).None?
        invariant chosen.Some? ==> chosen.value < i && FirstFree(evidence, names[..i]) == Some(names[chosen.value])
      {
        assert names[..i + 1] == names[..i] + [names[i]];
        FirstFreeSnoc(evidence, names[..i], names[i]);
        WithdrawnSnoc(t, names[..i], names[i]);
        if candidates[i].taken {
          runners := runners[candidates[i].row.name := runners[candidates[i].row.name].(available := false)];
        } else if chosen.None? {
          chosen := Some(i);
        }
      }
      assert names[..|names|] == names;
    }

    /** Both reading loops of Adopt. */
    method ReadCandidates(names: seq<Id>) returns (candidates: seq<Candidate>)
      requires forall n :: n in names ==> n in runners && runners[n].name == n
      ensures |candidates| == |names|
      ensures forall i :: 0 <= i < |names| ==> candidates[i] == Candidate(runners[names[i]], names[i] in evidence)
    {
      candidates := [];
      for i := 0 to |names|
        invariant |candidates| == i
        invariant forall j :: 0 <= j < i ==> candidates[j] == Candidate(runners[names[j]], false)
      {
        candidates := candidates + [Candidate(runners[names[i]], false)];
      }
      for i := 0 to |candidates|
        invariant |candidates| == |names|
        invariant forall j :: 0 <= j < i ==> candidates[j] == Candidate(runners[names[j]], names[j] in evidence)
        invariant forall j :: i <= j < |names| ==> candidates[j] == Candidate(runners[names[j]], false)
      {
        candidates := candidates[i := candidates[i].(taken := candidates[i].row.name in evidence)];
      }
    }

    method DeferRunner(cfg: Config, name: Id, due: Time, available: bool)
      modifies `runners
      ensures Contents() == Transactions.DeferRunner(old(Contents()), name, due, available)
      ensures old(LedgerOk(cfg, Contents())) ==> LedgerOk(cfg, Contents())
    {
      ghost var t := Contents();
      if LedgerOk(cfg, t) { DeferKeepsLedger(cfg, t, name, due, available); }
      if name !in runners { return; }
      var row := runners[name];
      if row.owner != NONE { return; }
      row := row.(nextActionAt := due);
      var taken := name in evidence;
      row := row.(available := available && !row.rec.terminal && !taken);
      runners := runners[name := row];
    }

    method ReleaseRunner(cfg: Config, name: Id)
      modifies `runners, `fleet
      ensures Contents() == Transactions.ReleaseRunner(old(Contents()), name)
      ensures old(LedgerOk(cfg, Contents())) ==> LedgerOk(cfg, Contents())
    {
      ghost var t := Contents();
      if LedgerOk(cfg, t) { ReleaseKeepsLedger(cfg, t, name); }
      if name !in runners { return; }
      var row := runners[name];
      if row.owner != NONE { return; }
      var count := fleet;
      count := count.(runners := count.runners - 1);
      if row.rec.gen.model == Standard { count := count.(standard := count.standard - 1); }
      count := count.(revision := count.revision + 1);
      runners := runners - {name};
      fleet := count;
    }

    method RememberRunnerId(cfg: Config, name: Id, id: Id) returns (err: Option<Failure>)
      modifies `jobs, `runners
      ensures match Transactions.RememberRunnerId(old(Contents()), name, id)
              case Aborted(_, e) => err == Some(e) && Contents() == old(Contents())
              case Committed(t) => err == None && Contents() == t
      ensures old(LedgerOk(cfg, Contents())) ==> LedgerOk(cfg, Contents())
    {
      ghost var t := Contents();
      err := None;
      if name !in runners { return; }
      var row := runners[name];
      if row.owner != NONE {
        if row.owner !in jobs { return Some(NotFound); }
        if jobs[row.owner].gen.vm != name { return Some(OwnerDisagrees); }
      }
      row := row.(rec := row.rec.(runnerId := id));
      if row.owner != NONE { jobs := jobs[row.owner := jobs[row.owner].(runnerId := id)]; }
      runners := runners[name := row];
      if LedgerOk(cfg, t) { RememberKeepsLedger(cfg, t, name, id); }
    }

    method RecordAssignment(cfg: Config, now: Time, key: Id, name: Id, job: Job) returns (err: Option<Failure>)
      modifies `runners, `evidence
      ensures match Transactions.RecordAssignment(old(Contents()), now, key, name, job)
              case Aborted(_, e) => err == Some(e) && Contents() == old(Contents())
              case Committed(t) => err == None && Contents() == t
      ensures old(LedgerOk(cfg, Contents())) ==> LedgerOk(cfg, Contents())
    {
      ghost var t := Contents();
      if key !in jobs { return Some(NotFound); }
      var demand := jobs[key];
      var existing := Evidence(NONE, NoJob(), NEVER);
      if name in evidence {
        existing := evidence[name];
        if existing.jobKey != key {
          if job.status == Completed { return None; }
          return Some(ConflictingEvidence);
        }
      }
      var kept := job;
      if demand.terminal || existing.job.status == Completed { kept := kept.(status := Completed); }
      var e := Evidence(key, kept, NEVER);
      if kept.status == Completed { e := e.(expiresAt := now + WEEK); }
      if name in runners { runners := runners[name := runners[name].(available := false)]; }
      evidence := evidence[name := e];
      err := None;
      if LedgerOk(cfg, t) { AssignmentKeepsLedger(cfg, t, now, key, name, job); }
    }
  }
}
