/** Exactly when the two weakly guarded branches are safe. */
module Guards {
  import opened Types
  import opened Records
  import opened Transactions
  import opened Callbacks
  import opened Ledger
  import opened Protocol
  import opened Transitions
  import opened Standing
  import opened Counters
  import opened Invariant
  import opened CloudSteps
  import opened Safety
  import opened Coverage
  import opened Deadlines

  function Last(run: seq<System>): System {
    StateAt(run, |run| - 1)
  }

  lemma Extend(cfg: Config, run: seq<System>, acts: seq<Action>, a: Action)
      returns (run2: seq<System>, acts2: seq<Action>)
    requires Follows(cfg, run, acts) && Enabled(cfg, Last(run), a)
    ensures Follows(cfg, run2, acts2) && run2 == run + [Step(cfg, Last(run), a)] && acts2 == acts + [a]
  {
    hide Enabled, Step;
    run2, acts2 := run + [Step(cfg, Last(run), a)], acts + [a];
    forall i | 0 <= i < |acts2|
      ensures Enabled(cfg, StateAt(run2, i), ActionAt(acts2, i))
      ensures StateAt(run2, i + 1) == Step(cfg, StateAt(run2, i), ActionAt(acts2, i))
    {
      if i < |acts| { assert ActionAt(acts2, i) == ActionAt(acts, i); }
    }
  }

  // ----- finishTask's release

  /** In this state the callback is about to give the reservation of this record back. */
  ghost predicate Releasing(s: System, id: Id, r: Record) {
    && id in s.workers && s.At(id).pc.AtFinish?
    && Load(s.t, s.At(id).key) == r && Releases(Finish(s.At(id).dispatch, ErrorAt(s.At(id).pc)), r)
  }

  /** A continuation from such a state of a checked run, with the release and then
      checked steps only. */
  ghost predicate FromRelease(cfg: Config, r: Record, id: Id, now: Time, run: seq<System>, acts: seq<Action>) {
    var first := StateAt(run, 0);
    && Follows(cfg, run, acts) && |acts| > 0 && ActionAt(acts, 0) == Work(id, FinishTask)
    && AllStand(cfg, first) && Reckoned(cfg, first) && first.now == now && Releasing(first, id, r)
    && (forall i :: 0 < i < |acts| ==> Checked(cfg, StateAt(run, i), ActionAt(acts, i)))
  }

  /** Whatever state of a checked run the callback is in, nothing that happens after its
      release, other releases being checked, parts the counters from the ledger. */
  ghost predicate HarmlessRelease(cfg: Config, r: Record, id: Id, now: Time) {
    forall run, acts :: FromRelease(cfg, r, id, now, run, acts) ==> Counted(Last(run).t)
  }

  lemma {:induction false} StaysReckoned(cfg: Config, run: seq<System>, acts: seq<Action>, i: nat)
    requires Follows(cfg, run, acts) && i < |run| && AllStand(cfg, StateAt(run, 0)) && Reckoned(cfg, StateAt(run, 0))
    requires forall j :: 0 <= j < |acts| ==> Checked(cfg, StateAt(run, j), ActionAt(acts, j))
    ensures AllStand(cfg, StateAt(run, i)) && Reckoned(cfg, StateAt(run, i))
  {
    hide AllStand, Reckoned, Enabled, Step, Checked;
    if i > 0 {
      StaysReckoned(cfg, run, acts, i - 1);
      StepStands(cfg, StateAt(run, i - 1), ActionAt(acts, i - 1));
      StepReckons(cfg, StateAt(run, i - 1), ActionAt(acts, i - 1));
    }
  }

  lemma ReckonedIsCounted(cfg: Config, s: System)
    requires AllStand(cfg, s) && Reckoned(cfg, s)
    ensures Counted(s.t)
  {
    hide WorkerStands, Relies;
  }

  lemma SafeIsHarmless(cfg: Config, r: Record, id: Id, now: Time)
    requires SafeToRelease(r, id, now)
    ensures HarmlessRelease(cfg, r, id, now)
  {
    hide AllStand, Reckoned, Step, Enabled;
    forall run, acts | FromRelease(cfg, r, id, now, run, acts) ensures Counted(Last(run).t) {
      assert Checked(cfg, StateAt(run, 0), ActionAt(acts, 0));
      StaysReckoned(cfg, run, acts, |run| - 1);
      ReckonedIsCounted(cfg, Last(run));
    }
  }

  /** Another callback, inside its lease, is about to save its first attempt, on demand. */
  ghost predicate Saving(cfg: Config, s: System, id: Id, h: Id, a: Attempt) {
    && id in s.workers && h in s.workers && id != h
    && var w, v := s.At(id), s.At(h);
    && v.key == w.key && v.pc == AtAttempt([a]) && v.r.gen.model != Standard
    && var r := Load(s.t, w.key);
    && r.lease.holder == h && s.now < r.lease.until && !r.terminal && r.gen.model != Standard
    && cfg.allowStandard && a.model == Standard
  }

  lemma ReleasedRecord(c: Change, cfg: Config, now: Time, r: Record, f: Fleet)
    requires Releases(c, r) && !r.terminal
    ensures var o := Apply(c, cfg, now, r, f);
            && o.Accept? && o.f == f.(runners := f.runners - 1, standard := f.standard - StandardCount(r.gen.model))
            && o.r.gen == NoGeneration(r.gen.machine) && !o.r.terminal && o.r.lease == r.lease
  {
  }

  /** The counters after a release under another callback's lease. */
  lemma ReleasedUnderLease(cfg: Config, s: System, id: Id, h: Id, a: Attempt)
    requires Saving(cfg, s, id, h, a) && Releasing(s, id, Load(s.t, s.At(id).key))
    ensures WorkEnabled(s, id, FinishTask)
    ensures var s2 := Step(cfg, s, Work(id, FinishTask));
            var key := s.At(id).key;
            && s2.now == s.now && h in s2.workers && s2.At(h) == s.At(h)
            && s2.t.runners == s.t.runners - {Load(s.t, key).gen.vm} && s2.t.fleet.standard == s.t.fleet.standard
            && var r2 := Load(s2.t, key);
            && r2.gen == NoGeneration(r2.gen.machine) && !r2.terminal && r2.lease == Load(s.t, key).lease
  {
    hide Apply, Prepare;
    var w := s.At(id);
    var r := Load(s.t, w.key);
    var c := Finish(w.dispatch, ErrorAt(w.pc));
    ReleasedRecord(c, cfg, s.now, r, s.t.fleet);
    PrepareBounds(Apply(c, cfg, s.now, r, s.t.fleet).r, s.now);
  }

  /** The other callback's attempt is then counted for nobody. */
  lemma SavedForNobody(cfg: Config, s: System, h: Id, a: Attempt)
    requires h in s.workers && s.At(h).pc == AtAttempt([a]) && s.At(h).r.gen.model != Standard
    requires cfg.allowStandard && a.model == Standard && s.t.fleet.standard < cfg.maxStandard
    requires var r := Load(s.t, s.At(h).key);
             && r.lease.holder == h && s.now < r.lease.until && !r.terminal
             && r.gen == NoGeneration(r.gen.machine)
    ensures WorkEnabled(s, h, SaveNext)
    ensures var s2 := Step(cfg, s, Work(h, SaveNext));
            s2.t.runners == s.t.runners && s2.t.fleet.standard == s.t.fleet.standard + 1
  {
    hide Prepare;
    var w := s.At(h);
    var r := Load(s.t, w.key);
    var o := Apply(SaveAttempt(h, a), cfg, s.now, r, s.t.fleet);
    assert o.Accept? && o.f == s.t.fleet.(standard := s.t.fleet.standard + 1) && o.r.gen.vm == NONE;
    PrepareKeepsClaim(o.r, s.now);
  }

  lemma DriftedCounts(t: Tables, t2: Tables, n: Id)
    requires t2.runners == t.runners - {n} && n in t.runners && RowOf(t, n).rec.gen.model != Standard
    requires t.fleet.standard == |StandardNames(t.runners)| && t2.fleet.standard == t.fleet.standard + 1
    ensures !Counted(t2)
  {
    CountDrop(t.runners, n);
  }

  /** A release under the lease of a callback about to save an attempt on demand, and
      then that attempt: the counters part from the ledger. */
  lemma ReleaseUnderLease(cfg: Config, s: System, id: Id, h: Id, a: Attempt)
      returns (run: seq<System>, acts: seq<Action>)
    requires Saving(cfg, s, id, h, a) && Releasing(s, id, Load(s.t, s.At(id).key))
    requires BooksOk(cfg, s.t) && StandardCounted(cfg, s.t) && s.t.fleet.standard < cfg.maxStandard
    ensures Follows(cfg, run, acts) && StateAt(run, 0) == s && acts == [Work(id, FinishTask), Work(h, SaveNext)]
    ensures !Counted(Last(run).t) && Last(run).t.runners == s.t.runners - {Load(s.t, s.At(id).key).gen.vm}
    ensures Last(run).t.fleet.standard == s.t.fleet.standard + 1
  {
    hide Step, WorkEnabled, BooksOk, StandardNames, Releases;
    var key := s.At(id).key;
    ReleasedUnderLease(cfg, s, id, h, a);
    run, acts := Extend(cfg, [s], [], Work(id, FinishTask));
    SavedForNobody(cfg, StateAt(run, 1), h, a);
    run, acts := Extend(cfg, run, acts, Work(h, SaveNext));
    LoadFiled(cfg, s.t, key);
    ReleasedVm(s, id);
    OwnershipIsBijective(cfg, s.t, key, Load(s.t, key).gen.vm);
    DriftedCounts(s.t, Last(run).t, Load(s.t, key).gen.vm);
  }

  lemma ReleasedVm(s: System, id: Id)
    requires Releasing(s, id, Load(s.t, s.At(id).key))
    ensures Load(s.t, s.At(id).key).gen.vm != NONE
  {
  }

  const SOME_JOB: Id := 1

  /** A state in which a release under the lease of another callback does harm: that
      callback works on the one reservation and is about to save an attempt. */
  function Crossing(cfg: Config, r: Record, id: Id, now: Time, a: Attempt): System {
    var h := r.lease.holder;
    var leaving := Worker(SOME_JOB, r.dispatch.token, now, now, r, None, None, None,
                          AtFinish(Permanent(REQUEST_REJECTED)));
    var saving := Worker(SOME_JOB, r.dispatch.token, now, r.lease.until, r, Some(Queued), None, None, AtAttempt([a]));
    System(Tables(map[SOME_JOB := r], map[r.gen.vm := OwnerRow(SOME_JOB, r)], Fleet(1, 0, 0), map[]), now,
           Cloud(map[], {}, {}), map[id := leaving, h := saving], {}, {id, h, r.gen.vm}, map[], {}, {}, map[], {}, {})
  }

  /** A record whose reservation finishTask could give back. */
  predicate Returnable(r: Record) {
    Filed(r) && r.job.id != NONE && r.gen.vm != NONE && r.gen.zone == NONE && r.gen.model != Standard
  }

  lemma CrossingBooks(cfg: Config, r: Record, id: Id, now: Time, a: Attempt)
    requires cfg.Valid() && cfg.allowStandard && Returnable(r)
    ensures BooksOk(cfg, Crossing(cfg, r, id, now, a).t) && Tallied(cfg, Crossing(cfg, r, id, now, a).t)
  {
    var t := Crossing(cfg, r, id, now, a).t;
    NothingStandard(t.runners);
  }

  lemma CrossingStands(cfg: Config, r: Record, id: Id, now: Time, a: Attempt)
    requires cfg.Valid() && cfg.allowStandard && now > NEVER && id != NONE && Returnable(r)
    requires !SafeToRelease(r, id, now) && a.model == Standard
    ensures var s := Crossing(cfg, r, id, now, a);
            && AllStand(cfg, s) && Reckoned(cfg, s) && s.now == now && Releasing(s, id, r)
            && Saving(cfg, s, id, r.lease.holder, a) && s.t.fleet.standard == 0
  {
    hide BooksOk, Tallied;
    CrossingBooks(cfg, r, id, now, a);
  }

  lemma UnsafeIsHarmful(cfg: Config, r: Record, id: Id, now: Time)
    requires cfg.Valid() && cfg.allowStandard && 1 <= cfg.maxStandard && now > NEVER && id != NONE && Returnable(r)
    requires !SafeToRelease(r, id, now)
    ensures !HarmlessRelease(cfg, r, id, now)
  {
    hide Step, Enabled, Returnable, Saving, Crossing, Reckoned, SafeToRelease;
    var a := Attempt(cfg.template, SOME_JOB, Standard, NONE);
    var s := Crossing(cfg, r, id, now, a);
    CrossingStands(cfg, r, id, now, a);
    CrossingBooks(cfg, r, id, now, a);
    var run, acts := ReleaseUnderLease(cfg, s, id, r.lease.holder, a);
    assert FromRelease(cfg, r, id, now, run, acts);
  }

  /** The check is exact: for any record whose reservation finishTask could give back,
      wherever on-demand capacity may be used, asking whether another callback's lease
      is running on an open job tells the harmless releases from the others. */
  lemma ReleaseGuardIsExact(cfg: Config, r: Record, id: Id, now: Time)
    requires cfg.Valid() && cfg.allowStandard && 1 <= cfg.maxStandard && now > NEVER && id != NONE && Returnable(r)
    ensures HarmlessRelease(cfg, r, id, now) <==> SafeToRelease(r, id, now)
  {
    hide HarmlessRelease, SafeToRelease, Returnable;
    if SafeToRelease(r, id, now) { SafeIsHarmless(cfg, r, id, now); } else { UnsafeIsHarmful(cfg, r, id, now); }
  }

  // ----- resolveAttempt's age rule

  /** A run that starts with this submission, and with no other one out of time. */
  ghost predicate FromSubmission(cfg: Config, s: System, id: Id, run: seq<System>, acts: seq<Action>) {
    && Follows(cfg, run, acts) && |acts| > 0 && StateAt(run, 0) == s && ActionAt(acts, 0) == Work(id, Send)
    && (forall i :: 0 < i < |acts| ==> Timely(cfg, StateAt(run, i), ActionAt(acts, i)))
  }

  /** Nothing that happens after this submission, other submissions being in time,
      leaves a VM or a live insert without a row. */
  ghost predicate SafeToSubmit(cfg: Config, s: System, id: Id) {
    forall run, acts :: FromSubmission(cfg, s, id, run, acts) ==> NothingUncounted(Last(run))
  }

  lemma TimelyIsSafe(cfg: Config, s: System, id: Id)
    requires Punctual(cfg, s) && Timely(cfg, s, Work(id, Send))
    ensures SafeToSubmit(cfg, s, id)
  {
    hide Punctual, Step, Enabled, NothingUncounted;
    forall run, acts | FromSubmission(cfg, s, id, run, acts) ensures NothingUncounted(Last(run)) {
      assert Timely(cfg, StateAt(run, 0), ActionAt(acts, 0));
      StaysPunctual(cfg, run, acts, |run| - 1);
      PunctualCounts(cfg, Last(run));
    }
  }

  lemma PunctualCounts(cfg: Config, s: System)
    requires Punctual(cfg, s)
    ensures NothingUncounted(s)
  {
    hide Inv, Covered;
    CoveredCounts(cfg, s);
  }

  /** The insert is under way until that time, and no VM has come of it. */
  ghost predicate InFlight(c: Cloud, g: Generation, until: Time) {
    && g.vm != NONE && RequestOf(g) in c.requests && c.requests[RequestOf(g)] == Sent(until) && !VmExists(c, g.vm)
  }

  /** A saved attempt that has neither been accepted nor confirmed. */
  predicate Pending(g: Generation) {
    g.vm != NONE && g.zone != NONE && g.operation == NONE && g.createdAt == NEVER && g.attemptedAt != NEVER
  }

  /** Its job is claimed, and nobody works on it. */
  ghost predicate Abandoned(s: System, key: Id, g: Generation, until: Time) {
    && InFlight(s.cloud, g, until) && Pending(g) && key in s.t.jobs && EvidenceOk(s.t)
    && var r := s.t.jobs[key];
    && r.gen == g && r.pendingDelete != g.vm && r.lease.holder == NONE && r.job.id != NONE
  }

  /** The deletion its job still owes, if any. */
  function Owed(s: System, key: Id): Id {
    Load(s.t, key).pendingDelete
  }

  /** A later callback works on it inside its lease. */
  ghost predicate Retried(s: System, key: Id, g: Generation, until: Time, id: Id, pc: Pc) {
    && InFlight(s.cloud, g, until) && Pending(g) && key in s.t.jobs && id in s.workers
    && var r := s.t.jobs[key];
    && r.gen == g && r.lease.holder == id && s.now < r.lease.until
    && var w := s.At(id);
    && w.key == key && w.pc == pc && s.now < w.deadline && w.r.gen == g && (w.r.terminal ==> r.terminal)
  }

  /** What the submitter of an attempt that was not accepted knows of it. */
  lemma SubmitterKnows(cfg: Config, s: System, id: Id)
    requires Punctual(cfg, s) && WorkEnabled(s, id, Send) && !StartsNothing(s.cloud, RequestOf(s.At(id).r.gen))
    ensures var w := s.At(id);
            && Pending(w.r.gen) && w.key in s.t.jobs && Load(s.t, w.key).gen == w.r.gen
            && Load(s.t, w.key).lease == Lease(id, w.until) && s.now < w.until && s.now < w.deadline
            && Load(s.t, w.key).job.id != NONE && Load(s.t, w.key).pendingDelete != w.r.gen.vm
            && s.now > NEVER && w.key != NONE && EvidenceOk(s.t) && !VmExists(s.cloud, w.r.gen.vm) && cfg.Valid()
  {
    hide BooksOk, RowsFit, FleetOk, NamesDrawn, DeletingOk, Covered, HolderFits, Dated, WorkerFits;
    var w := s.At(id);
    Know(cfg, s, id);
    Underway(cfg, s, id);
    LoadClocked(s.t, s.now, w.key);
    NothingCameOf(cfg, s, w.key);
  }

  /** Nothing came of an attempt that was not accepted, and it is not owed a deletion. */
  lemma NothingCameOf(cfg: Config, s: System, key: Id)
    requires Inv(cfg, s)
    requires var g := Load(s.t, key).gen; g.vm != NONE && g.createdAt == NEVER && !Accepted(s.cloud, RequestOf(g))
    ensures var g := Load(s.t, key).gen;
            && g.vm !in s.cloud.appeared && !VmExists(s.cloud, g.vm) && g.operation == NONE && key in s.t.jobs
            && Load(s.t, key).pendingDelete != g.vm
  {
    hide AllStand, WorkerFits, UniqueOpen, RowsFit;
    BooksStand(cfg, s);
    ClaimRow(cfg, s.t, s.cloud, key);
  }

  /** Submitting puts the insert on its way until the margin after the deadline. */
  lemma Submits(cfg: Config, s: System, id: Id) returns (until: Time)
    requires Punctual(cfg, s) && WorkEnabled(s, id, Send) && !StartsNothing(s.cloud, RequestOf(s.At(id).r.gen))
    ensures var s2 := Step(cfg, s, Work(id, Send));
            var w := s.At(id);
            && id in s2.workers && s2.At(id) == w.(pc := s2.At(id).pc) && s2.At(id).pc.AtAwait?
            && s2.t == s.t && s2.now == s.now && InFlight(s2.cloud, w.r.gen, until) && w.deadline + PROPAGATION <= until
  {
    hide Punctual;
    SubmitterKnows(cfg, s, id);
    until := Step(cfg, s, Work(id, Send)).cloud.requests[RequestOf(s.At(id).r.gen)].until;
  }

  /** The callback comes back without an answer, ends with a transient error and drops
      its lease. */
  lemma Drops(cfg: Config, s: System, id: Id, key: Id, g: Generation, until: Time)
    requires InFlight(s.cloud, g, until) && Pending(g) && key in s.t.jobs && id in s.workers
    requires s.At(id).key == key && s.At(id).pc == AtEnd(Transient)
    requires var r := Load(s.t, key);
             && r.gen == g && r.pendingDelete != g.vm && r.job.id != NONE && EvidenceOk(s.t)
             && r.lease.holder == id && s.now < r.lease.until
    ensures Enabled(cfg, s, Work(id, Drop))
    ensures var s2 := Step(cfg, s, Work(id, Drop)); Abandoned(s2, key, g, until) && s2.now == s.now
  {
    hide Prepare, InFlight, Pending;
    PrepareBounds(Apply(DropLease(id), cfg, s.now, Load(s.t, key), Fleet(0, 0, 0)).r, s.now);
  }

  function WaitUntil(s: System, later: Time): Action {
    Tick(if s.now <= later then later - s.now else 0)
  }

  lemma Waits(cfg: Config, s: System, key: Id, g: Generation, until: Time, later: Time)
    requires Abandoned(s, key, g, until) && s.now <= later
    ensures Enabled(cfg, s, WaitUntil(s, later))
    ensures var s2 := Step(cfg, s, WaitUntil(s, later)); Abandoned(s2, key, g, until) && s2.now == later
  {
    hide InFlight, Pending;
  }

  function OtherThan(status: Status): (other: Status)
    ensures other != status
  {
    if status == Queued then InProgress else Queued
  }

  /** A webhook that reports another status. */
  function News(s: System, key: Id): Action {
    Intake(key, Job(1, OtherThan(Load(s.t, key).job.status), NONE, NONE, NONE), NONE, false, false)
  }

  /** A task for the job may be sent at once. */
  predicate Due(r: Record, now: Time) {
    MaySend(r, now, 0)
  }

  function SendNow(key: Id, token: Id): Action {
    Action.Dispatch(key, token, 0)
  }

  lemma NewsMakesDue(cfg: Config, now: Time, r: Record, c: Change, f: Fleet)
    requires c.Observe? && !c.completed && c.job.id != NONE && c.job.status != r.job.status
    requires r.gen.vm != NONE && r.lease.holder == NONE && r.job.id != NONE && now > NEVER
    ensures var o := Apply(c, cfg, now, r, f);
            && o.Accept? && o.f == f && Due(Prepare(o.r, now), now)
            && o.r.gen == r.gen && o.r.lease == r.lease && o.r.pendingDelete == r.pendingDelete && o.r.job.id != NONE
  {
  }

  /** Hearing it, the job becomes due at once. */
  lemma Hears(cfg: Config, s: System, key: Id, g: Generation, until: Time)
    requires Abandoned(s, key, g, until) && key != NONE && s.now > NEVER
    ensures Enabled(cfg, s, News(s, key))
    ensures var s2 := Step(cfg, s, News(s, key));
            && Abandoned(s2, key, g, until) && s2.now == s.now
            && Due(Load(s2.t, key), s2.now) && Owed(s2, key) == Owed(s, key)
  {
    hide VmExists, Pending, Due, Prepare, Apply;
    var r, f, a := Load(s.t, key), Fleet(0, 0, 0), News(s, key);
    var c := Observe(a.job, a.source, a.completed, a.owned);
    NewsMakesDue(cfg, s.now, r, c, f);
    PrepareBounds(Apply(c, cfg, s.now, r, f).r, s.now);
  }

  lemma Dispatches(cfg: Config, s: System, key: Id, g: Generation, until: Time, token: Id)
    requires Abandoned(s, key, g, until) && key != NONE && token != NONE && token !in s.nonces
    requires Due(Load(s.t, key), s.now)
    ensures Enabled(cfg, s, SendNow(key, token))
    ensures var s2 := Step(cfg, s, SendNow(key, token));
            && Abandoned(s2, key, g, until) && s2.now == s.now && Owed(s2, key) == Owed(s, key)
            && Load(s2.t, key).dispatch.token == token && token in s2.payloads
            && s2.Task(token) == Payload(key, if Owed(s, key) != NONE then Some(Owed(s, key)) else None)
  {
    hide InFlight, Pending, Prepare;
    PrepareBounds(Apply(Enqueue(token, 0), cfg, s.now, Load(s.t, key), Fleet(0, 0, 0)).r, s.now);
  }

  lemma StartsTask(cfg: Config, s: System, key: Id, g: Generation, until: Time, token: Id)
    requires Abandoned(s, key, g, until) && Load(s.t, key).dispatch.token == token != NONE
    requires token in s.payloads && s.Task(token).key == key
    ensures Enabled(cfg, s, StartTask(token))
    ensures var s2 := Step(cfg, s, StartTask(token));
            && Abandoned(s2, key, g, until) && s2.now == s.now && Owed(s2, key) == Owed(s, key)
            && (s.Task(token).deletes.None? ==> Start(key, token, s.now) in s2.starts)
            && (forall n :: s.Task(token).deletes == Some(n) ==> (key, n) in s2.deletions)
  {
    hide VmExists, Prepare;
    PrepareBounds(Apply(CheckActive(token), cfg, s.now, Load(s.t, key), Fleet(0, 0, 0)).r, s.now);
  }

  // ----- a deletion owed meanwhile is paid first

  /** The job recorded on the runner to delete completes. */
  function Completion(s: System, name: Id): Action {
    var key := if name in s.t.evidence then s.t.evidence[name].jobKey else NONE;
    Assign(key, name, Job(1, Completed, NONE, NONE, NONE))
  }

  lemma Completes(cfg: Config, s: System, key: Id, g: Generation, until: Time, name: Id)
    requires Abandoned(s, key, g, until) && name != NONE && name in s.t.evidence
    ensures Enabled(cfg, s, Completion(s, name))
    ensures var s2 := Step(cfg, s, Completion(s, name));
            && Abandoned(s2, key, g, until) && s2.now == s.now && Owed(s2, key) == Owed(s, key)
            && s2.deletions == s.deletions && !Assigned(s2.t, name)
  {
    hide InFlight, Pending;
  }

  lemma Condemns(cfg: Config, s: System, key: Id, g: Generation, until: Time, name: Id)
    requires Abandoned(s, key, g, until) && (key, name) in s.deletions && !Assigned(s.t, name)
    ensures Enabled(cfg, s, DeleteVerdict(key, name))
    ensures var s2 := Step(cfg, s, DeleteVerdict(key, name));
            && Abandoned(s2, key, g, until) && s2.now == s.now && Owed(s2, key) == Owed(s, key)
            && s2.deletions == s.deletions && name in s2.doomed
  {
    hide VmExists, Pending;
  }

  lemma Deletes(cfg: Config, s: System, key: Id, g: Generation, until: Time, name: Id)
    requires Abandoned(s, key, g, until) && name in s.doomed
    ensures Enabled(cfg, s, DeleteVm(name))
    ensures var s2 := Step(cfg, s, DeleteVm(name));
            && Abandoned(s2, key, g, until) && s2.now == s.now && Owed(s2, key) == Owed(s, key)
            && s2.deletions == s.deletions && name in s2.gone
  {
    hide Pending;
  }

  lemma RecordsDeletion(cfg: Config, s: System, key: Id, g: Generation, until: Time, name: Id)
    requires Abandoned(s, key, g, until) && Owed(s, key) == name != NONE
    requires (key, name) in s.deletions && name in s.gone
    ensures Enabled(cfg, s, DeleteRecorded(key, name))
    ensures var s2 := Step(cfg, s, DeleteRecorded(key, name));
            Abandoned(s2, key, g, until) && s2.now == s.now && Owed(s2, key) == NONE
  {
    hide VmExists, Prepare;
    PrepareBounds(Apply(DeleteDone(name), cfg, s.now, Load(s.t, key), s.t.fleet).r, s.now);
  }

  // ----- another callback takes the job up and gives up

  lemma Claims(cfg: Config, s: System, key: Id, g: Generation, until: Time, token: Id, id: Id)
    requires cfg.Valid() && Abandoned(s, key, g, until)
    requires Start(key, token, s.now) in s.starts && id != NONE && id !in s.nonces
    ensures Enabled(cfg, s, ClaimJob(Start(key, token, s.now), id, None))
    ensures var s2 := Step(cfg, s, ClaimJob(Start(key, token, s.now), id, None));
            Retried(s2, key, g, until, id, AtStatus) && s2.now == s.now
  {
    hide InFlight, Pending, Prepare;
    PrepareBounds(Apply(Claim(id), cfg, s.now, Load(s.t, key), Fleet(0, 0, 0)).r, s.now);
  }

  lemma Checks(cfg: Config, s: System, key: Id, g: Generation, until: Time, id: Id)
    requires Retried(s, key, g, until, id, AtStatus)
    ensures Enabled(cfg, s, Work(id, CheckStatus(None)))
    ensures var s2 := Step(cfg, s, Work(id, CheckStatus(None)));
            Retried(s2, key, g, until, id, AtInspect) && s2.now == s.now
  {
    hide VmExists, Prepare, Apply;
    var c := SaveStatus(id, if s.At(id).r.terminal then Some(Completed) else None);
    NothingHeard(cfg, s.now, s.t.jobs[key], c, Fleet(0, 0, 0));
    PrepareBounds(s.t.jobs[key], s.now);
  }

  lemma NothingHeard(cfg: Config, now: Time, r: Record, c: Change, f: Fleet)
    requires c.SaveStatus? && r.lease.holder == c.token && now < r.lease.until && (c.seen.Some? ==> r.terminal)
    ensures Apply(c, cfg, now, r, f) == Accept(r, f)
  {
  }

  lemma Looks(cfg: Config, s: System, key: Id, g: Generation, until: Time, id: Id)
    requires Retried(s, key, g, until, id, AtInspect)
    ensures Enabled(cfg, s, Work(id, Inspect(false)))
    ensures var s2 := Step(cfg, s, Work(id, Inspect(false)));
            Retried(s2, key, g, until, id, AtResolve) && s2.now == s.now
  {
    hide VmExists;
  }

  /** Compute lists no operation, and the attempt is old enough. */
  lemma GivesUp(cfg: Config, s: System, key: Id, g: Generation, until: Time, id: Id)
    requires Retried(s, key, g, until, id, AtResolve) && g.attemptedAt + cfg.taskTimeout + PROPAGATION < s.now
    ensures Enabled(cfg, s, Work(id, Resolve(Missing)))
    ensures var s2 := Step(cfg, s, Work(id, Resolve(Missing)));
            Retried(s2, key, g, until, id, AtRecheck(false)) && s2.now == s.now
  {
    hide VmExists;
  }

  lemma LooksAgain(cfg: Config, s: System, key: Id, g: Generation, until: Time, id: Id)
    requires Retried(s, key, g, until, id, AtRecheck(false))
    ensures Enabled(cfg, s, Work(id, Recheck))
    ensures var s2 := Step(cfg, s, Work(id, Recheck));
            Retried(s2, key, g, until, id, AtRelease(true)) && s2.now == s.now
  {
    hide VmExists;
  }

  lemma ReleasesClaim(cfg: Config, s: System, key: Id, g: Generation, until: Time, id: Id)
    requires Retried(s, key, g, until, id, AtRelease(true))
    ensures Enabled(cfg, s, Work(id, ReleaseOwn))
    ensures var s2 := Step(cfg, s, Work(id, ReleaseOwn));
            InFlight(s2.cloud, g, until) && s2.now == s.now && g.vm !in s2.t.runners
  {
    hide VmExists, Prepare;
    PrepareBounds(Apply(ReleaseClaim(id), cfg, s.now, Load(s.t, key), s.t.fleet).r, s.now);
  }

  lemma Accepts(cfg: Config, s: System, g: Generation, until: Time)
    requires InFlight(s.cloud, g, until) && s.now <= until && g.vm !in s.t.runners
    ensures Enabled(cfg, s, CloudAccept(RequestOf(g)))
    ensures var s2 := Step(cfg, s, CloudAccept(RequestOf(g)));
            ProgressOf(s2.cloud, RequestOf(g)).Running? && s2.t == s.t
  {
    hide VmExists;
  }

  lemma Succeeds(cfg: Config, s: System, q: Request)
    requires ProgressOf(s.cloud, q).Running? && q.name !in s.t.runners
    ensures Enabled(cfg, s, CloudSucceed(q))
    ensures var s2 := Step(cfg, s, CloudSucceed(q));
            && Instance(q.name, q.zone, q.model) in s2.cloud.vms && q.name !in s2.t.runners && !NothingUncounted(s2)
  {
    hide VmExists;
    var s2 := Step(cfg, s, CloudSucceed(q));
    assert Instance(q.name, q.zone, q.model) in s2.cloud.vms;
  }

  /** There is always an identifier that was not drawn yet. */
  lemma {:induction false} Fresh(drawn: set<Id>) returns (n: Id)
    ensures n !in drawn && n != NONE && forall m :: m in drawn ==> m < n
  {
    if drawn == {} {
      n := 1;
    } else {
      var m :| m in drawn;
      var k := Fresh(drawn - {m});
      n := if m < k then k else m + 1;
      assert forall i :: i in drawn ==> i in drawn - {m} || i == m;
    }
  }

  lemma GoOn(cfg: Config, s: System, id: Id, run: seq<System>, acts: seq<Action>, a: Action)
      returns (run2: seq<System>, acts2: seq<Action>)
    requires FromSubmission(cfg, s, id, run, acts) && Enabled(cfg, Last(run), a) && !Sends(a)
    ensures FromSubmission(cfg, s, id, run2, acts2) && Last(run2) == Step(cfg, Last(run), a)
  {
    hide Enabled, Step;
    run2, acts2 := Extend(cfg, run, acts, a);
    forall i | 0 < i < |acts2| ensures Timely(cfg, StateAt(run2, i), ActionAt(acts2, i)) {
      if i < |acts| { assert Timely(cfg, StateAt(run, i), ActionAt(acts, i)); }
    }
  }

  /** The submitter comes back without an answer and drops its lease. */
  lemma Forsakes(cfg: Config, s: System, id: Id) returns (run: seq<System>, acts: seq<Action>, until: Time)
    requires Punctual(cfg, s) && WorkEnabled(s, id, Send) && !StartsNothing(s.cloud, RequestOf(s.At(id).r.gen))
    ensures FromSubmission(cfg, s, id, run, acts) && Last(run).now == s.now
    ensures s.At(id).deadline + PROPAGATION <= until
    ensures Abandoned(Last(run), s.At(id).key, s.At(id).r.gen, until)
  {
    hide Punctual, Step, Abandoned, InFlight, Pending, WorkEnabled, WorkStep, StartsNothing;
    SubmitterKnows(cfg, s, id);
    var key, g := s.At(id).key, s.At(id).r.gen;
    until := Submits(cfg, s, id);
    StepIsWork(cfg, s, id, Send);
    run, acts := Extend(cfg, [s], [], Work(id, Send));
    ComesBack(cfg, Last(run), id);
    run, acts := GoOn(cfg, s, id, run, acts, Work(id, Abort(Transient)));
    Drops(cfg, Last(run), id, key, g, until);
    run, acts := GoOn(cfg, s, id, run, acts, Work(id, Drop));
  }

  lemma ComesBack(cfg: Config, s: System, id: Id)
    requires id in s.workers && s.At(id).pc.AtAwait?
    ensures Enabled(cfg, s, Work(id, Abort(Transient)))
    ensures Step(cfg, s, Work(id, Abort(Transient))) == Goto(s, id, AtEnd(Transient))
  {
  }

  /** An abandoned job gets a task, which deletes what the job owes if it owes anything. */
  lemma Tasked(cfg: Config, s: System, id: Id, run0: seq<System>, acts0: seq<Action>, key: Id, g: Generation,
      until: Time) returns (run: seq<System>, acts: seq<Action>, token: Id)
    requires FromSubmission(cfg, s, id, run0, acts0) && key != NONE
    requires Abandoned(Last(run0), key, g, until) && Last(run0).now > NEVER
    ensures FromSubmission(cfg, s, id, run, acts) && Last(run).now == Last(run0).now
    ensures Abandoned(Last(run), key, g, until) && Owed(Last(run), key) == Owed(Last(run0), key)
    ensures Owed(Last(run), key) == NONE ==> Start(key, token, Last(run).now) in Last(run).starts
    ensures Owed(Last(run), key) != NONE ==> (key, Owed(Last(run), key)) in Last(run).deletions
  {
    hide Step, Enabled, InFlight, Pending, MaySend, FromSubmission, Abandoned;
    Hears(cfg, Last(run0), key, g, until);
    run, acts := GoOn(cfg, s, id, run0, acts0, News(Last(run0), key));
    token := Fresh(Last(run).nonces);
    Dispatches(cfg, Last(run), key, g, until, token);
    run, acts := GoOn(cfg, s, id, run, acts, SendNow(key, token));
    StartsTask(cfg, Last(run), key, g, until, token);
    run, acts := GoOn(cfg, s, id, run, acts, StartTask(token));
  }

  /** What the job owes is deleted. */
  lemma Relieved(cfg: Config, s: System, id: Id, run0: seq<System>, acts0: seq<Action>, key: Id, g: Generation,
      until: Time) returns (run: seq<System>, acts: seq<Action>)
    requires FromSubmission(cfg, s, id, run0, acts0) && key != NONE
    requires Abandoned(Last(run0), key, g, until) && Last(run0).now > NEVER
    ensures FromSubmission(cfg, s, id, run, acts) && Last(run).now == Last(run0).now
    ensures Abandoned(Last(run), key, g, until) && Owed(Last(run), key) == NONE
  {
    hide Step, Enabled, Abandoned, Owed, FromSubmission;
    if Owed(Last(run0), key) == NONE { return run0, acts0; }
    var name := Owed(Last(run0), key);
    var token;
    run, acts, token := Tasked(cfg, s, id, run0, acts0, key, g, until);
    if name in Last(run).t.evidence {
      Completes(cfg, Last(run), key, g, until, name);
      run, acts := GoOn(cfg, s, id, run, acts, Completion(Last(run), name));
    }
    Condemns(cfg, Last(run), key, g, until, name);
    run, acts := GoOn(cfg, s, id, run, acts, DeleteVerdict(key, name));
    Deletes(cfg, Last(run), key, g, until, name);
    run, acts := GoOn(cfg, s, id, run, acts, DeleteVm(name));
    RecordsDeletion(cfg, Last(run), key, g, until, name);
    run, acts := GoOn(cfg, s, id, run, acts, DeleteRecorded(key, name));
  }

  /** And then it gets a task for a create callback, and the callback. */
  lemma TakenUp(cfg: Config, s: System, id: Id, run0: seq<System>, acts0: seq<Action>, key: Id, g: Generation,
      until: Time) returns (run: seq<System>, acts: seq<Action>, second: Id)
    requires cfg.Valid() && FromSubmission(cfg, s, id, run0, acts0) && key != NONE
    requires Abandoned(Last(run0), key, g, until) && Last(run0).now > NEVER
    ensures FromSubmission(cfg, s, id, run, acts) && Last(run).now == Last(run0).now
    ensures Retried(Last(run), key, g, until, second, AtStatus)
  {
    hide Step, Enabled, Retried, Abandoned, Owed, FromSubmission;
    run, acts := Relieved(cfg, s, id, run0, acts0, key, g, until);
    var token;
    run, acts, token := Tasked(cfg, s, id, run, acts, key, g, until);
    second := Fresh(Last(run).nonces);
    Claims(cfg, Last(run), key, g, until, token, second);
    run, acts := GoOn(cfg, s, id, run, acts, ClaimJob(Start(key, token, Last(run).now), second, None));
  }

  /** The second callback gives up by age and releases, and then the insert is accepted. */
  lemma GivenUp(cfg: Config, s: System, id: Id, run0: seq<System>, acts0: seq<Action>, key: Id, g: Generation,
      until: Time, second: Id) returns (run: seq<System>, acts: seq<Action>)
    requires FromSubmission(cfg, s, id, run0, acts0) && Retried(Last(run0), key, g, until, second, AtStatus)
    requires g.attemptedAt + cfg.taskTimeout + PROPAGATION < Last(run0).now <= until
    ensures FromSubmission(cfg, s, id, run, acts) && g.vm !in Last(run).t.runners
    ensures Instance(g.vm, g.zone, g.model) in Last(run).cloud.vms && !NothingUncounted(Last(run))
  {
    hide Step, Enabled, Retried, InFlight, Pending, NothingUncounted, FromSubmission;
    Checks(cfg, Last(run0), key, g, until, second);
    run, acts := GoOn(cfg, s, id, run0, acts0, Work(second, CheckStatus(None)));
    Looks(cfg, Last(run), key, g, until, second);
    run, acts := GoOn(cfg, s, id, run, acts, Work(second, Inspect(false)));
    GivesUp(cfg, Last(run), key, g, until, second);
    run, acts := GoOn(cfg, s, id, run, acts, Work(second, Resolve(Missing)));
    LooksAgain(cfg, Last(run), key, g, until, second);
    run, acts := GoOn(cfg, s, id, run, acts, Work(second, Recheck));
    ReleasesClaim(cfg, Last(run), key, g, until, second);
    run, acts := GoOn(cfg, s, id, run, acts, Work(second, ReleaseOwn));
    Accepts(cfg, Last(run), g, until);
    run, acts := GoOn(cfg, s, id, run, acts, CloudAccept(RequestOf(g)));
    Succeeds(cfg, Last(run), RequestOf(g));
    run, acts := GoOn(cfg, s, id, run, acts, CloudSucceed(RequestOf(g)));
  }

  /** A submission out of time, of an attempt not accepted before, can end in a VM without
      a row, although every other submission is in time. */
  lemma LateSubmission(cfg: Config, s: System, id: Id) returns (run: seq<System>, acts: seq<Action>)
    requires Punctual(cfg, s) && WorkEnabled(s, id, Send) && !Timely(cfg, s, Work(id, Send))
    ensures FromSubmission(cfg, s, id, run, acts)
    ensures var g := s.At(id).r.gen;
            && g.vm !in Last(run).t.runners && Instance(g.vm, g.zone, g.model) in Last(run).cloud.vms
            && !NothingUncounted(Last(run))
  {
    hide Punctual, FromSubmission, Retried, Pending, NothingUncounted, WorkEnabled, Step, Enabled, Abandoned,
      StartsNothing;
    SubmitterKnows(cfg, s, id);
    var w := s.At(id);
    var key, g := w.key, w.r.gen;
    var later := Later(s.now, g.attemptedAt + cfg.taskTimeout + PROPAGATION + 1);
    var until, second;
    run, acts, until := Forsakes(cfg, s, id);
    Waits(cfg, Last(run), key, g, until, later);
    run, acts := GoOn(cfg, s, id, run, acts, WaitUntil(Last(run), later));
    run, acts, second := TakenUp(cfg, s, id, run, acts, key, g, until);
    run, acts := GivenUp(cfg, s, id, run, acts, key, g, until, second);
  }

  /** The check is exact: of all submissions those in time are safe, and those that start
      nothing, and no other. */
  lemma SubmissionGuardIsExact(cfg: Config, s: System, id: Id)
    requires Punctual(cfg, s) && WorkEnabled(s, id, Send)
    ensures SafeToSubmit(cfg, s, id)
       <==> InTime(cfg, s.At(id)) || s.At(id).r.gen.vm == NONE || Accepted(s.cloud, RequestOf(s.At(id).r.gen))
  {
    hide Punctual, Step, Enabled, NothingUncounted, WorkEnabled;
    if Timely(cfg, s, Work(id, Send)) {
      TimelyIsSafe(cfg, s, id);
    } else {
      var run, acts := LateSubmission(cfg, s, id);
    }
  }
}
