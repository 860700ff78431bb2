/** What one transaction callback does to a job record and the fleet counters.

    Each callback closure the source passes to Update or UpdateJob is a Change
    here, and Apply runs it on local copies of the two documents. */
module Records {
  import opened Types
  import opened DispatchWindow

  /** How processJob ended, as finishTask classifies it; Contended stands for a
      lost lease or an obsolete task, which finishTask acknowledges untouched. */
  datatype WorkError = NoError | FleetWasFull | Permanent(message: Id) | RetryAt(until: Time) | Transient | Contended

  datatype Change =
    | Observe(job: Job, source: Id, completed: bool, owned: bool)
    | Claim(token: Id)
    | SaveStatus(token: Id, seen: Option<Status>)
    | Reread(token: Id)
    | ReleaseClaim(token: Id)
    | KeepRunning(token: Id)
    | ForgetAttempt(token: Id)
    | SaveDemand(token: Id, status: Status)
    | Reserve(token: Id, name: Id)
    | SaveJit(token: Id, jit: Id)
    | SaveAttempt(token: Id, attempt: Attempt)
    | SaveOperation(token: Id, operation: Id)
    | MarkCreated(token: Id)
    | DropLease(token: Id)
    | Enqueue(token: Id, delay: Time)
    | EnqueueFailed(token: Id)
    | CheckActive(token: Id)
    | Finish(token: Id, err: WorkError)
    | DeleteDone(name: Id)
    | Recreate(name: Id)

  /** A refused change leaves both documents as they were. */
  datatype Outcome = Accept(r: Record, f: Fleet) | Reject(r: Record, f: Fleet, err: Failure)

  const RECREATE_DELAY: Time := 45

  /** The documented meaning of NeedsReconcile: unserved demand, a claim still
      held, or a deletion still owed. */
  predicate Actionable(r: Record) {
    (r.failure == NONE && !r.terminal) || r.gen.vm != NONE || r.pendingDelete != NONE
  }

  /** A terminal record that owes nothing; only these may expire. */
  predicate Settled(r: Record) {
    r.terminal && r.gen.vm == NONE && r.pendingDelete == NONE
  }

  /** prepareRecord. */
  function Prepare(r: Record, now: Time): Record {
    if Actionable(r) then
      var due := if r.nextActionAt == NEVER then now else r.nextActionAt;
      r.(needsReconcile := true, expiresAt := NEVER, nextActionAt := Later(due, r.dispatch.until))
    else if Settled(r) && r.expiresAt == NEVER then
      r.(needsReconcile := false, expiresAt := now + WEEK)
    else
      r.(needsReconcile := false)
  }

  function StandardCount(m: Provisioning): int {
    if m == Standard then 1 else 0
  }

  /** releaseReservation, the record part. */
  function Unclaimed(r: Record, now: Time): Record {
    r.(gen := NoGeneration(r.gen.machine), runnerId := NONE,
       expiresAt := if r.terminal && r.pendingDelete == NONE then now + WEEK else r.expiresAt)
  }

  /** releaseReservation, the counter part. */
  function Uncounted(r: Record, f: Fleet): Fleet {
    if r.gen.vm != NONE then
      f.(runners := f.runners - 1, standard := f.standard - StandardCount(r.gen.model))
    else f
  }

  function ReleaseReservation(r: Record, f: Fleet, now: Time): Outcome {
    Accept(Unclaimed(r, now), Uncounted(r, f))
  }

  /** clearAttempt. */
  function ClearAttempt(r: Record, f: Fleet): Outcome {
    Accept(r.(gen := r.gen.(zone := NONE, model := NoModel, operation := NONE, template := NONE)),
           f.(standard := f.standard - StandardCount(r.gen.model)))
  }

  /** The fence every mutate and mutateJob callback starts with. */
  predicate Fenced(r: Record, token: Id, now: Time) {
    r.lease.holder == token && now < r.lease.until
  }

  predicate LeaseLive(r: Record, now: Time) {
    r.lease.holder != NONE && now < r.lease.until
  }

  function LeaseEnd(cfg: Config, now: Time): Time {
    now + cfg.taskTimeout + 60
  }

  function DoObserve(c: Change, cfg: Config, now: Time, r: Record): Record
    requires c.Observe?
  {
    var changed := r.job.status != c.job.status || (!r.terminal && c.completed);
    var r1 := if !r.terminal || c.completed then r.(job := c.job) else r;
    var r2 := if r1.source == NONE || r1.source !in cfg.sources then r1.(source := c.source) else r1;
    var r3 := if c.completed && c.owned then r2.(pendingDelete := c.job.runner, expiresAt := NEVER) else r2;
    var r4 := r3.(terminal := r3.terminal || c.completed);
    var r5 := if changed then r4.(nextActionAt := now, dispatch := Dispatch(NONE, NEVER)) else r4;
    var r6 := if r5.seenAt == NEVER then r5.(seenAt := now) else r5;
    if Settled(r6) then r6.(expiresAt := now + WEEK) else r6
  }

  /** When enqueueJob actually sends: actionable and due, with neither an
      unexpired marker nor a live lease. */
  predicate MaySend(r: Record, now: Time, delay: Time) {
    && r.needsReconcile
    && r.dispatch.until <= now
    && !LeaseLive(r, now)
    && r.nextActionAt <= now + delay
  }

  function DoFinish(c: Change, cfg: Config, now: Time, r: Record, f: Fleet): Outcome
    requires c.Finish?
  {
    if c.token != NONE && c.token != r.dispatch.token then Accept(r, f)
    else if c.err.Transient? || c.err.Contended? then Accept(r, f)
    else
      var idle := r.(dispatch := Dispatch(NONE, NEVER), nextActionAt := now + 2 * MINUTE);
      match c.err
      case NoError =>
        Accept(if idle.job.status == InProgress then idle.(nextActionAt := now + 10 * MINUTE) else idle, f)
      case RetryAt(t) => Accept(idle.(nextActionAt := t), f)
      case Permanent(message) =>
        var base := if idle.gen.zone == NONE && idle.gen.vm != NONE
                    then ReleaseReservation(idle, f, now) else Accept(idle, f);
        Accept(base.r.(failure := message, nextActionAt := now + 60 * MINUTE), base.f)
      case _ => Accept(idle, f)
  }

  function DoDeleteDone(name: Id, now: Time, r: Record, f: Fleet): Outcome {
    var r1 := if r.pendingDelete == name then r.(pendingDelete := NONE) else r;
    var o := if r1.gen.vm == name then ReleaseReservation(r1, f, now) else Accept(r1, f);
    Accept(if Settled(o.r) then o.r.(expiresAt := now + WEEK) else o.r, o.f)
  }

  function DoSaveAttempt(a: Attempt, cfg: Config, now: Time, r: Record, f: Fleet): Outcome {
    if r.terminal then Reject(r, f, JobCompleted)
    else if a.model == Standard && r.gen.model != Standard && f.standard >= cfg.maxStandard then Reject(r, f, FleetFull)
    else
      var f1 := f.(standard := f.standard + StandardCount(a.model) - StandardCount(r.gen.model));
      var at := if r.gen.template == NONE then now else r.gen.attemptedAt;
      Accept(r.(gen := r.gen.(zone := a.zone, model := a.model, machine := a.machine,
                              attemptedAt := at, template := a.template)), f1)
  }

  predicate NeedsFence(c: Change) {
    c.SaveStatus? || c.Reread? || c.ReleaseClaim? || c.KeepRunning? || c.ForgetAttempt? ||
    c.SaveDemand? || c.Reserve? || c.SaveJit? || c.SaveAttempt? || c.SaveOperation? ||
    c.MarkCreated? || c.DropLease?
  }

  /** A worker's callback, under this lease. */
  predicate CarriedBy(c: Change, token: Id) {
    NeedsFence(c) && c.token == token
  }

  function TokenOf(c: Change): Id {
    if c.Observe? || c.DeleteDone? || c.Recreate? then NONE else c.token
  }

  /** A delivery that leaves this deletion owed. */
  predicate Owes(c: Change, name: Id) {
    c.Observe? && c.completed && c.owned && c.job.runner == name
  }

  predicate NamesJob(c: Change) {
    c.Observe? ==> c.job.id != NONE
  }

  function Apply(c: Change, cfg: Config, now: Time, r: Record, f: Fleet): Outcome {
    if NeedsFence(c) && !Fenced(r, c.token, now) then Reject(r, f, LeaseBusy)
    else match c
      case Observe(_, _, _, _) => Accept(DoObserve(c, cfg, now, r), f)
      case Claim(token) =>
        if r.job.id == NONE then Reject(r, f, UnknownJob)
        else if LeaseLive(r, now) then Reject(r, f, LeaseBusy)
        else Accept(r.(lease := Lease(token, LeaseEnd(cfg, now))), f)
      case SaveStatus(_, seen) =>
        if !r.terminal && seen.Some? then
          Accept(r.(job := r.job.(status := seen.value), terminal := seen.value == Completed), f)
        else Accept(r, f)
      case Reread(_) => Accept(r, f)
      case ReleaseClaim(_) => ReleaseReservation(r, f, now)
      case KeepRunning(_) =>
        var created := if r.gen.createdAt == NEVER then now else r.gen.createdAt;
        Accept(r.(gen := r.gen.(createdAt := created), nextActionAt := now + 2 * MINUTE), f)
      case ForgetAttempt(_) => ClearAttempt(r, f)
      case SaveDemand(_, status) =>
        var r1 := if r.terminal then r else r.(job := r.job.(status := status));
        Accept(r1.(nextActionAt := now + 10 * MINUTE), f)
      case Reserve(_, name) =>
        if r.terminal then Accept(r, f)
        else if f.runners >= cfg.maxRunners then Reject(r, f, FleetFull)
        else Accept(r.(gen := r.gen.(vm := name), expiresAt := NEVER), f.(runners := f.runners + 1))
      case SaveJit(_, jit) => Accept(r.(gen := r.gen.(jit := jit, jitIssuedAt := now)), f)
      case SaveAttempt(_, a) => DoSaveAttempt(a, cfg, now, r, f)
      case SaveOperation(_, operation) => Accept(r.(gen := r.gen.(operation := operation)), f)
      case MarkCreated(_) =>
        Accept(r.(gen := r.gen.(createdAt := now), nextActionAt := now + 2 * MINUTE), f)
      case DropLease(_) => Accept(r.(lease := r.lease.(holder := NONE)), f)
      case Enqueue(token, delay) =>
        if MaySend(r, now, delay) then Accept(r.(dispatch := Dispatch(token, now + delay + WindowOf(cfg))), f)
        else Accept(r, f)
      case EnqueueFailed(token) =>
        if r.dispatch.token == token then
          Accept(r.(dispatch := r.dispatch.(until := NEVER), nextActionAt := now + MINUTE), f)
        else Accept(r, f)
      case CheckActive(token) =>
        if token == NONE || r.dispatch.token != token then Reject(r, f, TaskObsolete) else Accept(r, f)
      case Finish(_, _) => DoFinish(c, cfg, now, r, f)
      case DeleteDone(name) => DoDeleteDone(name, now, r, f)
      case Recreate(name) =>
        if !r.terminal && r.gen.vm == name && name != NONE && r.nextActionAt > now + RECREATE_DELAY then
          Accept(r.(nextActionAt := now + RECREATE_DELAY), f)
        else Accept(r, f)
  }

  // ----- what every stored record satisfies

  /** No lost demand: a record is due for reconciliation exactly when it is
      actionable, then it has a due time not before its dispatch marker and no
      expiry; an expiry is set exactly on settled terminal records. */
  predicate Scheduled(r: Record) {
    && r.needsReconcile == Actionable(r)
    && (r.needsReconcile ==> r.nextActionAt != NEVER && r.dispatch.until <= r.nextActionAt)
    && (r.expiresAt != NEVER <==> Settled(r))
  }

  /** A deletion is owed only by a finished job. */
  predicate Owing(r: Record) {
    r.pendingDelete != NONE ==> r.terminal
  }

  /** What holds of every stored record, whoever wrote it. */
  predicate Filed(r: Record) {
    Scheduled(r) && Owing(r)
  }

  /** A record without a VM carries nothing of an old claim. */
  predicate Sane(r: Record) {
    r.gen.vm == NONE ==> r.gen == NoGeneration(r.gen.machine)
  }

  predicate RecordOk(r: Record) {
    Filed(r) && Sane(r)
  }

  /** The only way to leave the schedule out of step is an expiry on a record
      that is not settled; no callback does that. */
  predicate ExpiryOk(r: Record) {
    r.expiresAt != NEVER && !Actionable(r) ==> Settled(r)
  }

  lemma PrepareSchedules(r: Record, now: Time)
    requires now > NEVER && ExpiryOk(r)
    ensures Scheduled(Prepare(r, now))
    ensures Owing(Prepare(r, now)) == Owing(r)
  {
  }

  /** Scheduling is nothing to the claim. */
  lemma PrepareKeepsClaim(r: Record, now: Time)
    ensures Prepare(r, now).gen == r.gen
  {
  }

  /** The callbacks that write claim fields blindly rely on the claim being there. */
  predicate WritesClaim(c: Change) {
    c.KeepRunning? || c.SaveJit? || c.SaveAttempt? || c.SaveOperation? || c.MarkCreated?
  }

  lemma ObserveKeepsExpiry(c: Change, cfg: Config, now: Time, r: Record)
    requires now > NEVER && c.Observe?
    requires Filed(r) || r == BlankRecord()
    ensures ExpiryOk(DoObserve(c, cfg, now, r)) && Owing(DoObserve(c, cfg, now, r))
  {
  }

  /** Every callback, followed by prepareRecord, leaves a correctly filed record. */
  lemma ApplyFiles(c: Change, cfg: Config, now: Time, r: Record, f: Fleet)
    requires now > NEVER
    requires Filed(r) || r == BlankRecord()
    ensures var o := Apply(c, cfg, now, r, f); o.Accept? ==> Filed(Prepare(o.r, now))
  {
    hide Prepare, DoObserve, MaySend, WindowOf;
    var o := Apply(c, cfg, now, r, f);
    if c.Observe? { ObserveKeepsExpiry(c, cfg, now, r); }
    if o.Accept? {
      assert ExpiryOk(o.r) && Owing(o.r);
      PrepareSchedules(o.r, now);
    }
  }

  /** It stays sane as well, provided the claim-writing callbacks find a claim. */
  lemma ApplyKeepsRecord(c: Change, cfg: Config, now: Time, r: Record, f: Fleet)
    requires now > NEVER
    requires RecordOk(r) || r == BlankRecord()
    requires WritesClaim(c) ==> r.gen.vm != NONE
    requires c.Reserve? ==> c.name != NONE
    ensures var o := Apply(c, cfg, now, r, f); o.Accept? ==> RecordOk(Prepare(o.r, now))
  {
    hide Prepare, DoObserve, MaySend, WindowOf;
    var o := Apply(c, cfg, now, r, f);
    ApplyFiles(c, cfg, now, r, f);
    if o.Accept? {
      PrepareKeepsClaim(o.r, now);
      if c.Observe? { ObserveKeepsClaim(c, cfg, now, r); }
      assert Sane(o.r);
    }
  }

  lemma ObserveKeepsClaim(c: Change, cfg: Config, now: Time, r: Record)
    requires c.Observe?
    ensures DoObserve(c, cfg, now, r).gen == r.gen
  {
  }
}
