/** The stored record field by field: which callbacks write it, and what they leave. */
module Fields {
  import opened Types
  import opened DispatchWindow
  import opened Records

  // ----- what a callback brings

  /** A delivery that tells of another status, or of the end of an open job. */
  predicate IsNews(c: Change, r: Record) {
    c.Observe? && (c.job.status != r.job.status || (c.completed && !r.terminal))
  }

  /** A task that ends under its own marker, or one without a token, and not in an error
      that the queue retries. */
  predicate Heeded(c: Change, r: Record) {
    c.Finish? && (c.token == NONE || c.token == r.dispatch.token) && !c.err.Transient? && !c.err.Contended?
  }

  predicate Fails(c: Change, r: Record) {
    Heeded(c, r) && c.err.Permanent?
  }

  /** The claim is given up. */
  predicate Yields(c: Change, r: Record) {
    || c.ReleaseClaim?
    || (c.DeleteDone? && r.gen.vm == c.name)
    || (Fails(c, r) && r.gen.vm != NONE && r.gen.zone == NONE)
  }

  predicate MarkerFails(c: Change, r: Record) {
    c.EnqueueFailed? && r.dispatch.token == c.token
  }

  /** An open job follows what is reported of it; one that is over only another completed
      delivery, and it stays over. */
  lemma JobField(c: Change, cfg: Config, now: Time, r: Record, f: Fleet)
    ensures var o := Apply(c, cfg, now, r, f);
            o.Accept? ==>
              && o.r.job == (if c.Observe? && (c.completed || !r.terminal) then c.job
                             else if c.SaveStatus? && c.seen.Some? && !r.terminal then r.job.(status := c.seen.value)
                             else if c.SaveDemand? && !r.terminal then r.job.(status := c.status)
                             else r.job)
              && (o.r.terminal <==>
                    || r.terminal
                    || (c.Observe? && c.completed)
                    || (c.SaveStatus? && c.seen == Some(Completed)))
  {
  }

  /** The first source that is registered keeps the record. */
  lemma SourceField(c: Change, cfg: Config, now: Time, r: Record, f: Fleet)
    ensures var o := Apply(c, cfg, now, r, f);
            o.Accept? ==>
              && (r.source != NONE && r.source in cfg.sources ==> o.r.source == r.source)
              && (r.source == NONE || r.source !in cfg.sources ==>
                    o.r.source == if c.Observe? then c.source else r.source)
  {
  }

  /** The first sighting of a job is kept. */
  lemma SightingField(c: Change, cfg: Config, now: Time, r: Record, f: Fleet)
    ensures var o := Apply(c, cfg, now, r, f);
            o.Accept? ==>
              && (r.seenAt != NEVER ==> o.r.seenAt == r.seenAt)
              && (r.seenAt == NEVER ==> o.r.seenAt == if c.Observe? then now else NEVER)
  {
  }

  /** A permanent failure is recorded, and nothing but another one replaces it. */
  lemma FailureField(c: Change, cfg: Config, now: Time, r: Record, f: Fleet)
    ensures var o := Apply(c, cfg, now, r, f);
            o.Accept? ==>
              && o.r.failure == (if Fails(c, r) then c.err.message else r.failure)
              && o.r.runnerId == (if Yields(c, r) then NONE else r.runnerId)
  {
  }

  /** Nothing stands in the way of sending a task: no marker, no lease, and the job is due. */
  predicate Sendable(r: Record, now: Time, delay: Time) {
    r.dispatch.until <= now && (r.lease.holder == NONE || r.lease.until <= now) && r.nextActionAt <= now + delay
  }

  predicate Marks(c: Change, r: Record, now: Time) {
    c.Enqueue? && r.needsReconcile && Sendable(r, now, c.delay)
  }

  /** The marker is set by a dispatch exactly when nothing stands in its way, cleared by news
      and at the end of its task, and stops blocking when its task could not be queued. */
  lemma MarkerField(c: Change, cfg: Config, now: Time, r: Record, f: Fleet)
    ensures var o := Apply(c, cfg, now, r, f);
            o.Accept? ==>
              && (IsNews(c, r) || Heeded(c, r) ==> o.r.dispatch == Dispatch(NONE, NEVER))
              && (MarkerFails(c, r) ==> o.r.dispatch == r.dispatch.(until := NEVER))
              && (Marks(c, r, now) ==> o.r.dispatch == Dispatch(c.token, now + c.delay + WindowOf(cfg)))
              && (!IsNews(c, r) && !Heeded(c, r) && !MarkerFails(c, r) && !Marks(c, r, now) ==>
                    o.r.dispatch == r.dispatch)
  {
  }

  /** When a callback has the job looked at next; NEVER says that it does not care. */
  function NextLook(c: Change, now: Time, r: Record): Time {
    if IsNews(c, r) then now
    else if Heeded(c, r) then
      match c.err
      case Permanent(_) => now + 60 * MINUTE
      case RetryAt(t) => t
      case NoError => now + (if r.job.status == InProgress then 10 else 2) * MINUTE
      case _ => now + 2 * MINUTE
    else if c.SaveDemand? then now + 10 * MINUTE
    else if c.KeepRunning? || c.MarkCreated? then now + 2 * MINUTE
    else if MarkerFails(c, r) then now + MINUTE
    else if c.Recreate? && !r.terminal && c.name != NONE && r.gen.vm == c.name && now + RECREATE_DELAY < r.nextActionAt
      then now + RECREATE_DELAY
    else r.nextActionAt
  }

  lemma LookField(c: Change, cfg: Config, now: Time, r: Record, f: Fleet)
    ensures var o := Apply(c, cfg, now, r, f); o.Accept? ==> o.r.nextActionAt == NextLook(c, now, r)
  {
  }

  /** A reservation names the claim, giving it up clears it whole, and in between an attempt
      is saved as it is and dropped as it is; the machine stays for the next. */
  lemma ClaimField(c: Change, cfg: Config, now: Time, r: Record, f: Fleet)
    ensures var o := Apply(c, cfg, now, r, f);
            o.Accept? ==>
              if Yields(c, r) then o.r.gen == NoGeneration(r.gen.machine) else
                && o.r.gen.vm == (if c.Reserve? && !r.terminal then c.name else r.gen.vm)
                && AttemptOf(o.r.gen) == (if c.SaveAttempt? then c.attempt
                                          else if c.ForgetAttempt? then Attempt(NONE, NONE, NoModel, r.gen.machine)
                                          else AttemptOf(r.gen))
  {
  }

  /** The times of a claim: when its credential was issued, when its attempt was first saved,
      when its VM was first known to run. */
  lemma TimeFields(c: Change, cfg: Config, now: Time, r: Record, f: Fleet)
    ensures var o := Apply(c, cfg, now, r, f);
            o.Accept? && !Yields(c, r) ==>
              && o.r.gen.jitIssuedAt == (if c.SaveJit? then now else r.gen.jitIssuedAt)
              && o.r.gen.jit == (if c.SaveJit? then c.jit else r.gen.jit)
              && o.r.gen.attemptedAt == (if c.SaveAttempt? && r.gen.template == NONE then now else r.gen.attemptedAt)
              && o.r.gen.createdAt == (if c.MarkCreated? || (c.KeepRunning? && r.gen.createdAt == NEVER) then now
                                       else r.gen.createdAt)
              && o.r.gen.operation == (if c.SaveOperation? then c.operation
                                       else if c.ForgetAttempt? then NONE else r.gen.operation)
  {
  }

  /** What Prepare makes of a record that is due: nothing but its schedule. */
  lemma PreparedFields(r: Record, now: Time)
    ensures var r2 := Prepare(r, now);
            && r2 == r.(needsReconcile := r2.needsReconcile, expiresAt := r2.expiresAt, nextActionAt := r2.nextActionAt)
            && (Actionable(r) ==>
                  r2.nextActionAt == Later(if r.nextActionAt == NEVER then now else r.nextActionAt, r.dispatch.until))
            && (Settled(r) ==> r2.expiresAt == if r.expiresAt == NEVER then now + WEEK else r.expiresAt)
            && (Actionable(r) ==> r2.expiresAt == NEVER)
  {
  }

  /** A job that settles is kept for a week from then. */
  lemma ExpiryField(c: Change, cfg: Config, now: Time, r: Record, f: Fleet)
    requires Filed(r) || r == BlankRecord()
    ensures var o := Apply(c, cfg, now, r, f);
            o.Accept? && Settled(o.r) ==>
              && (!Settled(r) || c.Observe? || Yields(c, r) || c.DeleteDone? ==>
                    Prepare(o.r, now).expiresAt == now + WEEK)
              && (Settled(r) && !c.Observe? && !Yields(c, r) && !c.DeleteDone? ==>
                    Prepare(o.r, now).expiresAt == r.expiresAt)
  {
  }
}
