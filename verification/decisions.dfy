/** What a create callback and the sweep decide, in terms of what the clouds answered. */
module Decisions {
  import opened Types
  import opened Records
  import opened Transactions
  import opened Protocol

  // ----- a running VM

  /** So much time has passed since then; two minutes if nothing is configured. */
  predicate Elapsed(cfg: Config, since: Time, now: Time) {
    since != NEVER && since + (if cfg.registerTimeout == 0 then 120 else cfg.registerTimeout) <= now
  }

  /** An offline runner has had its time: since its VM was created, if that was recorded,
      else since the attempt was first saved, else since its credential was issued; one
      without any of these has none left. */
  predicate Overdue(cfg: Config, g: Generation, now: Time) {
    || Elapsed(cfg, g.createdAt, now)
    || (g.createdAt == NEVER && Elapsed(cfg, g.attemptedAt, now))
    || (g.createdAt == NEVER && g.attemptedAt == NEVER && (g.jitIssuedAt == NEVER || Elapsed(cfg, g.jitIssuedAt, now)))
  }

  /** Who loses its VM: a runner GitHub does not know always, a busy one never, an idle one
      once the job is over, an offline one then or when it is overdue. */
  predicate Unwanted(cfg: Config, r: Record, reg: Registration, now: Time) {
    match reg
    case Unregistered => true
    case Busy => false
    case Idle => r.terminal
    case Offline => r.terminal || Overdue(cfg, r.gen, now)
  }

  /** Whoever is unwanted stays so, as long as nothing new is recorded of it. */
  lemma UnwantedStays(cfg: Config, r: Record, reg: Registration, now: Time, later: Time)
    requires now <= later && Unwanted(cfg, r, reg, now)
    ensures Unwanted(cfg, r, reg, later)
  {
  }

  /** After its registration check a callback deletes exactly the unwanted; of the others it
      keeps the one its queued job still counts on, and hands on any other, advertised only
      if it was found idle and the job is open. */
  lemma RunnerIsJudged(cfg: Config, s: System, id: Id, reg: Registration)
    ensures var w := s.At(id);
            var pc := WorkStep(cfg, s, id, AskRegistration(reg)).At(id).pc;
            && (pc == AtDelete(false) <==> Unwanted(cfg, w.r, reg, s.now))
            && (pc == AtKeep <==> !Unwanted(cfg, w.r, reg, s.now) && w.status == Some(Queued) && reg != Busy)
            && (pc == AtDetach(true) <==> reg == Idle && !w.r.terminal && w.status != Some(Queued))
            && (pc == AtDetach(false) <==>
                  || reg == Busy
                  || (reg == Offline && !Unwanted(cfg, w.r, reg, s.now) && w.status != Some(Queued)))
  {
  }

  /** The sweep's check of a running VM can come to deletion exactly for the unwanted. */
  lemma DetachedIsJudged(cfg: Config, s: System, name: Id, reg: Registration)
    requires name in s.swept && VmExists(s.cloud, name) && MayAnswer(s.t, name, reg)
    ensures Enabled(cfg, s, SweepVerdict(name, false, reg)) <==> Unwanted(cfg, s.swept[name], reg, s.now)
  {
  }

  // ----- the lookups

  /** Where the callback is after the step. */
  ghost function NextPoint(cfg: Config, s: System, id: Id, act: WorkAction): Pc {
    WorkStep(cfg, s, id, act).At(id).pc
  }

  /** A stopped VM is deleted; a running one is asked about if the job's status is known; one
      that is gone after its creation was recorded is released; one that has not appeared
      has its saved attempt looked up, if there is one. */
  lemma VmIsLookedUp(cfg: Config, s: System, id: Id, stopped: bool)
    ensures var w, pc := s.At(id), NextPoint(cfg, s, id, Inspect(stopped));
            var found := exists vm :: vm in s.cloud.vms && vm.name == w.r.gen.vm;
            && (pc == AtDelete(true) <==> found && stopped)
            && (pc == AtRegister <==> found && !stopped && w.status.Some?)
            && (pc == AtEnd(Transient) <==> found && !stopped && w.status.None?)
            && (pc == AtRelease(true) <==> !found && w.r.gen.createdAt != NEVER)
            && (pc == AtResolve <==> !found && w.r.gen.createdAt == NEVER && w.r.gen.zone != NONE)
            && (pc == AtDecide <==> !found && w.r.gen.createdAt == NEVER && w.r.gen.zone == NONE)
  {
    assert VmExists(s.cloud, s.At(id).r.gen.vm) <==> exists vm :: vm in s.cloud.vms && vm.name == s.At(id).r.gen.vm;
  }

  /** An attempt is over when its operation is done, when a recorded operation is not listed
      any more, or when none was recorded and none is listed two minutes after the last
      moment at which its first submitter could still send it. */
  lemma AttemptIsLookedUp(cfg: Config, s: System, id: Id, op: Operation)
    ensures var g, pc := s.At(id).r.gen, NextPoint(cfg, s, id, Resolve(op));
            var over := match op
              case Pending => false
              case Missing =>
                g.operation != NONE || (g.attemptedAt != NEVER && g.attemptedAt + cfg.taskTimeout + 120 < s.now)
              case _ => true;
            && (pc == AtDecide <==> !over)
            && (pc == AtRecheck(true) <==> op == DoneError(true))
            && (pc == AtRecheck(false) <==> over && op != DoneError(true))
  {
  }

  /** The second look: a VM that came up meanwhile stays; of an attempt that is over, a
      stockout is dropped so that the plan goes on, and anything else releases the claim. */
  lemma VmIsLookedUpAgain(cfg: Config, s: System, id: Id)
    requires s.At(id).pc.AtRecheck?
    ensures var w, pc := s.At(id), NextPoint(cfg, s, id, Recheck);
            var found := exists vm :: vm in s.cloud.vms && vm.name == w.r.gen.vm;
            && (pc == AtEnd(NoError) <==> found)
            && (pc == AtForget <==> !found && w.pc == AtRecheck(true))
            && (pc == AtRelease(true) <==> !found && w.pc == AtRecheck(false))
  {
    assert VmExists(s.cloud, s.At(id).r.gen.vm) <==> exists vm :: vm in s.cloud.vms && vm.name == s.At(id).r.gen.vm;
  }

  // ----- demand

  /** The callback holds its lease, and time is left on it. */
  predicate Holds(s: System, id: Id) {
    Load(s.t, s.At(id).key).lease.holder == id && s.now < Load(s.t, s.At(id).key).lease.until
  }

  /** GitHub's answer is stored while the job is open, and a completed job is over from then
      on; a queued job without a claim may adopt, any other has its claim inspected. */
  lemma StatusIsTaken(cfg: Config, s: System, id: Id, answer: Option<Status>)
    ensures var w, w2 := s.At(id), WorkStep(cfg, s, id, CheckStatus(answer)).At(id);
            var r, r2 := Load(s.t, w.key), Load(WorkStep(cfg, s, id, CheckStatus(answer)).t, w.key);
            if !Holds(s, id) then w2.pc == AtEnd(Contended) && r2 == r else
              && w2.r == r2 && r2.gen == r.gen
              && (r2.terminal <==> r.terminal || w.r.terminal || answer == Some(Completed))
              && (!r.terminal && !w.r.terminal && answer.Some? ==> r2.job == r.job.(status := answer.value))
              && (w2.pc == AtAdopt <==> r.gen.vm == NONE && !w.r.terminal && answer == Some(Queued))
              && (w2.pc == AtInspect <==> r.gen.vm != NONE)
              && (w2.pc == AtDecide <==> r.gen.vm == NONE && (w.r.terminal || answer != Some(Queued)))
  {
    hide Mirror;
  }

  /** A reservation for which nothing was submitted. */
  predicate Idling(g: Generation) {
    g.vm != NONE && g.zone == NONE
  }

  /** What stands in the way of creating is said first: no status, the job is over, or it
      failed for good. */
  lemma DemandIsDenied(cfg: Config, s: System, id: Id)
    ensures var w, pc := s.At(id), NextPoint(cfg, s, id, Decide);
            && (w.status.None? ==> pc == AtEnd(Transient))
            && (w.status.Some? && w.r.terminal ==> pc == if Idling(w.r.gen) then AtDiscard(false) else AtEnd(NoError))
            && (w.status.Some? && !w.r.terminal && w.r.failure != NONE ==> pc == AtEnd(Permanent(w.r.failure)))
            && (w.status.None? || w.r.terminal || w.r.failure != NONE ==> WorkStep(cfg, s, id, Decide).t == s.t)
  {
  }

  /** Only a queued job goes on to a VM; a reservation that another job does not need any
      more, or whose credential is older than 45 minutes, is discarded first. */
  lemma DemandIsWeighed(cfg: Config, s: System, id: Id)
    requires s.At(id).status.Some? && !s.At(id).r.terminal && s.At(id).r.failure == NONE
    ensures var w, pc := s.At(id), NextPoint(cfg, s, id, Decide);
            var queued := w.status == Some(Queued);
            var stale := Idling(w.r.gen) && w.r.gen.jitIssuedAt != NEVER && w.r.gen.jitIssuedAt + 45 * 60 < s.now;
            if !Holds(s, id) then pc == AtEnd(Contended) else
              && (pc == AtDiscard(false) <==> !queued && Idling(w.r.gen))
              && (pc == AtEnd(NoError) <==> !queued && !Idling(w.r.gen))
              && (pc == AtDiscard(true) <==> queued && stale)
              && (pc == AtAdmit <==> queued && !stale)
  {
    hide Prepare, Mirror;
  }

  /** A callback reserves at most one VM, within the fleet, for an open job, and never with a
      machine type that is not allowed. */
  lemma DemandIsAdmitted(cfg: Config, s: System, id: Id, name: Id)
    ensures var w, pc := s.At(id), NextPoint(cfg, s, id, Admit(name));
            var r, r2 := Load(s.t, w.key), Load(WorkStep(cfg, s, id, Admit(name)).t, w.key);
            if w.override.Some? && w.override.value !in cfg.machines then
              pc == AtEnd(Permanent(MACHINE_NOT_ALLOWED)) && r2 == r
            else if w.r.gen.vm != NONE then pc == AtJit && r2 == r
            else if !Holds(s, id) then pc == AtEnd(Contended) && r2 == r
            else if r.terminal then pc == AtEnd(NoError) && r2.gen == r.gen
            else if s.t.fleet.runners >= cfg.maxRunners then pc == AtEnd(FleetWasFull) && r2 == r
            else pc == AtJit && r2.gen == r.gen.(vm := name) && WorkStep(cfg, s, id, Admit(name)).At(id).r == r2
  {
    hide Write, Load;
    var s1 := s.(nonces := s.nonces + {name});
    ReservingEnds(cfg, s1, id, name, !Load(s.t, s.At(id).key).terminal,
                  if Load(s.t, s.At(id).key).terminal then AtEnd(NoError) else AtJit);
  }

  lemma ReservingEnds(cfg: Config, s: System, id: Id, name: Id, refresh: bool, pc: Pc)
    ensures var s2 := Write(cfg, s, id, true, Reserve(id, name), refresh, pc);
            var r, r2, pc2 := Load(s.t, s.At(id).key), Load(s2.t, s.At(id).key), s2.At(id).pc;
            if !Holds(s, id) then pc2 == AtEnd(Contended) && r2 == r
            else if r.terminal then pc2 == pc && r2.gen == r.gen
            else if s.t.fleet.runners >= cfg.maxRunners then pc2 == AtEnd(FleetWasFull) && r2 == r
            else pc2 == pc && r2.gen == r.gen.(vm := name) && (refresh ==> s2.At(id).r == r2)
  {
    hide Prepare, Mirror;
    PrepareKeepsClaim(Apply(Reserve(id, name), cfg, s.now, Load(s.t, s.At(id).key), s.t.fleet).r, s.now);
  }

  // ----- the loop over the plan

  /** An attempt on demand is skipped where such are not allowed; any other is saved, if the
      job is open and on-demand capacity is left for it, and submitted next. */
  lemma AttemptIsSaved(cfg: Config, s: System, id: Id)
    requires s.At(id).pc.AtAttempt? && Load(s.t, s.At(id).key).gen.model == s.At(id).r.gen.model
    ensures var w, w2 := s.At(id), WorkStep(cfg, s, id, SaveNext).At(id);
            var rest := Rest(w.pc);
            if rest == [] then w2.pc == AtEnd(Transient)
            else if rest[0].model == Standard && !cfg.allowStandard then w2.pc == AtAttempt(rest[1..])
            else if !Holds(s, id) then w2.pc == AtEnd(Contended)
            else if Load(s.t, w.key).terminal then w2.pc == AtEnd(Transient)
            else if rest[0].model == Standard && w.r.gen.model != Standard && s.t.fleet.standard >= cfg.maxStandard then
              w2.pc == AtEnd(FleetWasFull)
            else w2.pc == AtSend(rest[1..]) && AttemptOf(w2.r.gen) == rest[0]
  {
    hide Write;
    var w := s.At(id);
    var rest := w.pc.rest;
    if rest != [] {
      var capacity := (w.r.gen.model == Standard) != (rest[0].model == Standard);
      hide WorkStep;
      SavingEnds(cfg, s, id, capacity, rest[0], AtSend(rest[1..]));
      NextIsOwn(cfg, s, id);
    }
  }

  lemma NextIsOwn(cfg: Config, s: System, id: Id)
    ensures WorkStep(cfg, s, id, SaveNext) == SaveNextStep(cfg, s, id, Rest(s.At(id).pc))
  {
    hide SaveNextStep;
  }

  lemma SavingEnds(cfg: Config, s: System, id: Id, capacity: bool, a: Attempt, pc: Pc)
    requires var m := Load(s.t, s.At(id).key).gen.model; capacity <==> (m == Standard) != (a.model == Standard)
    ensures var w, w2 := s.At(id), Write(cfg, s, id, capacity, SaveAttempt(id, a), true, pc).At(id);
            if !Holds(s, id) then w2.pc == AtEnd(Contended)
            else if Load(s.t, w.key).terminal then w2.pc == AtEnd(Transient)
            else if capacity && a.model == Standard && s.t.fleet.standard >= cfg.maxStandard then
              w2.pc == AtEnd(FleetWasFull)
            else w2.pc == pc && AttemptOf(w2.r.gen) == a
  {
    hide Prepare, Mirror;
    var f := if capacity then s.t.fleet else Fleet(0, 0, 0);
    PrepareKeepsClaim(Apply(SaveAttempt(id, a), cfg, s.now, Load(s.t, s.At(id).key), f).r, s.now);
  }

  /** A refusal puts the attempt aside unless its operation is on record; a VM that is there
      already, and an operation, end the search. */
  lemma AnswerIsTaken(cfg: Config, s: System, id: Id, reply: Reply)
    requires s.At(id).pc.AtAwait?
    ensures var w, pc := s.At(id), NextPoint(cfg, s, id, Receive(reply));
            match reply
            case Refuse(why) => pc == if w.r.gen.operation != NONE then AtEnd(Transient) else AtClear(Rest(w.pc), why)
            case Duplicate => pc == AtCreated
            case Took(operation) => pc == AtRecord(Rest(w.pc), operation)
  {
    hide ProgressOf;
  }

  /** Only an operation that Compute settled with an error puts the attempt aside. */
  lemma WaitIsOver(cfg: Config, s: System, id: Id, result: WaitResult)
    requires s.At(id).pc.AtWait?
    ensures var w, pc := s.At(id), NextPoint(cfg, s, id, Wait(result));
            pc == if result.WaitFailed? then AtClear(Rest(w.pc), result.why) else AtCreated
  {
  }

  /** Only after a lack of capacity is the next attempt made; an invalid request fails the
      job for good, and a rate limit ends the callback. */
  lemma RefusalIsTaken(cfg: Config, s: System, id: Id)
    requires s.At(id).pc.AtClear? && Load(s.t, s.At(id).key).gen.model == s.At(id).r.gen.model
    ensures var w, pc := s.At(id), NextPoint(cfg, s, id, Clear);
            if !Holds(s, id) then pc == AtEnd(Contended) else
            match w.pc.why
            case Stockout => pc == AtAttempt(Rest(w.pc))
            case Invalid => pc == AtEnd(Permanent(REQUEST_REJECTED))
            case RateLimited => pc == AtEnd(Transient)
  {
    hide Write;
    ForgettingEnds(cfg, s, id, AfterClear(s.At(id).pc));
  }

  lemma ForgettingEnds(cfg: Config, s: System, id: Id, pc: Pc)
    requires Load(s.t, s.At(id).key).gen.model == s.At(id).r.gen.model
    ensures Write(cfg, s, id, s.At(id).r.gen.model == Standard, ForgetAttempt(id), true, pc).At(id).pc
         == if Holds(s, id) then pc else AtEnd(Contended)
  {
    hide Prepare, Mirror;
  }
}
