/** What holds in every run, the cloud left aside: books, leases, claims and tasks. */
module Standing {
  import opened Types
  import opened Records
  import opened Transactions
  import opened Callbacks
  import opened Ledger
  import opened Protocol
  import opened Transitions

  predicate InLease(s: System, w: Worker) {
    Active(w.pc) && s.now < w.until
  }

  /** As long as nobody else has claimed the job since, its claim is the worker's
      or has been released. */
  ghost predicate HolderFits(s: System, id: Id, w: Worker) {
    var r := Load(s.t, w.key);
    Active(w.pc) && r.lease.holder == id ==>
      && r.lease.until == w.until
      && (!w.pc.AtReread? ==> r.gen.vm == w.r.gen.vm || r.gen.vm == NONE)
  }

  /** A delete task is only ever dispatched for a finished job. */
  ghost predicate DeletingOk(s: System) {
    && (forall k :: k in s.deleting ==> k in s.t.jobs && s.t.jobs[k].terminal)
    && (forall p :: p in s.payloads ==>
          s.payloads[p].key != NONE &&
          (s.payloads[p].deletes.Some? ==> s.payloads[p].deletes.value != NONE && s.payloads[p].key in s.deleting))
    && (forall d :: d in s.deletions ==> d.0 != NONE && d.1 != NONE && d.0 in s.deleting)
    && (forall st :: st in s.starts ==> st.key != NONE && st.at <= s.now)
  }

  /** A claim that was given up whole. */
  predicate Yielded(g: Generation) {
    g.vm == NONE && g.zone == NONE
  }

  /** A worker's lease is stored as its own while it runs, and the stored claim is
      then its snapshot's or has been released; until somebody else claims the job
      no other generation takes its place. */
  ghost predicate WorkerStands(s: System, id: Id, w: Worker) {
    && w.key in s.t.jobs && s.t.jobs[w.key].job.id != NONE
    && id != NONE && id in s.nonces
    && w.deadline <= w.until
    && HolderFits(s, id, w)
    && (InLease(s, w) ==> Load(s.t, w.key).lease == Lease(id, w.until))
    && (InLease(s, w) && !w.pc.AtReread? ==> Load(s.t, w.key).gen == w.r.gen || Yielded(Load(s.t, w.key).gen))
  }

  /** Evidence is kept for stored jobs. */
  ghost predicate EvidenceOk(t: Tables) {
    forall n :: n in t.evidence ==> t.evidence[n].jobKey in t.jobs
  }

  ghost predicate NamesOk(s: System) {
    NONE !in s.nonces && forall n :: n in s.t.runners ==> n in s.nonces
  }

  ghost predicate AllStand(cfg: Config, s: System) {
    && cfg.Valid() && s.now > NEVER
    && BooksOk(cfg, s.t) && EvidenceOk(s.t) && NamesOk(s) && DeletingOk(s)
    && (forall id :: id in s.workers ==> WorkerStands(s, id, s.At(id)))
  }

  lemma Stands(cfg: Config, s: System, id: Id)
    requires AllStand(cfg, s) && id in s.workers
    ensures WorkerStands(s, id, s.At(id)) && s.At(id).key != NONE
    ensures BooksOk(cfg, s.t) && s.now > NEVER && NamesOk(s)
  {
  }

  lemma BooksStand(cfg: Config, s: System)
    requires AllStand(cfg, s)
    ensures BooksOk(cfg, s.t) && s.now > NEVER
  {
  }

  // ----- the books

  /** What a store call owes the books. */
  ghost predicate Lawful(cfg: Config, t: Tables, now: Time, c: Call) {
    match c
    case CallUpdate(key, capacity, change) =>
      Update(t, cfg, now, key, capacity, change).Committed? ==> Admissible(cfg, t, key, change)
    case CallAdopt(_, _, names) => forall n :: n in names ==> n in t.runners && t.runners[n].available
    case _ => true
  }

  lemma CallKeepsBooks(cfg: Config, t: Tables, now: Time, c: Call)
    requires BooksOk(cfg, t) && now > NEVER && Lawful(cfg, t, now, c)
    ensures BooksOk(cfg, Perform(cfg, t, now, c))
  {
    hide BooksOk, Update, Detach, Adopt, DeferRunner, ReleaseRunner, RememberRunnerId, RecordAssignment, Admissible;
    match c {
      case NoCall =>
      case CallUpdate(key, capacity, change) =>
        if Update(t, cfg, now, key, capacity, change).Committed? {
          UpdateKeepsBooks(cfg, t, now, key, capacity, change);
        }
      case CallDetach(key, token, spare, due) =>
        if Detach(t, now, key, token, spare, due).Committed? { DetachKeepsBooks(cfg, t, now, key, token, spare, due); }
      case CallAdopt(key, token, names) =>
        if Adopt(t, now, key, token, names).Committed? { AdoptKeepsBooks(cfg, t, now, key, token, names); }
      case CallDefer(name, due, available) => DeferKeepsBooks(cfg, t, name, due, available);
      case CallRelease(name) => ReleaseKeepsBooks(cfg, t, name);
      case CallRemember(name, id) =>
        if RememberRunnerId(t, name, id).Committed? { RememberKeepsBooks(cfg, t, name, id); }
      case CallAssign(key, name, job) =>
        if RecordAssignment(t, now, key, name, job).Committed? { AssignmentKeepsBooks(cfg, t, now, key, name, job); }
    }
  }

  /** Which updates a worker makes. */
  ghost predicate WorkUpdate(cfg: Config, s: System, id: Id, act: WorkAction, key: Id, c: Change) {
    var w := s.At(id);
    && key == w.key && !c.Claim? && !c.Observe? && !c.DeleteDone? && !c.Enqueue? && !c.EnqueueFailed?
    && (if NeedsFence(c) then c.token == id
        else act.FinishTask? && w.pc.AtFinish? && c == Finish(w.dispatch, ErrorAt(w.pc)))
    && (c.Reserve? ==>
          act == Admit(c.name) && w.pc.AtAdmit? && w.r.gen.vm == NONE && c.name != NONE && c.name !in s.nonces)
    && (c.SaveAttempt? ==> act.SaveNext? && w.pc.AtAttempt? && (c.attempt.model == Standard ==> cfg.allowStandard))
    && (c.DropLease? ==> act.Drop?)
  }

  /** Which calls a worker makes. */
  ghost predicate WorkerCalls(cfg: Config, s: System, id: Id, act: WorkAction, c: Call) {
    match c
    case NoCall => true
    case CallUpdate(key, _, change) => WorkUpdate(cfg, s, id, act, key, change)
    case CallAdopt(key, token, names) =>
      && key == s.At(id).key && token == id
      && forall n :: n in names ==> n in s.t.runners && s.t.runners[n].available
    case CallDetach(key, token, _, _) => key == s.At(id).key && token == id && s.At(id).pc.AtDetach?
    case _ => false
  }

  lemma WorkCallKinds(cfg: Config, s: System, id: Id, act: WorkAction)
    requires WorkEnabled(s, id, act)
    ensures id in s.workers && WorkerCalls(cfg, s, id, act, WorkCall(cfg, s, id, act))
  {
    hide MayLookUp, MayReply, MayEndWait, MayAnswer;
  }

  /** A worker's fenced call that commits finds its own lease. */
  lemma CommitsInLease(cfg: Config, s: System, id: Id, capacity: bool, c: Change)
    requires CarriedBy(c, id) && Update(s.t, cfg, s.now, s.At(id).key, capacity, c).Committed?
    ensures var r := Load(s.t, s.At(id).key); r.lease.holder == id && s.now < r.lease.until
  {
    hide Update;
    UpdateBounds(cfg, s.t, s.now, s.At(id).key, capacity, c);
  }

  lemma WorkerIsThere(s: System, id: Id, act: WorkAction)
    requires WorkEnabled(s, id, act)
    ensures id in s.workers && Fits(act, s.At(id).pc) && Answerable(s, s.At(id), act)
  {
  }

  lemma WorkCallLawful(cfg: Config, s: System, id: Id, act: WorkAction)
    requires AllStand(cfg, s) && WorkEnabled(s, id, act)
    ensures Lawful(cfg, s.t, s.now, WorkCall(cfg, s, id, act))
  {
    hide WorkCall, WorkEnabled, BooksOk, Update, DeletingOk;
    WorkCallKinds(cfg, s, id, act);
    Stands(cfg, s, id);
    match WorkCall(cfg, s, id, act) {
      case CallUpdate(key, capacity, c) =>
        if c.Reserve? && Update(s.t, cfg, s.now, key, capacity, c).Committed? {
          CommitsInLease(cfg, s, id, capacity, c);
        }
      case _ =>
    }
  }

  /** Which calls everybody else makes: nobody reserves, saves attempts or adopts, and
      nobody is fenced. */
  ghost predicate OtherCalls(s: System, a: Action, c: Call) {
    match c
    case CallUpdate(key, _, change) =>
      && key != NONE && !NeedsFence(change) && NamesJob(change)
      && (change.Claim? ==> a.ClaimJob? && change.token == a.id && a.id != NONE && a.id !in s.nonces)
      && (change.DeleteDone? ==> change.name != NONE && key in s.deleting)
      && (change.Finish? ==> change.err.NoError?)
    case CallAdopt(_, _, _) => false
    case CallDetach(_, _, _, _) => false
    case _ => true
  }

  lemma OtherCallKinds(cfg: Config, s: System, a: Action)
    requires Enabled(cfg, s, a) && !a.Work? && DeletingOk(s)
    ensures OtherCalls(s, a, CallOf(cfg, s, a))
  {
    hide MayAnswer, ShouldRemove, WorkEnabled, WorkCall;
  }

  lemma StepLawful(cfg: Config, s: System, a: Action)
    requires AllStand(cfg, s) && Enabled(cfg, s, a)
    ensures Lawful(cfg, s.t, s.now, CallOf(cfg, s, a))
  {
    hide WorkCall, BooksOk, Update, WorkEnabled;
    if a.Work? { WorkCallLawful(cfg, s, a.id, a.act); } else { OtherCallKinds(cfg, s, a); }
  }

  // ----- what a call means to a worker that did not make it

  /** The step is this worker's. */
  predicate ActsFor(a: Action, id: Id) {
    a.Work? && a.id == id
  }

  /** No callback that needs no lease does more to a claim than give it up. */
  lemma UnfencedClaim(c: Change, cfg: Config, now: Time, r: Record, f: Fleet)
    requires !NeedsFence(c)
    ensures var o := Apply(c, cfg, now, r, f);
            o.Accept? ==>
              || o.r.gen == r.gen
              || (o.r.gen == NoGeneration(r.gen.machine) && (c == DeleteDone(r.gen.vm) || Releases(c, r)))
  {
  }

  /** The call is not this worker's own. */
  predicate Foreign(c: Call, id: Id) {
    match c
    case CallUpdate(_, _, change) =>
      (NeedsFence(change) || change.Claim? ==> change.token != id) && NamesJob(change)
    case CallDetach(_, token, _, _) => token != id
    case CallAdopt(_, token, _) => token != id
    case _ => true
  }

  /** The call gives the claim of this job up: a confirmed deletion, or finishTask. */
  predicate Surrenders(t: Tables, c: Call, key: Id) {
    match c
    case CallUpdate(k, _, change) =>
      k == key && (change == DeleteDone(Load(t, key).gen.vm) || Releases(change, Load(t, key)))
    case _ => false
  }

  /** While a worker is the stored holder, nobody else writes its lease or does more
      to its claim than release it, and that only by a confirmed deletion or finishTask. */
  ghost predicate Unharmed(t: Tables, t2: Tables, now: Time, c: Call, key: Id, id: Id) {
    var r, r2 := Load(t, key), Load(t2, key);
    && (r2.lease.holder == id ==>
          r2.lease == r.lease && (r2.gen == r.gen || (Yielded(r2.gen) && Surrenders(t, c, key))))
    && (r.lease.holder == id && now < r.lease.until ==> r2.lease == r.lease)
    && (key in t.jobs ==> key in t2.jobs)
    && (r.job.id != NONE ==> r2.job.id != NONE)
  }

  lemma UpdateUnharmed(cfg: Config, t: Tables, now: Time, k: Id, capacity: bool, c: Change, key: Id, id: Id)
    requires id != NONE && Foreign(CallUpdate(k, capacity, c), id) && Update(t, cfg, now, k, capacity, c).Committed?
    ensures Unharmed(t, Update(t, cfg, now, k, capacity, c).t, now, CallUpdate(k, capacity, c), key, id)
  {
    hide Apply, Update, Releases;
    Stored(cfg, t, now, k, capacity, c);
    UpdateBounds(cfg, t, now, k, capacity, c);
    if !NeedsFence(c) { UnfencedClaim(c, cfg, now, Load(t, k), Counts(t, capacity)); }
  }

  lemma CallUnharmed(cfg: Config, t: Tables, now: Time, c: Call, key: Id, id: Id)
    requires BooksOk(cfg, t) && now > NEVER && Lawful(cfg, t, now, c)
    requires id != NONE && Foreign(c, id)
    ensures Unharmed(t, Perform(cfg, t, now, c), now, c, key, id)
  {
    hide Update, Detach, Adopt, RememberRunnerId, BooksOk, RecordOk, Admissible, Surrenders;
    match c {
      case CallUpdate(k, capacity, change) =>
        if Update(t, cfg, now, k, capacity, change).Committed? {
          UpdateUnharmed(cfg, t, now, k, capacity, change, key, id);
        }
      case CallDetach(k, token, spare, due) =>
        if Detach(t, now, k, token, spare, due).Committed? { Detached(cfg, t, now, k, token, spare, due); }
      case CallAdopt(k, token, names) =>
        if Adopt(t, now, k, token, names).Committed? { Adopted(cfg, t, now, k, token, names); }
      case CallRemember(name, runnerId) =>
        if RememberRunnerId(t, name, runnerId).Committed? { Remembered(cfg, t, name, runnerId); }
      case _ =>
    }
  }

  // ----- and to the one that made it

  lemma OwnLease(cfg: Config, s: System, id: Id, act: WorkAction)
    requires AllStand(cfg, s) && WorkEnabled(s, id, act) && !act.Drop?
    ensures var key := s.At(id).key;
            var r, r2 := Load(s.t, key), Load(Perform(cfg, s.t, s.now, WorkCall(cfg, s, id, act)), key);
            && key in Perform(cfg, s.t, s.now, WorkCall(cfg, s, id, act)).jobs
            && r2.lease == r.lease && r2.job.id != NONE
  {
    hide WorkCall, WorkEnabled, BooksOk, Update, Detach, Adopt, DeletingOk, RecordOk;
    WorkCallKinds(cfg, s, id, act);
    Stands(cfg, s, id);
    var key := s.At(id).key;
    match WorkCall(cfg, s, id, act) {
      case NoCall =>
      case CallUpdate(_, capacity, c) =>
        if Update(s.t, cfg, s.now, key, capacity, c).Committed? { UpdateBounds(cfg, s.t, s.now, key, capacity, c); }
      case CallAdopt(_, token, names) =>
        if Adopt(s.t, s.now, key, token, names).Committed? { Adopted(cfg, s.t, s.now, key, token, names); }
      case CallDetach(_, token, spare, due) =>
        if Detach(s.t, s.now, key, token, spare, due).Committed? { Detached(cfg, s.t, s.now, key, token, spare, due); }
    }
  }

  /** The worker went on with what is stored, or nothing happened to its claim, or it
      has to re-read, or it is through. */
  ghost predicate Tracks(s: System, s2: System, id: Id) {
    var w, w2 := s.At(id), s2.At(id);
    Active(w2.pc) ==>
      && Active(w.pc)
      && (|| w2.r == Load(s2.t, w.key)
          || w2.pc.AtReread?
          || (Load(s2.t, w.key).gen == Load(s.t, w.key).gen && !w.pc.AtReread?))
  }

  lemma QuietTracks(cfg: Config, s: System, id: Id, act: WorkAction)
    requires CallsNothing(act) && Fits(act, s.At(id).pc) && !act.Crash?
    ensures Tracks(s, WorkStep(cfg, s, id, act), id)
  {
    hide WorkStep, WorkCall;
    QuietCalls(cfg, s, id, act);
    if act.Abort? { Withdraws(cfg, s, id, act.err); }
  }

  lemma Withdraws(cfg: Config, s: System, id: Id, err: WorkError)
    ensures var s2 := WorkStep(cfg, s, id, Abort(err));
            s2 == Goto(s, id, s2.At(id).pc) && !Active(s2.At(id).pc) && s2.t == s.t
            && s2.At(id).pc == if s.At(id).pc.AtEnd? then AtFinish(ErrorAt(s.At(id).pc)) else AtEnd(err)
  {
  }

  lemma GotoTracks(s: System, id: Id, pc: Pc)
    requires !Active(pc) || (Active(s.At(id).pc) && !s.At(id).pc.AtReread?)
    ensures Tracks(s, Goto(s, id, pc), id)
  {
  }

  lemma WriteTracks(cfg: Config, s: System, s1: System, id: Id, capacity: bool, c: Change, refresh: bool, pc: Pc)
    requires s1.At(id).key == s.At(id).key && (if refresh then Active(s.At(id).pc) else !Active(pc))
    ensures Tracks(s, Write(cfg, s1, id, capacity, c, refresh, pc), id)
  {
    hide Update, Load, Write;
    WriteGoes(cfg, s1, id, capacity, c, refresh, pc);
  }

  lemma StoringTracks(cfg: Config, s: System, id: Id, act: WorkAction)
    requires !CallsNothing(act) && Fits(act, s.At(id).pc) && !act.FinishTask? && !act.TryAdopt? && !act.Decide?
    ensures Tracks(s, WorkStep(cfg, s, id, act), id)
  {
    hide Update, Detach, InspectOrDecide, AfterClear, Unsubmitted, AttemptOf, Goto, Write, Load, Tracks;
    forall s1: System, capacity, c, refresh, pc |
      s1.At(id).key == s.At(id).key && (if refresh then Active(s.At(id).pc) else !Active(pc))
      ensures Tracks(s, Write(cfg, s1, id, capacity, c, refresh, pc), id)
    {
      WriteTracks(cfg, s, s1, id, capacity, c, refresh, pc);
    }
    forall pc | !Active(pc) || (Active(s.At(id).pc) && !s.At(id).pc.AtReread?) ensures Tracks(s, Goto(s, id, pc), id) {
      GotoTracks(s, id, pc);
    }
    if act.DetachOwn? || act.Drop? { EndingTracks(cfg, s, id, act); }
  }

  lemma EndingTracks(cfg: Config, s: System, id: Id, act: WorkAction)
    requires act.DetachOwn? || act.Drop?
    ensures Tracks(s, WorkStep(cfg, s, id, act), id)
  {
    hide Update, Detach;
  }

  lemma DecideTracks(cfg: Config, s: System, id: Id)
    requires s.At(id).pc.AtDecide?
    ensures Tracks(s, DecideStep(cfg, s, id), id)
  {
    hide Update;
    var w := s.At(id);
    if w.status.Some? && Update(s.t, cfg, s.now, w.key, false, SaveDemand(id, w.status.value)).Committed? {
      ClaimAfter(cfg, s.t, s.now, w.key, false, SaveDemand(id, w.status.value));
    }
  }

  lemma AdoptTracks(cfg: Config, s: System, id: Id, names: seq<Id>)
    requires BooksOk(cfg, s.t) && s.now > NEVER && s.At(id).pc.AtAdopt?
    requires forall n :: n in names ==> n in s.t.runners && s.t.runners[n].available
    ensures Tracks(s, AdoptStep(s, id, names), id)
  {
    hide Adopt, BooksOk, RecordOk;
    var key := s.At(id).key;
    KeysAreReal(cfg, s.t);
    if Adopt(s.t, s.now, key, id, names).Committed? { Adopted(cfg, s.t, s.now, key, id, names); }
  }

  lemma NamedSteps(cfg: Config, s: System, id: Id, act: WorkAction)
    requires WorkEnabled(s, id, act) && (act.Decide? || act.TryAdopt?)
    ensures act.Decide? ==> s.At(id).pc.AtDecide? && WorkStep(cfg, s, id, act) == DecideStep(cfg, s, id)
    ensures act.TryAdopt? ==>
              && s.At(id).pc.AtAdopt? && WorkStep(cfg, s, id, act) == AdoptStep(s, id, act.names)
              && forall n :: n in act.names ==> n in s.t.runners && s.t.runners[n].available
  {
    hide DecideStep, AdoptStep;
  }

  lemma StepTracks(cfg: Config, s: System, id: Id, act: WorkAction)
    requires AllStand(cfg, s) && WorkEnabled(s, id, act) && !Leaves(act)
    ensures id in s.workers && Tracks(s, WorkStep(cfg, s, id, act), id)
  {
    hide WorkStep, WorkEnabled, Tracks, BooksOk, DeletingOk, DecideStep, AdoptStep, Fits;
    WorkerIsThere(s, id, act);
    Stands(cfg, s, id);
    if CallsNothing(act) {
      QuietTracks(cfg, s, id, act);
    } else if act.Decide? || act.TryAdopt? {
      NamedSteps(cfg, s, id, act);
      if act.Decide? { DecideTracks(cfg, s, id); } else { AdoptTracks(cfg, s, id, act.names); }
    } else {
      StoringTracks(cfg, s, id, act);
    }
  }

  // ----- steps and runs

  /** The parts of a worker's standing its own step could touch. */
  lemma TrackerStands(s: System, s2: System, id: Id)
    requires WorkerStands(s, id, s.At(id)) && Tracks(s, s2, id)
    requires
      var w, w2 := s.At(id), s2.At(id);
      && w2.key == w.key && w2.deadline == w.deadline && w2.until == w.until
      && (w2.r == w.r || w2.r == Load(s2.t, w.key))
      && s2.now == s.now && s.nonces <= s2.nonces
      && w.key in s2.t.jobs && Load(s2.t, w.key).job.id != NONE
      && (Active(w2.pc) ==> Load(s2.t, w.key).lease == Load(s.t, w.key).lease)
    ensures WorkerStands(s2, id, s2.At(id))
  {
  }

  lemma OwnStands(cfg: Config, s: System, id: Id, act: WorkAction)
    requires AllStand(cfg, s) && WorkEnabled(s, id, act) && !Leaves(act)
    ensures var s2 := WorkStep(cfg, s, id, act); WorkerStands(s2, id, s2.At(id))
  {
    hide WorkStep, WorkEnabled, BooksOk, DeletingOk, Perform, WorkCall, Tracks, HolderFits;
    WorkerIsThere(s, id, act);
    Stands(cfg, s, id);
    StepTracks(cfg, s, id, act);
    WorkStepFrame(cfg, s, id, act);
    WorkStepCalls(cfg, s, id, act);
    if act.Drop? {
      DropEnds(cfg, s, id);
    } else {
      OwnLease(cfg, s, id, act);
    }
    TrackerStands(s, WorkStep(cfg, s, id, act), id);
  }

  lemma DropEnds(cfg: Config, s: System, id: Id)
    requires AllStand(cfg, s) && id in s.workers
    ensures var s2 := WorkStep(cfg, s, id, Drop);
            var key := s.At(id).key;
            !Active(s2.At(id).pc) && key in s2.t.jobs && Load(s2.t, key).job.id != NONE
  {
    hide BooksOk, DeletingOk, Update;
    Stands(cfg, s, id);
    var key := s.At(id).key;
    if Update(s.t, cfg, s.now, key, false, DropLease(id)).Committed? {
      UpdateBounds(cfg, s.t, s.now, key, false, DropLease(id));
    }
  }

  lemma OtherStands(s: System, s2: System, c: Call, id: Id, w: Worker)
    requires WorkerStands(s, id, w) && Unharmed(s.t, s2.t, s.now, c, w.key, id)
    requires s.now <= s2.now && s.nonces <= s2.nonces
    ensures WorkerStands(s2, id, w)
  {
    hide Surrenders;
  }

  /** The identifiers a step may draw. */
  function Drawn(a: Action): set<Id> {
    match a
    case Work(_, act) => Draws(act)
    case Dispatch(_, token, _) => {token}
    case ClaimJob(_, id, _) => {id}
    case _ => {}
  }

  lemma NewcomerStands(cfg: Config, s: System, s2: System, a: Action, id: Id)
    requires AllStand(cfg, s) && Enabled(cfg, s, a) && Joins(cfg, s, s2, a) && IsNew(s, s2, id)
    requires s2.t == Perform(cfg, s.t, s.now, CallOf(cfg, s, a)) && s2.now == s.now && s.nonces + Drawn(a) <= s2.nonces
    ensures WorkerStands(s2, id, s2.At(id))
  {
    hide BooksOk, Update;
    UpdateBounds(cfg, s.t, s.now, a.start.key, false, Claim(a.id));
  }

  /** The call of a step is foreign to every worker but the one that acts or comes. */
  lemma StepForeign(cfg: Config, s: System, a: Action, id: Id)
    requires AllStand(cfg, s) && Enabled(cfg, s, a) && id in s.workers && !ActsFor(a, id)
    ensures Foreign(CallOf(cfg, s, a), id)
  {
    hide BooksOk, WorkCall, WorkEnabled;
    Stands(cfg, s, id);
    if a.Work? { WorkCallKinds(cfg, s, a.id, a.act); } else { OtherCallKinds(cfg, s, a); }
  }

  lemma StepFrame(cfg: Config, s: System, a: Action)
    requires Enabled(cfg, s, a)
    ensures var s2 := Step(cfg, s, a);
            && s.now <= s2.now && (a.Tick? || s2.now == s.now)
            && s.nonces <= s2.nonces <= s.nonces + Drawn(a) && (a.Work? || s2.nonces == s.nonces + Drawn(a))
            && forall n :: n in Drawn(a) ==> n != NONE && n !in s.nonces
  {
    hide Update, WorkStep, RememberRunnerId, RecordAssignment, MayAnswer, ShouldRemove, IsCandidateList, MayLookUp,
      MayReply, MayEndWait;
    if a.Work? { WorkStepFrame(cfg, s, a.id, a.act); }
  }

  lemma WorkersStand(cfg: Config, s: System, a: Action)
    requires AllStand(cfg, s) && Enabled(cfg, s, a)
    ensures var s2 := Step(cfg, s, a); forall id :: id in s2.workers ==> WorkerStands(s2, id, s2.At(id))
  {
    hide BooksOk, DeletingOk, Step, WorkStep, Enabled, Perform, CallOf, WorkerStands, Unharmed, Foreign, Lawful,
      WorkEnabled;
    var s2 := Step(cfg, s, a);
    StepFrame(cfg, s, a);
    StepCalls(cfg, s, a);
    StepWorkers(cfg, s, a);
    forall id | id in s2.workers ensures WorkerStands(s2, id, s2.At(id)) {
      if ActsFor(a, id) {
        OwnStands(cfg, s, id, a.act);
      } else if id in s.workers && s2.At(id) == s.At(id) {
        OldStands(cfg, s, a, id);
      } else {
        NewcomerStands(cfg, s, s2, a, id);
      }
    }
  }

  /** A step moves its own worker, adds one, or leaves the workers alone. */
  lemma StepWorkers(cfg: Config, s: System, a: Action)
    requires Enabled(cfg, s, a)
    ensures var s2 := Step(cfg, s, a);
            if a.Work? then
              WorkEnabled(s, a.id, a.act) && s2 == WorkStep(cfg, s, a.id, a.act) && OnlyMoves(s, s2, a.id)
              && (a.id in s2.workers <==> !Leaves(a.act))
            else s2.workers == s.workers || Joins(cfg, s, s2, a)
  {
    hide WorkStep, Answerable, Commit, CommitTx, DispatchStep, StartTaskStep, ClaimStep, ReleaseRunner, DeferRunner;
    if a.Work? { WorkStepFrame(cfg, s, a.id, a.act); } else { OtherWorkersStay(cfg, s, a); }
  }

  lemma OldStands(cfg: Config, s: System, a: Action, id: Id)
    requires AllStand(cfg, s) && Enabled(cfg, s, a) && id in s.workers && !ActsFor(a, id)
    ensures WorkerStands(Step(cfg, s, a), id, s.At(id))
  {
    hide BooksOk, DeletingOk, Step, Enabled, Perform, CallOf, Unharmed, Foreign, Lawful;
    Stands(cfg, s, id);
    StepFrame(cfg, s, a);
    StepCalls(cfg, s, a);
    StepLawful(cfg, s, a);
    StepForeign(cfg, s, a, id);
    CallUnharmed(cfg, s.t, s.now, CallOf(cfg, s, a), s.At(id).key, id);
    OtherStands(s, Step(cfg, s, a), CallOf(cfg, s, a), id, s.At(id));
  }

  predicate Finished(t: Tables, key: Id) {
    key in t.jobs && t.jobs[key].terminal
  }

  /** No store call reopens a finished job. */
  lemma CallKeepsFinished(cfg: Config, t: Tables, now: Time, c: Call, key: Id)
    requires Finished(t, key)
    ensures Finished(Perform(cfg, t, now, c), key)
  {
    hide Update;
    match c {
      case CallUpdate(k, capacity, change) =>
        if Update(t, cfg, now, k, capacity, change).Committed? { UpdateBounds(cfg, t, now, k, capacity, change); }
      case _ =>
    }
  }

  ghost predicate OversStay(t: Tables, t2: Tables) {
    forall k :: k in t.jobs && t.jobs[k].terminal ==> Finished(t2, k)
  }

  lemma NoNewTasks(cfg: Config, s: System, a: Action)
    requires !a.Dispatch? && !a.StartTask? && !a.ClaimJob? && (a.Work? ==> a.id in s.workers)
    ensures var s2 := Step(cfg, s, a);
            && s2.deleting == s.deleting && s2.payloads == s.payloads && s2.deletions == s.deletions
            && s2.starts == s.starts && s.now <= s2.now
  {
    hide Update, WorkStep, RememberRunnerId, RecordAssignment;
    if a.Work? { WorkStepFrame(cfg, s, a.id, a.act); }
  }

  /** A task that deletes is dispatched for a job that is over and owes a deletion. */
  lemma DispatchTasks(cfg: Config, s: System, key: Id, token: Id, delay: Time)
    requires BooksOk(cfg, s.t) && DeletingOk(s) && key != NONE
    requires OversStay(s.t, DispatchStep(cfg, s, key, token, delay).t)
    ensures DeletingOk(DispatchStep(cfg, s, key, token, delay))
  {
    hide BooksOk, Update, MaySend;
    LoadFiled(cfg, s.t, key);
    assert Load(s.t, key).pendingDelete != NONE ==> key in s.t.jobs && s.t.jobs[key].terminal;
    hide Load, Filed;
  }

  lemma StartTasks(cfg: Config, s: System, token: Id)
    requires DeletingOk(s) && token in s.payloads && OversStay(s.t, StartTaskStep(cfg, s, token).t)
    ensures DeletingOk(StartTaskStep(cfg, s, token))
  {
    hide Update;
  }

  lemma ClaimTasks(cfg: Config, s: System, start: Start, id: Id, override: Option<Id>)
    requires DeletingOk(s) && OversStay(s.t, ClaimStep(cfg, s, start, id, override).t)
    ensures DeletingOk(ClaimStep(cfg, s, start, id, override))
  {
    hide Update;
  }

  lemma TasksStay(s: System, s2: System)
    requires DeletingOk(s) && OversStay(s.t, s2.t) && s.now <= s2.now
    requires s2.deleting == s.deleting && s2.payloads == s.payloads && s2.deletions == s.deletions
    requires s2.starts == s.starts
    ensures DeletingOk(s2)
  {
  }

  lemma TasksStand(cfg: Config, s: System, a: Action)
    requires AllStand(cfg, s) && Enabled(cfg, s, a) && OversStay(s.t, Step(cfg, s, a).t)
    ensures DeletingOk(Step(cfg, s, a))
  {
    hide BooksOk, OversStay, DeletingOk, Fits, MayAnswer, ShouldRemove, VmExists, EvidenceOk, WorkStep, WorkerStands,
      Answerable, DispatchStep, StartTaskStep, ClaimStep, Commit, CommitTx, DeferRunner, ReleaseRunner;
    match a {
      case Dispatch(key, token, delay) => DispatchTasks(cfg, s, key, token, delay);
      case StartTask(token) => StartTasks(cfg, s, token);
      case ClaimJob(start, id, override) => ClaimTasks(cfg, s, start, id, override);
      case _ =>
        NoNewTasks(cfg, s, a);
        TasksStay(s, Step(cfg, s, a));
    }
  }

  /** The only way a callback puts a new name into a record. */
  lemma ChangeOnName(c: Change, cfg: Config, now: Time, r: Record, f: Fleet)
    ensures var o := Apply(c, cfg, now, r, f);
            o.Accept? && o.r.gen.vm != NONE && o.r.gen.vm != r.gen.vm ==> c.Reserve? && o.r.gen.vm == c.name
  {
  }

  /** The call reserves this name. */
  predicate Reserves(c: Call, n: Id) {
    c.CallUpdate? && c.change.Reserve? && c.change.name == n
  }

  lemma CallOnNames(cfg: Config, t: Tables, now: Time, c: Call, n: Id)
    requires BooksOk(cfg, t) && Lawful(cfg, t, now, c) && n in Perform(cfg, t, now, c).runners && n !in t.runners
    ensures Reserves(c, n)
  {
    hide Apply, Prepare, BooksOk;
    if c.CallUpdate? && Update(t, cfg, now, c.key, c.capacity, c.change).Committed? {
      var r := Load(t, c.key);
      ChangeOnName(c.change, cfg, now, r, Counts(t, c.capacity));
      PrepareKeepsClaim(Apply(c.change, cfg, now, r, Counts(t, c.capacity)).r, now);
      LoadFiled(cfg, t, c.key);
      if r.gen.vm != NONE { OwnershipIsBijective(cfg, t, c.key, r.gen.vm); }
    } else {
      KeysAreReal(cfg, t);
    }
  }

  /** A name enters the ledger in the step that draws it. */
  lemma NewNames(cfg: Config, s: System, a: Action, n: Id)
    requires AllStand(cfg, s) && Enabled(cfg, s, a) && n in Step(cfg, s, a).t.runners && n !in s.t.runners
    ensures n !in s.nonces && n in Step(cfg, s, a).nonces
  {
    hide AllStand, BooksOk, Lawful, Perform, Update, MayAnswer, ShouldRemove, MayLookUp, MayReply, MayEndWait;
    StepCalls(cfg, s, a);
    StepLawful(cfg, s, a);
    assert BooksOk(cfg, s.t) by { BooksStand(cfg, s); }
    CallOnNames(cfg, s.t, s.now, CallOf(cfg, s, a), n);
  }

  lemma NamesStand(cfg: Config, s: System, a: Action)
    requires AllStand(cfg, s) && Enabled(cfg, s, a)
    ensures NamesOk(Step(cfg, s, a))
  {
    hide BooksOk, EvidenceOk, DeletingOk, Step, Enabled, WorkerStands;
    var s2 := Step(cfg, s, a);
    StepFrame(cfg, s, a);
    forall n | n in s2.t.runners ensures n in s2.nonces {
      if n !in s.t.runners { NewNames(cfg, s, a, n); }
    }
  }

  lemma CallKeepsEvidenceKeys(cfg: Config, t: Tables, now: Time, c: Call)
    requires EvidenceOk(t)
    ensures EvidenceOk(Perform(cfg, t, now, c))
  {
    hide Apply, Prepare, Mirror, AdoptedRecord, Withdrawn;
  }

  /** Every step of every actor keeps what stands. */
  lemma StepStands(cfg: Config, s: System, a: Action)
    requires AllStand(cfg, s) && Enabled(cfg, s, a)
    ensures AllStand(cfg, Step(cfg, s, a))
  {
    hide BooksOk, EvidenceOk, DeletingOk, NamesOk, Step, Enabled, Perform, CallOf, WorkerStands, Lawful;
    StepCalls(cfg, s, a);
    StepLawful(cfg, s, a);
    CallKeepsBooks(cfg, s.t, s.now, CallOf(cfg, s, a));
    CallKeepsEvidenceKeys(cfg, s.t, s.now, CallOf(cfg, s, a));
    NamesStand(cfg, s, a);
    WorkersStand(cfg, s, a);
    forall k | k in s.t.jobs && s.t.jobs[k].terminal ensures Finished(Step(cfg, s, a).t, k) {
      CallKeepsFinished(cfg, s.t, s.now, CallOf(cfg, s, a), k);
    }
    TasksStand(cfg, s, a);
    StepFrame(cfg, s, a);
  }

  lemma {:induction false} RunStands(cfg: Config, run: seq<System>, acts: seq<Action>, i: nat)
    requires IsRun(cfg, run, acts) && i < |run|
    ensures AllStand(cfg, StateAt(run, i))
  {
    hide Enabled, Step;
    if i > 0 {
      hide AllStand;
      RunStands(cfg, run, acts, i - 1);
      StepStands(cfg, StateAt(run, i - 1), ActionAt(acts, i - 1));
    }
  }
}
