/** What a store call may do to a ledger that fits the cloud. */
module Effects {
  import opened Types
  import opened Records
  import opened Transactions
  import opened CreationPlans
  import opened Callbacks
  import opened Ledger
  import opened Protocol
  import opened Transitions
  import opened Standing
  import opened Invariant

  /** The attempt carries the request id of the saved one. */
  predicate Repeats(g: Generation, a: Attempt) {
    RequestOf(g) == Request(g.vm, a.zone, a.model, a.machine)
  }

  /** What a callback that edits a claim owes the cloud. */
  ghost predicate Justified(s: System, key: Id, c: Change) {
    var g := Load(s.t, key).gen;
    && (c.Reserve? ==> c.name !in s.nonces)
    && (c.KeepRunning? || c.MarkCreated? ==> g.vm != NONE && g.vm in s.cloud.appeared)
    && (c.ForgetAttempt? && g.vm != NONE ==> g.createdAt == NEVER && Untouched(s.cloud, g.vm))
    && (c.SaveJit? ==> c.jit != NONE)
    && (c.SaveAttempt? ==> Submittable(c.attempt))
    && (c.SaveAttempt? && g.vm != NONE ==> (g.zone == NONE && Untouched(s.cloud, g.vm)) || Repeats(g, c.attempt))
    && (c.SaveOperation? ==> g.vm != NONE && Accepted(s.cloud, RequestOf(g)))
  }

  /** A claim after an edit that leaves its request, or has nothing submitted. */
  lemma EditFits(s: System, g: Generation, g2: Generation)
    requires FleetOk(s.cloud) && RowFits(s.cloud, g.vm, g, false) && g2.vm == g.vm
    requires Untouched(s.cloud, g.vm) || RequestOf(g2) == RequestOf(g)
    requires (g.template != NONE ==> g2.template != NONE) || Untouched(s.cloud, g.vm)
    requires g.jit != NONE ==> g2.jit != NONE
    requires g2.createdAt != NEVER ==> g.vm in s.cloud.appeared
    requires g2.operation != NONE ==> Accepted(s.cloud, RequestOf(g2))
    ensures RowFits(s.cloud, g2.vm, g2, false)
  {
  }

  lemma UnusedFits(s: System, g: Generation)
    requires FleetOk(s.cloud) && NamesDrawn(s) && g.vm !in s.nonces && g.vm != NONE
    requires g.createdAt == NEVER && g.operation == NONE
    ensures RowFits(s.cloud, g.vm, g, false)
  {
  }

  /** The claim a justified update leaves fits the cloud again. */
  lemma NewClaimFits(cfg: Config, s: System, key: Id, capacity: bool, c: Change)
    requires BooksOk(cfg, s.t) && FleetOk(s.cloud) && RowsFit(s.t, s.cloud) && NamesDrawn(s)
    requires Admissible(cfg, s.t, key, c) && Justified(s, key, c)
    requires Update(s.t, cfg, s.now, key, capacity, c).Committed?
    ensures var g := Load(Update(s.t, cfg, s.now, key, capacity, c).t, key).gen;
            (g.vm != NONE ==> RowFits(s.cloud, g.vm, g, false)) && Unmade(g) && Saved(g)
  {
    hide Update, Apply, BooksOk, RowFits, FleetOk, NamesDrawn;
    var g := Load(s.t, key).gen;
    var g2 := Load(Update(s.t, cfg, s.now, key, capacity, c).t, key).gen;
    assert Unmade(g) && Saved(g);
    if g.vm != NONE { ClaimRow(cfg, s.t, s.cloud, key); }
    if NeedsFence(c) {
      ClaimAfter(cfg, s.t, s.now, key, capacity, c);
    } else {
      Stored(cfg, s.t, s.now, key, capacity, c);
      UnfencedClaim(c, cfg, s.now, Load(s.t, key), Counts(s.t, capacity));
    }
    if c.Reserve? {
      if g2 != g { UnusedFits(s, g2); }
    } else if g.vm != NONE && g2.vm != NONE && g2 != g {
      EditedClaim(s, key, c, g, g2);
    }
  }

  lemma EditedClaim(s: System, key: Id, c: Change, g: Generation, g2: Generation)
    requires FleetOk(s.cloud) && NamesDrawn(s) && RowFits(s.cloud, g.vm, g, false) && g == Load(s.t, key).gen
    requires Justified(s, key, c) && g.vm != NONE
    requires
      match c {
        case ForgetAttempt(_) => g2 == g.(zone := NONE, model := NoModel, operation := NONE, template := NONE)
        case SaveJit(_, jit) => g2 == g.(jit := jit, jitIssuedAt := g2.jitIssuedAt)
        case SaveAttempt(_, a) =>
          g2 == g.(template := a.template, zone := a.zone, model := a.model, machine := a.machine,
                   attemptedAt := g2.attemptedAt)
        case SaveOperation(_, operation) => g2 == g.(operation := operation)
        case KeepRunning(_) => g2 == g.(createdAt := g2.createdAt)
        case MarkCreated(_) => g2 == g.(createdAt := g2.createdAt)
        case _ => false
      }
    ensures RowFits(s.cloud, g2.vm, g2, false)
  {
    hide FleetOk, Untouched;
    assert g.operation != NONE ==> g.zone != NONE;
    assert g.createdAt != NEVER ==> g.vm in s.cloud.appeared;
    EditFits(s, g, g2);
  }

  lemma UpdateFits(cfg: Config, s: System, key: Id, capacity: bool, c: Change)
    requires BooksOk(cfg, s.t) && FleetOk(s.cloud) && RowsFit(s.t, s.cloud) && NamesDrawn(s) && s.now > NEVER
    requires Admissible(cfg, s.t, key, c) && Justified(s, key, c)
    requires Update(s.t, cfg, s.now, key, capacity, c).Committed?
    ensures RowsFit(Update(s.t, cfg, s.now, key, capacity, c).t, s.cloud)
  {
    hide Update, BooksOk, Justified, RowFits, FleetOk, NamesDrawn, Filed;
    var t2 := Update(s.t, cfg, s.now, key, capacity, c).t;
    NewClaimFits(cfg, s, key, capacity, c);
    RowsAfterUpdate(cfg, s.t, s.now, key, capacity, c, NONE);
    forall n | n in t2.runners
      ensures RowFits(s.cloud, n, t2.runners[n].rec.gen, t2.runners[n].owner == NONE) && Saved(t2.runners[n].rec.gen)
    {
      RowsAfterUpdate(cfg, s.t, s.now, key, capacity, c, n);
    }
  }

  // ----- the other calls

  lemma DetachFits(cfg: Config, t: Tables, c: Cloud, now: Time, key: Id, token: Id, spare: bool, due: Time)
    requires BooksOk(cfg, t) && RowsFit(t, c) && now > NEVER
    requires Load(t, key).gen.vm != NONE ==> Load(t, key).gen.vm in c.appeared
    requires Detach(t, now, key, token, spare, due).Committed?
    ensures RowsFit(Detach(t, now, key, token, spare, due).t, c)
  {
    hide Detach, BooksOk, RecordOk;
    Detached(cfg, t, now, key, token, spare, due);
    if t.jobs[key].gen.vm != NONE { ClaimRow(cfg, t, c, key); }
  }

  lemma AdoptFits(cfg: Config, t: Tables, c: Cloud, now: Time, key: Id, token: Id, names: seq<Id>)
    requires BooksOk(cfg, t) && RowsFit(t, c) && now > NEVER
    requires forall n :: n in names ==> n in t.runners && t.runners[n].available
    requires Adopt(t, now, key, token, names).Committed?
    ensures RowsFit(Adopt(t, now, key, token, names).t, c)
  {
    hide Adopt, BooksOk, RecordOk, RowFits;
    Adopted(cfg, t, now, key, token, names);
    KeysAreReal(cfg, t);
    var t2 := Adopt(t, now, key, token, names).t;
    forall n | n in t2.runners
      ensures RowFits(c, n, t2.runners[n].rec.gen, t2.runners[n].owner == NONE) && Saved(t2.runners[n].rec.gen)
    {
      LooselyFits(c, n, t.runners[n].rec.gen, t.runners[n].owner == NONE);
    }
  }

  lemma LooselyFits(c: Cloud, n: Id, g: Generation, detached: bool)
    requires RowFits(c, n, g, detached)
    ensures RowFits(c, n, g, false)
  {
  }

  /** What a call owes the cloud: an update what its callback does; a detachment that
      the VM has appeared. */
  ghost predicate CallJustified(cfg: Config, s: System, c: Call) {
    match c
    case CallUpdate(key, capacity, change) =>
      Update(s.t, cfg, s.now, key, capacity, change).Committed? ==> Justified(s, key, change)
    case CallDetach(key, token, spare, due) =>
      Detach(s.t, s.now, key, token, spare, due).Committed? && Load(s.t, key).gen.vm != NONE ==>
        Load(s.t, key).gen.vm in s.cloud.appeared
    case _ => true
  }

  /** A justified store call leaves a ledger that fits the cloud. */
  lemma CallFits(cfg: Config, s: System, c: Call)
    requires Inv(cfg, s) && Lawful(cfg, s.t, s.now, c) && CallJustified(cfg, s, c)
    ensures RowsFit(Perform(cfg, s.t, s.now, c), s.cloud)
  {
    hide Update, Detach, Adopt, RememberRunnerId, BooksOk, FleetOk, NamesDrawn, RowFits, Justified, MemoryOk,
      WorkerFits, DeletingOk, EvidenceOk, Saved, WorkerStands, Admissible;
    match c {
      case CallUpdate(key, capacity, change) =>
        if Update(s.t, cfg, s.now, key, capacity, change).Committed? { UpdateFits(cfg, s, key, capacity, change); }
      case CallDetach(key, token, spare, due) =>
        if Detach(s.t, s.now, key, token, spare, due).Committed? {
          DetachFits(cfg, s.t, s.cloud, s.now, key, token, spare, due);
        }
      case CallAdopt(key, token, names) =>
        if Adopt(s.t, s.now, key, token, names).Committed? { AdoptFits(cfg, s.t, s.cloud, s.now, key, token, names); }
      case CallRemember(name, id) =>
        if RememberRunnerId(s.t, name, id).Committed? { Remembered(cfg, s.t, name, id); }
      case _ =>
    }
  }

  /** The call is a delivery of a completed job that leaves this deletion owed. */
  predicate LeavesOwed(c: Call, name: Id) {
    match c
    case CallUpdate(_, _, change) => Owes(change, name)
    case _ => false
  }

  /** Nothing else leaves a deletion owed that was not. */
  lemma CallOnOwed(cfg: Config, t: Tables, now: Time, c: Call, key: Id)
    requires BooksOk(cfg, t) && now > NEVER && Lawful(cfg, t, now, c)
    ensures var owed, owed2 := Load(t, key).pendingDelete, Load(Perform(cfg, t, now, c), key).pendingDelete;
            owed2 == NONE || owed2 == owed || LeavesOwed(c, owed2)
  {
    hide Update, Detach, Adopt, RememberRunnerId, BooksOk, RecordOk, Admissible, Owes;
    match c {
      case CallUpdate(k, capacity, change) =>
        if Update(t, cfg, now, k, capacity, change).Committed? { UpdateBounds(cfg, t, now, k, capacity, change); }
      case CallDetach(k, token, spare, due) =>
        if Detach(t, now, k, token, spare, due).Committed? { Detached(cfg, t, now, k, token, spare, due); }
      case CallAdopt(k, token, names) =>
        if Adopt(t, now, k, token, names).Committed? { Adopted(cfg, t, now, k, token, names); }
      case CallRemember(name, id) => if RememberRunnerId(t, name, id).Committed? { Remembered(cfg, t, name, id); }
      case _ =>
    }
  }
}
