/** The loop of processJob over the creation plan, as the loop it is: on its own,
    with nobody else writing and the clock standing still. */
module CreateLoop {
  import opened Types
  import opened Records
  import opened Transactions
  import opened Ledger
  import opened Callbacks
  import opened Pins
  import opened DocumentStore

  datatype ErrorKind = NoFault | AlreadyThere | NoCapacity | TooMany | BadRequest | Unclear

  /** How one insert ended: its error, the operation Compute accepted it as (NONE if
      it accepted nothing), and whether that operation is over. */
  datatype Answer = Answer(kind: ErrorKind, operation: Id, settled: bool)

  datatype LoopEnd = Made | Uncertain | RateLimit | Rejected | Exhausted | Refused(err: Failure)

  predicate Definite(kind: ErrorKind) {
    kind == NoCapacity || kind == TooMany || kind == BadRequest
  }

  predicate Skipped(cfg: Config, a: Attempt) {
    a.model == Standard && !cfg.allowStandard
  }

  /** The attempts the loop may make, in plan order. */
  function Allowed(cfg: Config, plan: seq<Attempt>): seq<Attempt> {
    if plan == [] then []
    else Allowed(cfg, plan[..|plan| - 1]) + if Skipped(cfg, plan[|plan| - 1]) then [] else [plan[|plan| - 1]]
  }

  lemma {:induction false} AllowedGrows(cfg: Config, plan: seq<Attempt>, i: nat)
    requires i <= |plan|
    ensures Allowed(cfg, plan[..i]) <= Allowed(cfg, plan)
    decreases |plan| - i
  {
    if i < |plan| {
      AllowedGrows(cfg, plan, i + 1);
      assert plan[..i + 1][..i] == plan[..i];
    } else {
      assert plan[..i] == plan;
    }
  }

  /** The worker holds the lease and this reservation with this credential. */
  ghost predicate Working(cfg: Config, t: Tables, now: Time, key: Id, token: Id, vm: Id, jit: Id) {
    && LedgerOk(cfg, t) && now > NEVER && key in t.jobs && vm != NONE
    && Fenced(t.jobs[key], token, now)
    && t.jobs[key].gen.vm == vm && t.jobs[key].gen.jit == jit
  }

  predicate LoopWrite(c: Change) {
    c.SaveAttempt? || c.SaveOperation? || c.MarkCreated? || c.ForgetAttempt?
  }

  /** What the loop's writes leave alone. */
  lemma StillWorking(cfg: Config, t: Tables, now: Time, key: Id, token: Id, vm: Id, jit: Id, capacity: bool, c: Change)
    requires Working(cfg, t, now, key, token, vm, jit) && LoopWrite(c) && c.token == token
    requires c.SaveAttempt? ==> !Skipped(cfg, c.attempt)
    requires Update(t, cfg, now, key, capacity, c).Committed?
    ensures Working(cfg, Update(t, cfg, now, key, capacity, c).t, now, key, token, vm, jit)
  {
    hide LedgerOk, BooksOk, Update, Mirror;
    BooksInLedger(cfg, t);
    KeysAreReal(cfg, t);
    UpdateKeepsLedger(cfg, t, now, key, capacity, c);
    Stored(cfg, t, now, key, capacity, c);
  }

  /** The claim each of the loop's writes leaves. */
  function ClaimWith(c: Change, g: Generation, now: Time): Generation
    requires LoopWrite(c)
  {
    match c
    case SaveAttempt(_, a) =>
      g.(zone := a.zone, model := a.model, machine := a.machine, template := a.template,
         attemptedAt := if g.template == NONE then now else g.attemptedAt)
    case SaveOperation(_, operation) => g.(operation := operation)
    case MarkCreated(_) => g.(createdAt := now)
    case ForgetAttempt(_) => g.(zone := NONE, model := NoModel, operation := NONE, template := NONE)
  }

  lemma ClaimWritten(cfg: Config, t: Tables, now: Time, key: Id, capacity: bool, c: Change)
    requires LoopWrite(c) && Update(t, cfg, now, key, capacity, c).Committed?
    ensures Load(Update(t, cfg, now, key, capacity, c).t, key).gen == ClaimWith(c, Load(t, key).gen, now)
  {
    hide Update;
    Stored(cfg, t, now, key, capacity, c);
  }

  /** One write of the loop. */
  method Save(store: Store, cfg: Config, now: Time, key: Id, token: Id, ghost vm: Id, ghost jit: Id,
      capacity: bool, c: Change)
    returns (err: Option<Failure>)
    requires Working(cfg, store.Contents(), now, key, token, vm, jit) && key in store.jobs
    requires LoopWrite(c) && c.token == token && (c.SaveAttempt? ==> !Skipped(cfg, c.attempt))
    modifies store`jobs, store`runners, store`fleet
    ensures Working(cfg, store.Contents(), now, key, token, vm, jit) && key in store.jobs
    ensures store.jobs[key].gen == if err.None? then ClaimWith(c, old(store.jobs[key].gen), now)
        else old(store.jobs[key].gen)
  {
    hide LedgerOk, Transactions.Update, ClaimWith;
    ghost var t := store.Contents();
    err := store.Update(cfg, now, key, capacity, c);
    if err.None? {
      StillWorking(cfg, t, now, key, token, vm, jit, capacity, c);
      ClaimWritten(cfg, t, now, key, capacity, c);
    }
  }

  /** The answer leaves no doubt that no VM will come of the attempt. */
  predicate Over(a: Answer, g: Generation) {
    Definite(a.kind) && (g.operation == NONE || a.settled)
  }

  /** One turn of the loop; None means that the next attempt is due. */
  method TryAttempt(store: Store, cfg: Config, now: Time, key: Id, token: Id, ghost vm: Id, ghost jit: Id,
                    attempt: Attempt, answered: Answer)
    returns (end: Option<LoopEnd>)
    requires key in store.jobs && Working(cfg, store.Contents(), now, key, token, vm, jit) && !Skipped(cfg, attempt)
    modifies store`jobs, store`runners, store`fleet
    ensures key in store.jobs && Working(cfg, store.Contents(), now, key, token, vm, jit)
    ensures end.None? ==> answered.kind == NoCapacity
    ensures end.None? || end.value.RateLimit? || end.value.Rejected? ==>
              Definite(answered.kind) && store.jobs[key].gen.zone == NONE
    ensures end.Some? ==> !end.value.Exhausted?
    ensures end == Some(Made) ==>
              && answered.kind in {NoFault, AlreadyThere}
              && AttemptOf(store.jobs[key].gen) == attempt && store.jobs[key].gen.createdAt == now
    ensures end == Some(Uncertain) ==>
              && !Over(answered, store.jobs[key].gen) && answered.kind !in {NoFault, AlreadyThere}
              && AttemptOf(store.jobs[key].gen) == attempt
              && (old(store.jobs[key].gen.template) != NONE && AttemptOf(old(store.jobs[key].gen)) == attempt ==>
                    SamePin(old(store.jobs[key].gen), store.jobs[key].gen))
  {
    hide Working;
    var r := store.jobs[key];
    var capacity := (r.gen.model == Standard) != (attempt.model == Standard);
    var err := Save(store, cfg, now, key, token, vm, jit, capacity, SaveAttempt(token, attempt));
    if err.Some? { return Some(LoopEnd.Refused(err.value)); }
    r := store.jobs[key];
    if answered.operation != NONE {
      err := Save(store, cfg, now, key, token, vm, jit, false, SaveOperation(token, answered.operation));
      if err.Some? { return Some(LoopEnd.Refused(err.value)); }
      r := store.jobs[key];
    }
    if answered.kind == NoFault || answered.kind == AlreadyThere {
      err := Save(store, cfg, now, key, token, vm, jit, false, MarkCreated(token));
      return if err.Some? then Some(LoopEnd.Refused(err.value)) else Some(Made);
    }
    if !Definite(answered.kind) || (r.gen.operation != NONE && !answered.settled) { return Some(Uncertain); }
    capacity := r.gen.model == Standard;
    err := Save(store, cfg, now, key, token, vm, jit, capacity, ForgetAttempt(token));
    if err.Some? { return Some(LoopEnd.Refused(err.value)); }
    if answered.kind == NoCapacity { return None; }
    return if answered.kind == TooMany then Some(RateLimit) else Some(Rejected);
  }

  /** The loop tries the permitted attempts in plan order and goes on only after a
      definite lack of capacity.  Whatever it is uncertain about stays saved exactly
      as submitted; whatever was definitely rejected is cleared; the reservation and
      its credential are kept throughout. */
  method TryPlan(store: Store, cfg: Config, now: Time, key: Id, token: Id, plan: seq<Attempt>, answer: nat -> Answer)
    returns (end: LoopEnd, submitted: seq<Attempt>)
    requires key in store.jobs
    requires var g := store.jobs[key].gen; Working(cfg, store.Contents(), now, key, token, g.vm, g.jit)
    modifies store`jobs, store`runners, store`fleet
    ensures key in store.jobs
    ensures var g := old(store.jobs[key].gen); Working(cfg, store.Contents(), now, key, token, g.vm, g.jit)
    ensures submitted <= Allowed(cfg, plan) && (end.Exhausted? ==> submitted == Allowed(cfg, plan))
    ensures forall k :: 0 <= k < |submitted| - 1 ==> answer(k).kind == NoCapacity
    ensures submitted == [] ==> end.Exhausted? && store.jobs[key].gen == old(store.jobs[key].gen)
    ensures end.Made? || end.Uncertain? ==> AttemptOf(store.jobs[key].gen) == submitted[|submitted| - 1]
    ensures end.Made? ==> answer(|submitted| - 1).kind in {NoFault, AlreadyThere}
    ensures end.Made? ==> store.jobs[key].gen.createdAt == now
    ensures end.Uncertain? ==> !Over(answer(|submitted| - 1), store.jobs[key].gen)
                               && answer(|submitted| - 1).kind !in {NoFault, AlreadyThere}
    ensures end.Uncertain? ==>
              (var g := old(store.jobs[key].gen);
               submitted == [AttemptOf(g)] && g.template != NONE ==> SamePin(g, store.jobs[key].gen))
    ensures end.RateLimit? || end.Rejected? || (end.Exhausted? && submitted != []) ==>
              store.jobs[key].gen.zone == NONE && Definite(answer(|submitted| - 1).kind)
  {
    hide Working, SamePin, Definite, Over;
    ghost var g := store.jobs[key].gen;
    submitted := [];
    for i := 0 to |plan|
      invariant key in store.jobs && Working(cfg, store.Contents(), now, key, token, g.vm, g.jit)
      invariant submitted == Allowed(cfg, plan[..i])
      invariant forall k :: 0 <= k < |submitted| ==> answer(k).kind == NoCapacity
      invariant if submitted == [] then store.jobs[key].gen == g
                else store.jobs[key].gen.zone == NONE && Definite(answer(|submitted| - 1).kind)
    {
      AllowedGrows(cfg, plan, i + 1);
      assert plan[..i + 1][..i] == plan[..i];
      if !Skipped(cfg, plan[i]) {
        var stop := TryAttempt(store, cfg, now, key, token, g.vm, g.jit, plan[i], answer(|submitted|));
        submitted := submitted + [plan[i]];
        assert submitted == Allowed(cfg, plan[..i + 1]);
        if stop.Some? { return stop.value, submitted; }
      }
    }
    assert plan[..|plan|] == plan;
    return Exhausted, submitted;
  }
}
