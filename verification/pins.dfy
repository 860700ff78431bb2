/** An insert whose outcome is open is only ever retried as it was, in every run. */
module Pins {
  import opened Types
  import opened CreationPlans
  import opened Records
  import opened Transactions
  import opened Callbacks
  import opened Ledger
  import opened Protocol
  import opened Transitions
  import opened Standing
  import opened Invariant
  import opened WorkerSteps
  import opened CloudSteps
  import opened Safety

  /** Some request submitted for this name is neither refused nor failed: it may
      still become a VM, or has become one. */
  ghost predicate Open(c: Cloud, name: Id) {
    exists q :: q in c.requests && q.name == name && !Over(c, q)
  }

  /** Everything that identifies an attempt, its credential and its age. */
  predicate SamePin(g: Generation, g2: Generation) {
    g2 == g.(operation := g2.operation, createdAt := g2.createdAt)
  }

  /** The callback does not touch the pin of this claim. */
  predicate LeavesPin(g: Generation, c: Change) {
    && !c.ForgetAttempt? && !c.SaveJit?
    && (c.SaveAttempt? ==> c.attempt == AttemptOf(g) && g.template != NONE)
  }

  /** A row that survives an update keeps its pin, if the callback leaves it. */
  lemma UpdateOnPin(cfg: Config, t: Tables, now: Time, key: Id, capacity: bool, c: Change, n: Id)
    requires BooksOk(cfg, t) && now > NEVER && Admissible(cfg, t, key, c)
    requires Update(t, cfg, now, key, capacity, c).Committed?
    requires n in t.runners && n in Update(t, cfg, now, key, capacity, c).t.runners
    requires Load(t, key).gen.vm == n ==> LeavesPin(Load(t, key).gen, c)
    ensures SamePin(RowOf(t, n).rec.gen, RowOf(Update(t, cfg, now, key, capacity, c).t, n).rec.gen)
  {
    hide Apply, BooksOk, Update, Filed;
    RowsAfterUpdate(cfg, t, now, key, capacity, c, n);
    KeysAreReal(cfg, t);
    if key in t.jobs { OwnershipIsBijective(cfg, t, key, n); }
    if NeedsFence(c) {
      ClaimAfter(cfg, t, now, key, capacity, c);
    } else {
      Stored(cfg, t, now, key, capacity, c);
      UnfencedClaim(c, cfg, now, Load(t, key), Counts(t, capacity));
    }
  }

  ghost predicate PinLeft(cfg: Config, t: Tables, now: Time, c: Call, n: Id) {
    match c
    case CallUpdate(key, capacity, change) =>
      Update(t, cfg, now, key, capacity, change).Committed? && Load(t, key).gen.vm == n ==>
        LeavesPin(Load(t, key).gen, change)
    case _ => true
  }

  /** So does one that survives any other store call. */
  lemma CallOnPin(cfg: Config, t: Tables, now: Time, c: Call, n: Id)
    requires BooksOk(cfg, t) && now > NEVER && Lawful(cfg, t, now, c) && PinLeft(cfg, t, now, c, n)
    requires n in t.runners && n in Perform(cfg, t, now, c).runners
    ensures SamePin(RowOf(t, n).rec.gen, RowOf(Perform(cfg, t, now, c), n).rec.gen)
  {
    hide BooksOk, Update, Detach, Adopt, RememberRunnerId, LeavesPin, Admissible, RecordOk;
    match c {
      case CallUpdate(key, capacity, change) =>
        if Update(t, cfg, now, key, capacity, change).Committed? { UpdateOnPin(cfg, t, now, key, capacity, change, n); }
      case CallDetach(key, token, spare, due) =>
        if Detach(t, now, key, token, spare, due).Committed? { Detached(cfg, t, now, key, token, spare, due); }
      case CallAdopt(key, token, names) =>
        if Adopt(t, now, key, token, names).Committed? { Adopted(cfg, t, now, key, token, names); }
      case CallRemember(name, id) => if RememberRunnerId(t, name, id).Committed? { Remembered(cfg, t, name, id); }
      case _ =>
    }
  }

  // ----- why the worker keeps it

  /** An open request's row has its attempt saved, credential and all. */
  lemma OpenIsSaved(s: System, g: Generation)
    requires NamesDrawn(s) && RowFits(s.cloud, g.vm, g, false) && Open(s.cloud, g.vm)
    ensures g.zone != NONE && g.template != NONE && g.jit != NONE && !Over(s.cloud, RequestOf(g))
  {
  }

  /** The steps that could replace a saved attempt: with a request open they are
      either out of place or repeat it. */
  lemma RepinKeeps(cfg: Config, s: System, id: Id, act: WorkAction, key: Id, capacity: bool, c: Change)
    requires Inv(cfg, s) && WorkEnabled(s, id, act) && Edits(act)
    requires WorkCall(cfg, s, id, act) == CallUpdate(key, capacity, c)
    requires Update(s.t, cfg, s.now, key, capacity, c).Committed?
    requires Load(s.t, key).gen.vm != NONE && Open(s.cloud, Load(s.t, key).gen.vm)
    ensures LeavesPin(Load(s.t, key).gen, c)
  {
    hide Inv, Update, Over, WorkCall, WorkEnabled, Edits, NamesDrawn, RowFits, Open, Untouched, AllSubmittable;
    EditIsOwn(cfg, s, id, act);
    WriterKnows(cfg, s, id, capacity, c);
    OpenIsSaved(s, Load(s.t, key).gen);
  }

  lemma WorkLeavesPin(cfg: Config, s: System, id: Id, act: WorkAction, n: Id)
    requires Inv(cfg, s) && WorkEnabled(s, id, act) && n != NONE && Open(s.cloud, n)
    ensures PinLeft(cfg, s.t, s.now, WorkCall(cfg, s, id, act), n)
  {
    hide Inv, WorkEnabled, WorkCall, Update, Open, Edits;
    if Edits(act) { EditIsOwn(cfg, s, id, act); } else { OthersEditNothing(cfg, s, id, act); }
    match WorkCall(cfg, s, id, act) {
      case CallUpdate(key, capacity, c) =>
        if Edits(act) && Update(s.t, cfg, s.now, key, capacity, c).Committed? && Load(s.t, key).gen.vm == n {
          RepinKeeps(cfg, s, id, act, key, capacity, c);
        }
      case _ =>
    }
  }

  /** Whatever anybody does while a request of a generation is open, its zone,
      model, machine, template, JIT credential and attempt time stay as saved. */
  lemma StepOnPin(cfg: Config, s: System, a: Action, n: Id)
    requires Inv(cfg, s) && Enabled(cfg, s, a)
    requires n in s.t.runners && Open(s.cloud, n) && n in Step(cfg, s, a).t.runners
    ensures SamePin(RowOf(s.t, n).rec.gen, RowOf(Step(cfg, s, a).t, n).rec.gen)
  {
    hide Inv, AllStand, BooksOk, Step, Update, Open, SamePin, Perform, WorkCall, WorkEnabled, RowsFit, FleetOk,
      NamesDrawn, MemoryOk;
    InvParts(cfg, s);
    BooksStand(cfg, s);
    KeysAreReal(cfg, s.t);
    StepCalls(cfg, s, a);
    StepLawful(cfg, s, a);
    if a.Work? { WorkLeavesPin(cfg, s, a.id, a.act, n); } else { OtherLeavesPin(cfg, s, a, n); }
    CallOnPin(cfg, s.t, s.now, CallOf(cfg, s, a), n);
  }

  lemma OtherLeavesPin(cfg: Config, s: System, a: Action, n: Id)
    requires AllStand(cfg, s) && Enabled(cfg, s, a) && !a.Work?
    ensures PinLeft(cfg, s.t, s.now, CallOf(cfg, s, a), n)
  {
    hide Enabled, CallOf, BooksOk, Update, WorkerStands;
    OtherCallKinds(cfg, s, a);
  }

  /** Over whole runs, crashes and takeovers included: from the moment an insert is
      submitted until Compute refuses or fails it, or the reservation ends, the
      saved attempt does not change. */
  lemma {:induction false} OpenInsertIsPinned(cfg: Config, run: seq<System>, acts: seq<Action>, i: nat, j: nat, n: Id)
    requires IsRun(cfg, run, acts) && i <= j < |run|
    requires forall m :: i <= m <= j ==> n in StateAt(run, m).t.runners
    requires forall m :: i <= m < j ==> Open(StateAt(run, m).cloud, n)
    ensures SamePin(RowOf(StateAt(run, i).t, n).rec.gen, RowOf(StateAt(run, j).t, n).rec.gen)
  {
    hide Inv, Enabled, Step, Open, RowOf;
    if i < j {
      OpenInsertIsPinned(cfg, run, acts, i, j - 1, n);
      RunKeeps(cfg, run, acts, j - 1);
      var s, a := StateAt(run, j - 1), ActionAt(acts, j - 1);
      assert StateAt(run, j) == Step(cfg, s, a) && n in StateAt(run, j).t.runners && n in s.t.runners;
      StepOnPin(cfg, s, a, n);
    }
  }

  /** A submission made while another of the generation is open repeats it: same
      zone, model and machine, so the same request id and the same operation. */
  lemma SendRepeatsOpen(cfg: Config, run: seq<System>, acts: seq<Action>, i: nat, id: Id, q: Request)
    requires IsRun(cfg, run, acts) && i < |acts| && ActionAt(acts, i) == Work(id, Send)
    requires var s := StateAt(run, i);
             q in s.cloud.requests && !Over(s.cloud, q) && q.name == s.At(id).r.gen.vm != NONE
    ensures var s := StateAt(run, i);
            var g := s.At(id).r.gen;
            q == RequestOf(g) && g.jit != NONE && g == Load(s.t, s.At(id).key).gen
  {
    hide Inv, Step, WorkStep;
    RunKeeps(cfg, run, acts, i);
    assert Enabled(cfg, StateAt(run, i), Work(id, Send));
    Underway(cfg, StateAt(run, i), id);
  }
}
