/** What resolveAttempt's age rule needs: callbacks that submit in time. */
module Deadlines {
  import opened Types
  import opened Records
  import opened Transactions
  import opened Callbacks
  import opened Ledger
  import opened Protocol
  import opened Transitions
  import opened Standing
  import opened Invariant
  import opened WorkerSteps
  import opened CloudSteps
  import opened Safety
  import opened Coverage

  /** The check a callback could make before it submits: its own deadline is no later
      than the age at which a later callback gives up on the attempt.  A callback that
      starts after the attempt was first saved never passes it. */
  predicate InTime(cfg: Config, w: Worker) {
    w.deadline <= w.r.gen.attemptedAt + cfg.taskTimeout
  }

  /** Submitting it starts nothing: it was accepted before and only answers with its
      operation, or it has no name. */
  predicate StartsNothing(c: Cloud, q: Request) {
    q.name == NONE || Accepted(c, q)
  }

  predicate Timely(cfg: Config, s: System, a: Action) {
    match a
    case Work(id, Send) => InTime(cfg, s.At(id)) || StartsNothing(s.cloud, RequestOf(s.At(id).r.gen))
    case _ => true
  }

  // ----- attempt times

  /** A saved attempt has its time, and no attempt was saved in the future. */
  predicate Clocked(g: Generation, now: Time) {
    (g.zone != NONE || g.template != NONE ==> g.attemptedAt != NEVER) && g.attemptedAt <= now
  }

  ghost predicate AllClocked(t: Tables, now: Time) {
    && (forall k :: k in t.jobs ==> Clocked(t.jobs[k].gen, now))
    && (forall n :: n in t.runners ==> Clocked(t.runners[n].rec.gen, now))
  }

  /** A callback sets the attempt time to now, or leaves it with the claim. */
  lemma ChangeOnTime(c: Change, cfg: Config, now: Time, r: Record, f: Fleet)
    requires Clocked(r.gen, now) && now > NEVER
    ensures var o := Apply(c, cfg, now, r, f);
            o.Accept? ==>
              && Clocked(o.r.gen, now)
              && (o.r.gen.vm != NONE ==> o.r.gen.attemptedAt == r.gen.attemptedAt || o.r.gen.attemptedAt == now)
  {
  }

  lemma LoadClocked(t: Tables, now: Time, key: Id)
    requires AllClocked(t, now)
    ensures Clocked(Load(t, key).gen, now)
  {
  }

  /** A row that was there has its attempt time, or that is now. */
  ghost predicate TimesStay(t: Tables, t2: Tables, now: Time) {
    forall n :: n in t.runners && n in t2.runners ==>
      var at, at2 := t.runners[n].rec.gen.attemptedAt, t2.runners[n].rec.gen.attemptedAt; at2 == at || at2 == now
  }

  lemma UpdateClocked(cfg: Config, t: Tables, now: Time, key: Id, capacity: bool, c: Change)
    requires AllClocked(t, now) && BooksOk(cfg, t) && now > NEVER && Admissible(cfg, t, key, c)
    requires Update(t, cfg, now, key, capacity, c).Committed?
    ensures var t2 := Update(t, cfg, now, key, capacity, c).t; AllClocked(t2, now) && TimesStay(t, t2, now)
  {
    hide Apply, Update, Clocked, BooksOk, Filed;
    var t2 := Update(t, cfg, now, key, capacity, c).t;
    LoadClocked(t, now, key);
    ChangeOnTime(c, cfg, now, Load(t, key), Counts(t, capacity));
    Stored(cfg, t, now, key, capacity, c);
    KeysAreReal(cfg, t);
    forall n | n in t2.runners
      ensures Clocked(t2.runners[n].rec.gen, now)
      ensures n in t.runners ==>
                t2.runners[n].rec.gen.attemptedAt == t.runners[n].rec.gen.attemptedAt
                || t2.runners[n].rec.gen.attemptedAt == now
    {
      RowsAfterUpdate(cfg, t, now, key, capacity, c, n);
      if key in t.jobs { OwnershipIsBijective(cfg, t, key, n); }
    }
  }

  lemma CallClocked(cfg: Config, t: Tables, now: Time, c: Call)
    requires AllClocked(t, now) && BooksOk(cfg, t) && now > NEVER && Lawful(cfg, t, now, c)
    ensures AllClocked(Perform(cfg, t, now, c), now) && TimesStay(t, Perform(cfg, t, now, c), now)
  {
    hide Update, Detach, Adopt, RememberRunnerId, BooksOk, RecordOk, Admissible;
    match c {
      case CallUpdate(k, capacity, change) =>
        if Update(t, cfg, now, k, capacity, change).Committed? { UpdateClocked(cfg, t, now, k, capacity, change); }
      case CallDetach(k, token, spare, due) =>
        if Detach(t, now, k, token, spare, due).Committed? { Detached(cfg, t, now, k, token, spare, due); }
      case CallAdopt(k, token, names) =>
        if Adopt(t, now, k, token, names).Committed? { Adopted(cfg, t, now, k, token, names); }
      case CallRemember(name, runnerId) =>
        if RememberRunnerId(t, name, runnerId).Committed? { Remembered(cfg, t, name, runnerId); }
      case _ =>
    }
  }

  // ----- submissions

  predicate Allowed(cfg: Config, c: Cloud, g: Generation) {
    var q := RequestOf(g);
    q in c.requests && c.requests[q].Sent? ==> c.requests[q].until <= g.attemptedAt + cfg.taskTimeout + PROPAGATION
  }

  /** While the outcome of a saved attempt's submission is open, its margin runs out
      no later than the age rule's own allowance. */
  ghost predicate Dated(cfg: Config, t: Tables, c: Cloud) {
    forall n :: n in t.runners ==> Allowed(cfg, c, t.runners[n].rec.gen)
  }

  /** What a timely run keeps besides the invariant. */
  ghost predicate Punctual(cfg: Config, s: System) {
    Inv(cfg, s) && Covered(s) && AllClocked(s.t, s.now) && Dated(cfg, s.t, s.cloud)
  }

  /** What the age rule waits for has passed whenever it fires. */
  lemma AgeMeansOver(cfg: Config, s: System, id: Id, op: Operation)
    requires Inv(cfg, s) && Covered(s) && Dated(cfg, s.t, s.cloud) && WorkEnabled(s, id, Resolve(op))
    ensures Patient(cfg, s, Work(id, Resolve(op)))
  {
    hide Inv, Covered, AllStand, RowFits, MayLookUp;
    var g := s.At(id).r.gen;
    WithinLease(cfg, s, id);
    ClaimBehind(cfg, s, id);
    KnowsHere(cfg, s, id);
    if g.vm in s.t.runners {
      InvParts(cfg, s);
      BooksStand(cfg, s);
      ClaimRow(cfg, s.t, s.cloud, s.At(id).key);
      assert Allowed(cfg, s.cloud, s.t.runners[g.vm].rec.gen);
    } else {
      UncoveredIsQuiet(s, g.vm);
    }
  }

  lemma WithinLease(cfg: Config, s: System, id: Id)
    requires Inv(cfg, s) && id in s.workers && Active(s.At(id).pc) && s.now < s.At(id).deadline
    ensures InLease(s, s.At(id))
  {
    hide BooksOk, RowsFit, FleetOk, NamesDrawn, MemoryOk, WorkerFits, DeletingOk;
    Know(cfg, s, id);
  }

  lemma PunctualIsPatient(cfg: Config, s: System, a: Action)
    requires Punctual(cfg, s) && Enabled(cfg, s, a)
    ensures Patient(cfg, s, a)
  {
    hide Inv, Covered, WorkEnabled, ByAge, MarginOver;
    match a {
      case Work(id, Resolve(op)) => AgeMeansOver(cfg, s, id, op);
      case _ =>
    }
  }

  /** Only Send makes or prolongs an open submission. */
  lemma SentBefore(cfg: Config, s: System, a: Action, q: Request)
    requires Enabled(cfg, s, a) && !Sends(a)
    requires ProgressOf(Step(cfg, s, a).cloud, q).Sent?
    ensures ProgressOf(s.cloud, q) == ProgressOf(Step(cfg, s, a).cloud, q)
  {
    hide Update, WorkStep, RememberRunnerId, RecordAssignment, MayAnswer, ShouldRemove, VmExists, Without, Answerable;
    if a.Work? {
      WorkStepFrame(cfg, s, a.id, a.act);
      if ReachesCloud(a.act) { AnswerOpensNothing(cfg, s, a.id, a.act, q); }
    }
  }

  predicate Sends(a: Action) {
    a.Work? && a.act.Send?
  }

  lemma AnswerOpensNothing(cfg: Config, s: System, id: Id, act: WorkAction, q: Request)
    requires (act.DeleteOwn? || act.Receive?) && ProgressOf(WorkStep(cfg, s, id, act).cloud, q).Sent?
    ensures ProgressOf(s.cloud, q) == ProgressOf(WorkStep(cfg, s, id, act).cloud, q)
  {
  }

  /** A reserved name's open submission is that of its saved attempt. */
  lemma OpenIsSaved(cfg: Config, s: System, n: Id, q: Request)
    requires Inv(cfg, s) && ProgressOf(s.cloud, q).Sent? && q.name == n != NONE
    ensures n in s.nonces && (n in s.t.runners ==> q == RequestOf(RowOf(s.t, n).rec.gen))
  {
    hide AllStand, MemoryOk, WorkerFits, FleetOk;
    if n in s.t.runners {
      assert RowFits(s.cloud, n, s.t.runners[n].rec.gen, s.t.runners[n].owner == NONE);
    }
  }

  lemma RowDated(cfg: Config, s: System, a: Action, n: Id)
    requires Punctual(cfg, s) && Enabled(cfg, s, a) && !Sends(a) && n in Step(cfg, s, a).t.runners
    requires TimesStay(s.t, Step(cfg, s, a).t, s.now) && BooksOk(cfg, Step(cfg, s, a).t)
    ensures Allowed(cfg, Step(cfg, s, a).cloud, RowOf(Step(cfg, s, a).t, n).rec.gen)
  {
    hide Inv, Covered, Step, Enabled, BooksOk;
    var s2 := Step(cfg, s, a);
    var q := RequestOf(RowOf(s2.t, n).rec.gen);
    KeysAreReal(cfg, s2.t);
    if ProgressOf(s2.cloud, q).Sent? {
      SentBefore(cfg, s, a, q);
      OpenIsSaved(cfg, s, n, q);
      InvParts(cfg, s);
      if n in s.t.runners {
        assert Allowed(cfg, s.cloud, s.t.runners[n].rec.gen) && Clocked(s.t.runners[n].rec.gen, s.now);
      } else {
        NewNames(cfg, s, a, n);
      }
    }
  }

  /** A submission in time, or one that starts nothing. */
  lemma SendDated(cfg: Config, s: System, id: Id)
    requires Punctual(cfg, s) && WorkEnabled(s, id, Send) && Timely(cfg, s, Work(id, Send))
    ensures var s2 := WorkStep(cfg, s, id, Send); s2.t == s.t && Dated(cfg, s.t, s2.cloud)
  {
    hide Inv, Covered, AllClocked, Clocked, RowFits, AllStand, RowsFit, FleetOk, NamesDrawn, MemoryOk, Trying;
    var w := s.At(id);
    var c2 := WorkStep(cfg, s, id, Send).cloud;
    Underway(cfg, s, id);
    InvParts(cfg, s);
    BooksStand(cfg, s);
    KeysAreReal(cfg, s.t);
    if w.r.gen.vm != NONE { ClaimRow(cfg, s.t, s.cloud, w.key); }
    forall n | n in s.t.runners ensures Allowed(cfg, c2, s.t.runners[n].rec.gen) {
      assert Allowed(cfg, s.cloud, s.t.runners[n].rec.gen);
    }
  }

  lemma TimePasses(t: Tables, now: Time, later: Time)
    requires AllClocked(t, now) && now <= later
    ensures AllClocked(t, later)
  {
  }

  lemma StepClocked(cfg: Config, s: System, a: Action)
    requires AllStand(cfg, s) && AllClocked(s.t, s.now) && Enabled(cfg, s, a)
    ensures var s2 := Step(cfg, s, a); AllClocked(s2.t, s2.now) && TimesStay(s.t, s2.t, s.now)
  {
    hide AllStand, AllClocked, TimesStay, Step, Enabled, Perform, BooksOk, CallOf, Lawful;
    BooksStand(cfg, s);
    StepFrame(cfg, s, a);
    StepCalls(cfg, s, a);
    StepLawful(cfg, s, a);
    CallClocked(cfg, s.t, s.now, CallOf(cfg, s, a));
    TimePasses(Step(cfg, s, a).t, s.now, Step(cfg, s, a).now);
  }

  lemma StepPunctual(cfg: Config, s: System, a: Action)
    requires Punctual(cfg, s) && Enabled(cfg, s, a) && Timely(cfg, s, a)
    ensures Punctual(cfg, Step(cfg, s, a)) && Patient(cfg, s, a)
  {
    hide Inv, Covered, WorkStep, Answerable, AllStand, AllClocked, TimesStay, Patient, Allowed, FleetOk, RowsFit,
      NamesDrawn, MemoryOk, InTime;
    PunctualIsPatient(cfg, s, a);
    StepKeeps(cfg, s, a);
    StepCovers(cfg, s, a);
    InvParts(cfg, s);
    StepClocked(cfg, s, a);
    if Sends(a) {
      SendDated(cfg, s, a.id);
    } else {
      hide Step, Enabled;
      var s2 := Step(cfg, s, a);
      InvParts(cfg, s2);
      BooksStand(cfg, s2);
      forall n | n in s2.t.runners ensures Allowed(cfg, s2.cloud, s2.t.runners[n].rec.gen) {
        RowDated(cfg, s, a, n);
      }
    }
  }

  ghost predicate AllTimely(cfg: Config, run: seq<System>, acts: seq<Action>) {
    forall i :: 0 <= i < |acts| ==> Timely(cfg, StateAt(run, i), ActionAt(acts, i))
  }

  lemma {:induction false} StaysPunctual(cfg: Config, run: seq<System>, acts: seq<Action>, i: nat)
    requires Follows(cfg, run, acts) && AllTimely(cfg, run, acts) && Punctual(cfg, StateAt(run, 0)) && i < |run|
    ensures Punctual(cfg, StateAt(run, i))
    ensures i < |acts| ==> Patient(cfg, StateAt(run, i), ActionAt(acts, i))
  {
    hide Punctual, Enabled, Step, Timely, Patient;
    if i > 0 {
      StaysPunctual(cfg, run, acts, i - 1);
      StepPunctual(cfg, StateAt(run, i - 1), ActionAt(acts, i - 1));
    }
    if i < |acts| { StepPunctual(cfg, StateAt(run, i), ActionAt(acts, i)); }
  }

  lemma PunctualAtFirst(cfg: Config, now: Time)
    requires cfg.Valid() && now > NEVER
    ensures Punctual(cfg, Initial(now))
  {
    hide Inv;
    InitialOk(cfg, now);
  }

  /** In a run whose callbacks all submit in time the age rule never fires early. */
  lemma TimelyRunsArePatient(cfg: Config, run: seq<System>, acts: seq<Action>)
    requires IsRun(cfg, run, acts) && AllTimely(cfg, run, acts)
    ensures IsPatientRun(cfg, run, acts)
  {
    hide Punctual, Enabled, Step, Timely, Patient, AllTimely;
    PunctualAtFirst(cfg, StateAt(run, 0).now);
    forall i | 0 <= i < |acts| ensures Patient(cfg, StateAt(run, i), ActionAt(acts, i)) {
      StaysPunctual(cfg, run, acts, i);
    }
  }

  /** So capacity is safe: over every interleaving and crash in which callbacks submit
      in time, every VM and every insert that may still become one has a ledger row,
      and the VMs never exceed the counter, nor the counter the configured fleet. */
  lemma NoVmIsUncountedInTime(cfg: Config, run: seq<System>, acts: seq<Action>, i: nat)
    requires IsRun(cfg, run, acts) && AllTimely(cfg, run, acts) && i < |run|
    ensures var s := StateAt(run, i);
            NothingUncounted(s) && |s.cloud.vms| <= s.t.fleet.runners <= cfg.maxRunners
  {
    hide IsPatientRun, AllTimely;
    TimelyRunsArePatient(cfg, run, acts);
    NoVmIsUncounted(cfg, run, acts, i);
  }
}
