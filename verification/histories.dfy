/** What becomes of a job's record over whole runs: its source, its job, its failure. */
module Histories {
  import opened Types
  import opened Records
  import opened Transactions
  import opened Ledger
  import opened Fields
  import opened Protocol
  import opened Transitions
  import opened Standing

  // ----- one store call

  /** An update stores what its callback left, scheduled. */
  lemma Updated(cfg: Config, t: Tables, now: Time, key: Id, capacity: bool, c: Change)
    requires Update(t, cfg, now, key, capacity, c).Committed?
    ensures var t2 := Update(t, cfg, now, key, capacity, c).t;
            var o := Apply(c, cfg, now, Load(t, key), if capacity then t.fleet else Fleet(0, 0, 0));
            && o.Accept? && t2.jobs == t.jobs[key := Load(t2, key)] && Load(t2, key) == Prepare(o.r, now)
  {
    hide Apply, Prepare, Mirror;
  }

  /** A call that gives the job a runner somebody else left. */
  predicate Adopts(c: Call, key: Id) {
    c.CallAdopt? && c.key == key
  }

  /** What a job is, and its task and lease, stay. */
  predicate SameHistory(r: Record, r2: Record) {
    && r2.source == r.source && r2.job == r.job && r2.seenAt == r.seenAt && r2.terminal == r.terminal
    && r2.dispatch == r.dispatch && r2.lease == r.lease
  }

  lemma DetachKeeps(t: Tables, now: Time, key: Id, token: Id, spare: bool, due: Time)
    requires Detach(t, now, key, token, spare, due).Committed?
    ensures var r, r2 := Load(t, key), Load(Detach(t, now, key, token, spare, due).t, key);
            && SameHistory(r, r2) && r2.failure == r.failure && r2.pendingDelete == r.pendingDelete
            && (r.gen.vm != NONE ==>
                  && r2.gen == NoGeneration(r.gen.machine) && r2.runnerId == NONE
                  && (Actionable(r2) ==> r2.nextActionAt == Later(now + 30, r.dispatch.until)))
            && (r.gen.vm == NONE ==> r2 == r)
  {
    hide Prepare;
    PreparedFields(Unclaimed(Load(t, key), now).(nextActionAt := now + 30), now);
  }

  /** The first of these without an assignment. */
  ghost predicate IsFirstFree(evidence: map<Id, Evidence>, names: seq<Id>, n: Id) {
    exists i :: 0 <= i < |names| && names[i] == n && n !in evidence && forall j :: 0 <= j < i ==> names[j] in evidence
  }

  lemma {:induction false} FirstFreeIsFirst(evidence: map<Id, Evidence>, names: seq<Id>)
    requires FirstFree(evidence, names).Some?
    ensures IsFirstFree(evidence, names, FirstFree(evidence, names).value)
  {
    if names[0] in evidence {
      FirstFreeIsFirst(evidence, names[1..]);
      var n := FirstFree(evidence, names).value;
      var i :| 0 <= i < |names[1..]| && names[1..][i] == n && forall j :: 0 <= j < i ==> names[1..][j] in evidence;
      assert names[i + 1] == n;
      forall j | 0 <= j < i + 1 ensures names[j] in evidence {
        if j > 0 { assert names[j] == names[1..][j - 1]; }
      }
    } else {
      assert names[0] == FirstFree(evidence, names).value;
    }
  }

  /** An open job without a claim gets the claim of the first free candidate, if there is one,
      and stays what it was but for a failure; it is looked at again at once. */
  lemma AdoptKeeps(t: Tables, now: Time, key: Id, token: Id, names: seq<Id>)
    requires Adopt(t, now, key, token, names).Committed?
    ensures var r, r2 := Load(t, key), Load(Adopt(t, now, key, token, names).t, key);
            if r.terminal || r.gen.vm != NONE || (forall n :: n in names ==> n in t.evidence) then r2 == r
            else exists n :: IsFirstFree(t.evidence, names, n) && TakenOver(r2, r, RowOf(t, n).rec, now)
  {
    hide Prepare, RowOf, IsFirstFree;
    var r := Load(t, key);
    if FirstFree(t.evidence, names).Some? && !r.terminal && r.gen.vm == NONE {
      FirstFreeIsFirst(t.evidence, names);
      Adopter(r, RowOf(t, FirstFree(t.evidence, names).value).rec, now);
    }
  }

  /** The record that an adopter has then. */
  predicate TakenOver(r2: Record, r: Record, from: Record, now: Time) {
    && SameHistory(r, r2) && r2.failure == NONE && r2.pendingDelete == NONE
    && r2.gen == from.gen && r2.runnerId == from.runnerId
    && r2.nextActionAt == (if now < r.dispatch.until then r.dispatch.until else now)
  }

  lemma Adopter(r: Record, from: Record, now: Time)
    requires !r.terminal
    ensures TakenOver(AdoptedRecord(r, from, now), r, from, now)
  {
    hide Prepare;
    PreparedFields(from.(job := r.job, source := r.source, lease := r.lease, seenAt := r.seenAt, terminal := false,
                         pendingDelete := NONE, dispatch := r.dispatch, failure := NONE, nextActionAt := now), now);
  }

  /** The transactions that are not updates leave alone what a job is and how it ended. */
  lemma OtherCallKeeps(cfg: Config, t: Tables, now: Time, c: Call, key: Id)
    requires !c.CallUpdate?
    ensures var r, r2 := Load(t, key), Load(Perform(cfg, t, now, c), key);
            SameHistory(r, r2) && (r2.failure == r.failure || (Adopts(c, key) && r2.failure == NONE))
  {
    match c {
      case CallDetach(k, token, spare, due) =>
        hide Load, SameHistory;
        Unchanged(Load(t, key));
        if Detach(t, now, k, token, spare, due).Committed? {
          DetachKeeps(t, now, k, token, spare, due);
          if k != key { DetachTouches(t, now, k, token, spare, due, key); }
        }
      case CallAdopt(k, token, names) =>
        hide SameHistory;
        Unchanged(Load(t, key));
        if Adopt(t, now, k, token, names).Committed? { AdoptKeeps(t, now, k, token, names); }
      case _ =>
    }
  }

  lemma Unchanged(r: Record)
    ensures SameHistory(r, r)
  {
  }

  lemma DetachTouches(t: Tables, now: Time, k: Id, token: Id, spare: bool, due: Time, key: Id)
    requires Detach(t, now, k, token, spare, due).Committed? && k != key
    ensures Load(Detach(t, now, k, token, spare, due).t, key) == Load(t, key)
  {
    hide Prepare;
  }

  // ----- one step

  /** The permanent failure a task ends with, under its own marker. */
  predicate Condemns(s: System, a: Action, key: Id, message: Id) {
    && a.Work? && a.act.FinishTask? && s.At(a.id).key == key && ErrorAt(s.At(a.id).pc) == Permanent(message)
    && (s.At(a.id).dispatch == NONE || s.At(a.id).dispatch == Load(s.t, key).dispatch.token)
  }

  /** The step that may change each part of a record's history, if it changes. */
  ghost predicate HistoryFits(cfg: Config, s: System, a: Action, key: Id, r: Record, r2: Record) {
    && (r.source != NONE && r.source in cfg.sources ==> r2.source == r.source)
    && (r.terminal ==> r2.terminal)
    && (r.terminal && r2.job != r.job ==> a.Intake? && a.key == key && a.completed)
    && (r2.failure != r.failure ==>
          || Condemns(s, a, key, r2.failure)
          || (a.Work? && a.act.TryAdopt? && s.At(a.id).key == key && r2.failure == NONE))
  }

  /** Which steps report on a job, and which end in a permanent error. */
  lemma Reports(cfg: Config, s: System, a: Action)
    requires CallOf(cfg, s, a).CallUpdate?
    ensures var c := CallOf(cfg, s, a);
            && (c.change.Observe? ==> a.Intake? && a.key == c.key && a.completed == c.change.completed)
            && (c.change.Finish? && c.change.err.Permanent? ==>
                  && a.Work? && a.act.FinishTask? && s.At(a.id).key == c.key && ErrorAt(s.At(a.id).pc) == c.change.err
                  && s.At(a.id).dispatch == c.change.token)
  {
  }

  /** The same of one callback. */
  ghost predicate ChangeFits(c: Change, cfg: Config, r: Record, r2: Record) {
    && (r.source != NONE && r.source in cfg.sources ==> r2.source == r.source)
    && (r.terminal ==> r2.terminal)
    && (r.terminal && r2.job != r.job ==> c.Observe? && c.completed)
    && (r2.failure != r.failure ==>
          c.Finish? && c.err == Permanent(r2.failure) && (c.token == NONE || c.token == r.dispatch.token))
  }

  lemma ChangeHistory(c: Change, cfg: Config, now: Time, r: Record, f: Fleet)
    ensures var o := Apply(c, cfg, now, r, f); o.Accept? ==> ChangeFits(c, cfg, r, Prepare(o.r, now))
  {
    hide Apply, Prepare;
    PreparedFields(Apply(c, cfg, now, r, f).r, now);
    JobField(c, cfg, now, r, f);
    SourceField(c, cfg, now, r, f);
    FailureField(c, cfg, now, r, f);
  }

  lemma UpdateHistory(cfg: Config, s: System, a: Action, key: Id)
    requires CallOf(cfg, s, a).CallUpdate?
    ensures HistoryFits(cfg, s, a, key, Load(s.t, key), Load(Perform(cfg, s.t, s.now, CallOf(cfg, s, a)), key))
  {
    hide Update, Apply, Prepare, CallOf;
    Reports(cfg, s, a);
    var c := CallOf(cfg, s, a);
    if Update(s.t, cfg, s.now, c.key, c.capacity, c.change).Committed? {
      Updated(cfg, s.t, s.now, c.key, c.capacity, c.change);
      ChangeHistory(c.change, cfg, s.now, Load(s.t, c.key), if c.capacity then s.t.fleet else Fleet(0, 0, 0));
    }
  }

  lemma StepHistory(cfg: Config, s: System, a: Action, key: Id)
    ensures HistoryFits(cfg, s, a, key, Load(s.t, key), Load(Step(cfg, s, a).t, key))
  {
    StepCalls(cfg, s, a);
    if CallOf(cfg, s, a).CallUpdate? {
      hide Step, Update, CallOf, HistoryFits, Perform;
      UpdateHistory(cfg, s, a, key);
    } else {
      hide Step, Perform;
      OtherCallKeeps(cfg, s.t, s.now, CallOf(cfg, s, a), key);
    }
  }

  // ----- over runs

  /** The first registered source of a record keeps it. */
  lemma {:induction false} SourceIsKept(cfg: Config, run: seq<System>, acts: seq<Action>, i: nat, j: nat, key: Id)
    requires IsRun(cfg, run, acts) && i <= j < |run|
    requires var source := Load(StateAt(run, i).t, key).source; source != NONE && source in cfg.sources
    ensures Load(StateAt(run, j).t, key).source == Load(StateAt(run, i).t, key).source
  {
    hide Enabled, Step;
    if i < j {
      SourceIsKept(cfg, run, acts, i, j - 1, key);
      StepHistory(cfg, StateAt(run, j - 1), ActionAt(acts, j - 1), key);
    }
  }

  /** Once a job is over, only another completed delivery changes what is known of it. */
  lemma {:induction false} FinishedJobIsKept(cfg: Config, run: seq<System>, acts: seq<Action>, i: nat, j: nat, key: Id)
    requires IsRun(cfg, run, acts) && i <= j < |run| && Load(StateAt(run, i).t, key).terminal
    requires forall m :: i <= m < j ==> !Completes(ActionAt(acts, m), key)
    ensures var r, r2 := Load(StateAt(run, i).t, key), Load(StateAt(run, j).t, key); r2.terminal && r2.job == r.job
  {
    hide Enabled, Step;
    if i < j {
      FinishedJobIsKept(cfg, run, acts, i, j - 1, key);
      StepHistory(cfg, StateAt(run, j - 1), ActionAt(acts, j - 1), key);
    }
  }

  predicate Completes(a: Action, key: Id) {
    a.Intake? && a.key == key && a.completed
  }

  /** A permanent failure stays recorded until another one replaces it, or the job adopts a
      runner after all. */
  lemma {:induction false} FailureIsKept(cfg: Config, run: seq<System>, acts: seq<Action>, i: nat, j: nat, key: Id)
    requires IsRun(cfg, run, acts) && i <= j < |run|
    requires forall m :: i <= m < j ==> !Revises(StateAt(run, m), ActionAt(acts, m), key)
    ensures Load(StateAt(run, j).t, key).failure == Load(StateAt(run, i).t, key).failure
  {
    hide Enabled, Step, Condemns;
    if i < j {
      FailureIsKept(cfg, run, acts, i, j - 1, key);
      StepHistory(cfg, StateAt(run, j - 1), ActionAt(acts, j - 1), key);
      assert !Revises(StateAt(run, j - 1), ActionAt(acts, j - 1), key);
    }
  }

  ghost predicate Revises(s: System, a: Action, key: Id) {
    || (exists message :: Condemns(s, a, key, message))
    || (a.Work? && a.act.TryAdopt? && s.At(a.id).key == key)
  }

  // ----- the end of a task, and news

  /** A task that ends under its own marker clears it; a permanent error is recorded and
      the job looked at again in an hour, and otherwise as the way it ended says. */
  lemma TaskEnds(cfg: Config, s: System, id: Id)
    requires WorkEnabled(s, id, FinishTask)
    requires var w := s.At(id);
             Heeded(Finish(w.dispatch, ErrorAt(w.pc)), Load(s.t, w.key))
    ensures var w, t2 := s.At(id), WorkStep(cfg, s, id, FinishTask).t;
            var r, r2, err := Load(s.t, w.key), Load(t2, w.key), ErrorAt(w.pc);
            && r2.dispatch == Dispatch.Dispatch(NONE, NEVER)
            && r2.failure == (if err.Permanent? then err.message else r.failure)
            && (Actionable(r2) ==>
                  r2.nextActionAt == match err
                    case Permanent(_) => s.now + 60 * MINUTE
                    case RetryAt(t) => if t == NEVER then s.now else t
                    case NoError => s.now + (if r.job.status == InProgress then 10 else 2) * MINUTE
                    case _ => s.now + 2 * MINUTE)
  {
    hide Apply, Prepare, Mirror;
    var w := s.At(id);
    var c, r := Finish(w.dispatch, ErrorAt(w.pc)), Load(s.t, w.key);
    var f := if c.err.Permanent? then s.t.fleet else Fleet(0, 0, 0);
    FinishIsAccepted(c, cfg, s.now, r, f);
    MarkerField(c, cfg, s.now, r, f);
    FailureField(c, cfg, s.now, r, f);
    LookField(c, cfg, s.now, r, f);
    PreparedFields(Apply(c, cfg, s.now, r, f).r, s.now);
  }

  /** A callback that lost its job to another leaves everything as it is. */
  lemma ContentionIsAcknowledged(cfg: Config, s: System, id: Id)
    requires s.At(id).pc == AtFinish(Contended)
    ensures WorkStep(cfg, s, id, FinishTask).t == s.t && id !in WorkStep(cfg, s, id, FinishTask).workers
  {
  }

  /** The delete callback's acknowledgement ends its task like a create callback without an
      error. */
  lemma DeletionIsAcknowledged(cfg: Config, s: System, key: Id, token: Id)
    requires token == NONE || token == Load(s.t, key).dispatch.token
    ensures var r, r2 := Load(s.t, key), Load(Step(cfg, s, DeleteAcked(key, token)).t, key);
            && r2.dispatch == Dispatch.Dispatch(NONE, NEVER) && r2.failure == r.failure && r2.gen == r.gen
            && (Actionable(r2) ==> r2.nextActionAt == s.now + (if r.job.status == InProgress then 10 else 2) * MINUTE)
  {
    hide Apply, Prepare, Mirror;
    var c, r, f := Finish(token, NoError), Load(s.t, key), Fleet(0, 0, 0);
    FinishIsAccepted(c, cfg, s.now, r, f);
    MarkerField(c, cfg, s.now, r, f);
    FailureField(c, cfg, s.now, r, f);
    LookField(c, cfg, s.now, r, f);
    ClaimField(c, cfg, s.now, r, f);
    TimeFields(c, cfg, s.now, r, f);
    PreparedFields(Apply(c, cfg, s.now, r, f).r, s.now);
  }

  /** A task that could not be queued stops blocking, and the job is due in a minute. */
  lemma QueueFailureIsHeard(cfg: Config, s: System, key: Id, token: Id)
    requires s.now > NEVER && token == Load(s.t, key).dispatch.token
    ensures var r, r2 := Load(s.t, key), Load(Step(cfg, s, DispatchFailed(key, token)).t, key);
            r2.dispatch == r.dispatch.(until := NEVER) && (Actionable(r2) ==> r2.nextActionAt == s.now + MINUTE)
  {
    hide Apply, Prepare, Mirror;
    var c, r, f := EnqueueFailed(token), Load(s.t, key), Fleet(0, 0, 0);
    PlainIsAccepted(c, cfg, s.now, r, f);
    MarkerField(c, cfg, s.now, r, f);
    LookField(c, cfg, s.now, r, f);
    PreparedFields(Apply(c, cfg, s.now, r, f).r, s.now);
  }

  /** A VM that reports its own end has its open job looked at within 45 s, unless a marker
      stands longer; a report from any other generation changes nothing of when. */
  lemma RecreationIsHeard(cfg: Config, s: System, key: Id, n: Id)
    requires Filed(Load(s.t, key))
    ensures var r, r2 := Load(s.t, key), Load(Step(cfg, s, Recreated(key, n)).t, key);
            && r2.gen == r.gen && r2.job == r.job && r2.dispatch == r.dispatch
            && (Actionable(r) ==>
                  r2.nextActionAt == if !r.terminal && n != NONE && r.gen.vm == n && s.now + 45 < r.nextActionAt
                                     then Later(s.now + 45, r.dispatch.until) else r.nextActionAt)
  {
    hide Apply, Prepare, Mirror;
    var c, r, f := Recreate(n), Load(s.t, key), Fleet(0, 0, 0);
    RecreateLeaves(c, cfg, s.now, r, f);
    LookField(c, cfg, s.now, r, f);
    PreparedFields(Apply(c, cfg, s.now, r, f).r, s.now);
  }

  lemma RecreateLeaves(c: Change, cfg: Config, now: Time, r: Record, f: Fleet)
    requires c.Recreate?
    ensures var o := Apply(c, cfg, now, r, f);
            o.Accept? && o.f == f && o.r == r.(nextActionAt := o.r.nextActionAt)
  {
  }

  lemma PlainIsAccepted(c: Change, cfg: Config, now: Time, r: Record, f: Fleet)
    requires c.EnqueueFailed?
    ensures Apply(c, cfg, now, r, f).Accept? && Apply(c, cfg, now, r, f).f == f
  {
  }

  lemma FinishIsAccepted(c: Change, cfg: Config, now: Time, r: Record, f: Fleet)
    requires c.Finish?
    ensures var o := Apply(c, cfg, now, r, f); o.Accept? && (!c.err.Permanent? ==> o.f == f)
  {
  }

  /** News of a job clears its marker and makes it due at once. */
  lemma NewsIsActedOn(cfg: Config, s: System, key: Id, job: Job, source: Id, completed: bool, owned: bool)
    requires s.now > NEVER && IsNews(Observe(job, source, completed, owned), Load(s.t, key))
    ensures var r2 := Load(Step(cfg, s, Intake(key, job, source, completed, owned)).t, key);
            r2.dispatch == Dispatch.Dispatch(NONE, NEVER) && (Actionable(r2) ==> r2.nextActionAt == s.now)
  {
    hide Apply, Prepare, Mirror;
    var c, r, f := Observe(job, source, completed, owned), Load(s.t, key), Fleet(0, 0, 0);
    ObserveIsAccepted(c, cfg, s.now, r, f);
    MarkerField(c, cfg, s.now, r, f);
    LookField(c, cfg, s.now, r, f);
    PreparedFields(Apply(c, cfg, s.now, r, f).r, s.now);
  }

  lemma ObserveIsAccepted(c: Change, cfg: Config, now: Time, r: Record, f: Fleet)
    requires c.Observe?
    ensures Apply(c, cfg, now, r, f).Accept? && Apply(c, cfg, now, r, f).f == f
  {
  }

  // ----- records that are done with

  /** What a store call does to the expiry of a record that is done with. */
  ghost predicate Expires(r: Record, r2: Record, now: Time) {
    Settled(r2) ==> r2.expiresAt == now + WEEK || (Settled(r) && r2.expiresAt == r.expiresAt)
  }

  lemma UpdateExpires(cfg: Config, t: Tables, now: Time, key: Id, capacity: bool, c: Change)
    requires BooksOk(cfg, t) && Update(t, cfg, now, key, capacity, c).Committed?
    ensures Expires(Load(t, key), Load(Update(t, cfg, now, key, capacity, c).t, key), now)
  {
    hide BooksOk, Apply, Prepare, Update;
    var r, f := Load(t, key), if capacity then t.fleet else Fleet(0, 0, 0);
    LoadFiled(cfg, t, key);
    Updated(cfg, t, now, key, capacity, c);
    ExpiryField(c, cfg, now, r, f);
    PreparedFields(Apply(c, cfg, now, r, f).r, now);
  }

  lemma StepExpires(cfg: Config, s: System, a: Action, key: Id)
    requires AllStand(cfg, s) && Enabled(cfg, s, a)
    ensures Expires(Load(s.t, key), Load(Step(cfg, s, a).t, key), s.now)
  {
    hide Step, Enabled, Update, Detach, Adopt, Prepare, BooksOk, CallOf, EvidenceOk, DeletingOk, WorkerStands;
    BooksStand(cfg, s);
    StepCalls(cfg, s, a);
    var c := CallOf(cfg, s, a);
    match c {
      case CallUpdate(k, capacity, change) =>
        if Update(s.t, cfg, s.now, k, capacity, change).Committed? {
          UpdateExpires(cfg, s.t, s.now, k, capacity, change);
          Updated(cfg, s.t, s.now, k, capacity, change);
        }
      case CallDetach(k, token, spare, due) =>
        if Detach(s.t, s.now, k, token, spare, due).Committed? {
          DetachExpires(s.t, s.now, k, token, spare, due);
          if k != key { DetachTouches(s.t, s.now, k, token, spare, due, key); }
        }
      case CallAdopt(k, token, names) =>
        if Adopt(s.t, s.now, k, token, names).Committed? { AdoptTouches(s.t, s.now, k, token, names, key); }
      case _ =>
    }
  }

  lemma DetachExpires(t: Tables, now: Time, key: Id, token: Id, spare: bool, due: Time)
    requires Detach(t, now, key, token, spare, due).Committed?
    ensures Expires(Load(t, key), Load(Detach(t, now, key, token, spare, due).t, key), now)
  {
    hide Prepare;
    PreparedFields(Unclaimed(Load(t, key), now).(nextActionAt := now + 30), now);
  }

  lemma AdoptTouches(t: Tables, now: Time, k: Id, token: Id, names: seq<Id>, key: Id)
    requires Adopt(t, now, k, token, names).Committed?
    ensures var r, r2 := Load(t, key), Load(Adopt(t, now, k, token, names).t, key);
            r2 == r || (k == key && !r2.terminal)
  {
    hide Prepare, RowOf;
    if FirstFree(t.evidence, names).Some? && !Load(t, k).terminal {
      Adopter(Load(t, k), RowOf(t, FirstFree(t.evidence, names).value).rec, now);
    }
  }

  /** A job that is over and owes nothing is kept for a week from when that came about. */
  lemma {:induction false} KeptForAWeek(cfg: Config, run: seq<System>, acts: seq<Action>, i: nat, j: nat, key: Id)
    requires IsRun(cfg, run, acts) && i < j < |run| && !Settled(Load(StateAt(run, i).t, key))
    requires forall m :: i < m <= j ==> Settled(Load(StateAt(run, m).t, key))
    ensures StateAt(run, i).now + WEEK <= Load(StateAt(run, j).t, key).expiresAt
    ensures StateAt(run, i).now <= StateAt(run, j - 1).now
  {
    hide Enabled, Step, AllStand, Settled;
    RunStands(cfg, run, acts, j - 1);
    StepExpires(cfg, StateAt(run, j - 1), ActionAt(acts, j - 1), key);
    if i + 1 < j {
      KeptForAWeek(cfg, run, acts, i, j - 1, key);
      StepFrame(cfg, StateAt(run, j - 2), ActionAt(acts, j - 2));
    }
  }

  // ----- the id of a registered runner

  /** Only a record with a VM knows the id its runner registered under. */
  ghost predicate IdsOk(t: Tables) {
    forall k :: k in t.jobs && t.jobs[k].gen.vm == NONE ==> t.jobs[k].runnerId == NONE
  }

  lemma UpdateIds(cfg: Config, t: Tables, now: Time, key: Id, capacity: bool, c: Change)
    requires IdsOk(t) && Admissible(cfg, t, key, c) && Update(t, cfg, now, key, capacity, c).Committed?
    ensures IdsOk(Update(t, cfg, now, key, capacity, c).t)
  {
    hide Apply, Prepare, Update, Yields;
    var r, f := Load(t, key), if capacity then t.fleet else Fleet(0, 0, 0);
    Updated(cfg, t, now, key, capacity, c);
    ClaimField(c, cfg, now, r, f);
    FailureField(c, cfg, now, r, f);
    PreparedFields(Apply(c, cfg, now, r, f).r, now);
  }

  lemma CallIds(cfg: Config, t: Tables, now: Time, c: Call)
    requires IdsOk(t) && BooksOk(cfg, t) && now > NEVER && Lawful(cfg, t, now, c)
    ensures IdsOk(Perform(cfg, t, now, c))
  {
    hide Update, Adopt, Detach, RememberRunnerId, BooksOk;
    match c {
      case CallUpdate(k, capacity, change) =>
        if Update(t, cfg, now, k, capacity, change).Committed? { UpdateIds(cfg, t, now, k, capacity, change); }
      case CallDetach(k, token, spare, due) =>
        if Detach(t, now, k, token, spare, due).Committed? {
          Detached(cfg, t, now, k, token, spare, due);
          DetachKeeps(t, now, k, token, spare, due);
        }
      case CallAdopt(k, token, names) =>
        if Adopt(t, now, k, token, names).Committed? { AdopterHasVm(cfg, t, now, k, token, names); }
      case CallRemember(name, id) => if RememberRunnerId(t, name, id).Committed? { RememberedHasVm(cfg, t, name, id); }
      case _ =>
    }
  }

  lemma AdopterHasVm(cfg: Config, t: Tables, now: Time, key: Id, token: Id, names: seq<Id>)
    requires BooksOk(cfg, t) && now > NEVER && Adopt(t, now, key, token, names).Committed?
    requires forall n :: n in names ==> n in t.runners && t.runners[n].available
    ensures var t2 := Adopt(t, now, key, token, names).t;
            t2.jobs == t.jobs || (t2.jobs == t.jobs[key := Load(t2, key)] && Load(t2, key).gen.vm != NONE)
  {
    hide Adopt, BooksOk;
    Adopted(cfg, t, now, key, token, names);
    KeysAreReal(cfg, t);
    var t2 := Adopt(t, now, key, token, names).t;
    if t2 != t { RowHasVm(cfg, t, Load(t2, key).gen.vm); }
  }

  lemma RowHasVm(cfg: Config, t: Tables, n: Id)
    requires BooksOk(cfg, t) && n in t.runners
    ensures n != NONE
  {
  }

  lemma RememberedHasVm(cfg: Config, t: Tables, name: Id, id: Id)
    requires BooksOk(cfg, t) && RememberRunnerId(t, name, id).Committed?
    ensures var t2 := RememberRunnerId(t, name, id).t;
            forall k :: k in t2.jobs ==> k in t.jobs && (t2.jobs[k] == t.jobs[k] || (t2.jobs[k].gen.vm != NONE))
  {
    if name in t.runners { RowHasVm(cfg, t, name); }
  }

  /** In every run a record whose VM is gone has forgotten the id its runner registered under. */
  lemma {:induction false} IdsInRun(cfg: Config, run: seq<System>, acts: seq<Action>, i: nat)
    requires IsRun(cfg, run, acts) && i < |run|
    ensures IdsOk(StateAt(run, i).t)
  {
    hide Enabled, Step, AllStand, Perform, CallOf, BooksOk;
    if i > 0 {
      var s, a := StateAt(run, i - 1), ActionAt(acts, i - 1);
      IdsInRun(cfg, run, acts, i - 1);
      RunStands(cfg, run, acts, i - 1);
      BooksStand(cfg, s);
      StepCalls(cfg, s, a);
      StepLawful(cfg, s, a);
      CallIds(cfg, s.t, s.now, CallOf(cfg, s, a));
    }
  }
}
