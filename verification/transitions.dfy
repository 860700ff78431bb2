/** Every step makes at most one store call, and this is which one. */
module Transitions {
  import opened Types
  import opened Records
  import opened Transactions
  import opened Protocol

  datatype Call =
    | NoCall
    | CallUpdate(key: Id, capacity: bool, change: Change)
    | CallDetach(key: Id, token: Id, spare: bool, due: Time)
    | CallAdopt(key: Id, token: Id, names: seq<Id>)
    | CallDefer(name: Id, due: Time, available: bool)
    | CallRelease(name: Id)
    | CallRemember(name: Id, runnerId: Id)
    | CallAssign(key: Id, name: Id, job: Job)

  /** An aborted transaction leaves the tables as they were. */
  function Result(t: Tables, tx: Tx): Tables {
    if tx.Committed? then tx.t else t
  }

  function Perform(cfg: Config, t: Tables, now: Time, c: Call): Tables {
    match c
    case NoCall => t
    case CallUpdate(key, capacity, change) => Result(t, Update(t, cfg, now, key, capacity, change))
    case CallDetach(key, token, spare, due) => Result(t, Detach(t, now, key, token, spare, due))
    case CallAdopt(key, token, names) => Result(t, Adopt(t, now, key, token, names))
    case CallDefer(name, due, available) => DeferRunner(t, name, due, available)
    case CallRelease(name) => ReleaseRunner(t, name)
    case CallRemember(name, runnerId) => Result(t, RememberRunnerId(t, name, runnerId))
    case CallAssign(key, name, job) => Result(t, RecordAssignment(t, now, key, name, job))
  }

  /** The store call of a worker at the point where it is. */
  function WorkCall(cfg: Config, s: System, id: Id, act: WorkAction): Call {
    var w := s.At(id);
    var standard := w.r.gen.model == Standard;
    match act
    case CheckStatus(answer) =>
      CallUpdate(w.key, false, SaveStatus(id, if w.r.terminal then Some(Completed) else answer))
    case TryAdopt(_, names) => CallAdopt(w.key, id, names)
    case RereadJob => CallUpdate(w.key, false, Reread(id))
    case ReleaseOwn => CallUpdate(w.key, true, ReleaseClaim(id))
    case DetachOwn => CallDetach(w.key, id, w.pc == AtDetach(true), s.now + 2 * MINUTE)
    case KeepOwn => CallUpdate(w.key, false, KeepRunning(id))
    case Forget => CallUpdate(w.key, standard, ForgetAttempt(id))
    case Decide =>
      if w.status.None? || w.r.terminal || w.r.failure != NONE then NoCall
      else CallUpdate(w.key, false, SaveDemand(id, w.status.value))
    case Discard => CallUpdate(w.key, true, ReleaseClaim(id))
    case Admit(name) =>
      if (w.override.Some? && w.override.value !in cfg.machines) || w.r.gen.vm != NONE then NoCall
      else CallUpdate(w.key, true, Reserve(id, name))
    case IssueJit(jit) => if w.r.gen.jit != NONE then NoCall else CallUpdate(w.key, false, SaveJit(id, jit))
    case SaveNext =>
      var rest := Rest(w.pc);
      if rest == [] || (rest[0].model == Standard && !cfg.allowStandard) then NoCall
      else CallUpdate(w.key, standard != (rest[0].model == Standard), SaveAttempt(id, rest[0]))
    case SaveOp => CallUpdate(w.key, false, SaveOperation(id, OperationAt(w.pc)))
    case Clear => CallUpdate(w.key, standard, ForgetAttempt(id))
    case Created => CallUpdate(w.key, false, MarkCreated(id))
    case Drop => CallUpdate(w.key, false, DropLease(id))
    case FinishTask =>
      var err := ErrorAt(w.pc);
      if err.Contended? then NoCall else CallUpdate(w.key, err.Permanent?, Finish(w.dispatch, err))
    case _ => NoCall
  }

  function CallOf(cfg: Config, s: System, a: Action): Call {
    match a
    case Work(id, act) => WorkCall(cfg, s, id, act)
    case Intake(key, job, source, completed, owned) =>
      CallUpdate(key, false, Observe(job, source, completed, owned))
    case Assign(key, name, job) => CallAssign(key, name, job)
    case Dispatch(key, token, delay) => CallUpdate(key, false, Enqueue(token, delay))
    case DispatchFailed(key, token) => CallUpdate(key, false, EnqueueFailed(token))
    case StartTask(token) => CallUpdate(s.Task(token).key, false, CheckActive(token))
    case ClaimJob(start, id, _) => CallUpdate(start.key, false, Claim(id))
    case Recreated(key, name) => CallUpdate(key, false, Recreate(name))
    case DeleteRecorded(key, name) => CallUpdate(key, true, DeleteDone(name))
    case DeleteAcked(key, token) => CallUpdate(key, false, Finish(token, NoError))
    case ReleaseRow(name) => CallRelease(name)
    case DeferRow(name, due, available) => CallDefer(name, due, available)
    case Remember(name, runnerId) => CallRemember(name, runnerId)
    case _ => NoCall
  }

  /** The steps that make no store call of their own. */
  predicate CallsNothing(act: WorkAction) {
    act.Inspect? || act.AskRegistration? || act.DeleteOwn? || act.Resolve? || act.Recheck? || act.MakePlan? ||
    act.Send? || act.Receive? || act.Wait? || act.Abort? || act.Crash?
  }

  lemma GotoGoes(s: System, id: Id, pc: Pc)
    ensures var s2 := Goto(s, id, pc);
            && id in s2.workers && s2.At(id) == s.At(id).(pc := pc) && s2 == s.(workers := s.workers[id := s2.At(id)])
  {
  }

  /** A transaction moves the worker along, with its snapshot as it was or fresh. */
  lemma WriteGoes(cfg: Config, s: System, id: Id, capacity: bool, c: Change, refresh: bool, pc: Pc)
    ensures var s2 := Write(cfg, s, id, capacity, c, refresh, pc);
            var w, w2 := s.At(id), s2.At(id);
            && id in s2.workers && s2 == s.(t := s2.t, workers := s.workers[id := w2])
            && w2 == w.(r := w2.r, pc := w2.pc)
            && (w2.pc.AtEnd? || (w2.pc == pc && Update(s.t, cfg, s.now, w.key, capacity, c).Committed?))
            && (w2.r == w.r || w2.r == Load(s2.t, w.key))
            && (if refresh then w2.pc.AtEnd? || w2.r == Load(s2.t, w.key) else w2.r == w.r)
            && s2.t == Result(s.t, Update(s.t, cfg, s.now, w.key, capacity, c))
  {
    hide Update, Load, ErrorOf;
  }

  lemma QuietCalls(cfg: Config, s: System, id: Id, act: WorkAction)
    requires CallsNothing(act)
    ensures WorkCall(cfg, s, id, act) == NoCall && WorkStep(cfg, s, id, act).t == s.t
  {
    hide Goto, VmExists, AttemptDone, Submitted, Without, AttemptsFor, AfterLookup, AfterRegistration;
    assert WorkCall(cfg, s, id, act) == NoCall by { hide WorkStep; }
    hide WorkCall;
    forall s2: System, pc ensures Goto(s2, id, pc).t == s2.t {
      GotoGoes(s2, id, pc);
    }
  }

  lemma StoringCalls(cfg: Config, s: System, id: Id, act: WorkAction)
    requires !CallsNothing(act)
    ensures WorkStep(cfg, s, id, act).t == Perform(cfg, s.t, s.now, WorkCall(cfg, s, id, act))
  {
    hide Update, Adopt, Detach, InspectOrDecide, AfterDemand, AfterClear, Unsubmitted, AttemptOf, Load, Write, Goto;
    forall s1: System, capacity, c, refresh, pc
      ensures Write(cfg, s1, id, capacity, c, refresh, pc).t
           == Result(s1.t, Update(s1.t, cfg, s1.now, s1.At(id).key, capacity, c))
    {
      WriteGoes(cfg, s1, id, capacity, c, refresh, pc);
    }
    forall s1: System, pc ensures Goto(s1, id, pc).t == s1.t {
      GotoGoes(s1, id, pc);
    }
  }

  /** Nothing but its one store call changes the tables in a step. */
  lemma StepCalls(cfg: Config, s: System, a: Action)
    ensures Step(cfg, s, a).t == Perform(cfg, s.t, s.now, CallOf(cfg, s, a))
  {
    hide Update, Adopt, Detach, WorkStep, WorkCall, RememberRunnerId, RecordAssignment;
    if a.Work? { WorkStepCalls(cfg, s, a.id, a.act); }
  }

  lemma WorkStepCalls(cfg: Config, s: System, id: Id, act: WorkAction)
    ensures WorkStep(cfg, s, id, act).t == Perform(cfg, s.t, s.now, WorkCall(cfg, s, id, act))
  {
    hide WorkStep, WorkCall;
    if CallsNothing(act) {
      QuietCalls(cfg, s, id, act);
    } else {
      StoringCalls(cfg, s, id, act);
    }
  }

  // ----- what a worker's step leaves alone

  /** The names a worker's step may draw. */
  function Draws(act: WorkAction): set<Id> {
    match act
    case Admit(name) => {name}
    case _ => {}
  }

  /** What a worker's step leaves alone: everything but the tables, the cloud, its
      own place, and the names drawn; it keeps its job and its task, and its snapshot
      is the old one or what is stored now. */
  ghost predicate OnlyMoves(s: System, s2: System, id: Id) {
    && s2 == s.(t := s2.t, cloud := s2.cloud, workers := s2.workers, nonces := s2.nonces)
    && (forall i :: i in s2.workers ==>
          && i in s.workers
          && (i != id ==> s2.At(i) == s.At(i))
          && s2.At(i).key == s.At(i).key && s2.At(i).dispatch == s.At(i).dispatch
          && s2.At(i).deadline == s.At(i).deadline && s2.At(i).until == s.At(i).until
          && (s2.At(i).r == s.At(i).r || s2.At(i).r == Load(s2.t, s.At(i).key)))
  }

  predicate Leaves(act: WorkAction) {
    act.FinishTask? || act.Crash?
  }

  predicate ReachesCloud(act: WorkAction) {
    act.DeleteOwn? || act.Send? || act.Receive?
  }

  /** Moving one worker along. */
  ghost predicate Moved(s: System, s2: System, id: Id) {
    && id in s2.workers
    && s2 == s.(t := s2.t, cloud := s2.cloud, nonces := s2.nonces, workers := s.workers[id := s2.At(id)])
    && s2.At(id).key == s.At(id).key && s2.At(id).dispatch == s.At(id).dispatch
    && s2.At(id).deadline == s.At(id).deadline && s2.At(id).until == s.At(id).until
    && (s2.At(id).r == s.At(id).r || s2.At(id).r == Load(s2.t, s.At(id).key))
  }

  lemma GotoMoves(s: System, t2: Tables, c2: Cloud, id: Id, pc: Pc)
    ensures var s2 := Goto(s.(t := t2, cloud := c2), id, pc);
            Moved(s, s2, id) && s2.nonces == s.nonces && s2.cloud == c2
  {
  }

  lemma WriteMoves(cfg: Config, s: System, w: Worker, ns: set<Id>, id: Id, capacity: bool, c: Change, refresh: bool,
      pc: Pc)
    requires w == s.At(id).(status := w.status, failed := w.failed)
    ensures var s2 := Write(cfg, Put(s.(nonces := ns), id, w), id, capacity, c, refresh, pc);
            Moved(s, s2, id) && s2.nonces == ns && s2.cloud == s.cloud
  {
    hide Write;
    WriteGoes(cfg, Put(s.(nonces := ns), id, w), id, capacity, c, refresh, pc);
  }

  lemma QuietMoves(cfg: Config, s: System, id: Id, act: WorkAction)
    requires CallsNothing(act) && !act.Crash?
    ensures var s2 := WorkStep(cfg, s, id, act);
            Moved(s, s2, id) && s2.nonces == s.nonces && (ReachesCloud(act) || s2.cloud == s.cloud)
  {
    hide AttemptsFor, AttemptDone, Submitted, Without, VmExists, AfterLookup, AfterRegistration, AfterWait, RequestOf,
      Goto, Load, Moved;
    forall t2, c2, pc
      ensures var s2 := Goto(s.(t := t2, cloud := c2), id, pc);
              Moved(s, s2, id) && s2.nonces == s.nonces && s2.cloud == c2
    {
      GotoMoves(s, t2, c2, id, pc);
    }
    assert s.(t := s.t, cloud := s.cloud) == s;
  }

  lemma StoringMoves(cfg: Config, s: System, id: Id, act: WorkAction)
    requires id in s.workers && !CallsNothing(act) && !act.FinishTask?
    ensures var s2 := WorkStep(cfg, s, id, act);
            Moved(s, s2, id) && s2.cloud == s.cloud && s.nonces <= s2.nonces <= s.nonces + Draws(act)
  {
    hide Update, Adopt, Detach, InspectOrDecide, AfterDemand, AfterClear, Unsubmitted, AttemptOf, Goto, Write, Load,
      Moved;
    forall t2, c2, pc
      ensures var s2 := Goto(s.(t := t2, cloud := c2), id, pc);
              Moved(s, s2, id) && s2.nonces == s.nonces && s2.cloud == c2
    {
      GotoMoves(s, t2, c2, id, pc);
    }
    forall w: Worker, ns, capacity, c, refresh, pc | w == s.At(id).(status := w.status, failed := w.failed)
      ensures var s2 := Write(cfg, Put(s.(nonces := ns), id, w), id, capacity, c, refresh, pc);
              Moved(s, s2, id) && s2.nonces == ns && s2.cloud == s.cloud
    {
      WriteMoves(cfg, s, w, ns, id, capacity, c, refresh, pc);
    }
    assert s.(t := s.t, cloud := s.cloud) == s;
    assert forall ns :: Put(s.(nonces := ns), id, s.At(id)) == s.(nonces := ns);
  }

  lemma LeavingFrame(cfg: Config, s: System, id: Id, act: WorkAction)
    requires id in s.workers && Leaves(act)
    ensures var s2 := WorkStep(cfg, s, id, act);
            OnlyMoves(s, s2, id) && s2.nonces == s.nonces && s2.cloud == s.cloud && id !in s2.workers
  {
    hide Update;
  }

  /** A worker's step moves it along or takes it out; three reach into the cloud, and
      only Admit draws a name. */
  lemma WorkStepFrame(cfg: Config, s: System, id: Id, act: WorkAction)
    requires id in s.workers
    ensures var s2 := WorkStep(cfg, s, id, act);
            && OnlyMoves(s, s2, id) && s.nonces <= s2.nonces <= s.nonces + Draws(act)
            && (ReachesCloud(act) || s2.cloud == s.cloud) && (id in s2.workers <==> !Leaves(act))
  {
    hide WorkStep, Draws, Load;
    if Leaves(act) {
      LeavingFrame(cfg, s, id, act);
    } else {
      if CallsNothing(act) { QuietMoves(cfg, s, id, act); } else { StoringMoves(cfg, s, id, act); }
      hide CallsNothing, ReachesCloud, Leaves;
    }
  }

  /** The steps between reservation and recorded creation. */
  predicate Creates(act: WorkAction) {
    act.IssueJit? || act.MakePlan? || act.SaveNext? || act.Send? || act.Receive? || act.SaveOp? || act.Wait? ||
    act.Clear? || act.Created?
  }

  // ----- where a worker goes

  /** What the status check leaves as the status. */
  function StatusSeen(w: Worker, answer: Option<Status>): Option<Status> {
    if w.r.terminal then Some(Completed) else answer
  }

  /** Where a step may lead but to the end of processJob. */
  ghost predicate MayGo(cfg: Config, s: System, w: Worker, act: WorkAction, pc: Pc) {
    match act
    case CheckStatus(answer) => pc.AtInspect? || pc.AtDecide? || (pc.AtAdopt? && StatusSeen(w, answer) == Some(Queued))
    case TryAdopt(_, _) => pc.AtReread? || pc.AtDecide?
    case RereadJob => pc.AtInspect? || pc.AtDecide?
    case Inspect(stopped) => pc == AfterLookup(w, VmExists(s.cloud, w.r.gen.vm), stopped)
    case AskRegistration(reg) => pc == AfterRegistration(cfg, w, reg, s.now)
    case DeleteOwn => pc.AtRelease?
    case ReleaseOwn => pc.AtDecide?
    case Resolve(_) => pc.AtRecheck? || pc.AtDecide?
    case Recheck => pc.AtForget? || pc.AtRelease?
    case Forget => pc.AtDecide?
    case Decide => pc == AtDiscard(false) || (w.status == Some(Queued) && (pc == AtDiscard(true) || pc.AtAdmit?))
    case Discard => w.pc == AtDiscard(true) && pc.AtAdmit?
    case Admit(_) => pc.AtJit?
    case IssueJit(_) => pc.AtPlan?
    case MakePlan(_, _) => pc.AtAttempt?
    case SaveNext => pc.AtAttempt? || pc.AtSend?
    case Send => pc.AtAwait?
    case Receive(_) => pc.AtRecord? || pc.AtClear? || pc.AtCreated?
    case SaveOp => pc.AtWait?
    case Wait(_) => pc.AtClear? || pc.AtCreated?
    case Clear => pc.AtAttempt?
    case _ => false
  }

  /** The worker went to such a point, with the status it had or has just asked for. */
  ghost predicate Goes(cfg: Config, s: System, w: Worker, act: WorkAction, w2: Worker) {
    && (!Active(w2.pc) || MayGo(cfg, s, w, act, w2.pc))
    && w2.status == match act { case CheckStatus(answer) => StatusSeen(w, answer) case _ => w.status }
  }

  lemma GotoArrives(cfg: Config, s: System, w: Worker, act: WorkAction, s1: System, id: Id, pc: Pc)
    requires s1.At(id) == w && !act.CheckStatus? && (!Active(pc) || MayGo(cfg, s, w, act, pc))
    ensures Goes(cfg, s, w, act, Goto(s1, id, pc).At(id))
  {
    hide MayGo;
  }

  lemma WriteArrives(cfg: Config, s: System, w: Worker, act: WorkAction, s1: System, id: Id, capacity: bool, c: Change,
      refresh: bool, pc: Pc)
    requires !Active(pc) || MayGo(cfg, s, w, act, pc)
    requires s1.At(id).status == match act { case CheckStatus(answer) => StatusSeen(w, answer) case _ => w.status }
    ensures Goes(cfg, s, w, act, Write(cfg, s1, id, capacity, c, refresh, pc).At(id))
  {
    hide MayGo, Write;
    WriteGoes(cfg, s1, id, capacity, c, refresh, pc);
  }

  lemma QuietGoes(cfg: Config, s: System, id: Id, act: WorkAction)
    requires CallsNothing(act) && !act.Crash?
    ensures Goes(cfg, s, s.At(id), act, WorkStep(cfg, s, id, act).At(id))
  {
    hide VmExists, AttemptDone, Without, RequestOf, AttemptsFor, Submitted, Goto, AfterLookup, AfterRegistration,
      Goes;
    forall s1: System, pc | s1.At(id) == s.At(id) && (!Active(pc) || MayGo(cfg, s, s.At(id), act, pc))
      ensures Goes(cfg, s, s.At(id), act, Goto(s1, id, pc).At(id))
    {
      GotoArrives(cfg, s, s.At(id), act, s1, id, pc);
    }
  }

  lemma StoringGoes(cfg: Config, s: System, id: Id, act: WorkAction)
    requires !CallsNothing(act) && !act.FinishTask?
    ensures Goes(cfg, s, s.At(id), act, WorkStep(cfg, s, id, act).At(id))
  {
    hide Update, Adopt, Detach, Write, Load, AttemptOf, Goto, Goes;
    var w := s.At(id);
    forall s1: System, pc | s1.At(id) == w && !act.CheckStatus? && (!Active(pc) || MayGo(cfg, s, w, act, pc))
      ensures Goes(cfg, s, w, act, Goto(s1, id, pc).At(id))
    {
      GotoArrives(cfg, s, w, act, s1, id, pc);
    }
    forall s1: System, capacity, c, refresh, pc |
      && (!Active(pc) || MayGo(cfg, s, w, act, pc))
      && s1.At(id).status == match act { case CheckStatus(answer) => StatusSeen(w, answer) case _ => w.status }
      ensures Goes(cfg, s, w, act, Write(cfg, s1, id, capacity, c, refresh, pc).At(id))
    {
      WriteArrives(cfg, s, w, act, s1, id, capacity, c, refresh, pc);
    }
  }

  /** Every step of a worker goes where its callback goes on. */
  lemma WorkStepGoes(cfg: Config, s: System, id: Id, act: WorkAction)
    requires !Leaves(act)
    ensures Goes(cfg, s, s.At(id), act, WorkStep(cfg, s, id, act).At(id))
  {
    hide WorkStep, Goes;
    if CallsNothing(act) { QuietGoes(cfg, s, id, act); } else { StoringGoes(cfg, s, id, act); }
  }

  /** A worker starts to create only when it is admitted. */
  lemma CreationStarts(cfg: Config, s: System, id: Id, act: WorkAction)
    requires !Creates(act) && !Leaves(act)
    ensures var pc := WorkStep(cfg, s, id, act).At(id).pc; !Creating(pc) || (act.Admit? && pc.AtJit?)
  {
    hide WorkStep, VmExists, ShouldRemove;
    WorkStepGoes(cfg, s, id, act);
  }

  /** Only a claim adds a worker, and it starts from what is stored. */
  ghost predicate Joins(cfg: Config, s: System, s2: System, a: Action) {
    match a
    case ClaimJob(start, id, override) =>
      && id in s2.workers && s2.workers == s.workers[id := s2.At(id)]
      && s2.At(id) == Worker(start.key, start.token, start.at + cfg.taskTimeout, LeaseEnd(cfg, s.now),
                             Load(s2.t, start.key), None, override, None, AtStatus)
      && Update(s.t, cfg, s.now, start.key, false, Claim(id)).Committed?
    case _ => false
  }

  /** This worker was not there before. */
  predicate IsNew(s: System, s2: System, id: Id) {
    id in s2.workers && !(id in s.workers && s2.At(id) == s.At(id))
  }

  lemma OtherWorkersStay(cfg: Config, s: System, a: Action)
    requires !a.Work?
    ensures var s2 := Step(cfg, s, a); s2.workers == s.workers || Joins(cfg, s, s2, a)
  {
    hide Update, RememberRunnerId, RecordAssignment, Load, MaySend, Without, LeaseEnd, DeferRunner, ReleaseRunner,
      WorkStep;
  }

  // ----- runs

  /** The state a run is in after so many steps, and the step it takes then. */
  function StateAt(run: seq<System>, i: int): System {
    if 0 <= i < |run| then run[i] else Initial(NEVER)
  }

  function ActionAt(acts: seq<Action>, i: int): Action {
    if 0 <= i < |acts| then acts[i] else Tick(0)
  }

  /** Every state follows from the one before by some actor's step. */
  ghost predicate Follows(cfg: Config, run: seq<System>, acts: seq<Action>) {
    && |run| == |acts| + 1
    && (forall i {:trigger ActionAt(acts, i)} :: 0 <= i < |acts| ==>
          && Enabled(cfg, StateAt(run, i), ActionAt(acts, i))
          && StateAt(run, i + 1) == Step(cfg, StateAt(run, i), ActionAt(acts, i)))
  }

  /** A run starts from an empty store and an empty cloud. */
  ghost predicate IsRun(cfg: Config, run: seq<System>, acts: seq<Action>) {
    var first := StateAt(run, 0);
    cfg.Valid() && Follows(cfg, run, acts) && first.now > NEVER && first == Initial(first.now)
  }
}
