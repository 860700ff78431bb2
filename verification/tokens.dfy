/** Dispatch tokens: one job each, dead once superseded, and one chain at a time. */
module Tokens {
  import opened Types
  import opened Records
  import opened Transactions
  import opened DispatchWindow
  import opened Callbacks
  import opened Protocol
  import opened Transitions
  import opened Standing

  function Marker(s: System, key: Id): Dispatch {
    Load(s.t, key).dispatch
  }

  /** The step sends a task for the job under this token. */
  predicate Issues(s: System, a: Action, key: Id, token: Id, delay: Time) {
    a == Action.Dispatch(key, token, delay) && MaySend(Load(s.t, key), s.now, delay)
  }

  // ----- how a marker changes

  /** The callback leaves this marker, for a task now sent. */
  predicate Stamps(cfg: Config, now: Time, r: Record, c: Change, d: Dispatch) {
    match c
    case Enqueue(token, delay) => MaySend(r, now, delay) && d == Dispatch.Dispatch(token, now + delay + WindowOf(cfg))
    case _ => false
  }

  /** What one callback may do to a job's marker. */
  lemma ChangeOnMarker(c: Change, cfg: Config, now: Time, r: Record, f: Fleet)
    ensures
      var o := Apply(c, cfg, now, r, f);
      o.Accept? ==>
        || o.r.dispatch == r.dispatch || o.r.dispatch.token == NONE
        || (c == EnqueueFailed(r.dispatch.token) && o.r.dispatch == r.dispatch.(until := NEVER))
        || Stamps(cfg, now, r, c, o.r.dispatch)
  {
    hide WindowOf;
  }

  /** The call makes such a change for this job. */
  predicate CallStamps(cfg: Config, t: Tables, now: Time, c: Call, key: Id, d: Dispatch) {
    match c
    case CallUpdate(k, _, change) => k == key && Stamps(cfg, now, Load(t, key), change, d)
    case _ => false
  }

  /** The call reports this token's enqueue as failed. */
  predicate CallFails(c: Call, key: Id, token: Id) {
    match c
    case CallUpdate(k, _, change) => k == key && change == EnqueueFailed(token)
    case _ => false
  }

  /** What one store call may do to a job's marker. */
  lemma CallOnMarker(cfg: Config, t: Tables, now: Time, c: Call, key: Id)
    ensures
      var d, d2 := Load(t, key).dispatch, Load(Perform(cfg, t, now, c), key).dispatch;
      || d2 == d || d2.token == NONE
      || (CallFails(c, key, d.token) && d2 == d.(until := NEVER))
      || CallStamps(cfg, t, now, c, key, d2)
  {
    hide Apply, Update, Stamps;
    match c {
      case CallUpdate(k, capacity, change) =>
        if Update(t, cfg, now, k, capacity, change).Committed? {
          ChangeOnMarker(change, cfg, now, Load(t, k), Counts(t, capacity));
          Stored(cfg, t, now, k, capacity, change);
        }
      case _ =>
    }
  }

  /** The same for a step. */
  lemma StepOnMarker(cfg: Config, s: System, a: Action, key: Id)
    requires Enabled(cfg, s, a)
    ensures
      var d, d2 := Marker(s, key), Marker(Step(cfg, s, a), key);
      || d2 == d || d2.token == NONE
      || (a == DispatchFailed(key, d.token) && d2 == d.(until := NEVER))
      || (d2.until == s.now + DelayOf(a) + WindowOf(cfg) && Issues(s, a, key, d2.token, DelayOf(a)))
  {
    hide Perform, Step, WorkCall, MaySend, WorkEnabled, WindowOf, MayAnswer, ShouldRemove;
    StepCalls(cfg, s, a);
    CallOnMarker(cfg, s.t, s.now, CallOf(cfg, s, a), key);
    if a.Work? { WorkCallKinds(cfg, s, a.id, a.act); }
  }

  function DelayOf(a: Action): Time {
    match a
    case Dispatch(_, _, delay) => delay
    case _ => 0
  }

  // ----- tokens and tasks

  ghost predicate TasksOk(s: System) {
    && NONE !in s.nonces
    && (forall token :: token in s.payloads ==> token in s.nonces)
    && (forall st :: st in s.starts ==> st.token in s.payloads)
    && (forall id :: id in s.workers ==> s.At(id).dispatch in s.payloads)
  }

  /** Every token was drawn, for one job, and every task carrying it says so. */
  ghost predicate TokensOk(s: System) {
    && TasksOk(s)
    && (forall key :: key in s.t.jobs && s.t.jobs[key].dispatch.token != NONE ==>
          s.t.jobs[key].dispatch.token in s.payloads && s.payloads[s.t.jobs[key].dispatch.token].key == key)
  }

  /** What only grows: the clock, the drawn identifiers, and every task ever sent. */
  ghost predicate Grows(s: System, s2: System) {
    && s.now <= s2.now && s.nonces <= s2.nonces
    && (forall token :: token in s.payloads ==> token in s2.payloads && s2.payloads[token] == s.payloads[token])
  }

  /** The task a dispatch sends is there. */
  predicate Sent(s: System, s2: System, a: Action) {
    match a
    case Dispatch(key, token, delay) =>
      MaySend(Load(s.t, key), s.now, delay) ==> token in s2.payloads && s2.payloads[token].key == key
    case _ => true
  }

  lemma DispatchTokens(cfg: Config, s: System, key: Id, token: Id, delay: Time)
    requires TasksOk(s) && token != NONE && token !in s.nonces
    ensures var s2 := DispatchStep(cfg, s, key, token, delay);
            TasksOk(s2) && Grows(s, s2) && Sent(s, s2, Action.Dispatch(key, token, delay))
  {
    hide Update, MaySend, Load;
  }

  lemma ClaimTokens(cfg: Config, s: System, start: Start, id: Id, override: Option<Id>)
    requires TasksOk(s) && start in s.starts && id != NONE
    ensures var s2 := ClaimStep(cfg, s, start, id, override); TasksOk(s2) && Grows(s, s2)
  {
    hide Update, Load;
  }

  lemma StepTasks(cfg: Config, s: System, a: Action)
    requires TasksOk(s) && Enabled(cfg, s, a)
    ensures var s2 := Step(cfg, s, a); TasksOk(s2) && Grows(s, s2) && Sent(s, s2, a)
  {
    hide WorkStep, WorkEnabled, MaySend, MayAnswer, ShouldRemove, DispatchStep, ClaimStep, StartTaskStep, TasksOk,
      Grows, Sent;
    match a {
      case Work(id, act) => WorkTokens(cfg, s, id, act);
      case Dispatch(key, token, delay) => DispatchTokens(cfg, s, key, token, delay);
      case ClaimJob(start, id, override) => ClaimTokens(cfg, s, start, id, override);
      case StartTask(token) => StartTokens(cfg, s, token);
      case _ => IdleTokens(cfg, s, a);
    }
    NothingSent(s, Step(cfg, s, a), a);
  }

  lemma NothingSent(s: System, s2: System, a: Action)
    ensures !a.Dispatch? ==> Sent(s, s2, a)
  {
  }

  lemma IdleTokens(cfg: Config, s: System, a: Action)
    requires TasksOk(s) && Enabled(cfg, s, a) && !a.Work? && !a.Dispatch? && !a.ClaimJob? && !a.StartTask?
    ensures var s2 := Step(cfg, s, a); TasksOk(s2) && Grows(s, s2)
  {
    hide Step, Enabled;
    NoNewTasks(cfg, s, a);
    StepFrame(cfg, s, a);
    OtherWorkersStay(cfg, s, a);
  }

  lemma StartTokens(cfg: Config, s: System, token: Id)
    requires TasksOk(s) && token in s.payloads
    ensures var s2 := StartTaskStep(cfg, s, token); TasksOk(s2) && Grows(s, s2)
  {
    hide Update;
  }

  lemma WorkTokens(cfg: Config, s: System, id: Id, act: WorkAction)
    requires TasksOk(s) && WorkEnabled(s, id, act)
    ensures var s2 := WorkStep(cfg, s, id, act); TasksOk(s2) && Grows(s, s2)
  {
    hide WorkStep, MayAnswer, MayLookUp, MayReply, MayEndWait, IsCandidateList, Load;
    WorkStepFrame(cfg, s, id, act);
  }

  lemma StepKeepsTokens(cfg: Config, s: System, a: Action)
    requires TokensOk(s) && Enabled(cfg, s, a)
    ensures TokensOk(Step(cfg, s, a)) && Grows(s, Step(cfg, s, a))
  {
    hide Step, Enabled, MaySend, WindowOf;
    var s2 := Step(cfg, s, a);
    StepTasks(cfg, s, a);
    forall key | key in s2.t.jobs && s2.t.jobs[key].dispatch.token != NONE
      ensures s2.t.jobs[key].dispatch.token in s2.payloads && s2.payloads[s2.t.jobs[key].dispatch.token].key == key
    {
      StepOnMarker(cfg, s, a, key);
    }
  }

  lemma {:induction false} RunTokens(cfg: Config, run: seq<System>, acts: seq<Action>, i: nat)
    requires IsRun(cfg, run, acts) && i < |run|
    ensures TokensOk(StateAt(run, i))
  {
    hide Enabled, Step;
    if i > 0 {
      hide TokensOk;
      RunTokens(cfg, run, acts, i - 1);
      StepKeepsTokens(cfg, StateAt(run, i - 1), ActionAt(acts, i - 1));
    }
  }

  lemma {:induction false} RunGrows(cfg: Config, run: seq<System>, acts: seq<Action>, i: nat, j: nat)
    requires IsRun(cfg, run, acts) && i <= j < |run|
    ensures Grows(StateAt(run, i), StateAt(run, j))
  {
    hide Enabled, Step, TokensOk;
    if i < j {
      RunGrows(cfg, run, acts, i, j - 1);
      RunTokens(cfg, run, acts, j - 1);
      StepKeepsTokens(cfg, StateAt(run, j - 1), ActionAt(acts, j - 1));
    }
  }

  // ----- over whole runs

  /** A token drawn before, and not this job's marker, does not become it. */
  lemma {:induction false} DeadTokenStaysDead(cfg: Config, run: seq<System>, acts: seq<Action>, i: nat, j: nat,
      key: Id, token: Id)
    requires IsRun(cfg, run, acts) && i <= j < |run|
    requires token != NONE && token in StateAt(run, i).nonces && Marker(StateAt(run, i), key).token != token
    ensures Marker(StateAt(run, j), key).token != token
  {
    hide Step, WorkEnabled, MaySend, WindowOf, Load, MayAnswer, ShouldRemove;
    if i < j {
      DeadTokenStaysDead(cfg, run, acts, i, j - 1, key, token);
      RunGrows(cfg, run, acts, i, j - 1);
      StepOnMarker(cfg, StateAt(run, j - 1), ActionAt(acts, j - 1), key);
    }
  }

  /** A dispatch token is the active one of at most one job, ever. */
  lemma TokenServesOneJob(cfg: Config, run: seq<System>, acts: seq<Action>, i: nat, j: nat, k1: Id, k2: Id)
    requires IsRun(cfg, run, acts) && i <= j < |run|
    requires Marker(StateAt(run, i), k1).token == Marker(StateAt(run, j), k2).token != NONE
    ensures k1 == k2
  {
    hide Enabled, Step;
    RunTokens(cfg, run, acts, i);
    RunTokens(cfg, run, acts, j);
    RunGrows(cfg, run, acts, i, j);
  }

  /** Once superseded or cleared a token is never active again, for any job, and
      every later delivery that carries it is refused without effect. */
  lemma SupersededTokenIsDead(cfg: Config, run: seq<System>, acts: seq<Action>, i: nat, j: nat, m: nat, key: Id,
      token: Id)
    requires IsRun(cfg, run, acts) && i < j <= m < |run|
    requires token != NONE && Marker(StateAt(run, i), key).token == token && Marker(StateAt(run, j), key).token != token
    ensures forall k :: Marker(StateAt(run, m), k).token != token
    ensures m < |acts| && ActionAt(acts, m) == StartTask(token) ==> StateAt(run, m + 1) == StateAt(run, m)
  {
    hide Enabled, Step, TasksOk;
    forall k ensures Marker(StateAt(run, m), k).token != token {
      if Marker(StateAt(run, m), k).token == token {
        TokenServesOneJob(cfg, run, acts, i, m, key, k);
        RunTokens(cfg, run, acts, i);
        TasksDrawn(StateAt(run, i));
        RunGrows(cfg, run, acts, i, j);
        DeadTokenStaysDead(cfg, run, acts, j, m, key, token);
      }
    }
    RefusedStart(cfg, StateAt(run, m), token);
  }

  lemma TasksDrawn(s: System)
    requires TasksOk(s)
    ensures forall token :: token in s.payloads ==> token in s.nonces
  {
  }

  lemma RefusedStart(cfg: Config, s: System, token: Id)
    requires Marker(s, s.Task(token).key).token != token
    ensures Step(cfg, s, StartTask(token)) == s
  {
  }

  /** While one token stays active its window stays what it was at the dispatch,
      unless its enqueue was reported failed. */
  lemma {:induction false} WindowStands(cfg: Config, run: seq<System>, acts: seq<Action>, i: nat, j: nat, key: Id,
      token: Id, delay: Time)
    requires IsRun(cfg, run, acts) && i < j < |run| && Issues(StateAt(run, i), ActionAt(acts, i), key, token, delay)
    requires forall m :: i < m <= j ==> Marker(StateAt(run, m), key).token == token
    requires forall m :: i < m < j ==> ActionAt(acts, m) != DispatchFailed(key, token)
    ensures token in StateAt(run, i + 1).nonces && token != NONE
    ensures Marker(StateAt(run, j), key).until == StateAt(run, i).now + delay + WindowOf(cfg)
  {
    hide Step, Enabled, MaySend, WindowOf, Load;
    if i + 1 == j {
      Issued(cfg, StateAt(run, i), key, token, delay);
      FreshTask(cfg, StateAt(run, i), key, token, delay);
    } else {
      WindowStands(cfg, run, acts, i, j - 1, key, token, delay);
      var s, a := StateAt(run, j - 1), ActionAt(acts, j - 1);
      assert a != DispatchFailed(key, token) && Marker(s, key).token == token;
      StepOnMarker(cfg, s, a, key);
      RunGrows(cfg, run, acts, i + 1, j - 1);
      if Issues(s, a, key, token, DelayOf(a)) { FreshTask(cfg, s, key, token, DelayOf(a)); }
    }
  }

  lemma FreshTask(cfg: Config, s: System, key: Id, token: Id, delay: Time)
    requires Enabled(cfg, s, Action.Dispatch(key, token, delay))
    ensures token !in s.nonces && token != NONE
  {
    hide WorkEnabled, MayAnswer, ShouldRemove;
  }

  lemma Issued(cfg: Config, s: System, key: Id, token: Id, delay: Time)
    requires MaySend(Load(s.t, key), s.now, delay)
    ensures var s2 := Step(cfg, s, Action.Dispatch(key, token, delay));
            && Marker(s2, key).token == token && Marker(s2, key).until == s.now + delay + WindowOf(cfg)
            && token in s2.nonces
  {
  }

  /** Two retry chains of one job do not overlap: if the marker of a dispatch is
      still standing when the next task is sent, every delivery the queue may make
      of the first, however slow, has ended with the margin to spare. */
  lemma ChainsDoNotOverlap(cfg: Config, run: seq<System>, acts: seq<Action>, i: nat, j: nat, key: Id,
      token: Id, delay: Time, token2: Id, delay2: Time, chain: seq<Run>, k: nat)
    requires IsRun(cfg, run, acts) && i < j < |acts|
    requires Issues(StateAt(run, i), ActionAt(acts, i), key, token, delay)
    requires Issues(StateAt(run, j), ActionAt(acts, j), key, token2, delay2)
    requires forall m :: i < m <= j ==> Marker(StateAt(run, m), key).token == token
    requires forall m :: i < m < j ==> ActionAt(acts, m) != DispatchFailed(key, token)
    requires IsChain(chain, cfg.taskTimeout, cfg.retryAttempts, cfg.retryBackoff, cfg.retryDuration) && k < |chain|
    ensures StateAt(run, i).now + delay + chain[k].end + MARGIN <= StateAt(run, j).now
  {
    hide Enabled, Step, IsChain, Window;
    WindowStands(cfg, run, acts, i, j, key, token, delay);
    ChainEndsInsideWindow(chain, cfg.taskTimeout, cfg.retryAttempts, cfg.retryBackoff, cfg.retryDuration, k);
  }
}
