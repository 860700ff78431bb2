/** The durable runner lifecycle as a state machine.

    Every Firestore transaction and every cloud call of every actor is one
    atomic step; any number of callbacks interleave, and any of them may stop for
    good between two steps.  A create worker is processJob cut at its
    transactions and cloud calls: its Pc says which comes next, and r is the
    snapshot the source calls r. */
module Protocol {
  import opened Types
  import opened Records
  import opened Transactions
  import opened CreationPlans

  // ----- the cloud

  /** The inputs of insertRequestID: equal requests carry equal request ids. */
  datatype Request = Request(name: Id, zone: Id, model: Provisioning, machine: Id)

  /** Sent: not accepted yet, and never accepted after until.  Refused: answered
      with a definite rejection.  The others are the states of its operation. */
  datatype Progress = Sent(until: Time) | Running | Succeeded | Failed | Refused

  datatype Instance = Instance(name: Id, zone: Id, model: Provisioning)

  /** appeared holds every name that has ever had a VM. */
  datatype Cloud = Cloud(requests: map<Request, Progress>, vms: set<Instance>, appeared: set<Id>)

  /** How long after its sender's deadline an insert may still be accepted. */
  const PROPAGATION: Time := 120
  const STALE_JIT: Time := 45 * MINUTE

  function RequestOf(g: Generation): Request {
    Request(g.vm, g.zone, g.model, g.machine)
  }

  function ProgressOf(c: Cloud, q: Request): Progress {
    if q in c.requests then c.requests[q] else Refused
  }

  ghost predicate VmExists(c: Cloud, name: Id) {
    exists i :: i in c.vms && i.name == name
  }

  function Without(vms: set<Instance>, name: Id): set<Instance> {
    set i | i in vms && i.name != name
  }

  /** Submitting a request: an accepted request id answers with its operation,
      anything else is in flight until the propagation margin is over. */
  function Submitted(c: Cloud, q: Request, deadline: Time): Cloud {
    var sent := Sent(deadline + PROPAGATION);
    var next :=
      if q !in c.requests || c.requests[q].Refused? then sent
      else if c.requests[q].Sent? then Sent(Later(c.requests[q].until, deadline + PROPAGATION))
      else c.requests[q];
    c.(requests := c.requests[q := next])
  }

  // ----- decisions taken from GitHub's answers

  datatype Registration = Idle | Busy | Unregistered | Offline

  /** offlineExpired. */
  predicate OfflineExpired(cfg: Config, g: Generation, now: Time) {
    var started := if g.createdAt != NEVER then g.createdAt
                   else if g.attemptedAt != NEVER then g.attemptedAt else g.jitIssuedAt;
    var timeout := if cfg.registerTimeout == 0 then 120 else cfg.registerTimeout;
    started == NEVER || started + timeout <= now
  }

  /** Whether stored evidence says that name is running a job not yet confirmed
      completed. */
  predicate Assigned(t: Tables, name: Id) {
    name in t.evidence && t.evidence[name].job.id != NONE && t.evidence[name].job.status != Completed
  }

  /** What capacityRegistration may answer: evidence overrides GitHub's registration. */
  predicate MayAnswer(t: Tables, name: Id, reg: Registration) {
    if Assigned(t, name) then reg == Busy
    else if name in t.evidence && t.evidence[name].job.id != NONE then reg == Unregistered
    else true
  }

  /** When the worker and the sweep delete a running VM. */
  predicate ShouldRemove(cfg: Config, r: Record, reg: Registration, now: Time) {
    || reg == Unregistered
    || (r.terminal && reg != Busy)
    || (reg == Offline && OfflineExpired(cfg, r.gen, now))
  }

  // ----- create workers

  datatype Rejection = Stockout | RateLimited | Invalid

  datatype Pc =
    | AtStatus
    | AtAdopt
    | AtReread
    | AtInspect
    | AtRegister
    | AtDelete(resume: bool)
    | AtRelease(resume: bool)
    | AtDetach(spare: bool)
    | AtKeep
    | AtResolve
    | AtRecheck(stockout: bool)
    | AtForget
    | AtDecide
    | AtDiscard(resume: bool)
    | AtAdmit
    | AtJit
    | AtPlan
    | AtAttempt(rest: seq<Attempt>)
    | AtSend(rest: seq<Attempt>)
    | AtAwait(rest: seq<Attempt>)
    | AtRecord(rest: seq<Attempt>, operation: Id)
    | AtWait(rest: seq<Attempt>)
    | AtClear(rest: seq<Attempt>, why: Rejection)
    | AtCreated
    | AtEnd(err: WorkError)
    | AtFinish(err: WorkError)

  /** The attempts still to try after the one being tried. */
  function Rest(pc: Pc): seq<Attempt> {
    if pc.AtAttempt? || pc.AtSend? || pc.AtAwait? || pc.AtRecord? || pc.AtWait? || pc.AtClear? then pc.rest else []
  }

  function OperationAt(pc: Pc): Id {
    if pc.AtRecord? then pc.operation else NONE
  }

  function ErrorAt(pc: Pc): WorkError {
    if pc.AtEnd? || pc.AtFinish? then pc.err else NoError
  }

  predicate Active(pc: Pc) {
    !pc.AtEnd? && !pc.AtFinish?
  }

  /** The points from reservation to the recorded creation. */
  predicate Creating(pc: Pc) {
    pc.AtJit? || pc.AtPlan? || pc.AtAttempt? || pc.AtSend? || pc.AtAwait? || pc.AtRecord? ||
    pc.AtWait? || pc.AtClear? || pc.AtCreated?
  }

  /** A create callback holding, or having held, the lease named by its key in
      System.workers; deadline is opContext's, until the end of its lease. */
  datatype Worker = Worker(
    key: Id, dispatch: Id, deadline: Time, until: Time, r: Record,
    status: Option<Status>, override: Option<Id>, failed: Option<Attempt>, pc: Pc)

  /** A create callback between activeTask and claim. */
  datatype Start = Start(key: Id, token: Id, at: Time)

  /** A task body: the job, and for a delete task the runner to delete. */
  datatype Payload = Payload(key: Id, deletes: Option<Id>)

  /** nonces: every random identifier drawn so far.  deleting: the jobs a delete
      task was ever dispatched for.  deletions: delete callbacks past activeTask.
      swept: detached rows read by a sweep.  doomed: names some actor has decided
      to delete.  gone: names some actor has seen deleted or absent.  Entries of
      these sets are never taken out, so every continuation may run at any later
      time, any number of times, or never. */
  datatype System = System(
    t: Tables, now: Time, cloud: Cloud, workers: map<Id, Worker>, starts: set<Start>,
    nonces: set<Id>, payloads: map<Id, Payload>, deleting: set<Id>, deletions: set<(Id, Id)>,
    swept: map<Id, Record>, doomed: set<Id>, gone: set<Id>)
  {
    /** The worker with this lease, if it is still there. */
    function At(id: Id): Worker {
      if id in workers then workers[id]
      else Worker(NONE, NONE, NEVER, NEVER, BlankRecord(), None, None, None, AtEnd(NoError))
    }

    function Task(token: Id): Payload {
      if token in payloads then payloads[token] else Payload(NONE, None)
    }
  }

  function Initial(now: Time): System {
    System(EmptyTables(), now, Cloud(map[], {}, {}), map[], {}, {}, map[], {}, {}, map[], {}, {})
  }

  /** A zone operation as resolveAttempt reads it. */
  datatype Operation = Missing | Pending | DoneClean | DoneError(capacity: bool)

  datatype Reply = Refuse(why: Rejection) | Duplicate | Took(operation: Id)

  datatype WaitResult = WaitOk | WaitFailed(why: Rejection) | WaitDuplicate

  datatype WorkAction =
    | CheckStatus(answer: Option<Status>)
    | TryAdopt(pool: Pool, names: seq<Id>)
    | RereadJob
    | Inspect(stopped: bool)
    | AskRegistration(reg: Registration)
    | DeleteOwn
    | ReleaseOwn
    | DetachOwn
    | KeepOwn
    | Resolve(op: Operation)
    | Recheck
    | Forget
    | Decide
    | Discard
    | Admit(name: Id)
    | IssueJit(jit: Id)
    | MakePlan(start: nat, benched: set<Id>)
    | SaveNext
    | Send
    | Receive(reply: Reply)
    | SaveOp
    | Wait(result: WaitResult)
    | Clear
    | Created
    | Abort(err: WorkError)
    | Drop
    | FinishTask
    | Crash

  datatype Action =
    | Work(id: Id, act: WorkAction)
    | Intake(key: Id, job: Job, source: Id, completed: bool, owned: bool)
    | Assign(key: Id, name: Id, job: Job)
    | Dispatch(key: Id, token: Id, delay: Time)
    | DispatchFailed(key: Id, token: Id)
    | StartTask(token: Id)
    | ClaimJob(start: Start, id: Id, override: Option<Id>)
    | Recreated(key: Id, name: Id)
    | DeleteVerdict(key: Id, name: Id)
    | DeleteRecorded(key: Id, name: Id)
    | DeleteAcked(key: Id, token: Id)
    | SweepPage(name: Id)
    | SweepVerdict(name: Id, stopped: bool, reg: Registration)
    | SweepAbsent(name: Id)
    | DeleteVm(name: Id)
    | OrphanVerdict(vm: Instance, stopped: bool)
    | ReleaseRow(name: Id)
    | DeferRow(name: Id, due: Time, available: bool)
    | Remember(name: Id, runnerId: Id)
    | CloudAccept(q: Request)
    | CloudSucceed(q: Request)
    | CloudFail(q: Request)
    | CloudLose(vm: Instance)
    | Tick(seconds: nat)

  const MACHINE_NOT_ALLOWED: Id := 1
  const REQUEST_REJECTED: Id := 2

  function ErrorOf(e: Failure): WorkError {
    if e.FleetFull? then FleetWasFull else if e.LeaseBusy? then Contended else Transient
  }

  function Put(s: System, id: Id, w: Worker): System {
    s.(workers := s.workers[id := w])
  }

  function Goto(s: System, id: Id, pc: Pc): System {
    Put(s, id, s.At(id).(pc := pc))
  }

  /** One transaction of a worker: an error ends processJob, a commit may refresh
      the snapshot and goes on at pc. */
  function Write(cfg: Config, s: System, id: Id, capacity: bool, c: Change, refresh: bool, pc: Pc): System {
    var w := s.At(id);
    match Update(s.t, cfg, s.now, w.key, capacity, c)
    case Aborted(_, e) => Goto(s, id, AtEnd(ErrorOf(e)))
    case Committed(t2) =>
      var r := if refresh then Load(t2, w.key) else w.r;
      Put(s.(t := t2), id, w.(r := r, pc := pc))
  }

  function InspectOrDecide(r: Record): Pc {
    if r.gen.vm != NONE then AtInspect else AtDecide
  }

  /** SaveStatus leaves the claim alone, so where to go on is known beforehand. */
  function StatusStep(cfg: Config, s: System, id: Id, answer: Option<Status>): System {
    var w := s.At(id);
    var seen := if w.r.terminal then Some(Completed) else answer;
    var r := Load(s.t, w.key);
    var pc := if seen == Some(Queued) && r.gen.vm == NONE then AtAdopt else InspectOrDecide(r);
    Write(cfg, Put(s, id, w.(status := seen)), id, false, SaveStatus(id, seen), true, pc)
  }

  function AdoptStep(s: System, id: Id, names: seq<Id>): System {
    var w := s.At(id);
    match Adopt(s.t, s.now, w.key, id, names)
    case Aborted(_, e) => Goto(s, id, AtEnd(ErrorOf(e)))
    case Committed(t2) =>
      var adopted := Load(t2, w.key).gen.vm != Load(s.t, w.key).gen.vm;
      Goto(s.(t := t2), id, if adopted then AtReread else AtDecide)
  }

  function RereadStep(cfg: Config, s: System, id: Id): System {
    Write(cfg, s, id, false, Reread(id), true, InspectOrDecide(Load(s.t, s.At(id).key)))
  }

  /** What the instance lookup leads to. */
  function AfterLookup(w: Worker, found: bool, stopped: bool): Pc {
    if found && !stopped then (if w.status.None? then AtEnd(Transient) else AtRegister)
    else if found then AtDelete(true)
    else if w.r.gen.createdAt != NEVER then AtRelease(true)
    else if w.r.gen.zone != NONE then AtResolve
    else AtDecide
  }

  function AfterRegistration(cfg: Config, w: Worker, reg: Registration, now: Time): Pc {
    if ShouldRemove(cfg, w.r, reg, now) then AtDelete(false)
    else if w.status != Some(Queued) || reg == Busy then AtDetach(reg == Idle && !w.r.terminal)
    else AtKeep
  }

  /** resolveAttempt's done: a finished operation, a recorded one that has expired
      from Compute, or an unrecorded one that is old enough. */
  predicate AttemptDone(cfg: Config, g: Generation, op: Operation, now: Time) {
    match op
    case Missing =>
      g.operation != NONE || (g.attemptedAt != NEVER && now > g.attemptedAt + cfg.taskTimeout + PROPAGATION)
    case Pending => false
    case DoneClean => true
    case DoneError(_) => true
  }

  /** What an operation lookup may answer: an accepted insert is listed until it
      is over, and a listed outcome is the real one. */
  predicate MayLookUp(c: Cloud, g: Generation, op: Operation) {
    var q := RequestOf(g);
    match op
    case Missing =>
      if g.operation != NONE then q in c.requests && (c.requests[q].Succeeded? || c.requests[q].Failed?)
      else q in c.requests ==> !c.requests[q].Running?
    case Pending => true
    case DoneClean => q in c.requests && c.requests[q].Succeeded?
    case DoneError(_) => q in c.requests && c.requests[q].Failed?
  }

  predicate Unsubmitted(g: Generation) {
    g.vm != NONE && g.zone == NONE
  }

  /** Where the status of a job that is not over leads. */
  function AfterDemand(w: Worker, now: Time): Pc {
    var g := w.r.gen;
    if w.status != Some(Queued) then (if Unsubmitted(g) then AtDiscard(false) else AtEnd(NoError))
    else if Unsubmitted(g) && g.jitIssuedAt != NEVER && now > g.jitIssuedAt + STALE_JIT then AtDiscard(true)
    else AtAdmit
  }

  function DecideStep(cfg: Config, s: System, id: Id): System {
    var w := s.At(id);
    if w.status.None? then Goto(s, id, AtEnd(Transient))
    else if w.r.terminal then Goto(s, id, if Unsubmitted(w.r.gen) then AtDiscard(false) else AtEnd(NoError))
    else if w.r.failure != NONE then Goto(s, id, AtEnd(Permanent(w.r.failure)))
    else Write(cfg, s, id, false, SaveDemand(id, w.status.value), false, AfterDemand(w, s.now))
  }

  function AdmitStep(cfg: Config, s: System, id: Id, name: Id): System {
    var w := s.At(id);
    if w.override.Some? && w.override.value !in cfg.machines then
      Goto(s, id, AtEnd(Permanent(MACHINE_NOT_ALLOWED)))
    else if w.r.gen.vm != NONE then Goto(s, id, AtJit)
    else
      var ended := Load(s.t, w.key).terminal;
      Write(cfg, s.(nonces := s.nonces + {name}), id, true, Reserve(id, name), !ended,
            if ended then AtEnd(NoError) else AtJit)
  }

  /** The attempts a worker will try, in order. */
  function AttemptsFor(cfg: Config, w: Worker, start: nat, benched: set<Id>): seq<Attempt> {
    var full := Plan(cfg, start, w.override, benched);
    if w.r.gen.zone != NONE then [AttemptOf(w.r.gen)] + AttemptsAfter(full, AttemptOf(w.r.gen))
    else if w.failed.Some? then AttemptsAfter(full, w.failed.value)
    else full
  }

  function SaveNextStep(cfg: Config, s: System, id: Id, rest: seq<Attempt>): System {
    var w := s.At(id);
    if rest == [] then Goto(s, id, AtEnd(Transient))
    else if rest[0].model == Standard && !cfg.allowStandard then Goto(s, id, AtAttempt(rest[1..]))
    else
      var capacity := (w.r.gen.model == Standard) != (rest[0].model == Standard);
      Write(cfg, s, id, capacity, SaveAttempt(id, rest[0]), true, AtSend(rest[1..]))
  }

  function ReceiveStep(s: System, id: Id, rest: seq<Attempt>, reply: Reply): System {
    var w := s.At(id);
    var q := RequestOf(w.r.gen);
    match reply
    case Refuse(why) =>
      var c := s.cloud.(requests := s.cloud.requests[q := Refused]);
      Goto(s.(cloud := c), id, if w.r.gen.operation != NONE then AtEnd(Transient) else AtClear(rest, why))
    case Duplicate => Goto(s, id, AtCreated)
    case Took(operation) =>
      var p := ProgressOf(s.cloud, q);
      var c := s.cloud.(requests := s.cloud.requests[q := if p.Sent? then Running else p]);
      Goto(s.(cloud := c), id, AtRecord(rest, operation))
  }

  /** A definite rejection is only given for a request that was never accepted,
      and a request without a name is never accepted. */
  predicate MayReply(c: Cloud, g: Generation, reply: Reply) {
    var q := RequestOf(g);
    match reply
    case Refuse(_) => q in c.requests && c.requests[q].Sent?
    case Duplicate => exists i :: i in c.vms && i.name == g.vm && i.zone == g.zone
    case Took(operation) => operation != NONE && g.vm != NONE && q in c.requests && !c.requests[q].Refused?
  }

  predicate MayEndWait(c: Cloud, g: Generation, result: WaitResult) {
    var q := RequestOf(g);
    match result
    case WaitOk => q in c.requests && c.requests[q].Succeeded?
    case WaitFailed(_) => q in c.requests && c.requests[q].Failed?
    case WaitDuplicate => exists i :: i in c.vms && i.name == g.vm && i.zone == g.zone
  }

  function AfterWait(rest: seq<Attempt>, result: WaitResult): Pc {
    match result
    case WaitFailed(why) => AtClear(rest, why)
    case _ => AtCreated
  }

  /** Only a lack of capacity lets the loop go on to the next attempt. */
  function AfterClear(pc: Pc): Pc {
    match pc
    case AtClear(rest, Stockout) => AtAttempt(rest)
    case AtClear(_, Invalid) => AtEnd(Permanent(REQUEST_REJECTED))
    case _ => AtEnd(Transient)
  }

  function FinishStep(cfg: Config, s: System, id: Id, err: WorkError): System {
    var w := s.At(id);
    var s2 := s.(workers := s.workers - {id});
    if err.Contended? then s2
    else match Update(s.t, cfg, s.now, w.key, err.Permanent?, Finish(w.dispatch, err))
      case Aborted(_, _) => s2
      case Committed(t2) => s2.(t := t2)
  }

  /** Where in processJob each action belongs. */
  predicate Fits(act: WorkAction, pc: Pc) {
    match act
    case CheckStatus(_) => pc.AtStatus?
    case TryAdopt(_, _) => pc.AtAdopt?
    case RereadJob => pc.AtReread?
    case Inspect(_) => pc.AtInspect?
    case AskRegistration(_) => pc.AtRegister?
    case DeleteOwn => pc.AtDelete?
    case ReleaseOwn => pc.AtRelease?
    case DetachOwn => pc.AtDetach?
    case KeepOwn => pc.AtKeep?
    case Resolve(_) => pc.AtResolve?
    case Recheck => pc.AtRecheck?
    case Forget => pc.AtForget?
    case Decide => pc.AtDecide?
    case Discard => pc.AtDiscard?
    case Admit(_) => pc.AtAdmit?
    case IssueJit(_) => pc.AtJit?
    case MakePlan(_, _) => pc.AtPlan?
    case SaveNext => pc.AtAttempt?
    case Send => pc.AtSend?
    case Receive(_) => pc.AtAwait?
    case SaveOp => pc.AtRecord?
    case Wait(_) => pc.AtWait?
    case Clear => pc.AtClear?
    case Created => pc.AtCreated?
    case Abort(_) => !pc.AtFinish?
    case Drop => pc.AtEnd?
    case FinishTask => pc.AtFinish?
    case Crash => true
  }

  /** A cloud call runs under the deadline of opContext. */
  predicate IsCloudCall(act: WorkAction) {
    act.Inspect? || act.DeleteOwn? || act.Resolve? || act.Recheck? || act.Send? || act.Receive? || act.Wait?
  }

  /** What the stores, clouds and random sources may answer. */
  ghost predicate Answerable(s: System, w: Worker, act: WorkAction) {
    match act
    case TryAdopt(pool, names) => IsCandidateList(s.t, pool, names)
    case AskRegistration(reg) => MayAnswer(s.t, w.r.gen.vm, reg)
    case Resolve(op) => MayLookUp(s.cloud, w.r.gen, op)
    case Admit(name) => name != NONE && name !in s.nonces
    case IssueJit(jit) => jit != NONE
    case Receive(reply) => MayReply(s.cloud, w.r.gen, reply)
    case Wait(result) => MayEndWait(s.cloud, w.r.gen, result)
    case Abort(err) => err.Transient? || err.RetryAt? || (err.Permanent? && err.message != NONE)
    case _ => true
  }

  ghost predicate WorkEnabled(s: System, id: Id, act: WorkAction) {
    && id in s.workers
    && Fits(act, s.At(id).pc)
    && (IsCloudCall(act) ==> s.now < s.At(id).deadline)
    && Answerable(s, s.At(id), act)
  }

  function DetachStep(s: System, id: Id, spare: bool): System {
    var w := s.At(id);
    match Detach(s.t, s.now, w.key, id, spare, s.now + 2 * MINUTE)
    case Aborted(_, e) => Goto(s, id, AtEnd(ErrorOf(e)))
    case Committed(t2) => Goto(s.(t := t2), id, AtEnd(NoError))
  }

  function DeleteStep(s: System, id: Id, resume: bool): System {
    Goto(s.(cloud := s.cloud.(vms := Without(s.cloud.vms, s.At(id).r.gen.vm))), id, AtRelease(resume))
  }

  function ResolveStep(cfg: Config, s: System, id: Id, op: Operation): System {
    var done := AttemptDone(cfg, s.At(id).r.gen, op, s.now);
    Goto(s, id, if done then AtRecheck(op.DoneError? && op.capacity) else AtDecide)
  }

  ghost function RecheckStep(s: System, id: Id, stockout: bool): System {
    Goto(s, id, if VmExists(s.cloud, s.At(id).r.gen.vm) then AtEnd(NoError)
                else if stockout then AtForget else AtRelease(true))
  }

  function ForgetStep(cfg: Config, s: System, id: Id): System {
    var w := s.At(id);
    Write(cfg, Put(s, id, w.(failed := Some(AttemptOf(w.r.gen)))), id, w.r.gen.model == Standard,
          ForgetAttempt(id), true, AtDecide)
  }

  function IssueJitStep(cfg: Config, s: System, id: Id, jit: Id): System {
    if s.At(id).r.gen.jit != NONE then Goto(s, id, AtPlan)
    else Write(cfg, s, id, false, SaveJit(id, jit), true, AtPlan)
  }

  function SendStep(s: System, id: Id, rest: seq<Attempt>): System {
    var w := s.At(id);
    Goto(s.(cloud := Submitted(s.cloud, RequestOf(w.r.gen), w.deadline)), id, AtAwait(rest))
  }

  function DropStep(cfg: Config, s: System, id: Id, err: WorkError): System {
    match Update(s.t, cfg, s.now, s.At(id).key, false, DropLease(id))
    case Aborted(_, _) => Goto(s, id, AtFinish(err))
    case Committed(t2) => Goto(s.(t := t2), id, AtFinish(err))
  }

  ghost function WorkStep(cfg: Config, s: System, id: Id, act: WorkAction): System {
    var w := s.At(id);
    match act
    case CheckStatus(answer) => StatusStep(cfg, s, id, answer)
    case TryAdopt(_, names) => AdoptStep(s, id, names)
    case RereadJob => RereadStep(cfg, s, id)
    case Inspect(stopped) => Goto(s, id, AfterLookup(w, VmExists(s.cloud, w.r.gen.vm), stopped))
    case AskRegistration(reg) => Goto(s, id, AfterRegistration(cfg, w, reg, s.now))
    case DeleteOwn => DeleteStep(s, id, w.pc == AtDelete(true))
    case ReleaseOwn =>
      Write(cfg, s, id, true, ReleaseClaim(id), true, if w.pc == AtRelease(true) then AtDecide else AtEnd(NoError))
    case DetachOwn => DetachStep(s, id, w.pc == AtDetach(true))
    case KeepOwn => Write(cfg, s, id, false, KeepRunning(id), false, AtEnd(NoError))
    case Resolve(op) => ResolveStep(cfg, s, id, op)
    case Recheck => RecheckStep(s, id, w.pc == AtRecheck(true))
    case Forget => ForgetStep(cfg, s, id)
    case Decide => DecideStep(cfg, s, id)
    case Discard =>
      Write(cfg, s, id, true, ReleaseClaim(id), true, if w.pc == AtDiscard(true) then AtAdmit else AtEnd(NoError))
    case Admit(name) => AdmitStep(cfg, s, id, name)
    case IssueJit(jit) => IssueJitStep(cfg, s, id, jit)
    case MakePlan(start, benched) => Goto(s, id, AtAttempt(AttemptsFor(cfg, w, start, benched)))
    case SaveNext => SaveNextStep(cfg, s, id, Rest(w.pc))
    case Send => SendStep(s, id, Rest(w.pc))
    case Receive(reply) => ReceiveStep(s, id, Rest(w.pc), reply)
    case SaveOp => Write(cfg, s, id, false, SaveOperation(id, OperationAt(w.pc)), true, AtWait(Rest(w.pc)))
    case Wait(result) => Goto(s, id, AfterWait(Rest(w.pc), result))
    case Clear =>
      Write(cfg, s, id, w.r.gen.model == Standard, ForgetAttempt(id), true, AfterClear(w.pc))
    case Created => Write(cfg, s, id, false, MarkCreated(id), false, AtEnd(NoError))
    case Abort(err) => Goto(s, id, if w.pc.AtEnd? then AtFinish(ErrorAt(w.pc)) else AtEnd(err))
    case Drop => DropStep(cfg, s, id, ErrorAt(w.pc))
    case FinishTask => FinishStep(cfg, s, id, ErrorAt(w.pc))
    case Crash => s.(workers := s.workers - {id})
  }

  /** A transaction outside a worker; an aborted one changes nothing. */
  function Commit(cfg: Config, s: System, key: Id, capacity: bool, c: Change): System {
    match Update(s.t, cfg, s.now, key, capacity, c)
    case Aborted(_, _) => s
    case Committed(t2) => s.(t := t2)
  }

  function CommitTx(s: System, tx: Tx): System {
    if tx.Committed? then s.(t := tx.t) else s
  }

  function DispatchStep(cfg: Config, s: System, key: Id, token: Id, delay: Time): System {
    var r := Load(s.t, key);
    var s2 := Commit(cfg, s, key, false, Enqueue(token, delay)).(nonces := s.nonces + {token});
    if MaySend(r, s.now, delay) then
      var deletes := if r.pendingDelete != NONE then Some(r.pendingDelete) else None;
      s2.(payloads := s2.payloads[token := Payload(key, deletes)],
          deleting := if deletes.Some? then s2.deleting + {key} else s2.deleting)
    else s2
  }

  function StartTaskStep(cfg: Config, s: System, token: Id): System {
    var p := s.Task(token);
    match Update(s.t, cfg, s.now, p.key, false, CheckActive(token))
    case Aborted(_, _) => s
    case Committed(t2) =>
      var s2 := s.(t := t2);
      if p.deletes.Some? then s2.(deletions := s2.deletions + {(p.key, p.deletes.value)})
      else s2.(starts := s2.starts + {Start(p.key, token, s.now)})
  }

  function ClaimStep(cfg: Config, s: System, start: Start, id: Id, override: Option<Id>): System {
    var s2 := s.(starts := s.starts - {start}, nonces := s.nonces + {id});
    match Update(s.t, cfg, s.now, start.key, false, Claim(id))
    case Aborted(_, _) => s2
    case Committed(t2) =>
      var w := Worker(start.key, start.token, start.at + cfg.taskTimeout, LeaseEnd(cfg, s.now),
                      Load(t2, start.key), None, override, None, AtStatus);
      Put(s2.(t := t2), id, w)
  }

  ghost predicate Enabled(cfg: Config, s: System, a: Action) {
    match a
    case Work(id, act) => WorkEnabled(s, id, act)
    case Intake(key, job, _, completed, owned) =>
      key != NONE && job.id != NONE && (completed && owned ==> job.runner in s.cloud.appeared)
    case Assign(_, name, _) => name != NONE
    case Dispatch(key, token, _) => key != NONE && token != NONE && token !in s.nonces
    case DispatchFailed(key, token) => key != NONE && token != NONE
    case StartTask(token) => token in s.payloads
    case ClaimJob(start, id, _) => start in s.starts && id != NONE && id !in s.nonces
    case Recreated(key, _) => key != NONE
    case DeleteVerdict(key, name) => (key, name) in s.deletions && !Assigned(s.t, name)
    case DeleteRecorded(key, name) => (key, name) in s.deletions && name in s.gone
    case DeleteAcked(key, token) => key != NONE && token != NONE
    case SweepPage(name) => name in s.t.runners && s.t.runners[name].owner == NONE
    case SweepVerdict(name, stopped, reg) =>
      && name in s.swept && VmExists(s.cloud, name)
      && (stopped || (MayAnswer(s.t, name, reg) && ShouldRemove(cfg, s.swept[name], reg, s.now)))
    case SweepAbsent(name) => name in s.swept && !VmExists(s.cloud, name)
    case DeleteVm(name) => name in s.doomed
    case OrphanVerdict(vm, stopped) => vm in s.cloud.vms && stopped
    case ReleaseRow(name) => name in s.gone
    case DeferRow(_, _, _) => true
    case Remember(_, _) => true
    case CloudAccept(q) =>
      q.name != NONE && q in s.cloud.requests && s.cloud.requests[q].Sent? && s.now <= s.cloud.requests[q].until
    case CloudSucceed(q) => q in s.cloud.requests && s.cloud.requests[q].Running?
    case CloudFail(q) => q in s.cloud.requests && s.cloud.requests[q].Running?
    case CloudLose(vm) => vm in s.cloud.vms
    case Tick(_) => true
  }

  ghost function Step(cfg: Config, s: System, a: Action): System {
    match a
    case Work(id, act) => WorkStep(cfg, s, id, act)
    case Intake(key, job, source, completed, owned) =>
      Commit(cfg, s, key, false, Observe(job, source, completed, owned))
    case Assign(key, name, job) => CommitTx(s, RecordAssignment(s.t, s.now, key, name, job))
    case Dispatch(key, token, delay) => DispatchStep(cfg, s, key, token, delay)
    case DispatchFailed(key, token) => Commit(cfg, s, key, false, EnqueueFailed(token))
    case StartTask(token) => StartTaskStep(cfg, s, token)
    case ClaimJob(start, id, override) => ClaimStep(cfg, s, start, id, override)
    case Recreated(key, name) => Commit(cfg, s, key, false, Recreate(name))
    case DeleteVerdict(_, name) => s.(doomed := s.doomed + {name})
    case DeleteRecorded(key, name) => Commit(cfg, s, key, true, DeleteDone(name))
    case DeleteAcked(key, token) => Commit(cfg, s, key, false, Finish(token, NoError))
    case SweepPage(name) => s.(swept := s.swept[name := RowOf(s.t, name).rec])
    case SweepVerdict(name, _, _) => s.(doomed := s.doomed + {name})
    case SweepAbsent(name) => s.(gone := s.gone + {name})
    case DeleteVm(name) => s.(cloud := s.cloud.(vms := Without(s.cloud.vms, name)), gone := s.gone + {name})
    case OrphanVerdict(vm, _) => s.(doomed := s.doomed + {vm.name})
    case ReleaseRow(name) => s.(t := ReleaseRunner(s.t, name))
    case DeferRow(name, due, available) => s.(t := DeferRunner(s.t, name, due, available))
    case Remember(name, runnerId) => CommitTx(s, RememberRunnerId(s.t, name, runnerId))
    case CloudAccept(q) => s.(cloud := s.cloud.(requests := s.cloud.requests[q := Running]))
    case CloudSucceed(q) =>
      s.(cloud := Cloud(s.cloud.requests[q := Succeeded],
                        s.cloud.vms + {Instance(q.name, q.zone, q.model)}, s.cloud.appeared + {q.name}))
    case CloudFail(q) => s.(cloud := s.cloud.(requests := s.cloud.requests[q := Failed]))
    case CloudLose(vm) => s.(cloud := s.cloud.(vms := s.cloud.vms - {vm}))
    case Tick(d) => s.(now := s.now + d)
  }
}
