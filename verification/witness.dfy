/** Two concrete runs of the source's own steps that break the protocol's promises.
    Each runs into a state from which the lemmas in Guards lead on. */
module Witness {
  import opened Types
  import opened Records
  import opened Transactions
  import opened CreationPlans
  import opened Ledger
  import opened Protocol
  import opened Invariant
  import opened Transitions
  import opened Standing
  import opened Deadlines
  import opened Safety
  import opened Coverage
  import opened Guards

  // ----- one fleet, one job

  const FLEET_OF_TWO: Config := Config(2, 2, true, 100, 3, 100, 300, 0, {1}, {}, [1], 1, NONE, [])
  const KEY: Id := 7
  const NAME: Id := 13
  const JIT: Id := 15
  const FIRST: Id := 11
  const TOKEN: Id := 101
  const ATTEMPT: Attempt := Attempt(1, 1, Standard, NONE)
  const INSERT: Request := Request(NAME, 1, Standard, NONE)

  const NOBODY: Lease := Lease(NONE, NEVER)
  const IDLE: Dispatch := Dispatch.Dispatch(NONE, NEVER)

  function JobOf(status: Status): Job {
    Job(1, status, NONE, NONE, NONE)
  }

  function Rec(g: Generation, lease: Lease, d: Dispatch, status: Status, due: Time): Record {
    Record(g, NONE, lease, d, JobOf(status), 1, false, NONE, NONE, 1, due, true, NEVER)
  }

  function Reserved(): Generation { NoGeneration(NONE).(vm := NAME) }
  function Credentialed(): Generation { Reserved().(jit := JIT, jitIssuedAt := 1) }
  function Attempted(): Generation {
    Credentialed().(zone := 1, model := Standard, template := 1, attemptedAt := 1)
  }

  /** The store when the one job's record is r. */
  function Store(r: Record, fleet: Fleet): Tables {
    Tables(map[KEY := r], if r.gen.vm != NONE then map[r.gen.vm := OwnerRow(KEY, r)] else map[], fleet, map[])
  }

  const EMPTY: Fleet := Fleet(0, 0, 0)
  const NO_CLOUD: Cloud := Cloud(map[], {}, {})

  /** What differs between the runs before the first worker claims the job. */
  datatype Setting = Setting(
    d: Dispatch, status: Status, starts: set<Start>, nonces: set<Id>, payloads: map<Id, Payload>)

  /** One callback at work on the job, and who else is around. */
  datatype Place = Place(x: Setting, now: Time, cloud: Cloud, others: map<Id, Worker>, id: Id, names: set<Id>)

  function Busy(p: Place, r: Record, f: Fleet, w: Worker): System {
    System(Store(r, f), p.now, p.cloud, p.others[p.id := w], p.x.starts, p.names, p.x.payloads, {}, {}, map[], {}, {})
  }

  ghost predicate Leads(s: System, a: Action, s2: System) {
    Enabled(FLEET_OF_TWO, s, a) && Timely(FLEET_OF_TWO, s, a) && Step(FLEET_OF_TWO, s, a) == s2
  }

  lemma PlanHere()
    ensures Plan(FLEET_OF_TWO, 0, None, {}) == [ATTEMPT]
  {
    var order := Rotation([1], 0);
    assert order == [1];
    assert Filter(order, {}, true) == [];
    assert BenchedLast(order, {}) == [1];
  }

  /** A callback's transaction on the one-job store. */
  lemma Transacts(r: Record, f: Fleet, now: Time, capacity: bool, c: Change, r2: Record, f2: Fleet)
    requires var o := Apply(c, FLEET_OF_TWO, now, r, if capacity then f else EMPTY);
             && o.Accept? && Prepare(o.r, now) == r2
             && (if capacity then f2 == Bumped(f, o.f) else o.f == EMPTY && f2 == f)
    requires r.gen.vm != NONE && r2.gen.vm != r.gen.vm ==> capacity && r2.gen.vm == NONE
    ensures Update(Store(r, f), FLEET_OF_TWO, now, KEY, capacity, c) == Committed(Store(r2, f2))
  {
    hide Apply, Prepare;
  }

  /** The callback moves on. */
  lemma Turns(p: Place, r: Record, f: Fleet, w: Worker, pc: Pc)
    ensures Goto(Busy(p, r, f, w), p.id, pc) == Busy(p, r, f, w.(pc := pc))
  {
    hide Store;
    assert p.others[p.id := w][p.id := w.(pc := pc)] == p.others[p.id := w.(pc := pc)];
  }

  /** It moves on after a transaction. */
  lemma Commits(p: Place, r: Record, f: Fleet, w: Worker, capacity: bool, c: Change, refresh: bool, pc: Pc, r2: Record,
      f2: Fleet)
    requires w.key == KEY
    requires Update(Store(r, f), FLEET_OF_TWO, p.now, KEY, capacity, c) == Committed(Store(r2, f2))
    ensures Write(FLEET_OF_TWO, Busy(p, r, f, w), p.id, capacity, c, refresh, pc)
         == Busy(p, r2, f2, w.(r := if refresh then r2 else w.r, pc := pc))
  {
    hide Update;
    var w2 := w.(r := if refresh then r2 else w.r, pc := pc);
    assert p.others[p.id := w][p.id := w2] == p.others[p.id := w2];
  }

  lemma WorkLeads(s: System, id: Id, act: WorkAction, s2: System)
    requires WorkEnabled(s, id, act) && WorkStep(FLEET_OF_TWO, s, id, act) == s2
    requires act.Send? ==> InTime(FLEET_OF_TWO, s.At(id))
    ensures Leads(s, Work(id, act), s2)
  {
    hide WorkEnabled, WorkStep, InTime;
  }

  lemma Puts(p: Place, r: Record, f: Fleet, w: Worker, w2: Worker)
    ensures Put(Busy(p, r, f, w), p.id, w2) == Busy(p, r, f, w2)
  {
    hide Store;
    assert p.others[p.id := w][p.id := w2] == p.others[p.id := w2];
  }

  // ----- the first callback's pass, from its claim to the saved attempt

  function First(x: Setting, names: set<Id>): Place {
    Place(x, 1, NO_CLOUD, map[], FIRST, names)
  }

  function FirstWorker(x: Setting, r: Record, status: Option<Status>, pc: Pc): Worker {
    Worker(KEY, x.d.token, 101, 161, r, status, None, None, pc)
  }

  function Taken(x: Setting): Record {
    Rec(NoGeneration(NONE), Lease(FIRST, 161), x.d, x.status, 576)
  }

  function Decided(x: Setting, g: Generation): Record {
    Rec(g, Lease(FIRST, 161), x.d, Queued, 601)
  }

  function Pass(x: Setting, k: int): System {
    var p, p2 := First(x, x.nonces + {FIRST}), First(x, x.nonces + {FIRST} + {NAME});
    var taken := Taken(x);
    var queued := taken.(job := JobOf(Queued));
    var decided, reserved, issued := Decided(x, NoGeneration(NONE)), Decided(x, Reserved()), Decided(x, Credentialed());
    var saved := Decided(x, Attempted());
    var one, two := Fleet(1, 0, 1), Fleet(1, 1, 2);
    var q := Some(Queued);
    match k
    case 0 => Busy(p, taken, EMPTY, FirstWorker(x, taken, None, AtStatus))
    case 1 => Busy(p, queued, EMPTY, FirstWorker(x, queued, q, AtAdopt))
    case 2 => Busy(p, queued, EMPTY, FirstWorker(x, queued, q, AtDecide))
    case 3 => Busy(p, decided, EMPTY, FirstWorker(x, queued, q, AtAdmit))
    case 4 => Busy(p2, reserved, one, FirstWorker(x, reserved, q, AtJit))
    case 5 => Busy(p2, issued, one, FirstWorker(x, issued, q, AtPlan))
    case 6 => Busy(p2, issued, one, FirstWorker(x, issued, q, AtAttempt([ATTEMPT])))
    case 7 => Busy(p2, saved, two, FirstWorker(x, saved, q, AtSend([])))
    case _ => Busy(p2.(cloud := Cloud(map[INSERT := Sent(221)], {}, {})), saved, two,
                   FirstWorker(x, saved, q, AtAwait([])))
  }

  function PassAct(k: int): Action {
    Work(FIRST, match k
      case 0 => CheckStatus(Some(Queued))
      case 1 => TryAdopt(Pool(1, NONE, NONE), [])
      case 2 => Decide
      case 3 => Admit(NAME)
      case 4 => IssueJit(JIT)
      case 5 => MakePlan(0, {})
      case 6 => SaveNext
      case _ => Send)
  }

  ghost predicate Starts(x: Setting) {
    && x.d.token != NONE && x.d.until == 576
    && (x.status == Queued || x.status == OtherStatus) && x.nonces !! {FIRST, NAME}
  }

  lemma PassesDemand(x: Setting)
    requires Starts(x)
    ensures Leads(Pass(x, 0), PassAct(0), Pass(x, 1)) && Leads(Pass(x, 1), PassAct(1), Pass(x, 2))
    ensures Leads(Pass(x, 2), PassAct(2), Pass(x, 3))
  {
    hide Leads, Update, Write, Goto, Put, InspectOrDecide;
    var p, r := First(x, x.nonces + {FIRST}), Taken(x);
    var r2, w := r.(job := JobOf(Queued)), FirstWorker(x, r, None, AtStatus);
    var w2 := FirstWorker(x, r2, Some(Queued), AtAdopt);
    var seen, asked := SaveStatus(FIRST, Some(Queued)), SaveDemand(FIRST, Queued);
    Transacts(r, EMPTY, 1, false, seen, r2, EMPTY);
    Puts(p, r, EMPTY, w, w.(status := Some(Queued)));
    Commits(p, r, EMPTY, w.(status := Some(Queued)), false, seen, true, AtAdopt, r2, EMPTY);
    Turns(p, r2, EMPTY, w2, AtDecide);
    Transacts(r2, EMPTY, 1, false, asked, Decided(x, NoGeneration(NONE)), EMPTY);
    Commits(p, r2, EMPTY, w2.(pc := AtDecide), false, asked, false, AtAdmit, Decided(x, NoGeneration(NONE)), EMPTY);
    WorkLeads(Pass(x, 0), FIRST, PassAct(0).act, Pass(x, 1));
    WorkLeads(Pass(x, 1), FIRST, PassAct(1).act, Pass(x, 2));
    WorkLeads(Pass(x, 2), FIRST, PassAct(2).act, Pass(x, 3));
  }

  lemma PassesReservation(x: Setting)
    requires Starts(x)
    ensures Leads(Pass(x, 3), PassAct(3), Pass(x, 4)) && Leads(Pass(x, 4), PassAct(4), Pass(x, 5))
    ensures Leads(Pass(x, 5), PassAct(5), Pass(x, 6))
  {
    hide Leads, Update, Write, Plan, Goto, Put;
    var p, one := First(x, x.nonces + {FIRST} + {NAME}), Fleet(1, 0, 1);
    var decided, reserved, issued := Decided(x, NoGeneration(NONE)), Decided(x, Reserved()), Decided(x, Credentialed());
    Transacts(decided, EMPTY, 1, true, Reserve(FIRST, NAME), reserved, one);
    Commits(p, decided, EMPTY, FirstWorker(x, Taken(x).(job := JobOf(Queued)), Some(Queued), AtAdmit), true,
            Reserve(FIRST, NAME), true, AtJit, reserved, one);
    Transacts(reserved, one, 1, false, SaveJit(FIRST, JIT), issued, one);
    Commits(p, reserved, one, FirstWorker(x, reserved, Some(Queued), AtJit), false, SaveJit(FIRST, JIT), true, AtPlan,
            issued, one);
    PlanHere();
    Turns(p, issued, one, FirstWorker(x, issued, Some(Queued), AtPlan), AtAttempt([ATTEMPT]));
    WorkLeads(Pass(x, 3), FIRST, PassAct(3).act, Pass(x, 4));
    WorkLeads(Pass(x, 4), FIRST, PassAct(4).act, Pass(x, 5));
    WorkLeads(Pass(x, 5), FIRST, PassAct(5).act, Pass(x, 6));
  }

  lemma SavesAttempt(x: Setting)
    requires Starts(x)
    ensures var s := Pass(x, 6);
            Update(s.t, FLEET_OF_TWO, s.now, KEY, true, SaveAttempt(FIRST, ATTEMPT)) == Committed(Pass(x, 7).t)
  {
    Transacts(Decided(x, Credentialed()), Fleet(1, 0, 1), 1, true, SaveAttempt(FIRST, ATTEMPT), Decided(x, Attempted()),
              Fleet(1, 1, 2));
  }

  lemma PassesAttempt(x: Setting)
    requires Starts(x)
    ensures Leads(Pass(x, 6), PassAct(6), Pass(x, 7)) && Leads(Pass(x, 7), PassAct(7), Pass(x, 8))
  {
    hide Leads, Update, Write, Goto, Put;
    var p, one, two := First(x, x.nonces + {FIRST} + {NAME}), Fleet(1, 0, 1), Fleet(1, 1, 2);
    var issued, saved := Decided(x, Credentialed()), Decided(x, Attempted());
    var w, c := FirstWorker(x, issued, Some(Queued), AtAttempt([ATTEMPT])), SaveAttempt(FIRST, ATTEMPT);
    assert [ATTEMPT][1..] == [];
    SavesAttempt(x);
    Commits(p, issued, one, w, true, c, true, AtSend([]), saved, two);
    WorkLeads(Pass(x, 6), FIRST, PassAct(6).act, Pass(x, 7));
    Turns(p.(cloud := Pass(x, 8).cloud), saved, two, w.(r := saved, pc := AtSend([])), AtAwait([]));
    WorkLeads(Pass(x, 7), FIRST, PassAct(7).act, Pass(x, 8));
  }

  // ----- the second callback's pass, from its claim to its plan

  const SECOND: Id := 12
  const SPARE_NAME: Id := 14

  /** It took up a claim that has nothing in the cloud to show. */
  ghost predicate TakesUp(p: Place, r: Record) {
    && r.lease == Lease(p.id, p.now + 160) && !r.terminal && r.job.status == Queued && r.failure == NONE
    && r.gen.vm != NONE && r.gen.jit != NONE && r.gen.createdAt == NEVER && p.id != NONE && p.id !in p.others
    && p.cloud.vms == {} && SPARE_NAME !in p.names
    && Prepare(r, p.now) == r && Prepare(Postponed(p, r), p.now) == Postponed(p, r)
    && (if r.gen.zone == NONE then r.gen.jitIssuedAt == p.now
        else && AttemptOf(r.gen) == ATTEMPT && p.cloud.requests == map[]
             && !AttemptDone(FLEET_OF_TWO, r.gen, Missing, p.now))
  }

  function Postponed(p: Place, r: Record): Record {
    r.(nextActionAt := p.now + 600)
  }

  function SecondWorker(p: Place, r: Record, pc: Pc): Worker {
    Worker(KEY, TOKEN, p.now + 100, p.now + 160, r, if pc.AtStatus? then None else Some(Queued), None, None, pc)
  }

  function Second(p: Place, r: Record, f: Fleet, k: int): System {
    match k
    case 0 => Busy(p, r, f, SecondWorker(p, r, AtStatus))
    case 1 => Busy(p, r, f, SecondWorker(p, r, AtInspect))
    case 2 => Busy(p, r, f, SecondWorker(p, r, if r.gen.zone != NONE then AtResolve else AtDecide))
    case 3 => Busy(p, Postponed(p, r), f, SecondWorker(p, r, AtAdmit))
    case 4 => Busy(p, Postponed(p, r), f, SecondWorker(p, r, AtJit))
    case 5 => Busy(p, Postponed(p, r), f, SecondWorker(p, r, AtPlan))
    case _ => Busy(p, Postponed(p, r), f, SecondWorker(p, r, AtAttempt([ATTEMPT])))
  }

  function SecondAct(k: int): WorkAction {
    match k
    case 0 => CheckStatus(Some(Queued))
    case 1 => Inspect(false)
    case 2 => Decide
    case 3 => Admit(SPARE_NAME)
    case 4 => IssueJit(JIT)
    case _ => MakePlan(0, {})
  }

  /** Where it goes when the claim has an attempt whose operation cannot be found. */
  function Unresolved(p: Place, r: Record, f: Fleet): System {
    Busy(p, r, f, SecondWorker(p, r, AtDecide))
  }

  lemma SecondLooks(p: Place, r: Record, f: Fleet)
    requires TakesUp(p, r)
    ensures Leads(Second(p, r, f, 0), Work(p.id, SecondAct(0)), Second(p, r, f, 1))
    ensures Leads(Second(p, r, f, 1), Work(p.id, SecondAct(1)), Second(p, r, f, 2))
  {
    hide Leads, Update, Write, Goto, Put, Prepare, AttemptDone, AttemptOf;
    var w, seen := SecondWorker(p, r, AtStatus), SaveStatus(p.id, Some(Queued));
    Transacts(r, f, p.now, false, seen, r, f);
    Puts(p, r, f, w, w.(status := Some(Queued)));
    Commits(p, r, f, w.(status := Some(Queued)), false, seen, true, AtInspect, r, f);
    WorkLeads(Second(p, r, f, 0), p.id, SecondAct(0), Second(p, r, f, 1));
    hide Store, Apply, Postponed;
    Turns(p, r, f, SecondWorker(p, r, AtInspect), Second(p, r, f, 2).At(p.id).pc);
    WorkLeads(Second(p, r, f, 1), p.id, SecondAct(1), Second(p, r, f, 2));
  }

  lemma SecondResolves(p: Place, r: Record, f: Fleet)
    requires TakesUp(p, r) && r.gen.zone != NONE
    ensures Leads(Second(p, r, f, 2), Work(p.id, Resolve(Missing)), Unresolved(p, r, f))
  {
    hide Leads, Goto, Prepare, AttemptOf, Store, Postponed;
    Turns(p, r, f, SecondWorker(p, r, AtResolve), AtDecide);
    WorkLeads(Second(p, r, f, 2), p.id, Resolve(Missing), Unresolved(p, r, f));
  }

  lemma SecondDecides(p: Place, r: Record, f: Fleet)
    requires TakesUp(p, r)
    ensures Leads(Unresolved(p, r, f), Work(p.id, SecondAct(2)), Second(p, r, f, 3))
  {
    hide Leads, Update, Write, Goto, Put, Prepare, AttemptOf, AttemptDone;
    var w, asked, r2 := SecondWorker(p, r, AtDecide), SaveDemand(p.id, Queued), Postponed(p, r);
    Transacts(r, f, p.now, false, asked, r2, f);
    Commits(p, r, f, w, false, asked, false, AtAdmit, r2, f);
    WorkLeads(Unresolved(p, r, f), p.id, SecondAct(2), Second(p, r, f, 3));
  }

  lemma SecondIsAdmitted(p: Place, r: Record, f: Fleet)
    requires TakesUp(p, r)
    ensures Leads(Second(p, r, f, 3), Work(p.id, SecondAct(3)), Second(p, r, f, 4))
    ensures Leads(Second(p, r, f, 4), Work(p.id, SecondAct(4)), Second(p, r, f, 5))
  {
    hide Leads, Update, Write, Goto, Put, Prepare, Store, Postponed, AttemptDone, AttemptOf;
    var r2 := Postponed(p, r);
    Turns(p, r2, f, SecondWorker(p, r, AtAdmit), AtJit);
    WorkLeads(Second(p, r, f, 3), p.id, SecondAct(3), Second(p, r, f, 4));
    Turns(p, r2, f, SecondWorker(p, r, AtJit), AtPlan);
    WorkLeads(Second(p, r, f, 4), p.id, SecondAct(4), Second(p, r, f, 5));
  }

  lemma SecondPlans(p: Place, r: Record, f: Fleet)
    requires TakesUp(p, r)
    ensures Leads(Second(p, r, f, 5), Work(p.id, SecondAct(5)), Second(p, r, f, 6))
  {
    hide Leads, Goto, Prepare, Plan, Store, Postponed, AttemptDone;
    PlanHere();
    assert AttemptsAfter([ATTEMPT], ATTEMPT) == [] && [ATTEMPT] + [] == [ATTEMPT];
    Turns(p, Postponed(p, r), f, SecondWorker(p, r, AtPlan), AtAttempt([ATTEMPT]));
    WorkLeads(Second(p, r, f, 5), p.id, SecondAct(5), Second(p, r, f, 6));
  }

  // ----- runs, step by step

  ghost predicate Reaches(run: seq<System>, acts: seq<Action>, s: System) {
    IsRun(FLEET_OF_TWO, run, acts) && AllTimely(FLEET_OF_TWO, run, acts) && Last(run) == s
  }

  lemma Proceed(run: seq<System>, acts: seq<Action>, s: System, a: Action, s2: System)
      returns (run2: seq<System>, acts2: seq<Action>)
    requires Reaches(run, acts, s) && Leads(s, a, s2)
    ensures Reaches(run2, acts2, s2)
  {
    hide Enabled, Step, Timely;
    run2, acts2 := Extend(FLEET_OF_TWO, run, acts, a);
    forall i | 0 <= i < |acts2| ensures Timely(FLEET_OF_TWO, StateAt(run2, i), ActionAt(acts2, i)) {
      if i < |acts| { assert Timely(FLEET_OF_TWO, StateAt(run, i), ActionAt(acts, i)); }
    }
  }

  /** A run and what follows from its end are one run. */
  lemma Join(run: seq<System>, acts: seq<Action>, tail: seq<System>, tailActs: seq<Action>)
      returns (run2: seq<System>, acts2: seq<Action>)
    requires IsRun(FLEET_OF_TWO, run, acts) && Follows(FLEET_OF_TWO, tail, tailActs) && StateAt(tail, 0) == Last(run)
    ensures IsRun(FLEET_OF_TWO, run2, acts2) && Last(run2) == Last(tail)
  {
    hide Enabled, Step;
    run2, acts2 := run + tail[1..], acts + tailActs;
    forall i | 0 <= i < |acts2|
      ensures Enabled(FLEET_OF_TWO, StateAt(run2, i), ActionAt(acts2, i))
      ensures StateAt(run2, i + 1) == Step(FLEET_OF_TWO, StateAt(run2, i), ActionAt(acts2, i))
    {
      if i >= |acts| {
        assert StateAt(run2, i) == StateAt(tail, i - |acts|) && StateAt(run2, i + 1) == StateAt(tail, i + 1 - |acts|);
        assert ActionAt(acts2, i) == ActionAt(tailActs, i - |acts|);
      } else {
        assert ActionAt(acts2, i) == ActionAt(acts, i);
      }
    }
  }

  lemma FirstPass(x: Setting, run: seq<System>, acts: seq<Action>, n: nat)
      returns (run2: seq<System>, acts2: seq<Action>)
    requires Starts(x) && Reaches(run, acts, Pass(x, 0)) && n <= 8
    ensures Reaches(run2, acts2, Pass(x, n))
  {
    hide Leads, Pass, Reaches;
    run2, acts2 := run, acts;
    PassesDemand(x); PassesReservation(x); PassesAttempt(x);
    for k := 0 to n
      invariant Reaches(run2, acts2, Pass(x, k))
    {
      assert Leads(Pass(x, k), PassAct(k), Pass(x, k + 1));
      run2, acts2 := Proceed(run2, acts2, Pass(x, k), PassAct(k), Pass(x, k + 1));
    }
  }

  lemma SecondPass(p: Place, r: Record, f: Fleet, run: seq<System>, acts: seq<Action>)
      returns (run2: seq<System>, acts2: seq<Action>)
    requires TakesUp(p, r) && Reaches(run, acts, Second(p, r, f, 0))
    ensures Reaches(run2, acts2, Second(p, r, f, 6))
  {
    hide Leads, Reaches, TakesUp, Busy, Store, Postponed;
    SecondLooks(p, r, f); SecondDecides(p, r, f); SecondIsAdmitted(p, r, f); SecondPlans(p, r, f);
    if r.gen.zone != NONE { SecondResolves(p, r, f); }
    assert r.gen.zone == NONE ==> Second(p, r, f, 2) == Unresolved(p, r, f);
    hide Second, Unresolved, SecondWorker;
    run2, acts2 := Proceed(run, acts, Second(p, r, f, 0), Work(p.id, SecondAct(0)), Second(p, r, f, 1));
    run2, acts2 := Proceed(run2, acts2, Second(p, r, f, 1), Work(p.id, SecondAct(1)), Second(p, r, f, 2));
    if r.gen.zone != NONE {
      run2, acts2 := Proceed(run2, acts2, Second(p, r, f, 2), Work(p.id, Resolve(Missing)), Unresolved(p, r, f));
    }
    run2, acts2 := Proceed(run2, acts2, Unresolved(p, r, f), Work(p.id, SecondAct(2)), Second(p, r, f, 3));
    for k := 3 to 6
      invariant Reaches(run2, acts2, Second(p, r, f, k))
    {
      assert Leads(Second(p, r, f, k), Work(p.id, SecondAct(k)), Second(p, r, f, k + 1));
      run2, acts2 := Proceed(run2, acts2, Second(p, r, f, k), Work(p.id, SecondAct(k)), Second(p, r, f, k + 1));
    }
  }

  // ----- before a callback takes the job up

  /** The job, its open tasks and the tasks past activeTask; no callback is at work. */
  function Outside(x: Setting): System {
    System(Store(Waiting(x), EMPTY), 1, NO_CLOUD, map[], x.starts, x.nonces, x.payloads, {}, {}, map[], {}, {})
  }

  function Waiting(x: Setting): Record {
    Rec(NoGeneration(NONE), NOBODY, x.d, x.status, if x.d == IDLE then 1 else 576)
  }

  function Started(token: Id): Start {
    Start(KEY, token, 1)
  }

  function Webhook(status: Status): Action {
    Intake(KEY, JobOf(status), 1, false, false)
  }

  function SendTask(token: Id): Action {
    Action.Dispatch(KEY, token, 0)
  }

  function AfterSend(x: Setting, token: Id): Setting {
    x.(d := Dispatch.Dispatch(token, 576), nonces := x.nonces + {token},
       payloads := x.payloads[token := Payload(KEY, None)])
  }

  function AfterStart(x: Setting, token: Id): Setting {
    x.(starts := x.starts + {Started(token)})
  }

  /** A task is sent for the job, and its callback passes activeTask. */
  lemma TaskGoesOut(x: Setting, token: Id)
    requires x.d == IDLE && x.status != Completed && token != NONE && token !in x.nonces
    ensures Leads(Outside(x), SendTask(token), Outside(AfterSend(x, token)))
  {
    hide Update;
    Transacts(Waiting(x), EMPTY, 1, false, Enqueue(token, 0), Waiting(AfterSend(x, token)), EMPTY);
    hide Apply, Prepare, Store;
  }

  lemma TaskStarts(x: Setting, token: Id)
    requires x.d == Dispatch.Dispatch(token, 576) && x.status != Completed && token != NONE
    requires token in x.payloads && x.payloads[token] == Payload(KEY, None)
    ensures Leads(Outside(x), StartTask(token), Outside(AfterStart(x, token)))
  {
    hide Update;
    Transacts(Waiting(x), EMPTY, 1, false, CheckActive(token), Waiting(x), EMPTY);
    hide Apply, Prepare, Store;
  }

  lemma TaskSent(x: Setting, token: Id, run: seq<System>, acts: seq<Action>)
      returns (run2: seq<System>, acts2: seq<Action>)
    requires x.d == IDLE && x.status != Completed && token != NONE && token !in x.nonces
    requires Reaches(run, acts, Outside(x))
    ensures Reaches(run2, acts2, Outside(AfterStart(AfterSend(x, token), token)))
  {
    hide Reaches, Leads, Outside, AfterStart;
    var y := AfterSend(x, token);
    TaskGoesOut(x, token);
    TaskStarts(y, token);
    run2, acts2 := Proceed(run, acts, Outside(x), SendTask(token), Outside(y));
    run2, acts2 := Proceed(run2, acts2, Outside(y), StartTask(token), Outside(AfterStart(y, token)));
  }

  function Heard(): Setting {
    Setting(IDLE, Queued, {}, {}, map[])
  }

  /** The first task of both runs, past activeTask. */
  function Opened(): Setting {
    AfterStart(AfterSend(Heard(), TOKEN), TOKEN)
  }

  lemma Opens() returns (run: seq<System>, acts: seq<Action>)
    ensures Reaches(run, acts, Outside(Heard()))
  {
    run, acts := [Initial(1), Outside(Heard())], [Webhook(Queued)];
  }

  function AfterClaim(x: Setting, token: Id): Setting {
    x.(starts := x.starts - {Started(token)})
  }

  /** A callback passes claim, the job being free. */
  lemma Claims(x: Setting, token: Id)
    requires Starts(x) && Started(token) in x.starts && token == x.d.token
    ensures Leads(Outside(x), ClaimJob(Started(token), FIRST, None), Pass(AfterClaim(x, token), 0))
  {
    hide Update;
    Transacts(Waiting(x), EMPTY, 1, false, Claim(FIRST), Taken(x), EMPTY);
  }

  // ----- first run: finishTask takes away the reservation of another callback

  const SECOND_TOKEN: Id := 102

  /** The first task waits between activeTask and claim; the job's status changed
      meanwhile, so a second task was sent and has its worker claim the job. */
  function Changed(): Setting {
    Opened().(d := IDLE, status := OtherStatus)
  }

  function Overtaken(): Setting {
    AfterStart(AfterSend(Changed(), SECOND_TOKEN), SECOND_TOKEN)
  }

  lemma StatusChanges()
    ensures Leads(Outside(Opened()), Webhook(OtherStatus), Outside(Changed()))
  {
    hide Update;
    var c := Observe(JobOf(OtherStatus), 1, false, false);
    Transacts(Waiting(Opened()), EMPTY, 1, false, c, Waiting(Changed()), EMPTY);
  }

  function Cleared(): Generation {
    Attempted().(zone := NONE, model := NoModel, template := NONE)
  }

  /** The first callback's insert is refused and it comes to finishTask with a permanent
      error; before it gets there the task it overtook claims the job. */
  function Drift(k: int): System {
    var x := Overtaken();
    var x1 := AfterClaim(x, SECOND_TOKEN);
    var p := First(x1, x.nonces + {FIRST} + {NAME}).(cloud := Cloud(map[INSERT := Refused], {}, {}));
    var saved := Decided(x1, Attempted());
    var cleared := Decided(x1, Cleared());
    var dropped := cleared.(lease := Lease(NONE, 161));
    var w := FirstWorker(x1, cleared, Some(Queued), AtEnd(Permanent(REQUEST_REJECTED)));
    var one, two := Fleet(1, 1, 2), Fleet(1, 0, 3);
    match k
    case 0 => Busy(p, saved, one, w.(r := saved, pc := AtClear([], Invalid)))
    case 1 => Busy(p, cleared, two, w)
    case 2 => Busy(p, dropped, two, w.(pc := AtFinish(Permanent(REQUEST_REJECTED))))
    case _ => Second(Follower(), Held(), two, 0)
  }

  function Held(): Record {
    Decided(Overtaken(), Cleared()).(lease := Lease(SECOND, 161))
  }

  function Follower(): Place {
    var x := Overtaken().(starts := {});
    var leaving := FirstWorker(x, Decided(x, Cleared()), Some(Queued), AtFinish(Permanent(REQUEST_REJECTED)));
    Place(x, 1, Cloud(map[INSERT := Refused], {}, {}), map[FIRST := leaving], SECOND,
          x.nonces + {FIRST} + {NAME} + {SECOND})
  }

  function DriftAct(k: int): Action {
    match k
    case 0 => Work(FIRST, Clear)
    case 1 => Work(FIRST, Drop)
    case _ => ClaimJob(Started(TOKEN), SECOND, None)
  }

  /** The three transactions on the way. */
  lemma DriftCommits()
    ensures var s := Drift(0);
            Update(s.t, FLEET_OF_TWO, s.now, KEY, true, ForgetAttempt(FIRST)) == Committed(Drift(1).t)
    ensures var s := Drift(1); Update(s.t, FLEET_OF_TWO, s.now, KEY, false, DropLease(FIRST)) == Committed(Drift(2).t)
    ensures var s := Drift(2); Update(s.t, FLEET_OF_TWO, s.now, KEY, false, Claim(SECOND)) == Committed(Drift(3).t)
  {
    hide Update;
    var saved, cleared, dropped := Load(Drift(0).t, KEY), Load(Drift(1).t, KEY), Load(Drift(2).t, KEY);
    Transacts(saved, Fleet(1, 1, 2), 1, true, ForgetAttempt(FIRST), cleared, Fleet(1, 0, 3));
    Transacts(cleared, Fleet(1, 0, 3), 1, false, DropLease(FIRST), dropped, Fleet(1, 0, 3));
    Transacts(dropped, Fleet(1, 0, 3), 1, false, Claim(SECOND), Held(), Fleet(1, 0, 3));
  }

  lemma AttemptCleared(p: Place, r: Record, f: Fleet, w: Worker, r2: Record, f2: Fleet)
    requires w.key == KEY && w.r.gen.model == Standard && w.pc == AtClear([], Invalid)
    requires Update(Store(r, f), FLEET_OF_TWO, p.now, KEY, true, ForgetAttempt(p.id)) == Committed(Store(r2, f2))
    ensures Leads(Busy(p, r, f, w), Work(p.id, Clear), Busy(p, r2, f2, w.(r := r2, pc := AfterClear(w.pc))))
  {
    hide Update, Write, Leads, Store;
    Commits(p, r, f, w, true, ForgetAttempt(p.id), true, AfterClear(w.pc), r2, f2);
    WorkLeads(Busy(p, r, f, w), p.id, Clear, Busy(p, r2, f2, w.(r := r2, pc := AfterClear(w.pc))));
  }

  lemma LeaseDropped(p: Place, r: Record, f: Fleet, w: Worker, r2: Record)
    requires w.key == KEY && w.pc.AtEnd?
    requires Update(Store(r, f), FLEET_OF_TWO, p.now, KEY, false, DropLease(p.id)) == Committed(Store(r2, f))
    ensures Leads(Busy(p, r, f, w), Work(p.id, Drop), Busy(p, r2, f, w.(pc := AtFinish(ErrorAt(w.pc)))))
  {
    hide Update, Leads, Goto, Store;
    Turns(p, r2, f, w, AtFinish(ErrorAt(w.pc)));
    WorkLeads(Busy(p, r, f, w), p.id, Drop, Busy(p, r2, f, w.(pc := AtFinish(ErrorAt(w.pc)))));
  }

  /** The first callback comes to finishTask. */
  lemma Drifts()
    ensures Leads(Drift(0), DriftAct(0), Drift(1)) && Leads(Drift(1), DriftAct(1), Drift(2))
  {
    hide Update, Leads, Apply, Prepare, Store;
    DriftCommits();
    var x := AfterClaim(Overtaken(), SECOND_TOKEN);
    var p := First(x, Overtaken().nonces + {FIRST} + {NAME}).(cloud := Cloud(map[INSERT := Refused], {}, {}));
    var saved, cleared := Decided(x, Attempted()), Decided(x, Cleared());
    AttemptCleared(p, saved, Fleet(1, 1, 2), Drift(0).At(FIRST), cleared, Fleet(1, 0, 3));
    LeaseDropped(p, cleared, Fleet(1, 0, 3), Drift(1).At(FIRST), cleared.(lease := Lease(NONE, 161)));
  }

  lemma OvertakenClaims()
    ensures Leads(Drift(2), DriftAct(2), Drift(3))
  {
    hide Update, Apply, Prepare;
    DriftCommits();
    assert Overtaken().starts - {Started(SECOND_TOKEN)} - {Started(TOKEN)} == {};
  }

  lemma IsRefused()
    ensures Leads(Pass(AfterClaim(Overtaken(), SECOND_TOKEN), 8), Work(FIRST, Receive(Refuse(Invalid))), Drift(0))
  {
    hide Update, Store;
    assert AfterClaim(Overtaken(), SECOND_TOKEN).nonces == Overtaken().nonces;
    hide Overtaken, AfterClaim;
  }

  lemma ComesToDrift() returns (run: seq<System>, acts: seq<Action>)
    ensures Reaches(run, acts, Drift(3))
  {
    IsRefused(); Drifts(); OvertakenClaims();
    hide Reaches, Leads, Outside, Pass, Drift;
    run, acts := Opens();
    run, acts := TaskSent(Heard(), TOKEN, run, acts);
    StatusChanges();
    run, acts := Proceed(run, acts, Outside(Opened()), Webhook(OtherStatus), Outside(Changed()));
    run, acts := TaskSent(Changed(), SECOND_TOKEN, run, acts);
    var x := AfterClaim(Overtaken(), SECOND_TOKEN);
    Claims(Overtaken(), SECOND_TOKEN);
    run, acts := Proceed(run, acts, Outside(Overtaken()), ClaimJob(Started(SECOND_TOKEN), FIRST, None), Pass(x, 0));
    run, acts := FirstPass(x, run, acts, 8);
    run, acts := Proceed(run, acts, Pass(x, 8), Work(FIRST, Receive(Refuse(Invalid))), Drift(0));
    for k := 0 to 3
      invariant Reaches(run, acts, Drift(k))
    {
      assert Leads(Drift(k), DriftAct(k), Drift(k + 1));
      run, acts := Proceed(run, acts, Drift(k), DriftAct(k), Drift(k + 1));
    }
  }

  /** The second callback is about to save its attempt when the first comes to
      finishTask. */
  function Crossed(): System {
    Second(Follower(), Held(), Drift(3).t.fleet, 6)
  }

  lemma CrossedLeases()
    ensures TakesUp(Follower(), Held()) && Drift(3) == Second(Follower(), Held(), Drift(3).t.fleet, 0)
    ensures Saving(FLEET_OF_TWO, Crossed(), FIRST, SECOND, ATTEMPT)
    ensures Releasing(Crossed(), FIRST, Load(Crossed().t, KEY)) && Crossed().At(FIRST).key == KEY
    ensures Crossed().t.runners.Keys == {NAME} && Crossed().t.fleet.standard == 0
    ensures Load(Crossed().t, KEY).gen.vm == NAME && StandardNames(Crossed().t.runners) == {}
  {
    NothingStandard(Crossed().t.runners);
  }

  /** Counter and ledger can part: a callback that ends with a permanent error hands
      back, under its dispatch token alone, the reservation another callback works
      on inside its own lease; that one's next attempt is then counted for nobody. */
  lemma CountersCanDrift() returns (run: seq<System>, acts: seq<Action>)
    ensures IsRun(FLEET_OF_TWO, run, acts)
    ensures var t := Last(run).t; t.runners == map[] && t.fleet.standard == 1 && !Counted(t)
  {
    run, acts := ComesToDrift();
    CrossedLeases();
    hide Drift, Reaches, Saving, Releasing, StandardNames, TakesUp, Second, Follower, Held;
    run, acts := SecondPass(Follower(), Held(), Drift(3).t.fleet, run, acts);
    BooksThere(run, acts, Crossed());
    var tail, tailActs := ReleaseUnderLease(FLEET_OF_TWO, Crossed(), FIRST, SECOND, ATTEMPT);
    run, acts := Join(run, acts, tail, tailActs);
    assert Last(run).t.runners.Keys == {};
  }

  lemma BooksThere(run: seq<System>, acts: seq<Action>, s: System)
    requires Reaches(run, acts, s)
    ensures BooksOk(FLEET_OF_TWO, s.t) && IsRun(FLEET_OF_TWO, run, acts) && Last(run) == s
  {
    hide BooksOk, Enabled, Step, AllTimely;
    RunStands(FLEET_OF_TWO, run, acts, |run| - 1);
  }

  // ----- second run: the age rule gives up on an insert that was sent again

  const UNCOUNTED: Instance := Instance(NAME, 1, Standard)

  function Alone(): Setting {
    AfterClaim(Opened(), TOKEN)
  }

  function Resumed(): Record {
    Decided(Alone(), Attempted()).(lease := Lease(SECOND, 321))
  }

  function Successor(): Place {
    Place(Alone(), 161, NO_CLOUD, map[], SECOND, Alone().nonces + {FIRST} + {NAME} + {SECOND})
  }

  /** The first callback crashes before it submits; its lease runs out, and its task is
      delivered again. */
  function Early(k: int): System {
    var s := Pass(Alone(), 7).(workers := map[]);
    match k
    case 0 => s
    case 1 => s.(now := 161)
    case 2 => s.(now := 161, starts := s.starts + {Start(KEY, TOKEN, 161)})
    case _ => Second(Successor(), Resumed(), s.t.fleet, 0)
  }

  function EarlyAct(k: int): Action {
    match k
    case 0 => Tick(160)
    case 1 => StartTask(TOKEN)
    case _ => ClaimJob(Start(KEY, TOKEN, 161), SECOND, None)
  }

  lemma FirstCrashes()
    ensures Leads(Pass(Alone(), 7), Work(FIRST, Crash), Early(0)) && Leads(Early(0), EarlyAct(0), Early(1))
  {
    hide Store, Alone;
    assert Pass(Alone(), 7).workers - {FIRST} == map[];
  }

  lemma DeliveredAgain()
    ensures Leads(Early(1), EarlyAct(1), Early(2)) && Leads(Early(2), EarlyAct(2), Early(3))
  {
    hide Update;
    var r, f := Load(Early(1).t, KEY), Fleet(1, 1, 2);
    Transacts(r, f, 161, false, CheckActive(TOKEN), r, f);
    Transacts(r, f, 161, false, Claim(SECOND), Resumed(), f);
    hide Apply, Prepare, Store;
    assert Alone().starts == {};
    assert {} + {Start(KEY, TOKEN, 161)} - {Start(KEY, TOKEN, 161)} == {};
  }

  function Resubmitting(): System {
    Busy(Successor(), Postponed(Successor(), Resumed()), Early(3).t.fleet,
         SecondWorker(Successor(), Postponed(Successor(), Resumed()), AtSend([])))
  }

  /** Saving the attempt that is saved changes nothing. */
  lemma SavesTheSame()
    ensures var s := Resubmitting();
            Update(s.t, FLEET_OF_TWO, s.now, KEY, false, SaveAttempt(SECOND, ATTEMPT)) == Committed(s.t)
  {
    var r := Rec(Attempted(), Lease(SECOND, 321), Dispatch.Dispatch(TOKEN, 576), Queued, 761);
    assert r == Postponed(Successor(), Resumed()) && Resubmitting().t == Store(r, Fleet(1, 1, 2));
    hide Postponed, Successor, Resumed, Resubmitting, Early;
    Transacts(r, Fleet(1, 1, 2), 161, false, SaveAttempt(SECOND, ATTEMPT), r, Fleet(1, 1, 2));
  }

  lemma SavesAgain()
    ensures Leads(Second(Successor(), Resumed(), Early(3).t.fleet, 6), Work(SECOND, SaveNext), Resubmitting())
  {
    hide Update, Write, Leads;
    var p, r, f, c := Successor(), Postponed(Successor(), Resumed()), Fleet(1, 1, 2), SaveAttempt(SECOND, ATTEMPT);
    assert [ATTEMPT][1..] == [];
    SavesTheSame();
    Commits(p, r, f, SecondWorker(p, Resumed(), AtAttempt([ATTEMPT])), false, c, true, AtSend([]), r, f);
    WorkLeads(Second(p, Resumed(), f, 6), SECOND, SaveNext, Resubmitting());
  }

  lemma SucceedsIt()
    ensures TakesUp(Successor(), Resumed()) && Early(3) == Second(Successor(), Resumed(), Early(3).t.fleet, 0)
  {
  }

  lemma ComesToResubmission() returns (run: seq<System>, acts: seq<Action>)
    ensures Reaches(run, acts, Resubmitting())
  {
    FirstCrashes(); DeliveredAgain(); SavesAgain();
    SucceedsIt();
    hide Reaches, Leads, Outside, Pass, Early, TakesUp, Second, Resumed, Successor, Resubmitting;
    run, acts := Opens();
    run, acts := TaskSent(Heard(), TOKEN, run, acts);
    Claims(Opened(), TOKEN);
    run, acts := Proceed(run, acts, Outside(Opened()), ClaimJob(Started(TOKEN), FIRST, None), Pass(Alone(), 0));
    run, acts := FirstPass(Alone(), run, acts, 7);
    run, acts := Proceed(run, acts, Pass(Alone(), 7), Work(FIRST, Crash), Early(0));
    for k := 0 to 3
      invariant Reaches(run, acts, Early(k))
    {
      assert Leads(Early(k), EarlyAct(k), Early(k + 1));
      run, acts := Proceed(run, acts, Early(k), EarlyAct(k), Early(k + 1));
    }
    run, acts := SecondPass(Successor(), Resumed(), Early(3).t.fleet, run, acts);
    run, acts := Proceed(run, acts, Second(Successor(), Resumed(), Early(3).t.fleet, 6), Work(SECOND, SaveNext),
                         Resubmitting());
  }

  lemma LateThere()
    ensures WorkEnabled(Resubmitting(), SECOND, Send) && !Timely(FLEET_OF_TWO, Resubmitting(), Work(SECOND, Send))
    ensures RequestOf(Resubmitting().At(SECOND).r.gen) == INSERT
    ensures UNCOUNTED == Instance(INSERT.name, INSERT.zone, INSERT.model)
  {
  }

  lemma PunctualThere(run: seq<System>, acts: seq<Action>, s: System)
    requires Reaches(run, acts, s)
    ensures Punctual(FLEET_OF_TWO, s) && IsRun(FLEET_OF_TWO, run, acts) && Last(run) == s
  {
    hide Punctual, Enabled, Step, Timely;
    PunctualAtFirst(FLEET_OF_TWO, StateAt(run, 0).now);
    StaysPunctual(FLEET_OF_TWO, run, acts, |run| - 1);
  }

  /** A VM can go uncounted: an insert sent again by a second callback is given up
      by a third by the age of the first, and accepted after its reservation and
      its place in the fleet are gone. */
  lemma VmCanGoUncounted() returns (run: seq<System>, acts: seq<Action>)
    ensures IsRun(FLEET_OF_TWO, run, acts)
    ensures var s := Last(run);
            UNCOUNTED in s.cloud.vms && UNCOUNTED.name !in s.t.runners && !NothingUncounted(s)
  {
    run, acts := ComesToResubmission();
    LateThere();
    hide Resubmitting, Reaches, Punctual, WorkEnabled, Timely, NothingUncounted;
    PunctualThere(run, acts, Resubmitting());
    var tail, tailActs := LateSubmission(FLEET_OF_TWO, Resubmitting(), SECOND);
    run, acts := Join(run, acts, tail, tailActs);
  }
}
