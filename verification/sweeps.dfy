/** The two-minute sweep over detached runners: it pages over rows that leave the
    set it pages over. */
module Sweeps {
  import opened Types
  import opened Records
  import opened Transactions
  import opened Ledger
  import opened Protocol
  import opened Transitions
  import opened Decisions
  import opened DocumentStore

  const RUNNER_PAGE: nat := 100
  const PAGES_PER_SWEEP: nat := 10

  /** The detached rows due at the cutoff. */
  function DueRunners(runners: map<Id, Row>, due: Time): set<Id> {
    set n | n in runners && runners[n].owner == NONE && runners[n].nextActionAt <= due
  }

  // ----- one row

  datatype Sight = Sight(found: bool, stopped: bool)

  /** What the clouds answer during a sweep, row by row; None is an error. */
  datatype World = World(
    look: Id -> Option<Sight>, registration: Id -> Option<Registration>, deletes: Id -> bool, clock: Id -> Time)

  datatype Verdict = Failing | Release | Defer(next: Time, available: bool)

  /** The decision table of one sweep row. */
  function VerdictOn(cfg: Config, w: World, row: Row): Verdict {
    var now := w.clock(row.name);
    match w.look(row.name)
    case None => Failing
    case Some(sight) =>
      if !sight.found then Release
      else if sight.stopped then (if w.deletes(row.name) then Release else Failing)
      else if row.rec.source !in cfg.sources then Defer(now + 10 * MINUTE, false)
      else match w.registration(row.name)
        case None => Failing
        case Some(reg) =>
          if ShouldRemove(cfg, row.rec, reg, now) then (if w.deletes(row.name) then Release else Failing)
          else Defer(now + (if reg == Offline then 2 else 10) * MINUTE, reg == Idle)
  }

  /** A row whose generation is running an unfinished job stays, whatever else. */
  lemma AssignedRowStays(cfg: Config, w: World, t: Tables, row: Row)
    requires Assigned(t, row.name)
    requires w.registration(row.name).Some? ==> MayAnswer(t, row.name, w.registration(row.name).value)
    requires w.look(row.name).Some? ==> w.look(row.name).value.found && !w.look(row.name).value.stopped
    ensures VerdictOn(cfg, w, row) != Release
    ensures VerdictOn(cfg, w, row).Defer? ==> !VerdictOn(cfg, w, row).available
  {
  }

  ghost predicate IsPage(runners: map<Id, Row>, due: Time, rows: seq<Row>) {
    && (forall i :: 0 <= i < |rows| ==> rows[i].name in DueRunners(runners, due) && runners[rows[i].name] == rows[i])
    && (forall i, j :: 0 <= i < j < |rows| ==> rows[i].name != rows[j].name)
    && |rows| <= RUNNER_PAGE
    && (|rows| < RUNNER_PAGE ==> forall n :: n in DueRunners(runners, due) ==>
        exists i :: 0 <= i < |rows| && rows[i].name == n)
  }

  function Names(rows: seq<Row>): set<Id> {
    set i | 0 <= i < |rows| :: rows[i].name
  }

  function Released(cfg: Config, w: World, rows: seq<Row>): set<Id> {
    set i | 0 <= i < |rows| && VerdictOn(cfg, w, rows[i]) == Release :: rows[i].name
  }

  /** RunnerPage: at most a page of the due detached rows, in no particular order. */
  method RunnerPage(store: Store, due: Time) returns (rows: seq<Row>)
    requires forall n :: n in store.runners ==> store.runners[n].name == n
    ensures IsPage(store.runners, due, rows)
  {
    var pending := DueRunners(store.runners, due);
    rows := [];
    while pending != {} && |rows| < RUNNER_PAGE
      invariant pending <= DueRunners(store.runners, due)
      invariant |rows| <= RUNNER_PAGE
      invariant forall i :: 0 <= i < |rows| ==>
                  rows[i].name in DueRunners(store.runners, due) - pending && store.runners[rows[i].name] == rows[i]
      invariant forall i, j :: 0 <= i < j < |rows| ==> rows[i].name != rows[j].name
      invariant forall n :: n in DueRunners(store.runners, due) && n !in pending ==>
          exists i :: 0 <= i < |rows| && rows[i].name == n
      decreases pending
    {
      var n :| n in pending;
      pending := pending - {n};
      ghost var before := rows;
      rows := rows + [store.runners[n]];
      assert rows[|before|].name == n;
      assert forall i :: 0 <= i < |before| ==> rows[i] == before[i];
    }
  }

  /** The state between two rows of a page: every row handled so far has left the
      due set, and the counter has gone down by one for each released. */
  ghost predicate Swept(cfg: Config, w: World, t: Tables, t2: Tables, due: Time, rows: seq<Row>) {
    && DueRunners(t2.runners, due) == DueRunners(t.runners, due) - Names(rows)
    && t2.runners.Keys == t.runners.Keys - Released(cfg, w, rows)
    && t2.fleet.runners == t.fleet.runners - |Released(cfg, w, rows)|
    && t2.jobs == t.jobs && t2.evidence == t.evidence
    && (forall n :: n in t2.runners && n !in Names(rows) ==> t2.runners[n] == t.runners[n])
    && (forall n :: n in t2.runners ==> t2.runners[n].name == t.runners[n].name)
  }

  // ----- what becomes of a row, in terms of what the clouds answered

  predicate Seen(w: World, n: Id) {
    w.look(n).Some? && w.look(n).value.found
  }

  /** The registration the sweep acts on: that of a running VM of a registered source. */
  predicate Heard(cfg: Config, w: World, row: Row, reg: Registration) {
    && Seen(w, row.name) && !w.look(row.name).value.stopped && row.rec.source in cfg.sources
    && w.registration(row.name) == Some(reg)
  }

  /** Its VM is stopped, or its runner is unwanted. */
  ghost predicate Condemned(cfg: Config, w: World, row: Row) {
    && Seen(w, row.name)
    && (|| w.look(row.name).value.stopped
        || exists reg :: Heard(cfg, w, row, reg) && Unwanted(cfg, row.rec, reg, w.clock(row.name)))
  }

  /** A row that is gone had no VM, or a condemned one that was deleted; one that stays has
      a running VM that is not condemned, is due again in ten minutes, or in two if its
      runner was offline, and is advertised exactly if its runner was found idle and no
      assignment names it. */
  ghost predicate Fate(cfg: Config, w: World, evidence: map<Id, Evidence>, runners: map<Id, Row>, row: Row) {
    var n, now := row.name, w.clock(row.name);
    && w.look(n).Some?
    && (n !in runners ==> Seen(w, n) ==> Condemned(cfg, w, row) && w.deletes(n))
    && (n in runners ==>
          && Seen(w, n) && !Condemned(cfg, w, row)
          && runners[n] == row.(nextActionAt := now + if Heard(cfg, w, row, Offline) then 2 * MINUTE else 10 * MINUTE,
                                available := Heard(cfg, w, row, Idle) && n !in evidence))
  }

  /** The instance lookup, the registration check or the deletion of a condemned VM failed. */
  ghost predicate Failed(cfg: Config, w: World, row: Row) {
    var n := row.name;
    || w.look(n).None?
    || (Seen(w, n) && !w.look(n).value.stopped && row.rec.source in cfg.sources && w.registration(n).None?)
    || (Condemned(cfg, w, row) && !w.deletes(n))
  }

  ghost predicate ClockRuns(w: World, due: Time) {
    forall n :: due <= w.clock(n)
  }

  function Handled(cfg: Config, w: World, t: Tables, row: Row): Tables {
    match VerdictOn(cfg, w, row)
    case Failing => t
    case Release => ReleaseRunner(t, row.name)
    case Defer(next, available) => DeferRunner(t, row.name, next, available)
  }

  lemma NamesSnoc(cfg: Config, w: World, rows: seq<Row>, row: Row)
    requires forall i :: 0 <= i < |rows| ==> rows[i].name != row.name
    ensures Names(rows + [row]) == Names(rows) + {row.name}
    ensures Released(cfg, w, rows + [row])
         == Released(cfg, w, rows) + if VerdictOn(cfg, w, row) == Release then {row.name} else {}
    ensures row.name !in Released(cfg, w, rows) && row.name !in Names(rows)
  {
    var all := rows + [row];
    assert all[|rows|] == row && forall i :: 0 <= i < |rows| ==> all[i] == rows[i];
    forall n | n in Released(cfg, w, rows) ensures n in Released(cfg, w, all) {
      var i :| 0 <= i < |rows| && VerdictOn(cfg, w, rows[i]) == Release && rows[i].name == n;
      assert all[i].name == n;
    }
    forall n | n in Names(rows) ensures n in Names(all) {
      var i :| 0 <= i < |rows| && rows[i].name == n;
      assert all[i].name == n;
    }
    assert all[|rows|].name in Names(all);
  }

  /** What handling one due row does. */
  lemma HandledRow(cfg: Config, w: World, t: Tables, due: Time, row: Row)
    requires ClockRuns(w, due) && VerdictOn(cfg, w, row) != Failing
    requires row.name in DueRunners(t.runners, due) && t.runners[row.name] == row
    ensures var t2 := Handled(cfg, w, t, row);
            var gone := if VerdictOn(cfg, w, row) == Release then {row.name} else {};
            && DueRunners(t2.runners, due) == DueRunners(t.runners, due) - {row.name}
            && t2.runners.Keys == t.runners.Keys - gone
            && t2.fleet.runners == t.fleet.runners - |gone|
            && t2.jobs == t.jobs && t2.evidence == t.evidence
            && (forall n :: n in t2.runners && n != row.name ==> t2.runners[n] == t.runners[n])
            && (forall n :: n in t2.runners ==> t2.runners[n].name == t.runners[n].name)
  {
    hide VerdictOn;
    DeferredPast(cfg, w, due, row);
  }

  /** One more row. */
  lemma RowSwept(cfg: Config, w: World, t: Tables, t1: Tables, due: Time, rows: seq<Row>, row: Row)
    requires Swept(cfg, w, t, t1, due, rows) && ClockRuns(w, due)
    requires row.name in DueRunners(t.runners, due) && t.runners[row.name] == row
    requires forall i :: 0 <= i < |rows| ==> rows[i].name != row.name
    requires VerdictOn(cfg, w, row) != Failing
    ensures Swept(cfg, w, t, Handled(cfg, w, t1, row), due, rows + [row])
  {
    hide VerdictOn, Handled, Names, Released, ClockRuns, DueRunners;
    NamesSnoc(cfg, w, rows, row);
    StillDue(cfg, w, t, t1, due, rows, row);
    HandledRow(cfg, w, t1, due, row);
    ReleasedSnoc(cfg, w, rows, row);
  }

  lemma ReleasedSnoc(cfg: Config, w: World, rows: seq<Row>, row: Row)
    requires forall i :: 0 <= i < |rows| ==> rows[i].name != row.name
    ensures var gone := if VerdictOn(cfg, w, row) == Release then {row.name} else {};
            && Released(cfg, w, rows + [row]) == Released(cfg, w, rows) + gone
            && |Released(cfg, w, rows + [row])| == |Released(cfg, w, rows)| + |gone|
  {
    hide VerdictOn, Released;
    NamesSnoc(cfg, w, rows, row);
  }

  lemma StillDue(cfg: Config, w: World, t: Tables, t1: Tables, due: Time, rows: seq<Row>, row: Row)
    requires Swept(cfg, w, t, t1, due, rows)
    requires row.name in DueRunners(t.runners, due) && t.runners[row.name] == row && row.name !in Names(rows)
    ensures row.name in DueRunners(t1.runners, due) && t1.runners[row.name] == row
  {
    hide VerdictOn, Names, Released;
  }

  lemma DeferredPast(cfg: Config, w: World, due: Time, row: Row)
    requires ClockRuns(w, due)
    ensures VerdictOn(cfg, w, row).Defer? ==> due < VerdictOn(cfg, w, row).next
  {
    assert due <= w.clock(row.name);
  }

  ghost predicate Fates(cfg: Config, w: World, t: Tables, rows: seq<Row>) {
    forall i :: 0 <= i < |rows| ==> Fate(cfg, w, t.evidence, t.runners, rows[i])
  }

  /** Handling one row seals its fate. */
  lemma HandledFate(cfg: Config, w: World, t: Tables, row: Row)
    requires row.name in t.runners && t.runners[row.name] == row && row.owner == NONE
    ensures if VerdictOn(cfg, w, row) == Failing then Failed(cfg, w, row)
            else Fate(cfg, w, t.evidence, Handled(cfg, w, t, row).runners, row)
  {
    var n := row.name;
    if Seen(w, n) && !w.look(n).value.stopped && row.rec.source in cfg.sources && w.registration(n).Some? {
      var reg := w.registration(n).value;
      assert Heard(cfg, w, row, reg);
      assert forall other :: Heard(cfg, w, row, other) ==> other == reg;
    }
  }

  lemma FatesSnoc(cfg: Config, w: World, t: Tables, rows: seq<Row>, row: Row)
    requires Fates(cfg, w, t, rows) && VerdictOn(cfg, w, row) != Failing
    requires forall i :: 0 <= i < |rows| ==> rows[i].name != row.name
    requires Fate(cfg, w, t.evidence, Handled(cfg, w, t, row).runners, row)
    ensures Fates(cfg, w, Handled(cfg, w, t, row), rows + [row])
  {
    hide VerdictOn, Condemned;
    forall i | 0 <= i < |rows| + 1
      ensures Fate(cfg, w, t.evidence, Handled(cfg, w, t, row).runners, (rows + [row])[i])
    {
      if i < |rows| { assert (rows + [row])[i] == rows[i]; }
    }
  }

  /** reconcileRunnerRows. */
  method ReconcileRows(store: Store, cfg: Config, w: World, ghost due: Time, rows: seq<Row>) returns (ok: bool)
    requires ClockRuns(w, due)
    requires forall i :: 0 <= i < |rows| ==>
               rows[i].name in DueRunners(store.runners, due) && store.runners[rows[i].name] == rows[i]
    requires forall i, j :: 0 <= i < j < |rows| ==> rows[i].name != rows[j].name
    modifies store
    ensures ok ==> Swept(cfg, w, old(store.Contents()), store.Contents(), due, rows)
    ensures !ok ==> exists k :: 0 <= k < |rows| && VerdictOn(cfg, w, rows[k]) == Failing
                      && Swept(cfg, w, old(store.Contents()), store.Contents(), due, rows[..k])
                      && Failed(cfg, w, rows[k])
                      && Fates(cfg, w, store.Contents(), rows[..k])
    ensures ok ==> Fates(cfg, w, store.Contents(), rows)
    ensures old(LedgerOk(cfg, store.Contents())) ==> LedgerOk(cfg, store.Contents())
  {
    hide LedgerOk, Swept, ShouldRemove, Fate, Failed;
    ghost var t := store.Contents();
    assert Swept(cfg, w, t, t, due, []) by { NothingSwept(cfg, w, t, due); }
    assert rows[..0] == [];
    for i := 0 to |rows|
      invariant Swept(cfg, w, t, store.Contents(), due, rows[..i])
      invariant Fates(cfg, w, store.Contents(), rows[..i])
      invariant LedgerOk(cfg, t) ==> LedgerOk(cfg, store.Contents())
    {
      var row := rows[i];
      ghost var verdict := VerdictOn(cfg, w, row);
      ghost var t1 := store.Contents();
      StillDue(cfg, w, t, t1, due, rows[..i], row);
      HandledFate(cfg, w, t1, row);
      var sight := w.look(row.name);
      if sight.None? { return false; }
      var found := sight.value.found;
      var remove := found && sight.value.stopped;
      var available := false;
      var next := w.clock(row.name) + 10 * MINUTE;
      var skip := false;
      if found && !remove {
        if row.rec.source !in cfg.sources {
          store.DeferRunner(cfg, row.name, next, false);
          skip := true;
        } else {
          var registration := w.registration(row.name);
          if registration.None? { return false; }
          remove := ShouldRemove(cfg, row.rec, registration.value, w.clock(row.name));
          available := registration.value == Idle;
          if registration.value == Offline { next := w.clock(row.name) + 2 * MINUTE; }
        }
      }
      if !skip {
        if remove {
          if !w.deletes(row.name) { return false; }
          found := false;
        }
        if !found {
          store.ReleaseRunner(cfg, row.name);
        } else {
          store.DeferRunner(cfg, row.name, next, available);
        }
      }
      assert verdict != Failing && store.Contents() == Handled(cfg, w, t1, row);
      assert rows[..i + 1] == rows[..i] + [row];
      RowSwept(cfg, w, t, t1, due, rows[..i], row);
      FatesSnoc(cfg, w, t1, rows[..i], row);
    }
    assert rows[..|rows|] == rows;
    return true;
  }

  lemma NothingSwept(cfg: Config, w: World, t: Tables, due: Time)
    ensures Swept(cfg, w, t, t, due, [])
  {
    assert Names([]) == {} && Released(cfg, w, []) == {};
  }

  // ----- pages

  ghost predicate DistinctNames(rows: seq<Row>) {
    forall i, j :: 0 <= i < j < |rows| ==> rows[i].name != rows[j].name
  }

  lemma NamesJoin(cfg: Config, w: World, a: seq<Row>, b: seq<Row>)
    requires Names(a) !! Names(b) && DistinctNames(a) && DistinctNames(b)
    ensures Names(a + b) == Names(a) + Names(b)
    ensures Released(cfg, w, a + b) == Released(cfg, w, a) + Released(cfg, w, b)
    ensures Released(cfg, w, a) !! Released(cfg, w, b) && DistinctNames(a + b)
  {
    hide VerdictOn;
    var c := a + b;
    assert forall i :: 0 <= i < |a| ==> c[i] == a[i] && a[i].name in Names(a);
    assert forall i :: 0 <= i < |b| ==> c[|a| + i] == b[i] && b[i].name in Names(b);
    forall n | n in Names(a) + Names(b) ensures n in Names(c) {
      if n in Names(a) {
        var i :| 0 <= i < |a| && a[i].name == n;
        assert c[i].name == n;
      } else {
        var i :| 0 <= i < |b| && b[i].name == n;
        assert c[|a| + i].name == n;
      }
    }
    forall n | n in Released(cfg, w, a) + Released(cfg, w, b) ensures n in Released(cfg, w, c) {
      if n in Released(cfg, w, a) {
        var i :| 0 <= i < |a| && VerdictOn(cfg, w, a[i]) == Release && a[i].name == n;
        assert c[i].name == n;
      } else {
        var i :| 0 <= i < |b| && VerdictOn(cfg, w, b[i]) == Release && b[i].name == n;
        assert c[|a| + i].name == n;
      }
    }
  }

  lemma SweptJoin(cfg: Config, w: World, t: Tables, t1: Tables, t2: Tables, due: Time, a: seq<Row>, b: seq<Row>)
    requires Swept(cfg, w, t, t1, due, a) && Swept(cfg, w, t1, t2, due, b)
    requires DistinctNames(a) && DistinctNames(b) && Names(b) <= DueRunners(t1.runners, due)
    ensures Swept(cfg, w, t, t2, due, a + b) && DistinctNames(a + b)
  {
    hide VerdictOn, DueRunners, Names, Released;
    NamesJoin(cfg, w, a, b);
    assert |Released(cfg, w, a) + Released(cfg, w, b)| == |Released(cfg, w, a)| + |Released(cfg, w, b)|;
  }

  lemma PageNames(runners: map<Id, Row>, due: Time, rows: seq<Row>)
    requires IsPage(runners, due, rows)
    ensures DistinctNames(rows) && Names(rows) <= DueRunners(runners, due)
    ensures |rows| < RUNNER_PAGE ==> Names(rows) == DueRunners(runners, due)
  {
    if |rows| < RUNNER_PAGE {
      forall n | n in DueRunners(runners, due) ensures n in Names(rows) {
        var i :| 0 <= i < |rows| && rows[i].name == n;
        assert rows[i].name in Names(rows);
      }
    }
  }

  /** reconcileRunners: re-reading the same cutoff page after page.  On success every
      row was handled once, each handled row has left the due set, the runners
      counter went down by exactly the number released, and either nothing due is
      left or exactly ten full pages were handled. */
  method ReconcileRunners(store: Store, cfg: Config, w: World, due: Time) returns (ok: bool, ghost handled: seq<Row>)
    requires ClockRuns(w, due)
    requires forall n :: n in store.runners ==> store.runners[n].name == n
    modifies store
    ensures ok ==> Swept(cfg, w, old(store.Contents()), store.Contents(), due, handled) && DistinctNames(handled)
                   && Names(handled) <= DueRunners(old(store.runners), due)
    ensures ok ==> Fates(cfg, w, store.Contents(), handled)
    ensures ok ==> DueRunners(store.runners, due) == {} || |handled| == PAGES_PER_SWEEP * RUNNER_PAGE
    ensures old(LedgerOk(cfg, store.Contents())) ==> LedgerOk(cfg, store.Contents())
  {
    hide LedgerOk, Swept, IsPage, VerdictOn, DistinctNames, DueRunners, Names, Released, ClockRuns, Fates;
    ghost var t := store.Contents();
    handled := [];
    assert Swept(cfg, w, t, t, due, []) by { NothingSwept(cfg, w, t, due); }
    assert DistinctNames([]) && Names([]) <= DueRunners(t.runners, due) by { NoNames(t.runners, due); }
    assert Fates(cfg, w, t, []) by { NoFates(cfg, w, t); }
    for page := 0 to PAGES_PER_SWEEP
      invariant Swept(cfg, w, t, store.Contents(), due, handled) && DistinctNames(handled)
      invariant Names(handled) <= DueRunners(t.runners, due)
      invariant Fates(cfg, w, store.Contents(), handled)
      invariant forall n :: n in store.runners ==> store.runners[n].name == n
      invariant |handled| == page * RUNNER_PAGE
      invariant LedgerOk(cfg, t) ==> LedgerOk(cfg, store.Contents())
    {
      ghost var t1 := store.Contents();
      var rows := RunnerPage(store, due);
      PageNames(t1.runners, due, rows);
      PageRows(t1.runners, due, rows);
      ok := ReconcileRows(store, cfg, w, due, rows);
      if !ok { return; }
      ghost var t2 := store.Contents();
      SweptJoin(cfg, w, t, t1, t2, due, handled, rows);
      StillDueAtStart(cfg, w, t, t1, t2, due, handled, rows);
      FatesJoin(cfg, w, t, t1, t2, due, handled, rows);
      handled := handled + rows;
      if |rows| < RUNNER_PAGE { return true, handled; }
    }
    ok := true;
  }

  lemma NoFates(cfg: Config, w: World, t: Tables)
    ensures Fates(cfg, w, t, [])
  {
  }

  /** A later page leaves the fates of the rows before it alone. */
  lemma FatesJoin(cfg: Config, w: World, t: Tables, t1: Tables, t2: Tables, due: Time, a: seq<Row>, b: seq<Row>)
    requires Swept(cfg, w, t, t1, due, a) && Swept(cfg, w, t1, t2, due, b) && IsPage(t1.runners, due, b)
    requires Fates(cfg, w, t1, a) && Fates(cfg, w, t2, b)
    ensures Fates(cfg, w, t2, a + b)
  {
    hide VerdictOn, Condemned, DueRunners;
    PageNames(t1.runners, due, b);
    forall i | 0 <= i < |a + b| ensures Fate(cfg, w, t2.evidence, t2.runners, (a + b)[i]) {
      if i < |a| {
        assert (a + b)[i] == a[i] && a[i].name in Names(a);
        assert a[i].name !in Names(b);
        ReleasedAreNamed(cfg, w, b);
      } else {
        assert (a + b)[i] == b[i - |a|];
      }
    }
  }

  lemma ReleasedAreNamed(cfg: Config, w: World, rows: seq<Row>)
    ensures Released(cfg, w, rows) <= Names(rows)
  {
    hide VerdictOn;
  }

  lemma NoNames(runners: map<Id, Row>, due: Time)
    ensures DistinctNames([]) && Names([]) <= DueRunners(runners, due)
  {
    assert Names([]) == {};
  }

  lemma PageRows(runners: map<Id, Row>, due: Time, rows: seq<Row>)
    requires IsPage(runners, due, rows)
    ensures forall i :: 0 <= i < |rows| ==> rows[i].name in DueRunners(runners, due) && runners[rows[i].name] == rows[i]
    ensures forall i, j :: 0 <= i < j < |rows| ==> rows[i].name != rows[j].name
    ensures |rows| <= RUNNER_PAGE
  {
  }

  lemma StillDueAtStart(cfg: Config, w: World, t: Tables, t1: Tables, t2: Tables, due: Time, a: seq<Row>, b: seq<Row>)
    requires Swept(cfg, w, t, t1, due, a) && Swept(cfg, w, t1, t2, due, b)
    requires Names(a) <= DueRunners(t.runners, due) && IsPage(t1.runners, due, b)
    requires forall n :: n in t1.runners ==> t1.runners[n].name == n
    ensures Names(a + b) <= DueRunners(t.runners, due)
    ensures |b| < RUNNER_PAGE ==> DueRunners(t2.runners, due) == {}
    ensures forall n :: n in t2.runners ==> t2.runners[n].name == n
  {
    hide VerdictOn, DueRunners, Released;
    PageNames(t1.runners, due, b);
    forall n | n in Names(a + b) ensures n in DueRunners(t.runners, due) {
      var i :| 0 <= i < |a + b| && (a + b)[i].name == n;
      assert if i < |a| then a[i].name in Names(a) else b[i - |a|].name in Names(b);
    }
  }

  /** The set shrinks by exactly the rows handled, and the counter by exactly the
      rows released. */
  lemma DrainCounts(cfg: Config, w: World, t: Tables, t2: Tables, due: Time, rows: seq<Row>)
    requires Swept(cfg, w, t, t2, due, rows) && DistinctNames(rows) && Names(rows) <= DueRunners(t.runners, due)
    ensures |DueRunners(t2.runners, due)| == |DueRunners(t.runners, due)| - |rows|
    ensures t.fleet.runners - t2.fleet.runners == |t.runners| - |t2.runners|
  {
    hide VerdictOn, Released;
    NamesAreAsMany(rows);
    DropSize(DueRunners(t.runners, due), Names(rows));
    ReleasedWereThere(cfg, w, t, t2, due, rows);
    DropSize(t.runners.Keys, Released(cfg, w, rows));
  }

  lemma ReleasedWereThere(cfg: Config, w: World, t: Tables, t2: Tables, due: Time, rows: seq<Row>)
    requires Names(rows) <= DueRunners(t.runners, due)
    ensures Released(cfg, w, rows) <= t.runners.Keys
  {
    hide VerdictOn;
    forall n | n in Released(cfg, w, rows) ensures n in t.runners {
      assert n in Names(rows);
    }
  }

  lemma DropSize(a: set<Id>, b: set<Id>)
    requires b <= a
    ensures |a - b| == |a| - |b|
  {
    assert a == (a - b) + b;
  }

  lemma {:induction false} NamesAreAsMany(rows: seq<Row>)
    requires DistinctNames(rows)
    ensures |Names(rows)| == |rows|
  {
    if rows != [] {
      var init, last := rows[..|rows| - 1], rows[|rows| - 1];
      NamesAreAsMany(init);
      OneMoreName(init, last);
      assert rows == init + [last];
    } else {
      assert Names(rows) == {};
    }
  }

  lemma OneMoreName(init: seq<Row>, last: Row)
    requires forall i :: 0 <= i < |init| ==> init[i].name != last.name
    ensures |Names(init + [last])| == |Names(init)| + 1
  {
    var rows := init + [last];
    assert rows[|init|] == last && forall i :: 0 <= i < |init| ==> rows[i] == init[i];
    forall n | n in Names(init) ensures n in Names(rows) {
      var i :| 0 <= i < |init| && init[i].name == n;
      assert rows[i].name == n;
    }
    assert rows[|init|].name in Names(rows);
    assert Names(rows) == Names(init) + {last.name};
  }

  /** Other actors cannot refill the set meanwhile: no store call made at or after
      the cutoff puts a row into it, as long as rows are detached or deferred to a
      time past the cutoff. */
  lemma NobodyRefills(cfg: Config, t: Tables, now: Time, c: Call, due: Time)
    requires BooksOk(cfg, t)
    requires c.CallDetach? || c.CallDefer? ==> due < c.due
    requires c.CallUpdate? ==> c.key != NONE
    ensures DueRunners(Perform(cfg, t, now, c).runners, due) <= DueRunners(t.runners, due)
  {
    hide Apply, Prepare, BooksOk, Adopt, AdoptedRecord, RememberRunnerId;
    KeysAreReal(cfg, t);
    if c.CallAdopt? { AdoptTakesOnly(t, now, c.key, c.token, c.names, due); }
    if c.CallRemember? { RememberingMovesNothing(t, c.name, c.runnerId, due); }
  }

  lemma AdoptTakesOnly(t: Tables, now: Time, key: Id, token: Id, names: seq<Id>, due: Time)
    requires NONE !in t.jobs
    ensures DueRunners(Result(t, Adopt(t, now, key, token, names)).runners, due) <= DueRunners(t.runners, due)
  {
    hide AdoptedRecord;
  }

  lemma RememberingMovesNothing(t: Tables, name: Id, id: Id, due: Time)
    ensures DueRunners(Result(t, RememberRunnerId(t, name, id)).runners, due) == DueRunners(t.runners, due)
  {
  }
}
