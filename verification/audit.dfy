/** The audit: the ledger against its counters and against the fleet that exists. */
module Audit {
  import opened Types
  import opened Transactions
  import opened Ledger
  import opened Protocol
  import opened Transitions
  import opened Standing
  import opened Counters
  import opened Invariant
  import opened Safety
  import opened Coverage
  import opened Revisions

  datatype Discrepancy =
    | Agreement
    | CounterDrift
    | NoReservation(name: Id)
    | ModelDiffers(name: Id)
    | MissingVm(name: Id)

  const CONFIRMED_FOR: Time := 5 * MINUTE

  /** Rows by name; of two rows with one name the later counts. */
  function Expected(rows: seq<Row>): map<Id, Row> {
    if rows == [] then map[]
    else Expected(rows[..|rows| - 1])[rows[|rows| - 1].name := rows[|rows| - 1]]
  }

  function StandardRows(rows: seq<Row>): nat {
    if rows == [] then 0
    else StandardRows(rows[..|rows| - 1]) + if rows[|rows| - 1].rec.gen.model == Standard then 1 else 0
  }

  predicate Drifted(counts: Fleet, rows: seq<Row>) {
    counts.runners != |rows| || counts.standard != StandardRows(rows)
  }

  predicate Unreserved(rows: seq<Row>, actual: map<Id, Provisioning>, n: Id) {
    n in actual && n !in Expected(rows)
  }

  predicate Mismatched(rows: seq<Row>, actual: map<Id, Provisioning>, n: Id) {
    n in actual && n in Expected(rows) && Expected(rows)[n].rec.gen.model != NoModel
        && Expected(rows)[n].rec.gen.model != actual[n]
  }

  predicate Absent(rows: seq<Row>, actual: map<Id, Provisioning>, now: Time, n: Id) {
    && n in Expected(rows) && n !in actual
    && Expected(rows)[n].rec.gen.createdAt != NEVER && now > Expected(rows)[n].rec.gen.createdAt + CONFIRMED_FOR
  }

  /** What ledgerDiscrepancy may report; which of several discrepancies of one kind
      it names depends on the order of a Go map. */
  ghost predicate Reports(counts: Fleet, rows: seq<Row>, actual: map<Id, Provisioning>, now: Time, d: Discrepancy) {
    match d
    case CounterDrift => Drifted(counts, rows)
    case NoReservation(n) => !Drifted(counts, rows) && Unreserved(rows, actual, n)
    case ModelDiffers(n) => !Drifted(counts, rows) && Mismatched(rows, actual, n)
    case MissingVm(n) =>
      && !Drifted(counts, rows) && (forall m :: m in actual ==>
          !Unreserved(rows, actual, m) && !Mismatched(rows, actual, m))
      && Absent(rows, actual, now, n)
    case Agreement =>
      && !Drifted(counts, rows)
      && (forall m :: m in actual ==> !Unreserved(rows, actual, m) && !Mismatched(rows, actual, m))
      && (forall m :: m in Expected(rows) ==> !Absent(rows, actual, now, m))
  }

  method LedgerDiscrepancy(counts: Fleet, rows: seq<Row>, actual: map<Id, Provisioning>, now: Time)
      returns (d: Discrepancy)
    ensures Reports(counts, rows, actual, now, d)
  {
    var expected: map<Id, Row> := map[];
    var standard := 0;
    for i := 0 to |rows|
      invariant expected == Expected(rows[..i]) && standard == StandardRows(rows[..i])
    {
      assert rows[..i + 1][..i] == rows[..i];
      expected := expected[rows[i].name := rows[i]];
      if rows[i].rec.gen.model == Standard { standard := standard + 1; }
    }
    assert rows[..|rows|] == rows;
    if counts.runners != |rows| || counts.standard != standard { return CounterDrift; }
    var names := actual.Keys;
    while names != {}
      invariant names <= actual.Keys
      invariant forall m :: m in actual.Keys - names ==> !Unreserved(rows, actual, m) && !Mismatched(rows, actual, m)
      decreases names
    {
      var n :| n in names;
      names := names - {n};
      if n !in expected { return NoReservation(n); }
      if expected[n].rec.gen.model != NoModel && expected[n].rec.gen.model != actual[n] { return ModelDiffers(n); }
    }
    names := expected.Keys;
    while names != {}
      invariant names <= expected.Keys
      invariant forall m :: m in expected.Keys - names ==> !Absent(rows, actual, now, m)
      decreases names
    {
      var n :| n in names;
      names := names - {n};
      var g := expected[n].rec.gen;
      if n !in actual && g.createdAt != NEVER && now > g.createdAt + CONFIRMED_FOR { return MissingVm(n); }
    }
    return Agreement;
  }

  /** How the audit reads a VM's provisioning model. */
  function ModelSeen(vm: Instance): Provisioning {
    if vm.model == Spot then Spot else Standard
  }

  /** The inventory auditFleet takes zone by zone; None when a listing failed. */
  method TakeInventory(zones: seq<Id>, list: Id -> Option<seq<Instance>>)
      returns (actual: Option<map<Id, Provisioning>>)
    ensures actual.None? <==> exists z :: z in zones && list(z).None?
    ensures actual.Some? ==> forall n :: n in actual.value ==>
        exists z, vm :: z in zones && ListedIn(list, z, vm) && vm.name == n && ModelSeen(vm) == actual.value[n]
    ensures actual.Some? ==> forall z, vm :: z in zones && ListedIn(list, z, vm) ==> vm.name in actual.value
  {
    var seen: map<Id, Provisioning> := map[];
    for i := 0 to |zones|
      invariant forall z :: z in zones[..i] ==> list(z).Some?
      invariant forall n :: n in seen ==>
                  exists z, vm :: z in zones && ListedIn(list, z, vm) && vm.name == n && ModelSeen(vm) == seen[n]
      invariant forall z, vm :: z in zones[..i] && ListedIn(list, z, vm) ==> vm.name in seen
    {
      var instances := list(zones[i]);
      if instances.None? { return None; }
      for j := 0 to |instances.value|
        invariant forall n :: n in seen ==>
                    exists z, vm :: z in zones && ListedIn(list, z, vm) && vm.name == n && ModelSeen(vm) == seen[n]
        invariant forall z, vm :: z in zones[..i] && ListedIn(list, z, vm) ==> vm.name in seen
        invariant forall k :: 0 <= k < j ==> instances.value[k].name in seen
      {
        assert ListedIn(list, zones[i], instances.value[j]);
        seen := seen[instances.value[j].name := ModelSeen(instances.value[j])];
      }
    }
    return Some(seen);
  }

  predicate ListedIn(list: Id -> Option<seq<Instance>>, zone: Id, vm: Instance) {
    list(zone).Some? && vm in list(zone).value
  }

  // ----- what it can find

  /** AuditSnapshot: all rows of one state, in any order. */
  ghost predicate IsSnapshot(t: Tables, rows: seq<Row>) {
    && (forall i :: 0 <= i < |rows| ==> rows[i].name in t.runners && t.runners[rows[i].name] == rows[i])
    && (forall i, j :: 0 <= i < j < |rows| ==> rows[i].name != rows[j].name)
    && (forall n :: n in t.runners ==> exists i :: 0 <= i < |rows| && rows[i].name == n)
  }

  ghost predicate IsPart(t: Tables, rows: seq<Row>, names: set<Id>) {
    && (forall i :: 0 <= i < |rows| ==> rows[i].name in t.runners && t.runners[rows[i].name] == rows[i])
    && (forall i, j :: 0 <= i < j < |rows| ==> rows[i].name != rows[j].name)
    && (forall n :: n in names <==> exists i :: 0 <= i < |rows| && rows[i].name == n)
  }

  lemma PartInit(t: Tables, rows: seq<Row>, names: set<Id>)
    requires IsPart(t, rows, names) && rows != []
    ensures var last := rows[|rows| - 1].name;
            IsPart(t, rows[..|rows| - 1], names - {last}) && last in names && last in t.runners
                && t.runners[last] == rows[|rows| - 1]
  {
    var init, last := rows[..|rows| - 1], rows[|rows| - 1];
    assert forall i :: 0 <= i < |init| ==> init[i] == rows[i];
    forall n ensures n in names - {last.name} <==> exists i :: 0 <= i < |init| && init[i].name == n {
      if n in names - {last.name} {
        var i :| 0 <= i < |rows| && rows[i].name == n;
        assert init[i].name == n;
      }
      if i :| 0 <= i < |init| && init[i].name == n {
        assert rows[i].name == n;
      }
    }
    assert rows[|rows| - 1].name == last.name;
  }

  function StandardAmong(t: Tables, names: set<Id>): set<Id> {
    set n | n in names && IsStandard(t.runners, n)
  }

  lemma OneMoreStandard(t: Tables, names: set<Id>, n: Id)
    requires n in names
    ensures StandardAmong(t, names)
         == StandardAmong(t, names - {n}) + if IsStandard(t.runners, n) then {n} else {}
    ensures |StandardAmong(t, names)| == |StandardAmong(t, names - {n})| + One(IsStandard(t.runners, n))
    ensures |names| == |names - {n}| + 1
  {
    SizeWith(StandardAmong(t, names - {n}), n);
    SizeWith(names, n);
  }

  lemma {:induction false} PartCounts(t: Tables, rows: seq<Row>, names: set<Id>)
    requires IsPart(t, rows, names)
    ensures Expected(rows).Keys == names && |names| == |rows|
    ensures forall n :: n in names ==> n in t.runners && Expected(rows)[n] == t.runners[n]
    ensures StandardRows(rows) == |StandardAmong(t, names)|
  {
    if rows == [] {
      assert names == {} && StandardAmong(t, names) == {};
    } else {
      var last := rows[|rows| - 1].name;
      PartInit(t, rows, names);
      PartCounts(t, rows[..|rows| - 1], names - {last});
      OneMoreStandard(t, names, last);
    }
  }

  /** On a consistent snapshot the drift branch fires exactly when counters and
      ledger disagree. */
  lemma DriftIsCounted(t: Tables, rows: seq<Row>)
    requires IsSnapshot(t, rows)
    ensures Drifted(t.fleet, rows) <==> !Counted(t)
    ensures Expected(rows) == t.runners
  {
    PartCounts(t, rows, t.runners.Keys);
    assert StandardAmong(t, t.runners.Keys) == StandardNames(t.runners);
  }

  /** The VM was there at some time between the two snapshots. */
  ghost predicate SeenBetween(run: seq<System>, i: nat, j: nat, n: Id, model: Provisioning) {
    exists m: nat, vm :: i <= m <= j && vm in StateAt(run, m).cloud.vms && vm.name == n && ModelSeen(vm) == model
  }

  /** A VM runs under its row's model. */
  lemma RowModel(cfg: Config, s: System, vm: Instance)
    requires Inv(cfg, s) && vm in s.cloud.vms && vm.name in s.t.runners
    ensures RowOf(s.t, vm.name).rec.gen.model == vm.model != NoModel
  {
    hide AllStand, MemoryOk, WorkerFits, UniqueOpen;
    assert RowFits(s.cloud, vm.name, s.t.runners[vm.name].rec.gen, s.t.runners[vm.name].owner == NONE);
  }

  /** A VM seen between equal revisions that is in the first snapshot has there a model
      that agrees with what was seen, or none saved yet. */
  lemma SeenIsBooked(cfg: Config, run: seq<System>, acts: seq<Action>, i: nat, j: nat, n: Id, model: Provisioning)
    requires IsRun(cfg, run, acts) && i <= j < |run| && SeenBetween(run, i, j, n, model)
    requires StateAt(run, i).t.fleet.revision == StateAt(run, j).t.fleet.revision
    ensures IsPatientRun(cfg, run, acts) ==> n in StateAt(run, i).t.runners
    ensures var t := StateAt(run, i).t;
            n in t.runners && RowOf(t, n).rec.gen.model != NoModel ==> RowOf(t, n).rec.gen.model == model
  {
    hide Inv, IsRun;
    var m: nat, vm :| i <= m <= j && vm in StateAt(run, m).cloud.vms && vm.name == n && ModelSeen(vm) == model;
    RevisionIsAbaFree(cfg, run, acts, i, m, j);
    var t, t2 := StateAt(run, i).t, StateAt(run, m).t;
    assert n in t.runners.Keys <==> n in t2.runners.Keys;
    assert n in StandardNames(t2.runners) <==> n in StandardNames(t.runners);
    if IsPatientRun(cfg, run, acts) { NoVmIsUncounted(cfg, run, acts, m); }
    if n in t2.runners {
      RunKeeps(cfg, run, acts, m);
      RowModel(cfg, StateAt(run, m), vm);
    }
  }

  /** The inventory was taken meanwhile. */
  ghost predicate AllSeen(run: seq<System>, i: nat, j: nat, actual: map<Id, Provisioning>) {
    forall n :: n in actual ==> SeenBetween(run, i, j, n, actual[n])
  }

  /** The alarms that would mean broken books never go off: with an inventory taken
      between two snapshots of one revision, whatever moved meanwhile, the audit never
      finds another model, and neither drifted counters where finishTask asks before it
      gives back, nor a VM without a reservation where the age rule is patient.  What is
      left is agreement, or a confirmed runner that is no longer there. */
  lemma AuditOnlyMissesVms(cfg: Config, run: seq<System>, acts: seq<Action>, i: nat, j: nat,
                           rows: seq<Row>, actual: map<Id, Provisioning>, now: Time, d: Discrepancy)
    requires IsRun(cfg, run, acts) && i <= j < |run|
    requires StateAt(run, i).t.fleet.revision == StateAt(run, j).t.fleet.revision
    requires IsSnapshot(StateAt(run, i).t, rows)
    requires AllSeen(run, i, j, actual)
    requires Reports(StateAt(run, i).t.fleet, rows, actual, now, d)
    ensures !d.ModelDiffers?
    ensures IsCheckedRun(cfg, run, acts) ==> !d.CounterDrift?
    ensures IsPatientRun(cfg, run, acts) ==> !d.NoReservation?
  {
    hide IsRun, IsPatientRun, IsCheckedRun, IsSnapshot, SeenBetween;
    var t := StateAt(run, i).t;
    DriftIsCounted(t, rows);
    if IsCheckedRun(cfg, run, acts) { BooksBalance(cfg, run, acts, i); }
    forall n | n in actual
      ensures !Mismatched(rows, actual, n) && (IsPatientRun(cfg, run, acts) ==> !Unreserved(rows, actual, n))
    {
      SeenIsBooked(cfg, run, acts, i, j, n, actual[n]);
    }
  }

  lemma BooksBalance(cfg: Config, run: seq<System>, acts: seq<Action>, i: nat)
    requires IsCheckedRun(cfg, run, acts) && i < |run|
    ensures Counted(StateAt(run, i).t)
  {
    hide IsRun;
    RunReckons(cfg, run, acts, i);
  }
}
