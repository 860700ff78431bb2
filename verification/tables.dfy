/** The store's transactions, each as one atomic function of the four collections. */
module Transactions {
  import opened Types
  import opened Records

  /** An aborted transaction leaves the collections as they were. */
  datatype Tx = Committed(t: Tables) | Aborted(t: Tables, err: Failure)

  function EmptyTables(): Tables {
    Tables(map[], map[], Fleet(0, 0, 0), map[])
  }

  function Load(t: Tables, key: Id): Record {
    if key in t.jobs then t.jobs[key] else BlankRecord()
  }

  function RowOf(t: Tables, name: Id): Row {
    if name in t.runners then t.runners[name] else Row(name, NONE, Pool(NONE, NONE, NONE), false, NEVER, BlankRecord())
  }

  function OwnerRow(key: Id, r: Record): Row {
    Row(r.gen.vm, key, PoolOf(r.source, r.job), false, NEVER, r)
  }

  /** The ledger after an owner's record changed from r to r2. */
  function Mirror(runners: map<Id, Row>, key: Id, capacity: bool, r: Record, r2: Record): map<Id, Row> {
    var kept := if capacity && r.gen.vm != NONE && r.gen.vm != r2.gen.vm then runners - {r.gen.vm} else runners;
    if r2.gen.vm != NONE then kept[r2.gen.vm := OwnerRow(key, r2)] else kept
  }

  function Bumped(before: Fleet, after: Fleet): Fleet {
    if after != before then after.(revision := after.revision + 1) else before
  }

  /** Update (capacity) and UpdateJob (not capacity): a job-only transaction never
      reads the fleet document and may not change it. */
  function Update(t: Tables, cfg: Config, now: Time, key: Id, capacity: bool, c: Change): Tx {
    var r := Load(t, key);
    var counts := if capacity then t.fleet else Fleet(0, 0, 0);
    match Apply(c, cfg, now, r, counts)
    case Reject(_, _, e) => Aborted(t, e)
    case Accept(r1, f1) =>
      if f1 != counts && !capacity then Aborted(t, JobOnlyChangedCapacity)
      else
        var r2 := Prepare(r1, now);
        Committed(t.(jobs := t.jobs[key := r2],
                     runners := Mirror(t.runners, key, capacity, r, r2),
                     fleet := if capacity then Bumped(counts, f1) else t.fleet))
  }

  predicate LeaseHeld(r: Record, token: Id, now: Time) {
    r.lease.holder == token && now <= r.lease.until
  }

  function Detach(t: Tables, now: Time, key: Id, token: Id, spare: bool, due: Time): Tx {
    if key !in t.jobs then Aborted(t, NotFound)
    else
      var r := t.jobs[key];
      if !LeaseHeld(r, token, now) then Aborted(t, LeaseBusy)
      else if r.gen.vm == NONE then Committed(t)
      else
        var n := r.gen.vm;
        var row := Row(n, NONE, PoolOf(r.source, r.job), spare && n !in t.evidence, due, r);
        var r2 := Prepare(Unclaimed(r, now).(nextActionAt := now + 30), now);
        Committed(t.(jobs := t.jobs[key := r2], runners := t.runners[n := row]))
  }

  const CANDIDATES: nat := 8

  /** What the pool query may answer: at most CANDIDATES distinct advertised rows. */
  ghost predicate IsCandidateList(t: Tables, pool: Pool, names: seq<Id>) {
    && |names| <= CANDIDATES
    && (forall i, j :: 0 <= i < j < |names| ==> names[i] != names[j])
    && (forall i :: 0 <= i < |names| ==>
          names[i] in t.runners && t.runners[names[i]].available && t.runners[names[i]].pool == pool)
    && (|names| < CANDIDATES ==>
          forall n :: n in t.runners && t.runners[n].available && t.runners[n].pool == pool ==> n in names)
  }

  function FirstFree(evidence: map<Id, Evidence>, names: seq<Id>): (n: Option<Id>)
    ensures n.Some? ==> n.value in names && n.value !in evidence
    ensures n.None? ==> forall m :: m in names ==> m in evidence
  {
    if names == [] then None
    else if names[0] !in evidence then Some(names[0])
    else FirstFree(evidence, names[1..])
  }

  /** Candidates assigned since they were advertised leave the pool. */
  function Withdrawn(t: Tables, names: seq<Id>): map<Id, Row> {
    map n | n in t.runners ::
      if n in names && n in t.evidence then t.runners[n].(available := false) else t.runners[n]
  }

  /** The adopter keeps its own demand, lease and dispatch; the rest comes from
      the runner's record. */
  function AdoptedRecord(r: Record, from: Record, now: Time): Record {
    Prepare(from.(job := r.job, source := r.source, lease := r.lease, seenAt := r.seenAt, terminal := false,
                  pendingDelete := NONE, dispatch := r.dispatch, failure := NONE, nextActionAt := now), now)
  }

  function Adopt(t: Tables, now: Time, key: Id, token: Id, names: seq<Id>): Tx {
    if key !in t.jobs then Aborted(t, NotFound)
    else
      var r := t.jobs[key];
      if !LeaseHeld(r, token, now) then Aborted(t, LeaseBusy)
      else if r.terminal || r.gen.vm != NONE then Committed(t)
      else
        var rows := Withdrawn(t, names);
        match FirstFree(t.evidence, names)
        case None => Committed(t.(runners := rows))
        case Some(n) =>
          var r2 := AdoptedRecord(r, RowOf(t, n).rec, now);
          var row := RowOf(t, n).(owner := key, available := false, rec := r2);
          Committed(t.(jobs := t.jobs[key := r2], runners := rows[n := row]))
  }

  function DeferRunner(t: Tables, name: Id, due: Time, available: bool): Tables {
    if name !in t.runners || t.runners[name].owner != NONE then t
    else
      var row := t.runners[name];
      t.(runners := t.runners[name := row.(nextActionAt := due,
                                           available := available && !row.rec.terminal && name !in t.evidence)])
  }

  function ReleaseRunner(t: Tables, name: Id): Tables {
    if name !in t.runners || t.runners[name].owner != NONE then t
    else
      t.(runners := t.runners - {name},
         fleet := Fleet(t.fleet.runners - 1,
                        t.fleet.standard - StandardCount(t.runners[name].rec.gen.model),
                        t.fleet.revision + 1))
  }

  function RememberRunnerId(t: Tables, name: Id, id: Id): Tx {
    if name !in t.runners then Committed(t)
    else
      var row := t.runners[name];
      var row2 := row.(rec := row.rec.(runnerId := id));
      if row.owner == NONE then Committed(t.(runners := t.runners[name := row2]))
      else if row.owner !in t.jobs then Aborted(t, NotFound)
      else
        var r := t.jobs[row.owner];
        if r.gen.vm != name then Aborted(t, OwnerDisagrees)
        else Committed(t.(jobs := t.jobs[row.owner := r.(runnerId := id)], runners := t.runners[name := row2]))
  }

  /** The evidence a delivery for job key leaves behind. */
  function EvidenceFor(t: Tables, now: Time, key: Id, name: Id, job: Job): Evidence
    requires key in t.jobs
  {
    var done := t.jobs[key].terminal || (name in t.evidence && t.evidence[name].job.status == Completed);
    var kept := if done then job.(status := Completed) else job;
    Evidence(key, kept, if kept.status == Completed then now + WEEK else NEVER)
  }

  function RecordAssignment(t: Tables, now: Time, key: Id, name: Id, job: Job): Tx {
    if key !in t.jobs then Aborted(t, NotFound)
    else if name in t.evidence && t.evidence[name].jobKey != key then
      if job.status == Completed then Committed(t) else Aborted(t, ConflictingEvidence)
    else
      var e := EvidenceFor(t, now, key, name, job);
      Committed(t.(
        runners := if name in t.runners then t.runners[name := t.runners[name].(available := false)] else t.runners,
        evidence := t.evidence[name := e]))
  }
}
