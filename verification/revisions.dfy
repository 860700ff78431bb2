/** The fleet revision names one state of the ledger. */
module Revisions {
  import opened Types
  import opened Records
  import opened Transactions
  import opened Ledger
  import opened Protocol
  import opened Transitions
  import opened Standing

  /** The generations reserved, and which of them are standard. */
  ghost predicate SameCapacity(t: Tables, t2: Tables) {
    t2.runners.Keys == t.runners.Keys && StandardNames(t2.runners) == StandardNames(t.runners)
  }

  /** A callback that leaves the counters alone moves no name and no model. */
  lemma UncountedChange(c: Change, cfg: Config, now: Time, r: Record, f: Fleet)
    ensures var o := Apply(c, cfg, now, r, f);
            o.Accept? ==>
              && o.f.revision == f.revision
              && (o.f == f ==>
                    o.r.gen.vm == r.gen.vm
                    && (r.gen.vm != NONE ==> StandardCount(o.r.gen.model) == StandardCount(r.gen.model)))
  {
  }

  lemma PutSame(rows: map<Id, Row>, n: Id, row: Row)
    requires n in rows && (row.rec.gen.model == Standard <==> IsStandard(rows, n))
    ensures rows[n := row].Keys == rows.Keys && StandardNames(rows[n := row]) == StandardNames(rows)
  {
    forall m ensures IsStandard(rows[n := row], m) == IsStandard(rows, m) {}
  }

  lemma UpdateRevision(cfg: Config, t: Tables, now: Time, key: Id, capacity: bool, c: Change)
    requires BooksOk(cfg, t) && Update(t, cfg, now, key, capacity, c).Committed?
    ensures var t2 := Update(t, cfg, now, key, capacity, c).t;
            && t.fleet.revision <= t2.fleet.revision
            && (t2.fleet.revision == t.fleet.revision ==> SameCapacity(t, t2))
  {
    hide Apply, Prepare, BooksOk;
    var r := Load(t, key);
    var counts := if capacity then t.fleet else Fleet(0, 0, 0);
    var o := Apply(c, cfg, now, r, counts);
    LoadFiled(cfg, t, key);
    UncountedChange(c, cfg, now, r, counts);
    if o.f == counts && r.gen.vm != NONE {
      var r2 := Prepare(o.r, now);
      PrepareKeepsClaim(o.r, now);
      OwnershipIsBijective(cfg, t, key, r.gen.vm);
      PutSame(t.runners, r.gen.vm, OwnerRow(key, r2));
    } else {
      PrepareKeepsClaim(o.r, now);
    }
  }

  /** Detach and Adopt swap owners without a word to the revision; they may,
      because the row keeps its name and its model. */
  lemma CallRevision(cfg: Config, t: Tables, now: Time, c: Call)
    requires BooksOk(cfg, t) && now > NEVER && Lawful(cfg, t, now, c)
    ensures var t2 := Perform(cfg, t, now, c);
            && t.fleet.revision <= t2.fleet.revision
            && (t2.fleet.revision == t.fleet.revision ==> SameCapacity(t, t2))
  {
    hide BooksOk, Update, Detach, Adopt, RememberRunnerId, Admissible, RecordOk, Filed, NoStray, Unburdened,
      StandardNames;
    match c {
      case NoCall =>
      case CallUpdate(key, capacity, change) =>
        if Update(t, cfg, now, key, capacity, change).Committed? {
          UpdateRevision(cfg, t, now, key, capacity, change);
        }
      case CallDetach(key, token, spare, due) =>
        if Detach(t, now, key, token, spare, due).Committed? {
          DetachKeepsBooks(cfg, t, now, key, token, spare, due);
          Detached(cfg, t, now, key, token, spare, due);
        }
      case CallAdopt(key, token, names) =>
        if Adopt(t, now, key, token, names).Committed? {
          AdoptKeepsBooks(cfg, t, now, key, token, names);
          Adopted(cfg, t, now, key, token, names);
        }
      case CallDefer(name, due, available) => DeferKeepsBooks(cfg, t, name, due, available);
      case CallRelease(name) =>
      case CallRemember(name, id) =>
        if RememberRunnerId(t, name, id).Committed? {
          RememberKeepsBooks(cfg, t, name, id);
          Remembered(cfg, t, name, id);
        }
      case CallAssign(key, name, job) =>
        if RecordAssignment(t, now, key, name, job).Committed? { AssignmentKeepsBooks(cfg, t, now, key, name, job); }
    }
  }

  lemma StepRevision(cfg: Config, s: System, a: Action)
    requires AllStand(cfg, s) && Enabled(cfg, s, a)
    ensures var t2 := Step(cfg, s, a).t;
            && s.t.fleet.revision <= t2.fleet.revision
            && (t2.fleet.revision == s.t.fleet.revision ==> SameCapacity(s.t, t2))
  {
    hide AllStand, Enabled, Step, CallOf, Perform, BooksOk, Lawful;
    BooksStand(cfg, s);
    StepCalls(cfg, s, a);
    StepLawful(cfg, s, a);
    CallRevision(cfg, s.t, s.now, CallOf(cfg, s, a));
  }

  lemma {:induction false} RevisionGrows(cfg: Config, run: seq<System>, acts: seq<Action>, i: nat, j: nat)
    requires IsRun(cfg, run, acts) && i <= j < |run|
    ensures StateAt(run, i).t.fleet.revision <= StateAt(run, j).t.fleet.revision
  {
    hide AllStand, Enabled, Step;
    if i < j {
      RevisionGrows(cfg, run, acts, i, j - 1);
      RunStands(cfg, run, acts, j - 1);
      StepRevision(cfg, StateAt(run, j - 1), ActionAt(acts, j - 1));
    }
  }

  /** The revision is ABA-free: two snapshots of a run with one revision show the
      same reservations and the same standard generations, and so does every state
      between them, although owners may have changed meanwhile. */
  lemma {:induction false} RevisionIsAbaFree(cfg: Config, run: seq<System>, acts: seq<Action>, i: nat, m: nat, j: nat)
    requires IsRun(cfg, run, acts) && i <= m <= j < |run|
    requires StateAt(run, i).t.fleet.revision == StateAt(run, j).t.fleet.revision
    ensures SameCapacity(StateAt(run, i).t, StateAt(run, m).t)
  {
    hide AllStand, Enabled, Step;
    RevisionGrows(cfg, run, acts, i, m);
    RevisionGrows(cfg, run, acts, m, j);
    if i < m {
      RevisionIsAbaFree(cfg, run, acts, i, m - 1, j);
      RevisionGrows(cfg, run, acts, i, m - 1);
      RevisionGrows(cfg, run, acts, m - 1, m);
      RunStands(cfg, run, acts, m - 1);
      StepRevision(cfg, StateAt(run, m - 1), ActionAt(acts, m - 1));
    }
  }
}
