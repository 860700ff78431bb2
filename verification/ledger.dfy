/** The capacity ledger's invariant, kept by every transaction. */
module Ledger {
  import opened Types
  import opened Records
  import opened Transactions

  predicate IsStandard(rows: map<Id, Row>, n: Id) {
    n in rows && rows[n].rec.gen.model == Standard
  }

  function StandardNames(rows: map<Id, Row>): set<Id> {
    set n | n in rows && IsStandard(rows, n)
  }

  ghost predicate Named(t: Tables) {
    forall n :: n in t.runners ==> n != NONE && t.runners[n].name == n && t.runners[n].rec.gen.vm == n
  }

  /** An owned row is an exact copy of its owner's record, which holds it. */
  ghost predicate Mirrored(t: Tables) {
    forall n :: n in t.runners && t.runners[n].owner != NONE ==>
      t.runners[n].owner in t.jobs && t.jobs[t.runners[n].owner] == t.runners[n].rec
  }

  /** A claimed generation has a row, owned by the claimant. */
  ghost predicate Claimed(t: Tables) {
    forall k :: k in t.jobs && t.jobs[k].gen.vm != NONE ==>
      t.jobs[k].gen.vm in t.runners && t.runners[t.jobs[k].gen.vm].owner == k
  }

  ghost predicate Keyed(t: Tables) {
    NONE !in t.jobs
  }

  ghost predicate Counted(t: Tables) {
    t.fleet.runners == |t.runners| && t.fleet.standard == |StandardNames(t.runners)|
  }

  /** A runner is advertised only while detached and without assignment evidence. */
  ghost predicate Advertised(t: Tables) {
    forall n :: n in t.runners && t.runners[n].available ==> t.runners[n].owner == NONE && n !in t.evidence
  }

  ghost predicate Filings(t: Tables) {
    forall k :: k in t.jobs ==> Filed(t.jobs[k])
  }

  ghost predicate RowsCounted(cfg: Config, t: Tables) {
    t.fleet.runners == |t.runners| && t.fleet.runners <= cfg.maxRunners
  }

  /** Nothing on demand, saved or reserved. */
  ghost predicate SpotOnly(t: Tables) {
    && (forall k :: k in t.jobs ==> t.jobs[k].gen.model != Standard)
    && (forall n :: n in t.runners ==> t.runners[n].rec.gen.model != Standard)
  }

  /** What holds of the collections in every run. */
  ghost predicate BooksOk(cfg: Config, t: Tables) {
    && Named(t) && Mirrored(t) && Claimed(t) && Keyed(t) && Advertised(t) && Filings(t)
    && RowsCounted(cfg, t)
    && (!cfg.allowStandard ==> SpotOnly(t))
  }

  ghost predicate StandardCounted(cfg: Config, t: Tables) {
    t.fleet.standard == |StandardNames(t.runners)| && t.fleet.standard <= cfg.maxStandard
  }

  /** No record without a VM carries a standard attempt. */
  ghost predicate NoStray(t: Tables) {
    forall k :: k in t.jobs && t.jobs[k].gen.vm == NONE ==> t.jobs[k].gen.model != Standard
  }

  /** The second counter is right, and will stay right. */
  ghost predicate Tallied(cfg: Config, t: Tables) {
    StandardCounted(cfg, t) && NoStray(t)
  }

  ghost predicate Unburdened(t: Tables) {
    forall k :: k in t.jobs ==> Sane(t.jobs[k])
  }

  /** What every transaction keeps whose caller keeps to its terms. */
  ghost predicate LedgerOk(cfg: Config, t: Tables) {
    BooksOk(cfg, t) && StandardCounted(cfg, t) && Unburdened(t)
  }

  // ----- consequences

  /** Every document has a key, and every claim a row. */
  lemma KeysAreReal(cfg: Config, t: Tables)
    requires BooksOk(cfg, t)
    ensures NONE !in t.jobs && NONE !in t.runners
    ensures forall k :: k in t.jobs && t.jobs[k].gen.vm != NONE ==> t.jobs[k].gen.vm in t.runners
    ensures forall n :: n in t.runners ==> t.runners[n].rec.gen.vm == n
    ensures forall n :: n in t.runners && t.runners[n].owner != NONE ==> t.runners[n].owner in t.jobs
  {
  }

  /** Claims and owned rows are the two directions of one partial bijection, and
      the row carries the claimant's record unchanged. */
  lemma OwnershipIsBijective(cfg: Config, t: Tables, k: Id, n: Id)
    requires BooksOk(cfg, t) && k in t.jobs && n != NONE
    ensures t.jobs[k].gen.vm == n <==> n in t.runners && t.runners[n].owner == k
    ensures t.jobs[k].gen.vm == n ==> t.runners[n].rec == t.jobs[k]
  {
    assert k != NONE;
    if n in t.runners && t.runners[n].owner == k {
      assert t.jobs[t.runners[n].owner] == t.runners[n].rec;
    }
  }

  lemma BooksInLedger(cfg: Config, t: Tables)
    requires LedgerOk(cfg, t)
    ensures BooksOk(cfg, t) && Tallied(cfg, t) && Unburdened(t)
  {
  }

  lemma SubsetSize<T>(a: set<T>, b: set<T>)
    requires a <= b
    ensures |a| <= |b|
    ensures |a| == |b| ==> a == b
  {
    assert b == a + (b - a);
    assert |b| == |a| + |b - a|;
  }

  lemma NothingStandard(rows: map<Id, Row>)
    requires forall n :: n in rows ==> rows[n].rec.gen.model != Standard
    ensures StandardNames(rows) == {}
  {
  }

  /** The counters are never negative, nested, and inside the configured limits. */
  lemma CountersInRange(cfg: Config, t: Tables)
    requires BooksOk(cfg, t) && StandardCounted(cfg, t)
    ensures 0 <= t.fleet.standard <= t.fleet.runners <= cfg.maxRunners
    ensures t.fleet.standard <= cfg.maxStandard
    ensures !cfg.allowStandard ==> t.fleet.standard == 0
  {
    assert StandardNames(t.runners) <= t.runners.Keys;
    SubsetSize(StandardNames(t.runners), t.runners.Keys);
    if !cfg.allowStandard { NothingStandard(t.runners); }
  }

  // ----- counting a changed ledger

  function One(b: bool): int { if b then 1 else 0 }

  lemma SizeWith(s: set<Id>, n: Id)
    ensures |s + {n}| == |s| + One(n !in s)
    ensures |s - {n}| == |s| - One(n in s)
  {
    if n in s {
      assert s + {n} == s;
      assert s == (s - {n}) + {n};
    } else {
      assert s - {n} == s;
    }
  }

  lemma StandardPut(rows: map<Id, Row>, n: Id, row: Row)
    ensures StandardNames(rows[n := row])
         == StandardNames(rows) - {n} + if row.rec.gen.model == Standard then {n} else {}
  {
    forall m ensures IsStandard(rows[n := row], m)
                 == if m == n then row.rec.gen.model == Standard else IsStandard(rows, m) {}
  }

  lemma CountPut(rows: map<Id, Row>, n: Id, row: Row)
    ensures |rows[n := row]| == |rows| + One(n !in rows)
    ensures |StandardNames(rows[n := row])|
         == |StandardNames(rows)| - One(IsStandard(rows, n)) + One(row.rec.gen.model == Standard)
  {
    StandardPut(rows, n, row);
    assert rows[n := row].Keys == rows.Keys + {n};
    SizeWith(rows.Keys, n);
    SizeWith(StandardNames(rows), n);
    SizeWith(StandardNames(rows) - {n}, n);
    assert n in StandardNames(rows) <==> IsStandard(rows, n);
  }

  lemma CountDrop(rows: map<Id, Row>, n: Id)
    requires n in rows
    ensures |rows - {n}| == |rows| - 1
    ensures |StandardNames(rows - {n})| == |StandardNames(rows)| - One(IsStandard(rows, n))
  {
    var rows2 := rows - {n};
    assert rows2.Keys == rows.Keys - {n};
    assert StandardNames(rows2) == StandardNames(rows) - {n};
    SizeWith(StandardNames(rows), n);
  }

  // ----- Update and UpdateJob

  /** What a callback may do to a claim and the counters.  Scribble: it writes claim
      fields into a record that holds no VM. */
  datatype Effect = Keep | Edit | Take(name: Id) | Give | Scribble

  predicate HasEffect(e: Effect, r: Record, f: Fleet, r1: Record, f1: Fleet) {
    match e
    case Keep => r1.gen == r.gen && f1 == f
    case Edit =>
      && r.gen.vm != NONE && r1.gen.vm == r.gen.vm
      && f1 == f.(standard := f.standard + StandardCount(r1.gen.model) - StandardCount(r.gen.model))
    case Take(name) =>
      && r.gen.vm == NONE && r1.gen == r.gen.(vm := name)
      && name != NONE && f1 == f.(runners := f.runners + 1)
    case Give =>
      && r.gen.vm != NONE && r1.gen == NoGeneration(r.gen.machine)
      && f1 == f.(runners := f.runners - 1, standard := f.standard - StandardCount(r.gen.model))
    case Scribble =>
      r.gen.vm == NONE && r1.gen.vm == NONE && f1 == f.(standard := f1.standard)
  }

  /** Which effect each callback has when it is accepted. */
  function EffectOf(c: Change, cfg: Config, now: Time, r: Record): Effect {
    if WritesClaim(c) || c.ForgetAttempt? then (if r.gen.vm != NONE then Edit else Scribble)
    else match c
      case ReleaseClaim(_) => if r.gen.vm != NONE then Give else Scribble
      case Reserve(_, name) => if r.terminal then Keep else Take(name)
      case Finish(_, err) => if Releases(c, r) then Give else Keep
      case DeleteDone(n) => if r.gen.vm != n then Keep else if n != NONE then Give else Scribble
      case _ => Keep
  }

  /** The branch of finishTask that gives a reservation back. */
  predicate Releases(c: Change, r: Record) {
    && c.Finish? && c.err.Permanent?
    && (c.token == NONE || c.token == r.dispatch.token)
    && r.gen.zone == NONE && r.gen.vm != NONE
  }

  /** Only a lease holder's callbacks take or edit a claim. */
  lemma EffectKinds(c: Change, cfg: Config, now: Time, r: Record)
    ensures var e := EffectOf(c, cfg, now, r);
            && (e.Edit? || e.Take? ==> NeedsFence(c))
            && (e.Scribble? ==> !c.Reserve? && (NeedsFence(c) || (c.DeleteDone? && c.name == NONE)))
            && (e.Take? ==> c.Reserve? && e.name == c.name)
            && (e.Give? ==> c.ReleaseClaim? || c.DeleteDone? || (c.Finish? && c.err.Permanent?))
  {
  }

  lemma ApplyEffect(c: Change, cfg: Config, now: Time, r: Record, f: Fleet)
    requires c.Reserve? ==> r.gen.vm == NONE && c.name != NONE
    ensures var o := Apply(c, cfg, now, r, f);
            o.Accept? ==> HasEffect(EffectOf(c, cfg, now, r), r, f, o.r, o.f)
  {
  }

  /** What any caller of the store owes: a reservation is made under a fresh name
      for a job that has none, and nothing is saved on demand where it is off. */
  ghost predicate Admissible(cfg: Config, t: Tables, key: Id, c: Change) {
    && key != NONE
    && (c.Reserve? ==> Load(t, key).gen.vm == NONE && c.name != NONE && c.name !in t.runners)
    && (c.SaveAttempt? && c.attempt.model == Standard ==> cfg.allowStandard)
  }

  /** What the callbacks that write a claim rely on besides: that there is one. */
  ghost predicate Permitted(cfg: Config, t: Tables, key: Id, c: Change) {
    Admissible(cfg, t, key, c) && (WritesClaim(c) ==> Load(t, key).gen.vm != NONE)
  }

  lemma LoadFiled(cfg: Config, t: Tables, key: Id)
    requires BooksOk(cfg, t)
    ensures Filed(Load(t, key)) || Load(t, key) == BlankRecord()
    ensures Load(t, key).gen.vm != NONE ==> key in t.jobs
  {
  }

  lemma LoadOk(cfg: Config, t: Tables, key: Id)
    requires LedgerOk(cfg, t)
    ensures Sane(Load(t, key)) && (RecordOk(Load(t, key)) || Load(t, key) == BlankRecord())
    ensures Load(t, key).gen.vm != NONE ==> key in t.jobs
  {
  }

  /** Unpacks a committed update: the record, the effect on the claim, the ledger. */
  lemma UpdateParts(cfg: Config, t: Tables, now: Time, key: Id, capacity: bool, c: Change)
    returns (r2: Record, e: Effect)
    requires BooksOk(cfg, t) && now > NEVER && Admissible(cfg, t, key, c)
    requires Update(t, cfg, now, key, capacity, c).Committed?
    ensures e == EffectOf(c, cfg, now, Load(t, key))
    ensures Filed(r2)
    ensures
      var r := Load(t, key);
      var t2 := Update(t, cfg, now, key, capacity, c).t;
      && t2.jobs == t.jobs[key := r2]
      && t2.runners == Mirror(t.runners, key, capacity, r, r2)
      && t2.evidence == t.evidence
      && HasEffect(e, r, t.fleet.(revision := 0), r2, t2.fleet.(revision := 0))
      && (!capacity ==> t2.fleet == t.fleet)
  {
    hide Apply, EffectOf, BooksOk, Mirror, Prepare;
    var r := Load(t, key);
    LoadFiled(cfg, t, key);
    var counts := if capacity then t.fleet else Fleet(0, 0, 0);
    var o := Apply(c, cfg, now, r, counts);
    ApplyEffect(c, cfg, now, r, counts);
    ApplyFiles(c, cfg, now, r, counts);
    PrepareKeepsClaim(o.r, now);
    r2 := Prepare(o.r, now);
    e := EffectOf(c, cfg, now, r);
  }

  /** The rows after an update: the updated job's own row, and every row of
      somebody else, untouched. */
  lemma RowsAfterUpdate(cfg: Config, t: Tables, now: Time, key: Id, capacity: bool, c: Change, n: Id)
    requires BooksOk(cfg, t) && now > NEVER && Admissible(cfg, t, key, c)
    requires Update(t, cfg, now, key, capacity, c).Committed?
    ensures
      var t2 := Update(t, cfg, now, key, capacity, c).t;
      && key in t2.jobs && Filed(t2.jobs[key])
      && t2.jobs == t.jobs[key := t2.jobs[key]]
      && t2.evidence == t.evidence
      && (n in t2.runners <==> if n == t2.jobs[key].gen.vm then n != NONE
                              else n in t.runners && t.runners[n].owner != key)
      && (n in t2.runners ==> t2.runners[n] == if n == t2.jobs[key].gen.vm then OwnerRow(key, t2.jobs[key])
          else t.runners[n])
      && (n in t2.runners && n == t2.jobs[key].gen.vm && n in t.runners ==> t.runners[n].owner == key)
  {
    hide EffectOf, Update;
    var r := Load(t, key);
    var r2, e := UpdateParts(cfg, t, now, key, capacity, c);
    LoadFiled(cfg, t, key);
    EffectKinds(c, cfg, now, r);
    if n in t.runners && t.runners[n].owner == key {
      assert t.runners[n].rec == t.jobs[key];
    }
  }

  lemma UpdateKeepsLinks(cfg: Config, t: Tables, now: Time, key: Id, capacity: bool, c: Change)
    requires BooksOk(cfg, t) && now > NEVER && Admissible(cfg, t, key, c)
    requires Update(t, cfg, now, key, capacity, c).Committed?
    ensures var t2 := Update(t, cfg, now, key, capacity, c).t;
            Named(t2) && Mirrored(t2) && Claimed(t2) && Keyed(t2) && Advertised(t2) && Filings(t2)
  {
    hide Update, Filed;
    var t2 := Update(t, cfg, now, key, capacity, c).t;
    RowsAfterUpdate(cfg, t, now, key, capacity, c, NONE);
    RowsAfterUpdate(cfg, t, now, key, capacity, c, t2.jobs[key].gen.vm);
    forall n | n in t2.runners
      ensures n != NONE && t2.runners[n].name == n && t2.runners[n].rec.gen.vm == n
      ensures t2.runners[n].owner != NONE ==>
                t2.runners[n].owner in t2.jobs && t2.jobs[t2.runners[n].owner] == t2.runners[n].rec
      ensures t2.runners[n].available ==> t2.runners[n].owner == NONE && n !in t2.evidence
    {
      RowsAfterUpdate(cfg, t, now, key, capacity, c, n);
    }
    forall k | k in t2.jobs && t2.jobs[k].gen.vm != NONE
      ensures t2.jobs[k].gen.vm in t2.runners && t2.runners[t2.jobs[k].gen.vm].owner == k
    {
      RowsAfterUpdate(cfg, t, now, key, capacity, c, t2.jobs[k].gen.vm);
    }
  }

  lemma ApplyLimits(c: Change, cfg: Config, now: Time, r: Record, f: Fleet)
    requires f.runners <= cfg.maxRunners
    ensures var o := Apply(c, cfg, now, r, f);
            o.Accept? ==>
              && o.f.runners <= cfg.maxRunners
              && (f.standard <= cfg.maxStandard ==> o.f.standard <= cfg.maxStandard)
  {
  }

  lemma UpdateLimits(cfg: Config, t: Tables, now: Time, key: Id, capacity: bool, c: Change)
    requires t.fleet.runners <= cfg.maxRunners && Update(t, cfg, now, key, capacity, c).Committed?
    ensures var t2 := Update(t, cfg, now, key, capacity, c).t;
            && t2.fleet.runners <= cfg.maxRunners
            && (t.fleet.standard <= cfg.maxStandard ==> t2.fleet.standard <= cfg.maxStandard)
  {
    hide Apply, Mirror, Prepare;
    if capacity { ApplyLimits(c, cfg, now, Load(t, key), t.fleet); }
  }

  /** How the rows change, by effect. */
  lemma UpdatedRows(cfg: Config, t: Tables, now: Time, key: Id, capacity: bool, c: Change)
    requires BooksOk(cfg, t) && now > NEVER && Admissible(cfg, t, key, c)
    requires Update(t, cfg, now, key, capacity, c).Committed?
    ensures
      var t2 := Update(t, cfg, now, key, capacity, c).t;
      var g, g2 := Load(t, key).gen, Load(t2, key).gen;
      match EffectOf(c, cfg, now, Load(t, key)) {
        case Give => g.vm in t.runners && t2.runners == t.runners - {g.vm} && t.runners[g.vm].rec.gen == g
        case Take(name) =>
          name !in t.runners && g2.vm == name && t2.runners == t.runners[name := OwnerRow(key, Load(t2, key))]
        case Scribble => g.vm == g2.vm == NONE && t2.runners == t.runners
        case _ =>
          && g2.vm == g.vm
          && (g.vm == NONE ==> t2.runners == t.runners)
          && (g.vm == NONE || (
                && g.vm in t.runners && t.runners[g.vm].rec.gen == g
                && t2.runners == t.runners[g.vm := OwnerRow(key, Load(t2, key))]))
      }
  {
    hide EffectOf, Update, BooksOk;
    var r := Load(t, key);
    var r2, e := UpdateParts(cfg, t, now, key, capacity, c);
    LoadFiled(cfg, t, key);
    EffectKinds(c, cfg, now, r);
    if r.gen.vm != NONE { OwnershipIsBijective(cfg, t, key, r.gen.vm); }
  }

  lemma UpdateKeepsRowCount(cfg: Config, t: Tables, now: Time, key: Id, capacity: bool, c: Change)
    requires BooksOk(cfg, t) && now > NEVER && Admissible(cfg, t, key, c)
    requires Update(t, cfg, now, key, capacity, c).Committed?
    ensures RowsCounted(cfg, Update(t, cfg, now, key, capacity, c).t)
  {
    hide EffectOf, StandardNames, Update, Mirror;
    var t2 := Update(t, cfg, now, key, capacity, c).t;
    var r2, e := UpdateParts(cfg, t, now, key, capacity, c);
    UpdatedRows(cfg, t, now, key, capacity, c);
    UpdateLimits(cfg, t, now, key, capacity, c);
    if e.Give? {
      CountDrop(t.runners, Load(t, key).gen.vm);
    } else if r2.gen.vm != NONE {
      CountPut(t.runners, r2.gen.vm, OwnerRow(key, r2));
    }
  }

  lemma ApplyModel(c: Change, cfg: Config, now: Time, r: Record, f: Fleet)
    requires r.gen.model != Standard && !(c.SaveAttempt? && c.attempt.model == Standard)
    ensures var o := Apply(c, cfg, now, r, f); o.Accept? ==> o.r.gen.model != Standard
  {
  }

  lemma UpdateKeepsModels(cfg: Config, t: Tables, now: Time, key: Id, capacity: bool, c: Change)
    requires SpotOnly(t) && Update(t, cfg, now, key, capacity, c).Committed?
    requires !(c.SaveAttempt? && c.attempt.model == Standard)
    ensures SpotOnly(Update(t, cfg, now, key, capacity, c).t)
  {
    hide Apply;
    var counts := if capacity then t.fleet else Fleet(0, 0, 0);
    var o := Apply(c, cfg, now, Load(t, key), counts);
    ApplyModel(c, cfg, now, Load(t, key), counts);
    PrepareKeepsClaim(o.r, now);
  }

  /** The transaction every callback goes through keeps the books. */
  lemma UpdateKeepsBooks(cfg: Config, t: Tables, now: Time, key: Id, capacity: bool, c: Change)
    requires BooksOk(cfg, t) && now > NEVER && Admissible(cfg, t, key, c)
    requires Update(t, cfg, now, key, capacity, c).Committed?
    ensures BooksOk(cfg, Update(t, cfg, now, key, capacity, c).t)
  {
    hide Update;
    UpdateKeepsRowCount(cfg, t, now, key, capacity, c);
    UpdateKeepsLinks(cfg, t, now, key, capacity, c);
    if !cfg.allowStandard { UpdateKeepsModels(cfg, t, now, key, capacity, c); }
  }

  /** A scribble that is not an attempt leaves the second counter alone. */
  lemma ScribbleTally(c: Change, cfg: Config, now: Time, r: Record, f: Fleet)
    requires r.gen.vm == NONE && r.gen.model != Standard && !c.Reserve? && (c.SaveAttempt? ==> r.terminal)
    ensures var o := Apply(c, cfg, now, r, f);
            o.Accept? ==> o.f.standard == f.standard && o.r.gen.model != Standard
  {
  }

  lemma UpdateScribbleTally(cfg: Config, t: Tables, now: Time, key: Id, capacity: bool, c: Change)
    requires Load(t, key).gen.vm == NONE && Load(t, key).gen.model != Standard && !c.Reserve?
    requires c.SaveAttempt? ==> Load(t, key).terminal
    requires Update(t, cfg, now, key, capacity, c).Committed?
    ensures var t2 := Update(t, cfg, now, key, capacity, c).t;
            t2.fleet.standard == t.fleet.standard && Load(t2, key).gen.model != Standard
  {
    hide Apply, Mirror;
    var counts := if capacity then t.fleet else Fleet(0, 0, 0);
    ScribbleTally(c, cfg, now, Load(t, key), counts);
    PrepareKeepsClaim(Apply(c, cfg, now, Load(t, key), counts).r, now);
  }

  lemma RunnersInRange(cfg: Config, t: Tables)
    requires BooksOk(cfg, t)
    ensures t.fleet.runners == |t.runners| <= cfg.maxRunners
  {
  }

  lemma NotStray(t: Tables, key: Id)
    requires NoStray(t) && Load(t, key).gen.vm == NONE
    ensures Load(t, key).gen.model != Standard
  {
  }

  lemma StrayAfter(cfg: Config, t: Tables, now: Time, key: Id, capacity: bool, c: Change)
    requires BooksOk(cfg, t) && NoStray(t) && now > NEVER && Admissible(cfg, t, key, c)
    requires c.SaveAttempt? && Load(t, key).gen.vm == NONE ==> Load(t, key).terminal
    requires Update(t, cfg, now, key, capacity, c).Committed?
    ensures NoStray(Update(t, cfg, now, key, capacity, c).t)
    ensures EffectOf(c, cfg, now, Load(t, key)).Scribble? ==>
              Update(t, cfg, now, key, capacity, c).t.fleet.standard == t.fleet.standard
  {
    hide EffectOf, Update, Mirror, BooksOk, Admissible;
    var r2, e := UpdateParts(cfg, t, now, key, capacity, c);
    EffectKinds(c, cfg, now, Load(t, key));
    if e.Scribble? {
      NotStray(t, key);
      UpdateScribbleTally(cfg, t, now, key, capacity, c);
    } else if e.Keep? && Load(t, key).gen.vm == NONE {
      NotStray(t, key);
    }
  }

  lemma StandardAfter(cfg: Config, t: Tables, now: Time, key: Id, capacity: bool, c: Change)
    requires BooksOk(cfg, t) && Tallied(cfg, t) && now > NEVER && Admissible(cfg, t, key, c)
    requires c.SaveAttempt? && Load(t, key).gen.vm == NONE ==> Load(t, key).terminal
    requires Update(t, cfg, now, key, capacity, c).Committed?
    ensures var t2 := Update(t, cfg, now, key, capacity, c).t;
            t2.fleet.standard == |StandardNames(t2.runners)|
  {
    hide EffectOf, StandardNames, Update, Mirror, BooksOk, NoStray, Admissible;
    var r2, e := UpdateParts(cfg, t, now, key, capacity, c);
    UpdatedRows(cfg, t, now, key, capacity, c);
    StrayAfter(cfg, t, now, key, capacity, c);
    if e.Give? {
      CountDrop(t.runners, Load(t, key).gen.vm);
    } else if r2.gen.vm != NONE {
      if e.Take? { NotStray(t, key); }
      CountPut(t.runners, r2.gen.vm, OwnerRow(key, r2));
    }
  }

  /** The second counter stays the number of standard rows, as long as no open job
      without a VM has an attempt saved. */
  lemma UpdateKeepsTally(cfg: Config, t: Tables, now: Time, key: Id, capacity: bool, c: Change)
    requires BooksOk(cfg, t) && Tallied(cfg, t) && now > NEVER && Admissible(cfg, t, key, c)
    requires c.SaveAttempt? && Load(t, key).gen.vm == NONE ==> Load(t, key).terminal
    requires Update(t, cfg, now, key, capacity, c).Committed?
    ensures Tallied(cfg, Update(t, cfg, now, key, capacity, c).t)
  {
    hide StandardNames, Update, Admissible, BooksOk, NoStray;
    StandardAfter(cfg, t, now, key, capacity, c);
    StrayAfter(cfg, t, now, key, capacity, c);
    RunnersInRange(cfg, t);
    UpdateLimits(cfg, t, now, key, capacity, c);
  }

  /** The counters written are the sizes of the ledger written. */
  lemma UpdateKeepsCounts(cfg: Config, t: Tables, now: Time, key: Id, capacity: bool, c: Change)
    requires LedgerOk(cfg, t) && now > NEVER && Permitted(cfg, t, key, c)
    requires Update(t, cfg, now, key, capacity, c).Committed?
    ensures Counted(Update(t, cfg, now, key, capacity, c).t)
  {
    hide Update, LedgerOk, Admissible, NoStray, BooksOk, StandardNames;
    BooksInLedger(cfg, t);
    UpdateKeepsRowCount(cfg, t, now, key, capacity, c);
    UpdateKeepsTally(cfg, t, now, key, capacity, c);
  }

  /** A permitted callback keeps the whole ledger invariant. */
  lemma UpdateKeepsLedger(cfg: Config, t: Tables, now: Time, key: Id, capacity: bool, c: Change)
    requires LedgerOk(cfg, t) && now > NEVER && Permitted(cfg, t, key, c)
    requires Update(t, cfg, now, key, capacity, c).Committed?
    ensures LedgerOk(cfg, Update(t, cfg, now, key, capacity, c).t)
  {
    hide Apply, Mirror, Prepare, BooksOk, NoStray, StandardCounted, RecordOk;
    BooksInLedger(cfg, t);
    UpdateKeepsBooks(cfg, t, now, key, capacity, c);
    UpdateKeepsTally(cfg, t, now, key, capacity, c);
    LoadOk(cfg, t, key);
    var counts := if capacity then t.fleet else Fleet(0, 0, 0);
    ApplyKeepsRecord(c, cfg, now, Load(t, key), counts);
    RecordIsSane(Prepare(Apply(c, cfg, now, Load(t, key), counts).r, now));
  }

  lemma RecordIsSane(r: Record)
    ensures RecordOk(r) ==> Sane(r)
  {
  }

  // ----- the other transactions

  lemma FreedRecord(r: Record, now: Time)
    requires Filed(r) && now > NEVER
    ensures var r2 := Prepare(Unclaimed(r, now).(nextActionAt := now + 30), now);
            RecordOk(r2) && r2.gen == NoGeneration(r.gen.machine)
  {
    hide Prepare;
    var r1 := Unclaimed(r, now).(nextActionAt := now + 30);
    PrepareSchedules(r1, now);
    PrepareKeepsClaim(r1, now);
  }

  /** Rewriting a row under its old model leaves the standard generations. */
  lemma SameModels(rows: map<Id, Row>, n: Id, row: Row)
    requires n in rows && row.rec.gen.model == rows[n].rec.gen.model
    ensures StandardNames(rows[n := row]) == StandardNames(rows) && |rows[n := row]| == |rows|
  {
    forall m ensures IsStandard(rows[n := row], m) == IsStandard(rows, m) {}
    assert rows[n := row].Keys == rows.Keys;
  }

  /** What a committed Detach writes. */
  lemma Detached(cfg: Config, t: Tables, now: Time, key: Id, token: Id, spare: bool, due: Time)
    requires BooksOk(cfg, t) && now > NEVER
    requires Detach(t, now, key, token, spare, due).Committed?
    ensures
      var t2 := Detach(t, now, key, token, spare, due).t;
      && key in t.jobs && t.jobs[key].lease.holder == token && t2.fleet == t.fleet && t2.evidence == t.evidence
      && if t.jobs[key].gen.vm == NONE then t2 == t else
           var n := t.jobs[key].gen.vm;
           && n in t.runners && n in t2.runners && t.runners[n].owner == key && t.runners[n].rec == t.jobs[key]
           && key in t2.jobs && t2.jobs == t.jobs[key := t2.jobs[key]] && t2.runners == t.runners[n := t2.runners[n]]
           && RecordOk(t2.jobs[key]) && t2.jobs[key].gen == NoGeneration(t.jobs[key].gen.machine)
           && t2.jobs[key].lease == t.jobs[key].lease && t2.jobs[key].terminal == t.jobs[key].terminal
           && t2.jobs[key].pendingDelete == t.jobs[key].pendingDelete && t2.jobs[key].job == t.jobs[key].job
           && t2.runners[n].name == n && t2.runners[n].owner == NONE && t2.runners[n].rec == t.jobs[key]
           && (t2.runners[n].available ==> n !in t.evidence)
  {
    hide BooksOk, RecordOk;
    var r := t.jobs[key];
    if r.gen.vm != NONE {
      OwnershipIsBijective(cfg, t, key, r.gen.vm);
      LoadFiled(cfg, t, key);
      KeysAreReal(cfg, t);
      hide Prepare;
      FreedFiled(t, key, now);
    }
  }

  lemma FreedFiled(t: Tables, key: Id, now: Time)
    requires key in t.jobs && now > NEVER && (Filed(t.jobs[key]) || t.jobs[key] == BlankRecord())
    requires t.jobs[key].gen.vm != NONE
    ensures
      var r := t.jobs[key];
      var r2 := Prepare(Unclaimed(r, now).(nextActionAt := now + 30), now);
      && RecordOk(r2) && r2.gen == NoGeneration(r.gen.machine)
      && r2.lease == r.lease && r2.terminal == r.terminal && r2.pendingDelete == r.pendingDelete && r2.job == r.job
  {
    FreedRecord(t.jobs[key], now);
  }

  lemma DetachKeepsBooks(cfg: Config, t: Tables, now: Time, key: Id, token: Id, spare: bool, due: Time)
    requires BooksOk(cfg, t) && now > NEVER
    requires Detach(t, now, key, token, spare, due).Committed?
    ensures var t2 := Detach(t, now, key, token, spare, due).t;
            && BooksOk(cfg, t2) && t2.fleet == t.fleet && StandardNames(t2.runners) == StandardNames(t.runners)
            && (NoStray(t) ==> NoStray(t2)) && (Unburdened(t) ==> Unburdened(t2))
  {
    hide Detach, StandardNames, Filed;
    Detached(cfg, t, now, key, token, spare, due);
    var n := t.jobs[key].gen.vm;
    if n != NONE { SameModels(t.runners, n, Detach(t, now, key, token, spare, due).t.runners[n]); }
  }

  /** What an adoption writes. */
  lemma Adopted(cfg: Config, t: Tables, now: Time, key: Id, token: Id, names: seq<Id>)
    requires BooksOk(cfg, t) && now > NEVER
    requires forall n :: n in names ==> n in t.runners && t.runners[n].available
    requires Adopt(t, now, key, token, names).Committed?
    ensures
      var t2 := Adopt(t, now, key, token, names).t;
      && key in t.jobs && t.jobs[key].lease.holder == token && t2.fleet == t.fleet && t2.evidence == t.evidence
      && (t2 == t ||
          (&& key in t2.jobs && !t.jobs[key].terminal && t.jobs[key].gen.vm == NONE
           && var n := t2.jobs[key].gen.vm;
              && n in t.runners && n in t2.runners && t.runners[n].owner == NONE && n !in t.evidence
              && t2.jobs == t.jobs[key := t2.jobs[key]] && t2.runners == t.runners[n := t2.runners[n]]
              && RecordOk(t2.jobs[key]) && t2.jobs[key].gen == t.runners[n].rec.gen
              && t2.jobs[key].lease == t.jobs[key].lease && !t2.jobs[key].terminal
              && t2.jobs[key].pendingDelete == NONE && t2.jobs[key].job == t.jobs[key].job
              && t2.runners[n].name == n && t2.runners[n].owner == key && t2.runners[n].rec == t2.jobs[key]
              && !t2.runners[n].available))
  {
    hide RecordOk, Prepare;
    var r := t.jobs[key];
    assert Withdrawn(t, names) == t.runners;
    if !r.terminal && r.gen.vm == NONE && FirstFree(t.evidence, names).Some? {
      var n := FirstFree(t.evidence, names).value;
      AdoptedFiled(r, t.runners[n].rec, now);
    }
  }

  lemma AdoptedFiled(r: Record, from: Record, now: Time)
    requires now > NEVER && from.gen.vm != NONE
    ensures
      var r2 := AdoptedRecord(r, from, now);
      && RecordOk(r2) && r2.gen == from.gen && r2.lease == r.lease && !r2.terminal
      && r2.pendingDelete == NONE && r2.job == r.job
  {
  }

  lemma AdoptKeepsBooks(cfg: Config, t: Tables, now: Time, key: Id, token: Id, names: seq<Id>)
    requires BooksOk(cfg, t) && now > NEVER
    requires forall n :: n in names ==> n in t.runners && t.runners[n].available
    requires Adopt(t, now, key, token, names).Committed?
    ensures var t2 := Adopt(t, now, key, token, names).t;
            && BooksOk(cfg, t2) && t2.fleet == t.fleet && StandardNames(t2.runners) == StandardNames(t.runners)
            && (NoStray(t) ==> NoStray(t2)) && (Unburdened(t) ==> Unburdened(t2))
  {
    hide Adopt, StandardNames, Filed;
    Adopted(cfg, t, now, key, token, names);
    var t2 := Adopt(t, now, key, token, names).t;
    hide Load;
    if t2 != t { SameModels(t.runners, t2.jobs[key].gen.vm, t2.runners[t2.jobs[key].gen.vm]); }
  }

  /** Withdrawing, advertising or rescheduling a row is nothing to the books, as long
      as what is advertised is free. */
  lemma TouchedKeepsBooks(cfg: Config, t: Tables, t2: Tables, name: Id)
    requires BooksOk(cfg, t) && name in t.runners && name in t2.runners
    requires t2.jobs == t.jobs && t2.fleet == t.fleet && t2.runners == t.runners[name := t2.runners[name]]
    requires var row, row2 := t.runners[name], t2.runners[name];
             && row2 == row.(available := row2.available, nextActionAt := row2.nextActionAt)
             && (row2.available ==> row2.owner == NONE && name !in t2.evidence)
    requires forall n :: n in t2.evidence && n != name ==> n in t.evidence
    ensures BooksOk(cfg, t2) && StandardNames(t2.runners) == StandardNames(t.runners)
  {
    hide StandardNames, Filed;
    SameModels(t.runners, name, t2.runners[name]);
  }

  lemma DeferKeepsBooks(cfg: Config, t: Tables, name: Id, due: Time, available: bool)
    requires BooksOk(cfg, t)
    ensures var t2 := DeferRunner(t, name, due, available);
            BooksOk(cfg, t2) && t2.jobs == t.jobs && t2.fleet == t.fleet && StandardNames(t2.runners)
                == StandardNames(t.runners)
  {
    hide BooksOk, StandardNames;
    var t2 := DeferRunner(t, name, due, available);
    if t2 != t { TouchedKeepsBooks(cfg, t, t2, name); }
  }

  lemma ReleaseKeepsBooks(cfg: Config, t: Tables, name: Id)
    requires BooksOk(cfg, t)
    ensures BooksOk(cfg, ReleaseRunner(t, name)) && ReleaseRunner(t, name).jobs == t.jobs
    ensures StandardCounted(cfg, t) ==> StandardCounted(cfg, ReleaseRunner(t, name))
  {
    if name in t.runners && t.runners[name].owner == NONE {
      CountDrop(t.runners, name);
    }
  }

  /** Remembering a runner id changes that one field, in the row and in its
      owner's record alike. */
  lemma RememberEffect(cfg: Config, t: Tables, name: Id, id: Id)
    requires BooksOk(cfg, t) && name in t.runners
    requires RememberRunnerId(t, name, id).Committed?
    ensures
      var t2 := RememberRunnerId(t, name, id).t;
      var row := t.runners[name];
      var rec2 := row.rec.(runnerId := id);
      && t2.runners == t.runners[name := row.(rec := rec2)]
      && t2.jobs == (if row.owner == NONE then t.jobs else t.jobs[row.owner := rec2])
      && t2.fleet == t.fleet && t2.evidence == t.evidence
      && (row.owner != NONE ==> row.owner in t.jobs && t.jobs[row.owner] == row.rec && Filed(rec2))
  {
  }

  lemma RememberKeepsLinks(cfg: Config, t: Tables, name: Id, id: Id)
    requires BooksOk(cfg, t) && name in t.runners && RememberRunnerId(t, name, id).Committed?
    ensures var t2 := RememberRunnerId(t, name, id).t;
            && Named(t2) && Mirrored(t2) && Claimed(t2) && Keyed(t2) && Advertised(t2) && Filings(t2)
            && (NoStray(t) ==> NoStray(t2)) && (Unburdened(t) ==> Unburdened(t2)) && (SpotOnly(t) ==> SpotOnly(t2))
  {
    hide RememberRunnerId, Filed, RowsCounted;
    var t2 := RememberRunnerId(t, name, id).t;
    RememberEffect(cfg, t, name, id);
    forall n | n in t2.runners && t2.runners[n].owner != NONE
      ensures t2.runners[n].owner in t2.jobs && t2.jobs[t2.runners[n].owner] == t2.runners[n].rec
    {
      assert n != name ==> t.runners[n].owner != t.runners[name].owner;
    }
  }

  lemma RememberKeepsBooks(cfg: Config, t: Tables, name: Id, id: Id)
    requires BooksOk(cfg, t)
    requires RememberRunnerId(t, name, id).Committed?
    ensures var t2 := RememberRunnerId(t, name, id).t;
            && BooksOk(cfg, t2) && t2.fleet == t.fleet && StandardNames(t2.runners) == StandardNames(t.runners)
            && (NoStray(t) ==> NoStray(t2)) && (Unburdened(t) ==> Unburdened(t2))
  {
    hide RememberRunnerId, StandardNames, Named, Mirrored, Claimed, Keyed, Advertised, Filings, NoStray, Unburdened,
      SpotOnly;
    if name in t.runners {
      var t2 := RememberRunnerId(t, name, id).t;
      RememberKeepsLinks(cfg, t, name, id);
      RememberEffect(cfg, t, name, id);
      SameModels(t.runners, name, t2.runners[name]);
    } else {
      RememberNothing(t, name, id);
    }
  }

  lemma RememberNothing(t: Tables, name: Id, id: Id)
    requires name !in t.runners
    ensures RememberRunnerId(t, name, id) == Committed(t)
  {
  }

  /** Whatever it finds, remembering a runner id leaves everything else. */
  lemma Remembered(cfg: Config, t: Tables, name: Id, id: Id)
    requires BooksOk(cfg, t) && RememberRunnerId(t, name, id).Committed?
    ensures
      var t2 := RememberRunnerId(t, name, id).t;
      && t2.jobs.Keys == t.jobs.Keys && t2.runners.Keys == t.runners.Keys && t2.fleet == t.fleet
      && t2.evidence == t.evidence
      && (forall k :: k in t.jobs ==> t2.jobs[k] == t.jobs[k].(runnerId := t2.jobs[k].runnerId))
      && (forall n :: n in t.runners ==>
            t2.runners[n] == t.runners[n].(rec := t.runners[n].rec.(runnerId := t2.runners[n].rec.runnerId)))
  {
    hide BooksOk, RememberRunnerId;
    if name in t.runners { RememberEffect(cfg, t, name, id); } else { RememberNothing(t, name, id); }
  }

  lemma EvidenceKeepsBooks(cfg: Config, t: Tables, evidence: map<Id, Evidence>)
    requires BooksOk(cfg, t) && forall n :: n in t.runners && n in evidence ==> n in t.evidence
    ensures BooksOk(cfg, t.(evidence := evidence))
  {
  }

  lemma AssignmentKeepsBooks(cfg: Config, t: Tables, now: Time, key: Id, name: Id, job: Job)
    requires BooksOk(cfg, t)
    requires RecordAssignment(t, now, key, name, job).Committed?
    ensures var t2 := RecordAssignment(t, now, key, name, job).t;
            BooksOk(cfg, t2) && t2.jobs == t.jobs && t2.fleet == t.fleet && StandardNames(t2.runners)
                == StandardNames(t.runners)
  {
    hide BooksOk, StandardNames;
    var t2 := RecordAssignment(t, now, key, name, job).t;
    if name in t.runners && t2 != t {
      TouchedKeepsBooks(cfg, t, t2, name);
    } else if t2 != t {
      EvidenceKeepsBooks(cfg, t, t2.evidence);
    }
  }

  // ----- and the ledger with them

  lemma DetachKeepsLedger(cfg: Config, t: Tables, now: Time, key: Id, token: Id, spare: bool, due: Time)
    requires LedgerOk(cfg, t) && now > NEVER
    requires Detach(t, now, key, token, spare, due).Committed?
    ensures LedgerOk(cfg, Detach(t, now, key, token, spare, due).t)
    ensures Detach(t, now, key, token, spare, due).t.fleet == t.fleet
  {
    hide Detach, BooksOk, Unburdened, StandardNames;
    DetachKeepsBooks(cfg, t, now, key, token, spare, due);
  }

  lemma AdoptKeepsLedger(cfg: Config, t: Tables, now: Time, key: Id, token: Id, names: seq<Id>)
    requires LedgerOk(cfg, t) && now > NEVER
    requires forall n :: n in names ==> n in t.runners && t.runners[n].available
    requires Adopt(t, now, key, token, names).Committed?
    ensures LedgerOk(cfg, Adopt(t, now, key, token, names).t)
    ensures Adopt(t, now, key, token, names).t.fleet == t.fleet
  {
    hide Adopt, BooksOk, Unburdened, StandardNames;
    AdoptKeepsBooks(cfg, t, now, key, token, names);
  }

  lemma DeferKeepsLedger(cfg: Config, t: Tables, name: Id, due: Time, available: bool)
    requires LedgerOk(cfg, t)
    ensures LedgerOk(cfg, DeferRunner(t, name, due, available))
  {
    hide DeferRunner, BooksOk, StandardNames;
    DeferKeepsBooks(cfg, t, name, due, available);
  }

  lemma ReleaseKeepsLedger(cfg: Config, t: Tables, name: Id)
    requires LedgerOk(cfg, t)
    ensures LedgerOk(cfg, ReleaseRunner(t, name))
  {
    hide ReleaseRunner, BooksOk, StandardCounted;
    ReleaseKeepsBooks(cfg, t, name);
  }

  lemma RememberKeepsLedger(cfg: Config, t: Tables, name: Id, id: Id)
    requires LedgerOk(cfg, t)
    requires RememberRunnerId(t, name, id).Committed?
    ensures LedgerOk(cfg, RememberRunnerId(t, name, id).t)
  {
    hide RememberRunnerId, BooksOk, Unburdened, StandardNames;
    RememberKeepsBooks(cfg, t, name, id);
  }

  lemma AssignmentKeepsLedger(cfg: Config, t: Tables, now: Time, key: Id, name: Id, job: Job)
    requires LedgerOk(cfg, t)
    requires RecordAssignment(t, now, key, name, job).Committed?
    ensures LedgerOk(cfg, RecordAssignment(t, now, key, name, job).t)
  {
    hide RecordAssignment, BooksOk, StandardNames;
    AssignmentKeepsBooks(cfg, t, now, key, name, job);
  }
}
