/** Reconciliation: a chain of pages over the due jobs, each page rescheduling the
    very records the next one is cut from. */
module Paging {
  import opened Types
  import opened Records
  import opened Transactions
  import opened DispatchWindow
  import opened Ledger
  import opened DocumentStore

  datatype Cursor = Cursor(key: Id, at: Time)

  const JOB_PAGE: nat := 50

  function DueJobs(jobs: map<Id, Record>, now: Time): set<Id> {
    set k | k in jobs && jobs[k].needsReconcile && jobs[k].nextActionAt <= now
  }

  /** The order of the query: by due time, then by document id. */
  predicate Less(at: Time, key: Id, at2: Time, key2: Id) {
    at < at2 || (at == at2 && key < key2)
  }

  predicate Precedes(jobs: map<Id, Record>, k: Id, k2: Id)
    requires k in jobs && k2 in jobs
  {
    Less(jobs[k].nextActionAt, k, jobs[k2].nextActionAt, k2)
  }

  predicate Past(after: Option<Cursor>, at: Time, key: Id) {
    after.None? || Less(after.value.at, after.value.key, at, key)
  }

  function Remaining(jobs: map<Id, Record>, now: Time, after: Option<Cursor>): set<Id> {
    set k | k in DueJobs(jobs, now) && Past(after, jobs[k].nextActionAt, k)
  }

  ghost predicate Ascending(jobs: map<Id, Record>, keys: seq<Id>) {
    && (forall i :: 0 <= i < |keys| ==> keys[i] in jobs)
    && (forall i, j :: 0 <= i < j < |keys| ==> Precedes(jobs, keys[i], keys[j]))
  }

  /** The first limit due jobs past the cursor, in order. */
  ghost predicate IsJobPage(jobs: map<Id, Record>, now: Time, after: Option<Cursor>, limit: nat, keys: seq<Id>) {
    && |keys| <= limit
    && Ascending(jobs, keys)
    && (forall k :: k in keys ==> k in Remaining(jobs, now, after))
    && (|keys| < limit ==> forall k :: k in Remaining(jobs, now, after) ==> k in keys)
    && (forall k, k2 :: k in keys && k2 in Remaining(jobs, now, after) && k2 !in keys ==> Precedes(jobs, k, k2))
  }

  function CursorAt(jobs: map<Id, Record>, key: Id): Cursor
    requires key in jobs
  {
    Cursor(key, jobs[key].nextActionAt)
  }

  method Least(jobs: map<Id, Record>, keys: set<Id>) returns (least: Id)
    requires keys != {} && forall k :: k in keys ==> k in jobs
    ensures least in keys && forall k :: k in keys && k != least ==> Precedes(jobs, least, k)
  {
    least :| least in keys;
    var pending := keys - {least};
    while pending != {}
      invariant pending <= keys && least in keys - pending
      invariant forall k :: k in keys - pending && k != least ==> Precedes(jobs, least, k)
      decreases pending
    {
      var k :| k in pending;
      pending := pending - {k};
      if Precedes(jobs, k, least) {
        forall k2 | k2 in keys - pending && k2 != k ensures Precedes(jobs, k, k2) {
          assert k2 != least ==> Precedes(jobs, least, k2);
        }
        least := k;
      }
    }
  }

  /** Page: the query and the cursor of the page after it. */
  method Page(store: Store, now: Time, after: Option<Cursor>, limit: nat) returns (keys: seq<Id>, next: Option<Cursor>)
    requires limit > 0
    ensures IsJobPage(store.jobs, now, after, limit, keys)
    ensures next.Some? <==> |keys| == limit
    ensures next.Some? ==> next.value == CursorAt(store.jobs, keys[limit - 1])
  {
    var jobs := store.jobs;
    keys := [];
    var pending := Remaining(jobs, now, after);
    while pending != {} && |keys| < limit
      invariant pending <= Remaining(jobs, now, after) && |keys| <= limit
      invariant Ascending(jobs, keys)
      invariant forall k :: k in Remaining(jobs, now, after) <==> k in pending || k in keys
      invariant forall k, k2 :: k in keys && k2 in pending ==> k2 !in keys && Precedes(jobs, k, k2)
      decreases pending
    {
      var k := Least(jobs, pending);
      pending := pending - {k};
      keys := keys + [k];
    }
    next := None;
    if |keys| == limit { next := Some(Cursor(keys[limit - 1], jobs[keys[limit - 1]].nextActionAt)); }
  }

  // ----- one record

  /** Whether reconcile sends a task for a due record. */
  predicate Sends(cfg: Config, now: Time, r: Record) {
    !Settled(r) && !LeaseLive(r, now) && r.source in cfg.sources
  }

  /** The record after reconcile has visited it. */
  function Visited(cfg: Config, now: Time, token: Id, r: Record): Record {
    if Sends(cfg, now, r) then
      r.(dispatch := Dispatch(token, now + WindowOf(cfg)), nextActionAt := now + WindowOf(cfg))
    else r
  }

  lemma WindowIsPositive(cfg: Config)
    ensures WindowOf(cfg) > 0
  {
  }

  lemma EnqueueEffect(cfg: Config, t: Tables, now: Time, key: Id, token: Id)
    requires LedgerOk(cfg, t) && now > NEVER && key in DueJobs(t.jobs, now) && Sends(cfg, now, t.jobs[key])
    ensures var tx := Update(t, cfg, now, key, false, Enqueue(token, 0));
            && tx.Committed? && tx.t.jobs == t.jobs[key := Visited(cfg, now, token, t.jobs[key])]
            && LedgerOk(cfg, tx.t)
  {
    hide WindowOf;
    WindowIsPositive(cfg);
    var r := t.jobs[key];
    assert RecordOk(r);
    assert key != NONE;
    UpdateKeepsLedger(cfg, t, now, key, false, Enqueue(token, 0));
  }

  ghost predicate VisitedAll(cfg: Config, now: Time, token: Id -> Id,
                             jobs: map<Id, Record>, jobs2: map<Id, Record>, keys: seq<Id>)
  {
    && jobs2.Keys == jobs.Keys
    && (forall k :: k in jobs ==> jobs2[k] == if k in keys then Visited(cfg, now, token(k), jobs[k]) else jobs[k])
  }

  function Sendable(cfg: Config, now: Time, jobs: map<Id, Record>, keys: seq<Id>): seq<Id> {
    if keys == [] then []
    else
      var k := keys[|keys| - 1];
      Sendable(cfg, now, jobs, keys[..|keys| - 1]) + if k in jobs && Sends(cfg, now, jobs[k]) then [k] else []
  }

  lemma VisitedSnoc(cfg: Config, now: Time, token: Id -> Id, jobs: map<Id, Record>, jobs1: map<Id, Record>,
      keys: seq<Id>, key: Id)
    requires VisitedAll(cfg, now, token, jobs, jobs1, keys) && key in jobs && key !in keys
    ensures key in jobs1 && jobs1[key] == jobs[key]
    ensures VisitedAll(cfg, now, token, jobs, jobs1[key := Visited(cfg, now, token(key), jobs[key])], keys + [key])
    ensures !Sends(cfg, now, jobs[key]) ==> VisitedAll(cfg, now, token, jobs, jobs1, keys + [key])
  {
    hide Sends;
  }

  lemma SendableSnoc(cfg: Config, now: Time, jobs: map<Id, Record>, keys: seq<Id>, key: Id)
    requires key in jobs
    ensures Sendable(cfg, now, jobs, keys + [key])
         == Sendable(cfg, now, jobs, keys) + if Sends(cfg, now, jobs[key]) then [key] else []
  {
    assert (keys + [key])[..|keys|] == keys;
  }

  lemma PageIsDue(jobs: map<Id, Record>, now: Time, after: Option<Cursor>, keys: seq<Id>)
    requires IsJobPage(jobs, now, after, JOB_PAGE, keys)
    ensures forall k :: k in keys ==> k in DueJobs(jobs, now) && k in jobs
    ensures Ascending(jobs, keys)
  {
  }

  lemma StillDueHere(jobs: map<Id, Record>, jobs1: map<Id, Record>, now: Time, key: Id)
    requires key in DueJobs(jobs, now) && key in jobs1 && jobs1[key] == jobs[key]
    ensures key in DueJobs(jobs1, now)
  {
  }

  /** reconcile, one request; token gives the fresh nonce of each enqueue, and
      sent lists the jobs handed to the queue. */
  method ReconcilePage(store: Store, cfg: Config, now: Time, after: Option<Cursor>, token: Id -> Id)
    returns (next: Option<Cursor>, sent: seq<Id>, ghost keys: seq<Id>)
    requires LedgerOk(cfg, store.Contents()) && now > NEVER
    modifies store`jobs, store`runners, store`fleet
    ensures LedgerOk(cfg, store.Contents())
    ensures IsJobPage(old(store.jobs), now, after, JOB_PAGE, keys)
    ensures next.Some? <==> |keys| == JOB_PAGE
    ensures next.Some? ==> next.value == CursorAt(old(store.jobs), keys[JOB_PAGE - 1])
    ensures VisitedAll(cfg, now, token, old(store.jobs), store.jobs, keys)
    ensures sent == Sendable(cfg, now, old(store.jobs), keys)
  {
    hide LedgerOk, WindowOf, Sends, Update, IsJobPage, VisitedAll, Sendable, DueJobs, Ascending, Visited;
    ghost var jobs := store.jobs;
    var rows;
    rows, next := Page(store, now, after, JOB_PAGE);
    keys := rows;
    sent := [];
    PageIsDue(jobs, now, after, keys);
    NoneVisited(cfg, now, token, jobs);
    assert rows[..0] == [];
    for i := 0 to |rows|
      invariant LedgerOk(cfg, store.Contents())
      invariant VisitedAll(cfg, now, token, jobs, store.jobs, rows[..i])
      invariant sent == Sendable(cfg, now, jobs, rows[..i])
    {
      var key := rows[i];
      assert rows[..i + 1] == rows[..i] + [key];
      NotYet(jobs, rows, i);
      VisitedSnoc(cfg, now, token, jobs, store.jobs, rows[..i], key);
      SendableSnoc(cfg, now, jobs, rows[..i], key);
      StillDueHere(jobs, store.jobs, now, key);
      if Sends(cfg, now, store.jobs[key]) {
        EnqueueEffect(cfg, store.Contents(), now, key, token(key));
        var err := store.Update(cfg, now, key, false, Enqueue(token(key), 0));
        sent := sent + [key];
      }
    }
    assert rows[..|rows|] == rows;
  }

  lemma NoneVisited(cfg: Config, now: Time, token: Id -> Id, jobs: map<Id, Record>)
    ensures VisitedAll(cfg, now, token, jobs, jobs, []) && Sendable(cfg, now, jobs, []) == []
  {
  }

  lemma NotYet(jobs: map<Id, Record>, keys: seq<Id>, i: nat)
    requires Ascending(jobs, keys) && i < |keys|
    ensures keys[i] !in keys[..i]
  {
    forall j | 0 <= j < i ensures keys[j] != keys[i] {
      assert Precedes(jobs, keys[j], keys[i]);
    }
  }

  // ----- the chain

  /** A sent record is no longer due; a skipped one stays as it was. */
  lemma VisitedLeaves(cfg: Config, now: Time, token: Id, r: Record)
    ensures Sends(cfg, now, r) ==> now < Visited(cfg, now, token, r).nextActionAt
    ensures !Sends(cfg, now, r) ==> Visited(cfg, now, token, r) == r
  {
    hide WindowOf;
    WindowIsPositive(cfg);
  }

  /** What the chain has behind it: exactly the due jobs up to the cursor. */
  ghost predicate Behind(jobs: map<Id, Record>, now: Time, after: Option<Cursor>, visited: seq<Id>) {
    && Ascending(jobs, visited)
    && (forall k :: k in visited <==> k in DueJobs(jobs, now) && !Past(after, jobs[k].nextActionAt, k))
  }

  /** What is left is the same whether one looks at the first state or the current. */
  lemma SameRemaining(cfg: Config, now: Time, token: Id -> Id, jobs: map<Id, Record>, jobs1: map<Id, Record>,
                      after: Option<Cursor>, visited: seq<Id>)
    requires VisitedAll(cfg, now, token, jobs, jobs1, visited) && Behind(jobs, now, after, visited)
    ensures Remaining(jobs1, now, after) == Remaining(jobs, now, after)
    ensures forall k :: k in Remaining(jobs, now, after) ==> k !in visited && jobs1[k] == jobs[k]
  {
    hide Sends, Visited;
    forall k | k in jobs ensures k in Remaining(jobs1, now, after) <==> k in Remaining(jobs, now, after) {
      VisitedLeaves(cfg, now, token(k), jobs[k]);
    }
  }

  lemma SamePage(jobs: map<Id, Record>, jobs1: map<Id, Record>, now: Time, after: Option<Cursor>, keys: seq<Id>)
    requires Remaining(jobs1, now, after) == Remaining(jobs, now, after)
    requires forall k :: k in Remaining(jobs, now, after) ==> jobs1[k] == jobs[k]
    requires IsJobPage(jobs1, now, after, JOB_PAGE, keys)
    ensures IsJobPage(jobs, now, after, JOB_PAGE, keys)
    ensures keys != [] ==> keys[|keys| - 1] in jobs && keys[|keys| - 1] in jobs1
                           && CursorAt(jobs1, keys[|keys| - 1]) == CursorAt(jobs, keys[|keys| - 1])
  {
    assert forall i :: 0 <= i < |keys| ==> keys[i] in Remaining(jobs, now, after);
  }

  /** A full page moves the cursor past itself; a short one leaves nothing. */
  lemma PageAdvances(jobs: map<Id, Record>, now: Time, after: Option<Cursor>, visited: seq<Id>, keys: seq<Id>)
    requires Behind(jobs, now, after, visited) && IsJobPage(jobs, now, after, JOB_PAGE, keys)
    ensures Ascending(jobs, visited + keys)
    ensures |keys| < JOB_PAGE ==> forall k :: k in visited + keys <==> k in DueJobs(jobs, now)
    ensures |keys| == JOB_PAGE ==>
              && keys[JOB_PAGE - 1] in jobs
              && Behind(jobs, now, Some(CursorAt(jobs, keys[JOB_PAGE - 1])), visited + keys)
              && Remaining(jobs, now, Some(CursorAt(jobs, keys[JOB_PAGE - 1]))) < Remaining(jobs, now, after)
  {
    assert forall i :: 0 <= i < |keys| ==> keys[i] in Remaining(jobs, now, after);
    forall i, j | 0 <= i < |visited| && 0 <= j < |keys| ensures Precedes(jobs, visited[i], keys[j]) {
      assert visited[i] in visited;
    }
    if |keys| == JOB_PAGE {
      var last := keys[JOB_PAGE - 1];
      var next := Some(CursorAt(jobs, last));
      forall k | k in DueJobs(jobs, now)
        ensures k in visited + keys <==> !Past(next, jobs[k].nextActionAt, k)
        ensures Past(next, jobs[k].nextActionAt, k) ==> Past(after, jobs[k].nextActionAt, k)
      {
        if k in keys {
          var i :| 0 <= i < |keys| && keys[i] == k;
          assert i < JOB_PAGE - 1 ==> Precedes(jobs, k, last);
        } else if k in Remaining(jobs, now, after) {
          assert last in keys;
          assert Precedes(jobs, last, k);
        }
      }
      assert last in Remaining(jobs, now, after) && last !in Remaining(jobs, now, next);
    }
  }

  lemma VisitedJoin(cfg: Config, now: Time, token: Id -> Id, jobs: map<Id, Record>, jobs1: map<Id, Record>,
      jobs2: map<Id, Record>, a: seq<Id>, b: seq<Id>)
    requires VisitedAll(cfg, now, token, jobs, jobs1, a) && VisitedAll(cfg, now, token, jobs1, jobs2, b)
    requires forall k :: k in b ==> k !in a
    ensures VisitedAll(cfg, now, token, jobs, jobs2, a + b)
  {
    hide Visited;
  }

  lemma {:induction false} SendableJoin(cfg: Config, now: Time, jobs: map<Id, Record>, jobs1: map<Id, Record>,
      a: seq<Id>, b: seq<Id>)
    requires forall k :: k in b ==> k in jobs && k in jobs1 && jobs1[k] == jobs[k]
    ensures Sendable(cfg, now, jobs, a + b) == Sendable(cfg, now, jobs, a) + Sendable(cfg, now, jobs1, b)
  {
    hide Sends;
    if b == [] {
      assert a + b == a;
    } else {
      assert (a + b)[..|a + b| - 1] == a + b[..|b| - 1];
      SendableJoin(cfg, now, jobs, jobs1, a, b[..|b| - 1]);
    }
  }

  /** The whole chain at one clock, every enqueue succeeding: it ends, it visits
      every initially due job exactly once and in order, although the visited jobs
      are rescheduled between its pages, and it sends a task for each of them whose
      lease is free and whose source is known. */
  method ReconcileChain(store: Store, cfg: Config, now: Time, token: Id -> Id)
      returns (sent: seq<Id>, ghost visited: seq<Id>)
    requires LedgerOk(cfg, store.Contents()) && now > NEVER
    modifies store`jobs, store`runners, store`fleet
    ensures LedgerOk(cfg, store.Contents())
    ensures Ascending(old(store.jobs), visited)
    ensures forall k :: k in visited <==> k in DueJobs(old(store.jobs), now)
    ensures VisitedAll(cfg, now, token, old(store.jobs), store.jobs, visited)
    ensures sent == Sendable(cfg, now, old(store.jobs), visited)
  {
    hide LedgerOk, VisitedAll, Sendable, IsJobPage, Ascending, Remaining, Behind, DueJobs;
    ghost var jobs := store.jobs;
    var after: Option<Cursor> := None;
    sent, visited := [], [];
    NoneVisited(cfg, now, token, jobs);
    assert Behind(jobs, now, None, []) by { NothingBehindYet(jobs, now); }
    while true
      invariant LedgerOk(cfg, store.Contents())
      invariant VisitedAll(cfg, now, token, jobs, store.jobs, visited) && Behind(jobs, now, after, visited)
      invariant sent == Sendable(cfg, now, jobs, visited)
      decreases Remaining(jobs, now, after)
    {
      ghost var jobs1 := store.jobs;
      var next, more, keys := ReconcilePage(store, cfg, now, after, token);
      SameRemaining(cfg, now, token, jobs, jobs1, after, visited);
      SamePage(jobs, jobs1, now, after, keys);
      PageKeys(jobs, jobs1, now, after, visited, keys);
      PageAdvances(jobs, now, after, visited, keys);
      VisitedJoin(cfg, now, token, jobs, jobs1, store.jobs, visited, keys);
      SendableJoin(cfg, now, jobs, jobs1, visited, keys);
      sent, visited := sent + more, visited + keys;
      if next.None? { return; }
      after := next;
    }
  }

  lemma NothingBehindYet(jobs: map<Id, Record>, now: Time)
    ensures Behind(jobs, now, None, [])
  {
  }

  lemma PageKeys(jobs: map<Id, Record>, jobs1: map<Id, Record>, now: Time, after: Option<Cursor>, visited: seq<Id>,
      keys: seq<Id>)
    requires IsJobPage(jobs, now, after, JOB_PAGE, keys)
    requires Remaining(jobs1, now, after) == Remaining(jobs, now, after)
    requires forall k :: k in Remaining(jobs, now, after) ==> k !in visited && jobs1[k] == jobs[k]
    ensures |keys| <= JOB_PAGE
    ensures forall k :: k in keys ==> k !in visited && k in jobs && k in jobs1 && jobs1[k] == jobs[k]
  {
  }

  /** An order without repetition: nothing is visited twice. */
  lemma AscendingIsDistinct(jobs: map<Id, Record>, keys: seq<Id>, i: nat, j: nat)
    requires Ascending(jobs, keys) && i < j < |keys|
    ensures keys[i] != keys[j]
  {
    assert Precedes(jobs, keys[i], keys[j]);
  }

  /** Which jobs get a task, told apart from the order of the pages. */
  lemma {:induction false} SentExactly(cfg: Config, now: Time, jobs: map<Id, Record>, keys: seq<Id>, k: Id)
    ensures k in Sendable(cfg, now, jobs, keys) <==> k in keys && k in jobs && Sends(cfg, now, jobs[k])
  {
    hide Sends;
    if keys != [] {
      SentExactly(cfg, now, jobs, keys[..|keys| - 1], k);
      assert keys == keys[..|keys| - 1] + [keys[|keys| - 1]];
    }
  }
}
