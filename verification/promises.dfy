/** What the stored documents promise. */
module Promises {
  import opened Types
  import opened Records
  import opened Transactions
  import opened Ledger
  import opened Protocol
  import opened Transitions
  import opened Standing
  import opened Counters

  lemma BooksInRun(cfg: Config, run: seq<System>, acts: seq<Action>, i: nat)
    requires IsRun(cfg, run, acts) && i < |run|
    ensures BooksOk(cfg, StateAt(run, i).t)
  {
    hide IsRun, BooksOk;
    RunStands(cfg, run, acts, i);
  }

  /** In every run the first counter is the number of rows and inside its limit, and
      where on-demand capacity is not allowed the second is the number of standard
      rows: zero. */
  lemma RunnersAreTheRows(cfg: Config, run: seq<System>, acts: seq<Action>, i: nat)
    requires IsRun(cfg, run, acts) && i < |run|
    ensures var t := StateAt(run, i).t;
            && t.fleet.runners == |t.runners| <= cfg.maxRunners
            && (!cfg.allowStandard ==>
                  t.fleet.standard == 0 && forall n :: n in t.runners ==> RowOf(t, n).rec.gen.model != Standard)
  {
    hide IsRun;
    BooksInRun(cfg, run, acts, i);
    if !cfg.allowStandard { SpotFleetIsCounted(cfg, run, acts, i); }
  }

  /** Counters and admission, as long as finishTask asks before it gives back: the
      counters are the ledger's sizes, never negative, nested, and inside the
      configured limits; on-demand capacity stays at zero where it is not allowed. */
  lemma CountersAreTheLedger(cfg: Config, run: seq<System>, acts: seq<Action>, i: nat)
    requires IsCheckedRun(cfg, run, acts) && i < |run|
    ensures var t := StateAt(run, i).t;
            && t.fleet.runners == |t.runners|
            && t.fleet.standard == |set n | n in t.runners && RowOf(t, n).rec.gen.model == Standard|
            && 0 <= t.fleet.standard <= t.fleet.runners <= cfg.maxRunners
            && t.fleet.standard <= cfg.maxStandard
            && (!cfg.allowStandard ==> t.fleet.standard == 0)
  {
    hide IsRun, AllStand;
    var t := StateAt(run, i).t;
    RunReckons(cfg, run, acts, i);
    BooksInRun(cfg, run, acts, i);
    CountersInRange(cfg, t);
    assert StandardNames(t.runners) == set n | n in t.runners && RowOf(t, n).rec.gen.model == Standard;
  }

  /** Ownership, in every run: a job holds a generation exactly when that generation's
      row names the job as owner, the row then mirrors the job's record, no generation
      has two holders, and every owner exists. */
  lemma OwnershipInRun(cfg: Config, run: seq<System>, acts: seq<Action>, i: nat, k: Id, k2: Id, n: Id)
    requires IsRun(cfg, run, acts) && i < |run| && n != NONE
    ensures var t := StateAt(run, i).t;
            && (Load(t, k).gen.vm == n <==> n in t.runners && k != NONE && RowOf(t, n).owner == k)
            && (Load(t, k).gen.vm == n ==> k in t.jobs && RowOf(t, n).rec == Load(t, k))
            && (Load(t, k).gen.vm == n && Load(t, k2).gen.vm == n ==> k == k2)
  {
    hide IsRun, BooksOk;
    var t := StateAt(run, i).t;
    BooksInRun(cfg, run, acts, i);
    KeysAreReal(cfg, t);
    if k in t.jobs { OwnershipIsBijective(cfg, t, k, n); }
    if k2 in t.jobs { OwnershipIsBijective(cfg, t, k2, n); }
  }

  /** In every run an advertised runner is detached and no job was ever recorded on it. */
  lemma AdvertisedIsFree(cfg: Config, run: seq<System>, acts: seq<Action>, i: nat, n: Id)
    requires IsRun(cfg, run, acts) && i < |run|
    requires n in StateAt(run, i).t.runners && RowOf(StateAt(run, i).t, n).available
    ensures var t := StateAt(run, i).t;
            RowOf(t, n).owner == NONE && n !in t.evidence && forall k :: Load(t, k).gen.vm != n
  {
    hide IsRun;
    BooksInRun(cfg, run, acts, i);
    KeysAreReal(cfg, StateAt(run, i).t);
  }

  /** No lost demand, in any run: a stored job is due for reconciliation exactly while
      it is unserved and not failed, holds a VM, or owes a deletion; then it has a due
      time, no earlier than its dispatch marker, and no expiry; an expiry is set
      exactly on finished jobs that owe nothing. */
  lemma NoDemandIsLost(cfg: Config, run: seq<System>, acts: seq<Action>, i: nat, k: Id)
    requires IsRun(cfg, run, acts) && i < |run| && k in StateAt(run, i).t.jobs
    ensures var r := Load(StateAt(run, i).t, k);
            && (r.needsReconcile <==> (r.failure == NONE && !r.terminal) || r.gen.vm != NONE || r.pendingDelete != NONE)
            && (r.needsReconcile ==>
                  r.nextActionAt != NEVER && r.dispatch.until <= r.nextActionAt && r.expiresAt == NEVER)
            && (r.expiresAt != NEVER <==> r.terminal && r.gen.vm == NONE && r.pendingDelete == NONE)
  {
    hide IsRun;
    BooksInRun(cfg, run, acts, i);
    assert Filed(StateAt(run, i).t.jobs[k]);
  }
}
