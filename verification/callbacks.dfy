/** What a callback may do to the record it is given, and what is stored then. */
module Callbacks {
  import opened Types
  import opened Records
  import opened Transactions

  /** What no callback may do to a stored record. */
  lemma ApplyBounds(c: Change, cfg: Config, now: Time, r: Record, f: Fleet)
    ensures var o := Apply(c, cfg, now, r, f);
            o.Accept? ==>
              && (r.terminal ==> o.r.terminal)
              && (o.r.pendingDelete == NONE || o.r.pendingDelete == r.pendingDelete || Owes(c, o.r.pendingDelete))
              && (!c.Claim? && !c.DropLease? ==> o.r.lease == r.lease)
              && (c.DropLease? ==> o.r.lease.holder == NONE)
              && (NeedsFence(c) ==> Fenced(r, TokenOf(c), now))
              && (c.Claim? ==>
                    && !LeaseLive(r, now) && o.r.lease == Lease(TokenOf(c), LeaseEnd(cfg, now)) && o.r.gen == r.gen
                    && r.job.id != NONE)
              && (r.job.id != NONE && NamesJob(c) ==> o.r.job.id != NONE)
  {
  }

  lemma PrepareBounds(r: Record, now: Time)
    ensures var r2 := Prepare(r, now);
            && r2.gen == r.gen && r2.lease == r.lease && r2.terminal == r.terminal
            && r2.pendingDelete == r.pendingDelete && r2.job == r.job && r2.dispatch == r.dispatch
  {
  }

  function Counts(t: Tables, capacity: bool): Fleet {
    if capacity then t.fleet else Fleet(0, 0, 0)
  }

  /** What a committed update stores of what its callback left. */
  lemma Stored(cfg: Config, t: Tables, now: Time, key: Id, capacity: bool, c: Change)
    requires Update(t, cfg, now, key, capacity, c).Committed?
    ensures
      var t2 := Update(t, cfg, now, key, capacity, c).t;
      var r2 := Load(t2, key);
      var o := Apply(c, cfg, now, Load(t, key), Counts(t, capacity));
      && key in t2.jobs && t2.jobs == t.jobs[key := r2] && o.Accept?
      && r2.gen == o.r.gen && r2.terminal == o.r.terminal && r2.lease == o.r.lease
      && r2.pendingDelete == o.r.pendingDelete && r2.job == o.r.job && r2.dispatch == o.r.dispatch
  {
    hide Apply, Prepare, Mirror;
    PrepareBounds(Apply(c, cfg, now, Load(t, key), Counts(t, capacity)).r, now);
  }

  /** The bounds, over a committed update. */
  lemma UpdateBounds(cfg: Config, t: Tables, now: Time, key: Id, capacity: bool, c: Change)
    requires Update(t, cfg, now, key, capacity, c).Committed?
    ensures var t2 := Update(t, cfg, now, key, capacity, c).t;
            var r, r2 := Load(t, key), Load(t2, key);
            && key in t2.jobs && t2.jobs == t.jobs[key := r2]
            && (r.terminal ==> r2.terminal)
            && (r2.pendingDelete == NONE || r2.pendingDelete == r.pendingDelete || Owes(c, r2.pendingDelete))
            && (!c.Claim? && !c.DropLease? ==> r2.lease == r.lease)
            && (c.DropLease? ==> r2.lease.holder == NONE)
            && (NeedsFence(c) ==> Fenced(r, TokenOf(c), now))
            && (c.Claim? ==> !LeaseLive(r, now) && r2.lease == Lease(TokenOf(c), LeaseEnd(cfg, now)) && r2.gen == r.gen
                             && r.job.id != NONE)
            && (r.job.id != NONE && NamesJob(c) ==> r2.job.id != NONE)
  {
    hide Apply, Update;
    Stored(cfg, t, now, key, capacity, c);
    ApplyBounds(c, cfg, now, Load(t, key), Counts(t, capacity));
  }

  /** The claim each of a worker's callbacks leaves stored. */
  lemma ClaimAfter(cfg: Config, t: Tables, now: Time, key: Id, capacity: bool, c: Change)
    requires Update(t, cfg, now, key, capacity, c).Committed?
    ensures
      var r := Load(t, key);
      var g, g2 := r.gen, Load(Update(t, cfg, now, key, capacity, c).t, key).gen;
      match c {
        case SaveStatus(_, _) => g2 == g
        case Reread(_) => g2 == g
        case SaveDemand(_, _) => g2 == g
        case DropLease(_) => g2 == g
        case ReleaseClaim(_) => g2 == NoGeneration(g.machine)
        case ForgetAttempt(_) => g2 == g.(zone := NONE, model := NoModel, operation := NONE, template := NONE)
        case Reserve(_, name) => g2 == if r.terminal then g else g.(vm := name)
        case SaveJit(_, jit) => g2 == g.(jit := jit, jitIssuedAt := now)
        case SaveAttempt(_, a) =>
          && !r.terminal && AttemptOf(g2) == a
          && g2 == g.(template := a.template, zone := a.zone, model := a.model, machine := a.machine,
                      attemptedAt := if g.template == NONE then now else g.attemptedAt)
        case SaveOperation(_, operation) => g2 == g.(operation := operation)
        case KeepRunning(_) => g2 == g.(createdAt := g2.createdAt)
        case MarkCreated(_) => g2 == g.(createdAt := g2.createdAt)
        case _ => true
      }
  {
    hide Update;
    Stored(cfg, t, now, key, capacity, c);
  }
}
