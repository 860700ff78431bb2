/** Whether a runner is busy: stored assignment evidence first, GitHub's
    registration only where there is none. */
module Registrations {
  import opened Types
  import opened Transactions
  import opened Protocol
  import opened Ledger
  import opened DocumentStore

  predicate Says(answer: Option<Status>, status: Status) {
    answer == Some(status)
  }

  /** checkAssignment; answer is GitHub's status of the assigned job, None when the
      lookup failed. */
  method CheckAssignment(store: Store, cfg: Config, now: Time, name: Id, e: Evidence, answer: Option<Status>)
    returns (active: bool, failed: bool)
    modifies store`runners, store`evidence
    ensures active <==> e.job.id != NONE && e.job.status != Completed && (failed || !Says(answer, Completed))
    ensures failed ==> active
    ensures !failed && e.job.id != NONE && e.job.status != Completed ==> answer.Some?
    ensures !Says(answer, Completed) ==> store.Contents() == old(store.Contents())
    ensures old(name in store.evidence && store.evidence[name] == e) ==>
              (if !failed && e.job.id != NONE && e.job.status != Completed && Says(answer, Completed)
               then name in store.evidence && store.evidence[name].jobKey == e.jobKey
                    && store.evidence[name].job == e.job.(status := Completed)
               else store.Contents() == old(store.Contents()))
    ensures old(name !in store.evidence) && e.job.id == NONE ==> store.Contents() == old(store.Contents())
    ensures old(LedgerOk(cfg, store.Contents())) ==> LedgerOk(cfg, store.Contents())
  {
    var job := e.job;
    if job.id == NONE || job.status == Completed { return false, false; }
    if answer.None? { return true, true; }
    if answer.value == Completed {
      job := job.(status := Completed);
      var err := store.RecordAssignment(cfg, now, e.jobKey, name, job);
      if err.Some? { return true, true; }
    }
    return answer.value != Completed, false;
  }

  /** capacityRegistration; runnerState is what the registration endpoints say. */
  method CapacityRegistration(store: Store, cfg: Config, now: Time, name: Id, answer: Option<Status>,
      runnerState: Option<Registration>)
    returns (reg: Registration, failed: bool)
    modifies store`runners, store`evidence
    ensures !failed ==> MayAnswer(store.Contents(), name, reg)
    ensures old(Assigned(store.Contents(), name)) && !Says(answer, Completed) ==> reg == Busy
    ensures old(Assigned(store.Contents(), name)) && answer.None? ==> failed
    ensures old(Assigned(store.Contents(), name)) && !failed ==>
              (reg == Busy <==> !Says(answer, Completed)) && (reg == Unregistered <==> Says(answer, Completed))
    ensures old(name !in store.evidence) && !failed ==> runnerState == Some(reg)
    ensures old(LedgerOk(cfg, store.Contents())) ==> LedgerOk(cfg, store.Contents())
  {
    var a := Evidence(NONE, NoJob(), NEVER);
    if name in store.evidence { a := store.evidence[name]; }
    if a.job.id != NONE {
      var active, broken := CheckAssignment(store, cfg, now, name, a, answer);
      if broken { return Busy, true; }
      if active { return Busy, false; }
      return Unregistered, false;
    }
    if runnerState.None? { return Offline, true; }
    return runnerState.value, false;
  }

  /** A busy answer never leads to a deletion, whatever the record says. */
  lemma BusyIsNeverRemoved(cfg: Config, t: Tables, name: Id, r: Record, reg: Registration, now: Time)
    requires MayAnswer(t, name, reg) && ShouldRemove(cfg, r, reg, now)
    ensures !Assigned(t, name)
  {
  }
}
