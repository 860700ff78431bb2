/** Completion survives every reordering: duplicated, delayed and half-written
    deliveries never undo it. */
module Completion {
  import opened Types
  import opened Records
  import opened Transactions
  import opened Protocol
  import opened Transitions
  import opened Standing

  predicate RecordedDone(t: Tables, name: Id) {
    name in t.evidence && t.evidence[name].job.status == Completed
  }

  /** The job a generation's evidence is about. */
  function HeldFor(t: Tables, name: Id): Id {
    if name in t.evidence then t.evidence[name].jobKey else NONE
  }

  /** Evidence of this generation was written. */
  predicate Rewritten(t: Tables, t2: Tables, name: Id) {
    name in t2.evidence && (name !in t.evidence || t2.evidence[name] != t.evidence[name])
  }

  /** No store call takes evidence away, hands it to another job or reopens it, and
      evidence written for a finished job says so. */
  lemma CallKeepsEvidence(cfg: Config, t: Tables, now: Time, c: Call, name: Id)
    ensures var t2 := Perform(cfg, t, now, c);
            && (name in t.evidence ==> name in t2.evidence && HeldFor(t2, name) == HeldFor(t, name))
            && (RecordedDone(t, name) ==> RecordedDone(t2, name))
            && (Rewritten(t, t2, name) && Finished(t, HeldFor(t2, name)) ==> RecordedDone(t2, name))
  {
    hide Apply, Prepare, Mirror;
  }

  /** Terminal is final. */
  lemma {:induction false} TerminalIsFinal(cfg: Config, run: seq<System>, acts: seq<Action>, i: nat, j: nat, key: Id)
    requires IsRun(cfg, run, acts) && i <= j < |run| && Finished(StateAt(run, i).t, key)
    ensures Finished(StateAt(run, j).t, key)
  {
    hide Enabled, Step, Perform, CallOf;
    if i < j {
      TerminalIsFinal(cfg, run, acts, i, j - 1, key);
      var s, a := StateAt(run, j - 1), ActionAt(acts, j - 1);
      StepCalls(cfg, s, a);
      CallKeepsFinished(cfg, s.t, s.now, CallOf(cfg, s, a), key);
    }
  }

  /** Evidence stays, stays with its job, and once completed stays completed. */
  lemma {:induction false} EvidenceIsFinal(cfg: Config, run: seq<System>, acts: seq<Action>, i: nat, j: nat, name: Id)
    requires IsRun(cfg, run, acts) && i <= j < |run| && name in StateAt(run, i).t.evidence
    ensures name in StateAt(run, j).t.evidence && HeldFor(StateAt(run, j).t, name) == HeldFor(StateAt(run, i).t, name)
    ensures RecordedDone(StateAt(run, i).t, name) ==> RecordedDone(StateAt(run, j).t, name)
  {
    hide Enabled, Step, Perform, CallOf;
    if i < j {
      EvidenceIsFinal(cfg, run, acts, i, j - 1, name);
      var s, a := StateAt(run, j - 1), ActionAt(acts, j - 1);
      StepCalls(cfg, s, a);
      CallKeepsEvidence(cfg, s.t, s.now, CallOf(cfg, s, a), name);
    }
  }

  /** Whatever is written about a generation after its job is over says completed. */
  lemma LateEvidenceIsDone(cfg: Config, run: seq<System>, acts: seq<Action>, i: nat, j: nat, key: Id, name: Id)
    requires IsRun(cfg, run, acts) && i <= j < |acts| && Finished(StateAt(run, i).t, key)
    requires Rewritten(StateAt(run, j).t, StateAt(run, j + 1).t, name) && HeldFor(StateAt(run, j + 1).t, name) == key
    ensures RecordedDone(StateAt(run, j + 1).t, name)
  {
    hide Enabled, Step, Perform, CallOf;
    TerminalIsFinal(cfg, run, acts, i, j, key);
    var s, a := StateAt(run, j), ActionAt(acts, j);
    StepCalls(cfg, s, a);
    CallKeepsEvidence(cfg, s.t, s.now, CallOf(cfg, s, a), name);
  }

  lemma IntakeEnds(cfg: Config, s: System, key: Id, job: Job, source: Id, owned: bool)
    ensures Finished(Commit(cfg, s, key, false, Observe(job, source, true, owned)).t, key)
  {
  }

  lemma AssignTakes(s: System, key: Id, name: Id, job: Job)
    requires Finished(s.t, key)
    requires name !in s.t.evidence || HeldFor(s.t, name) == key
    ensures RecordedDone(CommitTx(s, RecordAssignment(s.t, s.now, key, name, job)).t, name)
  {
  }

  /** The two writes of a completed delivery against a delayed one: once the
      completion has reached the job record, every later evidence write of the job,
      be it a stale in-progress delivery, leaves completed evidence for good. */
  lemma DelayedDeliveryCannotRevive(cfg: Config, run: seq<System>, acts: seq<Action>, i: nat, j: nat, m: nat,
                                    key: Id, name: Id, job: Job, source: Id, owned: bool, late: Job)
    requires IsRun(cfg, run, acts) && i < j < m < |run|
    requires ActionAt(acts, i) == Intake(key, job, source, true, owned) && ActionAt(acts, j) == Assign(key, name, late)
    requires name in StateAt(run, j).t.evidence ==> HeldFor(StateAt(run, j).t, name) == key
    ensures var t := StateAt(run, m).t; Finished(t, key) && RecordedDone(t, name) && HeldFor(t, name) == key
  {
    hide Enabled, Perform, CallOf, Update;
    assert StateAt(run, i + 1) == Step(cfg, StateAt(run, i), ActionAt(acts, i));
    IntakeEnds(cfg, StateAt(run, i), key, job, source, owned);
    TerminalIsFinal(cfg, run, acts, i + 1, j, key);
    TerminalIsFinal(cfg, run, acts, j, m, key);
    assert StateAt(run, j + 1) == Step(cfg, StateAt(run, j), ActionAt(acts, j));
    AssignTakes(StateAt(run, j), key, name, late);
    EvidenceIsFinal(cfg, run, acts, j + 1, m, name);
  }

  /** What a delivery that names a runner leaves: evidence for its own job, completed if that
      is over or the evidence said so before, kept for a week once it is completed; the
      runner leaves the pool.  One for an unknown job, or for a runner that another job
      has evidence of, leaves everything as it is, and fails unless it is a completed one
      of a known job. */
  lemma AssignmentIsTaken(cfg: Config, s: System, key: Id, name: Id, job: Job)
    ensures var t, t2 := s.t, Step(cfg, s, Assign(key, name, job)).t;
            if key !in t.jobs || (name in t.evidence && HeldFor(t, name) != key) then
              && t2 == t
              && (RecordAssignment(t, s.now, key, name, job).Aborted? <==> key !in t.jobs || job.status != Completed)
            else
              var over := Finished(t, key) || RecordedDone(t, name) || job.status == Completed;
              && name in t2.evidence && HeldFor(t2, name) == key
              && t2.evidence[name].job == (if over then job.(status := Completed) else job)
              && t2.evidence[name].expiresAt == (if over then s.now + WEEK else NEVER)
              && (name in t2.runners ==> !t2.runners[name].available)
              && t2.evidence == t.evidence[name := t2.evidence[name]]
  {
  }
}
