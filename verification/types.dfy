/** The documents the autoscaler keeps and the values its actors pass around.

    Identifiers (job keys, VM names, zones, templates, tokens, ...) are compared
    only for equality, so they are numbers here, with NONE in the place of the
    empty string.  Times are seconds on one clock; NEVER is the zero time. */
module Types {
  type Id = nat
  type Time = nat

  const NONE: Id := 0
  const NEVER: Time := 0
  const WEEK: Time := 7 * 24 * 3600
  const MINUTE: Time := 60

  datatype Option<+T> = None | Some(value: T)

  datatype Status = Unset | Queued | InProgress | Completed | OtherStatus

  datatype Provisioning = NoModel | Spot | Standard

  /** A GitHub job as stored; labels is the case-normalised, sorted label set. */
  datatype Job = Job(id: Id, status: Status, runner: Id, repo: Id, labels: Id)

  /** A (template, zone, provisioning model, machine type) tuple to try. */
  datatype Attempt = Attempt(template: Id, zone: Id, model: Provisioning, machine: Id)

  /** The claim a job record holds on one VM generation. */
  datatype Generation = Generation(
    vm: Id, zone: Id, model: Provisioning, machine: Id, template: Id,
    operation: Id, jit: Id, jitIssuedAt: Time, attemptedAt: Time, createdAt: Time)

  datatype Lease = Lease(holder: Id, until: Time)

  /** The outbox marker: the active dispatch token and the end of its window. */
  datatype Dispatch = Dispatch(token: Id, until: Time)

  /** lifecycleRecord: durable demand and an optional claim on a generation. */
  datatype Record = Record(
    gen: Generation, runnerId: Id, lease: Lease, dispatch: Dispatch,
    job: Job, source: Id, terminal: bool, failure: Id, pendingDelete: Id,
    seenAt: Time, nextActionAt: Time, needsReconcile: bool, expiresAt: Time)

  datatype Pool = Pool(source: Id, repo: Id, labels: Id)

  /** runnerRecord: one row of the capacity ledger. */
  datatype Row = Row(name: Id, owner: Id, pool: Pool, available: bool, nextActionAt: Time, rec: Record)

  datatype Fleet = Fleet(runners: int, standard: int, revision: int)

  datatype Evidence = Evidence(jobKey: Id, job: Job, expiresAt: Time)

  /** The four collections; evidence is keyed by the generation it belongs to. */
  datatype Tables = Tables(
    jobs: map<Id, Record>, runners: map<Id, Row>, fleet: Fleet, evidence: map<Id, Evidence>)

  datatype Failure =
    | UnknownJob | LeaseBusy | FleetFull | JobCompleted | TaskObsolete
    | JobOnlyChangedCapacity | NotFound | OwnerDisagrees | ConflictingEvidence

  datatype Config = Config(
    maxRunners: nat, maxStandard: nat, allowStandard: bool,
    taskTimeout: nat, retryAttempts: int, retryBackoff: nat, retryDuration: nat,
    registerTimeout: nat, sources: set<Id>, machines: set<Id>,
    zones: seq<Id>, template: Id, fallback: Id, families: seq<Id>)
  {
    /** The part of AutoscalerConfig.Validate the protocol rests on, plus the
        environment variables main requires to be present. */
    ghost predicate Valid() {
      && 1 <= maxRunners
      && maxStandard <= maxRunners
      && 30 <= taskTimeout <= 1700
      && 1 <= retryAttempts
      && template != NONE
      && (forall z :: z in zones ==> z != NONE)
    }
  }

  function NoGeneration(machine: Id): Generation {
    Generation(NONE, NONE, NoModel, machine, NONE, NONE, NONE, NEVER, NEVER, NEVER)
  }

  function NoJob(): Job {
    Job(NONE, Unset, NONE, NONE, NONE)
  }

  function BlankRecord(): Record {
    Record(NoGeneration(NONE), NONE, Lease(NONE, NEVER), Dispatch(NONE, NEVER),
           NoJob(), NONE, false, NONE, NONE, NEVER, NEVER, false, NEVER)
  }

  function PoolOf(source: Id, job: Job): Pool {
    Pool(source, job.repo, job.labels)
  }

  function AttemptOf(g: Generation): Attempt {
    Attempt(g.template, g.zone, g.model, g.machine)
  }

  function Later(a: Time, b: Time): (m: Time)
    ensures a <= m && b <= m && (m == a || m == b)
  {
    if a < b then b else a
  }
}
