/** The bootstrap sequence run by the constructor: create the database, the
    table and the `timestamp` index, each tolerating the driver's
    `ReqlRuntimeError` (index.js:91-150). Connecting is in Options. */
module Provisioning {
  import opened Wrappers
  import opened Trace

  /** How the database answers one provisioning request. */
  datatype StepAnswer =
    | Created
    | RuntimeError              // rejected with `r.Error.ReqlRuntimeError`
    | OtherError(error: DbError) // rejected with any other error

  /** The answers to the four requests, in order. `indexWait` is only
      consulted when `indexCreate` succeeded. */
  datatype Answers = Answers(dbCreate: StepAnswer, tableCreate: StepAnswer,
                             indexCreate: StepAnswer, indexWait: StepAnswer)

  datatype Step = CreateDb | CreateTable | CreateIndex | WaitIndex

  /** The error the series' final callback throws. */
  datatype BootError = StepFailed(step: Step, answer: StepAnswer)

  /** A step that a `.catch(r.Error.ReqlRuntimeError, ...)` guards passes
      unless some other error comes back. */
  predicate Tolerated(a: StepAnswer)
  {
    !a.OtherError?
  }

  /** The requests the bootstrap issues: each step only runs once every
      earlier one passed, and the index is waited for only when it was
      created just now. */
  function ProvisionRequests(db: string, table: string, a: Answers): (reqs: seq<Request>)
    ensures 1 <= |reqs| <= 4 && reqs[0] == DbCreate(db)
    ensures NoDataRequests(reqs)
    ensures |reqs| >= 2 <==> Tolerated(a.dbCreate)
    ensures |reqs| >= 2 ==> reqs[1] == TableCreate(db, table)
    ensures |reqs| >= 3 <==> Tolerated(a.dbCreate) && Tolerated(a.tableCreate)
    ensures |reqs| >= 3 ==> reqs[2] == IndexCreate(db, table, "timestamp")
    ensures |reqs| == 4 <==> Tolerated(a.dbCreate) && Tolerated(a.tableCreate) && a.indexCreate.Created?
    ensures |reqs| == 4 ==> reqs[3] == IndexWait(db, table)
  {
    [DbCreate(db)]
    + if a.dbCreate.OtherError? then [] else
      [TableCreate(db, table)]
      + if a.tableCreate.OtherError? then [] else
        [IndexCreate(db, table, "timestamp")]
        + if a.indexCreate.Created? then [IndexWait(db, table)] else []
  }

  /** How the series ends: passing when every step passed, otherwise the
      first failing step. The index wait has no runtime-error guard. */
  function ProvisionResult(a: Answers): (r: Outcome<BootError>)
    ensures r.Pass? <==>
      && Tolerated(a.dbCreate) && Tolerated(a.tableCreate)
      && (a.indexCreate.RuntimeError? || (a.indexCreate.Created? && a.indexWait.Created?))
    ensures !Tolerated(a.dbCreate) ==> r == Fail(StepFailed(CreateDb, a.dbCreate))
    ensures Tolerated(a.dbCreate) && !Tolerated(a.tableCreate) ==> r == Fail(StepFailed(CreateTable, a.tableCreate))
    ensures Tolerated(a.dbCreate) && Tolerated(a.tableCreate) && a.indexCreate.OtherError? ==>
      r == Fail(StepFailed(CreateIndex, a.indexCreate))
    ensures Tolerated(a.dbCreate) && Tolerated(a.tableCreate) && a.indexCreate.Created? && !a.indexWait.Created? ==>
      r == Fail(StepFailed(WaitIndex, a.indexWait))
    ensures r.Fail? && r.error.step == WaitIndex ==> a.indexCreate.Created? && !a.indexWait.Created?
  {
    if a.dbCreate.OtherError? then Fail(StepFailed(CreateDb, a.dbCreate))
    else if a.tableCreate.OtherError? then Fail(StepFailed(CreateTable, a.tableCreate))
    else if a.indexCreate.OtherError? then Fail(StepFailed(CreateIndex, a.indexCreate))
    else if a.indexCreate.Created? && !a.indexWait.Created? then Fail(StepFailed(WaitIndex, a.indexWait))
    else Pass
  }

  /** Bootstrapping against a database, table and index that already exist
      reaches the same outcome as against a clean server, with one request
      fewer (no index wait). */
  lemma ExistingTargetBootstrapsLikeClean(db: string, table: string, wait: StepAnswer)
    ensures ProvisionResult(Answers(RuntimeError, RuntimeError, RuntimeError, wait))
         == ProvisionResult(Answers(Created, Created, Created, Created)) == Pass
    ensures ProvisionRequests(db, table, Answers(RuntimeError, RuntimeError, RuntimeError, wait))
         == ProvisionRequests(db, table, Answers(Created, Created, Created, Created))[..3]
  {
  }
}
