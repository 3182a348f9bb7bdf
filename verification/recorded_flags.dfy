/**
 * The recording state of the test transaction manager and the effect that
 * each of its adapter callbacks has on it, as pure values.
 *
 * The manager keeps seven boolean "recording" flags. Every callback either
 * fails before touching them (a handle that is not the manager's own
 * transaction object, or a begin the manager is configured to refuse) or sets
 * the flags it records. `SetsFlag` and `ClearsFlag` give, per callback, the flags a
 * successful call writes; `Step` is proved to write exactly those.
 */
module RecordedFlags {

  datatype Option<+T> = None | Some(value: T)

  /** How a callback ends: normally, or with one of the two exceptions it throws. */
  datatype Outcome =
    | Ok
    | IllegalArgument  // "Not the same transaction object"
    | CannotCreate     // CannotCreateTransactionException

  /**
   * A Java object handed out as a savepoint, compared by reference (`==`).
   * Two tokens are the same reference exactly when their identities agree.
   */
  datatype Token = Token(identity: nat)

  /** The sentinel the manager returns from every `createSavepoint`. */
  const SAVEPOINT: Token := Token(0)

  /** The transaction status passed to commit, rollback and set-rollback-only: only its handle matters. */
  datatype TransactionStatus = TransactionStatus(transaction: object?)

  /** The seven recording flags, in the order the manager declares them. */
  datatype Flags = Flags(
    begin: bool,
    commit: bool,
    rollback: bool,
    rollbackOnly: bool,
    savepoint: bool,
    savepointRelease: bool,
    savepointRollback: bool)

  /** Every flag as a freshly constructed manager has it. */
  const Fresh: Flags := Flags(false, false, false, false, false, false, false)

  /** A name for each flag, so that frame conditions can quantify over flags. */
  datatype FlagName =
    | Begin | Commit | Rollback | RollbackOnly
    | Savepoint | SavepointRelease | SavepointRollback

  function Get(f: Flags, n: FlagName): bool
  {
    match n
    case Begin => f.begin
    case Commit => f.commit
    case Rollback => f.rollback
    case RollbackOnly => f.rollbackOnly
    case Savepoint => f.savepoint
    case SavepointRelease => f.savepointRelease
    case SavepointRollback => f.savepointRollback
  }

  /** The flags recording the outer transaction's lifecycle; no callback ever resets them. */
  predicate IsLifecycle(n: FlagName)
  {
    n.Begin? || n.Commit? || n.Rollback? || n.RollbackOnly?
  }

  /** What the transaction object reports from `hasSavepoint()`. */
  predicate HasSavepoint(f: Flags)
  {
    f.savepoint && !f.savepointRelease
  }

  /** The manager's fixed configuration: its one transaction object and its two constructor flags. */
  datatype Adapter = Adapter(transaction: object, existingTransaction: bool, canCreateTransaction: bool)

  /** One callback into the manager, with the arguments that affect it. */
  datatype Call =
    | DoBegin(handle: object?)
    | DoCommit(status: TransactionStatus)
    | DoRollback(status: TransactionStatus)
    | DoSetRollbackOnly(status: TransactionStatus)
    | CreateSavepoint
    | RollbackToSavepoint(token: Token)
    | ReleaseSavepoint(token: Token)

  /**
   * The transaction handle a callback presents, if it presents one. The
   * savepoint callbacks are invoked on the transaction object itself and
   * present none.
   */
  function PresentedHandle(c: Call): Option<object?>
  {
    match c
    case DoBegin(t) => Some(t)
    case DoCommit(s) => Some(s.transaction)
    case DoRollback(s) => Some(s.transaction)
    case DoSetRollbackOnly(s) => Some(s.transaction)
    case _ => None
  }

  /** The identity guard fails: the presented handle is not the manager's transaction object. */
  predicate IdentityMismatch(a: Adapter, c: Call)
  {
    PresentedHandle(c).Some? && PresentedHandle(c).value != a.transaction
  }

  /** The creation guard fails: a begin with the right handle on a manager that cannot create transactions. */
  predicate CreationRefused(a: Adapter, c: Call)
  {
    c.DoBegin? && !IdentityMismatch(a, c) && !a.canCreateTransaction
  }

  predicate Accepted(a: Adapter, c: Call)
  {
    !IdentityMismatch(a, c) && !CreationRefused(a, c)
  }

  /** Whether a successful call `c` sets the flag `n` to true. */
  predicate SetsFlag(c: Call, n: FlagName)
  {
    match c
    case DoBegin(_) => n == Begin
    case DoCommit(_) => n == Commit
    case DoRollback(_) => n == Rollback
    case DoSetRollbackOnly(_) => n == RollbackOnly
    case CreateSavepoint => n == Savepoint
    case RollbackToSavepoint(t) => t == SAVEPOINT && n == SavepointRollback
    case ReleaseSavepoint(t) => t == SAVEPOINT && n == SavepointRelease
  }

  /** Whether a successful call `c` resets the flag `n` to false: only a new savepoint clears the old one's bookkeeping. */
  predicate ClearsFlag(c: Call, n: FlagName)
  {
    c.CreateSavepoint? && (n == SavepointRelease || n == SavepointRollback)
  }

  datatype StepResult = StepResult(outcome: Outcome, after: Flags)

  /**
   * One callback on a manager with configuration `a` and flags `f`: the
   * guards in the order the callback checks them, then its assignments.
   */
  function Step(a: Adapter, f: Flags, c: Call): (r: StepResult)
    ensures r.outcome == IllegalArgument <==> IdentityMismatch(a, c)
    ensures r.outcome == CannotCreate <==> CreationRefused(a, c)
    ensures r.outcome != Ok ==> r.after == f
  {
    match c
    case DoBegin(t) =>
      if t != a.transaction then StepResult(IllegalArgument, f)
      else if !a.canCreateTransaction then StepResult(CannotCreate, f)
      else StepResult(Ok, f.(begin := true))
    case DoCommit(s) =>
      if s.transaction != a.transaction then StepResult(IllegalArgument, f)
      else StepResult(Ok, f.(commit := true))
    case DoRollback(s) =>
      if s.transaction != a.transaction then StepResult(IllegalArgument, f)
      else StepResult(Ok, f.(rollback := true))
    case DoSetRollbackOnly(s) =>
      if s.transaction != a.transaction then StepResult(IllegalArgument, f)
      else StepResult(Ok, f.(rollbackOnly := true))
    case CreateSavepoint =>
      StepResult(Ok, f.(savepointRelease := false, savepointRollback := false, savepoint := true))
    case RollbackToSavepoint(t) =>
      StepResult(Ok, if t == SAVEPOINT then f.(savepointRollback := true) else f)
    case ReleaseSavepoint(t) =>
      StepResult(Ok, if t == SAVEPOINT then f.(savepointRelease := true) else f)
  }

  /** The flag `n` as the table says a successful call `c` leaves it. */
  function Written(f: Flags, c: Call, n: FlagName): bool
  {
    if SetsFlag(c, n) then true else if ClearsFlag(c, n) then false else Get(f, n)
  }

  /**
   * A successful callback writes exactly the flags its table entry names and
   * leaves every other flag as it was.
   */
  lemma StepWritesExactly(a: Adapter, f: Flags, c: Call, n: FlagName)
    requires Step(a, f, c).outcome == Ok
    ensures Get(Step(a, f, c).after, n) == Written(f, c, n)
  {
    match c
    case DoBegin(_) =>
    case DoCommit(_) =>
    case DoRollback(_) =>
    case DoSetRollbackOnly(_) =>
    case CreateSavepoint =>
    case RollbackToSavepoint(_) =>
    case ReleaseSavepoint(_) =>
  }
}
