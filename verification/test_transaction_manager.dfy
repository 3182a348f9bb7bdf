/**
 * The test transaction manager as the objects it is: a manager whose
 * callbacks assign its recording flags in place, and the one transaction
 * object it hands out, whose savepoint callbacks assign the flags of the
 * manager that owns it.
 *
 * Each callback is proved against `RecordedFlags.Step`: its return value is
 * the step's outcome and its new flags are the step's flags. Its `modifies`
 * clause names only the fields it assigns, so the configuration, the
 * transaction object and every other flag are unchanged by the frame.
 */
module TransactionManager {
  import opened RecordedFlags

  /**
   * The manager's transaction object (the anonymous `SimpleTransactionStatus`
   * that `TestTransactionManager` declares). Its identity is what the identity
   * guards compare against; its savepoint callbacks record into `owner`, whose
   * one transaction object it is.
   */
  class TransactionObject {
    const owner: TestTransactionManager

    constructor(owner: TestTransactionManager)
      ensures this.owner == owner
    {
      this.owner := owner;
    }

    /** `hasSavepoint()`: a savepoint was created and has not been released since. */
    function HasSavepoint(): (r: bool)
      reads owner
      ensures r == RecordedFlags.HasSavepoint(owner.Recorded())
    {
      owner.savepoint && !owner.savepointRelease
    }

    /** Starts a new savepoint, forgetting whether the previous one was released or rolled back to. */
    method CreateSavepoint() returns (token: Token)
      requires owner.transaction == this
      modifies owner`savepoint, owner`savepointRelease, owner`savepointRollback
      ensures token == SAVEPOINT
      ensures owner.Recorded() == Step(owner.Config(), old(owner.Recorded()), Call.CreateSavepoint).after
      ensures owner.savepoint && !owner.savepointRelease && !owner.savepointRollback
      ensures HasSavepoint()
    {
      owner.savepointRelease := false;
      owner.savepointRollback := false;
      owner.savepoint := true;
      token := SAVEPOINT;
    }

    /** Records a rollback to the savepoint, but only for the manager's own token. */
    method RollbackToSavepoint(savepoint: Token)
      requires owner.transaction == this
      modifies owner`savepointRollback
      ensures owner.Recorded() == Step(owner.Config(), old(owner.Recorded()), Call.RollbackToSavepoint(savepoint)).after
      ensures owner.savepointRollback == (old(owner.savepointRollback) || savepoint == SAVEPOINT)
      ensures HasSavepoint() == old(HasSavepoint())
    {
      if savepoint == SAVEPOINT {
        owner.savepointRollback := true;
      }
    }

    /** Records the release of the savepoint, but only for the manager's own token. */
    method ReleaseSavepoint(savepoint: Token)
      requires owner.transaction == this
      modifies owner`savepointRelease
      ensures owner.Recorded() == Step(owner.Config(), old(owner.Recorded()), Call.ReleaseSavepoint(savepoint)).after
      ensures owner.savepointRelease == (old(owner.savepointRelease) || savepoint == SAVEPOINT)
      ensures savepoint == SAVEPOINT ==> !HasSavepoint()
      ensures savepoint != SAVEPOINT ==> owner.Recorded() == old(owner.Recorded())
    {
      if savepoint == SAVEPOINT {
        owner.savepointRelease := true;
      }
    }
  }

  class TestTransactionManager {
    /** The one transaction object; set once, during construction. */
    var transaction: TransactionObject?

    const existingTransaction: bool
    const canCreateTransaction: bool

    var begin: bool
    var commit: bool
    var rollback: bool
    var rollbackOnly: bool
    var savepoint: bool
    var savepointRelease: bool
    var savepointRollback: bool

    /** The transaction object exists and belongs to this manager. */
    ghost predicate Valid()
      reads this
    {
      transaction != null && transaction.owner == this
    }

    /** The recording flags, as a value. */
    function Recorded(): Flags
      reads this
    {
      Flags(begin, commit, rollback, rollbackOnly, savepoint, savepointRelease, savepointRollback)
    }

    /** What the callbacks' guards consult: the transaction object and the two constructor flags. */
    function Config(): Adapter
      requires Valid()
      reads this
    {
      Adapter(transaction, existingTransaction, canCreateTransaction)
    }

    constructor(existingTransaction: bool, canCreateTransaction: bool)
      ensures Valid() && fresh(transaction)
      ensures this.existingTransaction == existingTransaction
      ensures this.canCreateTransaction == canCreateTransaction
      ensures Recorded() == Fresh
    {
      this.existingTransaction := existingTransaction;
      this.canCreateTransaction := canCreateTransaction;
      begin, commit, rollback, rollbackOnly := false, false, false, false;
      savepoint, savepointRelease, savepointRollback := false, false, false;
      new;
      transaction := new TransactionObject(this);
    }

    /** Every call returns the same transaction object, the one bound to this manager. */
    function DoGetTransaction(): (t: TransactionObject)
      requires Valid()
      reads this
      ensures t.owner == this
      ensures t == Config().transaction
    {
      transaction
    }

    /** Reports the constructor's `existingTransaction`, whatever handle it is given. */
    function IsExistingTransaction(t: object?): (r: bool)
      ensures r == existingTransaction
    {
      existingTransaction
    }

    /**
     * Begins a transaction: fails with an identity error for any handle but
     * the transaction object, then with a cannot-create error if this manager
     * cannot create transactions, and otherwise records `begin`. The
     * definition is not consulted.
     */
    method DoBegin<D>(t: object?, definition: D) returns (outcome: Outcome)
      requires Valid()
      modifies this`begin
      ensures StepResult(outcome, Recorded()) == Step(Config(), old(Recorded()), Call.DoBegin(t))
      ensures outcome == IllegalArgument <==> t != transaction
      ensures outcome == CannotCreate <==> t == transaction && !canCreateTransaction
      ensures begin == (old(begin) || outcome == Ok)
    {
      if t != transaction {
        return IllegalArgument;
      }
      if !canCreateTransaction {
        return CannotCreate;
      }
      begin := true;
      outcome := Ok;
    }

    /** Records `commit`, after checking that the status carries the transaction object. */
    method DoCommit(status: TransactionStatus) returns (outcome: Outcome)
      requires Valid()
      modifies this`commit
      ensures StepResult(outcome, Recorded()) == Step(Config(), old(Recorded()), Call.DoCommit(status))
      ensures outcome == Ok <==> status.transaction == transaction
      ensures outcome != CannotCreate
      ensures commit == (old(commit) || outcome == Ok)
    {
      if status.transaction != transaction {
        return IllegalArgument;
      }
      commit := true;
      outcome := Ok;
    }

    /** Records `rollback`, after checking that the status carries the transaction object. */
    method DoRollback(status: TransactionStatus) returns (outcome: Outcome)
      requires Valid()
      modifies this`rollback
      ensures StepResult(outcome, Recorded()) == Step(Config(), old(Recorded()), Call.DoRollback(status))
      ensures outcome == Ok <==> status.transaction == transaction
      ensures outcome != CannotCreate
      ensures rollback == (old(rollback) || outcome == Ok)
    {
      if status.transaction != transaction {
        return IllegalArgument;
      }
      rollback := true;
      outcome := Ok;
    }

    /** Records `rollbackOnly`, after checking that the status carries the transaction object. */
    method DoSetRollbackOnly(status: TransactionStatus) returns (outcome: Outcome)
      requires Valid()
      modifies this`rollbackOnly
      ensures StepResult(outcome, Recorded()) == Step(Config(), old(Recorded()), Call.DoSetRollbackOnly(status))
      ensures outcome == Ok <==> status.transaction == transaction
      ensures outcome != CannotCreate
      ensures rollbackOnly == (old(rollbackOnly) || outcome == Ok)
    {
      if status.transaction != transaction {
        return IllegalArgument;
      }
      rollbackOnly := true;
      outcome := Ok;
    }
  }
}
