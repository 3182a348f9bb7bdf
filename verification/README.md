# TestTransactionManager, modelled in Dafny

Spring's transaction module tests its generic transaction driver against a
fake resource adapter, `TestTransactionManager`. The adapter does no real
work. It records which of its callbacks ran in seven boolean flags:
`begin`, `commit`, `rollback`, `rollbackOnly`, `savepoint`,
`savepointRelease` and `savepointRollback`. It is configured once, at
construction, by two fixed flags: `existingTransaction` and
`canCreateTransaction`. It hands out one transaction object (`TRANSACTION`).
That object implements the savepoint callbacks and records them into the
manager that owns it.

The project has three layers:

- `RecordedFlags` (recorded_flags.dfy) holds the flags as a value (`Flags`)
  and each callback as a value (`Call`). `Step` gives the effect of one
  callback: its two guards (the identity guard and the creation guard), then
  its assignments. `SetsFlag` and `ClearsFlag` form an independent table of the flags
  a successful callback writes. `StepWritesExactly` proves that `Step` writes
  exactly those flags.
- `RecordedTraces` (recorded_traces.dfy) runs sequences of callbacks (`Run`).
  It proves, for any order of calls:
  - when a lifecycle flag ends up set;
  - that a call rejected by a guard leaves no trace;
  - when `hasSavepoint()` holds.
- `TransactionManager` (test_transaction_manager.dfy) is the imperative
  model. `TestTransactionManager` is a class with the seven flags as mutable
  fields and the two configuration flags as constants. `TransactionObject` is
  the anonymous transaction object. Its savepoint methods modify the fields
  of their `owner`. Every callback method is proved against `Step`. Its
  `modifies` clause names only the fields it assigns, so every other flag,
  the configuration and the transaction object are unchanged by its frame.

Java exceptions become the `Outcome` a callback returns: `IllegalArgument`
for "Not the same transaction object" and `CannotCreate` for
`CannotCreateTransactionException`. Object identity follows the code's `==`
and `equals`, which `SimpleTransactionStatus` does not override. Handles are
Dafny object references, and `null` is allowed. Savepoint tokens are
`Token` values whose identity number stands for the reference, with the
sentinel `SAVEPOINT` as identity 0.

Two behaviours of the code are easy to misread:
- Savepoint tokens are compared by reference against a single shared
  sentinel, not by a per-attempt generated value.
- `rollbackToSavepoint` leaves `hasSavepoint()` as it was. It does not end
  the savepoint; only `releaseSavepoint` does.

## Model

| member | source | states |
|---|---|---|
| RecordedFlags.Step | spring-tx/src/test/java/org/springframework/transaction/TestTransactionManager.java:35-131 | a callback fails with the identity error exactly when it presents a handle other than the transaction object, fails with cannot-create exactly when it is a begin with the right handle on a manager that cannot create transactions, and a failed callback changes no flag |
| RecordedFlags.StepWritesExactly | spring-tx/src/test/java/org/springframework/transaction/TestTransactionManager.java:35-131 | a successful callback sets the flags of its own table entry (one flag per lifecycle callback, `savepoint` for create, the release or rollback flag only for the `SAVEPOINT` token), create alone clears the release and rollback bookkeeping, and every other flag keeps its value |
| RecordedTraces.Run | spring-tx/src/test/java/org/springframework/transaction/TestTransactionManager.java:99-131 | over any sequence of callbacks, a set `begin`, `commit`, `rollback` or `rollbackOnly` flag is never reset |
| RecordedTraces.AcceptedOnly | spring-tx/src/test/java/org/springframework/transaction/TestTransactionManager.java:99-131 | keeps exactly the calls that pass both guards, and no more calls than it was given |
| RecordedTraces.LifecycleFlagRecorded | spring-tx/src/test/java/org/springframework/transaction/TestTransactionManager.java:99-131 | after any sequence of callbacks a lifecycle flag is set if and only if it was set before or some accepted callback in the sequence records it |
| RecordedTraces.RejectedCallsLeaveNoTrace | spring-tx/src/test/java/org/springframework/transaction/TestTransactionManager.java:99-131 | removing every callback that fails a guard leaves the final flags unchanged: errors are raised before any flag changes |
| RecordedTraces.StepHasSavepoint | spring-tx/src/test/java/org/springframework/transaction/TestTransactionManager.java:41-60 | after one callback `hasSavepoint()` is true if it created a savepoint, false if it released the `SAVEPOINT` token, and otherwise what it was before |
| RecordedTraces.HasSavepointAfterRun | spring-tx/src/test/java/org/springframework/transaction/TestTransactionManager.java:35-60 | after any sequence of callbacks `hasSavepoint()` holds if and only if some call created a savepoint that no later call released with the `SAVEPOINT` token, or it held before and nothing released it; rollback to a savepoint and the lifecycle callbacks never affect it |
| TransactionManager.TransactionObject.constructor | spring-tx/src/test/java/org/springframework/transaction/TestTransactionManager.java:32-62 | the transaction object is bound to the manager that creates it |
| TransactionManager.TransactionObject.HasSavepoint | spring-tx/src/test/java/org/springframework/transaction/TestTransactionManager.java:56-60 | `hasSavepoint()` is the savepoint predicate on the owner's recorded flags: a savepoint was created and not released |
| TransactionManager.TransactionObject.CreateSavepoint | spring-tx/src/test/java/org/springframework/transaction/TestTransactionManager.java:48-54 | returns the `SAVEPOINT` sentinel, sets `savepoint`, resets `savepointRelease` and `savepointRollback`, touches nothing else, and `hasSavepoint()` holds afterwards |
| TransactionManager.TransactionObject.RollbackToSavepoint | spring-tx/src/test/java/org/springframework/transaction/TestTransactionManager.java:34-39 | records `savepointRollback` only for the `SAVEPOINT` token (any other token is a no-op), touches no other flag, and leaves `hasSavepoint()` unchanged |
| TransactionManager.TransactionObject.ReleaseSavepoint | spring-tx/src/test/java/org/springframework/transaction/TestTransactionManager.java:41-46 | records `savepointRelease` only for the `SAVEPOINT` token, after which `hasSavepoint()` is false; any other token changes nothing |
| TransactionManager.TestTransactionManager.constructor | spring-tx/src/test/java/org/springframework/transaction/TestTransactionManager.java:64-86 | a new manager has every recording flag false, keeps the two configuration flags it was given (constants, so fixed for its lifetime) and owns a fresh transaction object |
| TransactionManager.TestTransactionManager.DoGetTransaction | spring-tx/src/test/java/org/springframework/transaction/TestTransactionManager.java:88-91 | always returns the manager's one transaction object, which is bound to this manager; no callback reassigns it |
| TransactionManager.TestTransactionManager.IsExistingTransaction | spring-tx/src/test/java/org/springframework/transaction/TestTransactionManager.java:93-96 | returns the constructor's `existingTransaction` whatever handle it is given |
| TransactionManager.TestTransactionManager.DoBegin | spring-tx/src/test/java/org/springframework/transaction/TestTransactionManager.java:98-107 | a foreign handle fails with the identity error, then a manager that cannot create transactions fails with cannot-create, and otherwise only `begin` is set; the result agrees with `Step` |
| TransactionManager.TestTransactionManager.DoCommit | spring-tx/src/test/java/org/springframework/transaction/TestTransactionManager.java:109-115 | succeeds exactly when the status carries the transaction object, sets only `commit` then, and changes nothing on the identity error |
| TransactionManager.TestTransactionManager.DoRollback | spring-tx/src/test/java/org/springframework/transaction/TestTransactionManager.java:117-123 | succeeds exactly when the status carries the transaction object, sets only `rollback` then, and changes nothing on the identity error |
| TransactionManager.TestTransactionManager.DoSetRollbackOnly | spring-tx/src/test/java/org/springframework/transaction/TestTransactionManager.java:125-131 | succeeds exactly when the status carries the transaction object, sets only `rollbackOnly` then, and changes nothing on the identity error |

## Left out

- The generic driver in `AbstractPlatformTransactionManager` is not part of this model. That covers propagation, the join, new and nested decisions, the rollback-only override on commit and the double-completion errors. No property is claimed about it.
- `setTransactionSynchronization(SYNCHRONIZATION_NEVER)` in the constructor configures that base class, so it has no counterpart here.
- `TransactionManager.TestTransactionManager.DoBegin` takes the `TransactionDefinition` as a value of an arbitrary type and ignores it, as the code does.
- `SimpleTransactionStatus`, `DefaultTransactionStatus` and the exception classes are library types. A status is modelled by the handle it carries, and an exception by an `Outcome` that is returned instead of thrown. A `null` status, which would raise a `NullPointerException`, is not modelled.
- `SAVEPOINT` is a string literal, so Java interns it and any other `"savepoint"` literal in the same JVM is the same reference. The model has only the single identity 0 for it and does not model string interning.
- `TransactionManager.TestTransactionManager` holds its transaction object in a field that is assigned once, right after the object is allocated, rather than in a `final` field. Dafny cannot hand `this` to another object before construction completes. `Valid()` ties the two objects together, and no method's frame includes the field.
- Serialization and threading are not modelled.
