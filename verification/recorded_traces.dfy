/**
 * Sequences of callbacks on one manager, and what the flags record after
 * them. These state, for any order of calls, when a lifecycle flag is set,
 * that a rejected call leaves no trace, and when `hasSavepoint()` holds.
 */
module RecordedTraces {
  import opened RecordedFlags

  /** The flags after the callbacks `calls`, in order, starting from `f`. A failed call leaves the flags as they were. */
  function Run(a: Adapter, f: Flags, calls: seq<Call>): (g: Flags)
    ensures forall n :: IsLifecycle(n) && Get(f, n) ==> Get(g, n)
    decreases |calls|
  {
    if calls == [] then f
    else
      var h := Step(a, f, calls[0]).after;
      assert forall n :: IsLifecycle(n) && Get(f, n) ==> Get(h, n) by {
        forall n | IsLifecycle(n) && Get(f, n) ensures Get(h, n) {
          if Step(a, f, calls[0]).outcome == Ok { StepWritesExactly(a, f, calls[0], n); }
        }
      }
      Run(a, h, calls[1..])
  }

  /** The calls among `calls` that pass both guards, in their original order. */
  function AcceptedOnly(a: Adapter, calls: seq<Call>): (r: seq<Call>)
    ensures |r| <= |calls|
    ensures forall c :: c in r ==> c in calls && Accepted(a, c)
    ensures forall c :: c in calls && Accepted(a, c) ==> c in r
    decreases |calls|
  {
    if calls == [] then []
    else
      var rest := AcceptedOnly(a, calls[1..]);
      assert forall c :: c in calls ==> c == calls[0] || c in calls[1..];
      if Accepted(a, calls[0]) then [calls[0]] + rest else rest
  }

  /** Some accepted call in `calls` sets the flag `n`. */
  predicate RecordedBy(a: Adapter, calls: seq<Call>, n: FlagName)
  {
    exists i :: 0 <= i < |calls| && Accepted(a, calls[i]) && SetsFlag(calls[i], n)
  }

  /**
   * A lifecycle flag (`begin`, `commit`, `rollback`, `rollbackOnly`) is set
   * after a sequence of callbacks exactly when it was set before or some
   * accepted callback in the sequence sets it.
   */
  lemma {:induction false} LifecycleFlagRecorded(a: Adapter, f: Flags, calls: seq<Call>, n: FlagName)
    requires IsLifecycle(n)
    ensures Get(Run(a, f, calls), n) <==> Get(f, n) || RecordedBy(a, calls, n)
    decreases |calls|
  {
    if calls != [] {
      var c, rest := calls[0], calls[1..];
      var s := Step(a, f, c);
      LifecycleFlagRecorded(a, s.after, rest, n);
      if s.outcome == Ok { StepWritesExactly(a, f, c, n); }
      assert Get(s.after, n) <==> Get(f, n) || (Accepted(a, c) && SetsFlag(c, n));
      if RecordedBy(a, rest, n) {
        var i :| 0 <= i < |rest| && Accepted(a, rest[i]) && SetsFlag(rest[i], n);
        assert calls[i + 1] == rest[i];
      }
      if RecordedBy(a, calls, n) {
        var i :| 0 <= i < |calls| && Accepted(a, calls[i]) && SetsFlag(calls[i], n);
        if i > 0 { assert rest[i - 1] == calls[i]; }
      }
    }
  }

  /** Dropping every call that fails a guard does not change the flags a sequence of callbacks leaves. */
  lemma {:induction false} RejectedCallsLeaveNoTrace(a: Adapter, f: Flags, calls: seq<Call>)
    ensures Run(a, f, calls) == Run(a, f, AcceptedOnly(a, calls))
    decreases |calls|
  {
    if calls != [] {
      var c, rest := calls[0], calls[1..];
      var s := Step(a, f, c);
      RejectedCallsLeaveNoTrace(a, s.after, rest);
      if Accepted(a, c) {
        var kept := [c] + AcceptedOnly(a, rest);
        assert kept[0] == c && kept[1..] == AcceptedOnly(a, rest);
      } else {
        assert s.after == f;
      }
    }
  }

  /** Some call in `calls` releases the manager's savepoint. */
  predicate ReleasesIn(calls: seq<Call>)
  {
    exists j :: 0 <= j < |calls| && calls[j] == ReleaseSavepoint(SAVEPOINT)
  }

  /** Some call in `calls` creates a savepoint that no later call releases. */
  predicate OpenSavepointIn(calls: seq<Call>)
  {
    exists i :: 0 <= i < |calls| && calls[i] == CreateSavepoint && !ReleasesIn(calls[i + 1..])
  }

  lemma ReleasesInCons(calls: seq<Call>)
    requires calls != []
    ensures ReleasesIn(calls) <==> calls[0] == ReleaseSavepoint(SAVEPOINT) || ReleasesIn(calls[1..])
  {
  }

  lemma OpenSavepointInCons(calls: seq<Call>)
    requires calls != []
    ensures OpenSavepointIn(calls) <==>
      OpenSavepointIn(calls[1..]) || (calls[0] == CreateSavepoint && !ReleasesIn(calls[1..]))
  {
  }

  /** One callback: creating a savepoint opens it, releasing the manager's token closes it, nothing else matters. */
  lemma StepHasSavepoint(a: Adapter, f: Flags, c: Call)
    ensures HasSavepoint(Step(a, f, c).after) ==
      if c == CreateSavepoint then true
      else if c == ReleaseSavepoint(SAVEPOINT) then false
      else HasSavepoint(f)
  {
    var s := Step(a, f, c);
    if s.outcome == Ok {
      StepWritesExactly(a, f, c, Savepoint);
      StepWritesExactly(a, f, c, SavepointRelease);
    }
  }

  /**
   * `hasSavepoint()` holds after a sequence of callbacks exactly when some
   * call in it created a savepoint that was not released afterwards, or it
   * held before and nothing in the sequence released the savepoint. Rolling
   * back to a savepoint and the four lifecycle callbacks never affect it.
   */
  lemma {:induction false} HasSavepointAfterRun(a: Adapter, f: Flags, calls: seq<Call>)
    ensures HasSavepoint(Run(a, f, calls)) <==>
      OpenSavepointIn(calls) || (HasSavepoint(f) && !ReleasesIn(calls))
    decreases |calls|
  {
    if calls != [] {
      var c, rest := calls[0], calls[1..];
      var s := Step(a, f, c);
      HasSavepointAfterRun(a, s.after, rest);
      ReleasesInCons(calls);
      OpenSavepointInCons(calls);
      StepHasSavepoint(a, f, c);
    }
  }
}
