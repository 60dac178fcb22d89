/**
 * Bookkeeping for the `Update` drains of the controllers' main-thread
 * queues. A drain is given the set of positions (0 for the first task it
 * runs) whose task throws.
 */
module MainQueue {

  function FirstFaultFrom(faults: set<nat>, i: nat, n: nat): (k: nat)
    requires i <= n
    ensures i <= k <= n
    ensures k < n ==> k in faults
    ensures forall j :: i <= j < k ==> j !in faults
    decreases n - i
  {
    if i == n then n else if i in faults then i else FirstFaultFrom(faults, i + 1, n)
  }

  /** The position of the first task of an `n`-task drain that throws, or `n` when none does. */
  function FirstFault(faults: set<nat>, n: nat): (k: nat)
    ensures k <= n
    ensures k < n ==> k in faults
    ensures forall j :: 0 <= j < k ==> j !in faults
  {
    FirstFaultFrom(faults, 0, n)
  }

  /** The tasks of a drain that complete when every throwing task is caught and the drain goes on. */
  function Completed<T>(q: seq<T>, faults: set<nat>): (r: seq<T>)
    ensures |r| <= |q|
    ensures forall x :: x in r ==> x in q
    decreases |q|
  {
    if q == [] then []
    else Completed(q[..|q| - 1], faults) + (if |q| - 1 in faults then [] else [q[|q| - 1]])
  }

  /** With no throwing task, every task completes, in queue order. */
  lemma {:induction false} CompletedWithoutFaults<T>(q: seq<T>, faults: set<nat>)
    requires forall j :: 0 <= j < |q| ==> j !in faults
    ensures Completed(q, faults) == q
    decreases |q|
  {
    if q != [] {
      CompletedWithoutFaults(q[..|q| - 1], faults);
    }
  }

  /** One more task of the drain: it completes exactly when it does not throw. */
  lemma CompletedStep<T>(q: seq<T>, faults: set<nat>, i: nat)
    requires i < |q|
    ensures Completed(q[..i + 1], faults) == Completed(q[..i], faults) + (if i in faults then [] else [q[i]])
  {
    assert q[..i + 1][..i] == q[..i];
  }
}
