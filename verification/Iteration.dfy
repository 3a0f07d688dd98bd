/**
 Repeating a partial step until it declines: the shape of the source's while loops.

 The state of a loop is Some before each test of its condition and None once the loop has
 ended, so a loop that meets the same state twice never ends (FixedNeverEnds), and Count is
 the number of times the body of an ending loop runs. Whether a loop ends is thus a
 property of its step alone, stated and decided without the loop: a module can prove it to
 hold exactly under some condition on the input, and bound Count where it does. The loop's
 method then asks for no more than that the step ends.
 */
module Iteration {
  import opened Wrappers

  /** The state at the k-th test of the loop, or None once the loop has ended. */
  ghost function Iterate<T>(next: T -> Option<T>, first: Option<T>, k: nat): Option<T> {
    if k == 0 then first
    else
      match Iterate(next, first, k - 1)
      case None => None
      case Some(s) => next(s)
  }

  ghost predicate Ends<T>(next: T -> Option<T>, first: Option<T>) {
    exists k: nat :: Iterate(next, first, k).None?
  }

  lemma {:induction false} EndedStaysEnded<T>(next: T -> Option<T>, first: Option<T>, k: nat, j: nat)
    requires k <= j && Iterate(next, first, k).None?
    ensures Iterate(next, first, j).None?
  {
    if k < j {
      EndedStaysEnded(next, first, k, j - 1);
    }
  }

  /** A state whose successor is its own successor is never left. */
  lemma {:induction false} FixedForever<T>(next: T -> Option<T>, first: Option<T>, k: nat, j: nat, s: T, t: T)
    requires k < j
    requires Iterate(next, first, k) == Some(s)
    requires next(s) == Some(t) == next(t)
    ensures Iterate(next, first, j) == Some(t)
  {
    if k + 1 < j {
      FixedForever(next, first, k, j - 1, s, t);
    }
  }

  lemma {:induction false} FixedNeverEnds<T>(next: T -> Option<T>, first: Option<T>, k: nat, s: T, t: T)
    requires Iterate(next, first, k) == Some(s)
    requires next(s) == Some(t) == next(t)
    ensures !Ends(next, first)
  {
    forall j: nat
      ensures Iterate(next, first, j).Some?
    {
      if k < j {
        FixedForever(next, first, k, j, s, t);
      } else if Iterate(next, first, j).None? {
        EndedStaysEnded(next, first, j, k);
      }
    }
  }

  ghost function FirstNone<T>(next: T -> Option<T>, first: Option<T>, n: nat): (m: nat)
    requires Iterate(next, first, n).None?
    ensures m <= n
    ensures Iterate(next, first, m).None?
    ensures forall i: nat :: i < m ==> Iterate(next, first, i).Some?
  {
    if n == 0 then 0
    else if Iterate(next, first, n - 1).None? then FirstNone(next, first, n - 1)
    else
      assert forall i: nat :: i < n ==> Iterate(next, first, i).Some? by {
        forall i: nat | i < n
          ensures Iterate(next, first, i).Some?
        {
          if Iterate(next, first, i).None? {
            EndedStaysEnded(next, first, i, n - 1);
          }
        }
      }
      n
  }

  /** The number of times an ending loop runs its body, counted from test k. */
  ghost function Count<T>(next: T -> Option<T>, first: Option<T>): (n: nat)
    requires Ends(next, first)
    ensures Iterate(next, first, n).None?
    ensures forall i: nat :: i < n ==> Iterate(next, first, i).Some?
  {
    var n: nat :| Iterate(next, first, n).None?;
    FirstNone(next, first, n)
  }
}
