/** The recorded wait-for graph of async builds: one edge per waiting task. */
module WaitGraph {
  import opened DependencyGraph

  type Task = nat

  /** Where `n` recorded edges lead from `t`. */
  function Hop(w: map<Task, Task>, t: Task, n: nat): Option<Task>
    decreases n
  {
    if n == 0 then Some(t) else if t in w then Hop(w, w[t], n - 1) else None
  }

  ghost predicate Reaches(w: map<Task, Task>, t: Task, u: Task) {
    exists n: nat :: Hop(w, t, n) == Some(u)
  }

  ghost predicate Acyclic(w: map<Task, Task>) {
    forall t: Task, n: nat | n > 0 :: Hop(w, t, n) != Some(t)
  }

  lemma {:induction false} HopAdds(w: map<Task, Task>, t: Task, m: nat, n: nat)
    ensures Hop(w, t, m + n) == match Hop(w, t, m) case Some(u) => Hop(w, u, n) case None => None
    decreases m
  {
    if m > 0 && t in w { HopAdds(w, w[t], m - 1, n); }
  }

  /** The first time a chain meets `u`. */
  lemma {:induction false} FirstMeeting(w: map<Task, Task>, t: Task, u: Task, n: nat) returns (m: nat)
    requires Hop(w, t, n) == Some(u)
    ensures m <= n && Hop(w, t, m) == Some(u)
    ensures forall i: nat | i < m :: Hop(w, t, i) != Some(u)
    decreases n
  {
    if t == u {
      m := 0;
    } else {
      m := FirstMeeting(w, w[t], u, n - 1);
      m := m + 1;
      forall i: nat | i < m ensures Hop(w, t, i) != Some(u) {
        if i > 0 { assert Hop(w, t, i) == Hop(w, w[t], i - 1); }
      }
    }
  }

  /** A chain that has not met `u` yet does not notice where `u` leads. */
  lemma {:induction false} HopIgnores(w: map<Task, Task>, w': map<Task, Task>, u: Task, t: Task, n: nat)
    requires forall x | x != u :: (x in w <==> x in w') && (x in w ==> w[x] == w'[x])
    requires forall i: nat | i < n :: Hop(w, t, i) != Some(u)
    ensures Hop(w, t, n) == Hop(w', t, n)
    decreases n
  {
    if n > 0 {
      assert Hop(w, t, 0) != Some(u);
      if t in w {
        forall i: nat | i < n - 1 ensures Hop(w, w[t], i) != Some(u) {
          assert Hop(w, t, i + 1) == Hop(w, w[t], i);
        }
        HopIgnores(w, w', u, w[t], n - 1);
      }
    }
  }

  lemma ReachSurvivesUpdate(w: map<Task, Task>, w': map<Task, Task>, u: Task, t: Task, n: nat)
    requires forall x | x != u :: (x in w <==> x in w') && (x in w ==> w[x] == w'[x])
    requires Hop(w, t, n) == Some(u)
    ensures Reaches(w', t, u)
  {
    var m := FirstMeeting(w, t, u, n);
    HopIgnores(w, w', u, t, m);
    assert Hop(w', t, m) == Some(u);
  }

  /** Recording an edge keeps the graph acyclic exactly when the owner's chain does not already
      lead to the waiter. */
  lemma EdgeKeepsAcyclic(w: map<Task, Task>, waiter: Task, owner: Task)
    requires Acyclic(w)
    ensures Acyclic(w[waiter := owner]) <==> !Reaches(w, owner, waiter)
  {
    var w' := w[waiter := owner];
    if Reaches(w, owner, waiter) {
      var n: nat :| Hop(w, owner, n) == Some(waiter);
      ReachSurvivesUpdate(w, w', waiter, owner, n);
      var m: nat :| Hop(w', owner, m) == Some(waiter);
      assert Hop(w', waiter, m + 1) == Some(waiter);
    } else {
      forall t: Task, n: nat | n > 0 ensures Hop(w', t, n) != Some(t) {
        if Hop(w', t, n) == Some(t) { CycleReaches(w, waiter, owner, t, n); }
      }
    }
  }

  lemma CycleReaches(w: map<Task, Task>, waiter: Task, owner: Task, t: Task, n: nat)
    requires Acyclic(w) && n > 0
    requires Hop(w[waiter := owner], t, n) == Some(t)
    ensures Reaches(w, owner, waiter)
  {
    var w' := w[waiter := owner];
    if j: nat :| j < n && Hop(w', t, j) == Some(waiter) {
      // the cycle goes through the new edge: start it at the waiter instead
      HopAdds(w', t, n, j);
      HopAdds(w', t, j, n);
      assert n + j == j + n;
      assert Hop(w', waiter, n) == Some(waiter);
      ReachSurvivesUpdate(w', w, waiter, owner, n - 1);
    } else {
      HopIgnores(w', w, waiter, t, n);
    }
  }

  lemma {:induction false} RemovalHops(w: map<Task, Task>, gone: Task, t: Task, n: nat)
    ensures Hop(w - {gone}, t, n).Some? ==> Hop(w, t, n) == Hop(w - {gone}, t, n)
    decreases n
  {
    if n > 0 && t in w && t != gone { RemovalHops(w, gone, w[t], n - 1); }
  }

  lemma RemovalKeepsAcyclic(w: map<Task, Task>, gone: Task)
    requires Acyclic(w)
    ensures Acyclic(w - {gone})
  {
    forall t: Task, n: nat | n > 0 ensures Hop(w - {gone}, t, n) != Some(t) {
      RemovalHops(w, gone, t, n);
    }
  }

  /** Tasks on the chain so far; a walk in an acyclic graph never meets one again. */
  lemma WalkIsFresh(w: map<Task, Task>, start: Task, n: nat, cursor: Task, passed: set<Task>)
    requires Acyclic(w) && Hop(w, start, n) == Some(cursor)
    requires forall x | x in passed :: exists i: nat :: i < n && Hop(w, start, i) == Some(x)
    ensures cursor !in passed
  {
    if cursor in passed {
      var i: nat :| i < n && Hop(w, start, i) == Some(cursor);
      HopAdds(w, start, i, n - i);
    }
  }

  /** The end of the chain from `t`, and how far it is. */
  lemma ChainEnds(w: map<Task, Task>, t: Task) returns (n: nat, last: Task)
    requires Acyclic(w)
    ensures Hop(w, t, n) == Some(last) && last !in w
  {
    n, last := 0, t;
    var passed: set<Task> := {};
    while last in w
      invariant Hop(w, t, n) == Some(last)
      invariant passed <= w.Keys
      invariant forall x | x in passed :: exists i: nat :: i < n && Hop(w, t, i) == Some(x)
      decreases w.Keys - passed
    {
      WalkIsFresh(w, t, n, last, passed);
      HopAdds(w, t, n, 1);
      assert Hop(w, last, 1) == Some(w[last]);
      passed := passed + {last};
      n, last := n + 1, w[last];
    }
  }

  /** Container.track_waiter and release_waiter. */
  class Waiters {
    var waiting: map<Task, Task>

    constructor ()
      ensures waiting == map[] && Acyclic(waiting)
    {
      waiting := map[];
    }

    /** Walks from the owner; refuses exactly when the recorded chain leads back to the waiter. */
    method TrackWaiter(waiter: Task, owner: Task) returns (refused: bool)
      requires Acyclic(waiting)
      modifies this
      ensures Acyclic(waiting)
      ensures refused <==> Reaches(old(waiting), owner, waiter)
      ensures waiting == if refused then old(waiting) else old(waiting)[waiter := owner]
    {
      var cursor := owner;
      ghost var n: nat := 0;
      ghost var passed: set<Task> := {};
      while true
        invariant waiting == old(waiting)
        invariant Hop(waiting, owner, n) == Some(cursor)
        invariant forall i: nat | i < n :: Hop(waiting, owner, i) != Some(waiter)
        invariant passed <= waiting.Keys
        invariant forall x | x in passed :: exists i: nat :: i < n && Hop(waiting, owner, i) == Some(x)
        decreases waiting.Keys - passed
      {
        if cursor == waiter {
          return true;
        }
        if cursor !in waiting {
          break;
        }
        WalkIsFresh(waiting, owner, n, cursor, passed);
        HopAdds(waiting, owner, n, 1);
        assert Hop(waiting, cursor, 1) == Some(waiting[cursor]);
        passed := passed + {cursor};
        n, cursor := n + 1, waiting[cursor];
      }
      forall i: nat ensures Hop(waiting, owner, i) != Some(waiter) {
        if i > n { HopAdds(waiting, owner, n, i - n); }
      }
      EdgeKeepsAcyclic(waiting, waiter, owner);
      waiting := waiting[waiter := owner];
      refused := false;
    }

    method ReleaseWaiter(waiter: Task)
      requires Acyclic(waiting)
      modifies this
      ensures Acyclic(waiting) && waiting == old(waiting) - {waiter}
    {
      RemovalKeepsAcyclic(waiting, waiter);
      waiting := waiting - {waiter};
    }
  }
}
