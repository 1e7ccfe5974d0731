/** The sections `_cached_async` runs under the container's lock, updating the shared tables in
    place. `s` is the state of the whole system that the tables are part of. */
module SharedBuilds {
  import opened DependencyGraph
  import opened WaitGraph
  import A = AsyncBuilds

  datatype Entry = Cached(value: nat) | Joined(build: nat) | Started(build: nat) | Refused

  class Tables {
    var instances: map<A.Slot, nat>
    var pending: map<A.Slot, nat>
    var builds: seq<A.Build>
    const waiters: Waiters

    constructor ()
      ensures fresh(waiters) && Shows(A.START)
    {
      waiters := new Waiters();
      instances, pending, builds := map[], map[], [];
    }

    ghost predicate Shows(s: A.State)
      reads this, waiters
    {
      s.instances == instances && s.pending == pending && s.builds == builds && s.waiting == waiters.waiting
    }

    /** Use the instance, join the build in flight, or become the builder. */
    method Enter(t: Task, slot: A.Slot, ghost s: A.State) returns (entry: Entry)
      requires A.Inv(s) && Shows(s) && A.Enabled(s, A.Ask(t, slot))
      modifies this, waiters
      ensures Shows(A.Next(s, A.Ask(t, slot)))
      ensures slot in s.instances ==> entry == Cached(s.instances[slot])
      ensures entry.Joined? ==> A.At(A.Next(s, A.Ask(t, slot)), t).awaiting == Some(entry.build)
      ensures entry.Started? ==> A.Innermost(A.Next(s, A.Ask(t, slot)), t) == Some(entry.build)
      ensures entry.Refused? <==> A.Refused(s, t, slot)
      ensures if slot in old(instances) then entry == Cached(old(instances)[slot])
              else if slot !in old(pending) then entry == Started(|old(builds)|)
              else entry == Joined(old(pending)[slot]) || entry == Refused
      ensures instances == old(instances)
      ensures if entry.Started? then
                pending == old(pending)[slot := entry.build] && builds == old(builds) + [A.Build(slot, t, A.Running)]
              else pending == old(pending) && builds == old(builds)
    {
      if slot in instances {
        return Cached(instances[slot]);
      }
      if slot in pending {
        var refused := waiters.TrackWaiter(t, builds[pending[slot]].builder);
        return if refused then Refused else Joined(pending[slot]);
      }
      pending := pending[slot := |builds|];
      builds := builds + [A.Build(slot, t, A.Running)];
      return Started(|builds| - 1);
    }

    method StoreValue(t: Task, b: nat, value: nat, ghost s: A.State)
      requires A.Inv(s) && Shows(s) && A.Enabled(s, A.StoreValue(t, value)) && A.Innermost(s, t) == Some(b)
      modifies this
      ensures Shows(A.Next(s, A.StoreValue(t, value)))
      ensures instances == old(instances)[old(builds)[b].slot := value] && pending == old(pending)
      ensures builds == old(builds)[b := A.Build(old(builds)[b].slot, old(builds)[b].builder, A.Returned(value))]
    {
      instances := instances[builds[b].slot := value];
      builds := builds[b := builds[b].(outcome := A.Returned(value))];
    }

    method StoreError(t: Task, b: nat, error: nat, ghost s: A.State)
      requires A.Inv(s) && Shows(s) && A.Enabled(s, A.StoreError(t, error)) && A.Innermost(s, t) == Some(b)
      modifies this
      ensures Shows(A.Next(s, A.StoreError(t, error)))
      ensures instances == old(instances) && pending == old(pending)
      ensures builds == old(builds)[b := A.Build(old(builds)[b].slot, old(builds)[b].builder, A.Raised(error))]
    {
      builds := builds[b := builds[b].(outcome := A.Raised(error))];
    }

    method PopPending(t: Task, b: nat, ghost s: A.State)
      requires A.Inv(s) && Shows(s) && A.Enabled(s, A.PopPending(t)) && A.Innermost(s, t) == Some(b)
      modifies this
      ensures Shows(A.Next(s, A.PopPending(t)))
      ensures pending == old(pending) - {builds[b].slot} && builds == old(builds) && instances == old(instances)
    {
      pending := pending - {builds[b].slot};
    }

    /** Pick up what became of a joined build. */
    method Resume(t: Task, b: nat, ghost s: A.State) returns (outcome: A.Outcome)
      requires A.Inv(s) && Shows(s) && A.Enabled(s, A.Resume(t)) && A.At(s, t).awaiting == Some(b)
      modifies waiters
      ensures Shows(A.Next(s, A.Resume(t)))
      ensures outcome == builds[b].outcome && !outcome.Running? && waiters.waiting == old(waiters.waiting) - {t}
    {
      outcome := builds[b].outcome;
      waiters.ReleaseWaiter(t);
    }
  }
}
