/** Mutex and LockGuard as objects. A call runs its sections without interruption, from rest
    to rest; the interleavings of sections are the subject of MutexProtocol, whose state the
    object carries along. */
module Mutexes {
  import opened Values
  import opened Cells
  import M = MutexProtocol

  class Mutex {
    var cells: seq<Cell<nat>>  // the promises of the chain
    var promise: nat
    var resolve: Option<nat>
    ghost var run: M.State

    /** Every state is a reachable one, so the mutual exclusion and FIFO results hold. */
    ghost predicate Valid()
      reads this
    {
      && M.Reachable(run) && M.AtRest(run)
      && run.cells == cells && run.tail == promise && run.resolve == resolve
    }

    /** Ticket `t` is waiting or holds the mutex. */
    ghost predicate Outstanding(t: nat)
      reads this
    {
      1 <= t < |cells| && t !in run.releases
    }

    constructor ()
      ensures Valid() && resolve == None && |cells| == 1
    {
      M.ReachableStart();
      cells, promise, resolve, run := [M.Open], 0, None, M.Start;
    }

    /** Draws a ticket at the tail. It is granted at once exactly when the mutex is free;
        otherwise the current holder keeps it. */
    method Lock() returns (ticket: nat)
      requires Valid()
      modifies this
      ensures Valid()
      ensures ticket == |old(cells)| && |cells| == ticket + 1
      ensures resolve == if old(resolve) == None then Some(ticket) else old(resolve)
      ensures run.releases == old(run.releases)
      ensures Outstanding(ticket)
    {
      LockFacts(run);
      ghost var r := LockRun(run);
      ticket := |cells|;
      cells := cells + [Fresh(false)];
      var current := promise;
      promise := ticket;
      if cells[current].value.Some? || cells[current].exception.Some? {
        assert resolve == None;
        resolve := Some(ticket);
      } else {
        cells := cells[current := AwaitCoroutine(cells[current], ticket)];
      }
      run := r;
    }

    /** Gives the mutex to the next ticket in order, if there is one. */
    method UnLock()
      requires Valid() && resolve.Some?
      modifies this
      ensures Valid()
      ensures |cells| == |old(cells)| && promise == old(promise)
      ensures resolve == if old(resolve.value) + 1 < |cells| then Some(old(resolve.value) + 1) else None
      ensures run.releases == old(run.releases) + [old(resolve.value)]
    {
      var t := resolve.value;
      ghost var i := |run.threads|;
      ghost var r := ReleaseRun(run);
      resolve := None;
      cells := cells[t := Claim(cells[t])];
      var l := StoreOutcome(cells[t], Resolved(Void));
      cells := cells[t := l.cell];
      run := r;
      Dispatch(l.taken, i);
      M.AtRestHeldOrServed(run);
    }

    /** Resumes the Lock coroutines that waited for the promise just resolved. */
    method Dispatch(taken: seq<Awaiter<nat>>, ghost i: nat)
      requires M.Reachable(run) && run.cells == cells && run.tail == promise && run.resolve == resolve
      requires i < |run.threads| && run.threads[i] == M.Grants(taken)
      requires forall j :: 0 <= j < |run.threads| && j != i ==> run.threads[j] == []
      modifies this`resolve, this`run
      ensures Valid()
      ensures run.releases == old(run.releases) && |run.grants| == |old(run.grants)| + |taken|
    {
      for j := 0 to |taken|
        invariant M.Reachable(run) && run.cells == cells && run.tail == promise && run.resolve == resolve
        invariant |run.threads| == |old(run.threads)| && run.threads[i] == M.Grants(taken)[j..]
        invariant forall q :: 0 <= q < |run.threads| && q != i ==> run.threads[q] == []
        invariant run.releases == old(run.releases) && |run.grants| == |old(run.grants)| + j
      {
        var t := taken[j].k;
        assert run.threads[i][0] == M.Grant(t);
        ghost var r := GrantRun(run, i, t);
        assert resolve == None;
        assert r.threads[i] == M.Grants(taken)[j + 1..];
        run := r;
        resolve := Some(t);
      }
    }

    method OwnsLock() returns (owned: bool)
      requires Valid()
      ensures owned <==> exists t :: t in run.grants && t !in run.releases
    {
      owned := resolve.Some?;
      if resolve.Some? {
        M.MutualExclusion(run, resolve.value, resolve.value);
        assert M.Holds(run, resolve.value);
      } else if t :| t in run.grants && t !in run.releases {
        M.MutualExclusion(run, t, t);
      }
    }
  }

  /** `ownLock` is set when Lock is called, so it means queued or holding; `ticket` is the
      ticket that call drew. */
  class LockGuard {
    var ownLock: bool
    var mutex: Mutex?
    ghost var ticket: nat

    ghost predicate Valid()
      reads this, mutex
    {
      && (mutex != null ==> mutex.Valid())
      && (ownLock ==> mutex != null && mutex.Outstanding(ticket))
    }

    /** The guard's ticket has been granted and not given back. */
    ghost predicate Holding()
      reads this, mutex
    {
      ownLock && mutex != null && mutex.resolve == Some(ticket)
    }

    ghost predicate Empty()
      reads this
    {
      !ownLock && mutex == null
    }

    /** A deferred guard. */
    constructor (m: Mutex)
      requires m.Valid()
      ensures Valid() && mutex == m && !ownLock
    {
      ownLock, mutex, ticket := false, m, 0;
    }

    constructor Move(right: LockGuard)
      requires right.Valid()
      modifies right
      ensures Valid() && right.Empty()
      ensures ownLock == old(right.ownLock) && mutex == old(right.mutex) && ticket == old(right.ticket)
      ensures Holding() == old(right.Holding())
    {
      ownLock, mutex, ticket := right.ownLock, right.mutex, right.ticket;
      new;
      right.ownLock, right.mutex := false, null;
    }

    method Lock() returns (drawn: nat)
      requires Valid() && mutex != null && !ownLock
      modifies this, mutex
      ensures Valid() && ownLock && mutex == old(mutex) && ticket == drawn == |old(mutex.cells)|
      ensures Holding() <==> old(mutex.resolve) == None
      ensures mutex.run.releases == old(mutex.run.releases)
    {
      ownLock := true;
      drawn := mutex.Lock();
      ticket := drawn;
    }

    method Unlock()
      requires Valid() && Holding()
      modifies this, mutex
      ensures Valid() && !ownLock && mutex == old(mutex)
      ensures mutex.run.releases == old(mutex.run.releases) + [old(ticket)]
      ensures mutex.resolve == if old(ticket) + 1 < |mutex.cells| then Some(old(ticket) + 1) else None
    {
      ownLock := false;
      mutex.UnLock();
    }

    /** Gives back what this guard holds, and nothing else, before taking over `right`. */
    method MoveAssign(right: LockGuard)
      requires Valid() && right.Valid() && (ownLock && this != right ==> Holding())
      requires this != right && ownLock && right.ownLock && mutex == right.mutex ==> ticket != right.ticket
      modifies this, right, mutex
      ensures Valid()
      ensures this == right ==> ownLock == old(ownLock) && mutex == old(mutex) && ticket == old(ticket)
      ensures this != right ==>
                && right.Empty()
                && ownLock == old(right.ownLock) && mutex == old(right.mutex) && ticket == old(right.ticket)
      ensures old(mutex) != null ==>
                old(mutex).run.releases
                == old(mutex.run.releases) + (if this != right && old(ownLock) then [old(ticket)] else [])
    {
      if this != right {
        if ownLock {
          mutex.UnLock();
        }
        ownLock, mutex, ticket := right.ownLock, right.mutex, right.ticket;
        right.ownLock, right.mutex := false, null;
      }
    }

    /** The destructor. */
    method Destroy()
      requires Valid() && (ownLock ==> Holding())
      modifies mutex
      ensures mutex != null ==>
                && mutex.Valid()
                && mutex.run.releases == old(mutex.run.releases) + (if ownLock then [ticket] else [])
    {
      if ownLock {
        mutex.UnLock();
      }
    }

    method OwnsLock() returns (b: bool)
      requires Valid()
      ensures b <==> mutex != null && ownLock && mutex.Outstanding(ticket)
    {
      b := ownLock;
    }
  }

  /** The sections of one Lock call, run from rest. */
  lemma LockRun(s: M.State) returns (r: M.State)
    requires M.Reachable(s) && M.AtRest(s)
    ensures M.Reachable(r) && M.AtRest(r)
    ensures s.tail < |s.cells| && r.tail == |s.cells| && r.releases == s.releases
    ensures r.resolve == if IsDone(s.cells[s.tail]) then Some(|s.cells|) else s.resolve
    ensures var cells := s.cells + [Fresh(false)];
            r.cells == if IsDone(s.cells[s.tail]) then cells
                       else cells[s.tail := AwaitCoroutine(cells[s.tail], |s.cells|)]
  {
    var i := |s.threads|;
    M.ReachableNext(s, M.Lock);
    var s1 := M.Next(s, M.Lock);
    assert s1.threads[i] == [M.Ready(|s.cells|, s.tail)] && s1.threads[i][0] in s1.threads[i];
    assert M.SectionOk(s1, s1.threads[i][0]);
    M.ReachableNext(s1, M.Run(i));
    LastThread(s.threads, s1.threads[i][0], M.Perform(s1, s1.threads[i][0]).front);
    r := LockTail(s, M.Next(s1, M.Run(i)));
  }

  lemma LastThread(threads: seq<M.Thread>, a: M.Section, front: M.Thread)
    ensures (threads + [[a]])[|threads| := front + [a][1..]] == threads + [front]
  {
    assert front + [a][1..] == front;
  }

  /** The last section: Grant if the predecessor was resolved, Suspend otherwise. */
  lemma LockTail(s: M.State, s2: M.State) returns (r: M.State)
    requires M.Reachable(s) && M.AtRest(s) && M.Reachable(s2) && s.tail < |s.cells|
    requires var i, t := |s.threads|, |s.cells|;
             var front := if IsDone(s.cells[s.tail]) then [M.Grant(t)] else [M.Suspend(t, s.tail)];
             s2 == s.(cells := s.cells + [Fresh(false)], tail := t, threads := s.threads + [front])
    ensures M.Reachable(r) && M.AtRest(r)
    ensures r.tail == s2.tail && r.releases == s.releases
    ensures r.resolve == if IsDone(s.cells[s.tail]) then Some(|s.cells|) else s.resolve
    ensures r.cells == if IsDone(s.cells[s.tail]) then s2.cells
                       else s2.cells[s.tail := AwaitCoroutine(s2.cells[s.tail], |s.cells|)]
  {
    var i := |s.threads|;
    assert s2.threads[i][0] in s2.threads[i] && M.SectionOk(s2, s2.threads[i][0]);
    M.ReachableNext(s2, M.Run(i));
    r := M.Next(s2, M.Run(i));
  }

  /** The locked section that ends a Lock call finds `resolve_` empty. */
  lemma GrantRun(s: M.State, i: nat, t: nat) returns (r: M.State)
    requires M.Reachable(s) && M.Runnable(s, i) && s.threads[i][0] == M.Grant(t)
    ensures s.resolve == None && M.Reachable(r)
    ensures r == s.(resolve := Some(t), grants := s.grants + [t], threads := s.threads[i := s.threads[i][1..]])
  {
    M.GrantIsNext(s, i, t);
    assert s.threads[i][0] in s.threads[i] && M.SectionOk(s, s.threads[i][0]);
    M.ReachableNext(s, M.Run(i));
    r := M.Next(s, M.Run(i));
    assert [] + s.threads[i][1..] == s.threads[i][1..];
  }

  /** The sections of one UnLock call up to the dispatch, run from rest. */
  lemma ReleaseRun(s: M.State) returns (r: M.State)
    requires M.Reachable(s) && M.AtRest(s) && s.resolve.Some?
    ensures s.resolve.value < |s.cells|
    ensures var t, l := s.resolve.value, StoreOutcome(Claim(s.cells[s.resolve.value]), Resolved(Void));
            && r.cells == s.cells[t := l.cell] && r.tail == s.tail && r.resolve == None
            && r.threads == s.threads + [M.Grants(l.taken)]
            && r.grants == s.grants && r.releases == s.releases + [t]
    ensures M.Reachable(r)
  {
    var i, t := |s.threads|, s.resolve.value;
    M.ReachableNext(s, M.UnLock);
    var s1 := M.Next(s, M.UnLock);
    assert s1.threads[i] == [M.Exchange(t)] && s1.threads[i][0] in s1.threads[i];
    assert M.SectionOk(s1, s1.threads[i][0]);
    M.ReachableNext(s1, M.Run(i));
    var s2 := M.Next(s1, M.Run(i));
    LastThread(s.threads, M.Exchange(t), [M.Store(t)]);
    assert s2 == s1.(cells := s.cells[t := Claim(s.cells[t])], threads := s.threads + [[M.Store(t)]]);
    r := StoreRun(s2, i, t);
  }

  lemma StoreRun(s: M.State, i: nat, t: nat) returns (r: M.State)
    requires M.Reachable(s) && i < |s.threads| && s.threads[i] == [M.Store(t)] && t < |s.cells|
    ensures var l := StoreOutcome(s.cells[t], Resolved(Void));
            r == s.(cells := s.cells[t := l.cell], threads := s.threads[i := M.Grants(l.taken)])
    ensures M.Reachable(r)
  {
    assert s.threads[i][0] in s.threads[i] && M.SectionOk(s, s.threads[i][0]);
    M.ReachableNext(s, M.Run(i));
    r := M.Next(s, M.Run(i));
    var l := StoreOutcome(s.cells[t], Resolved(Void));
    assert s.threads[i][1..] == [] && M.Grants(l.taken) + [] == M.Grants(l.taken);
    assert r.threads == s.threads[i := M.Grants(l.taken)];
  }

  /** At rest the tail is resolved exactly when the mutex is free. */
  lemma LockFacts(s: M.State)
    requires M.Reachable(s) && M.AtRest(s)
    ensures s.tail < |s.cells| && (IsDone(s.cells[s.tail]) <==> s.resolve == None)
    ensures |s.cells| !in s.releases
  {
    M.AtRestHeldOrServed(s);
    assert M.TokenOk(s) && M.CellOk(s, s.tail);
    assert forall i :: 0 <= i < |s.releases| ==> s.releases[i] == i + 1;
  }
}
