/** The promise object itself, with the fields the library updates in place. Each method is
    one exchange or one locked section and is proved to be the protocol event of the same
    name, so everything CellProtocol proves holds of the object after any calls. */
module PromiseCell {
  import opened Values
  import opened Cells
  import P = CellProtocol

  /** What dispatch does with one awaiter. */
  datatype Dispatched<K> = Resumed(k: K) | Called(k: K)

  /** Every awaiter is resumed or called once, by its kind and in order. */
  ghost predicate IsDispatch<K>(taken: seq<Awaiter<K>>, trace: seq<Dispatched<K>>) {
    && |trace| == |taken|
    && (forall i :: 0 <= i < |taken| ==>
          trace[i] == if taken[i].Coroutine? then Resumed(taken[i].k) else Called(taken[i].k))
  }

  lemma RegisterRun<K>(s: P.State<K>, k: K) returns (r: P.State<K>)
    requires P.Inv(s) && !IsDone(s.cell)
    ensures r == P.Next(s, P.Register(k)) && P.Inv(r)
    ensures r.cell == AwaitCallback(s.cell, k) && r.rejected == s.rejected
    ensures forall a | a in s.registered :: a.id <= s.cell.useCount
  {
    forall a | a in s.registered ensures a.id <= s.cell.useCount {
      P.GrowingBound(s.registered, s.cell.useCount, a);
    }
    P.RegisterInv(s, k);
    r := P.Next(s, P.Register(k));
  }

  lemma SuspendRun<K>(s: P.State<K>, k: K) returns (r: P.State<K>)
    requires P.Inv(s)
    ensures r == P.Next(s, P.Suspend(k)) && P.Inv(r)
    ensures r.cell == (if IsDone(s.cell) then s.cell else AwaitCoroutine(s.cell, k)) && r.rejected == s.rejected
  {
    P.SuspendInv(s, k);
    r := P.Next(s, P.Suspend(k));
  }

  lemma UnregisterRun<K>(s: P.State<K>, id: nat) returns (r: P.State<K>)
    requires P.Inv(s)
    ensures r == P.Next(s, P.Unregister(id)) && P.Inv(r)
    ensures r.cell == UnAwait(s.cell, id) && r.rejected == s.rejected
    ensures HasCallback(s.cell.awaiters, id) ==> id in r.removed && id !in s.removed
  {
    P.UnregisteredInv(s, id);
    r := P.Next(s, P.Unregister(id));
    WithoutSplits(s.cell.awaiters, id);
    if HasCallback(s.cell.awaiters, id) {
      P.KeptWithout(s.registered, s.removed, id, s.cell.useCount);
    }
  }

  class Promise<K> {
    var resolved: bool
    var value: Option<Value>
    var exception: Option<Error>
    var running: bool
    var awaiters: seq<Awaiter<K>>
    var useCount: nat
    var selfOwned: bool
    var rejected: bool  // rejected_ of the shared Reject handle
    ghost var run: P.State<K>

    ghost function View(): Cell<K>
      reads this
    {
      Cell(resolved, value, exception, running, awaiters, useCount, selfOwned)
    }

    ghost predicate Valid()
      reads this
    {
      P.Inv(run) && run.cell == View() && run.rejected == rejected
    }

    constructor (hasCoroutine: bool)
      ensures Valid() && run == P.Init(hasCoroutine)
    {
      resolved, value, exception, running := false, None, None, hasCoroutine;
      awaiters, useCount, selfOwned, rejected := [], 0, false, false;
      run := P.Init(hasCoroutine);
    }

    /** Reject::operator(), first step: only one call gets past the flag. */
    method PassFlag(ghost call: nat) returns (passed: bool)
      requires Valid() && P.Enabled(run, P.Flag(call))
      modifies this
      ensures Valid() && run == P.Next(old(run), P.Flag(call))
      ensures passed <==> run.calls[call].phase == P.Entered
      ensures passed <==> !old(rejected)
    {
      P.StepInv(run, P.Flag(call));
      run := P.Next(run, P.Flag(call));
      passed := !rejected;
      rejected := true;
    }

    /** resolved_.exchange(true). */
    method Exchange(ghost call: nat) returns (won: bool)
      requires Valid() && P.Enabled(run, P.Exchange(call))
      modifies this
      ensures Valid() && run == P.Next(old(run), P.Exchange(call))
      ensures won <==> run.winner == Some(call)
    {
      P.StepInv(run, P.Exchange(call));
      run := P.Next(run, P.Exchange(call));
      won := !resolved;
      resolved := true;
    }

    /** The locked section of Resolve and Reject. The winner finds neither a value nor an
        exception: the two assertions in front of the store. */
    method Store(o: Outcome, ghost call: nat) returns (taken: seq<Awaiter<K>>)
      requires Valid() && P.Enabled(run, P.Store(call)) && run.calls[call].arg == o
      modifies this
      ensures Valid() && run == P.Next(old(run), P.Store(call))
      ensures IsDone(View()) && Out(View()) == o
      ensures taken == if running then [] else old(awaiters)
      ensures !running ==> awaiters == []
    {
      P.StepInv(run, P.Store(call));
      assert run.winner == Some(call);
      assert value == None && exception == None;
      run := P.Next(run, P.Store(call));
      match o {
        case Resolved(v) => value := Some(v);
        case Rejected(e) => exception := Some(e);
      }
      taken := OnResolved();
    }

    /** Swaps the awaiters out unless the coroutine has still to end. */
    method OnResolved() returns (taken: seq<Awaiter<K>>)
      modifies this`awaiters, this`selfOwned
      ensures View() == Cells.OnResolved(old(View())).cell && taken == Cells.OnResolved(old(View())).taken
    {
      taken := [];
      if !running {
        taken, awaiters := awaiters, taken;
        selfOwned := false;
      }
    }

    /** The scope exit of final_suspend. */
    method FinalSuspend() returns (taken: seq<Awaiter<K>>)
      requires Valid() && running
      modifies this
      ensures Valid() && run == P.Next(old(run), P.ClearHandle)
      ensures taken == if IsDone(View()) then old(awaiters) else []
      ensures IsDone(View()) ==> awaiters == []
    {
      P.StepInv(run, P.ClearHandle);
      run := P.Next(run, P.ClearHandle);
      running := false;
      taken := [];
      if value.Some? || exception.Some? {
        taken := OnResolved();
      }
    }

    /** False means the coroutine goes on at once. */
    method AwaitSuspend(k: K) returns (suspended: bool)
      requires Valid()
      modifies this
      ensures Valid() && run == P.Next(old(run), P.Suspend(k))
      ensures suspended <==> !IsDone(View())
      ensures suspended ==> awaiters == old(awaiters) + [Coroutine(k, useCount)]
    {
      suspended := !(value.Some? || exception.Some?);
      ghost var c := View();
      if suspended {
        useCount := useCount + 1;
        awaiters := awaiters + [Coroutine(k, useCount)];
        assert View() == AwaitCoroutine(c, k);
      }
      ghost var r := SuspendRun(run, k);
      run := r;
    }

    /** Registers a callback; the caller has seen, under the same lock, that the promise is
        pending. The id is new. */
    method Await(k: K) returns (id: nat)
      requires Valid() && !IsDone(View())
      modifies this
      ensures Valid() && run == P.Next(old(run), P.Register(k))
      ensures awaiters == old(awaiters) + [Callback(k, id)]
      ensures id > old(useCount) && forall a | a in old(run.registered) :: a.id < id
    {
      ghost var r := RegisterRun(run, k);
      run := r;
      useCount := useCount + 1;
      id := useCount;
      awaiters := awaiters + [Callback(k, id)];
    }

    /** The position of the callback registered under `id`, or the length. */
    static method Find(awaiters: seq<Awaiter<K>>, id: nat) returns (i: nat)
      ensures i <= |awaiters|
      ensures i < |awaiters| <==> HasCallback(awaiters, id)
      ensures i < |awaiters| ==> Without(awaiters, id) == awaiters[..i] + awaiters[i + 1..]
      ensures i == |awaiters| ==> Without(awaiters, id) == awaiters
    {
      i := 0;
      while i < |awaiters| && !(awaiters[i].Callback? && awaiters[i].id == id)
        invariant 0 <= i <= |awaiters|
        invariant Without(awaiters, id) == awaiters[..i] + Without(awaiters[i..], id)
        invariant forall j :: 0 <= j < i ==> !(awaiters[j].Callback? && awaiters[j].id == id)
      {
        assert awaiters[i..][1..] == awaiters[i + 1..];
        i := i + 1;
      }
      if i < |awaiters| {
        assert awaiters[i..][1..] == awaiters[i + 1..];
      }
    }

    /** Removes the callback registered under `id`, if it is still there. */
    method UnAwait(id: nat) returns (found: bool)
      requires Valid()
      modifies this
      ensures Valid() && run == P.Next(old(run), P.Unregister(id))
      ensures found <==> HasCallback(old(awaiters), id)
      ensures found ==> id in run.removed && id !in old(run.removed)
      ensures !found ==> View() == old(View())
    {
      ghost var r := UnregisterRun(run, id);
      run := r;
      var i := Find(awaiters, id);
      found := i < |awaiters|;
      if found {
        awaiters := awaiters[..i] + awaiters[i + 1..];
      }
    }

    /** Race on a promise that is already settled. */
    method CountUse()
      requires Valid()
      modifies this
      ensures Valid() && run == P.Next(old(run), P.RaceShortcut)
    {
      P.StepInv(run, P.RaceShortcut);
      run := P.Next(run, P.RaceShortcut);
      useCount := useCount + 1;
    }

    method Detach()
      requires Valid()
      modifies this
      ensures Valid() && run == P.Next(old(run), P.DetachSelf)
    {
      P.StepInv(run, P.DetachSelf);
      run := P.Next(run, P.DetachSelf);
      if !(value.Some? || exception.Some?) {
        selfOwned := true;
      }
    }

    /** The loop at the end of OnResolved, after the lock is released. */
    static method Dispatch(taken: seq<Awaiter<K>>) returns (trace: seq<Dispatched<K>>)
      ensures IsDispatch(taken, trace)
    {
      trace := [];
      for i := 0 to |taken|
        invariant |trace| == i
        invariant forall j :: 0 <= j < i ==>
                    trace[j] == if taken[j].Coroutine? then Resumed(taken[j].k) else Called(taken[j].k)
      {
        trace := trace + [if taken[i].Coroutine? then Resumed(taken[i].k) else Called(taken[i].k)];
      }
    }

    /** The exchange of a call and, for the winner, the store and the dispatch. */
    method Answer(o: Outcome, ghost call: nat) returns (won: bool, trace: seq<Dispatched<K>>)
      requires Valid() && P.Enabled(run, P.Exchange(call)) && run.calls[call].arg == o
      modifies this
      ensures Valid() && (won <==> !old(resolved))
      ensures if won then IsDone(View()) && Out(View()) == o else View() == old(View())
      ensures won && !running ==> awaiters == [] && IsDispatch(old(awaiters), trace)
      ensures !(won && !running) ==> trace == []
    {
      trace := [];
      won := Exchange(call);
      if won {
        var taken := Store(o, call);
        trace := Dispatch(taken);
      }
    }

    /** A whole Resolve or Reject call, or the end of the coroutine, with no other call
        between its sections: it wins exactly when nobody claimed the promise before (and,
        on the Reject handle, no call passed its flag before); then it stores its argument,
        and its awaiters are dispatched unless the coroutine is still running. */
    method Settle(caller: P.Caller, o: Outcome) returns (won: bool, trace: seq<Dispatched<K>>)
      requires Valid() && P.Enabled(run, P.Begin(caller, o))
      modifies this
      ensures Valid()
      ensures won <==> !old(resolved) && !(caller == P.RejectHandle && old(rejected))
      ensures if won then IsDone(View()) && Out(View()) == o else View() == old(View())
      ensures won && !running ==> awaiters == [] && IsDispatch(old(awaiters), trace)
      ensures !(won && !running) ==> trace == []
    {
      ghost var call := |run.calls|;
      P.StepInv(run, P.Begin(caller, o));
      run := P.Next(run, P.Begin(caller, o));
      won, trace := true, [];
      if caller == P.RejectHandle {
        won := PassFlag(call);
      }
      if won {
        won, trace := Answer(o, call);
      }
    }
  }
}
