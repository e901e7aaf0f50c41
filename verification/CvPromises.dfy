/** CVPromise as an object. A call runs without interruption; the interleavings of the swap
    with the two phases of settling are the subject of CvProtocol, whose state the object
    carries along. */
module CvPromises {
  import opened Values
  import opened Cells
  import C = CvProtocol

  class CVPromise {
    var gens: seq<Cell<nat>>  // every promise the object has had
    var promise: nat
    var resolve: nat
    var reject: nat
    ghost var run: C.State

    ghost predicate Valid()
      reads this
    {
      && C.Inv(run) && run.alive
      && run.gens == gens && run.promise == promise && run.resolve == resolve && run.reject == reject
    }

    constructor ()
      ensures Valid() && promise == 0 && gens == [Fresh(false)]
    {
      gens, promise, resolve, reject, run := [Fresh(false)], 0, 0, 0, C.Start;
    }

    /** The promise returned is pending. */
    method Wait() returns (handle: nat)
      requires Valid()
      modifies this`run
      ensures Valid() && handle == promise && !IsDone(gens[handle])
      ensures run.handles == old(run.handles) + [C.Handle(handle, |old(run.settlers)|)]
    {
      handle := promise;
      assert C.GenOk(run, promise);
      C.StepInv(run, C.Wait);
      run := C.Next(run, C.Wait);
    }

    /** Runs one section of settling call `i` after the swap. */
    ghost method Advance(i: nat)
      requires C.Inv(run) && C.Enabled(run, C.Run(i))
      modifies this`run
      ensures C.Inv(run) && run == C.Proceed(old(run), i)
    {
      C.StepInv(run, C.Run(i));
      run := C.Next(run, C.Run(i));
    }

    /** Settles generation `g` on behalf of the call that has just taken it out: it wins its
        exchange, and the promise is done afterwards. */
    method SettleOld(g: nat, o: Outcome)
      requires C.Inv(run) && run.gens == gens && g < |gens| && g == |run.settlers| - 1
      requires run.settlers[g] == C.Settler(g, o, C.Swapped)
      modifies this`gens, this`run
      ensures C.Inv(run) && run.gens == gens && |gens| == |old(gens)|
      ensures IsDone(gens[g]) && Out(gens[g]) == o
      ensures forall q :: 0 <= q < |gens| && q != g ==> gens[q] == old(gens[q])
      ensures run == old(run).(gens := gens, settlers := old(run.settlers)[g := C.Settler(g, o, C.Returned)])
    {
      assert C.GenOk(run, g);
      Advance(g);
      gens := gens[g := Claim(gens[g])];
      Advance(g);
      gens := gens[g := StoreOutcome(gens[g], o).cell];
      assert C.GenOk(run, g);
      Advance(g);
    }

    /** The promise current at the call resolves; a fresh one takes its place; no other
        promise changes. */
    method Notify()
      requires Valid()
      modifies this
      ensures Valid() && |gens| == |old(gens)| + 1
      ensures IsDone(gens[old(promise)]) && Out(gens[old(promise)]) == Outcome.Resolved(Void)
      ensures promise == |old(gens)| && !IsDone(gens[promise])
      ensures forall q :: 0 <= q < |old(gens)| && q != old(promise) ==> gens[q] == old(gens[q])
      ensures run.handles == old(run.handles)
    {
      C.StepInv(run, C.Notify);
      run := C.Next(run, C.Notify);
      var oldPromise, oldResolve, next := promise, resolve, |gens|;
      gens, promise, resolve, reject := gens + [Fresh(false)], next, next, next;
      SettleOld(oldResolve, Outcome.Resolved(Void));
      assert IsDone(gens[oldPromise]);
    }

    method Reject(e: Error)
      requires Valid()
      modifies this
      ensures Valid() && |gens| == |old(gens)| + 1
      ensures IsDone(gens[old(promise)]) && Out(gens[old(promise)]) == Outcome.Rejected(e)
      ensures promise == |old(gens)| && !IsDone(gens[promise])
      ensures forall q :: 0 <= q < |old(gens)| && q != old(promise) ==> gens[q] == old(gens[q])
      ensures run.handles == old(run.handles)
    {
      C.StepInv(run, C.Reject(e));
      run := C.Next(run, C.Reject(e));
      var oldPromise, oldReject, next := promise, reject, |gens|;
      gens, promise, resolve, reject := gens + [Fresh(false)], next, next, next;
      SettleOld(oldReject, Outcome.Rejected(e));
      assert IsDone(gens[oldPromise]);
    }

    /** The destructor rejects the current promise with End and swaps nothing in; every
        promise the object had is settled then, or its own call is about to settle it. */
    method Destroy()
      requires Valid()
      modifies this
      ensures C.Inv(run) && !run.alive && run.gens == gens && |gens| == |old(gens)|
      ensures IsDone(gens[old(promise)]) && Out(gens[old(promise)]) == Outcome.Rejected(End)
      ensures forall q :: 0 <= q < |gens| ==>
                IsDone(gens[q]) || (q < |run.settlers| && run.settlers[q].gen == q && run.settlers[q].at != C.Returned)
    {
      C.StepInv(run, C.Destroy);
      run := C.Next(run, C.Destroy);
      SettleOld(reject, Outcome.Rejected(End));
      forall q | 0 <= q < |gens| && !IsDone(gens[q])
        ensures 0 <= q < |run.settlers| && run.settlers[q].gen == q && run.settlers[q].at != C.Returned
      {
        assert C.GenOk(run, q);
      }
    }

    method Resolved() returns (b: bool)
      requires Valid()
      ensures b == gens[promise].value.Some? == false
    {
      assert C.GenOk(run, promise);
      b := gens[promise].value.Some?;
    }

    method Rejected() returns (b: bool)
      requires Valid()
      ensures b == gens[promise].exception.Some? == false
    {
      assert C.GenOk(run, promise);
      b := gens[promise].exception.Some?;
    }
  }
}
