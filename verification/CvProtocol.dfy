/** CVPromise as a protocol: every Notify and every Reject swaps in a fresh promise under the
    lock and then settles the one it swapped out. */
module CvProtocol {
  import opened Values
  import opened Cells

  /** How far the call that swapped a generation out has come: before the exchange of its
      resolve or reject call, between exchange and store, before `assert(old_promise.Done())`,
      and back at the caller. */
  datatype Progress = Swapped | Claimed | Stored | Returned

  /** A call in progress: the generation whose handle it holds and what it settles it with. */
  datatype Settler = Settler(gen: nat, o: Outcome, at: Progress)

  /** `gens` holds every promise the object ever had; promise_, resolve_ and reject_ are the
      generations those three fields refer to. `settlers[g]` is the call that took
      generation `g` out; `handles` lists the generations returned by Wait, each with the
      number of swaps done before. */
  datatype State = State(
    gens: seq<Cell<nat>>,
    promise: nat,
    resolve: nat,
    reject: nat,
    alive: bool,
    settlers: seq<Settler>,
    handles: seq<Handle>)

  datatype Handle = Handle(gen: nat, swapsBefore: nat)

  datatype Event =
    | Wait
    | Notify
    | Reject(e: Error)
    | Destroy
    | Run(g: nat)
    | Register(g: nat, k: nat)
    | Unregister(g: nat, id: nat)

  const Start: State := State([Fresh(false)], 0, 0, 0, true, [], [])

  /** A dead object takes no more calls; users may still await its old promises. */
  predicate Enabled(s: State, e: Event) {
    match e
    case Wait => s.alive
    case Notify => s.alive
    case Reject(_) => s.alive
    case Destroy => s.alive
    case Run(g) => g < |s.settlers| && !s.settlers[g].at.Returned?
    case Register(g, _) => g < |s.gens|
    case Unregister(g, _) => g < |s.gens|
  }

  /** The locked three-field swap of Notify and Reject; `taken` is the old generation whose
      handle the call keeps. */
  function Swap(s: State, taken: nat, o: Outcome): State {
    var next := |s.gens|;
    s.(gens := s.gens + [Fresh(false)], promise := next, resolve := next, reject := next,
       settlers := s.settlers + [Settler(taken, o, Swapped)])
  }

  function Next(s: State, e: Event): State
    requires Inv(s) && Enabled(s, e)
  {
    match e
    case Wait => s.(handles := s.handles + [Handle(s.promise, |s.settlers|)])
    case Notify => Swap(s, s.resolve, Resolved(Void))
    case Reject(err) => Swap(s, s.reject, Rejected(err))
    case Destroy => s.(alive := false, settlers := s.settlers + [Settler(s.reject, Rejected(End), Swapped)])
    case Run(g) => Proceed(s, g)
    case Register(g, k) =>
      if IsDone(s.gens[g]) then s else s.(gens := s.gens[g := AwaitCallback(s.gens[g], k)])
    case Unregister(g, id) => s.(gens := s.gens[g := UnAwait(s.gens[g], id)])
  }

  /** The next section of settling call `i`. */
  function Proceed(s: State, i: nat): State
    requires i < |s.settlers| && s.settlers[i].gen < |s.gens|
  {
    var t := s.settlers[i];
    var c := s.gens[t.gen];
    match t.at
    case Swapped =>
      if c.claimed then s.(settlers := s.settlers[i := t.(at := Stored)])
      else s.(gens := s.gens[t.gen := Claim(c)], settlers := s.settlers[i := t.(at := Claimed)])
    case Claimed =>
      s.(gens := s.gens[t.gen := StoreOutcome(c, t.o).cell], settlers := s.settlers[i := t.(at := Stored)])
    case _ => s.(settlers := s.settlers[i := t.(at := Returned)])
  }

  // ---------------------------------------------------------------- invariant

  /** The state of generation `g` is exactly how far its settler has come. */
  ghost predicate GenOk(s: State, g: nat)
    requires g < |s.gens|
  {
    var c := s.gens[g];
    && !c.running && !(c.value.Some? && c.exception.Some?)
    && if g >= |s.settlers| then !c.claimed && !IsDone(c)
       else match s.settlers[g].at
            case Swapped => !c.claimed && !IsDone(c)
            case Claimed => c.claimed && !IsDone(c)
            case _ => c.claimed && IsDone(c) && Out(c) == s.settlers[g].o
  }

  /** Generations are swapped out one by one, in order, each by one call. */
  ghost predicate FieldsOk(s: State) {
    && s.promise == s.resolve == s.reject == |s.gens| - 1
    && |s.settlers| == (if s.alive then |s.gens| - 1 else |s.gens|)
    && (forall i :: 0 <= i < |s.settlers| ==> s.settlers[i].gen == i)
    && (forall i :: 0 <= i < |s.settlers| && s.settlers[i].o.Resolved? ==> s.settlers[i].o == Resolved(Void))
    && (!s.alive ==> s.settlers[|s.gens| - 1].o == Rejected(End))
    && (forall h :: h in s.handles ==> h.gen == h.swapsBefore < |s.gens|)
  }

  ghost predicate Inv(s: State) {
    && |s.gens| > 0 && FieldsOk(s)
    && (forall g :: 0 <= g < |s.gens| ==> GenOk(s, g))
  }

  lemma SwapInv(s: State, e: Event)
    requires Inv(s) && Enabled(s, e) && !e.Run?
    ensures Inv(Next(s, e))
  {
    var s' := Next(s, e);
    forall g | 0 <= g < |s'.gens| ensures GenOk(s', g) {
      if g < |s.gens| {
        assert GenOk(s, g);
      }
    }
  }

  lemma ProceedInv(s: State, i: nat)
    requires Inv(s) && Enabled(s, Run(i))
    ensures Inv(Next(s, Run(i)))
  {
    var s' := Next(s, Run(i));
    assert GenOk(s, i);
    forall g | 0 <= g < |s'.gens| ensures GenOk(s', g) {
      assert GenOk(s, g);
    }
  }

  lemma StepInv(s: State, e: Event)
    requires Inv(s) && Enabled(s, e)
    ensures Inv(Next(s, e))
  {
    if e.Run? {
      ProceedInv(s, e.g);
    } else {
      SwapInv(s, e);
    }
  }

  ghost predicate IsRun(s: State, events: seq<Event>)
    requires Inv(s)
    decreases |events|
  {
    events != [] ==> Enabled(s, events[0]) && (StepInv(s, events[0]); IsRun(Next(s, events[0]), events[1..]))
  }

  ghost function Last(s: State, events: seq<Event>): (r: State)
    requires Inv(s) && IsRun(s, events)
    ensures Inv(r)
    decreases |events|
  {
    if events == [] then s else StepInv(s, events[0]); Last(Next(s, events[0]), events[1..])
  }

  // ---------------------------------------------------------------- main results

  /** While the object lives its current promise is pending and unclaimed, so Resolved() and
      Rejected() read false; every settling call wins its exchange and finds its promise
      done when it returns. */
  lemma CurrentIsPending(events: seq<Event>, g: nat)
    requires IsRun(Start, events)
    ensures var s := Last(Start, events);
            && (s.alive ==> !s.gens[s.promise].claimed && !IsDone(s.gens[s.promise]))
            && (g < |s.settlers| && s.settlers[g].at == Swapped ==> !s.gens[g].claimed)
            && (g < |s.settlers| && (s.settlers[g].at == Stored || s.settlers[g].at == Returned) ==> IsDone(s.gens[g]))
  {
    var s := Last(Start, events);
    assert GenOk(s, s.promise);
    if g < |s.settlers| {
      assert GenOk(s, g);
    }
  }

  /** Settlers keep their outcome and generations keep theirs. */
  ghost predicate Extends(s: State, s': State) {
    && |s.settlers| <= |s'.settlers| && |s.gens| <= |s'.gens| && |s.handles| <= |s'.handles|
    && (forall g :: 0 <= g < |s.settlers| ==> s'.settlers[g].o == s.settlers[g].o)
    && (forall g :: 0 <= g < |s.gens| && IsDone(s.gens[g]) ==> IsDone(s'.gens[g]) && Out(s'.gens[g]) == Out(s.gens[g]))
    && (forall h :: 0 <= h < |s.handles| ==> s'.handles[h] == s.handles[h])
  }

  lemma StepExtends(s: State, e: Event)
    requires Inv(s) && Enabled(s, e)
    ensures Extends(s, Next(s, e))
  {
    var s' := Next(s, e);
    forall g | 0 <= g < |s.gens| && IsDone(s.gens[g])
      ensures IsDone(s'.gens[g]) && Out(s'.gens[g]) == Out(s.gens[g])
    {
      assert GenOk(s, g);
    }
  }

  lemma {:induction false} RunExtends(s: State, events: seq<Event>)
    requires Inv(s) && IsRun(s, events)
    ensures Extends(s, Last(s, events))
    decreases |events|
  {
    if events != [] {
      StepInv(s, events[0]);
      StepExtends(s, events[0]);
      RunExtends(Next(s, events[0]), events[1..]);
    }
  }

  /** Generations: a handle returned by Wait is settled by the first Notify, Reject or
      destruction whose swap comes after it, and by no other call: whatever happens later,
      once a call has taken the current generation out with outcome `o`, every handle taken
      since the previous swap settles with `o` or is still being settled by that call. */
  lemma HandleIsSettledByNextSwap(s: State, e: Event, o: Outcome, events: seq<Event>, h: nat)
    requires Inv(s) && Enabled(s, e) && Inv(Next(s, e)) && IsRun(Next(s, e), events)
    requires
      || (e == Notify && o == Resolved(Void))
      || (e.Reject? && o == Rejected(e.e))
      || (e == Destroy && o == Rejected(End))
    requires h < |s.handles| && s.handles[h].swapsBefore == |s.settlers|
    ensures var r := Last(Next(s, e), events);
            && h < |r.handles| && r.handles[h] == s.handles[h]
            && s.handles[h].gen < |r.gens| && s.handles[h].gen < |r.settlers|
            && (IsDone(r.gens[s.handles[h].gen]) ==> Out(r.gens[s.handles[h].gen]) == o)
            && (r.settlers[s.handles[h].gen].at == Returned ==> IsDone(r.gens[s.handles[h].gen]))
  {
    var r := Last(Next(s, e), events);
    var g := s.handles[h].gen;
    assert s.handles[h] in s.handles;
    RunExtends(Next(s, e), events);
    assert Next(s, e).settlers[g].o == o;
    assert GenOk(r, g);
  }

  /** A handle taken since the last swap is still pending. */
  lemma HandlePendingUntilSwap(s: State, h: Handle)
    requires Inv(s) && h in s.handles && h.swapsBefore == |s.settlers| && s.alive
    ensures h.gen == s.promise && !IsDone(s.gens[h.gen])
  {
    assert GenOk(s, h.gen);
  }
}
