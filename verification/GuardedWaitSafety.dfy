/** Every event of a guarded wait keeps its invariant. */
module GuardedWaitSafety {
  import opened Values
  import opened Cells
  import opened Sums
  import M = MutexProtocol
  import C = CvProtocol
  import opened GuardedWait

  // ---------------------------------------------------------------- frames

  /** What a step of the mutex never takes back. */
  ghost predicate MutexExtends(m: M.State, m': M.State) {
    && |m.grants| <= |m'.grants| && |m.cells| <= |m'.cells|
    && (forall t :: t in m.grants ==> t in m'.grants)
    && (forall t :: t in m.releases ==> t in m'.releases)
  }

  lemma MutexFacts(m: M.State, e: M.Event)
    requires M.Inv(m) && M.Enabled(m, e)
    ensures M.Inv(M.Next(m, e)) && MutexExtends(m, M.Next(m, e))
    ensures m.resolve.Some? && !e.UnLock? ==> M.Next(m, e).resolve == m.resolve
    ensures e.UnLock? ==> m.resolve.value in M.Next(m, e).releases
    ensures |M.Next(m, e).cells| == if e.Lock? then |m.cells| + 1 else |m.cells|
    ensures if e.Run? && m.threads[e.i][0].Grant?
            then var t := m.threads[e.i][0].t;
                 t == |m.grants| + 1 && t !in m.grants && M.Next(m, e).grants == m.grants + [t]
                 && M.Next(m, e).resolve == Some(t)
            else M.Next(m, e).grants == m.grants
  {
    M.StepInv(m, e);
    if e.Run? {
      assert m.threads[e.i][0] in m.threads[e.i] && M.SectionOk(m, m.threads[e.i][0]);
      if m.threads[e.i][0].Grant? {
        M.GrantIsNext(m, e.i, m.threads[e.i][0].t);
      }
    }
  }

  lemma CvUnchanged(c: C.State)
    ensures C.Extends(c, c)
  {
  }

  /** The step leaves wait `w` alone: the mutex is not taken from its guard, its ticket is not
      granted, and it stays registered if it is. */
  ghost predicate Undisturbed(s: State, s': State, w: nat)
    requires w < |s.waits|
  {
    var x := s.waits[w];
    && w < |s'.waits| && s'.waits[w] == x
    && (Using(x) && s.mutex.resolve.Some? && s.mutex.resolve == GuardTicket(x) ==> s'.mutex.resolve == s.mutex.resolve)
    && (x.ticket.Some? && x.ticket.value in s'.mutex.grants ==> x.ticket.value in s.mutex.grants)
    && (x.caller == Parked ==> OnGeneration(s', w, x))
  }

  lemma WaitKept(s: State, s': State, w: nat)
    requires w < |s.waits| && WaitOk(s, w) && Undisturbed(s, s', w)
    requires MutexExtends(s.mutex, s'.mutex) && C.Extends(s.cv, s'.cv)
    ensures WaitOk(s', w)
  {
    var x := s.waits[w];
    if StoodIn(s, x) {
      assert StoodIn(s', x);
    }
    if Refused(s, x) {
      assert Refused(s', x);
    }
    if Started(s, x) {
      assert Started(s', x);
    }
  }

  lemma OthersKept(s: State, s': State, w: nat)
    requires WaitsOk(s) && |s'.waits| == |s.waits| && w < |s.waits| && WaitOk(s', w)
    requires MutexExtends(s.mutex, s'.mutex) && C.Extends(s.cv, s'.cv)
    requires forall v :: 0 <= v < |s.waits| && v != w ==> Undisturbed(s, s', v)
    ensures WaitsOk(s')
  {
    forall v | 0 <= v < |s'.waits| ensures WaitOk(s', v) {
      if v != w {
        assert WaitOk(s, v) && Undisturbed(s, s', v);
        WaitKept(s, s', v);
      }
    }
  }

  /** The record `x` may take the place of wait `w`: it is in order and uses no new ticket. */
  ghost predicate PutOk(s: State, w: nat, x: Wait) {
    && w < |s.waits| && WaitOk(Put(s, w, x), w)
    && x.gen == s.waits[w].gen && (s.waits[w].caller == Parked ==> x.caller == Parked)
    && x.ticket == s.waits[w].ticket && (Using(x) ==> Using(s.waits[w]) && GuardTicket(x) == GuardTicket(s.waits[w]))
  }

  lemma PutParts(s: State, w: nat, x: Wait)
    requires WaitsOk(s) && GensOk(s) && PairsOk(s) && TicketsCounted(s) && PutOk(s, w, x)
    ensures var s' := Put(s, w, x);
            WaitsOk(s') && GensOk(s') && PairsOk(s') && TicketsCounted(s')
  {
    var s' := Put(s, w, x);
    CvUnchanged(s.cv);
    SumUpdate(s.waits, w, x, Drew);
    forall v | 0 <= v < |s.waits| && v != w ensures Undisturbed(s, s', v) {
      assert WaitOk(s, v);
    }
    OthersKept(s, s', w);
    forall g | 0 <= g < |s'.cv.gens| ensures GenAwaiters(s', g) {
      assert GenAwaiters(s, g);
    }
  }

  /** Replacing the record of one wait. */
  lemma PutInv(s: State, w: nat, x: Wait)
    requires Inv(s) && PutOk(s, w, x)
    ensures Inv(Put(s, w, x))
  {
    PutParts(s, w, x);
  }

  // ---------------------------------------------------------------- settling

  /** One section of settling keeps the fields in step; the awaiter is dispatched by the
      section that drains the promise. */
  lemma StrandStep(c: Cell<nat>, st: Settling, coroutine: bool, o: Outcome)
    requires StrandOk(c, st, coroutine, o) && Moving(st)
    ensures var r := SettleStep(c, st);
            && StrandOk(r.cell, r.next, coroutine, o) && r.next != Off
            && (IsDone(c) ==> IsDone(r.cell))
            && (r.woken ==> Drained(r.cell) && c.awaiters != [])
            && (if Drained(r.cell) then r.cell.awaiters == [] && r.woken == (c.awaiters != [])
                else r.cell.awaiters == c.awaiters)
            && !Drained(c)
  {
  }

  lemma EndLockOk(s: State, w: nat)
    requires w < |s.waits| && WaitOk(s, w) && Moving(s.waits[w].lockEnd)
    ensures PutOk(s, w, LockStep(s.waits[w]))
  {
    var x, x' := s.waits[w], LockStep(s.waits[w]);
    assert Started(s, x);
    StrandStep(x.lock, x.lockEnd, true, Resolved(Void));
    assert Started(Put(s, w, x'), x');
    assert HandlerWaits(x) ==> HandlerWaits(x');
  }

  /** The handler's end moves on; if it drains the handler's promise, the returned promise
      goes on from there. */
  lemma HandlerStepOk(x: Wait, coroutine: bool, o: Outcome)
    requires Moving(x.handlerEnd) && StrandOk(x.handler, x.handlerEnd, coroutine, o)
    ensures var x' := HandlerStep(x);
            && StrandOk(x'.handler, x'.handlerEnd, coroutine, o) && x'.handlerEnd != Off
            && (Unchained(x) ==> Unchained(x')) && (ResultWaits(x) ==> ResultWaits(x'))
            && x' == x.(handler := x'.handler, handlerEnd := x'.handlerEnd, resultEnd := x'.resultEnd)
            && (IsDone(x.handler) ==> IsDone(x'.handler))
  {
    StrandStep(x.handler, x.handlerEnd, coroutine, o);
  }

  lemma EndHandlerOk(s: State, w: nat)
    requires w < |s.waits| && WaitOk(s, w) && Moving(s.waits[w].handlerEnd)
    ensures PutOk(s, w, HandlerStep(s.waits[w]))
  {
    var x, x' := s.waits[w], HandlerStep(s.waits[w]);
    if Started(s, x) {
      HandlerStepOk(x, true, Resolved(Void));
      assert Started(Put(s, w, x'), x');
    } else {
      var err :| GenIs(s, x.gen, Rejected(err)) && StrandOk(x.handler, x.handlerEnd, false, Rejected(err));
      HandlerStepOk(x, false, Rejected(err));
      StandsIn(s, w, x', err);
    }
  }

  lemma StandsIn(s: State, w: nat, x: Wait, err: Error)
    requires w < |s.waits| && x.ticket == None && !x.owns && !x.direct && x.handlerEnd != Off
    requires x.lock == Fresh(false) && x.lockEnd == Off
    requires GenIs(s, x.gen, Rejected(err)) && StrandOk(x.handler, x.handlerEnd, false, Rejected(err))
    ensures StoodIn(Put(s, w, x), x)
  {
    assert GenIs(Put(s, w, x), x.gen, Rejected(err));
  }

  lemma EndResultOk(s: State, w: nat)
    requires w < |s.waits| && WaitOk(s, w) && Moving(s.waits[w].resultEnd)
    ensures PutOk(s, w, ResultStep(s.waits[w]))
  {
    var x, x' := s.waits[w], ResultStep(s.waits[w]);
    var s' := Put(s, w, x');
    if Refused(s, x) {
      var err :| GenIs(s, x.gen, Rejected(err)) && StrandOk(x.result, x.resultEnd, false, Rejected(err));
      StrandStep(x.result, x.resultEnd, false, Rejected(err));
      assert GenIs(s', x'.gen, Rejected(err)) && StrandOk(x'.result, x'.resultEnd, false, Rejected(err));
      assert Refused(s', x');
    } else {
      StrandStep(x.result, x.resultEnd, false, Out(x.handler));
      assert Started(s, x) ==> Started(s', x');
      assert StoodIn(s, x) ==> StoodIn(s', x');
    }
  }

  lemma EndInv(s: State, e: Event)
    requires Inv(s) && Enabled(s, e) && (e.EndLock? || e.EndHandler? || e.EndResult?)
    ensures Inv(Next(s, e))
  {
    match e
    case EndLock(w) =>
      EndLockOk(s, w);
      PutInv(s, w, LockStep(s.waits[w]));
    case EndHandler(w) =>
      EndHandlerOk(s, w);
      PutInv(s, w, HandlerStep(s.waits[w]));
    case EndResult(w) =>
      EndResultOk(s, w);
      PutInv(s, w, ResultStep(s.waits[w]));
  }

  // ---------------------------------------------------------------- the caller

  /** Unlocking disturbs no other wait: none uses the same ticket. */
  lemma ReleaseParts(s: State, s': State, w: nat)
    requires WaitsOk(s) && GensOk(s) && PairsOk(s) && TicketsCounted(s) && w < |s.waits|
    requires var x := s.waits[w];
             && x.caller == Releasing
             && s'.waits == s.waits[w := x.(owns := false, caller := Attaching, released := |s.cv.settlers|)]
             && s'.cv == s.cv && s'.locks == s.locks && |s'.mutex.cells| == |s.mutex.cells|
             && MutexExtends(s.mutex, s'.mutex) && s'.mutex.grants == s.mutex.grants
             && (if x.owns then x.held.Some? ==> x.held.value in s'.mutex.releases else s'.mutex == s.mutex)
    ensures WaitsOk(s') && GensOk(s') && PairsOk(s') && TicketsCounted(s')
  {
    var x := s.waits[w];
    assert WaitOk(s, w);
    CvUnchanged(s.cv);
    SumUpdate(s.waits, w, s'.waits[w], Drew);
    forall v | 0 <= v < |s.waits| && v != w ensures Undisturbed(s, s', v) {
      assert WaitOk(s, v);
      assert Using(s.waits[v]) && x.owns ==> GuardTicket(s.waits[v]) != x.held;
    }
    OthersKept(s, s', w);
    forall g | 0 <= g < |s'.cv.gens| ensures GenAwaiters(s', g) {
      assert GenAwaiters(s, g);
    }
  }

  lemma ReleaseInv(s: State, w: nat)
    requires Inv(s) && Enabled(s, Call(w)) && s.waits[w].caller == Releasing
    ensures Inv(Next(s, Call(w)))
  {
    assert WaitOk(s, w);
    if s.waits[w].owns {
      MutexFacts(s.mutex, M.UnLock);
    }
    ReleaseParts(s, Next(s, Call(w)), w);
  }

  /** What a generation resolves with. */
  lemma GenOutcome(s: State, g: nat)
    requires C.Inv(s.cv) && g < |s.cv.gens| && IsDone(s.cv.gens[g])
    ensures Out(s.cv.gens[g]).Resolved? ==> GenIs(s, g, Resolved(Void))
    ensures Out(s.cv.gens[g]).Rejected? ==> GenIs(s, g, Rejected(Out(s.cv.gens[g]).error))
  {
    assert C.GenOk(s.cv, g);
  }

  ghost predicate GenSettled(s: State, w: nat) {
    w < |s.waits| && s.waits[w].gen < |s.cv.gens| && IsDone(s.cv.gens[s.waits[w].gen])
  }

  /** The generation got a new awaiter `k`, and nothing else changed. */
  ghost predicate Joined(c: C.State, c': C.State, g: nat, k: nat)
    requires g < |c.gens|
  {
    && C.Extends(c, c') && |c'.gens| == |c.gens| && c'.settlers == c.settlers
    && (forall h :: 0 <= h < |c.gens| ==> IsDone(c'.gens[h]) == IsDone(c.gens[h]))
    && (forall h :: 0 <= h < |c.gens| && h != g ==> c'.gens[h].awaiters == c.gens[h].awaiters)
    && (forall a | a in c.gens[g].awaiters :: a in c'.gens[g].awaiters)
    && (forall a | a in c'.gens[g].awaiters :: a in c.gens[g].awaiters || a.k == k)
    && (exists a :: a in c'.gens[g].awaiters && a.k == k)
  }

  /** Registering on a pending generation. */
  lemma RegisterFacts(c: C.State, g: nat, k: nat)
    requires C.Inv(c) && g < |c.gens| && !IsDone(c.gens[g])
    ensures C.Inv(C.Next(c, C.Register(g, k))) && Joined(c, C.Next(c, C.Register(g, k)), g, k)
  {
    C.StepInv(c, C.Register(g, k));
    C.StepExtends(c, C.Register(g, k));
    var a: Awaiter<nat> := Callback(k, c.gens[g].useCount + 1);
    assert C.Next(c, C.Register(g, k)).gens[g].awaiters == c.gens[g].awaiters + [a];
    assert a in c.gens[g].awaiters + [a];
  }

  lemma ParkParts(s: State, s': State, w: nat)
    requires WaitsOk(s) && GensOk(s) && PairsOk(s) && TicketsCounted(s)
    requires w < |s.waits| && s.waits[w].caller == Attaching && s.waits[w].gen < |s.cv.gens| && !GenSettled(s, w)
    requires Joined(s.cv, s'.cv, s.waits[w].gen, w + 1)
    requires s' == s.(cv := s'.cv, waits := s.waits[w := s.waits[w].(caller := Parked)])
    ensures WaitsOk(s') && GensOk(s') && PairsOk(s') && TicketsCounted(s')
  {
    assert WaitOk(s, w);
    SumUpdate(s.waits, w, s'.waits[w], Drew);
    forall v | 0 <= v < |s.waits| && v != w ensures Undisturbed(s, s', v) {
      assert WaitOk(s, v);
    }
    OthersKept(s, s', w);
    forall g | 0 <= g < |s'.cv.gens| ensures GenAwaiters(s', g) {
      assert GenAwaiters(s, g);
    }
  }

  lemma ParkInv(s: State, w: nat)
    requires Inv(s) && Enabled(s, Call(w)) && s.waits[w].caller == Attaching && !GenSettled(s, w)
    ensures Inv(Next(s, Call(w)))
  {
    assert WaitOk(s, w);
    RegisterFacts(s.cv, s.waits[w].gen, w + 1);
    ParkParts(s, Next(s, Call(w)), w);
  }

  lemma AttachOk(s: State, w: nat)
    requires w < |s.waits| && WaitOk(s, w) && s.waits[w].caller == Attaching && GenSettled(s, w)
    requires Out(s.cv.gens[s.waits[w].gen]).Resolved? ==> GenIs(s, s.waits[w].gen, Resolved(Void))
    ensures PutOk(s, w, CallerStep(s.waits[w], s.cv.gens[s.waits[w].gen]))
  {
    var x := s.waits[w];
    var x', o := CallerStep(x, s.cv.gens[x.gen]), Out(s.cv.gens[x.gen]);
    if o.Rejected? {
      assert GenIs(Put(s, w, x'), x'.gen, Rejected(o.error));
      assert StrandOk(x'.result, x'.resultEnd, false, Rejected(o.error));
      assert Refused(Put(s, w, x'), x');
    }
  }

  lemma DispatchOk(s: State, w: nat)
    requires w < |s.waits| && WaitOk(s, w) && s.waits[w].caller == Dispatched
    requires GenSettled(s, w)
    requires Out(s.cv.gens[s.waits[w].gen]).Resolved? ==> GenIs(s, s.waits[w].gen, Resolved(Void))
    ensures PutOk(s, w, CallerStep(s.waits[w], s.cv.gens[s.waits[w].gen]))
  {
    var x := s.waits[w];
    var o := Out(s.cv.gens[x.gen]);
    if o.Rejected? {
      StandsIn(s, w, CallerStep(x, s.cv.gens[x.gen]), o.error);
    }
  }

  lemma AwaitOk(s: State, w: nat, g: Cell<nat>)
    requires w < |s.waits| && WaitOk(s, w) && s.waits[w].caller == Awaiting
    ensures PutOk(s, w, CallerStep(s.waits[w], g))
  {
    var x' := CallerStep(s.waits[w], g);
    assert Started(Put(s, w, x'), x');
  }

  /** Either the handler's promise is settled and the returned one follows at once, or the
      continuation is registered on it. */
  lemma ChainRecord(x: Wait, g: Cell<nat>, coroutine: bool, o: Outcome)
    requires x.caller == Chaining && Unchained(x) && StrandOk(x.handler, x.handlerEnd, coroutine, o)
    ensures var x' := CallerStep(x, g);
            && ResultWaits(x') && StrandOk(x'.handler, x'.handlerEnd, coroutine, o)
            && x' == x.(caller := Past, handler := x'.handler, resultEnd := x'.resultEnd)
  {
  }

  lemma ChainOk(s: State, w: nat, g: Cell<nat>)
    requires w < |s.waits| && WaitOk(s, w) && s.waits[w].caller == Chaining
    ensures PutOk(s, w, CallerStep(s.waits[w], g))
  {
    var x, x' := s.waits[w], CallerStep(s.waits[w], g);
    if Started(s, x) {
      ChainRecord(x, g, true, Resolved(Void));
      assert Started(Put(s, w, x'), x');
    } else {
      var err :| GenIs(s, x.gen, Rejected(err)) && StrandOk(x.handler, x.handlerEnd, false, Rejected(err));
      ChainRecord(x, g, false, Rejected(err));
      StandsIn(s, w, x', err);
    }
  }

  /** Tickets drawn so far are smaller than the next one. */
  lemma OldTickets(s: State)
    requires WaitsOk(s) && M.Inv(s.mutex)
    ensures |s.mutex.cells| !in s.mutex.grants && |s.mutex.grants| < |s.mutex.cells|
    ensures forall v :: 0 <= v < |s.waits| && GuardTicket(s.waits[v]).Some? ==>
              GuardTicket(s.waits[v]).value < |s.mutex.cells|
  {
    assert M.TokenOk(s.mutex);
    assert forall i :: 0 <= i < |s.mutex.grants| ==> s.mutex.grants[i] == i + 1;
    forall v | 0 <= v < |s.waits| && GuardTicket(s.waits[v]).Some?
      ensures GuardTicket(s.waits[v]).value < |s.mutex.cells|
    {
      assert WaitOk(s, v);
    }
  }

  lemma StartParts(s: State, s': State, w: nat)
    requires WaitsOk(s) && GensOk(s) && PairsOk(s) && TicketsCounted(s)
    requires w < |s.waits| && s.waits[w].caller == Starting
    requires s' == s.(mutex := s'.mutex, waits := s.waits[w := Drawn(s.waits[w], |s.mutex.cells|)])
    requires MutexExtends(s.mutex, s'.mutex) && s'.mutex.grants == s.mutex.grants
    requires |s'.mutex.cells| == |s.mutex.cells| + 1
    requires s.mutex.resolve.Some? ==> s'.mutex.resolve == s.mutex.resolve
    requires |s.mutex.cells| !in s.mutex.grants && |s.mutex.grants| < |s.mutex.cells|
    requires forall v :: 0 <= v < |s.waits| && GuardTicket(s.waits[v]).Some? ==>
               GuardTicket(s.waits[v]).value < |s.mutex.cells|
    ensures WaitsOk(s') && GensOk(s') && PairsOk(s') && TicketsCounted(s')
  {
    assert WaitOk(s, w);
    CvUnchanged(s.cv);
    SumUpdate(s.waits, w, s'.waits[w], Drew);
    assert Started(s', s'.waits[w]);
    forall v | 0 <= v < |s.waits| && v != w ensures Undisturbed(s, s', v) {
      assert WaitOk(s, v);
    }
    OthersKept(s, s', w);
    forall g | 0 <= g < |s'.cv.gens| ensures GenAwaiters(s', g) {
      assert GenAwaiters(s, g);
    }
  }

  lemma StartInv(s: State, w: nat)
    requires Inv(s) && Enabled(s, Call(w)) && s.waits[w].caller == Starting
    ensures Inv(Next(s, Call(w)))
  {
    MutexFacts(s.mutex, M.Lock);
    OldTickets(s);
    StartParts(s, Next(s, Call(w)), w);
  }

  lemma CallInv(s: State, w: nat)
    requires Inv(s) && Enabled(s, Call(w))
    ensures Inv(Next(s, Call(w)))
  {
    assert WaitOk(s, w);
    var x := s.waits[w];
    if GenSettled(s, w) {
      GenOutcome(s, x.gen);
    }
    match x.caller
    case Releasing => ReleaseInv(s, w);
    case Starting => StartInv(s, w);
    case Attaching =>
      if GenSettled(s, w) {
        AttachOk(s, w);
        PutInv(s, w, CallerStep(x, s.cv.gens[x.gen]));
      } else {
        ParkInv(s, w);
      }
    case Dispatched =>
      DispatchOk(s, w);
      PutInv(s, w, CallerStep(x, s.cv.gens[x.gen]));
    case Awaiting =>
      AwaitOk(s, w, s.cv.gens[x.gen]);
      PutInv(s, w, CallerStep(x, s.cv.gens[x.gen]));
    case Chaining =>
      ChainOk(s, w, s.cv.gens[x.gen]);
      PutInv(s, w, CallerStep(x, s.cv.gens[x.gen]));
  }

  // ---------------------------------------------------------------- the others

  lemma BeginParts(s: State, s': State)
    requires WaitsOk(s) && GensOk(s) && PairsOk(s) && TicketsCounted(s)
    requires |s'.waits| == |s.waits| + 1 && s' == s.(waits := s.waits + [s'.waits[|s.waits|]])
    requires WaitOk(s', |s.waits|) && s'.waits[|s.waits|].ticket == None
    requires var x := s'.waits[|s.waits|]; Using(x) ==> x.held.Some? && !Reserved(s, x.held.value)
    ensures WaitsOk(s') && GensOk(s') && PairsOk(s') && TicketsCounted(s')
  {
    var n := |s.waits|;
    SumAppend(s.waits, [s'.waits[n]], Drew);
    SumOne(s'.waits[n], Drew);
    CvUnchanged(s.cv);
    forall v | 0 <= v < |s'.waits| ensures WaitOk(s', v) {
      if v < n {
        assert WaitOk(s, v) && s'.waits[v] == s.waits[v];
        WaitKept(s, s', v);
      }
    }
    forall g | 0 <= g < |s'.cv.gens| ensures GenAwaiters(s', g) {
      assert GenAwaiters(s, g);
    }
    forall v, w | 0 <= v < w < |s'.waits| && Using(s'.waits[v]) && Using(s'.waits[w])
      ensures GuardTicket(s'.waits[v]) != GuardTicket(s'.waits[w])
    {
      assert s'.waits[v] == s.waits[v];
    }
  }

  lemma BeginInv(s: State, owns: bool)
    requires Inv(s) && Enabled(s, BeginWait(owns))
    ensures Inv(Next(s, BeginWait(owns)))
  {
    assert M.TokenOk(s.mutex) && C.FieldsOk(s.cv);
    BeginParts(s, Next(s, BeginWait(owns)));
  }

  /** A step of the mutex that takes it from no wait and grants no wait's ticket. */
  lemma MutexParts(s: State, s': State)
    requires WaitsOk(s) && GensOk(s) && PairsOk(s) && s' == s.(mutex := s'.mutex, locks := s'.locks)
    requires MutexExtends(s.mutex, s'.mutex) && s'.mutex.grants == s.mutex.grants
    requires s'.mutex.resolve == s.mutex.resolve || s.mutex.resolve == None || !Reserved(s, s.mutex.resolve.value)
    ensures WaitsOk(s') && GensOk(s') && PairsOk(s')
  {
    CvUnchanged(s.cv);
    forall v | 0 <= v < |s'.waits| ensures WaitOk(s', v) {
      assert WaitOk(s, v);
      WaitKept(s, s', v);
    }
    forall g | 0 <= g < |s'.cv.gens| ensures GenAwaiters(s', g) {
      assert GenAwaiters(s, g);
    }
  }

  /** The wait whose ticket has just been granted. */
  lemma GrantedOk(s: State, s': State, w: nat, t: nat)
    requires w < |s.waits| == |s'.waits| && WaitOk(s, w) && s.waits[w].ticket == Some(t)
    requires s'.waits[w] == s.waits[w].(lockEnd := Claiming(Resolved(Void))) && s'.cv == s.cv
    requires MutexExtends(s.mutex, s'.mutex) && t !in s.mutex.grants
    requires t in s'.mutex.grants && s'.mutex.resolve == Some(t)
    ensures WaitOk(s', w)
  {
    assert Started(s, s.waits[w]) && s.waits[w].lockEnd == Off;
    assert Started(s', s'.waits[w]);
  }

  lemma GrantParts(s: State, s': State, t: nat)
    requires WaitsOk(s) && GensOk(s) && PairsOk(s)
    requires s' == s.(mutex := s'.mutex, waits := Granted(s.waits, t))
    requires MutexExtends(s.mutex, s'.mutex) && s'.mutex.grants == s.mutex.grants + [t] && t !in s.mutex.grants
    requires s.mutex.resolve == None && s'.mutex.resolve == Some(t)
    ensures WaitsOk(s') && GensOk(s') && PairsOk(s')
  {
    CvUnchanged(s.cv);
    forall v | 0 <= v < |s'.waits| ensures WaitOk(s', v) {
      assert WaitOk(s, v);
      if s.waits[v].ticket == Some(t) {
        GrantedOk(s, s', v, t);
      } else {
        assert s'.waits[v] == s.waits[v];
        WaitKept(s, s', v);
      }
    }
    forall g | 0 <= g < |s'.cv.gens| ensures GenAwaiters(s', g) {
      assert GenAwaiters(s, g);
    }
  }

  lemma MutexEventInv(s: State, me: M.Event)
    requires Inv(s) && Enabled(s, OnMutex(me))
    ensures Inv(Next(s, OnMutex(me)))
  {
    var s' := Next(s, OnMutex(me));
    MutexFacts(s.mutex, me);
    if me.Run? && s.mutex.threads[me.i][0].Grant? {
      M.GrantIsNext(s.mutex, me.i, s.mutex.threads[me.i][0].t);
      GrantParts(s, s', s.mutex.threads[me.i][0].t);
    } else {
      MutexParts(s, s');
    }
    SameTickets(s.waits, s'.waits);
  }

  lemma {:induction false} SameTickets(a: seq<Wait>, b: seq<Wait>)
    requires |a| == |b| && forall w :: 0 <= w < |a| ==> a[w].ticket == b[w].ticket
    ensures Sum(a, Drew) == Sum(b, Drew)
  {
    if a != [] {
      SameTickets(a[1..], b[1..]);
    }
  }

  /** Calls on the CVPromise and other users' registrations do not touch the awaiters of
      waits. */
  ghost predicate AwaitersKept(c: C.State, c': C.State) {
    && |c.gens| <= |c'.gens|
    && (forall g :: 0 <= g < |c.gens| ==> GenKept(c.gens[g], c'.gens[g]))
    && (forall g :: |c.gens| <= g < |c'.gens| ==> c'.gens[g] == Fresh(false))
  }

  ghost predicate GenKept(c: Cell<nat>, c': Cell<nat>) {
    && IsDone(c') == IsDone(c) && (IsDone(c) && c.awaiters == [] ==> c'.awaiters == [])
    && (forall a | a in c.awaiters :: a.k > 0 ==> a in c'.awaiters)
    && (forall a | a in c'.awaiters :: a in c.awaiters || a.k == 0)
  }

  lemma CallsKeepAwaiters(c: C.State, ce: C.Event)
    requires C.Inv(c) && C.Enabled(c, ce) && !ce.Run? && (ce.Register? ==> ce.k == 0)
    requires ce.Unregister? ==> forall a | a in c.gens[ce.g].awaiters :: a.id == ce.id ==> a.k == 0
    ensures AwaitersKept(c, C.Next(c, ce))
  {
    if ce.Unregister? {
      WithoutMembers(c.gens[ce.g].awaiters, ce.id);
    }
  }

  lemma CvCallParts(s: State, s': State)
    requires WaitsOk(s) && GensOk(s) && PairsOk(s) && TicketsCounted(s)
    requires s' == s.(cv := s'.cv) && C.Extends(s.cv, s'.cv) && AwaitersKept(s.cv, s'.cv)
    ensures WaitsOk(s') && GensOk(s') && PairsOk(s') && TicketsCounted(s')
  {
    forall v | 0 <= v < |s'.waits| ensures WaitOk(s', v) {
      assert WaitOk(s, v);
      assert GenKept(s.cv.gens[s.waits[v].gen], s'.cv.gens[s.waits[v].gen]);
      WaitKept(s, s', v);
    }
    forall g | 0 <= g < |s'.cv.gens| ensures GenAwaiters(s', g) {
      if g < |s.cv.gens| {
        assert GenAwaiters(s, g) && GenKept(s.cv.gens[g], s'.cv.gens[g]);
      }
    }
  }

  /** A section of settling call `i`: the store dispatches the awaiters of its generation, and
      no section touches those of another one. */
  ghost predicate Proceeded(c: C.State, c': C.State, i: nat, taken: seq<Awaiter<nat>>) {
    && i < |c.gens| == |c'.gens| && C.Extends(c, c')
    && (forall g :: 0 <= g < |c.gens| && g != i ==> c'.gens[g] == c.gens[g])
    && if taken == []
       then c'.gens[i].awaiters == c.gens[i].awaiters && (IsDone(c'.gens[i]) ==> c.gens[i].awaiters == [])
       else taken == c.gens[i].awaiters && c'.gens[i].awaiters == [] && IsDone(c'.gens[i])
  }

  lemma ProceedFacts(c: C.State, i: nat)
    requires C.Inv(c) && C.Enabled(c, C.Run(i)) && i < |c.gens|
    requires IsDone(c.gens[i]) ==> c.gens[i].awaiters == []
    ensures c.settlers[i].gen == i && Proceeded(c, C.Next(c, C.Run(i)), i, Taken(c, i))
  {
    C.StepExtends(c, C.Run(i));
    assert C.GenOk(c, i);
  }

  lemma NamedWait(s: State, s': State, i: nat, taken: seq<Awaiter<nat>>, v: nat)
    requires v < |s.waits| == |s'.waits| && WaitOk(s, v) && Proceeded(s.cv, s'.cv, i, taken) && GenAwaiters(s, i)
    requires Names(taken, v) && s'.mutex == s.mutex && s'.waits[v] == s.waits[v].(caller := Dispatched)
    ensures s.waits[v].caller == Parked && s.waits[v].gen == i && taken != [] && WaitOk(s', v)
  {
    var a :| a in taken && a.k == v + 1;
    assert a in s.cv.gens[i].awaiters;
  }

  lemma StaysRegistered(s: State, s': State, i: nat, taken: seq<Awaiter<nat>>, v: nat)
    requires v < |s.waits| && OnGeneration(s, v, s.waits[v]) && Proceeded(s.cv, s'.cv, i, taken) && !Names(taken, v)
    ensures OnGeneration(s', v, s.waits[v])
  {
    var x := s.waits[v];
    var a :| a in s.cv.gens[x.gen].awaiters && a.k == v + 1;
    assert a in s'.cv.gens[x.gen].awaiters;
  }

  lemma CvRunWait(s: State, s': State, i: nat, taken: seq<Awaiter<nat>>, v: nat)
    requires v < |s.waits| == |s'.waits| && WaitOk(s, v) && Proceeded(s.cv, s'.cv, i, taken) && GenAwaiters(s, i)
    requires s'.mutex == s.mutex
    requires s'.waits[v] == if Names(taken, v) then s.waits[v].(caller := Dispatched) else s.waits[v]
    ensures WaitOk(s', v)
    ensures s'.waits[v] != s.waits[v] ==> s.waits[v].gen == i && taken != []
  {
    if Names(taken, v) {
      NamedWait(s, s', i, taken, v);
    } else {
      if s.waits[v].caller == Parked {
        StaysRegistered(s, s', i, taken, v);
      }
      WaitKept(s, s', v);
    }
  }

  lemma CvRunParts(s: State, s': State, i: nat, taken: seq<Awaiter<nat>>)
    requires WaitsOk(s) && GensOk(s) && PairsOk(s) && Proceeded(s.cv, s'.cv, i, taken)
    requires s' == s.(cv := s'.cv, waits := Called(s.waits, taken))
    ensures WaitsOk(s') && GensOk(s') && PairsOk(s')
  {
    forall v | 0 <= v < |s'.waits|
      ensures WaitOk(s', v)
      ensures s'.waits[v] == s.waits[v] || s'.waits[v] == s.waits[v].(caller := Dispatched)
      ensures s'.waits[v] != s.waits[v] ==> s.waits[v].gen == i && taken != []
    {
      assert WaitOk(s, v) && GenAwaiters(s, i);
      CvRunWait(s, s', i, taken, v);
    }
    forall g | 0 <= g < |s'.cv.gens| ensures GenAwaiters(s', g) {
      assert GenAwaiters(s, g);
    }
  }

  lemma CvEventInv(s: State, ce: C.Event)
    requires Inv(s) && Enabled(s, OnCv(ce))
    ensures Inv(Next(s, OnCv(ce)))
  {
    var s' := Next(s, OnCv(ce));
    C.StepInv(s.cv, ce);
    if ce.Run? {
      assert C.FieldsOk(s.cv) && GenAwaiters(s, ce.g);
      ProceedFacts(s.cv, ce.g);
      CvRunParts(s, s', ce.g, Taken(s.cv, ce.g));
      SameTickets(s.waits, s'.waits);
    } else {
      C.StepExtends(s.cv, ce);
      CallsKeepAwaiters(s.cv, ce);
      CvCallParts(s, s');
    }
  }

  /** Every event keeps the invariant. */
  lemma StepInv(s: State, e: Event)
    requires Inv(s) && Enabled(s, e)
    ensures Inv(Next(s, e))
  {
    match e
    case BeginWait(owns) => BeginInv(s, owns);
    case Call(w) => CallInv(s, w);
    case EndLock(_) => EndInv(s, e);
    case EndHandler(_) => EndInv(s, e);
    case EndResult(_) => EndInv(s, e);
    case OnMutex(me) => MutexEventInv(s, me);
    case OnCv(ce) => CvEventInv(s, ce);
  }
}
