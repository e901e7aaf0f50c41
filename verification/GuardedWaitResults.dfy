/** What CVPromise::Wait with a guard promises, over all runs. */
module GuardedWaitResults {
  import opened Values
  import opened Cells
  import opened Sums
  import M = MutexProtocol
  import C = CvProtocol
  import opened GuardedWait
  import opened GuardedWaitSafety

  // ---------------------------------------------------------------- runs

  ghost predicate IsRun(s: State, events: seq<Event>)
    requires Inv(s)
    decreases |events|
  {
    events != [] ==> Enabled(s, events[0]) && (StepInv(s, events[0]); IsRun(Next(s, events[0]), events[1..]))
  }

  ghost function Last(s: State, events: seq<Event>): (r: State)
    requires Inv(s) && IsRun(s, events)
    ensures Inv(r)
    decreases |events|
  {
    if events == [] then s else StepInv(s, events[0]); Last(Next(s, events[0]), events[1..])
  }

  lemma StartOk()
    ensures Inv(Start)
  {
    M.StartInv();
  }

  ghost predicate ReachedBy(s: State, events: seq<Event>) {
    StartOk();
    IsRun(Start, events) && Last(Start, events) == s
  }

  /** Any calls on the mutex, the CVPromise and its guarded waits, in any order of their
      sections. */
  ghost predicate Reachable(s: State)
    ensures Reachable(s) ==> Inv(s)
  {
    StartOk();
    exists events :: ReachedBy(s, events)
  }

  // ---------------------------------------------------------------- main results

  /** A record that was not settled still is not, if only the caller has moved. */
  lemma CallerKeepsBusy(s: State, w: nat)
    requires w < |s.waits| && WaitOk(s, w) && Busy(s.waits[w])
    requires s.waits[w].caller == Attaching || s.waits[w].caller == Dispatched ==> GenSettled(s, w)
    ensures s.waits[w].gen < |s.cv.gens| && Busy(CallerStep(s.waits[w], s.cv.gens[s.waits[w].gen]))
    ensures s.waits[w].caller == Starting ==> Busy(Drawn(s.waits[w], |s.mutex.cells|))
  {
  }

  lemma CallKeepsBusy(s: State, v: nat, w: nat)
    requires Inv(s) && Enabled(s, Call(v)) && w < |s.waits| && Busy(s.waits[w])
    ensures w < |Next(s, Call(v)).waits| && Busy(Next(s, Call(v)).waits[w])
  {
    assert WaitOk(s, w);
    if v == w && (s.waits[w].caller == Attaching ==> GenSettled(s, w)) {
      CallerKeepsBusy(s, w);
    }
  }

  /** Only the end of the handler, or of the derived promise that follows it, settles what
      Wait returned. */
  lemma SettledHere(s: State, e: Event, w: nat)
    requires Inv(s) && Enabled(s, e) && w < |s.waits| && Busy(s.waits[w])
    ensures w < |Next(s, e).waits|
    ensures e != EndHandler(w) && e != EndResult(w) ==> Busy(Next(s, e).waits[w])
  {
    if e.Call? {
      CallKeepsBusy(s, e.w, w);
    } else if e.EndLock? {
      EndLockKeepsBusy(s, e.w, w);
    }
  }

  lemma EndLockKeepsBusy(s: State, v: nat, w: nat)
    requires Inv(s) && Enabled(s, EndLock(v)) && w < |s.waits| && Busy(s.waits[w])
    ensures Busy(Next(s, EndLock(v)).waits[w])
  {
  }

  /** A wait that is over with a resolved promise was granted its ticket. */
  lemma ResolvedMeansGranted(s: State, w: nat)
    requires w < |s.waits| && WaitOk(s, w) && !Busy(s.waits[w]) && Out(Returned(s.waits[w])).Resolved?
    ensures var x := s.waits[w];
            && x.owns && x.ticket.Some? && x.ticket.value in s.mutex.grants && GenIs(s, x.gen, Resolved(Void))
            && (x.held.Some? ==> x.held.value < x.ticket.value && x.held.value in s.mutex.releases)
  {
  }

  /** The promise returned by Wait(lock) resolves only while this guard holds the mutex: at the
      step that resolves it, whatever else is going on, resolve_ is the ticket the guard drew
      for its second Lock, a later one than it gave up, and the captured generation had
      resolved. */
  lemma ResolvesHoldingTheMutex(s: State, e: Event, w: nat)
    requires Reachable(s) && Enabled(s, e) && w < |s.waits| && Busy(s.waits[w])
    requires w < |Next(s, e).waits| && !Busy(Next(s, e).waits[w]) && Out(Returned(Next(s, e).waits[w])).Resolved?
    ensures var s', x := Next(s, e), Next(s, e).waits[w];
            && x.owns && x.ticket.Some? && s.mutex.resolve == x.ticket && s'.mutex.resolve == x.ticket
            && GenIs(s', x.gen, Resolved(Void))
            && (x.held.Some? ==> x.held.value < x.ticket.value && x.held.value in s'.mutex.releases)
  {
    SettledHere(s, e, w);
    assert Next(s, e).mutex == s.mutex && Next(s, e).waits[w].ticket == s.waits[w].ticket;
    StepInv(s, e);
    assert WaitOk(s, w) && WaitOk(Next(s, e), w);
    ResolvedMeansGranted(Next(s, e), w);
  }

  /** From the moment the second Lock is granted until the returned promise is settled, the
      mutex is this guard's. */
  lemma HoldsUntilReturned(s: State, w: nat)
    requires Reachable(s) && w < |s.waits| && Busy(s.waits[w])
    requires s.waits[w].ticket.Some? && s.waits[w].ticket.value in s.mutex.grants
    ensures s.waits[w].owns && s.mutex.resolve == s.waits[w].ticket
  {
    assert WaitOk(s, w);
  }

  /** The returned promise rejects only as the captured generation did; then the guard does not
      own the lock and has drawn no ticket. Tickets are exactly the Lock calls made outside and
      the waits that got past a resolved generation. */
  lemma RejectionLeavesUnlocked(s: State, w: nat)
    requires Reachable(s) && w < |s.waits| && !Busy(s.waits[w]) && Out(Returned(s.waits[w])).Rejected?
    ensures !s.waits[w].owns && s.waits[w].ticket == None
    ensures GenIs(s, s.waits[w].gen, Out(Returned(s.waits[w])))
    ensures |s.mutex.cells| - 1 == s.locks + Sum(s.waits, Drew)
  {
    assert WaitOk(s, w);
  }

  /** Nothing is left to run: no section of a wait, of the mutex or of a settling call. */
  ghost predicate AtRest(s: State) {
    && M.AtRest(s.mutex)
    && (forall g :: 0 <= g < |s.cv.settlers| ==> s.cv.settlers[g].at == C.Returned)
    && (forall w :: 0 <= w < |s.waits| ==> Resting(s.waits[w]))
  }

  ghost predicate Resting(x: Wait) {
    && (x.caller == Parked || x.caller == Past)
    && !Moving(x.lockEnd) && !Moving(x.handlerEnd) && !Moving(x.resultEnd)
  }

  /** No wait is forgotten: at rest it is still registered only if its generation is pending;
      a rejected generation has rejected it; after a resolved one its guard has drawn a ticket,
      and the wait is over exactly if the ticket was granted, while otherwise somebody else
      holds the mutex. */
  lemma RestingWait(s: State, w: nat)
    requires Reachable(s) && AtRest(s) && w < |s.waits|
    ensures s.waits[w].gen < |s.cv.gens|
    ensures var x := s.waits[w];
            var g := s.cv.gens[x.gen];
            if !IsDone(g) then x.caller == Parked && Busy(x) && OnGeneration(s, w, x)
            else if Out(g).Rejected? then !Busy(x) && Out(Returned(x)) == Out(g) && !x.owns
            else
              && x.ticket.Some? && x.owns
              && if x.ticket.value in s.mutex.grants then !Busy(x) && Out(Returned(x)) == Resolved(Void)
                 else Busy(x) && s.mutex.resolve.Some?
  {
    var x := s.waits[w];
    assert WaitOk(s, w) && Resting(x);
    assert GenAwaiters(s, x.gen);
    if Started(s, x) && x.ticket.value !in s.mutex.grants {
      M.AtRestHeldOrServed(s.mutex);
      assert M.TokenOk(s.mutex);
      GrantedOrLater(s.mutex, x.ticket.value);
    }
  }

  lemma GrantedOrLater(m: M.State, t: nat)
    requires M.Inv(m) && 1 <= t
    ensures t in m.grants || t > |m.grants|
  {
    if t <= |m.grants| {
      assert m.grants[t - 1] == t;
    }
  }

  /** No notification is lost between unlocking and waiting: the generation is captured before
      the guard gives the mutex up, so the first swap after the capture, in particular one by a
      later holder of the mutex, takes out that very generation; and once everything has come
      to rest the wait has moved on: it is rejected with the call's error, or its guard has
      drawn its second ticket. */
  lemma NotifyAfterReleaseIsSeen(s: State, w: nat)
    requires Reachable(s) && w < |s.waits| && |s.cv.settlers| > s.waits[w].before
    ensures var x := s.waits[w];
            var call := s.cv.settlers[x.before];
            && x.before <= x.released && call.gen == x.gen
            && (call.at == C.Returned ==> GenIs(s, x.gen, call.o))
            && (AtRest(s) ==> if call.o.Rejected? then !Busy(x) && Out(Returned(x)) == call.o else x.ticket.Some?)
  {
    assert WaitOk(s, w);
    assert C.GenOk(s.cv, s.waits[w].gen);
    if AtRest(s) {
      RestingWait(s, w);
    }
  }
}
