/** CVPromise::Wait with a held LockGuard: the mutex protocol and the CVPromise protocol
    running side by side, and the waits that connect them. A wait is the Then on the captured
    generation, the coroutine handler that locks the guard again, the promise of that Lock,
    and the promise Wait returned; each settles in the two phases of the resolver. */
module GuardedWait {
  import opened Values
  import opened Cells
  import opened Sums
  import M = MutexProtocol
  import C = CvProtocol

  /** Where the code that called Wait stands, and later the closure the generation calls:
      before unlocking the guard, before Then, registered on the generation, called by it,
      before the handler's Lock, before its co_await, before the handler's promise is chained
      to the returned one, and done. */
  datatype Caller = Releasing | Attaching | Parked | Dispatched | Starting | Awaiting | Chaining | Past

  /** Where the settling of a promise stands: not begun, before its exchange, before its
      store, before the scope exit of final_suspend, and done. */
  datatype Settling = Off | Claiming(o: Outcome) | Storing(o: Outcome) | Finishing | Over

  /** `held` is the ticket of the guard when Wait was called, `owns` its own_lock_, `ticket`
      the one its second Lock drew; `before` and `released` are the number of swaps when the
      generation was captured and when the guard was unlocked. `lock`, `handler` and `result`
      are the promises of the second Lock, of the handler and of the derived promise, each
      with how far it is settled. When the generation was settled before Then, Wait returns
      the handler's promise itself (`direct`). */
  datatype Wait = Wait(
    gen: nat,
    before: nat,
    released: nat,
    held: Option<nat>,
    owns: bool,
    ticket: Option<nat>,
    caller: Caller,
    lock: Cell<nat>,
    lockEnd: Settling,
    handler: Cell<nat>,
    handlerEnd: Settling,
    result: Cell<nat>,
    resultEnd: Settling,
    direct: bool)

  /** `locks` counts the Lock calls made outside of waits. */
  datatype State = State(mutex: M.State, cv: C.State, waits: seq<Wait>, locks: nat)

  datatype Event =
    | BeginWait(owns: bool)
    | Call(w: nat)
    | EndLock(w: nat)
    | EndHandler(w: nat)
    | EndResult(w: nat)
    | OnMutex(me: M.Event)
    | OnCv(ce: C.Event)

  const Start: State := State(M.Start, C.Start, [], 0)

  /** The promise Wait returned. */
  function Returned(x: Wait): Cell<nat> {
    if x.direct then x.handler else x.result
  }

  predicate Busy(x: Wait) {
    !IsDone(Returned(x))
  }

  function GuardTicket(x: Wait): Option<nat> {
    if x.ticket.Some? then x.ticket else x.held
  }

  /** The ticket belongs to a guard that a wait is using. */
  predicate Reserved(s: State, t: nat) {
    exists w :: 0 <= w < |s.waits| && Busy(s.waits[w]) && s.waits[w].owns && GuardTicket(s.waits[w]) == Some(t)
  }

  predicate Moving(st: Settling) {
    st.Claiming? || st.Storing? || st.Finishing?
  }

  /** Only the holder unlocks, and it does not while its guard is inside a wait. Awaiters that
      are not waits are registered with payload 0 and taken off by their own id. */
  predicate Enabled(s: State, e: Event) {
    match e
    case BeginWait(owns) => s.cv.alive && (owns ==> s.mutex.resolve.Some? && !Reserved(s, s.mutex.resolve.value))
    case Call(w) => w < |s.waits| && s.waits[w].caller != Parked && s.waits[w].caller != Past
    case EndLock(w) => w < |s.waits| && Moving(s.waits[w].lockEnd)
    case EndHandler(w) => w < |s.waits| && Moving(s.waits[w].handlerEnd)
    case EndResult(w) => w < |s.waits| && Moving(s.waits[w].resultEnd)
    case OnMutex(me) => M.Enabled(s.mutex, me) && (me.UnLock? ==> !Reserved(s, s.mutex.resolve.value))
    case OnCv(ce) =>
      && C.Enabled(s.cv, ce) && (ce.Register? ==> ce.k == 0)
      && (ce.Unregister? ==> forall a | a in s.cv.gens[ce.g].awaiters :: a.id == ce.id ==> a.k == 0)
  }

  // ---------------------------------------------------------------- the code

  /** One section of settling promise `c`: the cell, where the settling stands then, and
      whether the awaiter of the promise was dispatched. */
  datatype Settled = Settled(cell: Cell<nat>, next: Settling, woken: bool)

  function SettleStep(c: Cell<nat>, st: Settling): Settled
    requires Moving(st)
  {
    var after := if c.running then Finishing else Over;
    match st
    case Claiming(o) =>
      if c.claimed then Settled(c, after, false) else Settled(Claim(c), Storing(o), false)
    case Storing(o) =>
      var l := StoreOutcome(c, o);
      Settled(l.cell, after, l.taken != [])
    case Finishing =>
      var l := FinalSuspend(c);
      Settled(l.cell, Over, l.taken != [])
  }

  /** The record after a section of the Lock coroutine's end, which may resume the handler. */
  function LockStep(x: Wait): Wait
    requires Moving(x.lockEnd)
  {
    var r := SettleStep(x.lock, x.lockEnd);
    var x' := x.(lock := r.cell, lockEnd := r.next);
    if r.woken then x'.(handlerEnd := Claiming(Resolved(Void))) else x'
  }

  function ResultStep(x: Wait): Wait
    requires Moving(x.resultEnd)
  {
    var r := SettleStep(x.result, x.resultEnd);
    x.(result := r.cell, resultEnd := r.next)
  }

  /** The record after a section of the handler's end, which may call the continuation. */
  function HandlerStep(x: Wait): Wait
    requires Moving(x.handlerEnd)
  {
    var r := SettleStep(x.handler, x.handlerEnd);
    var x' := x.(handler := r.cell, handlerEnd := r.next);
    if r.woken && IsDone(r.cell) then x'.(resultEnd := Claiming(Out(r.cell))) else x'
  }

  function Put(s: State, w: nat, x: Wait): State
    requires w < |s.waits|
  {
    s.(waits := s.waits[w := x])
  }

  /** Sections of the caller that touch neither the mutex nor the generation `g`: Then on a
      settled generation, the closure, the handler's co_await, and the chaining of the
      handler's promise. */
  function CallerStep(x: Wait, g: Cell<nat>): Wait
    requires x.caller == Attaching || x.caller == Dispatched ==> IsDone(g)
  {
    match x.caller
    case Attaching =>
      if Out(g).Rejected? then x.(caller := Past, resultEnd := Claiming(Out(g)))
      else x.(caller := Starting, direct := true)
    case Dispatched =>
      if Out(g).Rejected? then x.(caller := Chaining, handlerEnd := Claiming(Out(g))) else x.(caller := Starting)
    case Awaiting =>
      var x' := x.(caller := if x.direct then Past else Chaining);
      if IsDone(x.lock) then x'.(handlerEnd := Claiming(Resolved(Void)))
      else x'.(lock := AwaitCoroutine(x.lock, 0))
    case Chaining =>
      var x' := x.(caller := Past);
      if IsDone(x.handler) then x'.(resultEnd := Claiming(Out(x.handler)))
      else x'.(handler := AwaitCallback(x.handler, 0))
    case _ => x
  }

  /** The handler calls Lock on the guard and draws ticket `t`. */
  function Drawn(x: Wait, t: nat): Wait {
    x.(caller := Awaiting, owns := true, ticket := Some(t), lock := Fresh(true), handler := Fresh(true))
  }

  /** The next section of the caller, or of the closure. */
  function CallStep(s: State, w: nat): State
    requires Inv(s) && Enabled(s, Call(w))
  {
    var x := s.waits[w];
    assert WaitOk(s, w);
    var g := s.cv.gens[x.gen];
    if x.caller == Releasing then
      var x' := x.(owns := false, caller := Attaching, released := |s.cv.settlers|);
      if x.owns then Put(s.(mutex := M.Next(s.mutex, M.UnLock)), w, x') else Put(s, w, x')
    else if x.caller == Attaching && !IsDone(g) then
      Put(s.(cv := C.Next(s.cv, C.Register(x.gen, w + 1))), w, x.(caller := Parked))
    else if x.caller == Starting then
      Put(s.(mutex := M.Next(s.mutex, M.Lock)), w, Drawn(x, |s.mutex.cells|))
    else Put(s, w, CallerStep(x, g))
  }

  /** The Lock coroutine of the ticket just granted goes on to its end. */
  function Granted(waits: seq<Wait>, t: nat): (r: seq<Wait>)
    ensures |r| == |waits|
    ensures forall w :: 0 <= w < |r| ==>
              r[w] == if waits[w].ticket == Some(t) then waits[w].(lockEnd := Claiming(Resolved(Void))) else waits[w]
  {
    seq(|waits|, w requires 0 <= w < |waits| =>
      if waits[w].ticket == Some(t) then waits[w].(lockEnd := Claiming(Resolved(Void))) else waits[w])
  }

  /** One of the awaiters is the closure of wait `w`. */
  predicate Names(taken: seq<Awaiter<nat>>, w: nat) {
    exists a | a in taken :: a.k == w + 1
  }

  /** The generation calls the closures of the waits registered on it. */
  function Called(waits: seq<Wait>, taken: seq<Awaiter<nat>>): (r: seq<Wait>)
    ensures |r| == |waits|
    ensures forall w :: 0 <= w < |r| ==> r[w] == if Names(taken, w) then waits[w].(caller := Dispatched) else waits[w]
  {
    seq(|waits|, w requires 0 <= w < |waits| => if Names(taken, w) then waits[w].(caller := Dispatched) else waits[w])
  }

  /** The awaiters the next section of settling call `i` dispatches. */
  function Taken(c: C.State, i: nat): seq<Awaiter<nat>>
    requires i < |c.settlers| && c.settlers[i].gen < |c.gens|
  {
    if c.settlers[i].at == C.Claimed then StoreOutcome(c.gens[c.settlers[i].gen], c.settlers[i].o).taken else []
  }

  function MutexStep(s: State, me: M.Event): State
    requires Inv(s) && Enabled(s, OnMutex(me))
  {
    var s' := s.(mutex := M.Next(s.mutex, me), locks := if me.Lock? then s.locks + 1 else s.locks);
    if me.Run? && s.mutex.threads[me.i][0].Grant?
    then s'.(waits := Granted(s.waits, s.mutex.threads[me.i][0].t))
    else s'
  }

  function CvStep(s: State, ce: C.Event): State
    requires Inv(s) && Enabled(s, OnCv(ce))
  {
    var s' := s.(cv := C.Next(s.cv, ce));
    if ce.Run? then s'.(waits := Called(s.waits, Taken(s.cv, ce.g))) else s'
  }

  function Next(s: State, e: Event): State
    requires Inv(s) && Enabled(s, e)
  {
    match e
    case BeginWait(owns) =>
      var held := if owns then s.mutex.resolve else None;
      var p: Cell<nat> := Fresh(false);
      var n := |s.cv.settlers|;
      s.(waits := s.waits + [Wait(s.cv.promise, n, n, held, owns, None, Releasing, p, Off, p, Off, p, Off, false)])
    case Call(w) => CallStep(s, w)
    case EndLock(w) => Put(s, w, LockStep(s.waits[w]))
    case EndHandler(w) => Put(s, w, HandlerStep(s.waits[w]))
    case EndResult(w) => Put(s, w, ResultStep(s.waits[w]))
    case OnMutex(me) => MutexStep(s, me)
    case OnCv(ce) => CvStep(s, ce)
  }

  // ---------------------------------------------------------------- invariant

  ghost predicate GenIs(s: State, g: nat, o: Outcome) {
    g < |s.cv.gens| && IsDone(s.cv.gens[g]) && Out(s.cv.gens[g]) == o
  }

  /** A promise that is being settled with `o` and nothing else, `coroutine` if it is that of a
      coroutine: its fields are exactly as far as the settling. */
  ghost predicate StrandOk(c: Cell<nat>, st: Settling, coroutine: bool, o: Outcome) {
    && !(c.value.Some? && c.exception.Some?) && |c.awaiters| <= 1
    && (IsDone(c) ==> Out(c) == o)
    && match st
       case Off => !c.claimed && !IsDone(c) && c.running == coroutine
       case Claiming(o') => o' == o && !c.claimed && !IsDone(c) && c.running == coroutine
       case Storing(o') => o' == o && c.claimed && !IsDone(c) && c.running == coroutine
       case Finishing => c.claimed && IsDone(c) && c.running
       case Over => c.claimed && Drained(c) && c.awaiters == []
  }

  /** Nothing has been created for the wait yet. */
  ghost predicate Blank(x: Wait) {
    && x.ticket == None && x.lock == Fresh(false) && x.handler == Fresh(false) && x.result == Fresh(false)
    && x.lockEnd == Off && x.handlerEnd == Off && x.resultEnd == Off
  }

  /** The handler has called Lock: the promise of Lock is settled once the ticket is granted,
      and the handler's own end comes after it. */
  ghost predicate Started(s: State, x: Wait) {
    && x.ticket.Some? && x.owns && GenIs(s, x.gen, Resolved(Void))
    && 1 <= x.ticket.value < |s.mutex.cells| && (x.held.Some? ==> x.held.value < x.ticket.value)
    && StrandOk(x.lock, x.lockEnd, true, Resolved(Void))
    && StrandOk(x.handler, x.handlerEnd, true, Resolved(Void))
    && (x.lockEnd != Off <==> x.ticket.value in s.mutex.grants)
    && (x.handlerEnd != Off ==> IsDone(x.lock) && x.lock.awaiters == [])
  }

  /** The closure found the generation rejected: a rejected promise stands in for the
      handler's. */
  ghost predicate StoodIn(s: State, x: Wait) {
    && x.ticket == None && !x.owns && !x.direct && x.handlerEnd != Off
    && x.lock == Fresh(false) && x.lockEnd == Off
    && exists err :: GenIs(s, x.gen, Rejected(err)) && StrandOk(x.handler, x.handlerEnd, false, Rejected(err))
  }

  /** Then found the generation rejected. */
  ghost predicate Refused(s: State, x: Wait) {
    && x.ticket == None && !x.owns && !x.direct && x.caller == Past && x.resultEnd != Off
    && x.lock == Fresh(false) && x.lockEnd == Off && x.handler == Fresh(false) && x.handlerEnd == Off
    && exists err :: GenIs(s, x.gen, Rejected(err)) && StrandOk(x.result, x.resultEnd, false, Rejected(err))
  }

  /** While the handler has not gone on after its co_await, it is registered on Lock's
      promise. */
  ghost predicate HandlerWaits(x: Wait) {
    x.handlerEnd == Off ==> |x.lock.awaiters| == 1 && !Drained(x.lock)
  }

  /** The returned promise follows the handler's, on which it is registered until then. */
  ghost predicate ResultWaits(x: Wait) {
    && (x.resultEnd == Off ==> x.result == Fresh(false) && |x.handler.awaiters| == 1 && !Drained(x.handler))
    && (x.resultEnd != Off ==>
          IsDone(x.handler) && x.handler.awaiters == [] && StrandOk(x.result, x.resultEnd, false, Out(x.handler)))
  }

  ghost predicate Unchained(x: Wait) {
    x.resultEnd == Off && x.result == Fresh(false) && x.handler.awaiters == []
  }

  ghost predicate OnGeneration(s: State, w: nat, x: Wait) {
    x.gen < |s.cv.gens| && exists a :: a in s.cv.gens[x.gen].awaiters && a.k == w + 1
  }

  ghost predicate CallerOk(s: State, w: nat, x: Wait) {
    match x.caller
    case Releasing => Blank(x) && !x.direct && x.owns == x.held.Some? && (x.owns ==> s.mutex.resolve == x.held)
    case Attaching => Blank(x) && !x.direct && !x.owns
    case Parked => Blank(x) && !x.direct && !x.owns && OnGeneration(s, w, x)
    case Dispatched => Blank(x) && !x.direct && !x.owns && x.gen < |s.cv.gens| && IsDone(s.cv.gens[x.gen])
    case Starting => Blank(x) && !x.owns && GenIs(s, x.gen, Resolved(Void))
    case Awaiting => Started(s, x) && x.handlerEnd == Off && x.lock.awaiters == [] && Unchained(x)
    case Chaining => !x.direct && Unchained(x) && ((Started(s, x) && HandlerWaits(x)) || StoodIn(s, x))
    case Past =>
      || (Started(s, x) && HandlerWaits(x) && if x.direct then Unchained(x) else ResultWaits(x))
      || (StoodIn(s, x) && ResultWaits(x))
      || Refused(s, x)
  }

  ghost predicate WaitOk(s: State, w: nat)
    requires w < |s.waits|
  {
    var x := s.waits[w];
    && x.gen == x.before <= x.released <= |s.cv.settlers| && x.gen < |s.cv.gens|
    && (x.held.Some? ==> 1 <= x.held.value <= |s.mutex.grants|)
    && (x.held.Some? && x.caller != Releasing ==> x.held.value in s.mutex.releases)
    && CallerOk(s, w, x)
    && (x.ticket.Some? && x.ticket.value in s.mutex.grants && Busy(x) ==> s.mutex.resolve == x.ticket)
  }

  /** Awaiters of a generation that belong to waits belong to parked ones, and a settled
      generation has none. */
  ghost predicate GenAwaiters(s: State, g: nat)
    requires g < |s.cv.gens|
  {
    && (IsDone(s.cv.gens[g]) ==> s.cv.gens[g].awaiters == [])
    && (forall a | a in s.cv.gens[g].awaiters :: a.k > 0 ==>
          a.k - 1 < |s.waits| && s.waits[a.k - 1].gen == g && s.waits[a.k - 1].caller == Parked)
  }

  ghost predicate Using(x: Wait) {
    Busy(x) && x.owns
  }

  /** 1 for a wait whose guard has drawn a second ticket. */
  function Drew(x: Wait): nat {
    if x.ticket.Some? then 1 else 0
  }

  ghost predicate WaitsOk(s: State) {
    forall w :: 0 <= w < |s.waits| ==> WaitOk(s, w)
  }

  ghost predicate GensOk(s: State) {
    forall g :: 0 <= g < |s.cv.gens| ==> GenAwaiters(s, g)
  }

  /** No two waits use the same ticket. */
  ghost predicate PairsOk(s: State) {
    forall v, w :: 0 <= v < w < |s.waits| && Using(s.waits[v]) && Using(s.waits[w]) ==>
      GuardTicket(s.waits[v]) != GuardTicket(s.waits[w])
  }

  /** Tickets are the Lock calls made outside and the waits whose handler called Lock. */
  ghost predicate TicketsCounted(s: State) {
    |s.mutex.cells| == 1 + s.locks + Sum(s.waits, Drew)
  }

  ghost predicate Inv(s: State) {
    M.Inv(s.mutex) && C.Inv(s.cv) && WaitsOk(s) && GensOk(s) && PairsOk(s) && TicketsCounted(s)
  }
}
