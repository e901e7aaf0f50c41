/** Whole runs of one promise cell under any interleaving of settling calls, the
    coroutine's end, registrations, un-registrations, detaching and blocked threads. */
module CellProtocol {
  import opened Values
  import opened Cells

  /** Who calls the resolver: a Resolve handle, the shared Reject handle with its own
      once-flag, or final_suspend on behalf of the coroutine body. */
  datatype Caller = ResolveHandle | RejectHandle | CoroutineEnd

  /** Called: before the Reject handle's flag. Entered: before `resolved_.exchange`.
      Claimed: between the exchange and the locked store. */
  datatype Phase = Called | Entered | Claimed | Returned(won: bool)

  datatype Call = Call(caller: Caller, arg: Outcome, phase: Phase)

  /** A thread blocked in WaitDone or in WaitAwaited with its starting count. */
  datatype Sleeper = OnDone(tid: nat) | OnUse(tid: nat, last: nat)

  /** The cell, the Reject handle's flag, the calls made so far, and the history the
      properties speak about: registrations in order, ids un-awaited, awaiters handed to
      dispatch, and uses counted by Race without a registration. */
  datatype State<K> = State(
    cell: Cell<K>,
    rejected: bool,
    calls: seq<Call>,
    registered: seq<Awaiter<K>>,
    removed: set<nat>,
    taken: seq<Awaiter<K>>,
    shortcuts: nat,
    asleep: set<Sleeper>,
    winner: Option<nat>,   // the call whose exchange came first
    flagged: Option<nat>)  // the Reject-handle call that passed its flag

  datatype Event<K> =
    | Begin(caller: Caller, arg: Outcome)
    | Flag(call: nat)
    | Exchange(call: nat)
    | Store(call: nat)
    | ClearHandle
    | Suspend(k: K)
    | Register(k: K)
    | Unregister(id: nat)
    | RaceShortcut
    | DetachSelf
    | Sleep(sleeper: Sleeper)

  function Init<K>(running: bool): State<K> {
    State(Fresh(running), false, [], [], {}, [], 0, {}, None, None)
  }

  /** The predicate a blocked thread waits for. */
  predicate Awake<K>(c: Cell<K>, w: Sleeper) {
    match w
    case OnDone(_) => Drained(c)
    case OnUse(_, last) => c.useCount > last
  }

  /** notify_all makes every sleeper re-check its predicate; without it none does. */
  function Signal<K>(asleep: set<Sleeper>, c: Cell<K>, notified: bool): set<Sleeper> {
    if notified then set w | w in asleep && !Awake(c, w) else asleep
  }

  predicate Enabled<K>(s: State<K>, e: Event<K>) {
    match e
    case Begin(caller, arg) =>
      (caller == ResolveHandle ==> arg.Resolved?) && (caller == RejectHandle ==> arg.Rejected?)
    case Flag(i) => i < |s.calls| && s.calls[i].phase == Called
    case Exchange(i) => i < |s.calls| && s.calls[i].phase == Entered
    case Store(i) => i < |s.calls| && s.calls[i].phase == Claimed
    case ClearHandle => s.cell.running
    case _ => true
  }

  function Advance<K>(s: State<K>, i: nat, p: Phase): State<K>
    requires i < |s.calls|
  {
    s.(calls := s.calls[i := s.calls[i].(phase := p)])
  }

  function AfterLocked<K>(s: State<K>, l: Locked<K>): State<K> {
    s.(cell := l.cell, taken := s.taken + l.taken, asleep := Signal(s.asleep, l.cell, l.notified))
  }

  function Next<K>(s: State<K>, e: Event<K>): State<K>
    requires Enabled(s, e)
  {
    match e
    case Begin(caller, arg) =>
      s.(calls := s.calls + [Call(caller, arg, if caller == RejectHandle then Called else Entered)])
    case Flag(i) =>
      if s.rejected then Advance(s, i, Returned(false))
      else Advance(s, i, Entered).(rejected := true, flagged := Some(i))
    case Exchange(i) =>
      if s.cell.claimed then Advance(s, i, Returned(false))
      else Advance(s, i, Claimed).(cell := Claim(s.cell), winner := Some(i))
    case Store(i) =>
      AfterLocked(Advance(s, i, Returned(true)), StoreOutcome(s.cell, s.calls[i].arg))
    case ClearHandle =>
      AfterLocked(s, FinalSuspend(s.cell))
    case Suspend(k) =>
      if IsDone(s.cell) then s
      else
        var c := AwaitCoroutine(s.cell, k);
        s.(cell := c, registered := s.registered + [c.awaiters[|c.awaiters| - 1]], asleep := Signal(s.asleep, c, true))
    case Register(k) =>
      if IsDone(s.cell) then s
      else
        var c := AwaitCallback(s.cell, k);
        s.(cell := c, registered := s.registered + [c.awaiters[|c.awaiters| - 1]], asleep := Signal(s.asleep, c, true))
    case Unregister(id) =>
      var c := UnAwait(s.cell, id);
      s.(cell := c, removed := if |c.awaiters| < |s.cell.awaiters| then s.removed + {id} else s.removed)
    case RaceShortcut =>
      var c := CountUse(s.cell);
      s.(cell := c, shortcuts := s.shortcuts + 1, asleep := Signal(s.asleep, c, true))
    case DetachSelf =>
      s.(cell := Detach(s.cell))
    case Sleep(w) =>
      if Awake(s.cell, w) then s else s.(asleep := s.asleep + {w})
  }

  /** A run: every event is enabled where it happens. */
  ghost predicate IsRun<K>(s: State<K>, events: seq<Event<K>>)
    decreases |events|
  {
    events != [] ==> Enabled(s, events[0]) && IsRun(Next(s, events[0]), events[1..])
  }

  ghost function Last<K>(s: State<K>, events: seq<Event<K>>): State<K>
    requires IsRun(s, events)
    decreases |events|
  {
    if events == [] then s else Last(Next(s, events[0]), events[1..])
  }

  // ---------------------------------------------------------------- invariants

  /** The registrations that were not un-awaited, in registration order. */
  ghost function Kept<K>(registered: seq<Awaiter<K>>, removed: set<nat>): seq<Awaiter<K>> {
    if registered == [] then []
    else
      var n := |registered| - 1;
      Kept(registered[..n], removed) + (if registered[n].id in removed then [] else [registered[n]])
  }

  /** Every registration is live, taken for dispatch or un-awaited, exactly one of the
      three, and order is kept: before the drain the live list, after it the dispatched
      list, is the sequence of kept registrations, and the other list is empty. */
  ghost predicate Delivery<K>(s: State<K>) {
    if Drained(s.cell)
    then s.cell.awaiters == [] && s.taken == Kept(s.registered, s.removed)
    else s.taken == [] && s.cell.awaiters == Kept(s.registered, s.removed)
  }

  /** Ids grow along `s` and none exceeds `bound`. */
  ghost predicate Growing<K>(s: seq<Awaiter<K>>, bound: int) {
    s != [] ==> var n := |s| - 1; s[n].id <= bound && Growing(s[..n], s[n].id - 1)
  }

  /** `use_count_` counts registrations and Race shortcuts; ids are distinct and grow. */
  ghost predicate Accounting<K>(s: State<K>) {
    && Growing(s.registered, s.cell.useCount)
    && s.cell.useCount == |s.registered| + s.shortcuts
    && (forall id :: id in s.removed ==> id <= s.cell.useCount)
    && |s.registered| == |Kept(s.registered, s.removed)| + |s.removed|
  }

  ghost predicate Won(c: Call) {
    c.phase == Claimed || c.phase == Returned(true)
  }

  /** The exchange elects one call; its argument and nothing else is stored. */
  ghost predicate Election<K>(s: State<K>) {
    && (s.cell.claimed <==> s.winner.Some?)
    && (s.winner.Some? ==> s.winner.value < |s.calls| && Won(s.calls[s.winner.value]))
    && (forall i :: 0 <= i < |s.calls| && Won(s.calls[i]) ==> s.winner == Some(i))
    && !(s.cell.value.Some? && s.cell.exception.Some?)
    && (IsDone(s.cell) ==> s.cell.claimed)
    && (s.winner.Some? ==>
          var c := s.calls[s.winner.value];
          if c.phase == Claimed then !IsDone(s.cell) else IsDone(s.cell) && Out(s.cell) == c.arg)
  }

  /** Past its flag there is at most one Reject-handle call, and it still has to make its
      exchange as long as the promise is unclaimed. A call that lost found the promise claimed
      or the flag taken. */
  ghost predicate FlagOnce<K>(s: State<K>) {
    && (s.rejected <==> s.flagged.Some?)
    && (forall i :: 0 <= i < |s.calls| && PastFlag(s.calls[i]) ==> s.flagged == Some(i))
    && (forall i :: 0 <= i < |s.calls| && s.calls[i].phase == Called ==> s.calls[i].caller == RejectHandle)
    && (s.flagged.Some? && !s.cell.claimed ==> s.flagged.value < |s.calls| && InFlight(s.calls[s.flagged.value]))
    && (forall i :: 0 <= i < |s.calls| && s.calls[i].phase == Returned(false) ==>
          s.cell.claimed || Dropped(s, s.calls[i]))
  }

  ghost predicate InFlight(c: Call) {
    c.caller == RejectHandle && c.phase == Entered
  }

  ghost predicate Dropped<K>(s: State<K>, c: Call) {
    c.caller == RejectHandle && s.rejected
  }

  ghost predicate PastFlag(c: Call) {
    c.caller == RejectHandle && (c.phase == Entered || Won(c))
  }

  ghost predicate Inv<K>(s: State<K>) {
    && Delivery(s)
    && Accounting(s)
    && Election(s)
    && FlagOnce(s)
    && (s.cell.selfOwned ==> !Drained(s.cell))
    && (forall w :: w in s.asleep ==> !Awake(s.cell, w))
  }

  // ---------------------------------------------------------------- list lemmas

  lemma KeptExtends<K>(registered: seq<Awaiter<K>>, removed: set<nat>, a: Awaiter<K>)
    requires a.id !in removed
    ensures Kept(registered + [a], removed) == Kept(registered, removed) + [a]
  {
    assert (registered + [a])[..|registered|] == registered;
  }

  lemma {:induction false} KeptMembers<K>(registered: seq<Awaiter<K>>, removed: set<nat>)
    ensures forall a | a in Kept(registered, removed) :: a in registered && a.id !in removed
    ensures forall a | a in registered && a.id !in removed :: a in Kept(registered, removed)
    ensures |Kept(registered, removed)| <= |registered|
  {
    if registered != [] {
      var n := |registered| - 1;
      assert registered == registered[..n] + [registered[n]];
      KeptMembers(registered[..n], removed);
    }
  }

  lemma {:induction false} GrowingBound<K>(s: seq<Awaiter<K>>, bound: int, a: Awaiter<K>)
    requires Growing(s, bound) && a in s
    ensures a.id <= bound
  {
    var n := |s| - 1;
    if a != s[n] {
      assert a in s[..n];
      GrowingBound(s[..n], s[n].id - 1, a);
    }
  }

  /** Forgetting one more registration is exactly dropping its entry. */
  lemma {:induction false} KeptWithout<K>(registered: seq<Awaiter<K>>, removed: set<nat>, id: nat, bound: int)
    requires Growing(registered, bound)
    requires HasCallback(Kept(registered, removed), id)
    ensures Kept(registered, removed + {id}) == Without(Kept(registered, removed), id)
    ensures |Kept(registered, removed)| == |Kept(registered, removed + {id})| + 1
    ensures id !in removed && id <= bound
  {
    var n := |registered| - 1;
    var front, last := registered[..n], registered[n];
    var kept := Kept(front, removed);
    forall a | a in kept ensures a.id < last.id {
      KeptMembers(front, removed);
      GrowingBound(front, last.id - 1, a);
    }
    if last.id !in removed && last.id == id {
      assert Kept(registered, removed) == kept + [last];
      forall a | a in front ensures a.id != id {
        GrowingBound(front, last.id - 1, a);
      }
      KeptUnchanged(front, removed, id);
      LastIsCallback(kept, last);
      WithoutLast(kept, last);
    } else {
      CallbackInFront(kept, Kept(registered, removed), last, id);
      KeptWithout(front, removed, id, last.id - 1);
      assert last.id != id;
      if last.id !in removed {
        WithoutAppend(kept, last, id);
      }
    }
  }

  lemma LastIsCallback<K>(s: seq<Awaiter<K>>, last: Awaiter<K>)
    requires HasCallback(s + [last], last.id)
    requires forall a :: a in s ==> a.id < last.id
    ensures last.Callback?
  {
    var t := s + [last];
    assert forall j :: 0 <= j < |s| ==> t[j] == s[j] && s[j] in s;
    var i :| 0 <= i < |t| && t[i].Callback? && t[i].id == last.id;
  }

  lemma CallbackInFront<K>(s: seq<Awaiter<K>>, t: seq<Awaiter<K>>, last: Awaiter<K>, id: nat)
    requires t == s || (t == s + [last] && last.id != id)
    requires HasCallback(t, id)
    ensures HasCallback(s, id)
  {
    var i :| 0 <= i < |t| && t[i].Callback? && t[i].id == id;
    assert i < |s| && s[i] == t[i];
  }

  lemma {:induction false} KeptUnchanged<K>(registered: seq<Awaiter<K>>, removed: set<nat>, id: nat)
    requires forall a :: a in registered ==> a.id != id
    ensures Kept(registered, removed + {id}) == Kept(registered, removed)
  {
    if registered != [] {
      KeptUnchanged(registered[..|registered| - 1], removed, id);
    }
  }

  lemma {:induction false} WithoutLast<K>(s: seq<Awaiter<K>>, last: Awaiter<K>)
    requires last.Callback? && forall a :: a in s ==> a.id != last.id
    ensures Without(s + [last], last.id) == s
  {
    if s != [] {
      assert (s + [last])[1..] == s[1..] + [last];
      WithoutLast(s[1..], last);
    }
  }

  lemma {:induction false} WithoutAppend<K>(s: seq<Awaiter<K>>, last: Awaiter<K>, id: nat)
    requires last.id != id
    ensures Without(s + [last], id) == Without(s, id) + [last]
  {
    if s != [] {
      assert (s + [last])[1..] == s[1..] + [last];
      WithoutAppend(s[1..], last, id);
    }
  }

  // ---------------------------------------------------------------- preservation

  lemma RegisteredInv<K>(s: State<K>, s': State<K>, a: Awaiter<K>)
    requires Inv(s) && !IsDone(s.cell)
    requires a.id == s.cell.useCount + 1
    requires s' == s.(cell := s.cell.(useCount := s.cell.useCount + 1, awaiters := s.cell.awaiters + [a]),
                      registered := s.registered + [a],
                      asleep := Signal(s.asleep, s'.cell, true))
    ensures Inv(s')
  {
    assert a.id !in s.removed;
    KeptExtends(s.registered, s.removed, a);
    assert s'.registered[..|s.registered|] == s.registered;
  }

  lemma SuspendInv<K>(s: State<K>, k: K)
    requires Inv(s)
    ensures Inv(Next(s, Suspend(k)))
  {
    if !IsDone(s.cell) {
      RegisteredInv(s, Next(s, Suspend(k)), Coroutine(k, s.cell.useCount + 1));
    }
  }

  lemma RegisterInv<K>(s: State<K>, k: K)
    requires Inv(s)
    ensures Inv(Next(s, Register(k)))
  {
    if !IsDone(s.cell) {
      RegisteredInv(s, Next(s, Register(k)), Callback(k, s.cell.useCount + 1));
    }
  }

  /** Taking a callback off the list is forgetting its registration. */
  lemma UnregisteredLists<K>(s: State<K>, c: Cell<K>, removed: set<nat>, id: nat)
    requires Delivery(s) && Accounting(s) && c == UnAwait(s.cell, id)
    requires removed == if |c.awaiters| < |s.cell.awaiters| then s.removed + {id} else s.removed
    ensures Delivery(s.(cell := c, removed := removed)) && Accounting(s.(cell := c, removed := removed))
  {
    WithoutSplits(s.cell.awaiters, id);
    if HasCallback(s.cell.awaiters, id) {
      KeptWithout(s.registered, s.removed, id, s.cell.useCount);
    }
  }

  lemma UnregisteredInv<K>(s: State<K>, id: nat)
    requires Inv(s)
    ensures Inv(Next(s, Unregister(id)))
  {
    var s' := Next(s, Unregister(id));
    UnregisteredLists(s, s'.cell, s'.removed, id);
  }

  lemma BeginInv<K>(s: State<K>, e: Event<K>)
    requires Inv(s) && Enabled(s, e) && e.Begin?
    ensures Inv(Next(s, e))
  {
    var s' := Next(s, e);
    assert forall i :: 0 <= i < |s.calls| ==> s'.calls[i] == s.calls[i];
  }

  /** Settling calls move on without touching anything but the calls, the claim and the
      Reject handle's flag. */
  ghost predicate ListsKept<K>(s: State<K>, s': State<K>) {
    && s'.cell == s.cell.(claimed := s'.cell.claimed)
    && s'.registered == s.registered && s'.removed == s.removed && s'.taken == s.taken
    && s'.shortcuts == s.shortcuts && s'.asleep == s.asleep
  }

  lemma ListsInv<K>(s: State<K>, s': State<K>)
    requires Inv(s) && ListsKept(s, s') && Election(s') && FlagOnce(s')
    ensures Inv(s')
  {
  }

  lemma FlagElection<K>(s: State<K>, i: nat)
    requires Election(s) && FlagOnce(s) && Enabled(s, Flag(i))
    ensures Election(Next(s, Flag(i))) && FlagOnce(Next(s, Flag(i)))
  {
    var s' := Next(s, Flag(i));
    assert forall j :: 0 <= j < |s.calls| && j != i ==> s'.calls[j] == s.calls[j];
  }

  lemma FlagInv<K>(s: State<K>, i: nat)
    requires Inv(s) && Enabled(s, Flag(i))
    ensures Inv(Next(s, Flag(i)))
  {
    FlagElection(s, i);
    ListsInv(s, Next(s, Flag(i)));
  }

  lemma ExchangeElection<K>(s: State<K>, i: nat)
    requires Election(s) && FlagOnce(s) && Enabled(s, Exchange(i))
    ensures Election(Next(s, Exchange(i))) && FlagOnce(Next(s, Exchange(i)))
  {
    var s' := Next(s, Exchange(i));
    assert forall j :: 0 <= j < |s.calls| && j != i ==> s'.calls[j] == s.calls[j];
  }

  lemma ExchangeInv<K>(s: State<K>, i: nat)
    requires Inv(s) && Enabled(s, Exchange(i))
    ensures Inv(Next(s, Exchange(i)))
  {
    ExchangeElection(s, i);
    ListsInv(s, Next(s, Exchange(i)));
  }

  /** The store and the end of the coroutine both run OnResolved; whichever comes second
      drains, and it signals. */
  lemma DrainInv<K>(s: State<K>, c: Cell<K>, s': State<K>)
    requires Delivery(s) && Accounting(s) && (s.cell.selfOwned ==> !Drained(s.cell))
    requires forall w :: w in s.asleep ==> !Awake(s.cell, w)
    requires c == s.cell.(value := c.value, exception := c.exception, running := c.running)
    requires !Drained(s.cell) && IsDone(c)
    requires s'.cell == OnResolved(c).cell && s'.taken == s.taken + OnResolved(c).taken
    requires s'.asleep == Signal(s.asleep, OnResolved(c).cell, OnResolved(c).notified)
    requires s'.registered == s.registered && s'.removed == s.removed && s'.shortcuts == s.shortcuts
    ensures Delivery(s') && Accounting(s') && (s'.cell.selfOwned ==> !Drained(s'.cell))
    ensures forall w :: w in s'.asleep ==> !Awake(s'.cell, w)
  {
    assert [] + c.awaiters == c.awaiters;
  }

  lemma StoreInv<K>(s: State<K>, i: nat)
    requires Inv(s) && Enabled(s, Store(i))
    ensures Inv(Next(s, Store(i)))
  {
    var s' := Next(s, Store(i));
    assert s.winner == Some(i) && !IsDone(s.cell);
    var c := match s.calls[i].arg
      case Resolved(v) => s.cell.(value := Some(v))
      case Rejected(e) => s.cell.(exception := Some(e));
    DrainInv(s, c, s');
  }

  lemma ClearInv<K>(s: State<K>)
    requires Inv(s) && s.cell.running
    ensures Inv(Next(s, ClearHandle))
  {
    var s' := Next(s, ClearHandle);
    if IsDone(s.cell) {
      DrainInv(s, s.cell.(running := false), s');
    } else {
      assert s.taken + [] == s.taken;
    }
  }

  lemma {:induction false} GrowingWeakens<K>(s: seq<Awaiter<K>>, low: int, high: int)
    requires Growing(s, low) && low <= high
    ensures Growing(s, high)
  {
  }

  lemma CountInv<K>(s: State<K>, e: Event<K>)
    requires Inv(s) && (e.RaceShortcut? || e.DetachSelf? || e.Sleep?)
    ensures Inv(Next(s, e))
  {
    GrowingWeakens(s.registered, s.cell.useCount, s.cell.useCount + 1);
  }

  /** Every event keeps every invariant. */
  lemma StepInv<K>(s: State<K>, e: Event<K>)
    requires Inv(s) && Enabled(s, e)
    ensures Inv(Next(s, e))
  {
    match e
    case Begin(_, _) => BeginInv(s, e);
    case Flag(i) => FlagInv(s, i);
    case Exchange(i) => ExchangeInv(s, i);
    case Store(i) => StoreInv(s, i);
    case ClearHandle => ClearInv(s);
    case Suspend(k) => SuspendInv(s, k);
    case Register(k) => RegisterInv(s, k);
    case Unregister(id) => UnregisteredInv(s, id);
    case RaceShortcut => CountInv(s, e);
    case DetachSelf => CountInv(s, e);
    case Sleep(_) => CountInv(s, e);
  }

  lemma {:induction false} RunInv<K>(s: State<K>, events: seq<Event<K>>)
    requires Inv(s) && IsRun(s, events)
    ensures Inv(Last(s, events))
    decreases |events|
  {
    if events != [] {
      StepInv(s, events[0]);
      RunInv(Next(s, events[0]), events[1..]);
    }
  }

  // ---------------------------------------------------------------- main results

  /** Settle once: whatever Resolve handles, Reject-handle calls and the coroutine's own end
      do, at most one call returns true, the stored outcome is that call's argument, a value
      and an exception are never both present, and a call that lost found the promise claimed,
      or was dropped by the Reject handle's flag while another rejection is on its way. */
  lemma SettleOnce<K>(running: bool, events: seq<Event<K>>, i: nat, j: nat)
    requires IsRun(Init<K>(running), events)
    requires i < |Last(Init<K>(running), events).calls| && j < |Last(Init<K>(running), events).calls|
    ensures var s := Last(Init<K>(running), events);
            && (s.calls[i].phase == Returned(true) && s.calls[j].phase == Returned(true) ==> i == j)
            && (s.calls[i].phase == Returned(true) ==> IsDone(s.cell) && Out(s.cell) == s.calls[i].arg)
            && !(s.cell.value.Some? && s.cell.exception.Some?)
            && (IsDone(s.cell) ==> exists w :: 0 <= w < |s.calls| && s.calls[w].phase == Returned(true))
            && (s.calls[i].phase == Returned(false) && !s.cell.claimed ==>
                  s.calls[i].caller == RejectHandle && exists w :: 0 <= w < |s.calls| && InFlight(s.calls[w]))
  {
    RunInv(Init<K>(running), events);
  }

  /** A stored outcome survives every later event. */
  lemma {:induction false} OutcomeIsFinal<K>(s: State<K>, events: seq<Event<K>>)
    requires Inv(s) && IsDone(s.cell) && IsRun(s, events)
    ensures IsDone(Last(s, events).cell) && Out(Last(s, events).cell) == Out(s.cell)
    decreases |events|
  {
    if events != [] {
      StepInv(s, events[0]);
      OutcomeIsFinal(Next(s, events[0]), events[1..]);
    }
  }

  /** No lost and no double wake-up: once the promise is settled and its coroutine has
      ended, no awaiter is left; every awaiter ever registered was handed to dispatch or
      un-awaited, never both; dispatch is in registration order without repetition. */
  lemma NoLostWakeUp<K>(running: bool, events: seq<Event<K>>)
    requires IsRun(Init<K>(running), events)
    ensures var s := Last(Init<K>(running), events);
            && (Drained(s.cell) ==> s.cell.awaiters == [])
            && (forall a | a in s.registered :: Drained(s.cell) ==> (a in s.taken <==> a.id !in s.removed))
            && (forall a | a in s.registered :: !Drained(s.cell) ==> (a in s.cell.awaiters <==> a.id !in s.removed))
            && (forall a | a in s.taken :: Drained(s.cell) && a in s.registered)
            && Growing(s.taken, s.cell.useCount)
  {
    var s := Last(Init<K>(running), events);
    RunInv(Init<K>(running), events);
    KeptMembers(s.registered, s.removed);
    KeptGrowing(s.registered, s.removed, s.cell.useCount);
  }

  lemma {:induction false} KeptGrowing<K>(registered: seq<Awaiter<K>>, removed: set<nat>, bound: int)
    requires Growing(registered, bound)
    ensures Growing(Kept(registered, removed), bound)
  {
    if registered != [] {
      var n := |registered| - 1;
      KeptGrowing(registered[..n], removed, registered[n].id - 1);
      var front := Kept(registered[..n], removed);
      if registered[n].id in removed {
        assert front + [] == front;
        GrowingWeakens(front, registered[n].id - 1, bound);
      } else {
        assert (front + [registered[n]])[..|front|] == front;
      }
    }
  }

  /** `use_count_` is the number of live, dispatched and un-awaited registrations plus the
      Race shortcuts. */
  lemma UseCountAccounts<K>(running: bool, events: seq<Event<K>>)
    requires IsRun(Init<K>(running), events)
    ensures var s := Last(Init<K>(running), events);
            s.cell.useCount == |s.cell.awaiters| + |s.taken| + |s.removed| + s.shortcuts
  {
    RunInv(Init<K>(running), events);
  }

  /** A thread blocked in WaitDone or WaitAwaited is blocked on a predicate that is still
      false: no step makes it true without signalling. */
  lemma NoMissedSignal<K>(running: bool, events: seq<Event<K>>, w: Sleeper)
    requires IsRun(Init<K>(running), events)
    requires w in Last(Init<K>(running), events).asleep
    ensures !Awake(Last(Init<K>(running), events).cell, w)
  {
    RunInv(Init<K>(running), events);
  }

  /** Both predicates are stable, so a woken thread finds its predicate still true. */
  lemma {:induction false} AwakeIsStable<K>(s: State<K>, events: seq<Event<K>>, w: Sleeper)
    requires Inv(s) && IsRun(s, events) && Awake(s.cell, w)
    ensures Awake(Last(s, events).cell, w)
    decreases |events|
  {
    if events != [] {
      StepInv(s, events[0]);
      AwakeIsStable(Next(s, events[0]), events[1..], w);
    }
  }

  /** WaitDone and WaitAwaited return only when their predicate holds: a thread whose predicate
      is false goes to sleep, one whose predicate is true returns at once, and whatever
      happens, a sleeper that leaves has found its predicate true. */
  lemma WakesOnlyWhenTrue<K>(s: State<K>, e: Event<K>, w: Sleeper)
    requires Inv(s) && Enabled(s, e)
    ensures w in s.asleep && w !in Next(s, e).asleep ==> Awake(Next(s, e).cell, w)
    ensures w !in s.asleep && w in Next(s, e).asleep ==> e == Sleep(w) && !Awake(s.cell, w)
    ensures e == Sleep(w) ==> (w in Next(s, e).asleep <==> !Awake(s.cell, w))
    ensures e.Sleep? ==> Next(s, e).cell == s.cell
  {
  }

  /** The same over whole runs: who slept and does not any more has its predicate true. */
  lemma {:induction false} SleepsUntilTrue<K>(s: State<K>, events: seq<Event<K>>, w: Sleeper)
    requires Inv(s) && IsRun(s, events) && w in s.asleep
    ensures w in Last(s, events).asleep <==> !Awake(Last(s, events).cell, w)
    decreases |events|
  {
    RunInv(s, events);
    if events != [] {
      var s' := Next(s, events[0]);
      StepInv(s, events[0]);
      WakesOnlyWhenTrue(s, events[0], w);
      if w in s'.asleep {
        SleepsUntilTrue(s', events[1..], w);
      } else {
        AwakeIsStable(s', events[1..], w);
      }
    }
  }

  /** `use_count_` grows by one with every registration on a pending promise and with every Race
      on a settled race promise, and with nothing else. */
  lemma UsesCounted<K>(s: State<K>, e: Event<K>)
    requires Enabled(s, e)
    ensures Next(s, e).cell.useCount
            == s.cell.useCount + if e.RaceShortcut? || ((e.Suspend? || e.Register?) && !IsDone(s.cell)) then 1 else 0
  {
  }

  /** A call keeps its caller and its argument from beginning to end. */
  lemma {:induction false} CallKeepsArgument<K>(s: State<K>, events: seq<Event<K>>, i: nat)
    requires IsRun(s, events) && i < |s.calls|
    ensures i < |Last(s, events).calls|
    ensures Last(s, events).calls[i].arg == s.calls[i].arg && Last(s, events).calls[i].caller == s.calls[i].caller
    decreases |events|
  {
    if events != [] {
      var s' := Next(s, events[0]);
      assert s'.calls[i].arg == s.calls[i].arg && s'.calls[i].caller == s.calls[i].caller;
      CallKeepsArgument(s', events[1..], i);
    }
  }

  /** The call that began with `arg` is the one whose true return means that `arg` is stored. */
  lemma WinnerStoresItsArgument<K>(s: State<K>, caller: Caller, arg: Outcome, events: seq<Event<K>>)
    requires Inv(s) && Enabled(s, Begin(caller, arg)) && IsRun(Next(s, Begin(caller, arg)), events)
    ensures var r := Last(Next(s, Begin(caller, arg)), events);
            && |s.calls| < |r.calls|
            && (r.calls[|s.calls|].phase == Returned(true) ==> IsDone(r.cell) && Out(r.cell) == arg)
  {
    StepInv(s, Begin(caller, arg));
    RunInv(Next(s, Begin(caller, arg)), events);
    CallKeepsArgument(Next(s, Begin(caller, arg)), events, |s.calls|);
  }

  /** Detach takes self-ownership exactly when the promise is pending. */
  lemma DetachTakes<K>(s: State<K>)
    ensures Next(s, DetachSelf).cell.selfOwned <==> s.cell.selfOwned || !IsDone(s.cell)
  {
  }

  /** Once taken, self-ownership lasts until the drain, so a detached promise stays alive as long
      as somebody may still be waiting for it. */
  lemma {:induction false} DetachLasts<K>(s: State<K>, events: seq<Event<K>>)
    requires Inv(s) && IsRun(s, events) && s.cell.selfOwned
    ensures Last(s, events).cell.selfOwned <==> !Drained(Last(s, events).cell)
    decreases |events|
  {
    RunInv(s, events);
    if events != [] {
      var s' := Next(s, events[0]);
      StepInv(s, events[0]);
      if s'.cell.selfOwned {
        DetachLasts(s', events[1..]);
      } else {
        assert Awake(s'.cell, OnDone(0));
        AwakeIsStable(s', events[1..], OnDone(0));
      }
    }
  }

  /** Detach cannot leak: a promise that owns itself has not been drained, and after the
      drain it never owns itself again. */
  lemma DetachBreaksCycle<K>(s: State<K>, events: seq<Event<K>>)
    requires Inv(s) && IsRun(s, events)
    ensures s.cell.selfOwned ==> !Drained(s.cell)
    ensures Drained(s.cell) ==> !Last(s, events).cell.selfOwned
  {
    RunInv(s, events);
    if Drained(s.cell) {
      AwakeIsStable(s, events, OnDone(0));
    }
  }
}
