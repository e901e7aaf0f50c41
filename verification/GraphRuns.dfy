/** Runs of the promise network: any number of threads, any schedule, and API calls arriving
    at any time. */
module GraphRuns {
  import opened Values
  import opened Cells
  import opened Operators
  import opened Graph
  import opened GraphSafety

  /** Run: thread `i` executes its next section. The others are calls from outside: creating
      a promise, calling its Resolve or Reject handle, the end of its coroutine, which may
      settle the promise itself, chaining operators on any promise, and the two
      combinators. */
  datatype Event =
    | Run(i: nat)
    | Create(running: bool)
    | Settle(root: nat, o: Outcome)
    | EndBody(root: nat, result: Option<Outcome>)
    | Call(src: nat, ops: seq<Op>)
    | StartRace(entries: seq<Entry>)
    | StartAll(inputs: seq<nat>)

  const Start: Sys := Sys(Net([], [], map[], {}), [])

  predicate Runnable(s: Sys, i: nat) {
    i < |s.threads| && s.threads[i] != []
  }

  predicate Enabled(s: Sys, e: Event) {
    match e
    case Run(i) => Runnable(s, i)
    case Create(_) => true
    case Settle(root, _) => root < |s.net.defs| && s.net.defs[root].Root?
    case EndBody(root, _) => root < |s.net.defs| && s.net.defs[root].Root?
    case Call(src, ops) => src < |s.net.defs| && (forall j :: 0 <= j < |ops| ==> UserOp(ops[j]))
    case StartRace(entries) => forall j :: 0 <= j < |entries| ==> entries[j].input < |s.net.defs|
    case StartAll(inputs) => forall j :: 0 <= j < |inputs| ==> inputs[j] < |s.net.defs|
  }

  function Exec(s: Sys, i: nat): Sys
    requires SysOk(s) && Runnable(s, i)
  {
    var e := Perform(s.net, s.threads[i][0]);
    Sys(e.net, s.threads[i := e.front + s.threads[i][1..]] + e.spawned)
  }

  function Spawn(s: Sys, th: Thread): Sys {
    s.(threads := s.threads + [th])
  }

  function Next(s: Sys, e: Event): Sys
    requires SysOk(s) && Enabled(s, e)
  {
    var t := |s.net.cells|;
    match e
    case Run(i) => Exec(s, i)
    case Create(running) => s.(net := Append(s.net, Fresh(running), Root))
    case Settle(root, o) => Spawn(s, [Handle(root, o)])
    case EndBody(root, result) =>
      Spawn(s, if result.Some? then [Exchange(root, result.value), Final(root)] else [Final(root)])
    case Call(src, ops) => Spawn(s, [Chain(src, ops)])
    case StartRace(entries) =>
      var n := Append(s.net, Fresh(false), Contest(entries));
      Spawn(s.(net := n.(tips := n.tips[t := t])), [RaceLoop(t, entries, t)])
    case StartAll(inputs) =>
      Spawn(s.(net := Append(s.net, Fresh(true), Gather(inputs))), [AllLoop(inputs, 0, [], t)])
  }

  // ---------------------------------------------------------------- invariant

  /** Stores sit only at the head of a thread, for a cell that is claimed and not settled,
      and no two threads are about to store into the same cell. */
  ghost predicate StoresOk(n: Net, threads: seq<Thread>) {
    && (forall i, j :: 0 <= i < |threads| && 0 < j < |threads[i]| ==> !threads[i][j].Store?)
    && (forall i :: 0 <= i < |threads| && threads[i] != [] && threads[i][0].Store? ==> !DoneAt(n, threads[i][0].t))
    && (forall i, j ::
          0 <= i < j < |threads| && threads[i] != [] && threads[j] != [] && threads[i][0].Store? && threads[j][0].Store?
          ==> threads[i][0].t != threads[j][0].t)
  }

  ghost predicate SysOk(s: Sys) {
    && NetOk(s.net)
    && (forall i :: 0 <= i < |s.threads| ==> AllOk(s.net, s.threads[i]))
    && StoresOk(s.net, s.threads)
  }

  lemma ThreadGrows(n: Net, n': Net, th: Thread)
    requires Grows(n, n') && AllOk(n, th)
    ensures AllOk(n', th)
  {
    forall b | b in th ensures ActionOk(n', b) {
      ActionGrows(n, n', b);
    }
  }

  /** The threads after thread `i` has run its first section with effect `e`. */
  function After(threads: seq<Thread>, i: nat, e: Effect): seq<Thread>
    requires i < |threads| && threads[i] != []
  {
    threads[i := e.front + threads[i][1..]] + e.spawned
  }

  lemma AfterOk(n: Net, threads: seq<Thread>, i: nat, e: Effect, j: nat)
    requires i < |threads| && threads[i] != [] && EffectOk(n, e) && j < |After(threads, i, e)|
    requires forall q :: 0 <= q < |threads| ==> AllOk(n, threads[q])
    ensures AllOk(e.net, After(threads, i, e)[j])
  {
    if j < |threads| {
      ThreadGrows(n, e.net, threads[j]);
      assert forall b :: b in threads[i][1..] ==> b in threads[i];
    }
  }

  /** What a section relies on to keep stores exclusive: the cells of waiting stores are
      claimed, and a settled cell is claimed. */
  ghost predicate StoresClaimed(n: Net, threads: seq<Thread>) {
    && (forall q :: 0 <= q < |threads| && threads[q] != [] && threads[q][0].Store? ==> ClaimedAt(n, threads[q][0].t))
    && (forall t :: DoneAt(n, t) ==> ClaimedAt(n, t))
  }

  /** A store at the head of a thread after the step is an old one of another thread, or the
      one this step's exchange has just earned. */
  lemma HeadStore(n: Net, threads: seq<Thread>, i: nat, e: Effect, j: nat)
    requires i < |threads| && threads[i] != [] && StoresOk(n, threads) && StoresClaimed(n, threads)
    requires StoreFacts(n, threads[i][0], e)
    requires j < |After(threads, i, e)| && After(threads, i, e)[j] != [] && After(threads, i, e)[j][0].Store?
    ensures j < |threads| && !DoneAt(e.net, After(threads, i, e)[j][0].t)
    ensures j == i ==> e.front != [] && After(threads, i, e)[j][0] == e.front[0]
    ensures j != i ==> After(threads, i, e)[j] == threads[j]
  {
    var rest := threads[i][1..];
    assert forall k :: 0 <= k < |rest| ==> rest[k] == threads[i][k + 1] && !rest[k].Store?;
    assert forall q :: |threads| <= q < |After(threads, i, e)| ==> After(threads, i, e)[q] == e.spawned[q - |threads|];
  }

  lemma AfterStores(n: Net, threads: seq<Thread>, i: nat, e: Effect)
    requires i < |threads| && threads[i] != [] && StoresOk(n, threads) && StoresClaimed(n, threads)
    requires StoreFacts(n, threads[i][0], e)
    ensures StoresOk(e.net, After(threads, i, e))
  {
    var after: seq<Thread> := After(threads, i, e);
    forall j | 0 <= j < |after| && after[j] != [] && after[j][0].Store?
      ensures j < |threads| && !DoneAt(e.net, after[j][0].t)
      ensures j == i ==> e.front != [] && after[j][0] == e.front[0]
      ensures j != i ==> after[j] == threads[j]
    {
      HeadStore(n, threads, i, e, j);
    }
    forall j, k | 0 <= j < |after| && 0 < k < |after[j]| ensures !after[j][k].Store? {
      if j == i && k >= |e.front| {
        assert after[j][k] == threads[i][k - |e.front| + 1];
      }
    }
  }

  lemma ExecOk(s: Sys, i: nat)
    requires SysOk(s) && Runnable(s, i)
    ensures SysOk(Exec(s, i)) && Grows(s.net, Exec(s, i).net)
  {
    var a := s.threads[i][0];
    assert a in s.threads[i];
    PerformOk(s.net, a);
    PerformStores(s.net, a);
    HeadsClaimed(s);
    var e := Perform(s.net, a);
    AfterStores(s.net, s.threads, i, e);
    forall j | 0 <= j < |Exec(s, i).threads| ensures AllOk(e.net, Exec(s, i).threads[j]) {
      AfterOk(s.net, s.threads, i, e, j);
    }
  }

  lemma HeadsClaimed(s: Sys)
    requires SysOk(s)
    ensures StoresClaimed(s.net, s.threads)
  {
    forall q | 0 <= q < |s.threads| && s.threads[q] != [] && s.threads[q][0].Store?
      ensures ClaimedAt(s.net, s.threads[q][0].t)
    {
      assert s.threads[q][0] in s.threads[q];
    }
    forall t | DoneAt(s.net, t) ensures ClaimedAt(s.net, t) {
      assert NodeOk(s.net, t);
    }
  }

  lemma SpawnOk(s: Sys, n: Net, th: Thread)
    requires SysOk(s) && NetOk(n) && Grows(s.net, n) && AllOk(n, th)
    requires forall j :: 0 <= j < |th| ==> !th[j].Store?
    requires forall t :: 0 <= t < |n.cells| && DoneAt(n, t) ==> DoneAt(s.net, t)
    ensures SysOk(Spawn(s.(net := n), th))
  {
    var s' := Spawn(s.(net := n), th);
    forall i | 0 <= i < |s'.threads| ensures AllOk(n, s'.threads[i]) {
      if i < |s.threads| {
        ThreadGrows(s.net, n, s.threads[i]);
      }
    }
  }

  lemma CreateOk(s: Sys, running: bool, d: Def, m: map<nat, nat>)
    requires SysOk(s) && !d.Derived? && !d.Body?
    requires DefOk(Append(s.net, Fresh(running), d), |s.net.cells|)
    ensures var n := Append(s.net, Fresh(running), d).(tips := m);
            && NetOk(n) && Grows(s.net, n)
            && (forall t :: 0 <= t < |n.cells| && DoneAt(n, t) ==> DoneAt(s.net, t))
  {
    AppendOk(s.net, running, d);
    var n := Append(s.net, Fresh(running), d);
    SameCellsOk(n, n.(tips := m));
    GrowsTransitive(s.net, n, n.(tips := m));
  }

  lemma RootOk(s: Sys, running: bool)
    requires SysOk(s)
    ensures SysOk(Next(s, Create(running))) && Grows(s.net, Next(s, Create(running)).net)
  {
    CreateOk(s, running, Root, s.net.tips);
    var n := Append(s.net, Fresh(running), Root);
    forall i | 0 <= i < |s.threads| ensures AllOk(n, s.threads[i]) {
      ThreadGrows(s.net, n, s.threads[i]);
    }
  }

  lemma NextOk(s: Sys, e: Event)
    requires SysOk(s) && Enabled(s, e)
    ensures SysOk(Next(s, e)) && Grows(s.net, Next(s, e).net)
  {
    GrowsReflexive(s.net);
    var t := |s.net.cells|;
    match e
    case Run(i) => ExecOk(s, i);
    case Create(running) => RootOk(s, running);
    case Settle(root, o) => SpawnOk(s, s.net, [Handle(root, o)]);
    case EndBody(root, result) =>
      SpawnOk(s, s.net, if result.Some? then [Exchange(root, result.value), Final(root)] else [Final(root)]);
    case Call(src, ops) => SpawnOk(s, s.net, [Chain(src, ops)]);
    case StartRace(entries) =>
      CreateOk(s, false, Contest(entries), s.net.tips[t := t]);
      var n := Append(s.net, Fresh(false), Contest(entries)).(tips := s.net.tips[t := t]);
      assert n.defs[t] == Contest(entries);
      SpawnOk(s, n, [RaceLoop(t, entries, t)]);
    case StartAll(inputs) =>
      CreateOk(s, true, Gather(inputs), s.net.tips);
      var n := Append(s.net, Fresh(true), Gather(inputs));
      assert n.defs[t] == Gather(inputs);
      SpawnOk(s, n, [AllLoop(inputs, 0, [], t)]);
  }

  // ---------------------------------------------------------------- runs

  /** A run from `s`: each event is enabled where it happens. */
  ghost predicate IsRun(s: Sys, events: seq<Event>)
    requires SysOk(s)
    decreases |events|
  {
    events != [] ==> Enabled(s, events[0]) && (NextOk(s, events[0]); IsRun(Next(s, events[0]), events[1..]))
  }

  ghost function Last(s: Sys, events: seq<Event>): Sys
    requires SysOk(s) && IsRun(s, events)
    decreases |events|
  {
    if events == [] then s else NextOk(s, events[0]); Last(Next(s, events[0]), events[1..])
  }

  lemma {:induction false} RunOk(s: Sys, events: seq<Event>)
    requires SysOk(s) && IsRun(s, events)
    ensures SysOk(Last(s, events)) && Grows(s.net, Last(s, events).net)
    decreases |events|
  {
    GrowsReflexive(s.net);
    if events != [] {
      NextOk(s, events[0]);
      RunOk(Next(s, events[0]), events[1..]);
      GrowsTransitive(s.net, Next(s, events[0]).net, Last(s, events).net);
    }
  }

  lemma StartOk()
    ensures SysOk(Start)
  {
  }
}
