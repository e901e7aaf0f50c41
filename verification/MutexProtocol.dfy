/** Mutex as a protocol over a chain of promise cells: ticket `t` owns cell `t` and waits for
    the cell that was at the tail when it arrived. */
module MutexProtocol {
  import opened Values
  import opened Cells
  import opened Sums

  /** One atomic section. Ready and Suspend are the two halves of `co_await current_promise`,
      Grant is the locked section after it, Exchange and Store are the two phases of the
      resolve call that UnLock makes. */
  datatype Section =
    | Ready(t: nat, pred: nat)
    | Suspend(t: nat, pred: nat)
    | Grant(t: nat)
    | Exchange(t: nat)
    | Store(t: nat)

  type Thread = seq<Section>

  /** `tail` is promise_, `resolve` the ticket whose resolver is in resolve_. The history of
      grants and releases is what the properties speak about. */
  datatype State = State(
    cells: seq<Cell<nat>>,
    tail: nat,
    resolve: Option<nat>,
    threads: seq<Thread>,
    grants: seq<nat>,
    releases: seq<nat>)

  datatype Event = Lock | UnLock | Run(i: nat)

  datatype Effect = Effect(s: State, front: Thread)

  /** promise_{WPromise<void>::Resolve()} */
  const Open: Cell<nat> := StoreOutcome(Claim(Fresh(false)), Resolved(Void)).cell

  const Start: State := State([Open], 0, None, [], [], [])

  predicate Runnable(s: State, i: nat) {
    i < |s.threads| && s.threads[i] != []
  }

  /** UnLock asserts that the mutex is held. */
  predicate Enabled(s: State, e: Event) {
    match e
    case Lock => true
    case UnLock => s.resolve.Some?
    case Run(i) => Runnable(s, i)
  }

  function Grants(taken: seq<Awaiter<nat>>): (r: Thread)
    ensures |r| == |taken| && forall i :: 0 <= i < |r| ==> r[i] == Grant(taken[i].k)
  {
    if taken == [] then [] else [Grant(taken[0].k)] + Grants(taken[1..])
  }

  function Perform(s: State, a: Section): Effect
    requires SectionOk(s, a)
  {
    match a
    case Ready(t, p) =>
      Effect(s, if IsDone(s.cells[p]) then [Grant(t)] else [Suspend(t, p)])
    case Suspend(t, p) =>
      if IsDone(s.cells[p]) then Effect(s, [Grant(t)])
      else Effect(s.(cells := s.cells[p := AwaitCoroutine(s.cells[p], t)]), [])
    case Grant(t) =>
      Effect(s.(resolve := Some(t), grants := s.grants + [t]), [])
    case Exchange(t) =>
      if s.cells[t].claimed then Effect(s, [])
      else Effect(s.(cells := s.cells[t := Claim(s.cells[t])]), [Store(t)])
    case Store(t) =>
      var l := StoreOutcome(s.cells[t], Resolved(Void));
      Effect(s.(cells := s.cells[t := l.cell]), Grants(l.taken))
  }

  function Next(s: State, e: Event): State
    requires Inv(s) && Enabled(s, e)
  {
    match e
    case Lock =>
      var t := |s.cells|;
      s.(cells := s.cells + [Fresh(false)], tail := t, threads := s.threads + [[Ready(t, s.tail)]])
    case UnLock =>
      var t := s.resolve.value;
      s.(resolve := None, releases := s.releases + [t], threads := s.threads + [[Exchange(t)]])
    case Run(i) =>
      var e := Perform(s, s.threads[i][0]);
      e.s.(threads := s.threads[i := e.front + s.threads[i][1..]])
  }

  // ---------------------------------------------------------------- invariant

  /** Indices exist; a grant follows a settled predecessor; a resolve call in flight is the
      one of the last release and nobody else has claimed its cell. */
  ghost predicate SectionOk(s: State, a: Section) {
    var r := |s.releases|;
    match a
    case Ready(t, p) => 1 <= t < |s.cells| && p == t - 1
    case Suspend(t, p) => 1 <= t < |s.cells| && p == t - 1
    case Grant(t) => 1 <= t < |s.cells| && IsDone(s.cells[t - 1])
    case Exchange(t) => 1 <= t == r < |s.cells| && !s.cells[t].claimed
    case Store(t) => 1 <= t == r < |s.cells| && s.cells[t].claimed && !IsDone(s.cells[t])
  }

  ghost predicate CellOk(s: State, q: nat)
    requires q < |s.cells|
  {
    var c, r := s.cells[q], |s.releases|;
    && !c.running && (IsDone(c) ==> c.claimed) && (IsDone(c) ==> c.awaiters == [])
    && (q < r ==> IsDone(c)) && (q > r ==> !c.claimed)
    && (forall w :: w in c.awaiters ==> w.k == q + 1 && w.k < |s.cells|)
  }

  /** The token is in exactly one place: `resolve_` holds the last grant exactly while it is
      not released. */
  ghost predicate TokenOk(s: State) {
    var g, r := |s.grants|, |s.releases|;
    && r <= g <= r + 1 && g < |s.cells| && s.tail == |s.cells| - 1
    && (forall i :: 0 <= i < g ==> s.grants[i] == i + 1)
    && (forall i :: 0 <= i < r ==> s.releases[i] == i + 1)
    && s.resolve == (if g == r + 1 then Some(g) else None)
    && (r == 0 || g == r + 1 ==> IsDone(s.cells[r]))
  }

  function Brings(a: Section, t: nat): nat {
    if (a.Ready? || a.Suspend? || a.Grant?) && a.t == t then 1 else 0
  }

  function BringsOf(t: nat): Section -> nat {
    a => Brings(a, t)
  }

  function ThreadBringsOf(t: nat): Thread -> nat {
    th => Sum(th, BringsOf(t))
  }

  function WaitsOf(t: nat): Awaiter<nat> -> nat {
    (w: Awaiter<nat>) => if w.k == t then 1 else 0
  }

  function CellWaitsOf(t: nat): Cell<nat> -> nat {
    (c: Cell<nat>) => Sum(c.awaiters, WaitsOf(t))
  }

  /** In how many places ticket `t` is waiting to be granted. */
  function Carriers(s: State, t: nat): nat {
    Sum(s.threads, ThreadBringsOf(t)) + Sum(s.cells, CellWaitsOf(t))
  }

  function Releases(a: Section): nat {
    if a.Exchange? || a.Store? then 1 else 0
  }

  function ThreadReleases(th: Thread): nat {
    Sum(th, Releases)
  }

  /** Number of UnLock calls whose resolve call has not stored yet. */
  function InFlight(s: State): nat {
    Sum(s.threads, ThreadReleases)
  }

  ghost predicate CountsOk(s: State) {
    && (forall t: nat :: Carriers(s, t) == if |s.grants| < t < |s.cells| then 1 else 0)
    && |s.releases| < |s.cells|
    && InFlight(s) == if IsDone(s.cells[|s.releases|]) then 0 else 1
  }

  ghost predicate Inv(s: State) {
    && TokenOk(s)
    && (forall q :: 0 <= q < |s.cells| ==> CellOk(s, q))
    && (forall i, a :: 0 <= i < |s.threads| && a in s.threads[i] ==> SectionOk(s, a))
    && CountsOk(s)
  }

  lemma StartInv()
    ensures Inv(Start)
  {
    forall t: nat ensures Carriers(Start, t) == 0 {
      SumOne(Open, CellWaitsOf(t));
    }
  }

  // ---------------------------------------------------------------- counting one step

  lemma RunCount(s: State, i: nat, s': State, front: Thread, f: Section -> nat, g: Thread -> nat)
    requires Runnable(s, i) && s'.threads == s.threads[i := front + s.threads[i][1..]]
    requires forall th :: g(th) == Sum(th, f)
    ensures Sum(s'.threads, g) + f(s.threads[i][0]) == Sum(s.threads, g) + Sum(front, f)
  {
    SumAppend(front, s.threads[i][1..], f);
    SumUpdate(s.threads, i, front + s.threads[i][1..], g);
  }

  lemma SpawnCount(s: State, a: Section, f: Section -> nat, g: Thread -> nat)
    requires forall th :: g(th) == Sum(th, f)
    ensures Sum(s.threads + [[a]], g) == Sum(s.threads, g) + f(a)
  {
    SumAppend(s.threads, [[a]], g);
    SumOne([a], g);
    SumOne(a, f);
  }

  /** The section a thread is about to run is counted. */
  lemma HeadCounts(s: State, i: nat, f: Section -> nat, g: Thread -> nat)
    requires Runnable(s, i) && forall th :: g(th) == Sum(th, f)
    ensures Sum(s.threads, g) >= f(s.threads[i][0])
  {
    SumAtLeast(s.threads[i], 0, f);
    SumAtLeast(s.threads, i, g);
  }

  /** While thread `i` runs a resolve call, no other section is one. */
  lemma OnlyRelease(s: State, i: nat, j: nat, b: Section)
    requires Inv(s) && Runnable(s, i) && Releases(s.threads[i][0]) == 1
    requires j < |s.threads| && (if j == i then b in s.threads[i][1..] else b in s.threads[j])
    ensures Releases(b) == 0
  {
    var th := if j == i then s.threads[i][1..] else s.threads[j];
    var k :| 0 <= k < |th| && th[k] == b;
    SumAtLeast(th, k, Releases);
    SumAtLeast(s.threads[i], 0, Releases);
    if j == i {
      assert ThreadReleases(s.threads[i]) == Releases(s.threads[i][0]) + Sum(s.threads[i][1..], Releases);
      SumAtLeast(s.threads, i, ThreadReleases);
    } else if i < j {
      SumApart(s.threads, i, j, ThreadReleases);
    } else {
      SumApart(s.threads, j, i, ThreadReleases);
    }
  }

  /** A ticket about to be granted is the next one, and the mutex is free. */
  lemma GrantIsNext(s: State, i: nat, t: nat)
    requires Inv(s) && Runnable(s, i) && s.threads[i][0] == Grant(t)
    ensures t == |s.grants| + 1 == |s.releases| + 1 && s.resolve == None
  {
    assert s.threads[i][0] in s.threads[i] && SectionOk(s, s.threads[i][0]);
    HeadCounts(s, i, BringsOf(t), ThreadBringsOf(t));
    assert Carriers(s, t) >= 1;
    assert CellOk(s, t - 1);
  }

  // ---------------------------------------------------------------- preservation

  lemma LockInv(s: State)
    requires Inv(s)
    ensures Inv(Next(s, Lock))
  {
    var s', t := Next(s, Lock), |s.cells|;
    forall q | 0 <= q < |s'.cells| ensures CellOk(s', q) {
      if q < t {
        assert CellOk(s, q) && s'.cells[q] == s.cells[q];
      }
    }
    forall i, a | 0 <= i < |s'.threads| && a in s'.threads[i] ensures SectionOk(s', a) {
      if i < |s.threads| {
        assert SectionOk(s, a);
      }
    }
    forall u: nat ensures Carriers(s', u) == if |s'.grants| < u < |s'.cells| then 1 else 0 {
      SpawnCount(s, Ready(t, s.tail), BringsOf(u), ThreadBringsOf(u));
      SumAppend(s.cells, [Fresh(false)], CellWaitsOf(u));
      SumOne(Fresh(false), CellWaitsOf(u));
      assert Carriers(s, u) == if |s.grants| < u < |s.cells| then 1 else 0;
    }
    SpawnCount(s, Ready(t, s.tail), Releases, ThreadReleases);
  }

  lemma UnLockInv(s: State)
    requires Inv(s) && s.resolve.Some?
    ensures Inv(Next(s, UnLock))
  {
    var s', t := Next(s, UnLock), s.resolve.value;
    assert CellOk(s, t);
    forall q | 0 <= q < |s'.cells| ensures CellOk(s', q) {
      assert CellOk(s, q);
    }
    forall i, a | 0 <= i < |s'.threads| && a in s'.threads[i] ensures SectionOk(s', a) {
      if i < |s.threads| {
        assert SectionOk(s, a);
        NoReleaseInFlight(s, i, a);
      }
    }
    forall u: nat ensures Carriers(s', u) == if |s'.grants| < u < |s'.cells| then 1 else 0 {
      SpawnCount(s, Exchange(t), BringsOf(u), ThreadBringsOf(u));
      assert Carriers(s, u) == if |s.grants| < u < |s.cells| then 1 else 0;
    }
    SpawnCount(s, Exchange(t), Releases, ThreadReleases);
  }

  lemma NoReleaseInFlight(s: State, i: nat, a: Section)
    requires InFlight(s) == 0 && i < |s.threads| && a in s.threads[i]
    ensures Releases(a) == 0
  {
    var k :| 0 <= k < |s.threads[i]| && s.threads[i][k] == a;
    SumAtLeast(s.threads[i], k, Releases);
    SumAtLeast(s.threads, i, ThreadReleases);
  }

  /** Sections of other threads, and the rest of this one, survive the step. */
  ghost predicate Remaining(s: State, i: nat, j: nat, b: Section) {
    j < |s.threads| && Runnable(s, i) && (if j == i then b in s.threads[i][1..] else b in s.threads[j])
  }

  lemma RunSections(s: State, i: nat, s': State, front: Thread)
    requires Runnable(s, i) && s'.threads == s.threads[i := front + s.threads[i][1..]]
    requires forall b :: b in front ==> SectionOk(s', b)
    requires forall j: nat, b :: Remaining(s, i, j, b) ==> SectionOk(s', b)
    ensures forall j, b :: 0 <= j < |s'.threads| && b in s'.threads[j] ==> SectionOk(s', b)
  {
    forall j, b | 0 <= j < |s'.threads| && b in s'.threads[j] ensures SectionOk(s', b) {
      assert b in front || Remaining(s, i, j, b);
    }
  }

  ghost predicate CarriersOk(s: State) {
    forall t: nat :: Carriers(s, t) == if |s.grants| < t < |s.cells| then 1 else 0
  }

  // -- waiting

  lemma WaitSections(s: State, i: nat)
    requires Inv(s) && Runnable(s, i) && (s.threads[i][0].Ready? || s.threads[i][0].Suspend?)
    ensures var s' := Next(s, Run(i));
            && (forall q :: 0 <= q < |s'.cells| ==> CellOk(s', q))
            && (forall j, b :: 0 <= j < |s'.threads| && b in s'.threads[j] ==> SectionOk(s', b))
  {
    var a := s.threads[i][0];
    assert a in s.threads[i] && SectionOk(s, a);
    var e := Perform(s, a);
    var s' := Next(s, Run(i));
    assert CellOk(s, a.pred);
    forall q | 0 <= q < |s'.cells| ensures CellOk(s', q) {
      assert CellOk(s, q);
    }
    forall j: nat, b | Remaining(s, i, j, b) ensures SectionOk(s', b) {
      assert b in s.threads[j] && SectionOk(s, b);
    }
    RunSections(s, i, s', e.front);
  }

  lemma WaitCarriers(s: State, i: nat, u: nat)
    requires Runnable(s, i) && SectionOk(s, s.threads[i][0]) && (s.threads[i][0].Ready? || s.threads[i][0].Suspend?)
    ensures var e := Perform(s, s.threads[i][0]);
            Carriers(e.s.(threads := s.threads[i := e.front + s.threads[i][1..]]), u) == Carriers(s, u)
  {
    var a := s.threads[i][0];
    var e := Perform(s, a);
    var s' := e.s.(threads := s.threads[i := e.front + s.threads[i][1..]]);
    RunCount(s, i, s', e.front, BringsOf(u), ThreadBringsOf(u));
    if e.front != [] {
      assert e.front == [e.front[0]];
      SumOne(e.front[0], BringsOf(u));
    } else {
      RegisterCarriers(s, a.t, a.pred, u);
    }
  }

  lemma RegisterCarriers(s: State, t: nat, p: nat, u: nat)
    requires p < |s.cells|
    ensures Sum(s.cells[p := AwaitCoroutine(s.cells[p], t)], CellWaitsOf(u))
            == Sum(s.cells, CellWaitsOf(u)) + Brings(Suspend(t, p), u)
  {
    var c, w := s.cells[p], Coroutine(t, s.cells[p].useCount + 1);
    SumUpdate(s.cells, p, AwaitCoroutine(c, t), CellWaitsOf(u));
    SumAppend(c.awaiters, [w], WaitsOf(u));
    SumOne(w, WaitsOf(u));
  }

  lemma WaitInv(s: State, i: nat)
    requires Inv(s) && Runnable(s, i) && (s.threads[i][0].Ready? || s.threads[i][0].Suspend?)
    ensures Inv(Next(s, Run(i)))
  {
    var a := s.threads[i][0];
    assert a in s.threads[i] && SectionOk(s, a);
    WaitSections(s, i);
    var e := Perform(s, a);
    var s' := Next(s, Run(i));
    assert CellOk(s, a.pred);
    assert TokenOk(s');
    forall u: nat ensures Carriers(s', u) == Carriers(s, u) {
      WaitCarriers(s, i, u);
    }
    RunCount(s, i, s', e.front, Releases, ThreadReleases);
    if e.front != [] {
      assert e.front == [e.front[0]];
      SumOne(e.front[0], Releases);
    }
  }

  // -- granting

  lemma GrantCarriers(s: State, i: nat)
    requires Inv(s) && Runnable(s, i) && s.threads[i][0].Grant?
    ensures CarriersOk(Next(s, Run(i))) && InFlight(Next(s, Run(i))) == InFlight(s)
  {
    var t := s.threads[i][0].t;
    GrantIsNext(s, i, t);
    var s' := Next(s, Run(i));
    forall u: nat ensures Carriers(s', u) == if |s'.grants| < u < |s'.cells| then 1 else 0 {
      RunCount(s, i, s', [], BringsOf(u), ThreadBringsOf(u));
      assert Carriers(s, u) == if |s.grants| < u < |s.cells| then 1 else 0;
    }
    RunCount(s, i, s', [], Releases, ThreadReleases);
  }

  lemma GrantInv(s: State, i: nat)
    requires Inv(s) && Runnable(s, i) && s.threads[i][0].Grant?
    ensures Inv(Next(s, Run(i)))
  {
    var a := s.threads[i][0];
    assert a in s.threads[i] && SectionOk(s, a);
    GrantIsNext(s, i, a.t);
    GrantCarriers(s, i);
    var s' := Next(s, Run(i));
    forall q | 0 <= q < |s'.cells| ensures CellOk(s', q) {
      assert CellOk(s, q);
    }
    forall j: nat, b | Remaining(s, i, j, b) ensures SectionOk(s', b) {
      assert b in s.threads[j] && SectionOk(s, b);
    }
    RunSections(s, i, s', []);
    assert TokenOk(s');
  }

  // -- releasing

  /** Resolve calls only touch the cell of the last release. */
  lemma ReleaseSections(s: State, i: nat, c: Cell<nat>, front: Thread)
    requires Inv(s) && Runnable(s, i) && Releases(s.threads[i][0]) == 1
    requires |s.releases| < |s.cells| && (IsDone(s.cells[|s.releases|]) ==> IsDone(c))
    requires var s' := s.(cells := s.cells[|s.releases| := c], threads := s.threads[i := front + s.threads[i][1..]]);
             CellOk(s', |s.releases|) && forall b :: b in front ==> SectionOk(s', b)
    ensures var s' := s.(cells := s.cells[|s.releases| := c], threads := s.threads[i := front + s.threads[i][1..]]);
            && (forall q :: 0 <= q < |s'.cells| ==> CellOk(s', q))
            && (forall j, b :: 0 <= j < |s'.threads| && b in s'.threads[j] ==> SectionOk(s', b))
  {
    var s' := s.(cells := s.cells[|s.releases| := c], threads := s.threads[i := front + s.threads[i][1..]]);
    forall q | 0 <= q < |s'.cells| ensures CellOk(s', q) {
      assert CellOk(s, q);
    }
    forall j: nat, b | Remaining(s, i, j, b) ensures SectionOk(s', b) {
      assert b in s.threads[j] && SectionOk(s, b);
      OnlyRelease(s, i, j, b);
    }
    RunSections(s, i, s', front);
  }

  lemma ExchangeInv(s: State, i: nat)
    requires Inv(s) && Runnable(s, i) && s.threads[i][0].Exchange?
    ensures Inv(Next(s, Run(i)))
  {
    var a := s.threads[i][0];
    var t := a.t;
    assert a in s.threads[i] && SectionOk(s, a);
    assert CellOk(s, t);
    var s' := Next(s, Run(i));
    ReleaseSections(s, i, Claim(s.cells[t]), [Store(t)]);
    forall u: nat ensures Carriers(s', u) == Carriers(s, u) {
      RunCount(s, i, s', [Store(t)], BringsOf(u), ThreadBringsOf(u));
      SumOne(Store(t), BringsOf(u));
      SumUpdate(s.cells, t, Claim(s.cells[t]), CellWaitsOf(u));
    }
    RunCount(s, i, s', [Store(t)], Releases, ThreadReleases);
    SumOne(Store(t), Releases);
  }

  lemma {:induction false} GrantsCount(taken: seq<Awaiter<nat>>, u: nat)
    ensures Sum(Grants(taken), BringsOf(u)) == Sum(taken, WaitsOf(u))
    ensures Sum(Grants(taken), Releases) == 0
  {
    if taken != [] {
      GrantsCount(taken[1..], u);
      SumAppend([Grant(taken[0].k)], Grants(taken[1..]), BringsOf(u));
      SumOne(Grant(taken[0].k), BringsOf(u));
      SumAppend([Grant(taken[0].k)], Grants(taken[1..]), Releases);
      SumOne(Grant(taken[0].k), Releases);
    }
  }

  lemma StoreCarriers(s: State, i: nat, t: nat, u: nat)
    requires Runnable(s, i) && t < |s.cells| && s.threads[i][0] == Store(t) && !s.cells[t].running
    ensures var l := StoreOutcome(s.cells[t], Resolved(Void));
            var s' := s.(cells := s.cells[t := l.cell], threads := s.threads[i := Grants(l.taken) + s.threads[i][1..]]);
            Carriers(s', u) == Carriers(s, u)
  {
    var l := StoreOutcome(s.cells[t], Resolved(Void));
    var s' := s.(cells := s.cells[t := l.cell], threads := s.threads[i := Grants(l.taken) + s.threads[i][1..]]);
    RunCount(s, i, s', Grants(l.taken), BringsOf(u), ThreadBringsOf(u));
    GrantsCount(l.taken, u);
    SumUpdate(s.cells, t, l.cell, CellWaitsOf(u));
  }

  lemma StoreInv(s: State, i: nat)
    requires Inv(s) && Runnable(s, i) && s.threads[i][0].Store?
    ensures Inv(Next(s, Run(i)))
  {
    var a := s.threads[i][0];
    var t := a.t;
    assert a in s.threads[i] && SectionOk(s, a);
    assert CellOk(s, t);
    var l := StoreOutcome(s.cells[t], Resolved(Void));
    var s' := Next(s, Run(i));
    forall b | b in Grants(l.taken) ensures SectionOk(s', b) {
      var k :| 0 <= k < |l.taken| && Grants(l.taken)[k] == b;
      assert l.taken[k] in s.cells[t].awaiters;
    }
    ReleaseSections(s, i, l.cell, Grants(l.taken));
    forall u: nat ensures Carriers(s', u) == Carriers(s, u) {
      StoreCarriers(s, i, t, u);
    }
    RunCount(s, i, s', Grants(l.taken), Releases, ThreadReleases);
    GrantsCount(l.taken, 0);
  }

  lemma StepInv(s: State, e: Event)
    requires Inv(s) && Enabled(s, e)
    ensures Inv(Next(s, e))
  {
    match e
    case Lock => LockInv(s);
    case UnLock => UnLockInv(s);
    case Run(i) =>
      match s.threads[i][0]
      case Ready(_, _) => WaitInv(s, i);
      case Suspend(_, _) => WaitInv(s, i);
      case Grant(_) => GrantInv(s, i);
      case Exchange(_) => ExchangeInv(s, i);
      case Store(_) => StoreInv(s, i);
  }

  // ---------------------------------------------------------------- runs

  ghost predicate IsRun(s: State, events: seq<Event>)
    requires Inv(s)
    decreases |events|
  {
    events != [] ==> Enabled(s, events[0]) && (StepInv(s, events[0]); IsRun(Next(s, events[0]), events[1..]))
  }

  ghost function Last(s: State, events: seq<Event>): State
    requires Inv(s) && IsRun(s, events)
    decreases |events|
  {
    if events == [] then s else StepInv(s, events[0]); Last(Next(s, events[0]), events[1..])
  }

  lemma {:induction false} RunInv(s: State, events: seq<Event>)
    requires Inv(s) && IsRun(s, events)
    ensures Inv(Last(s, events))
    decreases |events|
  {
    if events != [] {
      StepInv(s, events[0]);
      RunInv(Next(s, events[0]), events[1..]);
    }
  }

  ghost predicate ReachedBy(s: State, events: seq<Event>) {
    StartInv();
    IsRun(Start, events) && Last(Start, events) == s
  }

  lemma ReachedInv(s: State)
    ensures (exists events :: ReachedBy(s, events)) ==> Inv(s)
  {
    if events :| ReachedBy(s, events) {
      StartInv();
      RunInv(Start, events);
    }
  }

  /** Any calls of Lock and UnLock, any number of threads, any schedule. */
  ghost predicate Reachable(s: State)
    ensures Reachable(s) ==> Inv(s)
  {
    ReachedInv(s);
    exists events :: ReachedBy(s, events)
  }

  lemma {:induction false} RunExtended(s: State, events: seq<Event>, e: Event)
    requires Inv(s) && IsRun(s, events) && Enabled(Last(s, events), e)
    ensures Inv(Last(s, events)) && IsRun(s, events + [e]) && Last(s, events + [e]) == Next(Last(s, events), e)
    decreases |events|
  {
    RunInv(s, events);
    if events == [] {
      StepInv(s, e);
      assert [e][1..] == [] && IsRun(Next(s, e), []);
    } else {
      StepInv(s, events[0]);
      RunExtended(Next(s, events[0]), events[1..], e);
      assert (events + [e])[1..] == events[1..] + [e];
    }
  }

  lemma ReachableNext(s: State, e: Event)
    requires Reachable(s) && Enabled(s, e)
    ensures Reachable(Next(s, e))
  {
    StartInv();
    var events :| ReachedBy(s, events);
    RunExtended(Start, events, e);
    assert ReachedBy(Next(s, e), events + [e]);
  }

  lemma ReachableStart()
    ensures Reachable(Start)
  {
    StartInv();
    assert ReachedBy(Start, []);
  }

  // ---------------------------------------------------------------- main results

  /** Ticket `t` has been granted the mutex and has not released it. */
  predicate Holds(s: State, t: nat) {
    t in s.grants && t !in s.releases
  }

  predicate ExchangeWins(s: State, t: nat) {
    t < |s.cells| && !s.cells[t].claimed
  }

  /** Mutual exclusion: two grants never overlap, the holder is the ticket in `resolve_`, a
      section about to store its resolver finds `resolve_` empty (the assertion in Lock), and
      the resolve call of UnLock always wins its exchange. */
  lemma MutualExclusion(s: State, t: nat, u: nat)
    requires Reachable(s)
    ensures Holds(s, t) && Holds(s, u) ==> t == u
    ensures Holds(s, t) <==> s.resolve == Some(t)
    ensures forall i: nat :: Runnable(s, i) && s.threads[i][0].Grant? ==> s.resolve == None
    ensures forall i: nat :: Runnable(s, i) && s.threads[i][0].Exchange? ==> ExchangeWins(s, s.threads[i][0].t)
  {
    forall i: nat | Runnable(s, i) && s.threads[i][0].Grant? ensures s.resolve == None {
      GrantIsNext(s, i, s.threads[i][0].t);
    }
    forall i: nat | Runnable(s, i) && s.threads[i][0].Exchange? ensures ExchangeWins(s, s.threads[i][0].t) {
      assert s.threads[i][0] in s.threads[i] && SectionOk(s, s.threads[i][0]);
    }
    if t in s.grants && t !in s.releases {
      TicketInRange(s, t);
    }
    if u in s.grants && u !in s.releases {
      TicketInRange(s, u);
    }
    if s.resolve == Some(t) {
      assert s.grants[t - 1] == t;
      assert forall i :: 0 <= i < |s.releases| ==> s.releases[i] < t;
    }
  }

  lemma TicketInRange(s: State, t: nat)
    requires Inv(s) && t in s.grants && t !in s.releases
    ensures s.resolve == Some(t)
  {
    var i :| 0 <= i < |s.grants| && s.grants[i] == t;
    if t <= |s.releases| {
      ReleasedUpTo(s, t);
    }
  }

  lemma ReleasedUpTo(s: State, t: nat)
    requires Inv(s) && 1 <= t <= |s.releases|
    ensures t in s.releases
  {
    assert s.releases[t - 1] == t;
  }

  /** Resolved cells are a prefix of the chain: everything up to the last release, or all of
      it but that one while its resolve call is in flight. */
  lemma ResolvedPrefix(s: State, p: nat, q: nat)
    requires Reachable(s) && p < q < |s.cells| && IsDone(s.cells[q])
    ensures IsDone(s.cells[p])
  {
    assert CellOk(s, p) && CellOk(s, q);
  }

  /** First come, first served: the n-th grant goes to the n-th tail swap. */
  lemma GrantsAreFifo(s: State, i: nat)
    requires Reachable(s) && i < |s.grants|
    ensures s.grants[i] == i + 1
    ensures i < |s.releases| ==> s.releases[i] == s.grants[i]
  {
  }

  /** No stuck state (every reachable state satisfies Inv): if a ticket is outstanding, nobody
      holds the mutex and no UnLock is in flight, then the next ticket's predecessor is
      resolved and a thread is already on the way to grant it. */
  lemma NeverStuck(s: State) returns (i: nat, j: nat)
    requires Inv(s) && |s.grants| + 1 < |s.cells| && s.resolve == None && InFlight(s) == 0
    ensures IsDone(s.cells[|s.grants|])
    ensures i < |s.threads| && j < |s.threads[i]| && Brings(s.threads[i][j], |s.grants| + 1) == 1
  {
    var t := |s.grants| + 1;
    assert Carriers(s, t) == 1;
    forall q | 0 <= q < |s.cells| ensures CellWaitsOf(t)(s.cells[q]) == 0 {
      assert CellOk(s, q);
      forall k | 0 <= k < |s.cells[q].awaiters| ensures WaitsOf(t)(s.cells[q].awaiters[k]) == 0 {
        assert s.cells[q].awaiters[k] in s.cells[q].awaiters;
      }
      SumZero(s.cells[q].awaiters, WaitsOf(t));
    }
    SumZero(s.cells, CellWaitsOf(t));
    i := SumPositive(s.threads, ThreadBringsOf(t));
    j := SumPositive(s.threads[i], BringsOf(t));
  }

  // ---------------------------------------------------------------- every schedule comes to rest

  function Weight(a: Section): nat {
    match a
    case Ready(_, _) => 4
    case Suspend(_, _) => 3
    case Grant(_) => 1
    case Exchange(_) => 2
    case Store(_) => 1
  }

  function ThreadWeight(th: Thread): nat {
    Sum(th, Weight)
  }

  function Parked(c: Cell<nat>): nat {
    2 * |c.awaiters|
  }

  function Total(s: State): nat {
    Sum(s.threads, ThreadWeight) + Sum(s.cells, Parked)
  }

  lemma {:induction false} GrantsWeight(taken: seq<Awaiter<nat>>)
    ensures ThreadWeight(Grants(taken)) == |taken|
  {
    if taken != [] {
      GrantsWeight(taken[1..]);
      SumAppend([Grant(taken[0].k)], Grants(taken[1..]), Weight);
      SumOne(Grant(taken[0].k), Weight);
    }
  }

  /** Each section lowers the weight, so without new calls every schedule ends. */
  lemma RunWeight(s: State, i: nat)
    requires Inv(s) && Runnable(s, i)
    ensures Total(Next(s, Run(i))) < Total(s)
  {
    var a := s.threads[i][0];
    assert a in s.threads[i] && SectionOk(s, a);
    var e := Perform(s, a);
    RunCount(s, i, Next(s, Run(i)), e.front, Weight, ThreadWeight);
    CellsWeight(s, a);
  }

  /** What a section and the cells weigh together before, they outweigh after. */
  lemma CellsWeight(s: State, a: Section)
    requires SectionOk(s, a)
    ensures var e := Perform(s, a);
            ThreadWeight(e.front) + Sum(e.s.cells, Parked) < Weight(a) + Sum(s.cells, Parked)
  {
    var e := Perform(s, a);
    match a
    case Ready(t, p) =>
      SumOne(e.front[0], Weight);
    case Suspend(t, p) =>
      SumUpdate(s.cells, p, AwaitCoroutine(s.cells[p], t), Parked);
      SumOne(Grant(t), Weight);
    case Grant(t) =>
    case Exchange(t) =>
      SumUpdate(s.cells, t, Claim(s.cells[t]), Parked);
      SumOne(Store(t), Weight);
    case Store(t) =>
      StoreWeight(s, t);
  }

  lemma StoreWeight(s: State, t: nat)
    requires t < |s.cells|
    ensures var l := StoreOutcome(s.cells[t], Resolved(Void));
            ThreadWeight(Grants(l.taken)) + Sum(s.cells[t := l.cell], Parked) <= Sum(s.cells, Parked)
  {
    var l := StoreOutcome(s.cells[t], Resolved(Void));
    SumUpdate(s.cells, t, l.cell, Parked);
    GrantsWeight(l.taken);
  }

  /** No section is waiting to run. */
  ghost predicate AtRest(s: State) {
    forall i :: 0 <= i < |s.threads| ==> s.threads[i] == []
  }

  /** At rest the mutex is held as long as a ticket is waiting. */
  lemma AtRestHeldOrServed(s: State)
    requires Inv(s) && AtRest(s)
    ensures s.resolve.Some? || |s.grants| + 1 == |s.cells|
    ensures IsDone(s.cells[|s.releases|])
  {
    SumZero(s.threads, ThreadReleases);
    if s.resolve == None && |s.grants| + 1 < |s.cells| {
      var i, j := NeverStuck(s);
    }
  }
}
