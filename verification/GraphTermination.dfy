/** Every schedule comes to rest: each section strictly lowers a weight that counts the work
    queued in threads and the awaiters registered in cells. */
module GraphTermination {
  import opened Values
  import opened Cells
  import opened Sums
  import opened Operators
  import opened Graph
  import opened GraphSafety
  import opened GraphRuns

  function OpWeight(op: Op): nat {
    match op
    case Then(_, _, _, async) => if async then 21 else 4
    case Catch(_, _, _, _, _, async) => if async then 21 else 4
    case Finally(_, _, async) => if async then 21 else 4
    case Relay(_, _) => 6
    case RelayError(_) => 6
    case Unhook(_, _, _) => 5
  }

  function Left(total: nat, pos: nat): nat {
    if pos <= total then total - pos else 0
  }

  function ContWeight(k: Cont): nat {
    match k
    case Step(_, op, _) => OpWeight(op)
    case Branch(_, op, _) => OpWeight(op)
    case RaceWin(_, _, _) => 4
    case AllAt(_, inputs, pos, _, _) => 2 + 3 * Left(|inputs|, pos)
  }

  function LinkWeight(op: Op): nat {
    2 + OpWeight(op)
  }

  function Weight(a: Action): nat {
    match a
    case Flag(_, _) => 3
    case Exchange(_, _) => 2
    case Store(_, _) => 1
    case Final(_) => 1
    case Resume(k) => ContWeight(k)
    case Chain(_, ops) => 1 + Sum(ops, LinkWeight)
    case RelaySettle(_, _, _) => 5
    case UnhookThen(_, _, _, _) => 4
    case CountRace(_) => 1
    case RaceLoop(_, rest, _) => 1 + 14 * |rest|
    case RaceTry(_, _, rest, _) => 14 + 14 * |rest|
    case RaceLink(_, _, _, rest, _) => 8 + 14 * |rest|
    case AllLoop(inputs, pos, _, _) => 4 + 3 * Left(|inputs|, pos)
  }

  function ThreadWeight(th: Thread): nat {
    Sum(th, Weight)
  }

  function AwaiterWeight(w: Awaiter<Cont>): nat {
    1 + ContWeight(w.k)
  }

  function CellWeight(c: Cell<Cont>): nat {
    Sum(c.awaiters, AwaiterWeight)
  }

  function Total(s: Sys): nat {
    Sum(s.threads, ThreadWeight) + Sum(s.net.cells, CellWeight)
  }

  function EffectWeight(e: Effect): nat {
    ThreadWeight(e.front) + Sum(e.spawned, ThreadWeight) + Sum(e.net.cells, CellWeight)
  }

  // ---------------------------------------------------------------- sums

  lemma {:induction false} WithoutWeight(a: seq<Awaiter<Cont>>, id: nat)
    ensures Sum(Without(a, id), AwaiterWeight) <= Sum(a, AwaiterWeight)
  {
    if a != [] {
      WithoutWeight(a[1..], id);
      if !(a[0].Callback? && a[0].id == id) {
        SumAppend([a[0]], Without(a[1..], id), AwaiterWeight);
        SumOne(a[0], AwaiterWeight);
      }
    }
  }

  /** Dispatching is cheaper than waiting. */
  lemma {:induction false} ResumesWeight(a: seq<Awaiter<Cont>>)
    ensures ThreadWeight(Resumes(a)) <= Sum(a, AwaiterWeight)
  {
    if a != [] {
      ResumesWeight(a[1..]);
      SumAppend([Resume(a[0].k)], Resumes(a[1..]), Weight);
      SumOne(Resume(a[0].k), Weight);
    }
  }

  // ---------------------------------------------------------------- sections

  lemma NewCellWeight(cells: seq<Cell<Cont>>, c: Cell<Cont>)
    requires c.awaiters == []
    ensures Sum(cells + [c], CellWeight) == Sum(cells, CellWeight)
  {
    SumAppend(cells, [c], CellWeight);
    SumOne(c, CellWeight);
  }

  lemma DrainWeight(n: Net, t: nat, l: Locked<Cont>)
    requires t < |n.cells|
    requires
      || (l.cell.awaiters == n.cells[t].awaiters && l.taken == [])
      || (l.cell.awaiters == [] && l.taken == n.cells[t].awaiters)
    ensures EffectWeight(Afterwards(n, t, l)) <= Sum(n.cells, CellWeight)
  {
    SumUpdate(n.cells, t, l.cell, CellWeight);
    ResumesWeight(l.taken);
  }

  lemma LaunchWeight(n: Net, end: Outcome, tgt: nat, deliver: Value -> Outcome)
    ensures EffectWeight(Launch(n, end, tgt, deliver)) < Sum(n.cells, CellWeight) + 21
  {
    NewCellWeight(n.cells, Fresh(true));
    var inner := |n.cells|;
    RelayWeight(inner, tgt, deliver);
    PairWeight(Exchange(inner, end), Final(inner));
    PairWeight(Chain(inner, [Relay(tgt, deliver), RelayError(tgt)]), Final(inner));
    SumOne([Exchange(inner, end), Final(inner)], ThreadWeight);
  }

  lemma LaunchRejectedWeight(n: Net, err: Error, tgt: nat, deliver: Value -> Outcome)
    ensures EffectWeight(LaunchRejected(n, err, tgt, deliver)) < Sum(n.cells, CellWeight) + 21
  {
    NewCellWeight(n.cells, Fresh(false));
    var inner := |n.cells|;
    RelayWeight(inner, tgt, deliver);
    PairWeight(Flag(inner, err), Chain(inner, [Relay(tgt, deliver), RelayError(tgt)]));
  }

  lemma RelayWeight(inner: nat, tgt: nat, deliver: Value -> Outcome)
    ensures Weight(Chain(inner, [Relay(tgt, deliver), RelayError(tgt)])) == 17
  {
    SumTwo(Relay(tgt, deliver), RelayError(tgt), LinkWeight);
  }

  lemma PairWeight(a: Action, b: Action)
    ensures ThreadWeight([a]) == Weight(a)
    ensures ThreadWeight([a, b]) == Weight(a) + Weight(b)
  {
    SumOne(a, Weight);
    SumTwo(a, b, Weight);
  }

  /** A synchronous branch costs a call of a handle, an async one at most a launch. */
  lemma CarryWeight(n: Net, m: Move, tgt: nat, bound: nat)
    requires bound == if m.Follow? || m.FollowRejected? then 21 else 4
    ensures EffectWeight(Carry(n, m, tgt)) < Sum(n.cells, CellWeight) + bound
  {
    match m
    case CallResolve(v) => PairWeight(Exchange(tgt, Resolved(v)), Final(tgt));
    case CallReject(err) => PairWeight(Flag(tgt, err), Final(tgt));
    case Follow(end, deliver) => LaunchWeight(n, end, tgt, deliver);
    case FollowRejected(err, deliver) => LaunchRejectedWeight(n, err, tgt, deliver);
    case Become(end) => PairWeight(Exchange(tgt, end), Final(tgt));
  }

  lemma ResumeWeight(n: Net, k: Cont)
    requires ActionOk(n, Resume(k)) && |n.cells| == |n.defs|
    ensures EffectWeight(Perform(n, Resume(k))) < Sum(n.cells, CellWeight) + Weight(Resume(k))
  {
    if (k.Step? || k.Branch?) && UserOp(k.op) {
      UserWeight(n, k);
    } else {
      InternalWeight(n, k);
    }
  }

  lemma UserWeight(n: Net, k: Cont)
    requires DoneAt(n, k.src) && (k.Step? || k.Branch?) && UserOp(k.op)
    ensures EffectWeight(Carry(n, MoveOf(n.cells[k.src], k), k.tgt)) < Sum(n.cells, CellWeight) + OpWeight(k.op)
  {
    var c := n.cells[k.src];
    var m := MoveOf(c, k);
    MoveKinds(k.op, c.exception, c.value);
    CarryWeight(n, m, k.tgt, if m.Follow? || m.FollowRejected? then 21 else 4);
  }

  lemma InternalWeight(n: Net, k: Cont)
    requires DoneAt(n, k.src) && (k.Step? || k.Branch? ==> !UserOp(k.op)) && (k.AllAt? ==> k.pos < |k.inputs|)
    ensures EffectWeight(ResumeEffect(n, k)) < Sum(n.cells, CellWeight) + ContWeight(k)
  {
    var e := ResumeEffect(n, k);
    if k.AllAt? && OutAt(n, k.src).Rejected? {
      PairWeight(Exchange(k.tgt, OutAt(n, k.src)), Final(k.tgt));
    } else {
      PairWeight(e.front[0], e.front[0]);
    }
  }

  lemma AwaiterAdded(a: seq<Awaiter<Cont>>, w: Awaiter<Cont>)
    ensures Sum(a + [w], AwaiterWeight) == Sum(a, AwaiterWeight) + 1 + ContWeight(w.k)
  {
    SumAppend(a, [w], AwaiterWeight);
    SumOne(w, AwaiterWeight);
  }

  lemma AttachWeight(n: Net, src: nat, op: Op, next: Action)
    requires src < |n.cells|
    ensures EffectWeight(Attach(n, src, op, [next])) <= Sum(n.cells, CellWeight) + 1 + OpWeight(op) + Weight(next)
  {
    var t := |n.cells|;
    var e := Attach(n, src, op, [next]);
    NewCellWeight(n.cells, Fresh(false));
    NewCellWeight(n.cells, Fresh(true));
    if !IsDone(n.cells[src]) {
      var c := AwaitCallback(n.cells[src], Step(src, op, t));
      SumUpdate(n.cells, src, c, CellWeight);
      NewCellWeight(n.cells[src := c], Fresh(false));
      AwaiterAdded(n.cells[src].awaiters, Callback(Step(src, op, t), n.cells[src].useCount + 1));
      PairWeight(next, next);
    } else if Becomes(n.cells[src], op) {
      var o := DoneMove(op, n.cells[src].exception, n.cells[src].value).end;
      PairWeight(Exchange(t, o), Final(t));
      PairWeight(next, next);
      SumOne([Exchange(t, o), Final(t)], ThreadWeight);
    } else {
      assert e.front == [e.front[0], next];
      PairWeight(e.front[0], next);
    }
  }

  lemma RegisterWeight(n: Net, p: nat, w: Awaiter<Cont>, c: Cell<Cont>)
    requires p < |n.cells| && c.awaiters == n.cells[p].awaiters + [w]
    ensures Sum(n.cells[p := c], CellWeight) == Sum(n.cells, CellWeight) + 1 + ContWeight(w.k)
  {
    SumUpdate(n.cells, p, c, CellWeight);
    AwaiterAdded(n.cells[p].awaiters, w);
  }

  lemma CountWeight(n: Net, input: nat)
    requires |n.cells| == |n.defs| && ActionOk(n, CountRace(input))
    ensures EffectWeight(Perform(n, CountRace(input))) < Sum(n.cells, CellWeight) + 1
  {
    SumUpdate(n.cells, input, CountUse(n.cells[input]), CellWeight);
  }

  lemma LoopWeight(n: Net, a: Action)
    requires |n.cells| == |n.defs| && ActionOk(n, a) && a.RaceLoop?
    ensures EffectWeight(Perform(n, a)) < Sum(n.cells, CellWeight) + Weight(a)
  {
    if a.rest != [] {
      PairWeight(Perform(n, a).front[0], RaceLoop(a.cur, a.rest[1..], a.layer));
    }
  }

  lemma TryWeight(n: Net, a: Action)
    requires |n.cells| == |n.defs| && ActionOk(n, a) && a.RaceTry?
    ensures EffectWeight(Perform(n, a)) < Sum(n.cells, CellWeight) + Weight(a)
  {
    var c := n.cells[a.e.input];
    var k := RaceWin(a.e.input, a.e.inject, a.layer);
    PairWeight(Perform(n, a).front[0], RaceLoop(a.cur, a.rest, a.layer));
    if !IsDone(c) {
      RegisterWeight(n, a.e.input, Callback(k, c.useCount + 1), AwaitCallback(c, k));
    }
  }

  lemma AllWeight(n: Net, inputs: seq<nat>, pos: nat, results: seq<Value>, tgt: nat)
    requires |n.cells| == |n.defs| && ActionOk(n, AllLoop(inputs, pos, results, tgt))
    ensures EffectWeight(Perform(n, AllLoop(inputs, pos, results, tgt)))
            < Sum(n.cells, CellWeight) + Weight(AllLoop(inputs, pos, results, tgt))
  {
    if pos == |inputs| {
      PairWeight(Exchange(tgt, Resolved(Vector(results))), Final(tgt));
    } else {
      var p := inputs[pos];
      var k := AllAt(p, inputs, pos, results, tgt);
      PairWeight(Resume(k), Resume(k));
      if !IsDone(n.cells[p]) {
        RegisterWeight(n, p, Coroutine(k, n.cells[p].useCount + 1), AwaitCoroutine(n.cells[p], k));
      }
    }
  }

  lemma HandleWeight(n: Net, a: Action)
    requires |n.cells| == |n.defs| && ActionOk(n, a) && (a.Flag? || a.Exchange?)
    ensures EffectWeight(Perform(n, a)) < Sum(n.cells, CellWeight) + Weight(a)
  {
    if a.Flag? {
      PairWeight(Exchange(a.t, Rejected(a.err)), Final(a.t));
    } else {
      SumUpdate(n.cells, a.t, Claim(n.cells[a.t]), CellWeight);
      PairWeight(Store(a.t, a.o), Final(a.t));
    }
  }

  lemma RelaySettleWeight(n: Net, child: nat, o: Outcome, tgt: nat)
    requires |n.cells| == |n.defs| && ActionOk(n, RelaySettle(child, o, tgt))
    ensures EffectWeight(Perform(n, RelaySettle(child, o, tgt))) < Sum(n.cells, CellWeight) + 5
  {
    SumUpdate(n.cells, child, Claim(n.cells[child]), CellWeight);
    PairWeight(Exchange(tgt, Resolved(Void)), Final(tgt));
    PairWeight(Store(child, o), Exchange(tgt, Resolved(Void)));
    PairWeight(Exchange(child, o), Exchange(tgt, Resolved(Void)));
  }

  lemma UnhookWeight(n: Net, input: nat, id: nat, tgt: nat, o: Outcome)
    requires |n.cells| == |n.defs| && ActionOk(n, UnhookThen(input, id, tgt, o))
    ensures EffectWeight(Perform(n, UnhookThen(input, id, tgt, o))) < Sum(n.cells, CellWeight) + 4
  {
    SumUpdate(n.cells, input, UnAwait(n.cells[input], id), CellWeight);
    WithoutWeight(n.cells[input].awaiters, id);
    PairWeight(Handle(tgt, o), Final(tgt));
  }

  lemma ChainWeight(n: Net, src: nat, ops: seq<Op>)
    requires |n.cells| == |n.defs| && ActionOk(n, Chain(src, ops))
    ensures EffectWeight(Perform(n, Chain(src, ops))) < Sum(n.cells, CellWeight) + Weight(Chain(src, ops))
  {
    if ops != [] {
      AttachWeight(n, src, ops[0], Chain(|n.cells|, ops[1..]));
    }
  }

  lemma RaceLinkWeight(n: Net, a: Action)
    requires |n.cells| == |n.defs| && ActionOk(n, a) && a.RaceLink?
    ensures EffectWeight(Perform(n, a)) < Sum(n.cells, CellWeight) + Weight(a)
  {
    AttachWeight(n, a.cur, Unhook(a.input, a.id, a.layer), RaceLoop(|n.cells|, a.rest, a.layer));
  }

  /** Every section does strictly less than it leaves. */
  lemma PerformWeight(n: Net, a: Action)
    requires |n.cells| == |n.defs| && ActionOk(n, a)
    ensures EffectWeight(Perform(n, a)) < Sum(n.cells, CellWeight) + Weight(a)
  {
    match a
    case Flag(_, _) => HandleWeight(n, a);
    case Exchange(_, _) => HandleWeight(n, a);
    case Store(t, o) => DrainWeight(n, t, StoreOutcome(n.cells[t], o));
    case Final(t) => DrainWeight(n, t, FinalSuspend(n.cells[t]));
    case Resume(k) => ResumeWeight(n, k);
    case Chain(src, ops) => ChainWeight(n, src, ops);
    case RaceLink(_, _, _, _, _) => RaceLinkWeight(n, a);
    case RelaySettle(child, o, tgt) => RelaySettleWeight(n, child, o, tgt);
    case UnhookThen(input, id, tgt, o) => UnhookWeight(n, input, id, tgt, o);
    case AllLoop(inputs, pos, results, tgt) => AllWeight(n, inputs, pos, results, tgt);
    case CountRace(input) => CountWeight(n, input);
    case RaceLoop(_, _, _) => LoopWeight(n, a);
    case RaceTry(_, _, _, _) => TryWeight(n, a);
  }

  lemma ExecWeight(s: Sys, i: nat)
    requires SysOk(s) && Runnable(s, i)
    ensures Total(Exec(s, i)) < Total(s)
  {
    var th := s.threads[i];
    assert th[0] in th;
    var e := Perform(s.net, th[0]);
    PerformWeight(s.net, th[0]);
    SumAppend(e.front, th[1..], Weight);
    SumUpdate(s.threads, i, e.front + th[1..], ThreadWeight);
    SumAppend(s.threads[i := e.front + th[1..]], e.spawned, ThreadWeight);
  }
}
