/** Nothing is forgotten: whatever still has to happen to a cell is queued in a thread or
    registered as an awaiter, in every reachable state. */
module GraphProgress {
  import opened Values
  import opened Cells
  import opened Operators
  import opened Graph
  import opened GraphSafety
  import opened GraphRuns

  /** What the library owes a cell: to be settled by its continuation, to be stored once
      claimed, to have its coroutine end, to be claimed once a rejection is past the flag,
      and for a race, to hear from each participant. */
  datatype Duty = Settles(t: nat) | Stores(t: nat) | Ends(t: nat) | Passes(t: nat) | Enters(layer: nat, e: Entry)

  ghost predicate Owed(n: Net, d: Duty) {
    match d
    case Settles(t) =>
      t < |n.cells| == |n.defs| && !n.cells[t].claimed && !n.defs[t].Root? && !n.defs[t].Contest?
    case Stores(t) => t < |n.cells| && n.cells[t].claimed && !IsDone(n.cells[t])
    case Ends(t) => t < |n.cells| == |n.defs| && n.cells[t].running && !n.defs[t].Root?
    case Passes(t) => t < |n.cells| && t in n.flagged && !n.cells[t].claimed
    case Enters(layer, e) => IsEntry(n, layer, e) && layer < |n.cells| && !n.cells[layer].claimed
  }

  /** The cell has been answered by a rejection that is past the flag: further rejections
      are dropped, and the one that passed settles the cell. */
  ghost predicate Flagged(n: Net, d: Duty) {
    match d
    case Settles(t) => t in n.flagged
    case Enters(layer, _) => layer in n.flagged
    case _ => false
  }

  /** The continuation will discharge the duty when it is resumed. */
  ghost predicate ContCarries(k: Cont, d: Duty) {
    match d
    case Settles(t) =>
      || ((k.Step? || k.Branch?) && (k.tgt == t || (k.op.RelayError? && k.op.child == t)))
      || (k.AllAt? && k.tgt == t)
    case Stores(t) => false
    case Passes(t) => false
    case Ends(t) => k.AllAt? && k.tgt == t
    case Enters(layer, e) => k.RaceWin? && k.layer == layer && Entry(k.src, k.inject) == e
  }

  /** The section discharges the duty or passes it on. */
  ghost predicate Carries(a: Action, d: Duty) {
    match a
    case Flag(t, _) => d == Settles(t) || (d.Enters? && d.layer == t)
    case Exchange(t, _) => d == Settles(t) || d == Passes(t) || (d.Enters? && d.layer == t)
    case Store(t, _) => d == Stores(t)
    case Final(t) => d == Ends(t)
    case Resume(k) => ContCarries(k, d)
    case Chain(_, ops) => d.Settles? && ops != [] && ops[|ops| - 1].RelayError? && ops[|ops| - 1].child == d.t
    case RelaySettle(child, _, tgt) => d == Settles(child) || d == Settles(tgt)
    case UnhookThen(_, _, tgt, _) => d == Settles(tgt)
    case CountRace(_) => false
    case RaceLoop(_, rest, layer) => d.Enters? && d.layer == layer && d.e in rest
    case RaceTry(_, e, rest, layer) => d.Enters? && d.layer == layer && (d.e == e || d.e in rest)
    case RaceLink(_, _, _, rest, layer) => d.Enters? && d.layer == layer && d.e in rest
    case AllLoop(_, _, _, tgt) => d == Settles(tgt) || d == Ends(tgt)
  }

  ghost predicate QueuedIn(th: Thread, d: Duty) {
    exists j :: 0 <= j < |th| && Carries(th[j], d)
  }

  ghost predicate Queued(threads: seq<Thread>, d: Duty) {
    exists i :: 0 <= i < |threads| && QueuedIn(threads[i], d)
  }

  ghost predicate Awaited(n: Net, d: Duty) {
    exists u, a :: 0 <= u < |n.cells| && a in n.cells[u].awaiters && ContCarries(a.k, d)
  }

  ghost predicate ProgressOk(s: Sys) {
    forall d :: Owed(s.net, d) ==> Queued(s.threads, d) || Awaited(s.net, d)
  }

  /** After the section, somebody it left behind carries the duty. */
  ghost predicate TakenOver(e: Effect, d: Duty) {
    QueuedIn(e.front, d) || Queued(e.spawned, d) || Awaited(e.net, d)
  }

  lemma InFront(e: Effect, j: nat, d: Duty)
    requires j < |e.front| && Carries(e.front[j], d)
    ensures TakenOver(e, d)
  {
  }

  lemma InSpawned(e: Effect, i: nat, j: nat, d: Duty)
    requires i < |e.spawned| && j < |e.spawned[i]| && Carries(e.spawned[i][j], d)
    ensures TakenOver(e, d)
  {
    assert QueuedIn(e.spawned[i], d);
  }

  lemma InAwaiters(e: Effect, u: nat, a: Awaiter<Cont>, d: Duty)
    requires u < |e.net.cells| && a in e.net.cells[u].awaiters && ContCarries(a.k, d)
    ensures TakenOver(e, d)
  {
  }

  // ---------------------------------------------------------------- duties of the running section

  lemma SettleHandover(n: Net, a: Action, d: Duty)
    requires NetOk(n) && ActionOk(n, a) && (a.Exchange? || a.Store? || a.Final?)
    requires a.Store? ==> !DoneAt(n, a.t)
    requires Carries(a, d) || !Owed(n, d)
    requires Owed(Perform(n, a).net, d)
    ensures TakenOver(Perform(n, a), d)
  {
    var e := Perform(n, a);
    if a.Exchange? && !n.cells[a.t].claimed {
      InFront(e, 0, Stores(a.t));
    }
  }

  lemma FlagHandover(n: Net, t: nat, err: Error, d: Duty)
    requires NetOk(n) && ActionOk(n, Flag(t, err)) && !Flagged(n, d)
    requires Carries(Flag(t, err), d) || !Owed(n, d)
    requires Owed(Perform(n, Flag(t, err)).net, d)
    ensures TakenOver(Perform(n, Flag(t, err)), d)
  {
    var e := Perform(n, Flag(t, err));
    if t !in n.flagged {
      assert Carries(e.front[0], d);
      InFront(e, 0, d);
    }
  }

  lemma RelayHandover(n: Net, child: nat, o: Outcome, tgt: nat, d: Duty)
    requires NetOk(n) && ActionOk(n, RelaySettle(child, o, tgt)) && !Flagged(n, d)
    requires Carries(RelaySettle(child, o, tgt), d) || !Owed(n, d)
    requires Owed(Perform(n, RelaySettle(child, o, tgt)).net, d)
    ensures TakenOver(Perform(n, RelaySettle(child, o, tgt)), d)
  {
    var e := Perform(n, RelaySettle(child, o, tgt));
    InFront(e, |e.front| - 1, Settles(tgt));
    if o.Rejected? && child !in n.flagged {
      InFront(e, 0, Settles(child));
      InFront(e, 0, Passes(child));
    } else if o.Resolved? && !n.cells[child].claimed {
      InFront(e, 0, Stores(child));
    }
  }

  lemma LaunchHandover(n: Net, end: Outcome, tgt: nat, deliver: Value -> Outcome, d: Duty)
    requires NetOk(n) && (d == Settles(tgt) || !Owed(n, d)) && Owed(Launch(n, end, tgt, deliver).net, d)
    ensures TakenOver(Launch(n, end, tgt, deliver), d)
  {
    var e := Launch(n, end, tgt, deliver);
    var inner := |n.cells|;
    InFront(e, 0, Settles(tgt));
    InSpawned(e, 0, 0, Settles(inner));
    InSpawned(e, 0, 1, Ends(inner));
    if d != Settles(tgt) {
      NewDuty(n, e.net, d);
    }
  }

  lemma LaunchRejectedHandover(n: Net, err: Error, tgt: nat, deliver: Value -> Outcome, d: Duty)
    requires NetOk(n) && (d == Settles(tgt) || !Owed(n, d)) && Owed(LaunchRejected(n, err, tgt, deliver).net, d)
    ensures TakenOver(LaunchRejected(n, err, tgt, deliver), d)
  {
    var e := LaunchRejected(n, err, tgt, deliver);
    InFront(e, 1, Settles(tgt));
    InFront(e, 0, Settles(|n.cells|));
    if d != Settles(tgt) {
      NewDuty(n, e.net, d);
    }
  }

  lemma CarryHandover(n: Net, m: Move, tgt: nat, d: Duty)
    requires NetOk(n) && (d == Settles(tgt) || !Owed(n, d)) && Owed(Carry(n, m, tgt).net, d)
    ensures TakenOver(Carry(n, m, tgt), d)
  {
    var e := Carry(n, m, tgt);
    match m
    case Follow(end, deliver) => LaunchHandover(n, end, tgt, deliver, d);
    case FollowRejected(err, deliver) => LaunchRejectedHandover(n, err, tgt, deliver, d);
    case _ => InFront(e, 0, Settles(tgt));
  }

  /** Creating a promise owes something only to that promise. */
  lemma NewDuty(n: Net, n': Net, d: Duty)
    requires |n.cells| == |n.defs| && |n'.cells| == |n'.defs| == |n.cells| + 1
    requires forall t :: 0 <= t < |n.cells| ==> n'.defs[t] == n.defs[t]
    requires forall t :: 0 <= t < |n.cells| ==> n'.cells[t].claimed == n.cells[t].claimed
    requires forall t :: 0 <= t < |n.cells| ==> n'.cells[t].running == n.cells[t].running
    requires forall t :: 0 <= t < |n.cells| ==> IsDone(n'.cells[t]) == IsDone(n.cells[t])
    requires !n'.cells[|n.cells|].claimed
    requires n'.flagged == n.flagged && forall t :: t in n.flagged ==> t < |n.cells|
    requires Owed(n', d) && !Owed(n, d)
    ensures !d.Stores? && !d.Passes? && (if d.Enters? then d.layer else d.t) == |n.cells|
  {
  }

  lemma ForwardHandover(n: Net, k: Cont, d: Duty)
    requires NetOk(n) && ActionOk(n, Resume(k)) && (k.Step? || k.Branch?) && !UserOp(k.op) && !Flagged(n, d)
    requires ContCarries(k, d) || !Owed(n, d)
    requires Owed(Forward(n, k.src, k.op, k.tgt).net, d)
    ensures TakenOver(Forward(n, k.src, k.op, k.tgt), d)
  {
    var e := Forward(n, k.src, k.op, k.tgt);
    var o := OutAt(n, k.src);
    InFront(e, 0, Settles(k.tgt));
    if k.op.RelayError? {
      assert NodeOk(n, k.tgt) && NodeOk(n, k.src);
      assert o.Resolved? ==> AnsweredAt(n, k.op.child);
      assert o.Rejected? ==> Carries(e.front[0], Settles(k.op.child));
    }
  }

  lemma ResumeHandover(n: Net, k: Cont, d: Duty)
    requires NetOk(n) && ActionOk(n, Resume(k)) && !Flagged(n, d)
    requires ContCarries(k, d) || !Owed(n, d)
    requires Owed(Perform(n, Resume(k)).net, d)
    ensures TakenOver(Perform(n, Resume(k)), d)
  {
    var e := Perform(n, Resume(k));
    var c := n.cells[k.src];
    if k.Step? || k.Branch? {
      if UserOp(k.op) {
        CarryHandover(n, MoveOf(c, k), k.tgt, d);
      } else {
        ForwardHandover(n, k, d);
      }
    } else if k.RaceWin? {
      InFront(e, 0, Enters(k.layer, Entry(k.src, k.inject)));
    } else {
      InFront(e, 0, Settles(k.tgt));
      InFront(e, |e.front| - 1, Ends(k.tgt));
    }
  }

  ghost predicate Sized(n: Net) {
    |n.cells| == |n.defs| && forall t :: t in n.flagged ==> t < |n.cells|
  }

  lemma AttachedPending(n: Net, src: nat, op: Op, next: Action, d: Duty)
    requires Sized(n) && src < |n.cells| && !IsDone(n.cells[src])
    requires Owed(Attach(n, src, op, [next]).net, d)
    requires !Owed(n, d) || Carries(next, d) || (op.RelayError? && d == Settles(op.child))
    ensures TakenOver(Attach(n, src, op, [next]), d)
  {
    var e := Attach(n, src, op, [next]);
    var k := Step(src, op, |n.cells|);
    var a := Callback(k, n.cells[src].useCount + 1);
    assert e.net.cells[src].awaiters == n.cells[src].awaiters + [a];
    assert a in e.net.cells[src].awaiters;
    if ContCarries(k, d) {
      InAwaiters(e, src, a, d);
    } else if Carries(next, d) {
      InFront(e, 0, d);
    } else {
      NewDuty(n, e.net, d);
    }
  }

  lemma AttachedDone(n: Net, src: nat, op: Op, next: Action, d: Duty)
    requires Sized(n) && src < |n.cells| && IsDone(n.cells[src])
    requires Owed(Attach(n, src, op, [next]).net, d)
    requires !Owed(n, d) || Carries(next, d) || (op.RelayError? && d == Settles(op.child))
    ensures TakenOver(Attach(n, src, op, [next]), d)
  {
    var t := |n.cells|;
    var e := Attach(n, src, op, [next]);
    if Carries(next, d) {
      InFront(e, |e.front| - 1, d);
    } else if Becomes(n.cells[src], op) {
      NewDuty(n, e.net, d);
      InSpawned(e, 0, 0, Settles(t));
      InSpawned(e, 0, 1, Ends(t));
    } else if ContCarries(Branch(src, op, t), d) {
      InFront(e, 0, d);
    } else {
      NewDuty(n, e.net, d);
    }
  }

  /** The derived promise and, for the internal Catch, the promise it reports to. */
  lemma AttachHandover(n: Net, src: nat, op: Op, next: Action, d: Duty)
    requires Sized(n) && src < |n.cells|
    requires Owed(Attach(n, src, op, [next]).net, d)
    requires !Owed(n, d) || Carries(next, d) || (op.RelayError? && d == Settles(op.child))
    ensures TakenOver(Attach(n, src, op, [next]), d)
  {
    if IsDone(n.cells[src]) {
      AttachedDone(n, src, op, next, d);
    } else {
      AttachedPending(n, src, op, next, d);
    }
  }

  /** The fold passes the remaining participants on; if what it has built is settled the race
      is claimed and owes nothing to them. */
  lemma LoopHandover(n: Net, a: Action, d: Duty)
    requires NetOk(n) && ActionOk(n, a) && a.RaceLoop?
    requires Carries(a, d) || !Owed(n, d)
    requires Owed(Perform(n, a).net, d)
    ensures TakenOver(Perform(n, a), d)
  {
    assert NodeOk(n, a.layer);
    if a.rest != [] {
      assert a.rest == [a.rest[0]] + a.rest[1..];
      if IsDone(n.cells[a.cur]) {
        LayerOutcome(n, a.cur, a.layer);
      } else if Carries(a, d) {
        InFront(Perform(n, a), 0, d);
      }
    }
  }

  lemma TryHandover(n: Net, a: Action, d: Duty)
    requires |n.cells| == |n.defs| && ActionOk(n, a) && a.RaceTry?
    requires Carries(a, d) || !Owed(n, d)
    requires Owed(Perform(n, a).net, d)
    ensures TakenOver(Perform(n, a), d)
  {
    var e, input := Perform(n, a), a.e.input;
    if Carries(a, d) {
      if d.e in a.rest {
        InFront(e, |e.front| - 1, d);
      } else if IsDone(n.cells[input]) {
        InFront(e, 0, d);
      } else {
        var w := Callback(RaceWin(input, a.e.inject, a.layer), n.cells[input].useCount + 1);
        assert e.net.cells[input].awaiters == n.cells[input].awaiters + [w];
        assert w in e.net.cells[input].awaiters;
        InAwaiters(e, input, w, d);
      }
    }
  }

  lemma AllHandover(n: Net, inputs: seq<nat>, pos: nat, results: seq<Value>, tgt: nat, d: Duty)
    requires NetOk(n) && ActionOk(n, AllLoop(inputs, pos, results, tgt))
    requires Carries(AllLoop(inputs, pos, results, tgt), d) || !Owed(n, d)
    requires Owed(Perform(n, AllLoop(inputs, pos, results, tgt)).net, d)
    ensures TakenOver(Perform(n, AllLoop(inputs, pos, results, tgt)), d)
  {
    var e := Perform(n, AllLoop(inputs, pos, results, tgt));
    if pos == |inputs| {
      InFront(e, 0, Settles(tgt));
      InFront(e, 1, Ends(tgt));
    } else {
      var p := inputs[pos];
      var k := AllAt(p, inputs, pos, results, tgt);
      if IsDone(n.cells[p]) {
        InFront(e, 0, Settles(tgt));
        InFront(e, 0, Ends(tgt));
      } else {
        var w := Coroutine(k, n.cells[p].useCount + 1);
        assert e.net.cells[p].awaiters == n.cells[p].awaiters + [w];
        assert w in e.net.cells[p].awaiters;
        if Carries(AllLoop(inputs, pos, results, tgt), d) {
          InAwaiters(e, p, w, d);
        }
      }
    }
  }

  lemma LinkHandover(n: Net, a: Action, d: Duty)
    requires NetOk(n) && ActionOk(n, a) && a.RaceLink?
    requires Carries(a, d) || !Owed(n, d)
    requires Owed(Perform(n, a).net, d)
    ensures TakenOver(Perform(n, a), d)
  {
    var e := Perform(n, a);
    var next := RaceLoop(|n.cells|, a.rest, a.layer);
    var e' := Attach(n, a.cur, Unhook(a.input, a.id, a.layer), [next]);
    assert Owed(e'.net, d);
    AttachHandover(n, a.cur, Unhook(a.input, a.id, a.layer), next, d);
    if Awaited(e'.net, d) {
      assert Awaited(e.net, d);
    }
  }

  lemma BuildHandover(n: Net, a: Action, d: Duty)
    requires NetOk(n) && ActionOk(n, a) && !Flagged(n, d)
    requires a.Chain? || a.RaceLink? || a.CountRace? || a.RaceLoop? || a.RaceTry?
    requires Carries(a, d) || !Owed(n, d)
    requires Owed(Perform(n, a).net, d)
    ensures TakenOver(Perform(n, a), d)
  {
    match a
    case Chain(src, ops) =>
      if ops != [] {
        AttachHandover(n, src, ops[0], Chain(|n.cells|, ops[1..]), d);
      }
    case RaceLink(_, _, _, _, _) => LinkHandover(n, a, d);
    case CountRace(_) =>
    case RaceLoop(_, _, _) => LoopHandover(n, a, d);
    case RaceTry(_, _, _, _) => TryHandover(n, a, d);
  }

  /** A section discharges what it carries or passes it on, and everything it newly owes is
      taken care of. */
  lemma Handover(n: Net, a: Action, d: Duty)
    requires NetOk(n) && ActionOk(n, a) && (a.Store? ==> !DoneAt(n, a.t)) && !Flagged(n, d)
    requires Carries(a, d) || !Owed(n, d)
    requires Owed(Perform(n, a).net, d)
    ensures TakenOver(Perform(n, a), d)
  {
    match a
    case Flag(t, err) => FlagHandover(n, t, err, d);
    case RelaySettle(child, o, tgt) => RelayHandover(n, child, o, tgt, d);
    case Resume(k) => ResumeHandover(n, k, d);
    case UnhookThen(_, _, tgt, _) => InFront(Perform(n, a), 0, Settles(tgt));
    case AllLoop(inputs, pos, results, tgt) => AllHandover(n, inputs, pos, results, tgt, d);
    case Exchange(_, _) => SettleHandover(n, a, d);
    case Store(_, _) => SettleHandover(n, a, d);
    case Final(_) => SettleHandover(n, a, d);
    case _ => BuildHandover(n, a, d);
  }

  // ---------------------------------------------------------------- duties waiting in cells

  /** An awaiter stays registered, is dispatched by this section, or was a race's awaiter
      taken off after the race was decided. */
  lemma AwaiterKept(n: Net, a: Action, u: nat, w: Awaiter<Cont>, d: Duty)
    requires NetOk(n) && ActionOk(n, a) && (a.Store? ==> !DoneAt(n, a.t))
    requires u < |n.cells| && w in n.cells[u].awaiters && ContCarries(w.k, d)
    requires Owed(n, d) && Owed(Perform(n, a).net, d)
    ensures TakenOver(Perform(n, a), d)
  {
    PerformOk(n, a);
    var e := Perform(n, a);
    if w in e.net.cells[u].awaiters {
      InAwaiters(e, u, w, d);
    } else if a.UnhookThen? {
      UnhookedDecided(n, a, u, w);
    } else {
      var i := Dispatched(n, a, u, w);
      InFront(e, i, d);
    }
  }

  /** Apart from Unhook, an awaiter leaves its list only to be dispatched. */
  lemma Dispatched(n: Net, a: Action, u: nat, w: Awaiter<Cont>) returns (i: nat)
    requires |n.cells| == |n.defs| && ActionOk(n, a) && !a.UnhookThen?
    requires u < |n.cells| && w in n.cells[u].awaiters
    requires u < |Perform(n, a).net.cells| && w !in Perform(n, a).net.cells[u].awaiters
    ensures i < |Perform(n, a).front| && Perform(n, a).front[i] == Resume(w.k)
  {
    i :| 0 <= i < |n.cells[u].awaiters| && n.cells[u].awaiters[i] == w;
    if a.Chain? || a.RaceLink? {
      AttachKeeps(n, a, u, w);
    } else if a.Resume? {
      ResumeKeepsAwaiter(n, a.k, u, w);
    } else if !a.Store? && !a.Final? {
      OthersKeepAwaiter(n, a, u, w);
    }
  }

  lemma AttachKeeps(n: Net, a: Action, u: nat, w: Awaiter<Cont>)
    requires |n.cells| == |n.defs| && ActionOk(n, a) && (a.Chain? || a.RaceLink?)
    requires u < |n.cells| && w in n.cells[u].awaiters
    ensures u < |Perform(n, a).net.cells| && w in Perform(n, a).net.cells[u].awaiters
  {
  }

  lemma ResumeKeepsAwaiter(n: Net, k: Cont, u: nat, w: Awaiter<Cont>)
    requires DoneAt(n, k.src) && u < |n.cells| && w in n.cells[u].awaiters
    ensures u < |ResumeEffect(n, k).net.cells| && w in ResumeEffect(n, k).net.cells[u].awaiters
  {
  }

  lemma OthersKeepAwaiter(n: Net, a: Action, u: nat, w: Awaiter<Cont>)
    requires |n.cells| == |n.defs| && ActionOk(n, a) && !a.Chain? && !a.RaceLink? && !a.Resume?
    requires !a.Store? && !a.Final? && !a.UnhookThen? && u < |n.cells| && w in n.cells[u].awaiters
    ensures u < |Perform(n, a).net.cells| && w in Perform(n, a).net.cells[u].awaiters
  {
  }

  lemma UnhookedDecided(n: Net, a: Action, u: nat, w: Awaiter<Cont>)
    requires NetOk(n) && ActionOk(n, a) && a.UnhookThen?
    requires u < |n.cells| && w in n.cells[u].awaiters && w !in Perform(n, a).net.cells[u].awaiters
    ensures w.k.RaceWin? && ClaimedAt(n, w.k.layer)
  {
    assert NodeOk(n, a.tgt) && NodeOk(n, u);
    WithoutMembers(n.cells[u].awaiters, a.id);
    var src, layer := n.defs[a.tgt].src, n.defs[a.tgt].op.layer;
    LayerOutcome(n, src, layer);
    assert NodeOk(n, layer);
  }

  // ---------------------------------------------------------------- whole steps

  lemma KeptQueue(s: Sys, i: nat, j: nat, k: nat, d: Duty)
    requires SysOk(s) && Runnable(s, i)
    requires j < |s.threads| && k < |s.threads[j]| && Carries(s.threads[j][k], d) && (j != i || k > 0)
    ensures Queued(Exec(s, i).threads, d)
  {
    var s' := Exec(s, i);
    var f := Perform(s.net, s.threads[i][0]).front;
    if j == i {
      assert s'.threads[i] == f + s.threads[i][1..];
      assert s'.threads[i][|f| + k - 1] == s.threads[i][k];
    } else {
      assert s'.threads[j] == s.threads[j];
    }
    assert QueuedIn(s'.threads[j], d);
  }

  lemma TakenOverQueued(s: Sys, i: nat, d: Duty)
    requires SysOk(s) && Runnable(s, i) && TakenOver(Perform(s.net, s.threads[i][0]), d)
    ensures Queued(Exec(s, i).threads, d) || Awaited(Exec(s, i).net, d)
  {
    var s' := Exec(s, i);
    var e := Perform(s.net, s.threads[i][0]);
    if QueuedIn(e.front, d) {
      var j :| 0 <= j < |e.front| && Carries(e.front[j], d);
      assert s'.threads[i][j] == e.front[j];
      assert QueuedIn(s'.threads[i], d);
    } else if Queued(e.spawned, d) {
      var j :| 0 <= j < |e.spawned| && QueuedIn(e.spawned[j], d);
      assert s'.threads[|s.threads| + j] == e.spawned[j];
    }
  }

  /** A rejection may be dropped at the flag only because another one is past it: as long as
      the cell is unclaimed, that call's exchange is queued. */
  lemma FlaggedDuty(s: Sys, i: nat, d: Duty)
    requires SysOk(s) && ProgressOk(s) && Runnable(s, i) && Owed(Exec(s, i).net, d) && Flagged(s.net, d)
    ensures Queued(Exec(s, i).threads, d)
  {
    var t := if d.Enters? then d.layer else d.t;
    ExecOk(s, i);
    DoneGrows(s.net, Exec(s, i).net, t);
    var j, k := PassingCall(s, t);
    assert s.threads[i][0] in s.threads[i];
    KeptQueue(s, i, j, k, d);
  }

  /** The rejection that is past the flag has its exchange queued. */
  lemma PassingCall(s: Sys, t: nat) returns (j: nat, k: nat)
    requires ProgressOk(s) && Owed(s.net, Passes(t))
    ensures j < |s.threads| && k < |s.threads[j]| && s.threads[j][k].Exchange? && s.threads[j][k].t == t
  {
    j :| 0 <= j < |s.threads| && QueuedIn(s.threads[j], Passes(t));
    k :| 0 <= k < |s.threads[j]| && Carries(s.threads[j][k], Passes(t));
  }

  lemma ExecDuty(s: Sys, i: nat, d: Duty)
    requires SysOk(s) && ProgressOk(s) && Runnable(s, i) && Owed(Exec(s, i).net, d)
    ensures Queued(Exec(s, i).threads, d) || Awaited(Exec(s, i).net, d)
  {
    var a := s.threads[i][0];
    assert a in s.threads[i];
    if Flagged(s.net, d) {
      FlaggedDuty(s, i, d);
    } else if Carries(a, d) || !Owed(s.net, d) {
      Handover(s.net, a, d);
      TakenOverQueued(s, i, d);
    } else if Queued(s.threads, d) {
      var j :| 0 <= j < |s.threads| && QueuedIn(s.threads[j], d);
      var k :| 0 <= k < |s.threads[j]| && Carries(s.threads[j][k], d);
      KeptQueue(s, i, j, k, d);
    } else {
      var u, w :| 0 <= u < |s.net.cells| && w in s.net.cells[u].awaiters && ContCarries(w.k, d);
      AwaiterKept(s.net, a, u, w, d);
      TakenOverQueued(s, i, d);
    }
  }

  lemma SpawnDuty(s: Sys, s': Sys, d: Duty)
    requires |s.threads| <= |s'.threads| && (forall i :: 0 <= i < |s.threads| ==> s'.threads[i] == s.threads[i])
    requires |s.net.cells| <= |s'.net.cells|
    requires forall t :: 0 <= t < |s.net.cells| ==> s'.net.cells[t] == s.net.cells[t]
    requires Queued(s.threads, d) || Awaited(s.net, d)
    ensures Queued(s'.threads, d) || Awaited(s'.net, d)
  {
    if Queued(s.threads, d) {
      var i :| 0 <= i < |s.threads| && QueuedIn(s.threads[i], d);
      assert QueuedIn(s'.threads[i], d);
    } else {
      var u, w :| 0 <= u < |s.net.cells| && w in s.net.cells[u].awaiters && ContCarries(w.k, d);
      assert w in s'.net.cells[u].awaiters;
    }
  }

  lemma CallDuty(s: Sys, e: Event, d: Duty)
    requires SysOk(s) && ProgressOk(s) && Enabled(s, e) && !e.Run? && Owed(Next(s, e).net, d)
    ensures Queued(Next(s, e).threads, d) || Awaited(Next(s, e).net, d)
  {
    var s' := Next(s, e);
    if Owed(s.net, d) {
      SpawnDuty(s, s', d);
    } else {
      NewDuty(s.net, s'.net, d);
      var i := |s.threads|;
      assert Carries(s'.threads[i][0], d);
      assert QueuedIn(s'.threads[i], d);
    }
  }

  /** No event loses track of a duty. */
  lemma NextProgress(s: Sys, e: Event)
    requires SysOk(s) && ProgressOk(s) && Enabled(s, e)
    ensures ProgressOk(Next(s, e))
  {
    forall d | Owed(Next(s, e).net, d)
      ensures Queued(Next(s, e).threads, d) || Awaited(Next(s, e).net, d)
    {
      if e.Run? {
        ExecDuty(s, e.i, d);
      } else {
        CallDuty(s, e, d);
      }
    }
  }

  lemma {:induction false} RunProgress(s: Sys, events: seq<Event>)
    requires SysOk(s) && ProgressOk(s) && IsRun(s, events)
    ensures ProgressOk(Last(s, events))
    decreases |events|
  {
    if events != [] {
      NextOk(s, events[0]);
      NextProgress(s, events[0]);
      RunProgress(Next(s, events[0]), events[1..]);
    }
  }

  ghost predicate ReachedBy(s: Sys, events: seq<Event>) {
    StartOk();
    IsRun(Start, events) && Last(Start, events) == s
  }

  lemma ReachedOk(s: Sys)
    ensures (exists events :: ReachedBy(s, events)) ==> SysOk(s) && ProgressOk(s)
  {
    if events :| ReachedBy(s, events) {
      StartOk();
      RunOk(Start, events);
      RunProgress(Start, events);
    }
  }

  /** `s` is the state after some run from the empty system: any calls, any number of
      threads, any schedule. */
  ghost predicate Reachable(s: Sys)
    ensures Reachable(s) ==> SysOk(s) && ProgressOk(s)
  {
    ReachedOk(s);
    exists events :: ReachedBy(s, events)
  }

  // ---------------------------------------------------------------- quiescence

  /** No thread has anything left to run. */
  ghost predicate Quiet(s: Sys) {
    forall i :: 0 <= i < |s.threads| ==> s.threads[i] == []
  }

  /** At rest every duty is an awaiter still registered on its source. */
  lemma QuietAwaits(s: Sys, d: Duty) returns (w: Awaiter<Cont>)
    requires SysOk(s) && ProgressOk(s) && Quiet(s) && Owed(s.net, d)
    ensures ContOk(s.net, w.k) && ContCarries(w.k, d) && w in s.net.cells[w.k.src].awaiters
    ensures !Drained(s.net.cells[w.k.src])
  {
    var u, a :| 0 <= u < |s.net.cells| && a in s.net.cells[u].awaiters && ContCarries(a.k, d);
    assert NodeOk(s.net, u);
    w := a;
  }

  /** At rest every claimed promise is settled, and the only coroutines still running are
      the user's and those of All. */
  lemma QuietCells(s: Sys, t: nat)
    requires SysOk(s) && ProgressOk(s) && Quiet(s) && t < |s.net.cells|
    ensures s.net.cells[t].claimed ==> IsDone(s.net.cells[t])
    ensures s.net.cells[t].running ==> s.net.defs[t].Root? || s.net.defs[t].Gather?
    ensures t in s.net.flagged ==> s.net.cells[t].claimed
  {
    if Owed(s.net, Passes(t)) {
      var w := QuietAwaits(s, Passes(t));
    }
    if Owed(s.net, Stores(t)) {
      var w := QuietAwaits(s, Stores(t));
    }
    if Owed(s.net, Ends(t)) {
      var w := QuietAwaits(s, Ends(t));
    }
  }

  lemma QuietBody(s: Sys, t: nat)
    requires SysOk(s) && ProgressOk(s) && Quiet(s) && t < |s.net.cells| && s.net.defs[t].Body?
    ensures Drained(s.net.cells[t])
  {
    QuietCells(s, t);
    if Owed(s.net, Settles(t)) {
      var w := QuietAwaits(s, Settles(t));
      RelayErrorChild(s.net, w.k);
    }
  }

  /** An internal Catch always reports to a promise derived by a user operator. */
  lemma RelayErrorChild(n: Net, k: Cont)
    requires NetOk(n) && ContOk(n, k) && (k.Step? || k.Branch?) && k.op.RelayError?
    ensures k.op.child < |n.defs| && n.defs[k.op.child].Derived? && UserOp(n.defs[k.op.child].op)
    ensures k.src < |n.defs| && n.defs[k.src].Derived?
    ensures n.defs[k.src].op.Relay? && n.defs[k.src].op.child == k.op.child
    ensures n.defs[k.src].src < |n.defs| && n.defs[n.defs[k.src].src].Body?
  {
    assert NodeOk(n, k.tgt);
    assert NodeOk(n, k.src);
    assert OpOk(n, n.defs[k.src].src, n.defs[k.src].op);
  }

  /** What an internal continuation settles is a promise derived by a user's operator. */
  lemma RelayedChild(n: Net, tgt: nat)
    requires NetOk(n) && tgt < |n.defs| && n.defs[tgt].Derived? && (n.defs[tgt].op.Relay? || n.defs[tgt].op.RelayError?)
    ensures n.defs[tgt].op.child < |n.defs| && n.defs[n.defs[tgt].op.child].Derived?
  {
    assert NodeOk(n, tgt);
    assert NodeOk(n, n.defs[tgt].src);
  }

  /** At rest a promise derived from a finished source is itself finished. */
  lemma QuietDerived(s: Sys, t: nat)
    requires SysOk(s) && ProgressOk(s) && Quiet(s) && t < |s.net.cells| && s.net.defs[t].Derived?
    requires s.net.defs[t].src < |s.net.cells| && Drained(s.net.cells[s.net.defs[t].src])
    ensures Drained(s.net.cells[t])
  {
    var n := s.net;
    QuietCells(s, t);
    if Owed(n, Settles(t)) {
      var w := QuietAwaits(s, Settles(t));
      if (w.k.Step? || w.k.Branch?) && w.k.tgt != t {
        RelayErrorChild(n, w.k);
        QuietBody(s, n.defs[w.k.src].src);
        QuietRelay(s, w.k.src);
      }
    }
  }

  lemma QuietRelay(s: Sys, r: nat)
    requires SysOk(s) && ProgressOk(s) && Quiet(s) && r < |s.net.cells|
    requires s.net.defs[r].Derived? && s.net.defs[r].op.Relay?
    requires s.net.defs[r].src < |s.net.cells| && Drained(s.net.cells[s.net.defs[r].src])
    ensures Drained(s.net.cells[r]) && s.net.cells[r].awaiters == []
  {
    var n := s.net;
    QuietCells(s, r);
    assert NodeOk(n, r);
    if Owed(n, Settles(r)) {
      var w := QuietAwaits(s, Settles(r));
      if (w.k.Step? || w.k.Branch?) && w.k.tgt != r {
        RelayErrorChild(n, w.k);
      }
    }
  }

  /** At rest a race with a finished participant is decided. */
  lemma QuietContest(s: Sys, layer: nat, e: Entry)
    requires SysOk(s) && ProgressOk(s) && Quiet(s) && IsEntry(s.net, layer, e)
    requires e.input < |s.net.cells| && Drained(s.net.cells[e.input])
    ensures Drained(s.net.cells[layer])
  {
    var n := s.net;
    QuietCells(s, layer);
    if Owed(n, Enters(layer, e)) {
      var w := QuietAwaits(s, Enters(layer, e));
    }
  }

  /** At rest All is still waiting only for an unfinished input behind resolved ones. */
  lemma QuietGather(s: Sys, t: nat)
    requires SysOk(s) && ProgressOk(s) && Quiet(s) && t < |s.net.cells| && s.net.defs[t].Gather?
    ensures var inputs := s.net.defs[t].inputs;
            || Drained(s.net.cells[t])
            || exists p, vs :: 0 <= p < |inputs| && Collected(s.net, inputs, p, vs)
                               && inputs[p] < |s.net.cells| && !Drained(s.net.cells[inputs[p]])
  {
    var n := s.net;
    QuietCells(s, t);
    if !Drained(n.cells[t]) {
      var d := if n.cells[t].running then Ends(t) else Settles(t);
      var w := QuietAwaits(s, d);
      if (w.k.Step? || w.k.Branch?) && w.k.tgt != t {
        RelayErrorChild(n, w.k);
      }
      assert w.k.AllAt?;
      assert Collected(n, n.defs[t].inputs, w.k.pos, w.k.results);
    }
  }
}
