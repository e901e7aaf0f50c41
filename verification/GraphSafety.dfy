/** Every section of the code keeps the network in order: what is stored is always the
    outcome the semantics allows. */
module GraphSafety {
  import opened Values
  import opened Cells
  import opened Operators
  import opened Graph

  // ---------------------------------------------------------------- growth

  /** A cell only moves forward: claims and outcomes stay, new awaiters have new ids. */
  ghost predicate CellGrows(c: Cell<Cont>, c': Cell<Cont>) {
    && (IsDone(c) ==> IsDone(c') && Out(c') == Out(c))
    && (c.claimed ==> c'.claimed)
    && c.useCount <= c'.useCount
    && (forall a :: a in c'.awaiters ==> a in c.awaiters || a.id > c.useCount)
  }

  ghost predicate Grows(n: Net, n': Net) {
    && |n.cells| == |n.defs| <= |n'.defs| == |n'.cells|
    && (forall t :: 0 <= t < |n.defs| ==> n'.defs[t] == n.defs[t])
    && (forall t :: 0 <= t < |n.cells| ==> CellGrows(n.cells[t], n'.cells[t]))
    && n.flagged <= n'.flagged
  }

  lemma CollectedGrows(n: Net, n': Net, inputs: seq<nat>, k: nat, results: seq<Value>)
    requires Grows(n, n') && Collected(n, inputs, k, results)
    ensures Collected(n', inputs, k, results)
  {
    forall q | 0 <= q < k ensures DoneAt(n', inputs[q]) && OutAt(n', inputs[q]) == Resolved(results[q]) {
      assert DoneAt(n, inputs[q]);
      assert CellGrows(n.cells[inputs[q]], n'.cells[inputs[q]]);
    }
  }

  lemma FailedGrows(n: Net, n': Net, inputs: seq<nat>, k: nat, o: Outcome)
    requires Grows(n, n') && FailedAt(n, inputs, k, o)
    ensures FailedAt(n', inputs, k, o)
  {
    forall q | 0 <= q <= k ensures DoneAt(n', inputs[q]) && OutAt(n', inputs[q]) == OutAt(n, inputs[q]) {
      assert DoneAt(n, inputs[q]);
      assert CellGrows(n.cells[inputs[q]], n'.cells[inputs[q]]);
    }
  }

  lemma DoneGrows(n: Net, n': Net, t: nat)
    requires Grows(n, n')
    ensures DoneAt(n, t) ==> DoneAt(n', t) && OutAt(n', t) == OutAt(n, t)
    ensures ClaimedAt(n, t) ==> ClaimedAt(n', t)
    ensures AnsweredAt(n, t) ==> AnsweredAt(n', t)
  {
    if t < |n.cells| {
      assert CellGrows(n.cells[t], n'.cells[t]);
    }
  }

  lemma HookGrows(n: Net, n': Net, input: nat, id: nat, layer: nat)
    requires Grows(n, n')
    ensures Unhooked(n, input, id) ==> Unhooked(n', input, id)
    ensures HookedBy(n, input, id, layer) ==> HookedBy(n', input, id, layer)
  {
    if input < |n.cells| {
      assert CellGrows(n.cells[input], n'.cells[input]);
    }
  }

  lemma OpDoneGrows(n: Net, n': Net, op: Op, o: Outcome)
    requires Grows(n, n') && OpDone(n, op, o)
    ensures OpDone(n', op, o)
  {
    match op
    case Relay(child, _) => DoneGrows(n, n', child);
    case RelayError(child) => DoneGrows(n, n', child);
    case Unhook(input, id, layer) =>
      HookGrows(n, n', input, id, layer);
      DoneGrows(n, n', layer);
    case _ =>
  }

  lemma ValidGrows(n: Net, n': Net, t: nat, o: Outcome)
    requires Grows(n, n') && t < |n.defs| && Valid(n, t, o)
    ensures Valid(n', t, o)
  {
    assert n'.defs[t] == n.defs[t];
    match n.defs[t]
    case Derived(src, op) =>
      DoneGrows(n, n', src);
      OpDoneGrows(n, n', op, o);
    case Gather(inputs) =>
      if o.Resolved? {
        CollectedGrows(n, n', inputs, |inputs|, o.value.items);
      } else {
        var k :| FailedAt(n, inputs, k, o);
        FailedGrows(n, n', inputs, k, o);
      }
    case Contest(entries) =>
      var j :| 0 <= j < |entries| && Scored(n, entries[j], o);
      DoneGrows(n, n', entries[j].input);
      assert Scored(n', entries[j], o);
    case _ =>
  }

  lemma OpOkGrows(n: Net, n': Net, src: nat, op: Op)
    requires Grows(n, n') && src < |n.defs| && OpOk(n, src, op)
    ensures OpOk(n', src, op)
  {
    assert n'.defs[src] == n.defs[src];
    match op
    case Relay(child, deliver) =>
      assert n'.defs[child] == n.defs[child];
      ValidGrows(n, n', child, Adopted(deliver, n.defs[src].spec));
    case Unhook(input, id, layer) =>
      HookGrows(n, n', input, id, layer);
    case _ =>
  }

  lemma DefGrows(n: Net, n': Net, t: nat)
    requires Grows(n, n') && t < |n.defs| && DefOk(n, t)
    ensures DefOk(n', t)
  {
    assert n'.defs[t] == n.defs[t];
    if n.defs[t].Derived? {
      OpOkGrows(n, n', n.defs[t].src, n.defs[t].op);
    }
  }

  lemma ContGrows(n: Net, n': Net, k: Cont)
    requires Grows(n, n') && ContOk(n, k)
    ensures ContOk(n', k)
  {
    match k
    case Step(_, _, tgt) => assert n'.defs[tgt] == n.defs[tgt];
    case Branch(_, _, tgt) => assert n'.defs[tgt] == n.defs[tgt];
    case RaceWin(_, _, layer) => assert n'.defs[layer] == n.defs[layer];
    case AllAt(_, inputs, pos, results, tgt) =>
      assert n'.defs[tgt] == n.defs[tgt];
      CollectedGrows(n, n', inputs, pos, results);
  }

  lemma RaceActionGrows(n: Net, n': Net, a: Action)
    requires Grows(n, n') && ActionOk(n, a)
    requires a.CountRace? || a.RaceLoop? || a.RaceTry? || a.RaceLink?
    ensures ActionOk(n', a)
  {
    match a
    case RaceLink(_, input, id, _, layer) => HookGrows(n, n', input, id, layer);
    case _ =>
  }

  /** Growth never invalidates a pending section. */
  lemma ActionGrows(n: Net, n': Net, a: Action)
    requires Grows(n, n') && ActionOk(n, a)
    ensures ActionOk(n', a)
  {
    match a
    case Flag(t, err) => ValidGrows(n, n', t, Rejected(err));
    case Exchange(t, o) => ValidGrows(n, n', t, o);
    case Store(t, o) =>
      ValidGrows(n, n', t, o);
      DoneGrows(n, n', t);
    case Final(t) =>
    case Resume(k) =>
      ContGrows(n, n', k);
      DoneGrows(n, n', k.src);
    case Chain(src, ops) =>
      if ops != [] && OpOk(n, src, ops[0]) {
        OpOkGrows(n, n', src, ops[0]);
      }
    case RelaySettle(child, o, tgt) =>
      ValidGrows(n, n', child, o);
      DoneGrows(n, n', n.defs[tgt].src);
      assert n'.defs[tgt] == n.defs[tgt];
    case UnhookThen(_, _, tgt, _) =>
      DoneGrows(n, n', n.defs[tgt].src);
      assert n'.defs[tgt] == n.defs[tgt];
    case AllLoop(inputs, pos, results, tgt) =>
      CollectedGrows(n, n', inputs, pos, results);
      assert n'.defs[tgt] == n.defs[tgt];
    case _ => RaceActionGrows(n, n', a);
  }

  // ---------------------------------------------------------------- building blocks

  lemma NodeGrows(n: Net, n': Net, t: nat)
    requires Grows(n, n') && t < |n.cells| && NodeOk(n, t)
    requires n'.cells[t] == n.cells[t]
    ensures NodeOk(n', t)
  {
    DefGrows(n, n', t);
    if IsDone(n.cells[t]) {
      ValidGrows(n, n', t, Out(n.cells[t]));
    }
    forall a | a in n'.cells[t].awaiters ensures a.k.src == t && ContOk(n', a.k) {
      ContGrows(n, n', a.k);
    }
  }

  /** Replacing one cell by a grown one. */
  lemma UpdateOk(n: Net, t: nat, c: Cell<Cont>)
    requires NetOk(n) && t < |n.cells|
    requires CellGrows(n.cells[t], c) && CellOk(c)
    requires IsDone(c) ==> Valid(n, t, Out(c))
    requires forall a :: a in c.awaiters ==> a.k.src == t && ContOk(n, a.k)
    ensures NetOk(Update(n, t, c)) && Grows(n, Update(n, t, c))
  {
    var n' := Update(n, t, c);
    forall u | 0 <= u < |n.cells| ensures CellGrows(n.cells[u], n'.cells[u]) {
    }
    assert Grows(n, n');
    forall u | 0 <= u < |n'.cells| ensures NodeOk(n', u) {
      assert NodeOk(n, u);
      if u != t {
        NodeGrows(n, n', u);
      } else {
        DefGrows(n, n', t);
        if IsDone(c) {
          ValidGrows(n, n', t, Out(c));
        }
        forall a | a in c.awaiters ensures ContOk(n', a.k) {
          ContGrows(n, n', a.k);
        }
      }
    }
  }

  /** Creating one promise. */
  lemma AppendOk(n: Net, running: bool, d: Def)
    requires NetOk(n)
    requires DefOk(Append(n, Fresh(running), d), |n.cells|)
    ensures NetOk(Append(n, Fresh(running), d)) && Grows(n, Append(n, Fresh(running), d))
  {
    var n' := Append(n, Fresh(running), d);
    forall t | 0 <= t < |n.defs| ensures n'.defs[t] == n.defs[t] && CellGrows(n.cells[t], n'.cells[t]) {
      assert n'.cells[t] == n.cells[t];
    }
    assert Grows(n, n');
    forall u | 0 <= u < |n'.cells| ensures NodeOk(n', u) {
      if u < |n.cells| {
        assert NodeOk(n, u);
        NodeGrows(n, n', u);
      }
    }
  }

  lemma GrowsTransitive(n: Net, n': Net, n'': Net)
    requires Grows(n, n') && Grows(n', n'')
    ensures Grows(n, n'')
  {
    forall t | 0 <= t < |n.cells| ensures CellGrows(n.cells[t], n''.cells[t]) {
      assert CellGrows(n.cells[t], n'.cells[t]) && CellGrows(n'.cells[t], n''.cells[t]);
    }
  }

  /** Recording a tip or passing a flag touches no cell. */
  lemma SameCellsOk(n: Net, n': Net)
    requires NetOk(n) && n'.cells == n.cells && n'.defs == n.defs && n.flagged <= n'.flagged
    requires forall t :: t in n'.flagged ==> t < |n'.cells|
    ensures NetOk(n') && Grows(n, n')
  {
    forall t | 0 <= t < |n.cells| ensures CellGrows(n.cells[t], n'.cells[t]) {
    }
    assert Grows(n, n');
    forall u | 0 <= u < |n'.cells| ensures NodeOk(n', u) {
      assert NodeOk(n, u);
      NodeGrows(n, n', u);
    }
  }

  lemma GrowsReflexive(n: Net)
    requires |n.cells| == |n.defs|
    ensures Grows(n, n)
  {
    forall t | 0 <= t < |n.cells| ensures CellGrows(n.cells[t], n.cells[t]) {
    }
  }

  // ---------------------------------------------------------------- sections

  ghost predicate AllOk(n: Net, th: Thread) {
    forall b :: b in th ==> ActionOk(n, b)
  }

  /** The section leaves the network in order and everything it queues may run. */
  ghost predicate EffectOk(n: Net, e: Effect) {
    && NetOk(e.net) && Grows(n, e.net) && AllOk(e.net, e.front)
    && (forall i :: 0 <= i < |e.spawned| ==> AllOk(e.net, e.spawned[i]))
  }

  lemma FlagOk(n: Net, t: nat, err: Error)
    requires NetOk(n) && ActionOk(n, Flag(t, err))
    ensures EffectOk(n, Perform(n, Flag(t, err)))
  {
    GrowsReflexive(n);
    if t !in n.flagged {
      SameCellsOk(n, PassFlag(n, t));
      ValidGrows(n, PassFlag(n, t), t, Rejected(err));
    }
  }

  lemma ExchangeOk(n: Net, t: nat, o: Outcome)
    requires NetOk(n) && ActionOk(n, Exchange(t, o))
    ensures EffectOk(n, Perform(n, Exchange(t, o)))
  {
    GrowsReflexive(n);
    if !n.cells[t].claimed {
      assert NodeOk(n, t);
      UpdateOk(n, t, Claim(n.cells[t]));
      ValidGrows(n, Update(n, t, Claim(n.cells[t])), t, o);
    }
  }

  lemma RelaySettleOk(n: Net, child: nat, o: Outcome, tgt: nat)
    requires NetOk(n) && ActionOk(n, RelaySettle(child, o, tgt))
    ensures EffectOk(n, Perform(n, RelaySettle(child, o, tgt)))
  {
    var n' := Perform(n, RelaySettle(child, o, tgt)).net;
    GrowsReflexive(n);
    if o.Rejected? && child !in n.flagged {
      SameCellsOk(n, PassFlag(n, child));
    } else if o.Resolved? && !n.cells[child].claimed {
      assert NodeOk(n, child);
      UpdateOk(n, child, Claim(n.cells[child]));
    }
    ValidGrows(n, n', child, o);
    DoneGrows(n, n', n.defs[tgt].src);
    assert AnsweredAt(n', child);
    assert Valid(n', tgt, Resolved(Void));
  }

  /** Storing or ending the coroutine, and the dispatch that may follow. */
  lemma DrainOk(n: Net, t: nat, c: Cell<Cont>)
    requires NetOk(n) && t < |n.cells| && IsDone(c)
    requires c == n.cells[t].(value := c.value, exception := c.exception, running := c.running)
    requires IsDone(n.cells[t]) ==> Out(c) == Out(n.cells[t])
    requires c.claimed && !(c.value.Some? && c.exception.Some?) && Valid(n, t, Out(c))
    ensures EffectOk(n, Afterwards(n, t, OnResolved(c)))
  {
    var l := OnResolved(c);
    var e := Afterwards(n, t, l);
    assert NodeOk(n, t);
    UpdateOk(n, t, l.cell);
    forall b | b in e.front ensures ActionOk(e.net, b) {
      var i :| 0 <= i < |e.front| && e.front[i] == b;
      var a := l.taken[i];
      assert a in n.cells[t].awaiters;
      ContGrows(n, e.net, a.k);
    }
  }

  lemma StoreOk(n: Net, t: nat, o: Outcome)
    requires NetOk(n) && ActionOk(n, Store(t, o)) && !DoneAt(n, t)
    ensures EffectOk(n, Perform(n, Store(t, o)))
  {
    var c := match o
      case Resolved(v) => n.cells[t].(value := Some(v))
      case Rejected(e) => n.cells[t].(exception := Some(e));
    DrainOk(n, t, c);
  }

  lemma FinalOk(n: Net, t: nat)
    requires NetOk(n) && ActionOk(n, Final(t))
    ensures EffectOk(n, Perform(n, Final(t)))
  {
    assert NodeOk(n, t);
    var c := n.cells[t].(running := false);
    if IsDone(c) {
      DrainOk(n, t, c);
    } else {
      UpdateOk(n, t, c);
    }
  }

  /** An async handler: its promise is created with the outcome the handler will produce. */
  lemma LaunchOk(n: Net, end: Outcome, tgt: nat, deliver: Value -> Outcome)
    requires NetOk(n) && tgt < |n.defs| && n.defs[tgt].Derived? && UserOp(n.defs[tgt].op)
    requires Valid(n, tgt, Adopted(deliver, end))
    ensures EffectOk(n, Launch(n, end, tgt, deliver))
  {
    var e := Launch(n, end, tgt, deliver);
    AppendOk(n, true, Body(end));
    ValidGrows(n, e.net, tgt, Adopted(deliver, end));
    assert OpOk(e.net, |n.cells|, Relay(tgt, deliver));
  }

  lemma LaunchRejectedOk(n: Net, err: Error, tgt: nat, deliver: Value -> Outcome)
    requires NetOk(n) && tgt < |n.defs| && n.defs[tgt].Derived? && UserOp(n.defs[tgt].op)
    requires Valid(n, tgt, Rejected(err))
    ensures EffectOk(n, LaunchRejected(n, err, tgt, deliver))
  {
    var e := LaunchRejected(n, err, tgt, deliver);
    AppendOk(n, false, Body(Rejected(err)));
    ValidGrows(n, e.net, tgt, Rejected(err));
    assert OpOk(e.net, |n.cells|, Relay(tgt, deliver));
  }

  /** A move whose meaning is the derived promise's outcome may be carried out. */
  lemma CarryOk(n: Net, m: Move, tgt: nat)
    requires NetOk(n) && tgt < |n.defs| && n.defs[tgt].Derived? && UserOp(n.defs[tgt].op)
    requires Valid(n, tgt, Meaning(m))
    ensures EffectOk(n, Carry(n, m, tgt))
  {
    GrowsReflexive(n);
    match m
    case Follow(end, deliver) => LaunchOk(n, end, tgt, deliver);
    case FollowRejected(err, deliver) => LaunchRejectedOk(n, err, tgt, deliver);
    case _ =>
  }

  /** Both branches of a user's operator store what the semantics says. */
  lemma ResumeUserOk(n: Net, k: Cont)
    requires NetOk(n) && ActionOk(n, Resume(k)) && (k.Step? || k.Branch?) && UserOp(k.op)
    ensures EffectOk(n, ResumeEffect(n, k))
  {
    var c := n.cells[k.src];
    BranchesAgree(k.op, c.exception, c.value);
    assert Source(c.exception, c.value) == OutAt(n, k.src);
    CarryOk(n, MoveOf(c, k), k.tgt);
  }

  lemma ResumeInternalOk(n: Net, src: nat, op: Op, tgt: nat)
    requires NetOk(n) && ActionOk(n, Resume(Step(src, op, tgt))) && !UserOp(op)
    ensures EffectOk(n, Forward(n, src, op, tgt))
  {
    var o := OutAt(n, src);
    GrowsReflexive(n);
    assert NodeOk(n, tgt) && NodeOk(n, src);
    match op
    case Relay(child, deliver) =>
      assert o == n.defs[src].spec;
    case RelayError(child) =>
      var inner := n.defs[src].src;
      assert NodeOk(n, inner);
      if o.Rejected? {
        assert OpOk(n, inner, n.defs[src].op);
        assert OutAt(n, inner) == n.defs[inner].spec == o;
      }
    case Unhook(input, id, layer) =>
  }

  lemma ResumeOk(n: Net, k: Cont)
    requires NetOk(n) && ActionOk(n, Resume(k))
    ensures EffectOk(n, Perform(n, Resume(k)))
  {
    GrowsReflexive(n);
    match k
    case Step(src, op, tgt) =>
      if UserOp(op) {
        ResumeUserOk(n, k);
      } else {
        ResumeInternalOk(n, src, op, tgt);
      }
    case Branch(src, op, tgt) =>
      if UserOp(op) {
        ResumeUserOk(n, k);
      } else {
        ResumeInternalOk(n, src, op, tgt);
      }
    case RaceWin(src, inject, layer) =>
      var entries := n.defs[layer].entries;
      var j :| 0 <= j < |entries| && entries[j] == Entry(src, inject);
      assert Scored(n, entries[j], Injected(Entry(src, inject), OutAt(n, src)));
    case AllAt(src, inputs, pos, results, tgt) =>
      assert NodeOk(n, tgt);
      var o := OutAt(n, src);
      if o.Rejected? {
        assert FailedAt(n, inputs, pos, o);
      }
  }

  /** Registering an awaiter on a pending cell. */
  lemma RegisterOk(n: Net, t: nat, a: Awaiter<Cont>)
    requires NetOk(n) && t < |n.cells| && !IsDone(n.cells[t])
    requires a.id == n.cells[t].useCount + 1 && a.k.src == t && ContOk(n, a.k)
    ensures var c := n.cells[t].(useCount := n.cells[t].useCount + 1, awaiters := n.cells[t].awaiters + [a]);
            NetOk(Update(n, t, c)) && Grows(n, Update(n, t, c))
  {
    assert NodeOk(n, t);
    var c := n.cells[t].(useCount := n.cells[t].useCount + 1, awaiters := n.cells[t].awaiters + [a]);
    forall b | b in c.awaiters ensures b in n.cells[t].awaiters || b == a {
    }
    UpdateOk(n, t, c);
  }

  /** A new derived promise and the registration of its continuation in one section. */
  lemma AttachPendingOk(n: Net, src: nat, op: Op)
    requires NetOk(n) && src < |n.cells| && !IsDone(n.cells[src]) && OpOk(n, src, op)
    ensures var t := |n.cells|;
            var n' := Append(Update(n, src, AwaitCallback(n.cells[src], Step(src, op, t))),
                             Fresh(false), Derived(src, op));
            NetOk(n') && Grows(n, n') && OpOk(n', src, op)
  {
    var t := |n.cells|;
    var m := Append(n, Fresh(false), Derived(src, op));
    NewDerivedOk(n, src, op, false);
    var a := Callback(Step(src, op, t), n.cells[src].useCount + 1);
    assert m.cells[src] == n.cells[src];
    RegisterOk(m, src, a);
    var n' := Append(Update(n, src, AwaitCallback(n.cells[src], Step(src, op, t))), Fresh(false), Derived(src, op));
    assert n' == Update(m, src, AwaitCallback(n.cells[src], Step(src, op, t)));
    GrowsTransitive(n, m, n');
    OpOkGrows(n, n', src, op);
  }

  lemma NewDerivedOk(n: Net, src: nat, op: Op, running: bool)
    requires NetOk(n) && src < |n.cells| && OpOk(n, src, op)
    ensures var n' := Append(n, Fresh(running), Derived(src, op));
            NetOk(n') && Grows(n, n') && OpOk(n', src, op)
  {
    var n' := Append(n, Fresh(running), Derived(src, op));
    forall t | 0 <= t < |n.defs| ensures n'.defs[t] == n.defs[t] && CellGrows(n.cells[t], n'.cells[t]) {
      assert n'.cells[t] == n.cells[t];
    }
    assert Grows(n, n');
    OpOkGrows(n, n', src, op);
    AppendOk(n, running, Derived(src, op));
  }

  /** Attaching in either branch; `next` is what the caller does with the new promise. */
  lemma AttachOk(n: Net, src: nat, op: Op, next: Thread)
    requires NetOk(n) && src < |n.cells| && OpOk(n, src, op)
    requires AllOk(Attach(n, src, op, next).net, next)
    ensures EffectOk(n, Attach(n, src, op, next))
  {
    var t := |n.cells|;
    var e := Attach(n, src, op, next);
    if !IsDone(n.cells[src]) {
      AttachPendingOk(n, src, op);
    } else {
      var c := n.cells[src];
      NewDerivedOk(n, src, op, Becomes(c, op));
      DoneGrows(n, e.net, src);
      assert e.net.defs[t] == Derived(src, op);
      if Becomes(c, op) {
        BranchesAgree(op, c.exception, c.value);
        assert Valid(e.net, t, Apply(op, OutAt(n, src)));
      } else {
        assert ContOk(e.net, Branch(src, op, t));
      }
    }
  }

  lemma AttachShape(n: Net, src: nat, op: Op, next: Thread)
    requires src < |n.cells| == |n.defs|
    ensures var e := Attach(n, src, op, next);
            && |e.net.defs| == |e.net.cells| == |n.defs| + 1
            && e.net.defs[|n.defs|] == Derived(src, op)
            && (forall t :: 0 <= t < |n.defs| ==> e.net.defs[t] == n.defs[t])
  {
  }

  lemma ChainPerformOk(n: Net, src: nat, ops: seq<Op>)
    requires NetOk(n) && ActionOk(n, Chain(src, ops))
    ensures EffectOk(n, Perform(n, Chain(src, ops)))
  {
    GrowsReflexive(n);
    if ops != [] {
      var next := [Chain(|n.cells|, ops[1..])];
      var e := Attach(n, src, ops[0], next);
      AttachShape(n, src, ops[0], next);
      assert OpOk(n, src, ops[0]);
      assert ChainOk(e.net, |n.cells|, ops[1..]);
      AttachOk(n, src, ops[0], next);
    }
  }

  lemma UnhookOk(n: Net, input: nat, id: nat, tgt: nat, o: Outcome)
    requires NetOk(n) && ActionOk(n, UnhookThen(input, id, tgt, o))
    ensures EffectOk(n, Perform(n, UnhookThen(input, id, tgt, o)))
  {
    var c := UnAwait(n.cells[input], id);
    var n' := Update(n, input, c);
    assert NodeOk(n, input) && NodeOk(n, tgt);
    WithoutMembers(n.cells[input].awaiters, id);
    WithoutOrdered(n.cells[input].awaiters, id, n.cells[input].useCount);
    UpdateOk(n, input, c);
    var src, layer := n.defs[tgt].src, n.defs[tgt].op.layer;
    assert OpOk(n, src, n.defs[tgt].op);
    LayerOutcome(n, src, layer);
    DoneGrows(n, n', src);
    DoneGrows(n, n', layer);
    assert Unhooked(n', input, id);
    assert Valid(n', tgt, o);
  }

  /** Every Finally layer of a race settles exactly as the race's shared promise. */
  lemma LayerOutcome(n: Net, cur: nat, layer: nat)
    requires NetOk(n) && InLayer(n, cur, layer) && DoneAt(n, cur)
    ensures DoneAt(n, layer) && OutAt(n, cur) == OutAt(n, layer)
  {
    assert NodeOk(n, cur);
  }

  lemma RaceLoopOk(n: Net, a: Action)
    requires NetOk(n) && ActionOk(n, a) && (a.CountRace? || a.RaceLoop?)
    ensures EffectOk(n, Perform(n, a))
  {
    GrowsReflexive(n);
    match a
    case CountRace(input) =>
      assert NodeOk(n, input);
      UpdateOk(n, input, CountUse(n.cells[input]));
    case RaceLoop(cur, rest, layer) =>
      if rest != [] {
        assert rest[0] in rest && (forall e :: e in rest[1..] ==> e in rest);
        assert NodeOk(n, layer);
        assert IsEntry(n, layer, rest[0]);
        assert rest[0].input < layer;
      }
  }

  lemma RaceTryOk(n: Net, cur: nat, en: Entry, rest: seq<Entry>, layer: nat)
    requires NetOk(n) && ActionOk(n, RaceTry(cur, en, rest, layer))
    ensures EffectOk(n, Perform(n, RaceTry(cur, en, rest, layer)))
  {
    GrowsReflexive(n);
    var c := n.cells[en.input];
    var k := RaceWin(en.input, en.inject, layer);
    assert Entry(en.input, en.inject) == en;
    assert ContOk(n, k);
    if !IsDone(c) {
      var a := Callback(k, c.useCount + 1);
      RegisterOk(n, en.input, a);
      var n' := Update(n, en.input, AwaitCallback(c, k));
      assert NodeOk(n, en.input);
      forall b | b in n'.cells[en.input].awaiters && b.Callback? && b.id == c.useCount + 1
        ensures b.k == k
      {
        assert b in c.awaiters || b == a;
      }
      assert HookedBy(n', en.input, c.useCount + 1, layer);
    }
  }

  lemma RaceLinkOk(n: Net, cur: nat, input: nat, id: nat, rest: seq<Entry>, layer: nat)
    requires NetOk(n) && ActionOk(n, RaceLink(cur, input, id, rest, layer))
    ensures EffectOk(n, Perform(n, RaceLink(cur, input, id, rest, layer)))
  {
    var t := |n.cells|;
    var op := Unhook(input, id, layer);
    var next := [RaceLoop(t, rest, layer)];
    var e := Attach(n, cur, op, next);
    AttachShape(n, cur, op, next);
    assert InLayer(e.net, t, layer);
    assert forall en :: en in rest ==> IsEntry(n, layer, en);
    AttachOk(n, cur, op, next);
    var n' := e.net.(tips := e.net.tips[layer := t]);
    SameCellsOk(e.net, n');
    GrowsTransitive(n, e.net, n');
    forall b | b in e.front ensures ActionOk(n', b) {
      ActionGrows(e.net, n', b);
    }
  }

  lemma AllLoopOk(n: Net, inputs: seq<nat>, pos: nat, results: seq<Value>, tgt: nat)
    requires NetOk(n) && ActionOk(n, AllLoop(inputs, pos, results, tgt))
    ensures EffectOk(n, Perform(n, AllLoop(inputs, pos, results, tgt)))
  {
    GrowsReflexive(n);
    if pos < |inputs| {
      var p := inputs[pos];
      var k := AllAt(p, inputs, pos, results, tgt);
      if !IsDone(n.cells[p]) {
        RegisterOk(n, p, Coroutine(k, n.cells[p].useCount + 1));
      }
    }
  }

  /** Any section, run on a network in order, leaves it in order. */
  lemma PerformOk(n: Net, a: Action)
    requires NetOk(n) && ActionOk(n, a) && (a.Store? ==> !DoneAt(n, a.t))
    ensures EffectOk(n, Perform(n, a))
  {
    match a
    case Flag(t, err) => FlagOk(n, t, err);
    case Exchange(t, o) => ExchangeOk(n, t, o);
    case Store(t, o) => StoreOk(n, t, o);
    case Final(t) => FinalOk(n, t);
    case Resume(k) => ResumeOk(n, k);
    case Chain(src, ops) => ChainPerformOk(n, src, ops);
    case RelaySettle(child, o, tgt) => RelaySettleOk(n, child, o, tgt);
    case UnhookThen(input, id, tgt, o) => UnhookOk(n, input, id, tgt, o);
    case CountRace(_) => RaceLoopOk(n, a);
    case RaceLoop(_, _, _) => RaceLoopOk(n, a);
    case RaceTry(cur, e, rest, layer) => RaceTryOk(n, cur, e, rest, layer);
    case RaceLink(cur, input, id, rest, layer) => RaceLinkOk(n, cur, input, id, rest, layer);
    case AllLoop(inputs, pos, results, tgt) => AllLoopOk(n, inputs, pos, results, tgt);
  }

  // ---------------------------------------------------------------- exclusive stores

  /** Only the winner of an exchange stores: a section queues a store only first and only
      for a cell it has just claimed, and only a store settles a cell. */
  ghost predicate StoreFacts(n: Net, a: Action, e: Effect) {
    && (forall j :: 0 < j < |e.front| ==> !e.front[j].Store?)
    && (forall i, j :: 0 <= i < |e.spawned| && 0 <= j < |e.spawned[i]| ==> !e.spawned[i][j].Store?)
    && (e.front != [] && e.front[0].Store? ==>
          e.front[0].t < |n.cells| && !n.cells[e.front[0].t].claimed)
    && (forall t :: 0 <= t < |e.net.cells| && IsDone(e.net.cells[t]) && !DoneAt(n, t) ==> a.Store? && a.t == t)
  }

  lemma PerformStores(n: Net, a: Action)
    requires |n.cells| == |n.defs| && ActionOk(n, a)
    ensures StoreFacts(n, a, Perform(n, a))
  {
    match a
    case Resume(k) => ResumeStores(n, k);
    case Chain(_, _) => LinkStores(n, a);
    case RaceLink(_, _, _, _, _) => LinkStores(n, a);
    case Flag(_, _) => SettleStores(n, a);
    case Exchange(_, _) => SettleStores(n, a);
    case Store(_, _) => SettleStores(n, a);
    case Final(_) => SettleStores(n, a);
    case RelaySettle(_, _, _) => SettleStores(n, a);
    case _ => OtherStores(n, a);
  }

  lemma SettleStores(n: Net, a: Action)
    requires |n.cells| == |n.defs| && ActionOk(n, a)
    requires a.Flag? || a.Exchange? || a.Store? || a.Final? || a.RelaySettle?
    ensures StoreFacts(n, a, Perform(n, a))
  {
  }

  lemma OtherStores(n: Net, a: Action)
    requires |n.cells| == |n.defs| && ActionOk(n, a)
    requires a.UnhookThen? || a.CountRace? || a.RaceLoop? || a.RaceTry? || a.AllLoop?
    ensures StoreFacts(n, a, Perform(n, a))
  {
  }

  lemma LinkStores(n: Net, a: Action)
    requires |n.cells| == |n.defs| && ActionOk(n, a) && (a.Chain? || a.RaceLink?)
    ensures StoreFacts(n, a, Perform(n, a))
  {
    match a
    case Chain(src, ops) =>
      if ops != [] {
        AttachStores(n, a, src, ops[0], Chain(|n.cells|, ops[1..]));
      }
    case RaceLink(cur, input, id, rest, layer) =>
      AttachStores(n, a, cur, Unhook(input, id, layer), RaceLoop(|n.cells|, rest, layer));
  }

  lemma AttachStores(n: Net, a: Action, src: nat, op: Op, next: Action)
    requires src < |n.cells| == |n.defs| && !next.Store?
    ensures StoreFacts(n, a, Attach(n, src, op, [next]))
  {
  }

  lemma ResumeStores(n: Net, k: Cont)
    requires |n.cells| == |n.defs| && ActionOk(n, Resume(k))
    ensures StoreFacts(n, Resume(k), Perform(n, Resume(k)))
  {
    var c := n.cells[k.src];
    if (k.Step? || k.Branch?) && UserOp(k.op) {
      CarryStores(n, k, MoveOf(c, k));
    }
  }

  lemma CarryStores(n: Net, k: Cont, m: Move)
    requires |n.cells| == |n.defs| && (k.Step? || k.Branch?)
    ensures StoreFacts(n, Resume(k), Carry(n, m, k.tgt))
  {
    var e := Carry(n, m, k.tgt);
    assert e.net == n || exists c: Cell<Cont>, d :: !IsDone(c) && e.net == Append(n, c, d);
  }
}
