/** A settled race leaves nothing behind: each Finally layer takes one awaiter off its
    participant before it settles, and every awaiter has its layer. */
module RaceCleanup {
  import opened Values
  import opened Cells
  import opened Sums
  import opened Operators
  import opened Graph
  import opened GraphSafety
  import opened GraphRuns
  import opened GraphProgress

  // ---------------------------------------------------------------- one builder per race

  predicate Builds(a: Action) {
    a.RaceLoop? || a.RaceTry? || a.RaceLink?
  }

  function One(a: Action, layer: nat): nat {
    if Builds(a) && a.layer == layer then 1 else 0
  }

  function OneOf(layer: nat): Action -> nat {
    a => One(a, layer)
  }

  /** How many sections of a thread build the race. */
  function Count(th: Thread, layer: nat): nat {
    Sum(th, OneOf(layer))
  }

  function CountOf(layer: nat): Thread -> nat {
    th => Count(th, layer)
  }

  function CountAll(threads: seq<Thread>, layer: nat): nat {
    Sum(threads, CountOf(layer))
  }

  lemma CountIn(th: Thread, a: Action)
    requires a in th && Builds(a)
    ensures Count(th, a.layer) >= 1
  {
    var i :| 0 <= i < |th| && th[i] == a;
    SumAtLeast(th, i, OneOf(a.layer));
  }

  lemma CountNone(th: Thread, layer: nat)
    requires forall a :: a in th ==> One(a, layer) == 0
    ensures Count(th, layer) == 0
  {
    SumZero(th, OneOf(layer));
  }

  /** A section passes the building of a race on to at most one successor. */
  lemma PerformCounts(n: Net, a: Action, layer: nat)
    requires |n.cells| == |n.defs| && ActionOk(n, a)
    ensures var e := Perform(n, a);
            Count(e.front, layer) + CountAll(e.spawned, layer) <= One(a, layer)
  {
    var e := Perform(n, a);
    if Builds(a) {
      BuilderCounts(n, a, layer);
    } else {
      OthersBuildNothing(n, a);
      CountNone(e.front, layer);
      forall i | 0 <= i < |e.spawned| ensures Count(e.spawned[i], layer) == 0 {
        CountNone(e.spawned[i], layer);
      }
      SumZero(e.spawned, CountOf(layer));
    }
  }

  lemma BuilderCounts(n: Net, a: Action, layer: nat)
    requires |n.cells| == |n.defs| && ActionOk(n, a) && Builds(a)
    ensures var e := Perform(n, a);
            Count(e.front, layer) + CountAll(e.spawned, layer) <= One(a, layer)
    ensures Perform(n, a).spawned == []
  {
    BuilderShape(n, a);
    ShortCount(Perform(n, a).front, a, layer);
  }

  /** The front is empty or ends in the one section that goes on building. */
  ghost predicate GoesOn(th: Thread, a: Action) {
    && Builds(a) && |th| <= 2
    && (|th| == 2 ==> !Builds(th[0]))
    && (|th| > 0 ==> Builds(th[|th| - 1]) && th[|th| - 1].layer == a.layer)
  }

  lemma BuilderShape(n: Net, a: Action)
    requires |n.cells| == |n.defs| && ActionOk(n, a) && Builds(a)
    ensures Perform(n, a).spawned == [] && GoesOn(Perform(n, a).front, a)
  {
  }

  lemma ShortCount(th: Thread, a: Action, layer: nat)
    requires GoesOn(th, a)
    ensures Count(th, layer) <= One(a, layer)
  {
    if |th| == 2 {
      assert th == [th[0], th[1]];
      SumTwo(th[0], th[1], OneOf(layer));
    } else if |th| == 1 {
      assert th == [th[0]];
      SumOne(th[0], OneOf(layer));
    }
  }

  ghost predicate NoBuilders(n: Net, e: Effect) {
    && (forall j :: 0 <= j < |e.front| ==> !Builds(e.front[j]))
    && (forall i, j :: 0 <= i < |e.spawned| && 0 <= j < |e.spawned[i]| ==> !Builds(e.spawned[i][j]))
    && e.net.tips == n.tips
  }

  lemma OthersBuildNothing(n: Net, a: Action)
    requires |n.cells| == |n.defs| && ActionOk(n, a) && !Builds(a)
    ensures NoBuilders(n, Perform(n, a))
    ensures forall b :: b in Perform(n, a).front ==> !Builds(b)
    ensures forall i, b :: 0 <= i < |Perform(n, a).spawned| && b in Perform(n, a).spawned[i] ==> !Builds(b)
  {
    if a.Resume? {
      ResumeBuildsNothing(n, a.k);
    } else if a.Chain? {
      if a.ops != [] {
        AttachBuildsNothing(n, a.src, a.ops[0], a.ops[1..]);
      }
    } else {
      SettlesBuildNothing(n, a);
    }
  }

  lemma SettlesBuildNothing(n: Net, a: Action)
    requires |n.cells| == |n.defs| && ActionOk(n, a) && !Builds(a) && !a.Resume? && !a.Chain?
    ensures NoBuilders(n, Perform(n, a))
  {
  }

  lemma ResumeBuildsNothing(n: Net, k: Cont)
    requires |n.cells| == |n.defs| && ActionOk(n, Resume(k))
    ensures NoBuilders(n, ResumeEffect(n, k))
  {
  }

  lemma AttachBuildsNothing(n: Net, src: nat, op: Op, ops: seq<Op>)
    requires src < |n.cells|
    ensures NoBuilders(n, Attach(n, src, op, [Chain(|n.cells|, ops)]))
  {
  }

  // ---------------------------------------------------------------- the chain of layers

  /** `t` is `cur` or a layer below it. */
  ghost predicate InChain(n: Net, cur: nat, t: nat)
    requires cur < |n.defs|
  {
    || t == cur
    || (n.defs[cur].Derived? && n.defs[cur].src < cur && InChain(n, n.defs[cur].src, t))
  }

  ghost predicate Linked(n: Net, input: nat, id: nat, layer: nat) {
    && layer in n.tips && n.tips[layer] < |n.defs|
    && exists t :: LinkedAt(n, input, id, layer, t)
  }

  ghost predicate LinkedAt(n: Net, input: nat, id: nat, layer: nat, t: nat)
    requires layer in n.tips && n.tips[layer] < |n.defs|
  {
    && t < |n.defs| && InChain(n, n.tips[layer], t)
    && n.defs[t].Derived? && n.defs[t].op == Unhook(input, id, layer)
  }

  ghost predicate LinkQueued(threads: seq<Thread>, input: nat, id: nat, layer: nat) {
    exists i, j :: 0 <= i < |threads| && 0 <= j < |threads[i]| && IsLink(threads[i][j], input, id, layer)
  }

  ghost predicate IsLink(a: Action, input: nat, id: nat, layer: nat) {
    a.RaceLink? && a.input == input && a.id == id && a.layer == layer
  }

  /** Every awaiter of a race has its Finally layer, or the builder is about to attach it. */
  ghost predicate HookOk(s: Sys, u: nat, w: Awaiter<Cont>) {
    w.k.RaceWin? ==>
      w.Callback? && (Linked(s.net, u, w.id, w.k.layer) || LinkQueued(s.threads, u, w.id, w.k.layer))
  }

  ghost predicate TipOk(n: Net, a: Action) {
    Builds(a) ==> a.layer in n.tips && n.tips[a.layer] == a.cur
  }

  ghost predicate CleanOk(s: Sys) {
    && (forall layer :: CountAll(s.threads, layer) <= 1)
    && (forall i, a :: 0 <= i < |s.threads| && a in s.threads[i] ==> TipOk(s.net, a))
    && (forall u, w :: 0 <= u < |s.net.cells| && w in s.net.cells[u].awaiters ==> HookOk(s, u, w))
  }

  lemma {:induction false} ChainGrows(n: Net, n': Net, cur: nat, t: nat)
    requires Grows(n, n') && cur < |n.defs| && InChain(n, cur, t)
    ensures InChain(n', cur, t)
    decreases cur
  {
    assert n'.defs[cur] == n.defs[cur];
    if t != cur {
      ChainGrows(n, n', n.defs[cur].src, t);
    }
  }

  lemma LinkedGrows(n: Net, n': Net, input: nat, id: nat, layer: nat)
    requires Grows(n, n') && Linked(n, input, id, layer)
    requires layer in n'.tips && n'.tips[layer] == n.tips[layer]
    ensures Linked(n', input, id, layer)
  {
    var t: nat :| LinkedAt(n, input, id, layer, t);
    ChainGrows(n, n', n.tips[layer], t);
    assert n'.defs[t] == n.defs[t];
    assert LinkedAt(n', input, id, layer, t);
  }

  /** Attaching the next layer puts the new awaiter's layer on the chain and keeps the
      others. */
  lemma LinkExtends(n: Net, a: Action, input: nat, id: nat)
    requires NetOk(n) && ActionOk(n, a) && a.RaceLink? && TipOk(n, a)
    requires Grows(n, Perform(n, a).net)
    requires Linked(n, input, id, a.layer) || (a.input == input && a.id == id)
    ensures Linked(Perform(n, a).net, input, id, a.layer)
  {
    var n', t := Perform(n, a).net, |n.cells|;
    assert n'.tips[a.layer] == t && n'.defs[t] == Derived(a.cur, Unhook(a.input, a.id, a.layer));
    assert InChain(n', t, t);
    if a.input == input && a.id == id {
      assert LinkedAt(n', input, id, a.layer, t);
    } else {
      var q: nat :| LinkedAt(n, input, id, a.layer, q);
      ChainGrows(n, n', a.cur, q);
      assert n'.defs[q] == n.defs[q];
      assert LinkedAt(n', input, id, a.layer, q);
    }
  }

  // ---------------------------------------------------------------- preservation

  lemma ExecCounts(s: Sys, i: nat, layer: nat)
    requires SysOk(s) && Runnable(s, i)
    ensures CountAll(Exec(s, i).threads, layer) <= CountAll(s.threads, layer)
  {
    var th := s.threads[i];
    assert th[0] in th;
    var e := Perform(s.net, th[0]);
    PerformCounts(s.net, th[0], layer);
    SumAppend(e.front, th[1..], OneOf(layer));
    SumUpdate(s.threads, i, e.front + th[1..], CountOf(layer));
    SumAppend(s.threads[i := e.front + th[1..]], e.spawned, CountOf(layer));
  }

  /** While thread `i` runs a building section, no other section builds the same race. */
  lemma OnlyBuilder(s: Sys, i: nat, j: nat, b: Action)
    requires SysOk(s) && CleanOk(s) && Runnable(s, i) && Builds(s.threads[i][0])
    requires j < |s.threads| && Builds(b)
    requires if j == i then b in s.threads[i][1..] else b in s.threads[j]
    ensures b.layer != s.threads[i][0].layer
  {
    var a := s.threads[i][0];
    if b.layer == a.layer {
      assert a in s.threads[i];
      assert CountAll(s.threads, a.layer) <= 1;
      CountIn(s.threads[i], a);
      if j == i {
        CountIn(s.threads[i][1..], b);
        assert Count(s.threads[i], a.layer) == One(a, a.layer) + Count(s.threads[i][1..], a.layer);
        SumAtLeast(s.threads, i, CountOf(a.layer));
      } else {
        CountIn(s.threads[j], b);
        if i < j {
          SumApart(s.threads, i, j, CountOf(a.layer));
        } else {
          SumApart(s.threads, j, i, CountOf(a.layer));
        }
      }
    }
  }

  lemma FrontTips(n: Net, a: Action, b: Action)
    requires |n.cells| == |n.defs| && ActionOk(n, a) && TipOk(n, a) && b in Perform(n, a).front
    ensures TipOk(Perform(n, a).net, b)
  {
    if !Builds(a) {
      OthersBuildNothing(n, a);
    }
  }

  lemma TipsFrame(n: Net, a: Action, layer: nat)
    requires |n.cells| == |n.defs| && ActionOk(n, a)
    requires Builds(a) ==> a.layer != layer
    ensures layer in n.tips ==> layer in Perform(n, a).net.tips && Perform(n, a).net.tips[layer] == n.tips[layer]
  {
    if !Builds(a) {
      OthersBuildNothing(n, a);
    }
  }

  /** A section that stays queued keeps the tip of its race: whoever moves a tip is the only
      builder of that race. */
  lemma KeptTips(s: Sys, i: nat, j: nat, b: Action)
    requires SysOk(s) && CleanOk(s) && Runnable(s, i) && j < |s.threads|
    requires if j == i then b in s.threads[i][1..] else b in s.threads[j]
    ensures TipOk(Exec(s, i).net, b)
  {
    var th := s.threads[i];
    assert th[0] in th && b in s.threads[j];
    assert TipOk(s.net, b);
    if Builds(b) {
      if Builds(th[0]) {
        OnlyBuilder(s, i, j, b);
      }
      TipsFrame(s.net, th[0], b.layer);
    }
  }

  lemma SpawnedBuildNothing(n: Net, a: Action)
    requires |n.cells| == |n.defs| && ActionOk(n, a)
    ensures forall q, b :: 0 <= q < |Perform(n, a).spawned| && b in Perform(n, a).spawned[q] ==> !Builds(b)
  {
    if Builds(a) {
      BuilderShape(n, a);
    } else {
      OthersBuildNothing(n, a);
    }
  }

  lemma ExecTips(s: Sys, i: nat, j: nat, b: Action)
    requires SysOk(s) && CleanOk(s) && Runnable(s, i)
    requires j < |Exec(s, i).threads| && b in Exec(s, i).threads[j]
    ensures TipOk(Exec(s, i).net, b)
  {
    var a := s.threads[i][0];
    assert a in s.threads[i];
    var e := Perform(s.net, a);
    if j >= |s.threads| {
      SpawnedBuildNothing(s.net, a);
      assert Exec(s, i).threads[j] == e.spawned[j - |s.threads|];
    } else if j == i && b in e.front {
      FrontTips(s.net, a, b);
    } else {
      KeptTips(s, i, j, b);
    }
  }

  ghost predicate NewRaceHook(n: Net, a: Action, u: nat, w: Awaiter<Cont>)
    requires |n.cells| == |n.defs| && ActionOk(n, a)
  {
    && a.RaceTry? && w.Callback? && w.k.RaceWin? && w.k.layer == a.layer && |Perform(n, a).front| == 1
    && IsLink(Perform(n, a).front[0], u, w.id, a.layer)
  }

  /** A race awaiter is new only when the builder has just registered it. */
  lemma NewHook(n: Net, a: Action, u: nat, w: Awaiter<Cont>)
    requires |n.cells| == |n.defs| && ActionOk(n, a)
    requires u < |Perform(n, a).net.cells| && w in Perform(n, a).net.cells[u].awaiters && w.k.RaceWin?
    ensures (u < |n.cells| && w in n.cells[u].awaiters) || NewRaceHook(n, a, u, w)
  {
    if a.UnhookThen? {
      WithoutMembers(n.cells[a.input].awaiters, a.id);
    } else if a.Resume? {
      ResumeKeeps(n, a.k, u);
    } else if a.Chain? || a.RaceLink? {
      AttachHooksNothing(n, a, u, w);
    } else {
      OthersHookNothing(n, a, u, w);
    }
  }

  lemma ResumeKeeps(n: Net, k: Cont, u: nat)
    requires |n.cells| == |n.defs| && ActionOk(n, Resume(k)) && u < |ResumeEffect(n, k).net.cells|
    ensures if u < |n.cells| then ResumeEffect(n, k).net.cells[u] == n.cells[u]
            else ResumeEffect(n, k).net.cells[u].awaiters == []
  {
  }

  lemma AttachHooksNothing(n: Net, a: Action, u: nat, w: Awaiter<Cont>)
    requires |n.cells| == |n.defs| && ActionOk(n, a) && (a.Chain? || a.RaceLink?)
    requires u < |Perform(n, a).net.cells| && w in Perform(n, a).net.cells[u].awaiters && w.k.RaceWin?
    ensures u < |n.cells| && w in n.cells[u].awaiters
  {
  }

  lemma OthersHookNothing(n: Net, a: Action, u: nat, w: Awaiter<Cont>)
    requires |n.cells| == |n.defs| && ActionOk(n, a)
    requires !a.UnhookThen? && !a.Resume? && !a.Chain? && !a.RaceLink?
    requires u < |Perform(n, a).net.cells| && w in Perform(n, a).net.cells[u].awaiters && w.k.RaceWin?
    ensures (u < |n.cells| && w in n.cells[u].awaiters) || NewRaceHook(n, a, u, w)
  {
  }

  lemma LinkStaysQueued(s: Sys, i: nat, j: nat, k: nat, input: nat, id: nat, layer: nat)
    requires SysOk(s) && Runnable(s, i)
    requires j < |s.threads| && k < |s.threads[j]| && IsLink(s.threads[j][k], input, id, layer) && (j != i || k > 0)
    ensures LinkQueued(Exec(s, i).threads, input, id, layer)
  {
    var s' := Exec(s, i);
    var f := Perform(s.net, s.threads[i][0]).front;
    if j == i {
      assert s'.threads[i] == f + s.threads[i][1..];
      assert s'.threads[i][|f| + k - 1] == s.threads[i][k];
    } else {
      assert s'.threads[j] == s.threads[j];
      assert IsLink(s'.threads[j][k], input, id, layer);
    }
  }

  lemma ExecHook(s: Sys, i: nat, u: nat, w: Awaiter<Cont>)
    requires SysOk(s) && CleanOk(s) && Runnable(s, i)
    requires u < |Exec(s, i).net.cells| && w in Exec(s, i).net.cells[u].awaiters && w.k.RaceWin?
    ensures HookOk(Exec(s, i), u, w)
  {
    var a := s.threads[i][0];
    assert a in s.threads[i];
    var s' := Exec(s, i);
    var e := Perform(s.net, a);
    var layer := w.k.layer;
    ExecOk(s, i);
    NewHook(s.net, a, u, w);
    if u < |s.net.cells| && w in s.net.cells[u].awaiters {
      assert HookOk(s, u, w);
      OldHook(s, i, u, w.id, layer);
    } else {
      assert s'.threads[i][0] == e.front[0];
      assert IsLink(s'.threads[i][0], u, w.id, layer);
    }
  }

  lemma OldHook(s: Sys, i: nat, u: nat, id: nat, layer: nat)
    requires SysOk(s) && CleanOk(s) && Runnable(s, i) && Grows(s.net, Exec(s, i).net)
    requires Linked(s.net, u, id, layer) || LinkQueued(s.threads, u, id, layer)
    ensures Linked(Exec(s, i).net, u, id, layer) || LinkQueued(Exec(s, i).threads, u, id, layer)
  {
    var a := s.threads[i][0];
    assert a in s.threads[i];
    assert TipOk(s.net, a);
    if Linked(s.net, u, id, layer) {
      if a.RaceLink? && a.layer == layer {
        LinkExtends(s.net, a, u, id);
      } else {
        TipsUnlessLink(s.net, a, layer);
        LinkedGrows(s.net, Exec(s, i).net, u, id, layer);
      }
    } else {
      var j, k :| 0 <= j < |s.threads| && 0 <= k < |s.threads[j]| && IsLink(s.threads[j][k], u, id, layer);
      if j == i && k == 0 {
        LinkExtends(s.net, a, u, id);
      } else {
        LinkStaysQueued(s, i, j, k, u, id, layer);
      }
    }
  }

  lemma TipsUnlessLink(n: Net, a: Action, layer: nat)
    requires |n.cells| == |n.defs| && ActionOk(n, a) && !(a.RaceLink? && a.layer == layer)
    ensures layer in n.tips ==> layer in Perform(n, a).net.tips && Perform(n, a).net.tips[layer] == n.tips[layer]
  {
    if !Builds(a) {
      OthersBuildNothing(n, a);
    }
  }

  lemma ExecClean(s: Sys, i: nat)
    requires SysOk(s) && CleanOk(s) && Runnable(s, i)
    ensures CleanOk(Exec(s, i))
  {
    var s' := Exec(s, i);
    forall layer ensures CountAll(s'.threads, layer) <= 1 {
      ExecCounts(s, i, layer);
    }
    forall j, b | 0 <= j < |s'.threads| && b in s'.threads[j] ensures TipOk(s'.net, b) {
      ExecTips(s, i, j, b);
    }
    forall u, w | 0 <= u < |s'.net.cells| && w in s'.net.cells[u].awaiters ensures HookOk(s', u, w) {
      if w.k.RaceWin? {
        ExecHook(s, i, u, w);
      }
    }
  }

  /** No thread builds a race that does not exist yet. */
  lemma FutureUnbuilt(s: Sys, layer: nat)
    requires SysOk(s) && layer >= |s.net.defs|
    ensures CountAll(s.threads, layer) == 0
  {
    forall i | 0 <= i < |s.threads| ensures Count(s.threads[i], layer) == 0 {
      forall a | a in s.threads[i] ensures One(a, layer) == 0 {
        assert ActionOk(s.net, a);
      }
      CountNone(s.threads[i], layer);
    }
    SumZero(s.threads, CountOf(layer));
  }

  lemma CountSpawned(threads: seq<Thread>, th: Thread, layer: nat)
    ensures CountAll(threads + [th], layer) == CountAll(threads, layer) + Count(th, layer)
    ensures |th| == 1 ==> Count(th, layer) == One(th[0], layer)
  {
    SumAppend(threads, [th], CountOf(layer));
    SumOne(th, CountOf(layer));
    if |th| == 1 {
      assert th == [th[0]];
      SumOne(th[0], OneOf(layer));
    }
  }

  lemma CallCountsOnce(s: Sys, e: Event, layer: nat)
    requires SysOk(s) && Enabled(s, e) && !e.Run? && CountAll(s.threads, layer) <= 1
    ensures CountAll(Next(s, e).threads, layer) <= 1
  {
    var s' := Next(s, e);
    FutureUnbuilt(s, |s.net.cells|);
    if |s'.threads| > |s.threads| {
      var th := s'.threads[|s.threads|];
      assert s'.threads == s.threads + [th];
      CountSpawned(s.threads, th, layer);
      if e.EndBody? {
        CountNone(th, layer);
      }
    }
  }

  lemma CallTips(s: Sys, e: Event, j: nat, b: Action)
    requires SysOk(s) && CleanOk(s) && Enabled(s, e) && !e.Run?
    requires j < |Next(s, e).threads| && b in Next(s, e).threads[j]
    ensures TipOk(Next(s, e).net, b)
  {
    if j < |s.threads| {
      assert b in s.threads[j] && ActionOk(s.net, b) && TipOk(s.net, b);
    }
  }

  lemma CallHooks(s: Sys, e: Event, u: nat, w: Awaiter<Cont>)
    requires SysOk(s) && CleanOk(s) && Enabled(s, e) && !e.Run?
    requires u < |Next(s, e).net.cells| && w in Next(s, e).net.cells[u].awaiters
    ensures HookOk(Next(s, e), u, w)
  {
    NextOk(s, e);
    assert u < |s.net.cells| && w in s.net.cells[u].awaiters && HookOk(s, u, w) && NodeOk(s.net, u);
    if w.k.RaceWin? {
      CallHook(s, Next(s, e), u, w.id, w.k.layer);
    }
  }

  lemma CallClean(s: Sys, e: Event)
    requires SysOk(s) && CleanOk(s) && Enabled(s, e) && !e.Run?
    ensures CleanOk(Next(s, e))
  {
    var s' := Next(s, e);
    forall layer: nat ensures CountAll(s'.threads, layer) <= 1 {
      CallCountsOnce(s, e, layer);
    }
    forall j, b | 0 <= j < |s'.threads| && b in s'.threads[j] ensures TipOk(s'.net, b) {
      CallTips(s, e, j, b);
    }
    forall u, w | 0 <= u < |s'.net.cells| && w in s'.net.cells[u].awaiters ensures HookOk(s', u, w) {
      CallHooks(s, e, u, w);
    }
  }

  lemma CallHook(s: Sys, s': Sys, u: nat, id: nat, layer: nat)
    requires Grows(s.net, s'.net) && layer < |s.net.defs|
    requires layer in s.net.tips ==> layer in s'.net.tips && s'.net.tips[layer] == s.net.tips[layer]
    requires |s.threads| <= |s'.threads| && (forall i :: 0 <= i < |s.threads| ==> s'.threads[i] == s.threads[i])
    requires Linked(s.net, u, id, layer) || LinkQueued(s.threads, u, id, layer)
    ensures Linked(s'.net, u, id, layer) || LinkQueued(s'.threads, u, id, layer)
  {
    if Linked(s.net, u, id, layer) {
      LinkedGrows(s.net, s'.net, u, id, layer);
    } else {
      var i, j :| 0 <= i < |s.threads| && 0 <= j < |s.threads[i]| && IsLink(s.threads[i][j], u, id, layer);
      assert IsLink(s'.threads[i][j], u, id, layer);
    }
  }

  lemma {:induction false} RunClean(s: Sys, events: seq<Event>)
    requires SysOk(s) && CleanOk(s) && IsRun(s, events)
    ensures CleanOk(Last(s, events))
    decreases |events|
  {
    if events != [] {
      NextOk(s, events[0]);
      if events[0].Run? {
        ExecClean(s, events[0].i);
      } else {
        CallClean(s, events[0]);
      }
      RunClean(Next(s, events[0]), events[1..]);
    }
  }

  // ---------------------------------------------------------------- main result

  lemma {:induction false} ChainDone(n: Net, cur: nat, t: nat)
    requires NetOk(n) && cur < |n.defs| && DoneAt(n, cur) && InChain(n, cur, t)
    ensures DoneAt(n, t)
    decreases cur
  {
    assert NodeOk(n, cur);
    if t != cur {
      ChainDone(n, n.defs[cur].src, t);
    }
  }

  /** Every layer below a settled one has taken its awaiter off. */
  lemma LayerUnhooked(n: Net, cur: nat, t: nat)
    requires NetOk(n) && cur < |n.defs| && DoneAt(n, cur) && InChain(n, cur, t)
    requires t < |n.defs| && n.defs[t].Derived? && n.defs[t].op.Unhook?
    ensures Unhooked(n, n.defs[t].op.input, n.defs[t].op.id)
  {
    ChainDone(n, cur, t);
    assert NodeOk(n, t);
  }

  /** Race cleanup: once the call of Race has returned and the promise it returned is
      settled, no participant still holds an awaiter of that race. */
  lemma SettledRaceLeavesNoAwaiter(s: Sys, layer: nat, u: nat, w: Awaiter<Cont>)
    requires Reachable(s)
    requires layer in s.net.tips && DoneAt(s.net, s.net.tips[layer])
    requires forall i, a :: 0 <= i < |s.threads| && a in s.threads[i] ==> !(Builds(a) && a.layer == layer)
    requires u < |s.net.cells| && w in s.net.cells[u].awaiters
    ensures !(w.k.RaceWin? && w.k.layer == layer)
  {
    var events :| ReachedBy(s, events);
    StartOk();
    RunClean(Start, events);
    if w.k.RaceWin? && w.k.layer == layer {
      assert HookOk(s, u, w);
      assert !LinkQueued(s.threads, u, w.id, layer) by {
        forall i, j | 0 <= i < |s.threads| && 0 <= j < |s.threads[i]|
          ensures !IsLink(s.threads[i][j], u, w.id, layer)
        {
          assert s.threads[i][j] in s.threads[i];
        }
      }
      var t: nat :| LinkedAt(s.net, u, w.id, layer, t);
      LayerUnhooked(s.net, s.net.tips[layer], t);
    }
  }
}
