/** A settling call over a tree of synchronous steps does all the work itself: no other
    thread is involved, and when the call returns the whole tree is settled. */
module Cascades {
  import opened Values
  import opened Cells
  import opened Operators
  import opened Graph
  import opened GraphSafety
  import opened GraphRuns
  import opened GraphProgress
  import opened GraphTermination
  import opened Continuations

  // ---------------------------------------------------------------- what a call can reach

  /** The continuation is synchronous and settles promises of `area` only. */
  ghost predicate ContIn(k: Cont, area: set<nat>) {
    match k
    case Step(_, op, tgt) => OpIn(op, area) && tgt in area
    case Branch(_, op, tgt) => OpIn(op, area) && tgt in area
    case RaceWin(_, _, layer) => layer in area
    case AllAt(_, _, _, _, tgt) => tgt in area
  }

  ghost predicate OpIn(op: Op, area: set<nat>) {
    match op
    case Relay(child, _) => child in area
    case RelayError(child) => child in area
    case Unhook(_, _, _) => true
    case _ => !op.async
  }

  /** Whatever is registered on a promise of `area` is synchronous and stays within it. */
  ghost predicate SyncArea(n: Net, area: set<nat>) {
    forall t, j :: t in area && t < |n.cells| && 0 <= j < |n.cells[t].awaiters| ==>
      ContIn(n.cells[t].awaiters[j].k, area)
  }

  ghost predicate ActionIn(a: Action, area: set<nat>) {
    match a
    case Flag(t, _) => t in area
    case Exchange(t, _) => t in area
    case Store(t, _) => t in area
    case Final(t) => t in area
    case Resume(k) => ContIn(k, area)
    case RelaySettle(child, _, tgt) => child in area && tgt in area
    case UnhookThen(_, _, tgt, _) => tgt in area
    case AllLoop(_, _, _, tgt) => tgt in area
    case _ => false
  }

  ghost predicate ThreadIn(th: Thread, area: set<nat>) {
    forall j :: 0 <= j < |th| ==> ActionIn(th[j], area)
  }

  ghost predicate EffectIn(e: Effect, area: set<nat>) {
    SyncArea(e.net, area) && ThreadIn(e.front, area) && e.spawned == []
  }

  // ---------------------------------------------------------------- one section

  lemma WithoutIn(awaiters: seq<Awaiter<Cont>>, id: nat, area: set<nat>)
    requires forall j :: 0 <= j < |awaiters| ==> ContIn(awaiters[j].k, area)
    ensures forall j :: 0 <= j < |Without(awaiters, id)| ==> ContIn(Without(awaiters, id)[j].k, area)
  {
    WithoutMembers(awaiters, id);
    forall j | 0 <= j < |Without(awaiters, id)| ensures ContIn(Without(awaiters, id)[j].k, area) {
      assert Without(awaiters, id)[j] in awaiters;
    }
  }

  lemma UpdateIn(n: Net, t: nat, c: Cell<Cont>, area: set<nat>)
    requires SyncArea(n, area) && t < |n.cells|
    requires t in area ==> forall j :: 0 <= j < |c.awaiters| ==> ContIn(c.awaiters[j].k, area)
    ensures SyncArea(Update(n, t, c), area)
  {
  }

  /** Settling dispatches the awaiters it took, or none. */
  lemma DrainIn(n: Net, t: nat, l: Locked<Cont>, area: set<nat>)
    requires SyncArea(n, area) && t < |n.cells| && t in area
    requires l.cell.awaiters == n.cells[t].awaiters || l.cell.awaiters == []
    requires l.taken == n.cells[t].awaiters || l.taken == []
    ensures EffectIn(Afterwards(n, t, l), area)
  {
    UpdateIn(n, t, l.cell, area);
  }

  lemma ResumeIn(n: Net, k: Cont, area: set<nat>)
    requires DoneAt(n, k.src) && SyncArea(n, area) && ContIn(k, area)
    ensures EffectIn(ResumeEffect(n, k), area)
  {
    if (k.Step? || k.Branch?) && UserOp(k.op) {
      MoveKinds(k.op, n.cells[k.src].exception, n.cells[k.src].value);
    }
  }

  lemma HandleIn(n: Net, a: Action, area: set<nat>)
    requires |n.cells| == |n.defs| && ActionOk(n, a) && SyncArea(n, area) && ActionIn(a, area)
    requires a.Flag? || a.Exchange? || a.RelaySettle?
    ensures EffectIn(Perform(n, a), area)
  {
  }

  lemma OtherIn(n: Net, a: Action, area: set<nat>)
    requires |n.cells| == |n.defs| && ActionOk(n, a) && SyncArea(n, area) && ActionIn(a, area)
    requires a.UnhookThen? || a.AllLoop?
    ensures EffectIn(Perform(n, a), area)
  {
    if a.UnhookThen? && a.input in area {
      WithoutIn(n.cells[a.input].awaiters, a.id, area);
    }
  }

  /** Sections of synchronous steps start no coroutine and leave synchronous work behind. */
  lemma PerformIn(n: Net, a: Action, area: set<nat>)
    requires |n.cells| == |n.defs| && ActionOk(n, a) && SyncArea(n, area) && ActionIn(a, area)
    ensures EffectIn(Perform(n, a), area)
  {
    match a
    case Store(t, o) => DrainIn(n, t, StoreOutcome(n.cells[t], o), area);
    case Final(t) => DrainIn(n, t, FinalSuspend(n.cells[t]), area);
    case Resume(k) => ResumeIn(n, k, area);
    case UnhookThen(_, _, _, _) => OtherIn(n, a, area);
    case AllLoop(_, _, _, _) => OtherIn(n, a, area);
    case _ => HandleIn(n, a, area);
  }

  /** Thread `i` is the only one at work, and its work stays within `area`. */
  ghost predicate Alone(s: Sys, i: nat, area: set<nat>) {
    && i < |s.threads| && SyncArea(s.net, area) && ThreadIn(s.threads[i], area)
    && forall q :: 0 <= q < |s.threads| && q != i ==> s.threads[q] == []
  }

  lemma ExecAlone(s: Sys, i: nat, area: set<nat>)
    requires SysOk(s) && Alone(s, i, area) && Runnable(s, i)
    ensures Alone(Exec(s, i), i, area) && |Exec(s, i).threads| == |s.threads|
  {
    var th := s.threads[i];
    assert th[0] in th && ActionIn(th[0], area);
    PerformIn(s.net, th[0], area);
    var e := Perform(s.net, th[0]);
    var th' := Exec(s, i).threads[i];
    assert th' == e.front + th[1..];
    forall j | 0 <= j < |th'| ensures ActionIn(th'[j], area) {
      assert th'[j] == if j < |e.front| then e.front[j] else th[j - |e.front| + 1];
    }
  }

  // ---------------------------------------------------------------- the call

  /** One thread and nobody else. */
  ghost predicate OnlyThread(events: seq<Event>, i: nat) {
    forall j :: 0 <= j < |events| ==> events[j] == Run(i)
  }

  /** A settling call of a coroutine-free promise, from the call to its return: it runs the
      sections of its own thread, nothing else runs in between, it ends, and on return every
      promise derived from the root is settled with its folded outcome. Only what is
      registered on the promises the call can reach has to be synchronous. */
  method CallUntilReturn(s: Sys, root: nat, o: Outcome, ghost area: set<nat>)
    returns (r: Sys, won: bool, ghost schedule: seq<Event>)
    requires SysOk(s) && ProgressOk(s) && Quiet(s) && root in area && SyncArea(s.net, area)
    requires root < |s.net.defs| && s.net.defs[root].Root? && !s.net.cells[root].running
    ensures SysOk(Next(s, Settle(root, o))) && IsRun(Next(s, Settle(root, o)), schedule)
    ensures OnlyThread(schedule, |s.threads|) && r == Last(Next(s, Settle(root, o)), schedule)
    ensures |r.threads| == |s.threads| + 1 && r.threads[|s.threads|] == []
    ensures SysOk(r) && ProgressOk(r) && Quiet(r) && SyncArea(r.net, area)
    ensures won <==> !s.net.cells[root].claimed
    ensures DoneAt(r.net, root) && (won ==> OutAt(r.net, root) == o)
    ensures !won ==> r.net.cells == s.net.cells && r.net.defs == s.net.defs
    ensures forall t :: 0 <= t < |r.net.defs| && PathRoot(r.net, t) == root ==>
              Drained(r.net.cells[t]) && OutAt(r.net, t) == Fold(PathOps(r.net, t), OutAt(r.net, root))
  {
    NextOk(s, Settle(root, o));
    NextProgress(s, Settle(root, o));
    QuietCells(s, root);
    var i := |s.threads|;
    won := !s.net.cells[root].claimed;
    assert Alone(Next(s, Settle(root, o)), i, area);
    r, schedule := RunThread(s, Next(s, Settle(root, o)), i, root, o, won, area);
    ReturnedQuiet(s, r, i, root, area);
    forall t | 0 <= t < |r.net.defs| && PathRoot(r.net, t) == root
      ensures Drained(r.net.cells[t]) && OutAt(r.net, t) == Fold(PathOps(r.net, t), OutAt(r.net, root))
    {
      CascadeIsComplete(r, t);
    }
  }

  /** Runs the call's thread until nothing is left on its stack. */
  method RunThread(
    ghost s: Sys, called: Sys, i: nat, ghost root: nat, ghost o: Outcome, ghost won: bool, ghost area: set<nat>)
    returns (r: Sys, ghost schedule: seq<Event>)
    requires SysOk(called) && ProgressOk(called) && Alone(called, i, area) && CallStage(s, called, i, root, o, won)
    ensures IsRun(called, schedule) && OnlyThread(schedule, i) && r == Last(called, schedule)
    ensures SysOk(r) && ProgressOk(r) && Alone(r, i, area) && CallStage(s, r, i, root, o, won)
    ensures |r.threads| == |called.threads| && r.threads[i] == []
  {
    r, schedule := called, [];
    while r.threads[i] != []
      invariant SysOk(r) && ProgressOk(r) && Alone(r, i, area) && |r.threads| == |called.threads|
      invariant IsRun(called, schedule) && OnlyThread(schedule, i) && r == Last(called, schedule)
      invariant CallStage(s, r, i, root, o, won)
      decreases Total(r)
    {
      Turn(s, r, i, root, o, won, area);
      Extend(called, schedule, r, i);
      schedule := schedule + [Run(i)];
      r := Exec(r, i);
    }
  }

  /** Before the flag or the exchange, between flag and exchange, between exchange and store,
      after the store; a losing call has changed no promise. */
  ghost predicate CallStage(s: Sys, r: Sys, i: nat, root: nat, o: Outcome, won: bool) {
    && root < |s.net.cells| && root < |r.net.cells| && !r.net.cells[root].running && i < |r.threads|
    && won == !s.net.cells[root].claimed && (won ==> root !in s.net.flagged)
    && ((r.threads[i] == [Handle(root, o)] && r.net == s.net)
        || (o.Rejected? && r.threads[i] == [Exchange(root, o)] && r.net == PassFlag(s.net, root))
        || (won && r.threads[i] == [Store(root, o)])
        || if won then DoneAt(r.net, root) && OutAt(r.net, root) == o
           else r.threads[i] == [] && r.net.cells == s.net.cells && r.net.defs == s.net.defs)
  }

  lemma StageStep(s: Sys, r: Sys, i: nat, root: nat, o: Outcome, won: bool)
    requires SysOk(r) && Runnable(r, i) && CallStage(s, r, i, root, o, won)
    ensures CallStage(s, Exec(r, i), i, root, o, won)
  {
    var a := r.threads[i][0];
    assert a in r.threads[i];
    PerformEnds(r.net, a, root);
    ExecOk(r, i);
    DoneGrows(r.net, Exec(r, i).net, root);
  }

  /** One section of the call's thread. */
  lemma Turn(s: Sys, r: Sys, i: nat, root: nat, o: Outcome, won: bool, area: set<nat>)
    requires SysOk(r) && ProgressOk(r) && Alone(r, i, area) && Runnable(r, i) && CallStage(s, r, i, root, o, won)
    ensures SysOk(Exec(r, i)) && ProgressOk(Exec(r, i)) && Alone(Exec(r, i), i, area)
    ensures |Exec(r, i).threads| == |r.threads| && CallStage(s, Exec(r, i), i, root, o, won)
    ensures Total(Exec(r, i)) < Total(r)
  {
    StageStep(s, r, i, root, o, won);
    ExecAlone(r, i, area);
    ExecOk(r, i);
    NextProgress(r, Run(i));
    ExecWeight(r, i);
  }

  lemma Extend(called: Sys, schedule: seq<Event>, r: Sys, i: nat)
    requires SysOk(called) && IsRun(called, schedule) && OnlyThread(schedule, i) && r == Last(called, schedule)
    requires SysOk(r) && Runnable(r, i)
    ensures IsRun(called, schedule + [Run(i)]) && OnlyThread(schedule + [Run(i)], i)
    ensures Exec(r, i) == Last(called, schedule + [Run(i)])
  {
    RunAppend(called, schedule, Run(i));
  }

  lemma ReturnedQuiet(s: Sys, r: Sys, i: nat, root: nat, area: set<nat>)
    requires SysOk(s) && ProgressOk(s) && Quiet(s) && root < |s.net.defs| == |s.net.cells| && s.net.defs[root].Root?
    requires Alone(r, i, area) && r.threads[i] == [] && root < |r.net.cells| && !r.net.cells[root].running
    requires (r.net.cells == s.net.cells && s.net.cells[root].claimed) || DoneAt(r.net, root)
    ensures Quiet(r) && Drained(r.net.cells[root])
  {
    if !DoneAt(r.net, root) {
      QuietCells(s, root);
    }
  }
}
