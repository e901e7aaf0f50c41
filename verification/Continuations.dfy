/** Main results about Then, Catch, Finally and All: outcomes follow the semantics whatever
    the timing, every schedule comes to rest, and at rest nothing is left behind. */
module Continuations {
  import opened Values
  import opened Cells
  import opened Types
  import opened Operators
  import opened Graph
  import opened GraphSafety
  import opened GraphRuns
  import opened GraphProgress
  import opened GraphTermination

  // ---------------------------------------------------------------- the semantics of a path

  /** The promise a chain of operators starts from. */
  ghost function PathRoot(n: Net, t: nat): (r: nat)
    requires NetOk(n) && t < |n.defs|
    ensures r <= t && !n.defs[r].Derived?
  {
    assert NodeOk(n, t);
    if n.defs[t].Derived? then PathRoot(n, n.defs[t].src) else t
  }

  /** The operators applied on the way from the root to `t`, in order. */
  ghost function PathOps(n: Net, t: nat): seq<Op>
    requires NetOk(n) && t < |n.defs|
  {
    assert NodeOk(n, t);
    if n.defs[t].Derived? then PathOps(n, n.defs[t].src) + [n.defs[t].op] else []
  }

  /** The outcome semantics folded along a path. */
  ghost function Fold(ops: seq<Op>, o: Outcome): Outcome {
    if ops == [] then o else Apply(ops[|ops| - 1], Fold(ops[..|ops| - 1], o))
  }

  /** The operator with its handler made synchronous. */
  ghost function Immediate(op: Op): Op {
    match op
    case Then(void, returnsVoid, f, _) => Then(void, returnsVoid, f, false)
    case Catch(t, t2, any, matches, f, _) => Catch(t, t2, any, matches, f, false)
    case Finally(void, cleanup, _) => Finally(void, cleanup, false)
    case _ => op
  }

  /** Same operators up to whether each handler answers at once or through a promise. */
  ghost predicate SameUpToTiming(p: seq<Op>, q: seq<Op>) {
    |p| == |q| && forall i :: 0 <= i < |p| ==> Immediate(p[i]) == Immediate(q[i])
  }

  lemma {:induction false} FoldIgnoresTiming(p: seq<Op>, q: seq<Op>, o: Outcome)
    requires SameUpToTiming(p, q)
    ensures Fold(p, o) == Fold(q, o)
  {
    if p != [] {
      var k := |p| - 1;
      assert Immediate(p[k]) == Immediate(q[k]);
      FoldIgnoresTiming(p[..k], q[..k], o);
      ApplyIgnoresTiming(p[k], q[k], Fold(p[..k], o));
    }
  }

  lemma ApplyIgnoresTiming(p: Op, q: Op, o: Outcome)
    requires Immediate(p) == Immediate(q)
    ensures Apply(p, o) == Apply(q, o)
  {
    assert Apply(p, o) == Apply(Immediate(p), o);
    assert Apply(q, o) == Apply(Immediate(q), o);
  }

  // -- each operator in its own words

  /** A settled Then: a rejected source passes its exception on; a resolved one gives what the
      handler returned for its value, or rejects with what the handler threw. A void promise
      has no value to hand over and a void handler none to return. */
  lemma ThenOutcome(s: Sys, t: nat)
    requires Reachable(s) && DoneAt(s.net, t) && s.net.defs[t].Derived? && s.net.defs[t].op.Then?
    ensures DoneAt(s.net, s.net.defs[t].src)
    ensures var op := s.net.defs[t].op;
            match OutAt(s.net, s.net.defs[t].src)
            case Rejected(err) => OutAt(s.net, t) == Rejected(err)
            case Resolved(v) =>
              (match op.onValue(if op.void then Void else v)
               case Threw(err) => OutAt(s.net, t) == Rejected(err)
               case Returned(u) => OutAt(s.net, t) == Resolved(if op.returnsVoid then Void else u))
  {
    assert NodeOk(s.net, t);
  }

  /** A settled Catch: a resolved source passes its value, packed; an exception of another type
      passes unchanged; otherwise the handler's value, packed, or what the handler threw. The
      packing is: nothing for a void side, present against a void other side, itself if both
      types are the same, and else the alternative of its side. */
  lemma CatchOutcome(s: Sys, t: nat)
    requires Reachable(s) && DoneAt(s.net, t) && s.net.defs[t].Derived? && s.net.defs[t].op.Catch?
    ensures DoneAt(s.net, s.net.defs[t].src)
    ensures var op := s.net.defs[t].op;
            match OutAt(s.net, s.net.defs[t].src)
            case Resolved(v) => OutAt(s.net, t) == Resolved(Packed(op.t, op.t2, 1, v))
            case Rejected(err) =>
              if !op.any && !op.matches(err) then OutAt(s.net, t) == Rejected(err)
              else (match op.onError(err)
                    case Threw(err') => OutAt(s.net, t) == Rejected(err')
                    case Returned(u) => OutAt(s.net, t) == Resolved(Packed(op.t2, op.t, 0, u)))
  {
    assert NodeOk(s.net, t);
  }

  /** `v` of type `own`, to be told apart from a value of type `other`. */
  function Packed(own: Type, other: Type, tag: nat, v: Value): Value {
    match (own.VoidType?, other.VoidType?)
    case (true, true) => Void
    case (true, false) => Absent
    case (false, true) => Present(v)
    case (false, false) => if own == other then v else Alternative(tag, v)
  }

  /** A settled Finally: a cleanup that throws replaces the outcome, otherwise it is the
      source's. */
  lemma FinallyOutcome(s: Sys, t: nat)
    requires Reachable(s) && DoneAt(s.net, t) && s.net.defs[t].Derived? && s.net.defs[t].op.Finally?
    ensures DoneAt(s.net, s.net.defs[t].src)
    ensures var op, o := s.net.defs[t].op, OutAt(s.net, s.net.defs[t].src);
            match op.cleanup
            case Threw(err) => OutAt(s.net, t) == Rejected(err)
            case Returned(_) =>
              if o.Resolved? && op.void then OutAt(s.net, t) == Resolved(Void) else OutAt(s.net, t) == o
  {
    assert NodeOk(s.net, t);
  }

  /** A settled derived promise has the folded outcome of a settled root. */
  lemma {:induction false} OutcomeIsFold(n: Net, t: nat)
    requires NetOk(n) && DoneAt(n, t)
    ensures DoneAt(n, PathRoot(n, t))
    ensures OutAt(n, t) == Fold(PathOps(n, t), OutAt(n, PathRoot(n, t)))
  {
    assert NodeOk(n, t);
    if n.defs[t].Derived? {
      var src, op := n.defs[t].src, n.defs[t].op;
      OutcomeIsFold(n, src);
      assert PathOps(n, t)[..|PathOps(n, src)|] == PathOps(n, src);
    }
  }

  /** Timing independence: take any two runs, with any calls, threads and schedules, and in
      each a promise derived by the same operators, up to whether handlers answer at once or
      later. If the two roots settled alike and both promises are settled, they settled
      alike, so the branch for a finished source and the branch that registers an awaiter
      always agree. */
  lemma TimingIndependence(s: Sys, t: nat, s': Sys, t': nat)
    requires Reachable(s) && DoneAt(s.net, t)
    requires Reachable(s') && DoneAt(s'.net, t')
    requires SameUpToTiming(PathOps(s.net, t), PathOps(s'.net, t'))
    requires DoneAt(s.net, PathRoot(s.net, t)) && DoneAt(s'.net, PathRoot(s'.net, t'))
    requires OutAt(s.net, PathRoot(s.net, t)) == OutAt(s'.net, PathRoot(s'.net, t'))
    ensures OutAt(s.net, t) == OutAt(s'.net, t')
  {
    OutcomeIsFold(s.net, t);
    OutcomeIsFold(s'.net, t');
    FoldIgnoresTiming(PathOps(s.net, t), PathOps(s'.net, t'), OutAt(s.net, PathRoot(s.net, t)));
  }

  /** A settled promise keeps its outcome for the rest of any run. */
  lemma OutcomeStays(s: Sys, events: seq<Event>, t: nat)
    requires SysOk(s) && IsRun(s, events) && DoneAt(s.net, t)
    ensures DoneAt(Last(s, events).net, t) && OutAt(Last(s, events).net, t) == OutAt(s.net, t)
  {
    RunOk(s, events);
    DoneGrows(s.net, Last(s, events).net, t);
  }

  // ---------------------------------------------------------------- every schedule comes to rest

  ghost predicate OnlyRuns(events: seq<Event>) {
    forall i :: 0 <= i < |events| ==> events[i].Run?
  }

  /** Without new calls no schedule, of any number of threads, is longer than the weight of
      the work at hand: a settling call and its whole cascade of continuations end. */
  lemma {:induction false} SchedulesAreBounded(s: Sys, events: seq<Event>)
    requires SysOk(s) && IsRun(s, events) && OnlyRuns(events)
    ensures |events| + Total(Last(s, events)) <= Total(s)
    decreases |events|
  {
    if events != [] {
      NextOk(s, events[0]);
      ExecWeight(s, events[0].i);
      assert OnlyRuns(events[1..]);
      SchedulesAreBounded(Next(s, events[0]), events[1..]);
    }
  }

  /** One more section on the way to rest. */
  lemma RestTurn(s: Sys, schedule: seq<Event>, r: Sys, j: nat)
    requires SysOk(s) && SysOk(r) && ProgressOk(r) && Grows(s.net, r.net) && Runnable(r, j)
    requires IsRun(s, schedule) && OnlyRuns(schedule) && r == Last(s, schedule)
    ensures SysOk(Exec(r, j)) && ProgressOk(Exec(r, j)) && Grows(s.net, Exec(r, j).net) && Total(Exec(r, j)) < Total(r)
    ensures IsRun(s, schedule + [Run(j)]) && OnlyRuns(schedule + [Run(j)]) && Exec(r, j) == Last(s, schedule + [Run(j)])
  {
    ExecOk(r, j);
    NextProgress(r, Run(j));
    ExecWeight(r, j);
    GrowsTransitive(s.net, r.net, Exec(r, j).net);
    RunAppend(s, schedule, Run(j));
  }

  /** Drains every thread; `pick` chooses which runnable thread goes next. */
  method RunToRest(s: Sys, pick: Sys -> nat) returns (r: Sys, ghost schedule: seq<Event>)
    requires SysOk(s) && ProgressOk(s)
    ensures SysOk(r) && ProgressOk(r) && Grows(s.net, r.net) && Quiet(r)
    ensures IsRun(s, schedule) && OnlyRuns(schedule) && r == Last(s, schedule)
  {
    r, schedule := s, [];
    GrowsReflexive(s.net);
    var i: nat := Busy(r);
    while i < |r.threads|
      invariant SysOk(r) && ProgressOk(r) && Grows(s.net, r.net)
      invariant IsRun(s, schedule) && OnlyRuns(schedule) && r == Last(s, schedule)
      invariant i == |r.threads| || Runnable(r, i)
      invariant i == |r.threads| ==> Quiet(r)
      decreases Total(r)
    {
      var j := if Runnable(r, pick(r)) then pick(r) else i;
      RestTurn(s, schedule, r, j);
      schedule := schedule + [Run(j)];
      r := Exec(r, j);
      i := Busy(r);
    }
  }

  /** The first thread with something left to run, or the number of threads. */
  method Busy(s: Sys) returns (i: nat)
    ensures i == |s.threads| || Runnable(s, i)
    ensures i == |s.threads| ==> Quiet(s)
  {
    i := 0;
    while i < |s.threads| && s.threads[i] == []
      invariant i <= |s.threads|
      invariant forall j :: 0 <= j < i ==> s.threads[j] == []
    {
      i := i + 1;
    }
  }

  lemma {:induction false} RunAppend(s: Sys, events: seq<Event>, e: Event)
    requires SysOk(s) && IsRun(s, events)
    requires SysOk(Last(s, events)) && Enabled(Last(s, events), e)
    ensures IsRun(s, events + [e]) && Last(s, events + [e]) == Next(Last(s, events), e)
    decreases |events|
  {
    if events == [] {
      assert (events + [e])[1..] == [];
      NextOk(s, e);
    } else {
      NextOk(s, events[0]);
      RunAppend(Next(s, events[0]), events[1..], e);
      assert (events + [e])[1..] == events[1..] + [e];
      assert (events + [e])[0] == events[0];
    }
  }

  // ---------------------------------------------------------------- and nothing is left behind

  /** At rest every descendant of a finished root is settled, with the folded outcome. */
  lemma {:induction false} CascadeIsComplete(s: Sys, t: nat)
    requires SysOk(s) && ProgressOk(s) && Quiet(s) && t < |s.net.defs|
    requires Drained(s.net.cells[PathRoot(s.net, t)])
    ensures Drained(s.net.cells[t])
    ensures OutAt(s.net, t) == Fold(PathOps(s.net, t), OutAt(s.net, PathRoot(s.net, t)))
  {
    assert NodeOk(s.net, t);
    if s.net.defs[t].Derived? {
      CascadeIsComplete(s, s.net.defs[t].src);
      QuietDerived(s, t);
    }
    OutcomeIsFold(s.net, t);
  }

  // ---------------------------------------------------------------- user promises are left alone

  /** The section settles promise `u` or ends its coroutine. */
  ghost predicate Touches(a: Action, u: nat) {
    || ((a.Flag? || a.Exchange? || a.Store? || a.Final?) && a.t == u)
    || (a.RelaySettle? && a.child == u)
  }

  ghost predicate Untouched(s: Sys, u: nat) {
    forall i, j :: 0 <= i < |s.threads| && 0 <= j < |s.threads[i]| ==> !Touches(s.threads[i][j], u)
  }

  ghost predicate SameCore(c: Cell<Cont>, c': Cell<Cont>) {
    c'.claimed == c.claimed && c'.value == c.value && c'.exception == c.exception && c'.running == c.running
  }

  ghost predicate LeavesAlone(n: Net, e: Effect, u: nat) {
    && (forall j :: 0 <= j < |e.front| ==> !Touches(e.front[j], u))
    && (forall i, j :: 0 <= i < |e.spawned| && 0 <= j < |e.spawned[i]| ==> !Touches(e.spawned[i][j], u))
    && u < |n.cells| <= |e.net.cells| && SameCore(n.cells[u], e.net.cells[u])
  }

  lemma AttachLeavesAlone(n: Net, src: nat, op: Op, next: Action, u: nat)
    requires src < |n.cells| == |n.defs| && u < |n.defs| && !Touches(next, u)
    ensures LeavesAlone(n, Attach(n, src, op, [next]), u)
  {
  }

  lemma ResumeLeavesAlone(n: Net, k: Cont, u: nat)
    requires NetOk(n) && ActionOk(n, Resume(k)) && u < |n.defs| && n.defs[u].Root?
    ensures LeavesAlone(n, ResumeEffect(n, k), u)
  {
    if k.Step? || k.Branch? {
      if UserOp(k.op) {
        CarryLeavesAlone(n, MoveOf(n.cells[k.src], k), k.tgt, u);
      } else {
        if k.op.Relay? || k.op.RelayError? {
          RelayedChild(n, k.tgt);
        }
        ForwardLeavesAlone(n, k, u);
      }
    }
  }

  lemma ForwardLeavesAlone(n: Net, k: Cont, u: nat)
    requires (k.Step? || k.Branch?) && !UserOp(k.op) && DoneAt(n, k.src) && u < |n.cells| && u != k.tgt
    requires k.op.Relay? || k.op.RelayError? ==> u != k.op.child
    ensures LeavesAlone(n, Forward(n, k.src, k.op, k.tgt), u)
  {
  }

  lemma CarryLeavesAlone(n: Net, m: Move, tgt: nat, u: nat)
    requires u < |n.cells| && u != tgt
    ensures LeavesAlone(n, Carry(n, m, tgt), u)
  {
  }

  lemma SettlesLeaveAlone(n: Net, a: Action, u: nat)
    requires |n.cells| == |n.defs| && ActionOk(n, a) && u < |n.defs| && n.defs[u].Root? && !Touches(a, u)
    requires a.Flag? || a.Exchange? || a.Store? || a.Final? || a.RelaySettle?
    ensures LeavesAlone(n, Perform(n, a), u)
  {
  }

  lemma OthersLeaveAlone(n: Net, a: Action, u: nat)
    requires |n.cells| == |n.defs| && ActionOk(n, a) && u < |n.defs| && n.defs[u].Root?
    requires a.UnhookThen? || a.CountRace? || a.RaceLoop? || a.RaceTry? || a.AllLoop?
    ensures LeavesAlone(n, Perform(n, a), u)
  {
  }

  /** No continuation ever settles a promise the user created. */
  lemma PerformLeavesAlone(n: Net, a: Action, u: nat)
    requires NetOk(n) && ActionOk(n, a) && u < |n.defs| && n.defs[u].Root? && !Touches(a, u)
    ensures LeavesAlone(n, Perform(n, a), u)
  {
    match a
    case Resume(k) => ResumeLeavesAlone(n, k, u);
    case Chain(src, ops) =>
      if ops != [] {
        AttachLeavesAlone(n, src, ops[0], Chain(|n.cells|, ops[1..]), u);
      }
    case RaceLink(cur, input, id, rest, layer) =>
      AttachLeavesAlone(n, cur, Unhook(input, id, layer), RaceLoop(|n.cells|, rest, layer), u);
    case UnhookThen(_, _, _, _) => OthersLeaveAlone(n, a, u);
    case CountRace(_) => OthersLeaveAlone(n, a, u);
    case RaceLoop(_, _, _) => OthersLeaveAlone(n, a, u);
    case RaceTry(_, _, _, _) => OthersLeaveAlone(n, a, u);
    case AllLoop(_, _, _, _) => OthersLeaveAlone(n, a, u);
    case _ => SettlesLeaveAlone(n, a, u);
  }

  lemma ExecLeavesAlone(s: Sys, i: nat, u: nat)
    requires SysOk(s) && Runnable(s, i) && u < |s.net.defs| && s.net.defs[u].Root? && !Touches(s.threads[i][0], u)
    ensures u < |Exec(s, i).net.cells| && SameCore(s.net.cells[u], Exec(s, i).net.cells[u])
    ensures Untouched(s, u) ==> Untouched(Exec(s, i), u)
  {
    var th := s.threads[i];
    assert th[0] in th;
    PerformLeavesAlone(s.net, th[0], u);
    var e := Perform(s.net, th[0]);
    var s' := Exec(s, i);
    if Untouched(s, u) {
      forall j, k | 0 <= j < |s'.threads| && 0 <= k < |s'.threads[j]| ensures !Touches(s'.threads[j][k], u) {
        if j == i {
          assert s'.threads[j] == e.front + th[1..];
          assert k >= |e.front| ==> s'.threads[j][k] == th[k - |e.front| + 1];
        } else if j < |s.threads| {
          assert s'.threads[j] == s.threads[j];
        } else {
          assert s'.threads[j] == e.spawned[j - |s.threads|];
        }
      }
    }
  }

  lemma {:induction false} RunsLeaveAlone(s: Sys, events: seq<Event>, u: nat)
    requires SysOk(s) && IsRun(s, events) && OnlyRuns(events)
    requires u < |s.net.defs| && s.net.defs[u].Root? && Untouched(s, u)
    ensures u < |Last(s, events).net.cells| && SameCore(s.net.cells[u], Last(s, events).net.cells[u])
    decreases |events|
  {
    if events != [] {
      NextOk(s, events[0]);
      ExecLeavesAlone(s, events[0].i, u);
      assert OnlyRuns(events[1..]);
      RunsLeaveAlone(Next(s, events[0]), events[1..], u);
    }
  }

  /** The other promises of the user are as in `s`, and still nobody is about to settle
      those that nobody was about to settle. */
  ghost predicate OthersSame(s: Sys, s': Sys, root: nat) {
    forall u :: 0 <= u < |s.net.defs| && s.net.defs[u].Root? && u != root ==>
      && u < |s'.net.defs| && s'.net.defs[u].Root?
      && u < |s.net.cells| && u < |s'.net.cells| && SameCore(s.net.cells[u], s'.net.cells[u])
      && (Untouched(s, u) ==> Untouched(s', u))
  }

  /** One section of a settling call or of a coroutine's end: passing the flag, the exchange, the
      store or the scope exit of final_suspend. */
  lemma SettleTurn(s0: Sys, s: Sys, i: nat, root: nat)
    requires SysOk(s) && ProgressOk(s) && Grows(s0.net, s.net) && OthersSame(s0, s, root)
    requires Runnable(s, i)
    requires var a := s.threads[i][0]; (a.Flag? || a.Exchange? || a.Store? || a.Final?) && a.t == root
    ensures var s' := Exec(s, i);
            SysOk(s') && ProgressOk(s') && Grows(s0.net, s'.net) && OthersSame(s0, s', root)
  {
    var s' := Exec(s, i);
    ExecOk(s, i);
    NextProgress(s, Run(i));
    GrowsTransitive(s0.net, s.net, s'.net);
    forall u | 0 <= u < |s0.net.defs| && s0.net.defs[u].Root? && u != root
      ensures s'.net.defs[u].Root? && SameCore(s0.net.cells[u], s'.net.cells[u])
      ensures Untouched(s0, u) ==> Untouched(s', u)
    {
      ExecLeavesAlone(s, i, u);
      assert s'.net.defs[u] == s.net.defs[u];
    }
  }

  /** A settling call that has got as far as its exchange, or was dropped at the flag. */
  ghost predicate Entered(s: Sys, r: Sys, i: nat, root: nat, o: Outcome) {
    && SysOk(r) && ProgressOk(r) && Grows(s.net, r.net) && OthersSame(s, r, root) && i < |r.threads|
    && root < |s.net.cells| && root < |r.net.cells| && r.net.cells[root] == s.net.cells[root]
    && if o.Rejected? && root in s.net.flagged then r.threads[i] == [] && root in r.net.flagged
       else r.threads[i] == [Exchange(root, o)]
  }

  /** The call up to its exchange: a rejection has to pass the flag. */
  method EnterHandle(s: Sys, root: nat, o: Outcome) returns (r: Sys)
    requires SysOk(s) && ProgressOk(s) && root < |s.net.defs| && s.net.defs[root].Root?
    ensures Entered(s, r, |s.threads|, root, o)
  {
    NextOk(s, Settle(root, o));
    NextProgress(s, Settle(root, o));
    r := Next(s, Settle(root, o));
    var i := |s.threads|;
    GrowsReflexive(s.net);
    assert OthersSame(s, r, root);
    if o.Rejected? {
      assert r.threads[i] == [Flag(root, o.error)];
      SettleTurn(s, r, i, root);
      r := Exec(r, i);
    }
  }

  /** The call of a Resolve or Reject handle, up to the dispatch of its awaiters: for a
      rejection the flag, then the exchange, and for the winner the locked store. */
  method CallHandle(s: Sys, root: nat, o: Outcome) returns (r: Sys, won: bool)
    requires SysOk(s) && ProgressOk(s)
    requires root < |s.net.defs| && s.net.defs[root].Root?
    ensures SysOk(r) && ProgressOk(r) && Grows(s.net, r.net) && OthersSame(s, r, root)
    ensures won <==> !s.net.cells[root].claimed && (o.Rejected? ==> root !in s.net.flagged)
    ensures root < |r.net.cells| && r.net.cells[root].running == s.net.cells[root].running && AnsweredAt(r.net, root)
    ensures won ==> DoneAt(r.net, root) && OutAt(r.net, root) == o
  {
    var i := |s.threads|;
    r := EnterHandle(s, root, o);
    won := false;
    if r.threads[i] != [] {
      SettleTurn(s, r, i, root);
      r := Exec(r, i);
      if r.threads[i] != [] {
        assert r.threads[i] == [Store(root, o)];
        SettleTurn(s, r, i, root);
        r := Exec(r, i);
        won := true;
      }
    }
  }

  /** Calling a handle of a coroutine-free promise, whatever other threads are doing: the call
      returns true exactly when the promise was not claimed and, for a rejection, no other
      rejection is past the flag; when everything has come to rest the promise is settled,
      with the argument if the call won, and every promise derived from it, however deep,
      has the folded outcome; other promises of the user that nobody was about to settle are
      as before. */
  method SettleAndCascade(s: Sys, root: nat, o: Outcome, pick: Sys -> nat) returns (r: Sys, won: bool)
    requires SysOk(s) && ProgressOk(s)
    requires root < |s.net.defs| && s.net.defs[root].Root? && !s.net.cells[root].running
    ensures SysOk(r) && ProgressOk(r) && Grows(s.net, r.net) && Quiet(r)
    ensures won <==> !s.net.cells[root].claimed && (o.Rejected? ==> root !in s.net.flagged)
    ensures DoneAt(r.net, root) && !r.net.cells[root].running
    ensures won ==> OutAt(r.net, root) == o
    ensures DoneAt(s.net, root) ==> OutAt(r.net, root) == OutAt(s.net, root)
    ensures forall t :: 0 <= t < |r.net.defs| && PathRoot(r.net, t) == root ==>
              Drained(r.net.cells[t]) && OutAt(r.net, t) == Fold(PathOps(r.net, t), OutAt(r.net, root))
    ensures forall u :: 0 <= u < |s.net.defs| && s.net.defs[u].Root? && u != root && Untouched(s, u) ==>
              SameCore(s.net.cells[u], r.net.cells[u])
  {
    ghost var schedule;
    var called;
    called, won := CallHandle(s, root, o);
    r, schedule := RunToRest(called, pick);
    GrowsTransitive(s.net, called.net, r.net);
    DoneGrows(called.net, r.net, root);
    DoneGrows(s.net, r.net, root);
    StaysEnded(called, schedule, root);
    QuietCells(r, root);
    forall t | 0 <= t < |r.net.defs| && PathRoot(r.net, t) == root
      ensures Drained(r.net.cells[t]) && OutAt(r.net, t) == Fold(PathOps(r.net, t), OutAt(r.net, root))
    {
      CascadeIsComplete(r, t);
    }
    forall u | 0 <= u < |s.net.defs| && s.net.defs[u].Root? && u != root && Untouched(s, u)
      ensures SameCore(s.net.cells[u], r.net.cells[u])
    {
      RunsLeaveAlone(called, schedule, u);
    }
  }

  /** No section starts a coroutine on an existing promise. */
  lemma {:induction false} StaysEnded(s: Sys, events: seq<Event>, t: nat)
    requires SysOk(s) && IsRun(s, events) && t < |s.net.cells| && !s.net.cells[t].running
    ensures t < |Last(s, events).net.cells| && !Last(s, events).net.cells[t].running
    decreases |events|
  {
    if events != [] {
      NextOk(s, events[0]);
      var s' := Next(s, events[0]);
      if events[0].Run? {
        var a := s.threads[events[0].i][0];
        assert a in s.threads[events[0].i];
        PerformEnds(s.net, a, t);
      }
      StaysEnded(s', events[1..], t);
    }
  }

  lemma PerformEnds(n: Net, a: Action, t: nat)
    requires |n.cells| == |n.defs| && ActionOk(n, a) && t < |n.cells| && !n.cells[t].running
    ensures t < |Perform(n, a).net.cells| && !Perform(n, a).net.cells[t].running
  {
    if a.Resume? {
      ResumeEnds(n, a.k, t);
    } else if !a.Chain? && !a.RaceLink? {
      SettleEnds(n, a, t);
    }
  }

  lemma ResumeEnds(n: Net, k: Cont, t: nat)
    requires DoneAt(n, k.src) && t < |n.cells| && !n.cells[t].running
    ensures t < |ResumeEffect(n, k).net.cells| && !ResumeEffect(n, k).net.cells[t].running
  {
  }

  lemma SettleEnds(n: Net, a: Action, t: nat)
    requires |n.cells| == |n.defs| && ActionOk(n, a) && t < |n.cells| && !n.cells[t].running
    requires !a.Resume? && !a.Chain? && !a.RaceLink?
    ensures t < |Perform(n, a).net.cells| && !Perform(n, a).net.cells[t].running
  {
  }

  // ---------------------------------------------------------------- All over a container

  /** Whatever order its inputs settle in, All resolves exactly when every input does, with
      result i the value of input i; otherwise it rejects exactly as the rejected input of
      lowest index. */
  lemma AllOutcome(s: Sys, t: nat)
    requires SysOk(s) && DoneAt(s.net, t) && s.net.defs[t].Gather?
    ensures var n, inputs := s.net, s.net.defs[t].inputs;
            match OutAt(n, t)
            case Resolved(v) =>
              && v.Vector? && |v.items| == |inputs|
              && (forall i :: 0 <= i < |inputs| ==> DoneAt(n, inputs[i]) && OutAt(n, inputs[i]) == Resolved(v.items[i]))
            case Rejected(err) =>
              exists k :: 0 <= k < |inputs| && DoneAt(n, inputs[k]) && OutAt(n, inputs[k]) == Rejected(err)
                          && (forall i :: 0 <= i < k ==> DoneAt(n, inputs[i]) && OutAt(n, inputs[i]).Resolved?)
    ensures OutAt(s.net, t).Resolved? <==>
              forall i :: 0 <= i < |s.net.defs[t].inputs| ==>
                DoneAt(s.net, s.net.defs[t].inputs[i]) && OutAt(s.net, s.net.defs[t].inputs[i]).Resolved?
  {
    var n := s.net;
    assert NodeOk(n, t);
    if OutAt(n, t).Rejected? {
      var k :| FailedAt(n, n.defs[t].inputs, k, OutAt(n, t));
    }
  }

  /** At rest All is settled as soon as its inputs are finished. */
  lemma AllSettles(s: Sys, t: nat)
    requires SysOk(s) && ProgressOk(s) && Quiet(s) && t < |s.net.defs| && s.net.defs[t].Gather?
    requires forall i :: 0 <= i < |s.net.defs[t].inputs| ==>
               s.net.defs[t].inputs[i] < |s.net.cells| && Drained(s.net.cells[s.net.defs[t].inputs[i]])
    ensures Drained(s.net.cells[t])
  {
    QuietGather(s, t);
  }
}
