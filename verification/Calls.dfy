/** What the calls into the network promise their callers: a new promise, the end of a
    coroutine, a chain of operators, All over a container, and the use Race makes of its
    participants. */
module Calls {
  import opened Values
  import opened Cells
  import opened Operators
  import opened Graph
  import opened GraphSafety
  import opened GraphRuns
  import opened GraphProgress
  import opened Continuations
  import opened RaceCleanup
  import opened Races

  // ---------------------------------------------------------------- a new promise

  /** A promise just created is pending and stays so, with its coroutine running or not as it
      was created, as long as nobody calls it. */
  lemma NewPromiseIsPending(s: Sys, running: bool, events: seq<Event>)
    requires SysOk(s) && SysOk(Next(s, Create(running)))
    requires IsRun(Next(s, Create(running)), events) && OnlyRuns(events)
    ensures var n, t := Last(Next(s, Create(running)), events).net, |s.net.cells|;
            t < |n.cells| && !n.cells[t].claimed && !IsDone(n.cells[t]) && n.cells[t].running == running
  {
    var s', t := Next(s, Create(running)), |s.net.cells|;
    forall i, j | 0 <= i < |s'.threads| && 0 <= j < |s'.threads[i]| ensures !Touches(s'.threads[i][j], t) {
      assert s.threads[i][j] in s.threads[i] && ActionOk(s.net, s.threads[i][j]);
    }
    RunsLeaveAlone(s', events, t);
  }

  // ---------------------------------------------------------------- All over a container

  /** Resolved with the values of all inputs in order, or rejected with the exception of the
      first rejected input, all before it being resolved. */
  ghost predicate Gathers(n: Net, inputs: seq<nat>, o: Outcome) {
    match o
    case Resolved(v) =>
      && v.Vector? && |v.items| == |inputs|
      && (forall i :: 0 <= i < |inputs| ==> DoneAt(n, inputs[i]) && OutAt(n, inputs[i]) == Resolved(v.items[i]))
    case Rejected(err) =>
      exists k :: 0 <= k < |inputs| && DoneAt(n, inputs[k]) && OutAt(n, inputs[k]) == Rejected(err)
                  && (forall i :: 0 <= i < k ==> DoneAt(n, inputs[i]) && OutAt(n, inputs[i]).Resolved?)
  }

  ghost predicate AllFinished(n: Net, inputs: seq<nat>) {
    forall i :: 0 <= i < |inputs| ==> inputs[i] < |n.cells| && Drained(n.cells[inputs[i]])
  }

  /** All over `inputs`, in every run after the call: settled, it gathers the inputs of the call;
      at rest it is settled once they are finished. */
  lemma AllOfContainer(s: Sys, inputs: seq<nat>, events: seq<Event>)
    requires SysOk(s) && ProgressOk(s) && Enabled(s, StartAll(inputs))
    requires SysOk(Next(s, StartAll(inputs))) && IsRun(Next(s, StartAll(inputs)), events)
    ensures var r := Last(Next(s, StartAll(inputs)), events);
            && |s.net.cells| < |r.net.cells|
            && (DoneAt(r.net, |s.net.cells|) ==> Gathers(r.net, inputs, OutAt(r.net, |s.net.cells|)))
            && (Quiet(r) && AllFinished(r.net, inputs) ==> Drained(r.net.cells[|s.net.cells|]))
  {
    var s', t := Next(s, StartAll(inputs)), |s.net.cells|;
    assert s'.net.defs[t] == Gather(inputs);
    NextProgress(s, StartAll(inputs));
    RunOk(s', events);
    RunProgress(s', events);
    var r := Last(s', events);
    assert r.net.defs[t] == Gather(inputs);
    if DoneAt(r.net, t) {
      AllOutcome(r, t);
    }
    if Quiet(r) && AllFinished(r.net, inputs) {
      AllSettles(r, t);
    }
  }

  // ---------------------------------------------------------------- a chain of operators

  /** `c` is the path that starts at `src` and applies the operators one after the other, each
      to the promise of the one before it; all but `src` are at least `first`. */
  ghost predicate Path(n: Net, c: seq<nat>, src: nat, ops: seq<Op>, first: nat) {
    && |c| == |ops| + 1 && c[0] == src
    && (forall j :: 0 <= j < |ops| ==> Link(n, c[j], c[j + 1], ops[j], first))
  }

  ghost predicate Link(n: Net, src: nat, t: nat, op: Op, first: nat) {
    first <= t < |n.defs| && n.defs[t] == Derived(src, op)
  }

  /** Thread `i` has attached the first operators, and the rest is the last thing it will do. */
  ghost predicate Chaining(s: Sys, i: nat, c: seq<nat>, src: nat, ops: seq<Op>, first: nat) {
    && 1 <= |c| <= |ops| + 1 && i < |s.threads| && first <= |s.net.cells|
    && Path(s.net, c, src, ops[..|c| - 1], first)
    && if s.threads[i] == [] then |c| == |ops| + 1
       else s.threads[i][|s.threads[i]| - 1] == Chain(c[|c| - 1], ops[|c| - 1..])
  }

  lemma PathGrows(n: Net, n': Net, c: seq<nat>, src: nat, ops: seq<Op>, first: nat)
    requires Grows(n, n') && Path(n, c, src, ops, first)
    ensures Path(n', c, src, ops, first)
  {
    forall j | 0 <= j < |ops| ensures Link(n', c[j], c[j + 1], ops[j], first) {
      assert Link(n, c[j], c[j + 1], ops[j], first);
    }
  }

  /** The chaining thread attaches one more operator to the promise it made last. */
  lemma ChainTurn(s: Sys, i: nat, c: seq<nat>, src: nat, ops: seq<Op>, first: nat) returns (c': seq<nat>)
    requires SysOk(s) && Runnable(s, i) && Chaining(s, i, c, src, ops, first) && |s.threads[i]| == 1
    ensures Chaining(Exec(s, i), i, c', src, ops, first)
  {
    var k, t := |c| - 1, |s.net.cells|;
    var rest := ops[k..];
    var s' := Exec(s, i);
    assert s.threads[i] == [Chain(c[k], rest)] && s.threads[i][0] in s.threads[i];
    ExecOk(s, i);
    PathGrows(s.net, s'.net, c, src, ops[..k], first);
    c' := c;
    if rest != [] {
      c' := c + [t];
      assert rest[0] == ops[k] && rest[1..] == ops[k + 1..];
      AttachShape(s.net, c[k], rest[0], [Chain(t, rest[1..])]);
      assert s'.net.defs[t] == Derived(c[k], ops[k]);
      forall j | 0 <= j < k + 1 ensures Link(s'.net, c'[j], c'[j + 1], ops[..k + 1][j], first) {
        assert j < k ==> Link(s'.net, c[j], c[j + 1], ops[..k][j], first);
      }
    }
  }

  lemma ChainStep(s: Sys, e: Event, i: nat, c: seq<nat>, src: nat, ops: seq<Op>, first: nat) returns (c': seq<nat>)
    requires SysOk(s) && Enabled(s, e) && Chaining(s, i, c, src, ops, first)
    ensures Chaining(Next(s, e), i, c', src, ops, first)
  {
    var s' := Next(s, e);
    NextOk(s, e);
    if e == Run(i) && |s.threads[i]| == 1 {
      c' := ChainTurn(s, i, c, src, ops, first);
    } else {
      c' := c;
      PathGrows(s.net, s'.net, c, src, ops[..|c| - 1], first);
      if e == Run(i) {
        var front := Perform(s.net, s.threads[i][0]).front;
        assert s'.threads[i] == front + s.threads[i][1..];
      } else {
        assert s'.threads[i] == s.threads[i];
      }
    }
  }

  lemma {:induction false} ChainRun(s: Sys, events: seq<Event>, i: nat, c: seq<nat>, src: nat, ops: seq<Op>, first: nat)
    returns (c': seq<nat>)
    requires SysOk(s) && IsRun(s, events) && Chaining(s, i, c, src, ops, first)
    ensures Chaining(Last(s, events), i, c', src, ops, first)
    decreases |events|
  {
    c' := c;
    if events != [] {
      NextOk(s, events[0]);
      c' := ChainStep(s, events[0], i, c, src, ops, first);
      c' := ChainRun(Next(s, events[0]), events[1..], i, c', src, ops, first);
    }
  }

  /** A chain of operators on `src`, whatever other threads do meanwhile: when the call has
      returned there is a path of new promises, each derived from the one before it by its own
      operator. At rest, if `src` is finished, the last of them is, too, with the outcome of
      the operators folded in order. */
  lemma ChainOfOperators(s: Sys, src: nat, ops: seq<Op>, events: seq<Event>) returns (c: seq<nat>)
    requires SysOk(s) && ProgressOk(s) && Enabled(s, Call(src, ops)) && SysOk(Next(s, Call(src, ops)))
    requires IsRun(Next(s, Call(src, ops)), events)
    requires var r := Last(Next(s, Call(src, ops)), events); |s.threads| < |r.threads| && r.threads[|s.threads|] == []
    ensures var r := Last(Next(s, Call(src, ops)), events);
            && Path(r.net, c, src, ops, |s.net.cells|)
            && (Quiet(r) && src < |r.net.cells| && Drained(r.net.cells[src]) ==>
                  c[|ops|] < |r.net.cells| && Drained(r.net.cells[c[|ops|]])
                  && OutAt(r.net, c[|ops|]) == Fold(ops, OutAt(r.net, src)))
  {
    var s', i := Next(s, Call(src, ops)), |s.threads|;
    assert ops[..0] == [] && ops[0..] == ops;
    c := ChainRun(s', events, i, [src], src, ops, |s.net.cells|);
    assert ops[..|ops|] == ops;
    NextProgress(s, Call(src, ops));
    RunOk(s', events);
    RunProgress(s', events);
    var r := Last(s', events);
    if Quiet(r) && src < |r.net.cells| && Drained(r.net.cells[src]) {
      PathSettles(r, c, src, ops, |s.net.cells|);
    }
  }

  lemma {:induction false} PathSettles(s: Sys, c: seq<nat>, src: nat, ops: seq<Op>, first: nat)
    requires SysOk(s) && ProgressOk(s) && Quiet(s) && src < |s.net.cells| && Drained(s.net.cells[src])
    requires Path(s.net, c, src, ops, first)
    ensures c[|ops|] < |s.net.cells| && Drained(s.net.cells[c[|ops|]])
    ensures OutAt(s.net, c[|ops|]) == Fold(ops, OutAt(s.net, src))
    decreases |ops|
  {
    if ops != [] {
      var k := |ops| - 1;
      forall j | 0 <= j < k ensures Link(s.net, c[..k + 1][j], c[..k + 1][j + 1], ops[..k][j], first) {
        assert Link(s.net, c[j], c[j + 1], ops[j], first);
      }
      PathSettles(s, c[..k + 1], src, ops[..k], first);
      assert Link(s.net, c[k], c[k + 1], ops[k], first);
      QuietDerived(s, c[k + 1]);
      assert NodeOk(s.net, c[k + 1]);
    }
  }

  // ---------------------------------------------------------------- the end of a coroutine

  /** Whoever had claimed the promise, or settled it, still has. */
  ghost predicate ClaimsKept(s: Sys, r: Sys, root: nat) {
    forall j: nat, o :: Decided(s, j, root, o) ==> Decided(r, j, root, o)
  }

  lemma StepKeepsClaims(s0: Sys, s: Sys, e: Event, root: nat)
    requires SysOk(s) && Enabled(s, e) && ClaimsKept(s0, s, root)
    ensures ClaimsKept(s0, Next(s, e), root)
  {
    forall j: nat, o | Decided(s0, j, root, o) ensures Decided(Next(s, e), j, root, o) {
      DecidedStep(s, j, root, o, e);
    }
  }

  /** The state after sections of a coroutine's end on thread `i`. */
  ghost predicate Ending(s: Sys, r: Sys, i: nat, root: nat) {
    && SysOk(r) && ProgressOk(r) && Grows(s.net, r.net) && OthersSame(s, r, root) && ClaimsKept(s, r, root)
    && |r.threads| == |s.threads| + 1 && i == |s.threads| && root < |s.net.cells| && root < |r.net.cells|
    && (forall q :: 0 <= q < |s.threads| ==> r.threads[q] == s.threads[q])
  }

  lemma EndTurn(s: Sys, r: Sys, i: nat, root: nat)
    requires Ending(s, r, i, root) && r.threads[i] != []
    requires var a := r.threads[i][0]; (a.Exchange? || a.Store? || a.Final?) && a.t == root
    ensures Ending(s, Exec(r, i), i, root)
  {
    assert r.threads[i][0] in r.threads[i];
    SettleTurn(s, r, i, root);
    StepKeepsClaims(s, r, Run(i), root);
  }

  method BeginEnd(s: Sys, root: nat, result: Option<Outcome>) returns (r: Sys)
    requires SysOk(s) && ProgressOk(s) && root < |s.net.defs| && s.net.defs[root].Root?
    ensures Ending(s, r, |s.threads|, root) && r.net == s.net
    ensures r.threads[|s.threads|]
            == if result.Some? then [Exchange(root, result.value), Final(root)] else [Final(root)]
  {
    NextOk(s, EndBody(root, result));
    NextProgress(s, EndBody(root, result));
    r := Next(s, EndBody(root, result));
    GrowsReflexive(s.net);
    StepKeepsClaims(s, s, EndBody(root, result), root);
  }

  /** A coroutine ends: it returned or threw `result`, or, driven by handles, it just ended.
      Its own result is stored exactly if nobody had claimed the promise; the handle is cleared
      in any case and nothing else of the promise changes. */
  method EndCoroutine(s: Sys, root: nat, result: Option<Outcome>) returns (r: Sys, won: bool)
    requires SysOk(s) && ProgressOk(s)
    requires root < |s.net.defs| && s.net.defs[root].Root? && s.net.cells[root].running
    ensures Ending(s, r, |s.threads|, root) && !r.net.cells[root].running
    ensures won <==> result.Some? && !s.net.cells[root].claimed
    ensures won ==> DoneAt(r.net, root) && OutAt(r.net, root) == result.value
    ensures r.net.cells[root].claimed <==> s.net.cells[root].claimed || result.Some?
    ensures !won ==>
              && r.net.cells[root].value == s.net.cells[root].value
              && r.net.cells[root].exception == s.net.cells[root].exception
    ensures forall j :: 0 <= j < |r.threads[|s.threads|]| ==> r.threads[|s.threads|][j].Resume?
  {
    r := BeginEnd(s, root, result);
    won := false;
    if result.Some? {
      r, won := StoreResult(s, r, root, result.value);
    }
    FinalClears(r, |s.threads|, root);
    EndTurn(s, r, |s.threads|, root);
    r := Exec(r, |s.threads|);
  }

  /** The exchange and, if it is won, the store; the scope exit is left to do. */
  method StoreResult(s: Sys, begun: Sys, root: nat, o: Outcome) returns (r: Sys, won: bool)
    requires Ending(s, begun, |s.threads|, root) && begun.net == s.net && s.net.cells[root].running
    requires begun.threads[|s.threads|] == [Exchange(root, o), Final(root)]
    ensures Ending(s, r, |s.threads|, root) && r.threads[|s.threads|] == [Final(root)]
    ensures won <==> !s.net.cells[root].claimed
    ensures r.net.cells[root].claimed && r.net.cells[root].running
    ensures if won then DoneAt(r.net, root) && OutAt(r.net, root) == o else r.net.cells[root] == s.net.cells[root]
  {
    var i := |s.threads|;
    EndTurn(s, begun, i, root);
    r := Exec(begun, i);
    won := !s.net.cells[root].claimed;
    if won {
      assert r.threads[i] == [Store(root, o), Final(root)];
      EndTurn(s, r, i, root);
      r := Exec(r, i);
    }
  }

  /** The scope exit of final_suspend clears the handle, dispatches, and changes no outcome. */
  lemma FinalClears(r: Sys, i: nat, root: nat)
    requires SysOk(r) && i < |r.threads| && r.threads[i] == [Final(root)] && root < |r.net.cells|
    ensures var r' := Exec(r, i);
            && root < |r'.net.cells| && i < |r'.threads| && !r'.net.cells[root].running
            && r'.net.cells[root].claimed == r.net.cells[root].claimed
            && r'.net.cells[root].value == r.net.cells[root].value
            && r'.net.cells[root].exception == r.net.cells[root].exception
            && (forall j :: 0 <= j < |r'.threads[i]| ==> r'.threads[i][j].Resume?)
  {
    assert r.threads[i][0] in r.threads[i];
  }

  /** The end of a coroutine and everything that follows from it, whatever other threads are
      doing: at rest its handle is cleared; if it had a result or somebody had claimed the
      promise, the promise is settled and drained, with the coroutine's result if that came
      first and else with what the claimer brought, and every promise derived from it has the
      folded outcome; a coroutine that ends without a result settles nothing. */
  method EndAndCascade(s: Sys, root: nat, result: Option<Outcome>, pick: Sys -> nat) returns (r: Sys, won: bool)
    requires SysOk(s) && ProgressOk(s)
    requires root < |s.net.defs| && s.net.defs[root].Root? && s.net.cells[root].running
    ensures SysOk(r) && ProgressOk(r) && Grows(s.net, r.net) && Quiet(r)
    ensures root < |r.net.cells| && !r.net.cells[root].running
    ensures won <==> result.Some? && !s.net.cells[root].claimed
    ensures result.Some? || s.net.cells[root].claimed ==> Drained(r.net.cells[root])
    ensures won ==> OutAt(r.net, root) == result.value
    ensures forall j: nat, o :: Decided(s, j, root, o) ==> DoneAt(r.net, root) && OutAt(r.net, root) == o
    ensures Drained(r.net.cells[root]) ==>
              forall t :: 0 <= t < |r.net.defs| && PathRoot(r.net, t) == root ==>
                Drained(r.net.cells[t]) && OutAt(r.net, t) == Fold(PathOps(r.net, t), OutAt(r.net, root))
    ensures result.None? && !s.net.cells[root].claimed && Untouched(s, root) ==>
              !r.net.cells[root].claimed && !IsDone(r.net.cells[root])
  {
    var ended;
    ended, won := EndCoroutine(s, root, result);
    ghost var schedule;
    r, schedule := RunToRest(ended, pick);
    GrowsTransitive(s.net, ended.net, r.net);
    DoneGrows(ended.net, r.net, root);
    StaysEnded(ended, schedule, root);
    QuietCells(r, root);
    forall j: nat, o | Decided(s, j, root, o) ensures DoneAt(r.net, root) && OutAt(r.net, root) == o {
      ClaimDecides(ended, j, root, o, schedule);
    }
    if Drained(r.net.cells[root]) {
      forall t | 0 <= t < |r.net.defs| && PathRoot(r.net, t) == root
        ensures Drained(r.net.cells[t]) && OutAt(r.net, t) == Fold(PathOps(r.net, t), OutAt(r.net, root))
      {
        CascadeIsComplete(r, t);
      }
    }
    if result.None? && !s.net.cells[root].claimed && Untouched(s, root) {
      NothingSettled(s, ended, root, schedule);
    }
  }

  lemma NothingSettled(s: Sys, ended: Sys, root: nat, schedule: seq<Event>)
    requires SysOk(s) && Ending(s, ended, |s.threads|, root) && root < |s.net.defs| && s.net.defs[root].Root?
    requires Untouched(s, root) && !ended.net.cells[root].claimed && IsRun(ended, schedule) && OnlyRuns(schedule)
    requires forall j :: 0 <= j < |ended.threads[|s.threads|]| ==> ended.threads[|s.threads|][j].Resume?
    ensures root < |Last(ended, schedule).net.cells|
    ensures !Last(ended, schedule).net.cells[root].claimed && !IsDone(Last(ended, schedule).net.cells[root])
  {
    assert ended.net.defs[root] == s.net.defs[root] && NodeOk(ended.net, root);
    forall q, j | 0 <= q < |ended.threads| && 0 <= j < |ended.threads[q]| ensures !Touches(ended.threads[q][j], root) {
      assert q < |s.threads| ==> ended.threads[q] == s.threads[q];
    }
    RunsLeaveAlone(ended, schedule, root);
  }

  /** A claimed promise has its claimer: it is settled, or a thread is about to store. */
  lemma ClaimedIsDecided(s: Sys, root: nat) returns (j: nat, o: Outcome)
    requires SysOk(s) && ProgressOk(s) && root < |s.net.cells| && s.net.cells[root].claimed
    ensures Decided(s, j, root, o)
  {
    if IsDone(s.net.cells[root]) {
      j, o := 0, Out(s.net.cells[root]);
    } else {
      assert Owed(s.net, Stores(root));
      var i :| 0 <= i < |s.threads| && QueuedIn(s.threads[i], Stores(root));
      var k :| 0 <= k < |s.threads[i]| && Carries(s.threads[i][k], Stores(root));
      assert k == 0;
      j, o := i, s.threads[i][0].o;
    }
  }

  // ---------------------------------------------------------------- Race uses its participants

  /** The participant is settled, or has been used since `n0`: a thread in WaitAwaited on it has
      been woken. */
  ghost predicate Used(n0: Net, n: Net, input: nat) {
    || DoneAt(n, input)
    || (input < |n0.cells| && input < |n.cells| && n.cells[input].useCount > n0.cells[input].useCount)
  }

  /** The participants a building section still has to look at. */
  function Remaining(a: Action): seq<Entry>
    requires Builds(a)
  {
    if a.RaceTry? then [a.e] + a.rest else a.rest
  }

  /** A thread that builds the race as the last thing it does; every participant it is past is
      used or about to be counted. */
  ghost predicate UsingThread(n0: Net, n: Net, th: Thread, entries: seq<Entry>) {
    if th == [] then forall q :: 0 <= q < |entries| ==> Used(n0, n, entries[q].input)
    else
      var a := th[|th| - 1];
      && Builds(a) && |Remaining(a)| <= |entries| && Remaining(a) == entries[|entries| - |Remaining(a)|..]
      && (forall q :: 0 <= q < |entries| - |Remaining(a)| ==>
            Used(n0, n, entries[q].input) || CountRace(entries[q].input) in th)
  }

  ghost predicate Using(n0: Net, s: Sys, i: nat, entries: seq<Entry>) {
    && i < |s.threads| && |n0.cells| <= |s.net.cells|
    && (forall q :: 0 <= q < |entries| ==> entries[q].input < |n0.cells|)
    && UsingThread(n0, s.net, s.threads[i], entries)
  }

  lemma UsedGrows(n0: Net, n: Net, n': Net, input: nat)
    requires Grows(n, n') && Used(n0, n, input)
    ensures Used(n0, n', input)
  {
    DoneGrows(n, n', input);
    if input < |n.cells| {
      assert CellGrows(n.cells[input], n'.cells[input]);
    }
  }

  /** A building section goes on with the same participants, or is past the first of them, which
      is used or about to be counted. */
  ghost predicate Advances(n0: Net, e: Effect, rem: seq<Entry>) {
    if e.front == [] then rem == []
    else
      var b := e.front[|e.front| - 1];
      && Builds(b)
      && (|| Remaining(b) == rem
          || (rem != [] && Remaining(b) == rem[1..]
              && (Used(n0, e.net, rem[0].input) || CountRace(rem[0].input) in e.front)))
  }

  lemma LoopUses(n0: Net, n: Net, a: Action)
    requires |n.cells| == |n.defs| && ActionOk(n, a) && a.RaceLoop?
    ensures Advances(n0, Perform(n, a), Remaining(a))
  {
    if a.rest != [] {
      assert a.rest == [a.rest[0]] + a.rest[1..];
    }
  }

  lemma TryUses(n0: Net, n: Net, a: Action)
    requires |n.cells| == |n.defs| && ActionOk(n, a) && a.RaceTry? && a.e.input < |n0.cells| <= |n.cells|
    requires n0.cells[a.e.input].useCount <= n.cells[a.e.input].useCount
    ensures Advances(n0, Perform(n, a), Remaining(a))
  {
    assert Remaining(a)[0] == a.e && Remaining(a)[1..] == a.rest;
  }

  lemma LinkUses(n0: Net, n: Net, a: Action)
    requires |n.cells| == |n.defs| && ActionOk(n, a) && a.RaceLink?
    ensures Advances(n0, Perform(n, a), Remaining(a))
  {
  }

  lemma BuildUses(n0: Net, n: Net, a: Action, entries: seq<Entry>)
    requires |n.cells| == |n.defs| && ActionOk(n, a) && Builds(a) && Grows(n0, n)
    requires |Remaining(a)| <= |entries| && Remaining(a) == entries[|entries| - |Remaining(a)|..]
    requires forall q :: 0 <= q < |entries| ==> entries[q].input < |n0.cells|
    ensures Advances(n0, Perform(n, a), Remaining(a))
  {
    match a
    case RaceLoop(_, _, _) => LoopUses(n0, n, a);
    case RaceTry(_, e, _, _) =>
      assert Remaining(a)[0] == e && e == entries[|entries| - |Remaining(a)|];
      assert CellGrows(n0.cells[e.input], n.cells[e.input]);
      TryUses(n0, n, a);
    case RaceLink(_, _, _, _, _) => LinkUses(n0, n, a);
  }

  lemma UseStep(n0: Net, s: Sys, i: nat, entries: seq<Entry>)
    requires SysOk(s) && Runnable(s, i) && Using(n0, s, i, entries) && Grows(n0, s.net)
    ensures Using(n0, Exec(s, i), i, entries)
  {
    var th := s.threads[i];
    assert th[0] in th;
    ExecOk(s, i);
    if |th| == 1 {
      BuildUses(n0, s.net, th[0], entries);
    }
    forall q | 0 <= q < |entries| && (Used(n0, s.net, entries[q].input) || CountRace(entries[q].input) in th)
      ensures Used(n0, Exec(s, i).net, entries[q].input) || CountRace(entries[q].input) in th[1..]
    {
      StillUsed(n0, s, i, entries[q].input);
    }
    UseThread(n0, s.net, th, Perform(s.net, th[0]), entries);
    assert Exec(s, i).threads[i] == Perform(s.net, th[0]).front + th[1..];
  }

  lemma UseThread(n0: Net, n: Net, th: Thread, e: Effect, entries: seq<Entry>)
    requires th != [] && UsingThread(n0, n, th, entries)
    requires |th| == 1 ==> Advances(n0, e, Remaining(th[0]))
    requires forall q :: 0 <= q < |entries| && (Used(n0, n, entries[q].input) || CountRace(entries[q].input) in th) ==>
               Used(n0, e.net, entries[q].input) || CountRace(entries[q].input) in th[1..]
    ensures UsingThread(n0, e.net, e.front + th[1..], entries)
  {
    var th' := e.front + th[1..];
    if |th| == 1 {
      assert th' == e.front;
    } else {
      assert th'[|th'| - 1] == th[|th| - 1];
    }
  }

  lemma StillUsed(n0: Net, s: Sys, i: nat, input: nat)
    requires SysOk(s) && Runnable(s, i) && Grows(n0, s.net) && input < |n0.cells|
    requires Used(n0, s.net, input) || CountRace(input) in s.threads[i]
    ensures Used(n0, Exec(s, i).net, input) || CountRace(input) in s.threads[i][1..]
  {
    var th := s.threads[i];
    assert th[0] in th && th == [th[0]] + th[1..];
    ExecOk(s, i);
    assert CellGrows(n0.cells[input], s.net.cells[input]);
    if Used(n0, s.net, input) {
      UsedGrows(n0, s.net, Exec(s, i).net, input);
    }
  }

  lemma {:induction false} UseRun(n0: Net, s: Sys, events: seq<Event>, i: nat, entries: seq<Entry>)
    requires SysOk(s) && IsRun(s, events) && Using(n0, s, i, entries) && Grows(n0, s.net)
    ensures Using(n0, Last(s, events), i, entries)
    decreases |events|
  {
    if events != [] {
      var s' := Next(s, events[0]);
      NextOk(s, events[0]);
      GrowsTransitive(n0, s.net, s'.net);
      if events[0] == Run(i) {
        UseStep(n0, s, i, entries);
      } else {
        assert s'.threads[i] == s.threads[i];
        forall q | 0 <= q < |entries| && Used(n0, s.net, entries[q].input) ensures Used(n0, s'.net, entries[q].input) {
          UsedGrows(n0, s.net, s'.net, entries[q].input);
        }
      }
      UseRun(n0, s', events[1..], i, entries);
    }
  }

  /** Race uses every participant, also those it only skips because the race is already decided:
      when the call has returned, whatever other threads did meanwhile, each participant is
      settled or its use count has grown. */
  lemma RaceUsesParticipants(s: Sys, entries: seq<Entry>, events: seq<Event>, q: nat)
    requires SysOk(s) && Enabled(s, StartRace(entries)) && SysOk(Next(s, StartRace(entries))) && q < |entries|
    requires IsRun(Next(s, StartRace(entries)), events)
    requires |s.threads| < |Last(Next(s, StartRace(entries)), events).threads|
    requires Last(Next(s, StartRace(entries)), events).threads[|s.threads|] == []
    ensures Used(s.net, Last(Next(s, StartRace(entries)), events).net, entries[q].input)
  {
    var s' := Next(s, StartRace(entries));
    NextOk(s, StartRace(entries));
    assert entries[0..] == entries;
    UseRun(s.net, s', events, |s.threads|, entries);
  }
}
