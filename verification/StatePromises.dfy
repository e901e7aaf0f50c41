/** StatePromise: a ready promise and a done promise that can be replaced once they are
    resolved, and the waits that race them. Calls are not reentrant: each runs its cascade to
    rest before the next one starts. */
module StatePromises {
  import opened Values
  import opened Cells
  import opened Operators
  import opened Graph
  import opened GraphSafety
  import opened GraphRuns
  import opened GraphProgress
  import opened Continuations
  import opened Races

  function ThrowEnd(v: Value): Ran {
    Threw(End)
  }

  function Same(v: Value): Value {
    v
  }

  /** The handler of WaitDoneWithReject. */
  const RejectWithEnd: Op := Then(true, true, ThrowEnd, false)

  /** One call of WaitWithReject: the done and ready promises it used, the promise that
      rejects after done, the race between the two, and the promise it returned. */
  datatype Ticket = Ticket(done: nat, ready: nat, rejecting: nat, race: nat, result: nat)

  function Participants(k: Ticket): seq<Entry> {
    [Entry(k.rejecting, Same), Entry(k.ready, Same)]
  }

  ghost predicate TicketOk(n: Net, k: Ticket) {
    && k.rejecting < |n.defs| && n.defs[k.rejecting] == Derived(k.done, RejectWithEnd)
    && k.race < |n.defs| && n.defs[k.race] == Contest(Participants(k))
    && InLayer(n, k.result, k.race)
    && k.done < |n.defs| && k.ready < |n.defs|
  }

  /** A user-created promise without a coroutine, pending or resolved. */
  ghost predicate PlainAt(n: Net, t: nat) {
    && t < |n.defs| == |n.cells| && n.defs[t].Root? && !n.cells[t].running
    && (IsDone(n.cells[t]) ==> Out(n.cells[t]) == Resolved(Void))
  }

  lemma TicketGrows(n: Net, n': Net, k: Ticket)
    requires Grows(n, n') && TicketOk(n, k)
    ensures TicketOk(n', k)
  {
    assert n'.defs[k.race] == n.defs[k.race] && n'.defs[k.result] == n.defs[k.result];
  }

  lemma {:induction false} LayerRoot(n: Net, cur: nat, layer: nat)
    requires NetOk(n) && InLayer(n, cur, layer)
    ensures PathRoot(n, cur) == layer
    decreases cur
  {
    assert NodeOk(n, cur);
    if cur != layer {
      LayerRoot(n, n.defs[cur].src, layer);
    }
  }

  /** At rest, with exactly one of the two promises settled, the wait is decided by it. */
  lemma WaitDecided(s: Sys, k: Ticket)
    requires SysOk(s) && ProgressOk(s) && Quiet(s) && TicketOk(s.net, k)
    requires PlainAt(s.net, k.done) && PlainAt(s.net, k.ready)
    requires IsDone(s.net.cells[k.done]) != IsDone(s.net.cells[k.ready])
    ensures DoneAt(s.net, k.result)
    ensures OutAt(s.net, k.result) == if IsDone(s.net.cells[k.done]) then Rejected(End) else Resolved(Void)
  {
    var n := s.net;
    var entries := n.defs[k.race].entries;
    assert entries[0] in entries && entries[1] in entries;
    assert NodeOk(n, k.rejecting);
    if IsDone(n.cells[k.done]) {
      QuietDerived(s, k.rejecting);
      assert NodeOk(n, k.rejecting);
      QuietContest(s, k.race, entries[0]);
    } else {
      QuietContest(s, k.race, entries[1]);
    }
    LayerRoot(n, k.result, k.race);
    CascadeIsComplete(s, k.result);
    LayerOutcome(n, k.result, k.race);
    assert NodeOk(n, k.race);
    var j :| 0 <= j < |entries| && Scored(n, entries[j], OutAt(n, k.race));
    if j == 0 {
      assert DoneAt(n, k.rejecting);
    }
  }

  /** With ready already settled first, the wait resolves at once. */
  lemma WaitAlreadyReady(s: Sys, k: Ticket)
    requires SysOk(s) && ProgressOk(s) && Quiet(s) && TicketOk(s.net, k)
    requires PlainAt(s.net, k.done) && PlainAt(s.net, k.ready) && IsDone(s.net.cells[k.ready])
    ensures DoneAt(s.net, k.result)
  {
    var entries := s.net.defs[k.race].entries;
    assert entries[1] in entries;
    QuietContest(s, k.race, entries[1]);
    LayerRoot(s.net, k.result, k.race);
    CascadeIsComplete(s, k.result);
  }

  /** Bookkeeping of one wait: its promise is settled, or it still races the two promises
      that are current and both of them are pending, so it can not be orphaned. */
  ghost predicate WaitOk(n: Net, k: Ticket, ready: nat, done: nat) {
    && TicketOk(n, k)
    && (DoneAt(n, k.result)
        || (k.ready == ready && k.done == done && !DoneAt(n, ready) && !DoneAt(n, done)))
  }

  ghost predicate AtRest(s: Sys) {
    SysOk(s) && ProgressOk(s) && Quiet(s)
  }

  /** Creating a promise at rest. */
  method NewPromise(s: Sys) returns (r: Sys, t: nat)
    requires AtRest(s)
    ensures AtRest(r) && Grows(s.net, r.net) && r.net.tips == s.net.tips
    ensures t == |s.net.cells| && PlainAt(r.net, t) && !DoneAt(r.net, t)
    ensures forall u :: 0 <= u < |s.net.cells| ==> r.net.cells[u] == s.net.cells[u]
  {
    NextOk(s, Create(false));
    NextProgress(s, Create(false));
    t := |s.net.cells|;
    r := Next(s, Create(false));
  }

  lemma PlainGrows(n: Net, n': Net, t: nat)
    requires Grows(n, n') && PlainAt(n, t) && !n'.cells[t].running
    requires DoneAt(n', t) ==> DoneAt(n, t) || OutAt(n', t) == Resolved(Void)
    ensures PlainAt(n', t)
  {
    DoneGrows(n, n', t);
    assert n'.defs[t] == n.defs[t];
  }

  /** Resolving a plain promise at rest, with the whole cascade. */
  method ResolvePlain(s: Sys, t: nat) returns (r: Sys)
    requires AtRest(s) && PlainAt(s.net, t)
    ensures AtRest(r) && Grows(s.net, r.net) && PlainAt(r.net, t) && DoneAt(r.net, t)
    ensures forall u: nat :: u != t && PlainAt(s.net, u) ==> PlainAt(r.net, u) && DoneAt(r.net, u) == DoneAt(s.net, u)
  {
    var won;
    r, won := SettleAndCascade(s, t, Resolved(Void), x => 0);
    QuietCells(s, t);
    PlainGrows(s.net, r.net, t);
    forall u: nat | u != t && PlainAt(s.net, u) ensures PlainAt(r.net, u) && DoneAt(r.net, u) == DoneAt(s.net, u) {
      assert Untouched(s, u);
      PlainGrows(s.net, r.net, u);
    }
  }

  /** A call of the user that adds a thread which settles no promise of the user. */
  lemma CallLeavesRoots(s: Sys, s1: Sys, schedule: seq<Event>, u: nat)
    requires AtRest(s) && SysOk(s1) && Grows(s.net, s1.net) && u < |s.net.defs| && s.net.defs[u].Root?
    requires u < |s1.net.cells| && s1.net.cells[u] == s.net.cells[u] && Untouched(s1, u)
    requires IsRun(s1, schedule) && OnlyRuns(schedule)
    ensures u < |Last(s1, schedule).net.cells| && SameCore(s.net.cells[u], Last(s1, schedule).net.cells[u])
  {
    assert s1.net.defs[u] == s.net.defs[u];
    RunsLeaveAlone(s1, schedule, u);
  }

  /** The first section of the chaining call creates the derived promise. */
  lemma ChainCreates(s: Sys, src: nat, op: Op, schedule: seq<Event>)
    requires SysOk(s) && Quiet(s) && src < |s.net.defs| && UserOp(op)
    requires SysOk(Next(s, Call(src, [op]))) && IsRun(Next(s, Call(src, [op])), schedule) && OnlyRuns(schedule)
    requires SysOk(Last(Next(s, Call(src, [op])), schedule)) && Quiet(Last(Next(s, Call(src, [op])), schedule))
    ensures var n := Last(Next(s, Call(src, [op])), schedule).net;
            |s.net.cells| < |n.defs| && n.defs[|s.net.cells|] == Derived(src, op)
  {
    var s1, i := Next(s, Call(src, [op])), |s.threads|;
    assert s1.threads[i] == [Chain(src, [op])];
    assert schedule != [] && schedule[0] == Run(i);
    NextOk(s1, schedule[0]);
    var s2 := Exec(s1, i);
    AttachShape(s1.net, src, op, [Chain(|s1.net.cells|, [op][1..])]);
    assert s2.net.defs[|s.net.cells|] == Derived(src, op);
    RunOk(s2, schedule[1..]);
  }

  /** Chaining one operator at rest. */
  method Chain1(s: Sys, src: nat, op: Op) returns (r: Sys, t: nat)
    requires AtRest(s) && src < |s.net.defs| && UserOp(op)
    ensures AtRest(r) && Grows(s.net, r.net)
    ensures t == |s.net.cells| && t < |r.net.defs| && r.net.defs[t] == Derived(src, op)
    ensures forall u :: 0 <= u < |s.net.defs| && s.net.defs[u].Root? ==> SameCore(s.net.cells[u], r.net.cells[u])
  {
    t := |s.net.cells|;
    NextOk(s, Call(src, [op]));
    NextProgress(s, Call(src, [op]));
    var s1 := Next(s, Call(src, [op]));
    ghost var schedule;
    r, schedule := RunToRest(s1, x => 0);
    GrowsTransitive(s.net, s1.net, r.net);
    ChainCreates(s, src, op, schedule);
    forall u | 0 <= u < |s.net.defs| && s.net.defs[u].Root? ensures SameCore(s.net.cells[u], r.net.cells[u]) {
      CallLeavesRoots(s, s1, schedule, u);
    }
  }

  /** A race whose first participant is finished when it starts is decided by it. */
  lemma FirstDecides(s: Sys, entries: seq<Entry>, schedule: seq<Event>)
    requires SysOk(s) && Enabled(s, StartRace(entries)) && SysOk(Next(s, StartRace(entries)))
    requires IsRun(Next(s, StartRace(entries)), schedule) && AtRest(Last(Next(s, StartRace(entries)), schedule))
    requires |entries| > 0 && entries[0].input < |s.net.cells| && Drained(s.net.cells[entries[0].input])
    ensures var n, layer := Last(Next(s, StartRace(entries)), schedule).net, |s.net.cells|;
            DoneAt(n, layer) && OutAt(n, layer) == Injected(entries[0], OutAt(s.net, entries[0].input))
  {
    var s1, layer := Next(s, StartRace(entries)), |s.net.cells|;
    var r := Last(s1, schedule);
    NextOk(s, StartRace(entries));
    RunOk(s1, schedule);
    GrowsTransitive(s.net, s1.net, r.net);
    StaysEnded(s1, schedule, entries[0].input);
    DoneGrows(s.net, r.net, entries[0].input);
    assert s1.net.defs[layer] == Contest(entries) && r.net.defs[layer] == Contest(entries) && entries[0] in entries;
    QuietContest(r, layer, entries[0]);
    LeftmostSettledWins(s, entries, 0, schedule);
  }

  /** Racing promises at rest: the shared promise, and the promise the fold returns. */
  method Race(s: Sys, entries: seq<Entry>) returns (r: Sys, layer: nat, result: nat)
    requires AtRest(s) && forall j :: 0 <= j < |entries| ==> entries[j].input < |s.net.defs|
    ensures AtRest(r) && Grows(s.net, r.net)
    ensures layer < |r.net.defs| && r.net.defs[layer] == Contest(entries) && InLayer(r.net, result, layer)
    ensures |entries| > 0 && entries[0].input < |s.net.cells| && Drained(s.net.cells[entries[0].input]) ==>
              DoneAt(r.net, layer) && OutAt(r.net, layer) == Injected(entries[0], OutAt(s.net, entries[0].input))
    ensures forall u :: 0 <= u < |s.net.defs| && s.net.defs[u].Root? ==> SameCore(s.net.cells[u], r.net.cells[u])
  {
    layer := |s.net.cells|;
    NextOk(s, StartRace(entries));
    NextProgress(s, StartRace(entries));
    var s1 := Next(s, StartRace(entries));
    assert s1.net.defs[layer] == Contest(entries);
    ghost var schedule;
    r, schedule := RunToRest(s1, x => 0);
    GrowsTransitive(s.net, s1.net, r.net);
    RunsKeepTip(s1, schedule, layer);
    result := r.net.tips[layer];
    if |entries| > 0 && entries[0].input < |s.net.cells| && Drained(s.net.cells[entries[0].input]) {
      FirstDecides(s, entries, schedule);
    }
    forall u | 0 <= u < |s.net.defs| && s.net.defs[u].Root? ensures SameCore(s.net.cells[u], r.net.cells[u]) {
      CallLeavesRoots(s, s1, schedule, u);
    }
  }

  /** The object. `waits` lists the promises WaitWithReject has returned. */
  class StatePromise {
    var sys: Sys
    var ready: nat
    var done: nat
    var waits: seq<Ticket>

    /** Between calls: done implies ready, and no wait is orphaned. */
    ghost predicate Valid()
      reads this
    {
      && AtRest(sys)
      && PlainAt(sys.net, ready) && PlainAt(sys.net, done) && ready != done
      && (DoneAt(sys.net, done) ==> DoneAt(sys.net, ready))
      && (forall k :: k in waits ==> WaitOk(sys.net, k, ready, done))
    }

    ghost predicate IsReady()
      reads this
    {
      DoneAt(sys.net, ready)
    }

    ghost predicate IsEnded()
      reads this
    {
      DoneAt(sys.net, done)
    }

    /** Waits that were settled before a call stay as they are. */
    twostate predicate SettledWaitsKept()
      reads this
    {
      && waits == old(waits)
      && forall k :: k in waits && DoneAt(old(sys).net, k.result) ==>
           DoneAt(sys.net, k.result) && OutAt(sys.net, k.result) == OutAt(old(sys).net, k.result)
    }

    constructor ()
      ensures Valid() && !IsReady() && !IsEnded() && waits == []
    {
      StartOk();
      sys, ready, done, waits := Start, 0, 0, [];
      new;
      var s1, t1 := NewPromise(sys);
      var s2, t2 := NewPromise(s1);
      PlainGrows(s1.net, s2.net, t1);
      sys, ready, done := s2, t1, t2;
    }

    /** Neither promise may be settled. Every pending WaitWithReject resolves. */
    method Ready()
      requires Valid() && !IsReady() && !IsEnded()
      modifies this`sys
      ensures Valid() && IsReady() && !IsEnded()
      ensures SettledWaitsKept()
      ensures forall k :: k in waits && !DoneAt(old(sys).net, k.result) ==>
                DoneAt(sys.net, k.result) && OutAt(sys.net, k.result) == Resolved(Void)
    {
      var before := sys;
      var after := ResolvePlain(sys, ready);
      sys := after;
      forall k | k in waits
        ensures WaitOk(sys.net, k, ready, done) && DoneAt(sys.net, k.result)
        ensures !DoneAt(before.net, k.result) ==> OutAt(sys.net, k.result) == Resolved(Void)
        ensures DoneAt(before.net, k.result) ==> OutAt(sys.net, k.result) == OutAt(before.net, k.result)
      {
        TicketGrows(before.net, after.net, k);
        DoneGrows(before.net, after.net, k.result);
        if !DoneAt(before.net, k.result) {
          WaitDecided(after, k);
        }
      }
    }

    /** Resolves done, then ready if it was not. A pending WaitWithReject, which can exist
        only when ready was not settled, rejects with End. */
    method Done()
      requires Valid()
      modifies this`sys
      ensures Valid() && IsReady() && IsEnded()
      ensures SettledWaitsKept()
      ensures forall k :: k in waits && !DoneAt(old(sys).net, k.result) ==>
                DoneAt(sys.net, k.result) && OutAt(sys.net, k.result) == Rejected(End)
    {
      var before := sys;
      var readyWasDone := DoneAt(sys.net, ready);
      var middle := ResolvePlain(sys, done);
      forall k | k in waits
        ensures TicketOk(middle.net, k) && DoneAt(middle.net, k.result)
        ensures !DoneAt(before.net, k.result) ==> OutAt(middle.net, k.result) == Rejected(End)
        ensures DoneAt(before.net, k.result) ==> OutAt(middle.net, k.result) == OutAt(before.net, k.result)
      {
        TicketGrows(before.net, middle.net, k);
        DoneGrows(before.net, middle.net, k.result);
        if !DoneAt(before.net, k.result) {
          WaitDecided(middle, k);
        }
      }
      sys := middle;
      if !readyWasDone {
        var after := ResolvePlain(sys, ready);
        sys := after;
        forall k | k in waits
          ensures TicketOk(after.net, k) && DoneAt(after.net, k.result)
          ensures OutAt(after.net, k.result) == OutAt(middle.net, k.result)
        {
          TicketGrows(middle.net, after.net, k);
          DoneGrows(middle.net, after.net, k.result);
        }
      }
    }

    method IsDone() returns (b: bool)
      requires Valid()
      ensures b <==> IsEnded()
    {
      b := DoneAt(sys.net, done) && DoneAt(sys.net, ready);
    }

    /** Back to neither ready nor done; only resolved promises are replaced, so nobody is
        left waiting on a promise that no call can reach any more. */
    method Reset()
      requires Valid()
      modifies this`sys, this`ready, this`done
      ensures Valid() && !IsReady() && !IsEnded()
      ensures SettledWaitsKept()
      ensures ready != old(ready) ==> old(IsReady())
      ensures done != old(done) ==> old(IsEnded())
      ensures !old(IsReady()) ==> ready == old(ready) && done == old(done)
    {
      var before := sys;
      GrowsReflexive(before.net);
      if DoneAt(sys.net, done) {
        var s1, t1 := NewPromise(sys);
        var s2, t2 := NewPromise(s1);
        PlainGrows(s1.net, s2.net, t1);
        GrowsTransitive(before.net, s1.net, s2.net);
        sys, ready, done := s2, t1, t2;
      } else if DoneAt(sys.net, ready) {
        var s1, t1 := NewPromise(sys);
        PlainGrows(sys.net, s1.net, done);
        sys, ready := s1, t1;
      }
      forall k | k in waits
        ensures WaitOk(sys.net, k, ready, done)
        ensures DoneAt(before.net, k.result) ==>
                  DoneAt(sys.net, k.result) && OutAt(sys.net, k.result) == OutAt(before.net, k.result)
      {
        TicketGrows(before.net, sys.net, k);
        DoneGrows(before.net, sys.net, k.result);
      }
    }

    /** Race(WaitDoneWithReject(), WaitReady()). The returned promise is pending exactly while
        neither promise is settled; taken after Done it rejects, taken between Ready and Done
        it resolves. */
    method WaitWithReject() returns (result: nat)
      requires Valid()
      modifies this`sys, this`waits
      ensures Valid() && ready == old(ready) && done == old(done)
      ensures |waits| == |old(waits)| + 1 && waits[..|old(waits)|] == old(waits) && waits[|old(waits)|].result == result
      ensures IsReady() == old(IsReady()) && IsEnded() == old(IsEnded())
      ensures DoneAt(sys.net, result) <==> IsReady()
      ensures IsReady() ==> OutAt(sys.net, result) == if IsEnded() then Rejected(End) else Resolved(Void)
    {
      var before := sys;
      var s1, rejecting := Chain1(sys, done, RejectWithEnd);
      var k := Ticket(done, ready, rejecting, 0, 0);
      var s2, layer, tip := Race(s1, [Entry(rejecting, Same), Entry(ready, Same)]);
      k := k.(race := layer, result := tip);
      result := tip;
      GrowsTransitive(before.net, s1.net, s2.net);
      assert s1.net.defs[ready] == before.net.defs[ready] && s1.net.defs[done] == before.net.defs[done];
      PlainGrows(before.net, s2.net, ready);
      PlainGrows(before.net, s2.net, done);
      assert s2.net.defs[rejecting] == s1.net.defs[rejecting];
      assert TicketOk(s2.net, k);
      RejectingNow(s1, rejecting, done);
      assert DoneAt(s1.net, done) ==> Drained(s1.net.cells[rejecting]) by {
        QuietCells(s1, rejecting);
      }
      WaitFromNow(s2, k);
      sys, waits := s2, waits + [k];
      forall j | j in waits ensures WaitOk(sys.net, j, ready, done) {
        if j != k {
          TicketGrows(before.net, s2.net, j);
          DoneGrows(before.net, s2.net, j.result);
        }
      }
    }

    /** Resolves ready before done, the opposite order of Done: a WaitWithReject that is still
        pending when the object dies resolves instead of rejecting. */
    method Destroy()
      requires Valid()
      modifies this`sys
      ensures Valid() && IsReady() && IsEnded()
      ensures SettledWaitsKept()
      ensures forall k :: k in waits && !DoneAt(old(sys).net, k.result) ==>
                DoneAt(sys.net, k.result) && OutAt(sys.net, k.result) == Resolved(Void)
    {
      var before := sys;
      if !DoneAt(sys.net, ready) {
        Ready();
      }
      var middle := sys;
      forall k | k in waits
        ensures DoneAt(before.net, k.result)
                || (DoneAt(middle.net, k.result) && OutAt(middle.net, k.result) == Resolved(Void))
      {
        assert WaitOk(before.net, k, ready, done);
      }
      Done();
    }
  }

  /** The documentation says destruction calls Done. It does not: of two equal objects one is
      destroyed and Done is called on the other. Every wait is settled on both, and they agree
      on all waits if and only if no wait was pending before. */
  method DestroyAgainstDone(a: StatePromise, b: StatePromise)
    requires a != b && a.Valid() && b.Valid()
    requires a.sys == b.sys && a.ready == b.ready && a.done == b.done && a.waits == b.waits
    modifies a`sys, b`sys
    ensures a.Valid() && b.Valid()
    ensures forall k :: k in a.waits ==> DoneAt(a.sys.net, k.result) && DoneAt(b.sys.net, k.result)
    ensures (forall k :: k in a.waits ==> OutAt(a.sys.net, k.result) == OutAt(b.sys.net, k.result))
            <==> (forall k :: k in a.waits ==> DoneAt(old(a.sys).net, k.result))
  {
    ghost var before := a.sys;
    a.Destroy();
    b.Done();
    forall k | k in a.waits
      ensures DoneAt(a.sys.net, k.result) && DoneAt(b.sys.net, k.result)
      ensures OutAt(a.sys.net, k.result) == OutAt(b.sys.net, k.result) <==> DoneAt(before.net, k.result)
    {
    }
  }

  /** The condition in terms of the object: no wait is pending once it is ready, and if a wait
      was taken on the current promises, only then. */
  lemma PendingWaits(p: StatePromise)
    requires p.Valid()
    ensures p.IsReady() ==> forall k :: k in p.waits ==> DoneAt(p.sys.net, k.result)
    ensures (exists k :: k in p.waits && k.ready == p.ready && k.done == p.done) ==>
              ((forall k :: k in p.waits ==> DoneAt(p.sys.net, k.result)) <==> p.IsReady())
  {
    forall k | k in p.waits && k.ready == p.ready && k.done == p.done && !p.IsReady()
      ensures !DoneAt(p.sys.net, k.result)
    {
      assert WaitOk(p.sys.net, k, p.ready, p.done);
      WaitUndecided(p.sys, k);
    }
  }

  /** The smallest case: one pending wait resolves on destruction and rejects on Done. */
  method DestroyIsNotDone() returns (destroyed: Outcome, ended: Outcome)
    ensures destroyed == Resolved(Void) && ended == Rejected(End)
  {
    var p := new StatePromise();
    var w := p.WaitWithReject();
    assert p.waits[0] in p.waits;
    p.Destroy();
    destroyed := OutAt(p.sys.net, w);
    p := new StatePromise();
    w := p.WaitWithReject();
    assert p.waits[0] in p.waits;
    p.Done();
    ended := OutAt(p.sys.net, w);
  }

  /** At rest the promise of WaitDoneWithReject is settled exactly when done is. */
  lemma RejectingNow(s: Sys, t: nat, done: nat)
    requires AtRest(s) && PlainAt(s.net, done) && t < |s.net.defs| && s.net.defs[t] == Derived(done, RejectWithEnd)
    ensures DoneAt(s.net, t) <==> DoneAt(s.net, done)
    ensures DoneAt(s.net, t) ==> OutAt(s.net, t) == Rejected(End)
  {
    assert NodeOk(s.net, t);
    if DoneAt(s.net, done) {
      QuietDerived(s, t);
      assert NodeOk(s.net, t);
    }
  }

  lemma WaitFromNow(s: Sys, k: Ticket)
    requires AtRest(s) && TicketOk(s.net, k) && PlainAt(s.net, k.ready) && PlainAt(s.net, k.done)
    requires DoneAt(s.net, k.done) ==> DoneAt(s.net, k.ready)
    requires DoneAt(s.net, k.done) ==> DoneAt(s.net, k.race) && OutAt(s.net, k.race) == Rejected(End)
    ensures WaitOk(s.net, k, k.ready, k.done)
    ensures DoneAt(s.net, k.result) <==> DoneAt(s.net, k.ready)
    ensures DoneAt(s.net, k.ready) ==>
              OutAt(s.net, k.result) == if DoneAt(s.net, k.done) then Rejected(End) else Resolved(Void)
  {
    if DoneAt(s.net, k.ready) {
      WaitAlreadyReady(s, k);
      LayerOutcome(s.net, k.result, k.race);
      if !DoneAt(s.net, k.done) {
        WaitDecided(s, k);
      }
    } else {
      WaitUndecided(s, k);
    }
  }

  /** While both promises are pending the wait is. */
  lemma WaitUndecided(s: Sys, k: Ticket)
    requires AtRest(s) && TicketOk(s.net, k) && PlainAt(s.net, k.ready) && PlainAt(s.net, k.done)
    requires !DoneAt(s.net, k.ready) && !DoneAt(s.net, k.done)
    ensures !DoneAt(s.net, k.result)
  {
    RejectingNow(s, k.rejecting, k.done);
    assert NodeOk(s.net, k.race);
    if DoneAt(s.net, k.result) {
      LayerOutcome(s.net, k.result, k.race);
    }
  }
}
