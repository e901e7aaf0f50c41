/** The exception in Races.LeftmostSettledWins is real: a run in which the second of three
    participants is settled before the race starts and the third one wins. */
module RaceWitness {
  import opened Values
  import opened Cells
  import opened Operators
  import opened Graph
  import opened GraphSafety
  import opened GraphRuns
  import opened GraphProgress
  import opened Continuations
  import opened Races

  function Same(v: Value): Value {
    v
  }

  /** Promise 0 will be rejected with E0 while the race is built; promise 1 is rejected with
      E1 and promise 2 resolved before it starts. */
  const First: Entry := Entry(0, Same)
  const Second: Entry := Entry(1, Same)
  const Third: Entry := Entry(2, Same)
  const E0: Error := Thrown(0, 0)
  const E1: Error := Thrown(1, 1)
  const Two: Outcome := Resolved(Data(2))

  function Pending(): Cell<Cont> {
    Fresh(false)
  }

  function Settled(o: Outcome, uses: nat): Cell<Cont> {
    match o
    case Resolved(v) => Cell(true, Some(v), None, false, [], uses, false)
    case Rejected(e) => Cell(true, None, Some(e), false, [], uses, false)
  }

  /** Promise 0 with the race's awaiter on it. */
  function Hooked(): Cell<Cont> {
    AwaitCallback(Pending(), RaceWin(0, Same, 3))
  }

  /** The shared promise with the Finally layer that takes that awaiter off. */
  function Shared(): Cell<Cont> {
    AwaitCallback(Pending(), Step(3, Unhook(0, 1, 3), 4))
  }

  /** The three promises. */
  function Three(c1: Cell<Cont>, c2: Cell<Cont>, flagged: set<nat>, threads: seq<Thread>): Sys {
    Sys(Net([Pending(), c1, c2], [Root, Root, Root], map[], flagged), threads)
  }

  /** The race, with the building thread 2 before its first Finally layer. */
  function Built(c0: Cell<Cont>, builder: Thread): Sys {
    Sys(Net([c0, Settled(Rejected(E1), 0), Settled(Two, 0), Pending()],
            [Root, Root, Root, Contest([First, Second, Third])], map[3 := 3], {1}),
        [[], [], builder])
  }

  /** The race with its Finally layer, before another thread comes in. */
  function Linked(): Sys {
    Sys(Net([Hooked(), Settled(Rejected(E1), 0), Settled(Two, 0), Shared(), Pending()],
            [Root, Root, Root, Contest([First, Second, Third]), Derived(3, Unhook(0, 1, 3))],
            map[3 := 4], {1}),
        [[], [], [RaceLoop(4, [Second, Third], 3)]])
  }

  /** The race with its Finally layer, the building thread 2 and the rejecting thread 3. */
  function Racing(c0: Cell<Cont>, c3: Cell<Cont>, flagged: set<nat>, builder: Thread, rejecter: Thread): Sys {
    Sys(Net([c0, Settled(Rejected(E1), 0), Settled(Two, 0), c3, Pending()],
            [Root, Root, Root, Contest([First, Second, Third]), Derived(3, Unhook(0, 1, 3))],
            map[3 := 4], flagged),
        [[], [], builder, rejecter])
  }

  /** The builder stands before the second participant. */
  function Rejecting(c0: Cell<Cont>, flagged: set<nat>, rejecter: Thread): Sys {
    Racing(c0, Shared(), flagged, [RaceLoop(4, [Second, Third], 3)], rejecter)
  }

  /** The rejecting thread is past the race's flag and stands before its exchange. */
  function Late(builder: Thread): Sys {
    Racing(Settled(Rejected(E0), 1), Shared(), {0, 1, 3}, builder, [Exchange(3, Rejected(E0))])
  }

  // ---------------------------------------------------------------- composing runs

  ghost predicate Goes(s: Sys, events: seq<Event>, r: Sys) {
    SysOk(s) && IsRun(s, events) && Last(s, events) == r && SysOk(r)
  }

  lemma Tick(s: Sys, events: seq<Event>, m: Sys, e: Event, r: Sys)
    requires Goes(s, events, m) && Enabled(m, e) && Next(m, e) == r
    ensures Goes(s, events + [e], r)
  {
    RunAppend(s, events, e);
    NextOk(m, e);
  }

  /** A section of thread `i` that starts no coroutine leads to `r`. */
  lemma Turn(s: Sys, i: nat, r: Sys)
    requires SysOk(s) && Runnable(s, i) && s.threads[i][0] in s.threads[i]
    requires var e := Perform(s.net, s.threads[i][0]);
             && e.spawned == [] && r.net.cells == e.net.cells && r.net.defs == e.net.defs
             && r.net.tips == e.net.tips && r.net.flagged == e.net.flagged
             && |r.threads| == |s.threads| && r.threads[i] == e.front + s.threads[i][1..]
    requires forall q :: 0 <= q < |s.threads| && q != i ==> r.threads[q] == s.threads[q]
    ensures Next(s, Run(i)) == r
  {
    var e := Perform(s.net, s.threads[i][0]);
    assert s.threads[i := e.front + s.threads[i][1..]] + [] == r.threads;
  }

  // ---------------------------------------------------------------- the run

  lemma OneMore(s: Sys, before: seq<Event>, m: Sys)
    requires Goes(s, before, m)
    ensures Goes(s, before + [Create(false)], Sys(Append(m.net, Pending(), Root), m.threads))
  {
    Tick(s, before, m, Create(false), Sys(Append(m.net, Pending(), Root), m.threads));
  }

  lemma AppendThree()
    ensures Append(Append(Append(Start.net, Pending(), Root), Pending(), Root), Pending(), Root)
            == Three(Pending(), Pending(), {}, []).net
  {
    var n := Append(Append(Append(Start.net, Pending(), Root), Pending(), Root), Pending(), Root);
    assert n.cells == [Pending(), Pending(), Pending()];
    assert n.defs == [Root, Root, Root];
  }

  lemma Created() returns (events: seq<Event>)
    ensures Goes(Start, events, Three(Pending(), Pending(), {}, []))
  {
    StartOk();
    OneMore(Start, [], Start);
    events := [] + [Create(false)];
    var n := Append(Start.net, Pending(), Root);
    OneMore(Start, events, Sys(n, []));
    events := events + [Create(false)];
    OneMore(Start, events, Sys(Append(n, Pending(), Root), []));
    events := events + [Create(false)];
    AppendThree();
  }

  lemma RejectSecond1(s: Sys, before: seq<Event>) returns (events: seq<Event>)
    requires Goes(s, before, Three(Pending(), Pending(), {}, []))
    ensures Goes(s, events, Three(Pending(), Pending(), {1}, [[Exchange(1, Rejected(E1))]]))
  {
    events := before;
    var m0 := Three(Pending(), Pending(), {}, []);
    var m1 := Three(Pending(), Pending(), {}, [[Flag(1, E1)]]);
    assert Next(m0, Settle(1, Rejected(E1))) == m1;
    Tick(s, events, m0, Settle(1, Rejected(E1)), m1);
    events := events + [Settle(1, Rejected(E1))];
    var m2 := Three(Pending(), Pending(), {1}, [[Exchange(1, Rejected(E1))]]);
    Turn(m1, 0, m2);
    Tick(s, events, m1, Run(0), m2);
    events := events + [Run(0)];
  }

  lemma RejectSecond(s: Sys, before: seq<Event>) returns (events: seq<Event>)
    requires Goes(s, before, Three(Pending(), Pending(), {}, []))
    ensures Goes(s, events, Three(Settled(Rejected(E1), 0), Pending(), {1}, [[]]))
  {
    events := before;
    events := RejectSecond1(s, events);
    var m0 := Three(Pending(), Pending(), {1}, [[Exchange(1, Rejected(E1))]]);
    var m1 := Three(Claim(Pending()), Pending(), {1}, [[Store(1, Rejected(E1))]]);
    Turn(m0, 0, m1);
    Tick(s, events, m0, Run(0), m1);
    events := events + [Run(0)];
    var m2 := Three(Settled(Rejected(E1), 0), Pending(), {1}, [[]]);
    Turn(m1, 0, m2);
    Tick(s, events, m1, Run(0), m2);
    events := events + [Run(0)];
  }

  lemma ResolveThird(s: Sys, before: seq<Event>) returns (events: seq<Event>)
    requires Goes(s, before, Three(Settled(Rejected(E1), 0), Pending(), {1}, [[]]))
    ensures Goes(s, events, Three(Settled(Rejected(E1), 0), Settled(Two, 0), {1}, [[], []]))
  {
    var m0 := Three(Settled(Rejected(E1), 0), Pending(), {1}, [[]]);
    events := before;
    var m1 := Three(Settled(Rejected(E1), 0), Pending(), {1}, [[], [Exchange(2, Two)]]);
    assert Next(m0, Settle(2, Two)) == m1;
    Tick(s, events, m0, Settle(2, Two), m1);
    events := events + [Settle(2, Two)];
    var m2 := Three(Settled(Rejected(E1), 0), Claim(Pending()), {1}, [[], [Store(2, Two)]]);
    Turn(m1, 1, m2);
    Tick(s, events, m1, Run(1), m2);
    events := events + [Run(1)];
    var m3 := Three(Settled(Rejected(E1), 0), Settled(Two, 0), {1}, [[], []]);
    Turn(m2, 1, m3);
    Tick(s, events, m2, Run(1), m3);
    events := events + [Run(1)];
  }

  /** The fold registers on promise 0. */
  lemma RegisterOnFirst1(s: Sys, before: seq<Event>) returns (events: seq<Event>)
    requires Goes(s, before, Built(Pending(), [RaceLoop(3, [First, Second, Third], 3)]))
    ensures Goes(s, events, Built(Hooked(), [RaceLink(3, 0, 1, [Second, Third], 3)]))
  {
    events := before;
    var m0 := Built(Pending(), [RaceLoop(3, [First, Second, Third], 3)]);
    var m1 := Built(Pending(), [RaceTry(3, First, [Second, Third], 3)]);
    Turn(m0, 2, m1);
    Tick(s, events, m0, Run(2), m1);
    events := events + [Run(2)];
    var m2 := Built(Hooked(), [RaceLink(3, 0, 1, [Second, Third], 3)]);
    Turn(m1, 2, m2);
    Tick(s, events, m1, Run(2), m2);
    events := events + [Run(2)];
  }

  lemma RegisterOnFirst(s: Sys, before: seq<Event>) returns (events: seq<Event>)
    requires Goes(s, before, Built(Pending(), [RaceLoop(3, [First, Second, Third], 3)]))
    ensures Goes(s, events, Rejecting(Hooked(), {1}, [Flag(0, E0)]))
  {
    events := before;
    events := RegisterOnFirst1(s, events);
    var m0 := Built(Hooked(), [RaceLink(3, 0, 1, [Second, Third], 3)]);
    var m1 := Linked();
    Turn(m0, 2, m1);
    Tick(s, events, m0, Run(2), m1);
    events := events + [Run(2)];
    var m2 := Rejecting(Hooked(), {1}, [Flag(0, E0)]);
    assert Next(m1, Settle(0, Rejected(E0))) == m2;
    Tick(s, events, m1, Settle(0, Rejected(E0)), m2);
    events := events + [Settle(0, Rejected(E0))];
  }

  /** Another thread rejects promise 0, passes the race's flag and is preempted. */
  lemma RejectFirst1(s: Sys, before: seq<Event>) returns (events: seq<Event>)
    requires Goes(s, before, Rejecting(Hooked(), {1}, [Flag(0, E0)]))
    ensures Goes(s, events, Rejecting(Claim(Hooked()), {0, 1}, [Store(0, Rejected(E0))]))
  {
    events := before;
    var m0 := Rejecting(Hooked(), {1}, [Flag(0, E0)]);
    var m1 := Rejecting(Hooked(), {0, 1}, [Exchange(0, Rejected(E0))]);
    Turn(m0, 3, m1);
    Tick(s, events, m0, Run(3), m1);
    events := events + [Run(3)];
    var m2 := Rejecting(Claim(Hooked()), {0, 1}, [Store(0, Rejected(E0))]);
    Turn(m1, 3, m2);
    Tick(s, events, m1, Run(3), m2);
    events := events + [Run(3)];
  }

  lemma RejectFirst(s: Sys, before: seq<Event>) returns (events: seq<Event>)
    requires Goes(s, before, Rejecting(Hooked(), {1}, [Flag(0, E0)]))
    ensures Goes(s, events, Rejecting(Settled(Rejected(E0), 1), {0, 1}, [Resume(RaceWin(0, Same, 3))]))
  {
    events := before;
    events := RejectFirst1(s, events);
    var m0 := Rejecting(Claim(Hooked()), {0, 1}, [Store(0, Rejected(E0))]);
    var m1 := Rejecting(Settled(Rejected(E0), 1), {0, 1}, [Resume(RaceWin(0, Same, 3))]);
    Turn(m0, 3, m1);
    Tick(s, events, m0, Run(3), m1);
    events := events + [Run(3)];
  }

  lemma PassFlagFirst(s: Sys, before: seq<Event>) returns (events: seq<Event>)
    requires Goes(s, before, Rejecting(Settled(Rejected(E0), 1), {0, 1}, [Resume(RaceWin(0, Same, 3))]))
    ensures Goes(s, events, Late([RaceLoop(4, [Second, Third], 3)]))
  {
    var m0 := Rejecting(Settled(Rejected(E0), 1), {0, 1}, [Resume(RaceWin(0, Same, 3))]);
    events := before;
    var m1 := Rejecting(Settled(Rejected(E0), 1), {0, 1}, [Flag(3, E0)]);
    Turn(m0, 3, m1);
    Tick(s, events, m0, Run(3), m1);
    events := events + [Run(3)];
    var m2 := Late([RaceLoop(4, [Second, Third], 3)]);
    Turn(m1, 3, m2);
    Tick(s, events, m1, Run(3), m2);
    events := events + [Run(3)];
  }

  /** The fold finds promise 1 rejected, and the flag drops its word. */
  lemma DropSecond1(s: Sys, before: seq<Event>) returns (events: seq<Event>)
    requires Goes(s, before, Late([RaceLoop(4, [Second, Third], 3)]))
    ensures Goes(s, events, Late([Resume(RaceWin(1, Same, 3)), RaceLoop(4, [Third], 3)]))
  {
    events := before;
    var m0 := Late([RaceLoop(4, [Second, Third], 3)]);
    var m1 := Late([RaceTry(4, Second, [Third], 3)]);
    Turn(m0, 2, m1);
    Tick(s, events, m0, Run(2), m1);
    events := events + [Run(2)];
    var m2 := Late([Resume(RaceWin(1, Same, 3)), RaceLoop(4, [Third], 3)]);
    Turn(m1, 2, m2);
    Tick(s, events, m1, Run(2), m2);
    events := events + [Run(2)];
  }

  lemma DropSecond(s: Sys, before: seq<Event>) returns (events: seq<Event>)
    requires Goes(s, before, Late([RaceLoop(4, [Second, Third], 3)]))
    ensures Goes(s, events, Late([RaceLoop(4, [Third], 3)]))
  {
    events := before;
    events := DropSecond1(s, events);
    var m0 := Late([Resume(RaceWin(1, Same, 3)), RaceLoop(4, [Third], 3)]);
    var m1 := Late([Flag(3, E1), RaceLoop(4, [Third], 3)]);
    Turn(m0, 2, m1);
    Tick(s, events, m0, Run(2), m1);
    events := events + [Run(2)];
    var m2 := Late([RaceLoop(4, [Third], 3)]);
    Turn(m1, 2, m2);
    Tick(s, events, m1, Run(2), m2);
    events := events + [Run(2)];
  }

  /** The fold finds promise 2 resolved, and it wins. */
  lemma ThirdClaims1(s: Sys, before: seq<Event>) returns (events: seq<Event>)
    requires Goes(s, before, Late([RaceLoop(4, [Third], 3)]))
    ensures Goes(s, events, Late([Resume(RaceWin(2, Same, 3)), RaceLoop(4, [], 3)]))
  {
    events := before;
    assert [Third][1..] == [];
    var m0 := Late([RaceLoop(4, [Third], 3)]);
    var m1 := Late([RaceTry(4, Third, [], 3)]);
    Turn(m0, 2, m1);
    Tick(s, events, m0, Run(2), m1);
    events := events + [Run(2)];
    var m2 := Late([Resume(RaceWin(2, Same, 3)), RaceLoop(4, [], 3)]);
    Turn(m1, 2, m2);
    Tick(s, events, m1, Run(2), m2);
    events := events + [Run(2)];
  }

  lemma ThirdClaims(s: Sys, before: seq<Event>) returns (events: seq<Event>)
    requires Goes(s, before, Late([RaceLoop(4, [Third], 3)]))
    ensures Goes(s, events, Late([Exchange(3, Two), RaceLoop(4, [], 3)]))
  {
    events := before;
    events := ThirdClaims1(s, events);
    assert [Third][1..] == [];
    var m0 := Late([Resume(RaceWin(2, Same, 3)), RaceLoop(4, [], 3)]);
    var m1 := Late([Exchange(3, Two), RaceLoop(4, [], 3)]);
    Turn(m0, 2, m1);
    Tick(s, events, m0, Run(2), m1);
    events := events + [Run(2)];
  }

  lemma ThirdStores(s: Sys, before: seq<Event>) returns (events: seq<Event>)
    requires Goes(s, before, Late([Exchange(3, Two), RaceLoop(4, [], 3)]))
    ensures Goes(s, events, Claimed3())
  {
    Turn(Late([Exchange(3, Two), RaceLoop(4, [], 3)]), 2, Claimed3());
    Tick(s, before, Late([Exchange(3, Two), RaceLoop(4, [], 3)]), Run(2), Claimed3());
    events := before + [Run(2)];
  }

  lemma ThirdWins(s: Sys, before: seq<Event>) returns (events: seq<Event>)
    requires Goes(s, before, Late([Exchange(3, Two), RaceLoop(4, [], 3)]))
    ensures Goes(s, events, Finished())
  {
    events := ThirdStores(s, before);
    Turn(Claimed3(), 2, Finished());
    Tick(s, events, Claimed3(), Run(2), Finished());
    events := events + [Run(2)];
  }

  /** Promise 1 rejected, promise 2 resolved, nobody at work. */
  function Before(): Sys {
    Three(Settled(Rejected(E1), 0), Settled(Two, 0), {1}, [[], []])
  }

  function Begun(): Sys {
    Built(Pending(), [RaceLoop(3, [First, Second, Third], 3)])
  }

  /** The third participant has claimed the race. */
  function Claimed3(): Sys {
    Racing(Settled(Rejected(E0), 1), Claim(Shared()), {0, 1, 3},
           [Store(3, Two), RaceLoop(4, [], 3)], [Exchange(3, Rejected(E0))])
  }

  function Finished(): Sys {
    Racing(Settled(Rejected(E0), 1), Settled(Two, 1), {0, 1, 3},
           [Resume(Step(3, Unhook(0, 1, 3), 4)), RaceLoop(4, [], 3)], [Exchange(3, Rejected(E0))])
  }

  lemma BeforeReached()
    ensures Reachable(Before()) && SysOk(Before())
  {
    var events := Created();
    events := RejectSecond(Start, events);
    events := ResolveThird(Start, events);
    assert ReachedBy(Before(), events);
  }

  lemma Starts()
    requires SysOk(Before())
    ensures Enabled(Before(), StartRace([First, Second, Third]))
    ensures Next(Before(), StartRace([First, Second, Third])) == Begun() && SysOk(Begun())
  {
    NextOk(Before(), StartRace([First, Second, Third]));
  }

  lemma BuildRun() returns (events: seq<Event>)
    requires SysOk(Begun())
    ensures Goes(Begun(), events, Finished())
  {
    events := RegisterOnFirst(Begun(), []);
    events := RejectFirst(Begun(), events);
    events := PassFlagFirst(Begun(), events);
    events := DropSecond(Begun(), events);
    events := ThirdClaims(Begun(), events);
    events := ThirdWins(Begun(), events);
  }

  lemma OnlyThirdScores()
    ensures var n := Finished().net;
            DoneAt(n, 3) && OutAt(n, 3) == Two && !ScoredBelow(n, [First, Second, Third], 2, Two)
  {
    var n := Finished().net;
    assert OutAt(n, 0) == Rejected(E0) && OutAt(n, 1) == Rejected(E1);
  }

  /** Promise 1 is settled when the race starts and promise 0 is not; the race resolves with the
      value of promise 2, which no participant up to promise 1 has. */
  lemma ThirdBeatsSecond() returns (s: Sys, events: seq<Event>)
    ensures Reachable(s) && DoneAt(s.net, 1) && !DoneAt(s.net, 0) && |s.net.cells| == 3
    ensures Enabled(s, StartRace([First, Second, Third])) && SysOk(Next(s, StartRace([First, Second, Third])))
    ensures IsRun(Next(s, StartRace([First, Second, Third])), events)
    ensures var n := Last(Next(s, StartRace([First, Second, Third])), events).net;
            && DoneAt(n, 3) && OutAt(n, 3) == Two
            && !ScoredBelow(n, [First, Second, Third], 2, OutAt(n, 3))
  {
    s := Before();
    BeforeReached();
    Starts();
    events := BuildRun();
    OnlyThirdScores();
  }
}
