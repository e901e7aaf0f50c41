/** Main results about Race: who wins, and that the winner is final. */
module Races {
  import opened Values
  import opened Cells
  import opened Sums
  import opened Operators
  import opened Graph
  import opened GraphSafety
  import opened GraphRuns
  import opened GraphProgress
  import opened Continuations
  import opened RaceCleanup

  // ---------------------------------------------------------------- outcome

  /** Whatever promise of the race is settled, it is settled as the shared promise, and that is
      how a participant settled: rejected with the same exception, or resolved with its value
      converted to the race's type. */
  lemma RaceOutcome(s: Sys, cur: nat, layer: nat) returns (j: nat)
    requires Reachable(s) && InLayer(s.net, cur, layer) && DoneAt(s.net, cur)
    ensures DoneAt(s.net, layer) && OutAt(s.net, cur) == OutAt(s.net, layer)
    ensures var n, entries := s.net, s.net.defs[layer].entries;
            && j < |entries| && DoneAt(n, entries[j].input)
            && match OutAt(n, entries[j].input)
               case Rejected(err) => OutAt(n, cur) == Rejected(err)
               case Resolved(v) => OutAt(n, cur) == Resolved(entries[j].inject(v))
  {
    LayerOutcome(s.net, cur, layer);
    assert NodeOk(s.net, layer);
    j :| 0 <= j < |s.net.defs[layer].entries| && Scored(s.net, s.net.defs[layer].entries[j], OutAt(s.net, cur));
  }

  /** The cell has the outcome, or the thread that claimed it is still about to store it. */
  ghost predicate Decided(s: Sys, i: nat, t: nat, o: Outcome) {
    || (DoneAt(s.net, t) && OutAt(s.net, t) == o)
    || (Runnable(s, i) && s.threads[i][0] == Store(t, o))
  }

  lemma DecidedStep(s: Sys, i: nat, t: nat, o: Outcome, e: Event)
    requires SysOk(s) && Enabled(s, e) && Decided(s, i, t, o)
    ensures Decided(Next(s, e), i, t, o)
  {
    NextOk(s, e);
    var s' := Next(s, e);
    DoneGrows(s.net, s'.net, t);
    if !DoneAt(s.net, t) {
      assert s.threads[i][0] in s.threads[i];
      if e == Run(i) {
        assert DoneAt(s'.net, t) && OutAt(s'.net, t) == o;
      } else {
        assert s'.threads[i] == s.threads[i];
      }
    }
  }

  /** Once a thread has won the exchange nothing but its outcome is ever stored. */
  lemma {:induction false} ClaimDecides(s: Sys, i: nat, t: nat, o: Outcome, events: seq<Event>)
    requires SysOk(s) && IsRun(s, events) && Decided(s, i, t, o)
    ensures Decided(Last(s, events), i, t, o)
    ensures DoneAt(Last(s, events).net, t) ==> OutAt(Last(s, events).net, t) == o
    decreases |events|
  {
    RunOk(s, events);
    if events != [] {
      NextOk(s, events[0]);
      DecidedStep(s, i, t, o, events[0]);
      ClaimDecides(Next(s, events[0]), i, t, o, events[1..]);
    }
  }

  /** The first participant whose exchange on the shared resolver succeeds decides the race:
      in every continuation of the run, whichever promise of the race settles has that
      outcome, whatever settles later and even while the race is still being built. */
  lemma FirstExchangeDecides(s: Sys, i: nat, layer: nat, o: Outcome, events: seq<Event>, cur: nat)
    requires SysOk(s) && Runnable(s, i) && s.threads[i][0] == Exchange(layer, o)
    requires layer < |s.net.defs| && s.net.defs[layer].Contest? && !s.net.cells[layer].claimed
    requires SysOk(Exec(s, i)) && IsRun(Exec(s, i), events)
    requires InLayer(Last(Exec(s, i), events).net, cur, layer) && DoneAt(Last(Exec(s, i), events).net, cur)
    ensures OutAt(Last(Exec(s, i), events).net, cur) == o
  {
    var s' := Exec(s, i);
    assert s'.threads[i][0] == Store(layer, o);
    ClaimDecides(s', i, layer, o, events);
    RunOk(s', events);
    LayerOutcome(Last(s', events).net, cur, layer);
  }

  /** The promise the fold of race `layer` last produced belongs to that race. */
  ghost predicate TipInLayer(n: Net, layer: nat) {
    layer in n.tips && InLayer(n, n.tips[layer], layer)
  }

  lemma PerformKeepsTip(n: Net, a: Action, layer: nat)
    requires NetOk(n) && ActionOk(n, a) && TipInLayer(n, layer) && Grows(n, Perform(n, a).net)
    ensures TipInLayer(Perform(n, a).net, layer)
  {
    var n' := Perform(n, a).net;
    if a.RaceLink? && a.layer == layer {
      assert n'.defs[|n.cells|] == Derived(a.cur, Unhook(a.input, a.id, layer));
      assert n'.defs[layer] == n.defs[layer];
    } else {
      TipsUnlessLink(n, a, layer);
      assert n'.defs[layer] == n.defs[layer] && n'.defs[n.tips[layer]] == n.defs[n.tips[layer]];
    }
  }

  lemma {:induction false} RunsKeepTip(s: Sys, events: seq<Event>, layer: nat)
    requires SysOk(s) && IsRun(s, events) && OnlyRuns(events) && TipInLayer(s.net, layer)
    ensures TipInLayer(Last(s, events).net, layer)
    decreases |events|
  {
    if events != [] {
      NextOk(s, events[0]);
      assert s.threads[events[0].i][0] in s.threads[events[0].i];
      PerformKeepsTip(s.net, s.threads[events[0].i][0], layer);
      assert OnlyRuns(events[1..]);
      RunsKeepTip(Next(s, events[0]), events[1..], layer);
    }
  }

  // ---------------------------------------------------------------- leftmost settled participant

  /** `o` is the outcome of one of the first `j` participants. */
  ghost predicate ScoredBelow(n: Net, entries: seq<Entry>, j: nat, o: Outcome) {
    exists i :: 0 <= i < j && i < |entries| && Scored(n, entries[i], o)
  }

  /** A participant left of `j` is rejected. */
  ghost predicate LeftRejected(n: Net, entries: seq<Entry>, j: nat) {
    exists i :: 0 <= i < j && i < |entries| && DoneAt(n, entries[i].input) && OutAt(n, entries[i].input).Rejected?
  }

  /** The section speaks for participants left of `j` only, or builds the race and has not
      come past `j`. */
  ghost predicate Early(n: Net, a: Action, layer: nat, entries: seq<Entry>, j: nat) {
    match a
    case Flag(t, err) => t == layer ==> ScoredBelow(n, entries, j, Rejected(err))
    case Exchange(t, o) => t == layer ==> ScoredBelow(n, entries, j, o)
    case Store(t, o) => t == layer ==> ScoredBelow(n, entries, j, o)
    case Resume(k) => EarlyCont(k, layer, entries, j)
    case RaceLoop(_, rest, l) => l == layer ==> Ahead(entries, j, rest)
    case RaceTry(_, e, rest, l) => l == layer ==> Ahead(entries, j, [e] + rest)
    case RaceLink(_, _, _, rest, l) => l == layer ==> Ahead(entries, j, rest)
    case _ => true
  }

  /** `rest` is what is left of the participants from some position up to `j`. */
  ghost predicate Ahead(entries: seq<Entry>, j: nat, rest: seq<Entry>) {
    |entries| - j <= |rest| <= |entries| && rest == entries[|entries| - |rest|..]
  }

  ghost predicate EarlyCont(k: Cont, layer: nat, entries: seq<Entry>, j: nat) {
    k.RaceWin? && k.layer == layer ==> j <= |entries| && Entry(k.src, k.inject) in entries[..j]
  }

  /** The awaiters of the race belong to participants left of `j`. */
  ghost predicate EarlyAwaiters(n: Net, layer: nat, entries: seq<Entry>, j: nat) {
    forall u, w :: 0 <= u < |n.cells| && w in n.cells[u].awaiters ==> EarlyCont(w.k, layer, entries, j)
  }

  ghost predicate EarlyEffect(e: Effect, layer: nat, entries: seq<Entry>, j: nat) {
    && EarlyAwaiters(e.net, layer, entries, j)
    && (forall q :: 0 <= q < |e.front| ==> Early(e.net, e.front[q], layer, entries, j))
    && (forall p, q :: 0 <= p < |e.spawned| && 0 <= q < |e.spawned[p]| ==>
          Early(e.net, e.spawned[p][q], layer, entries, j))
  }

  lemma EarlyGrows(n: Net, n': Net, a: Action, layer: nat, entries: seq<Entry>, j: nat)
    requires Grows(n, n') && Early(n, a, layer, entries, j)
    ensures Early(n', a, layer, entries, j)
  {
    if a.Flag? && a.t == layer {
      BelowGrows(n, n', entries, j, Rejected(a.err));
    } else if (a.Exchange? || a.Store?) && a.t == layer {
      BelowGrows(n, n', entries, j, a.o);
    }
  }

  lemma BelowGrows(n: Net, n': Net, entries: seq<Entry>, j: nat, o: Outcome)
    requires Grows(n, n') && ScoredBelow(n, entries, j, o)
    ensures ScoredBelow(n', entries, j, o)
  {
    var i :| 0 <= i < j && i < |entries| && Scored(n, entries[i], o);
    DoneGrows(n, n', entries[i].input);
    assert Scored(n', entries[i], o);
  }

  lemma LeftGrows(n: Net, n': Net, entries: seq<Entry>, j: nat)
    requires Grows(n, n') && LeftRejected(n, entries, j)
    ensures LeftRejected(n', entries, j)
  {
    var i :| 0 <= i < j && i < |entries| && DoneAt(n, entries[i].input) && OutAt(n, entries[i].input).Rejected?;
    DoneGrows(n, n', entries[i].input);
  }

  /** The race, not yet claimed, with participant `j` settled. */
  ghost predicate OpenRace(n: Net, layer: nat, entries: seq<Entry>, j: nat) {
    && layer < |n.defs| && n.defs[layer] == Contest(entries) && !ClaimedAt(n, layer)
    && j < |entries| && DoneAt(n, entries[j].input)
    && EarlyAwaiters(n, layer, entries, j)
  }

  // -- one section

  lemma AttachEarly(n: Net, src: nat, op: Op, next: Action, layer: nat, entries: seq<Entry>, j: nat)
    requires src < |n.cells| && layer < |n.cells| && EarlyAwaiters(n, layer, entries, j)
    requires Early(Attach(n, src, op, [next]).net, next, layer, entries, j)
    ensures EarlyEffect(Attach(n, src, op, [next]), layer, entries, j)
  {
    var e := Attach(n, src, op, [next]);
    forall u, w | 0 <= u < |e.net.cells| && w in e.net.cells[u].awaiters ensures EarlyCont(w.k, layer, entries, j) {
      assert u < |n.cells| ==> w in n.cells[u].awaiters || w.k.Step?;
    }
  }

  lemma LinkEarly(n: Net, a: Action, layer: nat, entries: seq<Entry>, j: nat)
    requires |n.cells| == |n.defs| && ActionOk(n, a) && (a.Chain? || a.RaceLink?) && Early(n, a, layer, entries, j)
    requires layer < |n.cells| && EarlyAwaiters(n, layer, entries, j)
    ensures EarlyEffect(Perform(n, a), layer, entries, j)
  {
    if a.RaceLink? {
      AttachEarly(n, a.cur, Unhook(a.input, a.id, a.layer), RaceLoop(|n.cells|, a.rest, a.layer), layer, entries, j);
    } else if a.ops != [] {
      AttachEarly(n, a.src, a.ops[0], Chain(|n.cells|, a.ops[1..]), layer, entries, j);
    }
  }

  lemma ResumeEarly(n: Net, k: Cont, layer: nat, entries: seq<Entry>, j: nat)
    requires NetOk(n) && ActionOk(n, Resume(k)) && OpenRace(n, layer, entries, j) && EarlyCont(k, layer, entries, j)
    ensures EarlyEffect(Perform(n, Resume(k)), layer, entries, j)
  {
    if k.Step? || k.Branch? {
      if UserOp(k.op) {
        CarryEarly(n, MoveOf(n.cells[k.src], k), k.tgt, layer, entries, j);
      } else {
        ForwardEarly(n, k, layer, entries, j);
      }
    } else if k.RaceWin? {
      WinEarly(n, k, layer, entries, j);
    }
  }

  lemma ForwardEarly(n: Net, k: Cont, layer: nat, entries: seq<Entry>, j: nat)
    requires (k.Step? || k.Branch?) && !UserOp(k.op) && DoneAt(n, k.src) && k.tgt != layer
    requires EarlyAwaiters(n, layer, entries, j)
    ensures EarlyEffect(Forward(n, k.src, k.op, k.tgt), layer, entries, j)
  {
  }

  lemma WinEarly(n: Net, k: Cont, layer: nat, entries: seq<Entry>, j: nat)
    requires k.RaceWin? && DoneAt(n, k.src) && EarlyCont(k, layer, entries, j) && EarlyAwaiters(n, layer, entries, j)
    ensures EarlyEffect(ResumeEffect(n, k), layer, entries, j)
  {
    if k.layer == layer {
      var i :| 0 <= i < |entries[..j]| && entries[..j][i] == Entry(k.src, k.inject);
      assert Scored(n, entries[i], Injected(Entry(k.src, k.inject), OutAt(n, k.src)));
    }
  }

  lemma CarryEarly(n: Net, m: Move, tgt: nat, layer: nat, entries: seq<Entry>, j: nat)
    requires layer < |n.cells| && tgt != layer && EarlyAwaiters(n, layer, entries, j)
    ensures EarlyEffect(Carry(n, m, tgt), layer, entries, j)
  {
  }

  /** The fold goes on to the next participant, which is still one up to `j`: the race is not
      claimed, so what the fold has built is not settled. */
  lemma LoopEarly(n: Net, a: Action, layer: nat, entries: seq<Entry>, j: nat)
    requires |n.cells| == |n.defs| && ActionOk(n, a) && a.RaceLoop? && Early(n, a, layer, entries, j)
    requires j < |entries| && EarlyAwaiters(n, layer, entries, j)
    requires a.layer == layer ==> !IsDone(n.cells[a.cur])
    ensures EarlyEffect(Perform(n, a), layer, entries, j)
  {
    if a.rest != [] {
      assert a.rest == [a.rest[0]] + a.rest[1..];
    }
  }

  lemma TryEarly(n: Net, a: Action, layer: nat, entries: seq<Entry>, j: nat)
    requires |n.cells| == |n.defs| && ActionOk(n, a) && a.RaceTry? && Early(n, a, layer, entries, j)
    requires j < |entries| && EarlyAwaiters(n, layer, entries, j)
    requires a.layer == layer ==> |a.rest| + 1 > |entries| - j
    ensures EarlyEffect(Perform(n, a), layer, entries, j)
  {
    var e := Perform(n, a);
    if a.layer == layer {
      var p := |entries| - |a.rest| - 1;
      assert ([a.e] + a.rest)[0] == entries[p] && p < j;
      assert entries[p] in entries[..j];
      assert entries[p..][1..] == entries[p + 1..];
      assert ([a.e] + a.rest)[1..] == a.rest;
    }
    assert Entry(a.e.input, a.e.inject) == a.e;
    forall u, w | 0 <= u < |e.net.cells| && w in e.net.cells[u].awaiters ensures EarlyCont(w.k, layer, entries, j) {
      assert w in n.cells[u].awaiters || w.k == RaceWin(a.e.input, a.e.inject, a.layer);
    }
  }

  lemma NotYetSettled(n: Net, cur: nat, layer: nat)
    requires NetOk(n) && InLayer(n, cur, layer) && !ClaimedAt(n, layer)
    ensures !IsDone(n.cells[cur])
  {
    assert NodeOk(n, layer);
    if IsDone(n.cells[cur]) {
      LayerOutcome(n, cur, layer);
    }
  }

  lemma HandleEarly(n: Net, a: Action, layer: nat, entries: seq<Entry>, j: nat)
    requires |n.cells| == |n.defs| && ActionOk(n, a)
    requires EarlyAwaiters(n, layer, entries, j) && Early(n, a, layer, entries, j)
    requires a.Flag? || a.Exchange? || (a.RelaySettle? && a.child != layer && a.tgt != layer)
    requires Grows(n, Perform(n, a).net)
    ensures EarlyEffect(Perform(n, a), layer, entries, j)
  {
    var e := Perform(n, a);
    forall u, w | 0 <= u < |e.net.cells| && w in e.net.cells[u].awaiters ensures EarlyCont(w.k, layer, entries, j) {
      assert w in n.cells[u].awaiters;
    }
    if a.Flag? && a.t == layer {
      BelowGrows(n, e.net, entries, j, Rejected(a.err));
    } else if a.Exchange? && a.t == layer {
      BelowGrows(n, e.net, entries, j, a.o);
    }
  }

  lemma BuildEarly(n: Net, a: Action, layer: nat, entries: seq<Entry>, j: nat)
    requires NetOk(n) && ActionOk(n, a) && a.RaceLoop?
    requires OpenRace(n, layer, entries, j) && Early(n, a, layer, entries, j)
    ensures EarlyEffect(Perform(n, a), layer, entries, j)
  {
    if a.layer == layer {
      NotYetSettled(n, a.cur, layer);
    }
    LoopEarly(n, a, layer, entries, j);
  }

  lemma SettleEarly(n: Net, a: Action, layer: nat, entries: seq<Entry>, j: nat)
    requires NetOk(n) && ActionOk(n, a) && OpenRace(n, layer, entries, j) && Early(n, a, layer, entries, j)
    requires a.Flag? || a.Exchange? || a.RelaySettle?
    ensures EarlyEffect(Perform(n, a), layer, entries, j)
  {
    if a.RelaySettle? {
      RelayedChild(n, a.tgt);
    }
    PerformOk(n, a);
    HandleEarly(n, a, layer, entries, j);
  }

  lemma CountEarly(n: Net, a: Action, layer: nat, entries: seq<Entry>, j: nat)
    requires |n.cells| == |n.defs| && ActionOk(n, a) && EarlyAwaiters(n, layer, entries, j)
    requires a.CountRace? || (a.AllLoop? && a.tgt != layer)
    ensures EarlyEffect(Perform(n, a), layer, entries, j)
  {
    var e := Perform(n, a);
    forall u, w | 0 <= u < |e.net.cells| && w in e.net.cells[u].awaiters ensures EarlyCont(w.k, layer, entries, j) {
      assert w in n.cells[u].awaiters || w.k.AllAt?;
    }
  }

  lemma DispatchEarly(n: Net, a: Action, layer: nat, entries: seq<Entry>, j: nat)
    requires NetOk(n) && ActionOk(n, a) && OpenRace(n, layer, entries, j) && (a.Store? || a.Final? || a.UnhookThen?)
    ensures EarlyEffect(Perform(n, a), layer, entries, j)
  {
    var e := Perform(n, a);
    if a.UnhookThen? {
      WithoutMembers(n.cells[a.input].awaiters, a.id);
    } else {
      var l := if a.Store? then StoreOutcome(n.cells[a.t], a.o) else FinalSuspend(n.cells[a.t]);
      forall q | 0 <= q < |e.front| ensures Early(e.net, e.front[q], layer, entries, j) {
        assert l.taken[q] in n.cells[a.t].awaiters;
      }
    }
    forall u, w | 0 <= u < |e.net.cells| && w in e.net.cells[u].awaiters ensures EarlyCont(w.k, layer, entries, j) {
      assert w in n.cells[u].awaiters;
    }
  }

  /** Up to the moment the fold looks at participant `j`, every section that has to do with
      the race keeps to the participants left of it. */
  lemma PerformEarly(n: Net, a: Action, layer: nat, entries: seq<Entry>, j: nat)
    requires NetOk(n) && ActionOk(n, a) && OpenRace(n, layer, entries, j) && Early(n, a, layer, entries, j)
    requires a.RaceTry? && a.layer == layer ==> |a.rest| + 1 > |entries| - j
    ensures EarlyEffect(Perform(n, a), layer, entries, j)
  {
    match a
    case Resume(k) => ResumeEarly(n, k, layer, entries, j);
    case Chain(_, _) => LinkEarly(n, a, layer, entries, j);
    case RaceLink(_, _, _, _, _) => LinkEarly(n, a, layer, entries, j);
    case RaceLoop(_, _, _) => BuildEarly(n, a, layer, entries, j);
    case RaceTry(_, _, _, _) => TryEarly(n, a, layer, entries, j);
    case Store(_, _) => DispatchEarly(n, a, layer, entries, j);
    case Final(_) => DispatchEarly(n, a, layer, entries, j);
    case UnhookThen(_, _, _, _) => DispatchEarly(n, a, layer, entries, j);
    case CountRace(_) => CountEarly(n, a, layer, entries, j);
    case AllLoop(_, _, _, _) => CountEarly(n, a, layer, entries, j);
    case Flag(_, _) => SettleEarly(n, a, layer, entries, j);
    case Exchange(_, _) => SettleEarly(n, a, layer, entries, j);
    case RelaySettle(_, _, _) => SettleEarly(n, a, layer, entries, j);
  }

  // -- whole steps

  ghost predicate EarlyThread(n: Net, th: Thread, layer: nat, entries: seq<Entry>, j: nat) {
    forall k :: 0 <= k < |th| ==> Early(n, th[k], layer, entries, j)
  }

  /** Every thread except possibly `i` keeps to the participants left of `j`. */
  ghost predicate EarlyBut(s: Sys, i: int, layer: nat, entries: seq<Entry>, j: nat) {
    forall q :: 0 <= q < |s.threads| && q != i ==> EarlyThread(s.net, s.threads[q], layer, entries, j)
  }

  /** What participant `j` is going to tell the race. */
  ghost function Word(n: Net, entries: seq<Entry>, j: nat): Outcome
    requires j < |entries| && DoneAt(n, entries[j].input)
  {
    Injected(entries[j], OutAt(n, entries[j].input))
  }

  /** The fold has not looked at participant `j`. */
  ghost predicate Before(s: Sys, layer: nat, entries: seq<Entry>, j: nat) {
    && OpenRace(s.net, layer, entries, j) && EarlyBut(s, -1, layer, entries, j)
    && (layer in s.net.flagged ==> LeftRejected(s.net, entries, j))
  }

  /** Thread `i` speaks for participant `j` and goes on building afterwards. */
  ghost predicate Speaking(s: Sys, i: nat, layer: nat, entries: seq<Entry>, j: nat) {
    && OpenRace(s.net, layer, entries, j) && EarlyBut(s, i, layer, entries, j)
    && i < |s.threads| && |s.threads[i]| >= 2 && Builds(s.threads[i][1]) && s.threads[i][1].layer == layer
    && var a, o := s.threads[i][0], Word(s.net, entries, j);
       || a == Exchange(layer, o)
       || ((a == Resume(RaceWin(entries[j].input, entries[j].inject, layer)) || a == Handle(layer, o))
           && (layer in s.net.flagged ==> LeftRejected(s.net, entries, j)))
  }

  /** A participant up to `j` has claimed the race. */
  ghost predicate DecidedEarly(s: Sys, layer: nat, entries: seq<Entry>, j: nat) {
    exists i: nat, o :: Decided(s, i, layer, o) && ScoredBelow(s.net, entries, j + 1, o)
  }

  /** Participant `j` and one to its left are both rejected, so the Reject handle's flag may
      have dropped the word of `j`. */
  ghost predicate Outflanked(n: Net, entries: seq<Entry>, j: nat) {
    j < |entries| && DoneAt(n, entries[j].input) && OutAt(n, entries[j].input).Rejected? && LeftRejected(n, entries, j)
  }

  ghost predicate Stage(s: Sys, layer: nat, entries: seq<Entry>, j: nat) {
    && layer < |s.net.defs| && s.net.defs[layer] == Contest(entries) && CountAll(s.threads, layer) <= 1
    && (Before(s, layer, entries, j) || (exists i: nat :: Speaking(s, i, layer, entries, j))
        || DecidedEarly(s, layer, entries, j) || Outflanked(s.net, entries, j))
  }

  /** Only an exchange on the shared promise claims it, and only its Reject handle sets its
      flag. */
  lemma ClaimsAndFlags(n: Net, a: Action, layer: nat)
    requires NetOk(n) && ActionOk(n, a) && layer < |n.defs| && n.defs[layer].Contest? && !ClaimedAt(n, layer)
    ensures ClaimFacts(n, a, Perform(n, a), layer)
  {
    if a.RelaySettle? {
      RelayedChild(n, a.tgt);
    }
    if a.Resume? {
      ResumeClaims(n, a.k, layer);
    } else if a.Chain? || a.RaceLink? {
      AttachClaims(n, a, layer);
    } else {
      SectionClaims(n, a, layer);
    }
  }

  ghost predicate ClaimFacts(n: Net, a: Action, e: Effect, layer: nat) {
    && (ClaimedAt(e.net, layer) ==> a.Exchange? && a.t == layer && e.front == [Store(layer, a.o)])
    && (layer in e.net.flagged ==> layer in n.flagged || (a.Flag? && a.t == layer))
  }

  lemma ResumeClaims(n: Net, k: Cont, layer: nat)
    requires DoneAt(n, k.src) && layer < |n.cells| && !ClaimedAt(n, layer)
    ensures ClaimFacts(n, Resume(k), ResumeEffect(n, k), layer)
  {
  }

  lemma AttachClaims(n: Net, a: Action, layer: nat)
    requires |n.cells| == |n.defs| && ActionOk(n, a) && (a.Chain? || a.RaceLink?)
    requires layer < |n.cells| && !ClaimedAt(n, layer)
    ensures ClaimFacts(n, a, Perform(n, a), layer)
  {
  }

  lemma SectionClaims(n: Net, a: Action, layer: nat)
    requires |n.cells| == |n.defs| && ActionOk(n, a) && !a.Resume? && !a.Chain? && !a.RaceLink?
    requires layer < |n.cells| && !ClaimedAt(n, layer) && (a.RelaySettle? ==> a.child != layer)
    ensures ClaimFacts(n, a, Perform(n, a), layer)
  {
  }

  /** Replacing the head of thread `q` by early sections keeps the other threads early. */
  lemma ThreadsEarly(
    n: Net, threads: seq<Thread>, e: Effect, q: nat, i: int, layer: nat, entries: seq<Entry>, j: nat, p: nat, k: nat)
    requires q < |threads| && threads[q] != [] && q != i && Grows(n, e.net) && EarlyEffect(e, layer, entries, j)
    requires forall t :: 0 <= t < |threads| && t != i ==> EarlyThread(n, threads[t], layer, entries, j)
    requires var threads' := threads[q := e.front + threads[q][1..]] + e.spawned;
             p < |threads'| && p != i && k < |threads'[p]|
    ensures var threads' := threads[q := e.front + threads[q][1..]] + e.spawned;
            Early(e.net, threads'[p][k], layer, entries, j)
  {
    if p == q {
      assert EarlyThread(n, threads[q], layer, entries, j);
      if k >= |e.front| {
        EarlyGrows(n, e.net, threads[q][k - |e.front| + 1], layer, entries, j);
      }
    } else if p < |threads| {
      assert EarlyThread(n, threads[p], layer, entries, j);
      EarlyGrows(n, e.net, threads[p][k], layer, entries, j);
    }
  }

  /** One step of a thread that keeps to the left of `j`, while thread `i` does not run. */
  lemma OthersStep(s: Sys, q: nat, i: int, layer: nat, entries: seq<Entry>, j: nat)
    requires SysOk(s) && Runnable(s, q) && q != i
    requires OpenRace(s.net, layer, entries, j) && EarlyBut(s, i, layer, entries, j)
    requires var a := s.threads[q][0]; a.RaceTry? && a.layer == layer ==> |a.rest| + 1 > |entries| - j
    ensures EarlyBut(Exec(s, q), i, layer, entries, j)
    ensures EarlyAwaiters(Exec(s, q).net, layer, entries, j)
    ensures i >= |s.threads| || i < 0 || Exec(s, q).threads[i] == s.threads[i]
  {
    var th, s' := s.threads[q], Exec(s, q);
    assert th[0] in th && EarlyThread(s.net, th, layer, entries, j);
    PerformEarly(s.net, th[0], layer, entries, j);
    ExecOk(s, q);
    var e := Perform(s.net, th[0]);
    forall p | 0 <= p < |s'.threads| && p != i ensures EarlyThread(s'.net, s'.threads[p], layer, entries, j) {
      forall k | 0 <= k < |s'.threads[p]| ensures Early(s'.net, s'.threads[p][k], layer, entries, j) {
        ThreadsEarly(s.net, s.threads, e, q, i, layer, entries, j, p, k);
      }
    }
  }

  lemma ClaimedNow(s: Sys, q: nat, layer: nat, entries: seq<Entry>, j: nat)
    requires SysOk(s) && Runnable(s, q) && layer < |s.net.defs| && s.net.defs[layer].Contest?
    requires !ClaimedAt(s.net, layer) && ClaimedAt(Exec(s, q).net, layer)
    requires var a := s.threads[q][0]; a.Exchange? && a.t == layer ==> ScoredBelow(s.net, entries, j + 1, a.o)
    ensures DecidedEarly(Exec(s, q), layer, entries, j)
  {
    var a := s.threads[q][0];
    assert a in s.threads[q];
    ClaimsAndFlags(s.net, a, layer);
    ExecOk(s, q);
    BelowGrows(s.net, Exec(s, q).net, entries, j + 1, a.o);
    assert Exec(s, q).threads[q][0] == Store(layer, a.o);
    assert Decided(Exec(s, q), q, layer, a.o);
  }

  /** A rejection of a participant to the left. */
  lemma FlagMeansLeft(n: Net, entries: seq<Entry>, j: nat, err: Error)
    requires ScoredBelow(n, entries, j, Rejected(err))
    ensures LeftRejected(n, entries, j)
  {
    var i :| 0 <= i < j && i < |entries| && Scored(n, entries[i], Rejected(err));
    assert OutAt(n, entries[i].input).Rejected?;
  }

  lemma {:induction false} BelowWeakens(n: Net, entries: seq<Entry>, j: nat, o: Outcome)
    requires ScoredBelow(n, entries, j, o)
    ensures ScoredBelow(n, entries, j + 1, o)
  {
    var i :| 0 <= i < j && i < |entries| && Scored(n, entries[i], o);
  }

  /** After a step of a thread that keeps left, while thread `i` stands still. */
  lemma LeftStep(s: Sys, q: nat, i: int, layer: nat, entries: seq<Entry>, j: nat)
    requires SysOk(s) && Runnable(s, q) && q != i
    requires OpenRace(s.net, layer, entries, j) && EarlyBut(s, i, layer, entries, j)
    requires var a := s.threads[q][0]; a.RaceTry? && a.layer == layer ==> |a.rest| + 1 > |entries| - j
    ensures EarlyBut(Exec(s, q), i, layer, entries, j)
    ensures OpenRace(Exec(s, q).net, layer, entries, j) || DecidedEarly(Exec(s, q), layer, entries, j)
    ensures layer in Exec(s, q).net.flagged ==> layer in s.net.flagged || LeftRejected(Exec(s, q).net, entries, j)
    ensures LeftRejected(s.net, entries, j) ==> LeftRejected(Exec(s, q).net, entries, j)
  {
    var a, s' := s.threads[q][0], Exec(s, q);
    assert a in s.threads[q];
    assert EarlyThread(s.net, s.threads[q], layer, entries, j);
    OthersStep(s, q, i, layer, entries, j);
    ExecOk(s, q);
    DoneGrows(s.net, s'.net, entries[j].input);
    ClaimsAndFlags(s.net, a, layer);
    if LeftRejected(s.net, entries, j) {
      LeftGrows(s.net, s'.net, entries, j);
    }
    if a.Flag? && a.t == layer {
      FlagMeansLeft(s.net, entries, j, a.err);
      LeftGrows(s.net, s'.net, entries, j);
    }
    if a.Exchange? && a.t == layer {
      BelowWeakens(s.net, entries, j, a.o);
    }
    if ClaimedAt(s'.net, layer) {
      ClaimedNow(s, q, layer, entries, j);
    } else {
      assert s'.net.defs[layer] == s.net.defs[layer];
    }
  }

  lemma BeforeStep(s: Sys, q: nat, layer: nat, entries: seq<Entry>, j: nat)
    requires SysOk(s) && Runnable(s, q) && Before(s, layer, entries, j)
    ensures var s' := Exec(s, q);
            Before(s', layer, entries, j) || Speaking(s', q, layer, entries, j) || DecidedEarly(s', layer, entries, j)
  {
    var a, s' := s.threads[q][0], Exec(s, q);
    assert a in s.threads[q];
    assert EarlyThread(s.net, s.threads[q], layer, entries, j);
    if a.RaceTry? && a.layer == layer && |a.rest| + 1 == |entries| - j {
      assert ([a.e] + a.rest)[0] == entries[j];
      var front := [Resume(RaceWin(a.e.input, a.e.inject, layer)), RaceLoop(a.cur, a.rest, layer)];
      assert s'.threads[q] == front + s.threads[q][1..];
      assert s'.net == s.net;
      assert forall p :: 0 <= p < |s.threads| && p != q ==> s'.threads[p] == s.threads[p];
      assert Speaking(s', q, layer, entries, j);
    } else {
      LeftStep(s, q, -1, layer, entries, j);
    }
  }

  /** While a thread speaks for `j` it is the builder, so no other thread builds the race. */
  lemma NoOtherBuilder(s: Sys, i: nat, q: nat, layer: nat)
    requires i < |s.threads| && q < |s.threads| && q != i && CountAll(s.threads, layer) <= 1
    requires |s.threads[i]| >= 2 && Builds(s.threads[i][1]) && s.threads[i][1].layer == layer
    requires s.threads[q] != []
    ensures !(Builds(s.threads[q][0]) && s.threads[q][0].layer == layer)
  {
    if Builds(s.threads[q][0]) && s.threads[q][0].layer == layer {
      CountIn(s.threads[i], s.threads[i][1]);
      CountIn(s.threads[q], s.threads[q][0]);
      if i < q {
        SumApart(s.threads, i, q, CountOf(layer));
      } else {
        SumApart(s.threads, q, i, CountOf(layer));
      }
    }
  }

  /** The speaking thread's own step: it enters its exchange, wins it, or is dropped at the
      flag because a participant to the left was rejected. */
  lemma OwnWord(s: Sys, i: nat, layer: nat, entries: seq<Entry>, j: nat)
    requires SysOk(s) && Runnable(s, i) && Speaking(s, i, layer, entries, j)
    ensures var s' := Exec(s, i);
            Speaking(s', i, layer, entries, j) || DecidedEarly(s', layer, entries, j) || Outflanked(s'.net, entries, j)
  {
    var a, s', o := s.threads[i][0], Exec(s, i), Word(s.net, entries, j);
    assert a in s.threads[i];
    assert forall p :: 0 <= p < |s.threads| && p != i ==> s'.threads[p] == s.threads[p];
    if a == Exchange(layer, o) {
      assert ScoredBelow(s.net, entries, j + 1, o) by {
        assert Scored(s.net, entries[j], o);
      }
      ClaimedNow(s, i, layer, entries, j);
    } else if a.Resume? {
      assert s'.threads[i] == [Handle(layer, o)] + s.threads[i][1..];
      assert s'.net == s.net;
    } else if layer !in s.net.flagged {
      FlagPassed(s, i, layer, entries, j);
    }
  }

  lemma FlagPassed(s: Sys, i: nat, layer: nat, entries: seq<Entry>, j: nat)
    requires SysOk(s) && Runnable(s, i) && Speaking(s, i, layer, entries, j) && layer !in s.net.flagged
    requires s.threads[i][0].Flag? && s.threads[i][0] == Handle(layer, Word(s.net, entries, j))
    ensures Speaking(Exec(s, i), i, layer, entries, j)
  {
    var a, s', o := s.threads[i][0], Exec(s, i), Word(s.net, entries, j);
    assert a in s.threads[i];
    ExecOk(s, i);
    assert s'.threads[i] == [Exchange(layer, o)] + s.threads[i][1..];
    forall p | 0 <= p < |s'.threads| && p != i ensures EarlyThread(s'.net, s'.threads[p], layer, entries, j) {
      assert s'.threads[p] == s.threads[p] && EarlyThread(s.net, s.threads[p], layer, entries, j);
      forall k | 0 <= k < |s.threads[p]| ensures Early(s'.net, s.threads[p][k], layer, entries, j) {
        EarlyGrows(s.net, s'.net, s.threads[p][k], layer, entries, j);
      }
    }
  }

  lemma SpeakingStep(s: Sys, i: nat, q: nat, layer: nat, entries: seq<Entry>, j: nat)
    requires SysOk(s) && Runnable(s, q) && Speaking(s, i, layer, entries, j) && CountAll(s.threads, layer) <= 1
    ensures var s' := Exec(s, q);
            Speaking(s', i, layer, entries, j) || DecidedEarly(s', layer, entries, j) || Outflanked(s'.net, entries, j)
  {
    if q == i {
      OwnWord(s, i, layer, entries, j);
    } else {
      NoOtherBuilder(s, i, q, layer);
      LeftStep(s, q, i, layer, entries, j);
      ExecOk(s, q);
      DoneGrows(s.net, Exec(s, q).net, entries[j].input);
      assert Exec(s, q).threads[i] == s.threads[i];
    }
  }

  // -- calls and runs

  lemma CallEarly(s: Sys, e: Event, i: int, layer: nat, entries: seq<Entry>, j: nat)
    requires SysOk(s) && Enabled(s, e) && !e.Run? && i < |s.threads|
    requires OpenRace(s.net, layer, entries, j) && EarlyBut(s, i, layer, entries, j)
    ensures OpenRace(Next(s, e).net, layer, entries, j) && EarlyBut(Next(s, e), i, layer, entries, j)
  {
    var s' := Next(s, e);
    NextOk(s, e);
    DoneGrows(s.net, s'.net, entries[j].input);
    forall p | 0 <= p < |s'.threads| && p != i ensures EarlyThread(s'.net, s'.threads[p], layer, entries, j) {
      if p < |s.threads| {
        assert s'.threads[p] == s.threads[p] && EarlyThread(s.net, s.threads[p], layer, entries, j);
        forall k | 0 <= k < |s.threads[p]| ensures Early(s'.net, s.threads[p][k], layer, entries, j) {
          EarlyGrows(s.net, s'.net, s.threads[p][k], layer, entries, j);
        }
      }
    }
    forall u, w | 0 <= u < |s'.net.cells| && w in s'.net.cells[u].awaiters ensures EarlyCont(w.k, layer, entries, j) {
      assert w in s.net.cells[u].awaiters;
    }
  }

  lemma CallCounts(s: Sys, e: Event, layer: nat)
    requires SysOk(s) && Enabled(s, e) && !e.Run? && layer < |s.net.defs|
    ensures CountAll(Next(s, e).threads, layer) == CountAll(s.threads, layer)
  {
    var s' := Next(s, e);
    if |s'.threads| > |s.threads| {
      var th := s'.threads[|s.threads|];
      assert s'.threads == s.threads + [th];
      CountSpawned(s.threads, th, layer);
      CountNone(th, layer);
    }
  }

  lemma LeftKept(s: Sys, e: Event, layer: nat, entries: seq<Entry>, j: nat)
    requires SysOk(s) && Enabled(s, e)
    ensures LeftRejected(s.net, entries, j) ==> LeftRejected(Next(s, e).net, entries, j)
    ensures Outflanked(s.net, entries, j) ==> Outflanked(Next(s, e).net, entries, j)
    ensures DecidedEarly(s, layer, entries, j) ==> DecidedEarly(Next(s, e), layer, entries, j)
  {
    NextOk(s, e);
    if LeftRejected(s.net, entries, j) {
      LeftGrows(s.net, Next(s, e).net, entries, j);
    }
    if j < |entries| {
      DoneGrows(s.net, Next(s, e).net, entries[j].input);
    }
    if DecidedEarly(s, layer, entries, j) {
      var i: nat, o :| Decided(s, i, layer, o) && ScoredBelow(s.net, entries, j + 1, o);
      DecidedStep(s, i, layer, o, e);
      BelowGrows(s.net, Next(s, e).net, entries, j + 1, o);
    }
  }

  lemma StageExec(s: Sys, q: nat, layer: nat, entries: seq<Entry>, j: nat)
    requires SysOk(s) && Runnable(s, q) && CountAll(s.threads, layer) <= 1
    requires Before(s, layer, entries, j) || exists i: nat :: Speaking(s, i, layer, entries, j)
    ensures var s' := Exec(s, q);
            || Before(s', layer, entries, j) || (exists i: nat :: Speaking(s', i, layer, entries, j))
            || DecidedEarly(s', layer, entries, j) || Outflanked(s'.net, entries, j)
  {
    if Before(s, layer, entries, j) {
      BeforeStep(s, q, layer, entries, j);
    } else {
      var i: nat :| Speaking(s, i, layer, entries, j);
      SpeakingStep(s, i, q, layer, entries, j);
    }
  }

  lemma StageCall(s: Sys, e: Event, layer: nat, entries: seq<Entry>, j: nat)
    requires SysOk(s) && Enabled(s, e) && !e.Run?
    requires Before(s, layer, entries, j) || exists i: nat :: Speaking(s, i, layer, entries, j)
    ensures var s' := Next(s, e);
            Before(s', layer, entries, j) || exists i: nat :: Speaking(s', i, layer, entries, j)
  {
    LeftKept(s, e, layer, entries, j);
    if Before(s, layer, entries, j) {
      CallEarly(s, e, -1, layer, entries, j);
    } else {
      var i: nat :| Speaking(s, i, layer, entries, j);
      CallEarly(s, e, i, layer, entries, j);
      NextOk(s, e);
      DoneGrows(s.net, Next(s, e).net, entries[j].input);
      assert Speaking(Next(s, e), i, layer, entries, j);
    }
  }

  lemma StageStep(s: Sys, e: Event, layer: nat, entries: seq<Entry>, j: nat)
    requires SysOk(s) && Enabled(s, e) && Stage(s, layer, entries, j)
    ensures Stage(Next(s, e), layer, entries, j)
  {
    NextOk(s, e);
    assert Next(s, e).net.defs[layer] == s.net.defs[layer];
    if e.Run? {
      ExecCounts(s, e.i, layer);
    } else {
      CallCounts(s, e, layer);
    }
    if DecidedEarly(s, layer, entries, j) || Outflanked(s.net, entries, j) {
      LeftKept(s, e, layer, entries, j);
    } else if e.Run? {
      StageExec(s, e.i, layer, entries, j);
    } else {
      StageCall(s, e, layer, entries, j);
    }
  }

  lemma {:induction false} StageRun(s: Sys, events: seq<Event>, layer: nat, entries: seq<Entry>, j: nat)
    requires SysOk(s) && IsRun(s, events) && Stage(s, layer, entries, j)
    ensures Stage(Last(s, events), layer, entries, j)
    decreases |events|
  {
    if events != [] {
      NextOk(s, events[0]);
      StageStep(s, events[0], layer, entries, j);
      StageRun(Next(s, events[0]), events[1..], layer, entries, j);
    }
  }

  lemma StageStarts(s: Sys, entries: seq<Entry>, j: nat)
    requires SysOk(s) && Enabled(s, StartRace(entries)) && j < |entries| && DoneAt(s.net, entries[j].input)
    ensures Stage(Next(s, StartRace(entries)), |s.net.cells|, entries, j)
  {
    var s', layer := Next(s, StartRace(entries)), |s.net.cells|;
    NextOk(s, StartRace(entries));
    DoneGrows(s.net, s'.net, entries[j].input);
    FutureUnbuilt(s, layer);
    assert s'.threads == s.threads + [[RaceLoop(layer, entries, layer)]];
    CountSpawned(s.threads, [RaceLoop(layer, entries, layer)], layer);
    forall p | 0 <= p < |s'.threads| ensures EarlyThread(s'.net, s'.threads[p], layer, entries, j) {
      if p < |s.threads| {
        assert s'.threads[p] == s.threads[p];
        forall k | 0 <= k < |s.threads[p]| ensures Early(s'.net, s.threads[p][k], layer, entries, j) {
          assert s.threads[p][k] in s.threads[p] && ActionOk(s.net, s.threads[p][k]);
        }
      } else {
        assert entries[0..] == entries;
      }
    }
    forall u, w | 0 <= u < |s'.net.cells| && w in s'.net.cells[u].awaiters ensures EarlyCont(w.k, layer, entries, j) {
      assert NodeOk(s.net, u);
      assert w in s.net.cells[u].awaiters;
    }
    assert Before(s', layer, entries, j);
  }

  /** Build-time order, under any interference: if participant `j` is settled when the race
      starts, then in every run, whatever other threads call and settle while the fold is
      being built, the race is decided by `j` or a participant to its left. The one exception:
      `j` is rejected and so is a participant to its left; then the Reject handle's flag may
      have dropped the word of `j`. */
  lemma LeftmostSettledWins(s: Sys, entries: seq<Entry>, j: nat, events: seq<Event>)
    requires SysOk(s) && Enabled(s, StartRace(entries)) && j < |entries| && DoneAt(s.net, entries[j].input)
    requires SysOk(Next(s, StartRace(entries))) && IsRun(Next(s, StartRace(entries)), events)
    ensures var layer, n := |s.net.cells|, Last(Next(s, StartRace(entries)), events).net;
            DoneAt(n, layer) ==>
              || ScoredBelow(n, entries, j + 1, OutAt(n, layer))
              || (OutAt(s.net, entries[j].input).Rejected? && LeftRejected(n, entries, j))
  {
    var s', layer := Next(s, StartRace(entries)), |s.net.cells|;
    StageStarts(s, entries, j);
    StageRun(s', events, layer, entries, j);
    NextOk(s, StartRace(entries));
    RunOk(s', events);
    var r := Last(s', events);
    GrowsTransitive(s.net, s'.net, r.net);
    DoneGrows(s.net, r.net, entries[j].input);
    if DoneAt(r.net, layer) {
      assert NodeOk(r.net, layer);
      DoneExcludes(r, layer, entries, j);
    }
  }

  lemma DoneExcludes(s: Sys, layer: nat, entries: seq<Entry>, j: nat)
    requires SysOk(s) && Stage(s, layer, entries, j) && DoneAt(s.net, layer)
    ensures ScoredBelow(s.net, entries, j + 1, OutAt(s.net, layer)) || Outflanked(s.net, entries, j)
  {
    assert NodeOk(s.net, layer);
    if !Outflanked(s.net, entries, j) {
      var i: nat, o :| Decided(s, i, layer, o) && ScoredBelow(s.net, entries, j + 1, o);
    }
  }
}
