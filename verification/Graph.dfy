/** The promise network as a concurrent machine: cells linked by Then, Catch, Finally, Race
    and All, and threads that run the library's code one atomic section at a time. A thread
    is the list of sections it still has to run; continuations are pushed in front of what
    the settling call has left to do, because the library runs them synchronously. */
module Graph {
  import opened Values
  import opened Cells
  import opened Operators

  /** One participant of a race and the conversion of its value to the race's type. */
  datatype Entry = Entry(input: nat, inject: Value -> Value)

  function Injected(e: Entry, o: Outcome): Outcome {
    if o.Rejected? then o else Resolved(e.inject(o.value))
  }

  /** Where a cell comes from: created by the user, the coroutine or immediate promise of a
      handler, an operator applied to `src`, All over a container, or the shared promise of
      a race. */
  datatype Def =
    | Root
    | Body(spec: Outcome)
    | Derived(src: nat, op: Op)
    | Gather(inputs: seq<nat>)
    | Contest(entries: seq<Entry>)

  /** What an awaiter of cell `src` resumes. Branch is not registered: it is what an operator
      goes on with when it finds `src` settled. */
  datatype Cont =
    | Step(src: nat, op: Op, tgt: nat)
    | Branch(src: nat, op: Op, tgt: nat)
    | RaceWin(src: nat, inject: Value -> Value, layer: nat)
    | AllAt(src: nat, inputs: seq<nat>, pos: nat, results: seq<Value>, tgt: nat)

  /** One atomic section of the library's code. Flag is the once-flag in front of the
      resolver that every call of a Reject handle passes first. */
  datatype Action =
    | Flag(t: nat, err: Error)
    | Exchange(t: nat, o: Outcome)
    | Store(t: nat, o: Outcome)
    | Final(t: nat)
    | Resume(k: Cont)
    | Chain(src: nat, ops: seq<Op>)
    | RelaySettle(child: nat, o: Outcome, tgt: nat)
    | UnhookThen(input: nat, id: nat, tgt: nat, o: Outcome)
    | CountRace(input: nat)
    | RaceLoop(cur: nat, rest: seq<Entry>, layer: nat)
    | RaceTry(cur: nat, e: Entry, rest: seq<Entry>, layer: nat)
    | RaceLink(cur: nat, input: nat, id: nat, rest: seq<Entry>, layer: nat)
    | AllLoop(inputs: seq<nat>, pos: nat, results: seq<Value>, tgt: nat)

  type Thread = seq<Action>

  /** The cells, their definitions, for every race the last promise its fold produced, and
      the cells whose Reject handle has been called. */
  datatype Net = Net(cells: seq<Cell<Cont>>, defs: seq<Def>, tips: map<nat, nat>, flagged: set<nat>)

  datatype Sys = Sys(net: Net, threads: seq<Thread>)

  /** The result of one section: the new network, what the thread does next, and the
      coroutines it started. */
  datatype Effect = Effect(net: Net, front: Thread, spawned: seq<Thread>)

  // ---------------------------------------------------------------- what is in order

  predicate DoneAt(n: Net, t: nat) {
    t < |n.cells| && IsDone(n.cells[t])
  }

  predicate ClaimedAt(n: Net, t: nat) {
    t < |n.cells| && n.cells[t].claimed
  }

  /** A handle of the cell has been called: it is claimed, or a rejection is past the flag. */
  predicate AnsweredAt(n: Net, t: nat) {
    ClaimedAt(n, t) || t in n.flagged
  }

  function OutAt(n: Net, t: nat): Outcome
    requires DoneAt(n, t)
  {
    Out(n.cells[t])
  }

  /** The first `k` inputs are resolved with `results`. */
  ghost predicate Collected(n: Net, inputs: seq<nat>, k: nat, results: seq<Value>) {
    && k <= |inputs| && |results| == k
    && (forall q :: 0 <= q < k ==> DoneAt(n, inputs[q]) && OutAt(n, inputs[q]) == Resolved(results[q]))
  }

  /** Input `k` is rejected with `o` and every input before it is resolved. */
  ghost predicate FailedAt(n: Net, inputs: seq<nat>, k: nat, o: Outcome) {
    && k < |inputs|
    && (forall q :: 0 <= q < k ==> DoneAt(n, inputs[q]) && OutAt(n, inputs[q]).Resolved?)
    && o.Rejected? && DoneAt(n, inputs[k]) && OutAt(n, inputs[k]) == o
  }

  /** `o` is the settled outcome of this participant. */
  ghost predicate Scored(n: Net, e: Entry, o: Outcome) {
    DoneAt(n, e.input) && o == Injected(e, OutAt(n, e.input))
  }

  /** Awaiter `id` is no longer registered on `input`, and never will be again. */
  ghost predicate Unhooked(n: Net, input: nat, id: nat) {
    && input < |n.cells| && id <= n.cells[input].useCount
    && (forall a :: a in n.cells[input].awaiters ==> !(a.Callback? && a.id == id))
  }

  /** The id belongs to a registration of race `layer` on `input`. */
  ghost predicate HookedBy(n: Net, input: nat, id: nat, layer: nat) {
    && input < |n.cells| && id <= n.cells[input].useCount
    && (forall a :: a in n.cells[input].awaiters && a.Callback? && a.id == id ==>
          a.k.RaceWin? && a.k.layer == layer)
  }

  /** What must have happened besides the source settling. */
  ghost predicate OpDone(n: Net, op: Op, o: Outcome) {
    match op
    case Relay(child, _) => o.Resolved? ==> AnsweredAt(n, child)
    case RelayError(child) => AnsweredAt(n, child)
    case Unhook(input, id, layer) => Unhooked(n, input, id) && DoneAt(n, layer) && OutAt(n, layer) == o
    case _ => true
  }

  /** `o` is a legitimate outcome of cell `t` in the present state. */
  ghost predicate Valid(n: Net, t: nat, o: Outcome)
    requires t < |n.defs|
  {
    match n.defs[t]
    case Root => true
    case Body(spec) => o == spec
    case Derived(src, op) => DoneAt(n, src) && o == Apply(op, OutAt(n, src)) && OpDone(n, op, o)
    case Gather(inputs) =>
      && (o.Resolved? ==> o.value.Vector? && Collected(n, inputs, |inputs|, o.value.items))
      && (o.Rejected? ==> exists k :: FailedAt(n, inputs, k, o))
    case Contest(entries) => exists j :: 0 <= j < |entries| && Scored(n, entries[j], o)
  }

  /** `cur` is the shared promise of race `layer` or one of its Finally layers. */
  ghost predicate InLayer(n: Net, cur: nat, layer: nat) {
    && cur < |n.defs| && layer < |n.defs| && n.defs[layer].Contest?
    && (cur == layer
        || (n.defs[cur].Derived? && n.defs[cur].op.Unhook? && n.defs[cur].op.layer == layer))
  }

  ghost predicate OpOk(n: Net, src: nat, op: Op)
    requires src < |n.defs|
  {
    match op
    case Relay(child, deliver) =>
      && child < |n.defs| && n.defs[child].Derived? && UserOp(n.defs[child].op)
      && n.defs[src].Body? && Valid(n, child, Adopted(deliver, n.defs[src].spec))
    case RelayError(child) =>
      child < |n.defs| && n.defs[src].Derived? && n.defs[src].op.Relay? && n.defs[src].op.child == child
    case Unhook(input, id, layer) => HookedBy(n, input, id, layer) && InLayer(n, src, layer)
    case _ => true
  }

  ghost predicate DefOk(n: Net, t: nat)
    requires t < |n.defs|
  {
    match n.defs[t]
    case Derived(src, op) => src < t && OpOk(n, src, op)
    case Gather(inputs) => forall q :: 0 <= q < |inputs| ==> inputs[q] < t
    case Contest(entries) => forall j :: 0 <= j < |entries| ==> entries[j].input < t
    case _ => true
  }

  ghost predicate ContOk(n: Net, k: Cont) {
    && k.src < |n.defs|
    && match k
       case Step(src, op, tgt) => src < tgt < |n.defs| && n.defs[tgt] == Derived(src, op)
       case Branch(src, op, tgt) => src < tgt < |n.defs| && n.defs[tgt] == Derived(src, op)
       case RaceWin(src, inject, layer) => IsEntry(n, layer, Entry(src, inject))
       case AllAt(src, inputs, pos, results, tgt) =>
         && tgt < |n.defs| && n.defs[tgt] == Gather(inputs)
         && pos < |inputs| && inputs[pos] == src && Collected(n, inputs, pos, results)
  }

  ghost predicate IsEntry(n: Net, layer: nat, e: Entry) {
    layer < |n.defs| && n.defs[layer].Contest? && e in n.defs[layer].entries
  }

  ghost predicate CellOk(c: Cell<Cont>) {
    && (IsDone(c) ==> c.claimed)
    && !(c.value.Some? && c.exception.Some?)
    && (Drained(c) ==> c.awaiters == [])
    && Ordered(c.awaiters, c.useCount)
  }

  ghost predicate NodeOk(n: Net, t: nat)
    requires t < |n.cells| == |n.defs|
  {
    && DefOk(n, t)
    && CellOk(n.cells[t])
    && (IsDone(n.cells[t]) ==> Valid(n, t, Out(n.cells[t])))
    && (forall a :: a in n.cells[t].awaiters ==> a.k.src == t && ContOk(n, a.k))
  }

  ghost predicate NetOk(n: Net) {
    && |n.cells| == |n.defs|
    && (forall t :: 0 <= t < |n.cells| ==> NodeOk(n, t))
    && (forall t :: t in n.flagged ==> t < |n.cells|)
  }

  ghost predicate ChainOk(n: Net, src: nat, ops: seq<Op>)
    requires src < |n.defs|
  {
    || (forall j :: 0 <= j < |ops| ==> UserOp(ops[j]))
    || (|ops| == 2 && ops[0].Relay? && OpOk(n, src, ops[0]) && ops[1] == RelayError(ops[0].child))
    || (|ops| == 1 && ops[0].RelayError? && OpOk(n, src, ops[0]))
  }

  /** The section may run: its indices exist and what it is about to store is legitimate. */
  ghost predicate ActionOk(n: Net, a: Action) {
    match a
    case Flag(t, e) => t < |n.defs| && Valid(n, t, Rejected(e))
    case Exchange(t, o) => t < |n.defs| && Valid(n, t, o)
    case Store(t, o) => t < |n.defs| && Valid(n, t, o) && ClaimedAt(n, t)
    case Final(t) => t < |n.defs|
    case Resume(k) => ContOk(n, k) && DoneAt(n, k.src)
    case Chain(src, ops) => src < |n.defs| && ChainOk(n, src, ops)
    case RelaySettle(child, o, tgt) =>
      && child < |n.defs| && Valid(n, child, o)
      && tgt < |n.defs| && n.defs[tgt].Derived?
      && (n.defs[tgt].op.Relay? || n.defs[tgt].op.RelayError?) && n.defs[tgt].op.child == child
      && DoneAt(n, n.defs[tgt].src) && Apply(n.defs[tgt].op, OutAt(n, n.defs[tgt].src)) == Resolved(Void)
    case UnhookThen(input, id, tgt, o) =>
      && input < |n.defs| && tgt < |n.defs| && n.defs[tgt].Derived? && n.defs[tgt].op.Unhook?
      && n.defs[tgt].op.input == input && n.defs[tgt].op.id == id
      && DoneAt(n, n.defs[tgt].src) && OutAt(n, n.defs[tgt].src) == o
    case CountRace(input) => input < |n.defs|
    case RaceLoop(cur, rest, layer) =>
      InLayer(n, cur, layer) && (forall e :: e in rest ==> IsEntry(n, layer, e))
    case RaceTry(cur, e, rest, layer) =>
      && InLayer(n, cur, layer) && IsEntry(n, layer, e) && e.input < |n.defs|
      && (forall e' :: e' in rest ==> IsEntry(n, layer, e'))
    case RaceLink(cur, input, id, rest, layer) =>
      && InLayer(n, cur, layer) && HookedBy(n, input, id, layer)
      && (forall e :: e in rest ==> IsEntry(n, layer, e))
    case AllLoop(inputs, pos, results, tgt) =>
      && tgt < |n.defs| && n.defs[tgt] == Gather(inputs) && Collected(n, inputs, pos, results)
      && (pos < |inputs| ==> inputs[pos] < |n.defs|)
  }

  // ---------------------------------------------------------------- the code

  function Update(n: Net, t: nat, c: Cell<Cont>): Net
    requires t < |n.cells|
  {
    n.(cells := n.cells[t := c])
  }

  function Append(n: Net, c: Cell<Cont>, d: Def): Net {
    n.(cells := n.cells + [c], defs := n.defs + [d])
  }

  /** The dispatch loop of OnResolved. */
  function Resumes(taken: seq<Awaiter<Cont>>): (r: Thread)
    ensures |r| == |taken| && forall i :: 0 <= i < |r| ==> r[i] == Resume(taken[i].k)
  {
    if taken == [] then [] else [Resume(taken[0].k)] + Resumes(taken[1..])
  }

  function Afterwards(n: Net, t: nat, l: Locked<Cont>): Effect
    requires t < |n.cells|
  {
    Effect(Update(n, t, l.cell), Resumes(l.taken), [])
  }

  /** A call of the Resolve or the Reject handle of `t`. */
  function Handle(t: nat, o: Outcome): Action {
    if o.Resolved? then Exchange(t, o) else Flag(t, o.error)
  }

  /** The Reject handle's flag lets one call through. */
  function PassFlag(n: Net, t: nat): Net {
    n.(flagged := n.flagged + {t})
  }

  /** An async handler is called: its coroutine starts, and its promise is chained to the
      derived promise. */
  function Launch(n: Net, end: Outcome, tgt: nat, deliver: Value -> Outcome): Effect {
    var inner := |n.cells|;
    Effect(
      Append(n, Fresh(true), Body(end)),
      [Chain(inner, [Relay(tgt, deliver), RelayError(tgt)])],
      [[Exchange(inner, end), Final(inner)]])
  }

  /** Then with an async handler on a rejected source: an already rejected promise stands in
      for the handler's. */
  function LaunchRejected(n: Net, e: Error, tgt: nat, deliver: Value -> Outcome): Effect {
    var inner := |n.cells|;
    Effect(
      Append(n, Fresh(false), Body(Rejected(e))),
      [Flag(inner, e), Chain(inner, [Relay(tgt, deliver), RelayError(tgt)])],
      [])
  }

  /** A registered closure runs its own code, an operator on a settled source the other one. */
  function MoveOf(c: Cell<Cont>, k: Cont): Move
    requires IsDone(c) && (k.Step? || k.Branch?) && UserOp(k.op)
  {
    if k.Step? then AwaitedMove(k.op, c.exception, c.value) else DoneMove(k.op, c.exception, c.value)
  }

  /** Carries out how a branch of Then, Catch or Finally ends. The promise of Become has been
      made when the branch was entered, and its coroutine settles it. */
  function Carry(n: Net, m: Move, tgt: nat): Effect {
    match m
    case CallResolve(v) => Effect(n, [Exchange(tgt, Resolved(v))], [])
    case CallReject(e) => Effect(n, [Flag(tgt, e)], [])
    case Follow(end, deliver) => Launch(n, end, tgt, deliver)
    case FollowRejected(e, deliver) => LaunchRejected(n, e, tgt, deliver)
    case Become(end) => Effect(n, [Exchange(tgt, end), Final(tgt)], [])
  }

  /** The internal continuations, whose handlers are the library's own. */
  function Forward(n: Net, src: nat, op: Op, tgt: nat): Effect
    requires DoneAt(n, src) && !UserOp(op)
  {
    var o := OutAt(n, src);
    match op
    case Relay(child, deliver) =>
      if o.Resolved? then Effect(n, [RelaySettle(child, deliver(o.value), tgt)], [])
      else Effect(n, [Flag(tgt, o.error)], [])
    case RelayError(child) =>
      if o.Rejected? then Effect(n, [RelaySettle(child, o, tgt)], [])
      else Effect(n, [Exchange(tgt, Resolved(Void))], [])
    case Unhook(input, id, _) => Effect(n, [UnhookThen(input, id, tgt, o)], [])
  }

  function ResumeEffect(n: Net, k: Cont): Effect
    requires DoneAt(n, k.src)
  {
    match k
    case Step(src, op, tgt) =>
      if UserOp(op) then Carry(n, MoveOf(n.cells[src], k), tgt) else Forward(n, src, op, tgt)
    case Branch(src, op, tgt) =>
      if UserOp(op) then Carry(n, MoveOf(n.cells[src], k), tgt) else Forward(n, src, op, tgt)
    case RaceWin(src, inject, layer) =>
      Effect(n, [Handle(layer, Injected(Entry(src, inject), OutAt(n, src)))], [])
    case AllAt(src, inputs, pos, results, tgt) =>
      var o := OutAt(n, src);
      if o.Rejected? then Effect(n, [Exchange(tgt, o), Final(tgt)], [])
      else Effect(n, [AllLoop(inputs, pos + 1, results + [o.value], tgt)], [])
  }

  /** The settled branch of Then with an async handler returns the handler's own promise. */
  predicate Becomes(c: Cell<Cont>, op: Op)
    requires IsDone(c)
  {
    UserOp(op) && DoneMove(op, c.exception, c.value).Become?
  }

  /** Attaching `op` to `src`: on a pending source the continuation is registered, on a
      settled one the operator goes on with its other branch. `next` is what follows in the
      caller. */
  function Attach(n: Net, src: nat, op: Op, next: Thread): Effect
    requires src < |n.cells|
  {
    var t, c := |n.cells|, n.cells[src];
    if !IsDone(c) then
      var n' := Update(n, src, AwaitCallback(c, Step(src, op, t)));
      Effect(Append(n', Fresh(false), Derived(src, op)), next, [])
    else if Becomes(c, op) then
      Effect(Append(n, Fresh(true), Derived(src, op)), next,
             [[Exchange(t, DoneMove(op, c.exception, c.value).end), Final(t)]])
    else
      Effect(Append(n, Fresh(false), Derived(src, op)), [Resume(Branch(src, op, t))] + next, [])
  }

  function RaceEffect(n: Net, a: Action): Effect
    requires ActionOk(n, a) && |n.cells| == |n.defs|
    requires a.CountRace? || a.RaceLoop? || a.RaceTry? || a.RaceLink?
  {
    match a
    case CountRace(input) => Effect(Update(n, input, CountUse(n.cells[input])), [], [])
    case RaceLoop(cur, rest, layer) =>
      if rest == [] then Effect(n, [], [])
      else if IsDone(n.cells[cur]) then Effect(n, [CountRace(rest[0].input), RaceLoop(cur, rest[1..], layer)], [])
      else Effect(n, [RaceTry(cur, rest[0], rest[1..], layer)], [])
    case RaceTry(cur, e, rest, layer) =>
      var c := n.cells[e.input];
      if IsDone(c) then Effect(n, [Resume(RaceWin(e.input, e.inject, layer)), RaceLoop(cur, rest, layer)], [])
      else
        Effect(Update(n, e.input, AwaitCallback(c, RaceWin(e.input, e.inject, layer))),
               [RaceLink(cur, e.input, c.useCount + 1, rest, layer)], [])
    case RaceLink(cur, input, id, rest, layer) =>
      var t := |n.cells|;
      var e := Attach(n, cur, Unhook(input, id, layer), [RaceLoop(t, rest, layer)]);
      e.(net := e.net.(tips := e.net.tips[layer := t]))
  }

  /** One atomic section. */
  function Perform(n: Net, a: Action): Effect
    requires ActionOk(n, a) && |n.cells| == |n.defs|
  {
    match a
    case Flag(t, e) =>
      if t in n.flagged then Effect(n, [], []) else Effect(PassFlag(n, t), [Exchange(t, Rejected(e))], [])
    case Exchange(t, o) =>
      if n.cells[t].claimed then Effect(n, [], [])
      else Effect(Update(n, t, Claim(n.cells[t])), [Store(t, o)], [])
    case Store(t, o) => Afterwards(n, t, StoreOutcome(n.cells[t], o))
    case Final(t) => Afterwards(n, t, FinalSuspend(n.cells[t]))
    case Resume(k) => ResumeEffect(n, k)
    case Chain(src, ops) =>
      if ops == [] then Effect(n, [], [])
      else Attach(n, src, ops[0], [Chain(|n.cells|, ops[1..])])
    case RelaySettle(child, o, tgt) =>
      if o.Rejected? then
        if child in n.flagged then Effect(n, [Exchange(tgt, Resolved(Void))], [])
        else Effect(PassFlag(n, child), [Exchange(child, o), Exchange(tgt, Resolved(Void))], [])
      else if n.cells[child].claimed then Effect(n, [Exchange(tgt, Resolved(Void))], [])
      else Effect(Update(n, child, Claim(n.cells[child])), [Store(child, o), Exchange(tgt, Resolved(Void))], [])
    case UnhookThen(input, id, tgt, o) =>
      Effect(Update(n, input, UnAwait(n.cells[input], id)), [Handle(tgt, o)], [])
    case AllLoop(inputs, pos, results, tgt) =>
      if pos == |inputs| then Effect(n, [Exchange(tgt, Resolved(Vector(results))), Final(tgt)], [])
      else
        var p := inputs[pos];
        var k := AllAt(p, inputs, pos, results, tgt);
        if IsDone(n.cells[p]) then Effect(n, [Resume(k)], [])
        else Effect(Update(n, p, AwaitCoroutine(n.cells[p], k)), [], [])
    case _ => RaceEffect(n, a)
  }
}
