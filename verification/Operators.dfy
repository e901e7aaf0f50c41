/** Then, Catch and Finally. The first half says what a derived promise means; the second
    half is the library's code, branch by branch: for a source that is already settled and
    for the closure that runs when it settles. The two are proved to agree. */
module Operators {
  import opened Values
  import opened Types

  /** How a call of a handler ends. */
  datatype Ran = Returned(value: Value) | Threw(error: Error)

  /** A continuation operator. `void` says that the source promise is void, `returnsVoid`
      that the handler is; Catch carries the two types themselves. `any` is a Catch handler
      that takes the exception pointer, otherwise `matches` is the type test of its catch
      clause. When `async` is set the handler is a coroutine that ends the given way later.
      Relay and RelayError are the internal Then and Catch that forward the promise of an
      async handler to the derived promise `child`; Unhook is the Finally that Race
      attaches to take its awaiter `id` off `input` again. */
  datatype Op =
    | Then(void: bool, returnsVoid: bool, onValue: Value -> Ran, async: bool)
    | Catch(t: Type, t2: Type, any: bool, matches: Error -> bool, onError: Error -> Ran, async: bool)
    | Finally(void: bool, cleanup: Ran, async: bool)
    | Relay(child: nat, deliver: Value -> Outcome)
    | RelayError(child: nat)
    | Unhook(input: nat, id: nat, layer: nat)

  predicate UserOp(op: Op) {
    op.Then? || op.Catch? || op.Finally?
  }

  // ---------------------------------------------------------------- what it means

  /** The value a promise passes on: nothing, if it is void. */
  function Argument(void: bool, v: Value): Value {
    if void then Void else v
  }

  /** The outcome of running a handler, or a coroutine to its end. */
  function Ended(void: bool, r: Ran): Outcome {
    if r.Threw? then Rejected(r.error) else Resolved(Argument(void, r.value))
  }

  /** The outcome of a derived promise, from the outcome of its source. */
  function Apply(op: Op, o: Outcome): Outcome {
    match op
    case Then(void, returnsVoid, f, _) =>
      if o.Rejected? then o else Ended(returnsVoid, f(Argument(void, o.value)))
    case Catch(t, t2, any, matches, f, _) =>
      if o.Resolved? then Resolved(PassedThrough(t, t2, o.value))
      else if !any && !matches(o.error) then o
      else if f(o.error).Threw? then Rejected(f(o.error).error)
      else Resolved(Recovered(t, t2, f(o.error).value))
    case Finally(void, cleanup, _) =>
      if cleanup.Threw? then Rejected(cleanup.error)
      else if o.Rejected? then o
      else Resolved(Argument(void, o.value))
    case Relay(_, _) => if o.Rejected? then o else Resolved(Void)
    case RelayError(_) => Resolved(Void)
    case Unhook(_, _, _) => o
  }

  /** What an async handler's promise makes of the derived promise. */
  function Adopted(deliver: Value -> Outcome, o: Outcome): Outcome {
    if o.Rejected? then o else deliver(o.value)
  }

  // ---------------------------------------------------------------- what the code does

  /** How a branch ends: it calls the Resolve or the Reject handle of the derived promise;
      it chains the handler's promise, which ends as `end`, or an already rejected promise,
      to those handles; or it returns the handler's promise as the derived one. */
  datatype Move =
    | CallResolve(value: Value)
    | CallReject(error: Error)
    | Follow(end: Outcome, deliver: Value -> Outcome)
    | FollowRejected(error: Error, deliver: Value -> Outcome)
    | Become(end: Outcome)

  function ResolveVoid(v: Value): Outcome {
    Resolved(Void)
  }

  function ResolveSame(v: Value): Outcome {
    Resolved(v)
  }

  function ResolveNothing(v: Value): Outcome {
    Resolved(Absent)
  }

  function ResolveConverted(from: Type, to: Type): Value -> Outcome {
    v => Resolved(Convert(v, from, to))
  }

  function Always(o: Outcome): Value -> Outcome {
    v => o
  }

  // -- Then

  function ThenDone(op: Op, exception: Option<Error>, value: Option<Value>): Move
    requires op.Then? && (exception.Some? || value.Some?)
  {
    if !op.async then
      if exception.Some? then CallReject(exception.value)
      else if op.void then
        var r := op.onValue(Void);
        if r.Threw? then CallReject(r.error)
        else if op.returnsVoid then CallResolve(Void)
        else CallResolve(r.value)
      else
        var r := op.onValue(value.value);
        if r.Threw? then CallReject(r.error)
        else if op.returnsVoid then CallResolve(Void)
        else CallResolve(r.value)
    else if op.void then
      if exception.Some? then CallReject(exception.value)
      else Become(Ended(op.returnsVoid, op.onValue(Void)))
    else
      if exception.Some? then CallReject(exception.value)
      else Become(Ended(op.returnsVoid, op.onValue(value.value)))
  }

  function ThenAwaited(op: Op, exception: Option<Error>, value: Option<Value>): Move
    requires op.Then? && (exception.Some? || value.Some?)
  {
    if op.async then
      var deliver := if op.returnsVoid then ResolveVoid else ResolveSame;
      if exception.Some? then FollowRejected(exception.value, deliver)
      else if op.void then Follow(Ended(op.returnsVoid, op.onValue(Void)), deliver)
      else Follow(Ended(op.returnsVoid, op.onValue(value.value)), deliver)
    else if exception.Some? then CallReject(exception.value)
    else
      var r := if op.void then op.onValue(Void) else op.onValue(value.value);
      match r
      case Threw(e) => CallReject(e)
      case Returned(v) => if op.returnsVoid then CallResolve(Void) else CallResolve(v)
  }

  // -- Catch

  /** An expression with its static type. */
  datatype Typed = Typed(kind: Type, value: Value)

  function CatchValue(op: Op, value: Value): Typed
    requires op.Catch?
  {
    if op.t.VoidType? then
      if op.t2.VoidType? then Typed(VoidType, Void) else Typed(Optional(op.t2), Absent)
    else Typed(op.t, value)
  }

  /** Calls a synchronous handler; a void handler of a non-void promise yields an empty
      optional. */
  function Invoke(op: Op, e: Error): Ran
    requires op.Catch?
  {
    var r := op.onError(e);
    if r.Threw? then r
    else if op.t2.VoidType? then
      if op.t.VoidType? then Returned(Void) else Returned(Absent)
    else r
  }

  function InvokeType(op: Op): Type
    requires op.Catch?
  {
    if op.t2.VoidType? then (if op.t.VoidType? then VoidType else Optional(op.t)) else op.t2
  }

  /** Rethrows the exception into the handler's catch clause; one that does not match
      escapes. */
  function CatchException(op: Op, e: Error): Ran
    requires op.Catch?
  {
    if op.any then Invoke(op, e)
    else if op.matches(e) then Invoke(op, e)
    else Threw(e)
  }

  function CatchResolve(op: Op, x: Typed): Move
    requires op.Catch?
  {
    if x.kind.VoidType? then CallResolve(Void)
    else CallResolve(Convert(x.value, x.kind, CatchReturn(op.t, op.t2)))
  }

  /** What the handler's promise is chained to. */
  function CatchWrapper(op: Op): Value -> Outcome
    requires op.Catch?
  {
    if op.t2.VoidType? then
      if op.t.VoidType? then ResolveVoid else ResolveNothing
    else ResolveConverted(op.t2, CatchReturn(op.t, op.t2))
  }

  function CatchDone(op: Op, exception: Option<Error>, value: Option<Value>): Move
    requires op.Catch? && (exception.Some? || value.Some?)
  {
    if exception.Some? then
      if op.async then
        if op.any || op.matches(exception.value)
        then Follow(Ended(op.t2.VoidType?, op.onError(exception.value)), CatchWrapper(op))
        else CallReject(exception.value)
      else
        var r := CatchException(op, exception.value);
        if r.Threw? then CallReject(r.error)
        else CatchResolve(op, Typed(InvokeType(op), r.value))
    else CatchResolve(op, CatchValue(op, if op.t.VoidType? then Void else value.value))
  }

  function CatchAwaited(op: Op, exception: Option<Error>, value: Option<Value>): Move
    requires op.Catch? && (exception.Some? || value.Some?)
  {
    match exception
    case Some(e) =>
      if op.async && !op.any && !op.matches(e) then CallReject(e)
      else if op.async then Follow(Ended(op.t2.VoidType?, op.onError(e)), CatchWrapper(op))
      else (match CatchException(op, e)
            case Threw(e') => CallReject(e')
            case Returned(v) => CatchResolve(op, Typed(InvokeType(op), v)))
    case None => CatchResolve(op, CatchValue(op, if op.t.VoidType? then Void else value.value))
  }

  // -- Finally

  function FinallyValue(op: Op, value: Value): Move
    requires op.Finally?
  {
    if op.async then
      if op.void then Follow(Ended(true, op.cleanup), ResolveVoid)
      else Follow(Ended(true, op.cleanup), Always(Resolved(value)))
    else if op.cleanup.Threw? then CallReject(op.cleanup.error)
    else if op.void then CallResolve(Void)
    else CallResolve(value)
  }

  function FinallyException(op: Op, e: Error): Move
    requires op.Finally?
  {
    if op.async then Follow(Ended(true, op.cleanup), Always(Rejected(e)))
    else if op.cleanup.Threw? then CallReject(op.cleanup.error)
    else CallReject(e)
  }

  function FinallyDone(op: Op, exception: Option<Error>, value: Option<Value>): Move
    requires op.Finally? && (exception.Some? || value.Some?)
  {
    if exception.Some? then FinallyException(op, exception.value)
    else if op.void then FinallyValue(op, Void)
    else FinallyValue(op, value.value)
  }

  function FinallyAwaited(op: Op, exception: Option<Error>, value: Option<Value>): Move
    requires op.Finally? && (exception.Some? || value.Some?)
  {
    match exception
    case Some(e) => FinallyException(op, e)
    case None => FinallyValue(op, if op.void then Void else value.value)
  }

  // ---------------------------------------------------------------- the two agree

  /** The branch for a source that is already settled. */
  function DoneMove(op: Op, exception: Option<Error>, value: Option<Value>): Move
    requires UserOp(op) && (exception.Some? || value.Some?)
  {
    match op
    case Then(_, _, _, _) => ThenDone(op, exception, value)
    case Catch(_, _, _, _, _, _) => CatchDone(op, exception, value)
    case _ => FinallyDone(op, exception, value)
  }

  /** The closure that is registered on a pending source. */
  function AwaitedMove(op: Op, exception: Option<Error>, value: Option<Value>): Move
    requires UserOp(op) && (exception.Some? || value.Some?)
  {
    match op
    case Then(_, _, _, _) => ThenAwaited(op, exception, value)
    case Catch(_, _, _, _, _, _) => CatchAwaited(op, exception, value)
    case _ => FinallyAwaited(op, exception, value)
  }

  /** The outcome the derived promise ends up with after a move. */
  function Meaning(m: Move): Outcome {
    match m
    case CallResolve(v) => Resolved(v)
    case CallReject(e) => Rejected(e)
    case Follow(end, deliver) => Adopted(deliver, end)
    case FollowRejected(e, _) => Rejected(e)
    case Become(end) => end
  }

  /** The source's outcome as the branches read it: the exception is looked at first. */
  function Source(exception: Option<Error>, value: Option<Value>): Outcome
    requires exception.Some? || value.Some?
  {
    if exception.Some? then Rejected(exception.value) else Resolved(value.value)
  }

  lemma ThenMeans(op: Op, exception: Option<Error>, value: Option<Value>)
    requires op.Then? && (exception.Some? || value.Some?)
    ensures Meaning(ThenDone(op, exception, value)) == Apply(op, Source(exception, value))
    ensures Meaning(ThenAwaited(op, exception, value)) == Apply(op, Source(exception, value))
  {
  }

  lemma CatchMeans(op: Op, exception: Option<Error>, value: Option<Value>)
    requires op.Catch? && (exception.Some? || value.Some?)
    ensures Meaning(CatchDone(op, exception, value)) == Apply(op, Source(exception, value))
    ensures Meaning(CatchAwaited(op, exception, value)) == Apply(op, Source(exception, value))
  {
    if exception.Some? {
      var r := op.onError(exception.value);
      CatchConversions(op.t, op.t2, if r.Returned? then r.value else Void);
      CatchConversions(op.t, op.t2, Absent);
    } else {
      CatchConversions(op.t, op.t2, value.value);
    }
  }

  lemma FinallyMeans(op: Op, exception: Option<Error>, value: Option<Value>)
    requires op.Finally? && (exception.Some? || value.Some?)
    ensures Meaning(FinallyDone(op, exception, value)) == Apply(op, Source(exception, value))
    ensures Meaning(FinallyAwaited(op, exception, value)) == Apply(op, Source(exception, value))
  {
  }

  /** For every operator, handler, type and settled source, both branches of the code give the
      derived promise the outcome of the semantics. */
  lemma BranchesAgree(op: Op, exception: Option<Error>, value: Option<Value>)
    requires UserOp(op) && (exception.Some? || value.Some?)
    ensures Meaning(DoneMove(op, exception, value)) == Apply(op, Source(exception, value))
    ensures Meaning(AwaitedMove(op, exception, value)) == Apply(op, Source(exception, value))
  {
    match op
    case Then(_, _, _, _) => ThenMeans(op, exception, value);
    case Catch(_, _, _, _, _, _) => CatchMeans(op, exception, value);
    case Finally(_, _, _) => FinallyMeans(op, exception, value);
  }

  /** Only the settled branch of Then hands its caller the handler's own promise; only an
      async handler is followed. */
  lemma MoveKinds(op: Op, exception: Option<Error>, value: Option<Value>)
    requires UserOp(op) && (exception.Some? || value.Some?)
    ensures DoneMove(op, exception, value).Become? ==> op.Then? && op.async
    ensures !AwaitedMove(op, exception, value).Become?
    ensures !op.async ==>
              var d, a := DoneMove(op, exception, value), AwaitedMove(op, exception, value);
              (d.CallResolve? || d.CallReject?) && (a.CallResolve? || a.CallReject?)
  {
  }
}
