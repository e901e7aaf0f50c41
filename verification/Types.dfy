/** The result types the library computes, and the conversions into them. */
module Types {
  import opened Values

  datatype Type = VoidType | Plain(name: nat) | Optional(of: Type) | Variant(alternatives: seq<Type>)

  predicate HasType(v: Value, t: Type)
    decreases t
  {
    match t
    case VoidType => v == Void
    case Plain(_) => v.Data?
    case Optional(of) => v == Absent || (v.Present? && HasType(v.inner, of))
    case Variant(ts) => v.Alternative? && v.tag < |ts| && HasType(v.inner, ts[v.tag])
  }

  function IndexOf(ts: seq<Type>, t: Type): (i: nat)
    requires t in ts
    ensures i < |ts| && ts[i] == t
  {
    if ts[0] == t then 0 else 1 + IndexOf(ts[1..], t)
  }

  /** The implicit conversion of a value of type `from` when a Resolve handle of type `to` is
      called with it: into an optional, into the alternative of its own type, or none. */
  function Convert(v: Value, from: Type, to: Type): Value
    decreases to
  {
    if from == to then v
    else match to
      case Optional(of) => Present(Convert(v, from, of))
      case Variant(ts) => if from in ts then Alternative(IndexOf(ts, from), v) else v
      case _ => v
  }

  // ---------------------------------------------------------------- Catch

  /** CatchReturn2: `t` is the promise's type, `t2` the handler's. */
  function CatchReturn(t: Type, t2: Type): Type {
    if t2.VoidType? && t.VoidType? then VoidType
    else if t2.VoidType? then Optional(t)
    else if t.VoidType? then Optional(t2)
    else if t == t2 then t2
    else Variant([t2, t])
  }

  /** The result that stands for a handler that returned `v`: a void handler recovers to
      nothing, otherwise `v` is marked as the handler's unless both types are the same. */
  function Recovered(t: Type, t2: Type, v: Value): Value {
    if t2.VoidType? then (if t.VoidType? then Void else Absent)
    else if t.VoidType? then Present(v)
    else if t == t2 then v
    else Alternative(0, v)
  }

  /** The result that stands for a promise that resolved with `v`. */
  function PassedThrough(t: Type, t2: Type, v: Value): Value {
    if t.VoidType? then (if t2.VoidType? then Void else Absent)
    else if t2.VoidType? then Present(v)
    else if t == t2 then v
    else Alternative(1, v)
  }

  lemma CatchTyped(t: Type, t2: Type, v: Value)
    ensures HasType(v, t2) ==> HasType(Recovered(t, t2, v), CatchReturn(t, t2))
    ensures HasType(v, t) ==> HasType(PassedThrough(t, t2, v), CatchReturn(t, t2))
  {
    var both := [t2, t];
    assert both[0] == t2 && both[1] == t;
  }

  /** A Catch result shows its value, and shows whether it was recovered or passed through
      exactly when the two types differ. */
  lemma CatchSeparates(t: Type, t2: Type)
    ensures forall v, v' | HasType(v, t2) && HasType(v', t2) ::
              Recovered(t, t2, v) == Recovered(t, t2, v') ==> v == v'
    ensures forall v, v' | HasType(v, t) && HasType(v', t) ::
              PassedThrough(t, t2, v) == PassedThrough(t, t2, v') ==> v == v'
    ensures t != t2 ==>
              forall v, v' | HasType(v, t2) && HasType(v', t) :: Recovered(t, t2, v) != PassedThrough(t, t2, v')
    ensures t == t2 ==> forall v | HasType(v, t) :: Recovered(t, t2, v) == PassedThrough(t, t2, v)
  {
  }

  /** What the library passes to the Resolve handle converts to the values above. */
  lemma CatchConversions(t: Type, t2: Type, v: Value)
    ensures !t.VoidType? ==> Convert(v, t, CatchReturn(t, t2)) == PassedThrough(t, t2, v)
    ensures !t2.VoidType? ==> Convert(v, t2, CatchReturn(t, t2)) == Recovered(t, t2, v)
    ensures t.VoidType? && !t2.VoidType? ==>
              Convert(Absent, Optional(t2), CatchReturn(t, t2)) == PassedThrough(t, t2, v)
    ensures t2.VoidType? && !t.VoidType? ==>
              Convert(Absent, Optional(t), CatchReturn(t, t2)) == Recovered(t, t2, v)
  {
    var both := [t2, t];
    assert both[0] == t2 && both[1] == t && both[1..] == [t];
    assert t in both && t2 in both;
    assert Convert(v, t, t) == v && Convert(v, t2, t2) == v;
    NotOptional(t);
    NotOptional(t2);
    if !t.VoidType? && !t2.VoidType? && t != t2 {
      NotWithin(t, both);
      NotWithin(t2, both);
      assert IndexOf(both, t2) == 0;
      assert IndexOf(both, t) == 1 + IndexOf(both[1..], t);
    }
  }

  lemma {:induction false} NotOptional(t: Type)
    ensures t != Optional(t)
  {
    if t.Optional? {
      NotOptional(t.of);
    }
  }

  lemma NotWithin(t: Type, ts: seq<Type>)
    requires t in ts
    ensures t != Variant(ts)
  {
    var i :| 0 <= i < |ts| && ts[i] == t;
  }
}
