/** The result type of Race, and what the results of Race and Catch tell in a network. */
module Encodings {
  import opened Values
  import opened Types
  import opened Operators
  import opened Graph
  import opened GraphRuns
  import opened GraphProgress

  // ---------------------------------------------------------------- unique_variant

  function AddIfMissing(alternatives: seq<Type>, t: Type): seq<Type> {
    if t in alternatives || t.VoidType? then alternatives else alternatives + [t]
  }

  /** UniqueVariantHelper: `alternatives` is the variant built so far. */
  function UniqueOnto(alternatives: seq<Type>, ts: seq<Type>): seq<Type>
    decreases |ts|
  {
    if ts == [] then alternatives else UniqueOnto(AddIfMissing(alternatives, ts[0]), ts[1..])
  }

  function UniqueVariant(ts: seq<Type>): seq<Type> {
    UniqueOnto([], ts)
  }

  /** `k` is the first place where its type occurs, and that type is not void. */
  ghost predicate FirstAt(ts: seq<Type>, k: nat) {
    k < |ts| && !ts[k].VoidType? && ts[k] !in ts[..k]
  }

  /** The types at the first places, in the order of the places. */
  ghost function Firsts(ts: seq<Type>, upTo: nat): seq<Type>
    requires upTo <= |ts|
  {
    if upTo == 0 then []
    else Firsts(ts, upTo - 1) + (if FirstAt(ts, upTo - 1) then [ts[upTo - 1]] else [])
  }

  lemma {:induction false} FirstsMembers(ts: seq<Type>, upTo: nat)
    requires upTo <= |ts|
    ensures forall t | t in Firsts(ts, upTo) :: t in ts[..upTo] && !t.VoidType?
    ensures forall t | t in ts[..upTo] && !t.VoidType? :: t in Firsts(ts, upTo)
  {
    if upTo > 0 {
      FirstsMembers(ts, upTo - 1);
      assert ts[..upTo] == ts[..upTo - 1] + [ts[upTo - 1]];
    }
  }

  lemma {:induction false} UniqueOntoIsFirsts(ts: seq<Type>, upTo: nat)
    requires upTo <= |ts|
    ensures UniqueOnto(Firsts(ts, upTo), ts[upTo..]) == Firsts(ts, |ts|)
    decreases |ts| - upTo
  {
    if upTo < |ts| {
      FirstsMembers(ts, upTo);
      assert ts[upTo..][0] == ts[upTo] && ts[upTo..][1..] == ts[upTo + 1..];
      assert AddIfMissing(Firsts(ts, upTo), ts[upTo]) == Firsts(ts, upTo + 1);
      UniqueOntoIsFirsts(ts, upTo + 1);
    }
  }

  ghost predicate Distinct(ts: seq<Type>) {
    forall i, j :: 0 <= i < j < |ts| ==> ts[i] != ts[j]
  }

  lemma {:induction false} FirstsDistinct(ts: seq<Type>, upTo: nat)
    requires upTo <= |ts|
    ensures Distinct(Firsts(ts, upTo))
  {
    if upTo > 0 {
      FirstsDistinct(ts, upTo - 1);
      FirstsMembers(ts, upTo - 1);
      var before, u := Firsts(ts, upTo - 1), Firsts(ts, upTo);
      forall i, j | 0 <= i < j < |u| ensures u[i] != u[j] {
        assert before[i] in before && u[i] == before[i];
        if j >= |before| {
          assert FirstAt(ts, upTo - 1) && u[j] == ts[upTo - 1];
          assert u[i] in ts[..upTo - 1];
        }
      }
    }
  }

  /** unique_variant holds exactly the non-void input types, each once, in the order of their
      first occurrences. */
  lemma UniqueVariantIsFirsts(ts: seq<Type>)
    ensures UniqueVariant(ts) == Firsts(ts, |ts|)
    ensures forall t :: t in UniqueVariant(ts) <==> t in ts && !t.VoidType?
    ensures Distinct(UniqueVariant(ts))
  {
    assert ts[0..] == ts && ts[..|ts|] == ts;
    UniqueOntoIsFirsts(ts, 0);
    FirstsMembers(ts, |ts|);
    FirstsDistinct(ts, |ts|);
  }

  // ---------------------------------------------------------------- Race

  function RaceReturn(ts: seq<Type>): Type {
    if forall t | t in ts :: t.VoidType? then VoidType
    else
      var u := UniqueVariant(ts);
      var packed := if |u| == 1 then u[0] else Variant(u);
      if VoidType in ts then Optional(packed) else packed
  }

  /** What Race resolves with when a participant of type `from` wins with `v`: the order of
      the tests in Race's handler, and the conversion by the Resolve handle it calls. */
  function RaceInject(ts: seq<Type>, from: Type, v: Value): Value
    requires from in ts
  {
    if RaceReturn(ts).VoidType? then Void
    else if from.VoidType? then Absent
    else Convert(v, from, RaceReturn(ts))
  }

  /** The conversion marks a non-void value with its type unless there is only one, and with
      its presence if another participant is void. */
  lemma ConvertPacks(ts: seq<Type>, from: Type, v: Value)
    requires from in ts && !from.VoidType?
    ensures from in UniqueVariant(ts) && UniqueVariant(ts) != []
    ensures var u := UniqueVariant(ts);
            var packed := if |u| == 1 then v else Alternative(IndexOf(u, from), v);
            Convert(v, from, RaceReturn(ts)) == if VoidType in ts then Present(packed) else packed
  {
    UniqueVariantIsFirsts(ts);
    var u := UniqueVariant(ts);
    assert from in u;
    NotOptional(from);
    NotWithin(from, u);
    NotDeeper(from, u);
    assert Convert(v, from, from) == v;
    if |u| == 1 {
      assert u[0] == from;
    }
  }

  lemma NotDeeper(t: Type, ts: seq<Type>)
    requires t in ts
    ensures t != Optional(Variant(ts))
  {
    var i :| 0 <= i < |ts| && ts[i] == t;
  }

  lemma RaceReturnVoid(ts: seq<Type>)
    ensures RaceReturn(ts).VoidType? <==> forall t | t in ts :: t.VoidType?
  {
    UniqueVariantIsFirsts(ts);
    if t :| t in ts && !t.VoidType? {
      assert t in UniqueVariant(ts);
      assert forall i :: 0 <= i < |UniqueVariant(ts)| ==> UniqueVariant(ts)[i] in UniqueVariant(ts);
    }
  }

  /** The race's type can hold the value of every participant. */
  lemma RaceInjectTyped(ts: seq<Type>, from: Type, v: Value)
    requires from in ts && HasType(v, from)
    ensures HasType(RaceInject(ts, from, v), RaceReturn(ts))
  {
    RaceReturnVoid(ts);
    UniqueVariantIsFirsts(ts);
    if !from.VoidType? {
      ConvertPacks(ts, from, v);
    }
  }

  /** Nothing is lost but the position of the winner among participants of its type. */
  lemma RaceInjectTells(ts: seq<Type>, from: Type, v: Value, from': Type, v': Value)
    requires from in ts && HasType(v, from) && from' in ts && HasType(v', from')
    requires RaceInject(ts, from, v) == RaceInject(ts, from', v')
    ensures from == from' && v == v'
  {
    RaceReturnVoid(ts);
    UniqueVariantIsFirsts(ts);
    if !RaceReturn(ts).VoidType? && !from.VoidType? && !from'.VoidType? {
      ConvertPacks(ts, from, v);
      ConvertPacks(ts, from', v');
    } else if !RaceReturn(ts).VoidType? && !from.VoidType? {
      ConvertPacks(ts, from, v);
    } else if !RaceReturn(ts).VoidType? && !from'.VoidType? {
      ConvertPacks(ts, from', v');
    }
  }

  // ---------------------------------------------------------------- in the network

  function InjectOf(ts: seq<Type>, from: Type): Value -> Value
    requires from in ts
  {
    v => RaceInject(ts, from, v)
  }

  ghost predicate OutcomeTyped(o: Outcome, t: Type) {
    o.Resolved? ==> HasType(o.value, t)
  }

  /** In every run: if the two types differ, the value a Catch promise resolved with shows
      whether its source had resolved or the handler recovered. */
  lemma CatchResultTells(s: Sys, c: nat)
    requires Reachable(s) && DoneAt(s.net, c) && c < |s.net.defs| && s.net.defs[c].Derived? && s.net.defs[c].op.Catch?
    requires var op := s.net.defs[c].op; op.t != op.t2 && forall e :: OutcomeTyped(Ended(false, op.onError(e)), op.t2)
    requires DoneAt(s.net, s.net.defs[c].src) ==> OutcomeTyped(OutAt(s.net, s.net.defs[c].src), s.net.defs[c].op.t)
    ensures DoneAt(s.net, s.net.defs[c].src)
    ensures var op := s.net.defs[c].op;
            OutAt(s.net, c).Resolved? ==>
              (OutAt(s.net, s.net.defs[c].src).Resolved?
               <==> exists v :: HasType(v, op.t) && OutAt(s.net, c).value == PassedThrough(op.t, op.t2, v))
  {
    assert NodeOk(s.net, c);
    var o, op := OutAt(s.net, s.net.defs[c].src), s.net.defs[c].op;
    CatchSeparates(op.t, op.t2);
    if o.Rejected? && OutAt(s.net, c).Resolved? {
      assert OutcomeTyped(Ended(false, op.onError(o.error)), op.t2);
    }
  }

  /** In every run: the value a race resolved with shows the type and the value of the
      participant that decided it; only participants of one type that resolved with the same
      value can not be told apart. */
  lemma RaceResultTells(s: Sys, layer: nat, ts: seq<Type>, j: nat, k: nat)
    requires Reachable(s) && DoneAt(s.net, layer) && layer < |s.net.defs| && s.net.defs[layer].Contest?
    requires |ts| == |s.net.defs[layer].entries| && j < |ts| && k < |ts| && OutAt(s.net, layer).Resolved?
    requires forall q :: 0 <= q < |ts| ==> s.net.defs[layer].entries[q].inject == InjectOf(ts, ts[q])
    requires forall q :: 0 <= q < |ts| && DoneAt(s.net, s.net.defs[layer].entries[q].input) ==>
               OutcomeTyped(OutAt(s.net, s.net.defs[layer].entries[q].input), ts[q])
    requires Scored(s.net, s.net.defs[layer].entries[j], OutAt(s.net, layer))
    requires Scored(s.net, s.net.defs[layer].entries[k], OutAt(s.net, layer))
    ensures ts[j] == ts[k]
    ensures OutAt(s.net, s.net.defs[layer].entries[j].input) == OutAt(s.net, s.net.defs[layer].entries[k].input)
    ensures HasType(OutAt(s.net, layer).value, RaceReturn(ts))
  {
    var o, o' := OutAt(s.net, s.net.defs[layer].entries[j].input), OutAt(s.net, s.net.defs[layer].entries[k].input);
    RaceInjectTells(ts, ts[j], o.value, ts[k], o'.value);
    RaceInjectTyped(ts, ts[j], o.value);
  }
}
