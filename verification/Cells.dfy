/** One promise cell: the fields of Resolver, Handle and Promise, and the atomic
    transitions the code performs on them. Every function below is one `exchange` or one
    locked section; the payload `K` is whatever an awaiter resumes. */
module Cells {
  import opened Values

  /** An entry of `awaiters_`. `id` is `use_count_` right after the registration; the code
      stores it for callbacks only, coroutine entries carry it here as a serial number. */
  datatype Awaiter<K> = Coroutine(k: K, id: nat) | Callback(k: K, id: nat)

  datatype Cell<K> = Cell(
    claimed: bool,              // resolved_
    value: Option<Value>,       // value_ or value_is_set_
    exception: Option<Error>,   // exception_
    running: bool,              // handle_ != nullptr
    awaiters: seq<Awaiter<K>>,  // awaiters_
    useCount: nat,              // use_count_
    selfOwned: bool)            // self_owned_ != nullptr

  /** A locked section that may drain: the new cell, the awaiters it took for dispatch and
      whether it signalled the condition variable. */
  datatype Locked<K> = Locked(cell: Cell<K>, taken: seq<Awaiter<K>>, notified: bool)

  function Fresh<K>(running: bool): Cell<K> {
    Cell(false, None, None, running, [], 0, false)
  }

  predicate IsDone<K>(c: Cell<K>) {
    c.value.Some? || c.exception.Some?
  }

  /** Settled and past final_suspend: the state in which awaiters have been dispatched. */
  predicate Drained<K>(c: Cell<K>) {
    IsDone(c) && !c.running
  }

  /** What await_resume delivers: the exception is looked at first. */
  function Out<K>(c: Cell<K>): Outcome
    requires IsDone(c)
  {
    if c.exception.Some? then Rejected(c.exception.value) else Resolved(c.value.value)
  }

  function Claim<K>(c: Cell<K>): Cell<K> {
    c.(claimed := true)
  }

  function OnResolved<K>(c: Cell<K>): Locked<K> {
    if c.running then Locked(c, [], false)
    else Locked(c.(awaiters := [], selfOwned := false), c.awaiters, true)
  }

  /** The locked section of Resolver::Resolve and Resolver::Reject. */
  function StoreOutcome<K>(c: Cell<K>, o: Outcome): Locked<K> {
    match o
    case Resolved(v) => OnResolved(c.(value := Some(v)))
    case Rejected(e) => OnResolved(c.(exception := Some(e)))
  }

  /** The scope exit of final_suspend. */
  function FinalSuspend<K>(c: Cell<K>): Locked<K> {
    var c' := c.(running := false);
    if IsDone(c') then OnResolved(c') else Locked(c', [], true)
  }

  function AwaitCoroutine<K>(c: Cell<K>, k: K): Cell<K> {
    c.(useCount := c.useCount + 1, awaiters := c.awaiters + [Coroutine(k, c.useCount + 1)])
  }

  function AwaitCallback<K>(c: Cell<K>, k: K): Cell<K> {
    c.(useCount := c.useCount + 1, awaiters := c.awaiters + [Callback(k, c.useCount + 1)])
  }

  /** `awaiters` without its first callback registered under `id`. */
  function Without<K>(awaiters: seq<Awaiter<K>>, id: nat): seq<Awaiter<K>> {
    if awaiters == [] then []
    else if awaiters[0].Callback? && awaiters[0].id == id then awaiters[1..]
    else [awaiters[0]] + Without(awaiters[1..], id)
  }

  function UnAwait<K>(c: Cell<K>, id: nat): Cell<K> {
    c.(awaiters := Without(c.awaiters, id))
  }

  /** Race on an already settled race promise only counts a use. */
  function CountUse<K>(c: Cell<K>): Cell<K> {
    c.(useCount := c.useCount + 1)
  }

  function Detach<K>(c: Cell<K>): Cell<K> {
    if IsDone(c) then c else c.(selfOwned := true)
  }

  /** Ids grow along the list and none exceeds the use counter. */
  ghost predicate Ordered<K>(awaiters: seq<Awaiter<K>>, bound: nat) {
    && (forall i, j :: 0 <= i < j < |awaiters| ==> awaiters[i].id < awaiters[j].id)
    && (forall i :: 0 <= i < |awaiters| ==> awaiters[i].id <= bound)
  }

  ghost predicate HasCallback<K>(awaiters: seq<Awaiter<K>>, id: nat) {
    exists i :: 0 <= i < |awaiters| && awaiters[i].Callback? && awaiters[i].id == id
  }

  predicate Registered<K>(a: Awaiter<K>, id: nat) {
    a.Callback? && a.id == id
  }

  /** Where Without cuts; the length if it cuts nothing. */
  lemma {:induction false} CutAt<K>(awaiters: seq<Awaiter<K>>, id: nat) returns (i: nat)
    ensures i <= |awaiters|
    ensures i < |awaiters| ==>
              Registered(awaiters[i], id) && Without(awaiters, id) == awaiters[..i] + awaiters[i + 1..]
    ensures i == |awaiters| ==>
              Without(awaiters, id) == awaiters && forall j :: 0 <= j < i ==> !Registered(awaiters[j], id)
  {
    if awaiters == [] {
      i := 0;
    } else if Registered(awaiters[0], id) {
      i := 0;
      assert Without(awaiters, id) == awaiters[..0] + awaiters[1..];
    } else {
      var tail := awaiters[1..];
      var j := CutAt(tail, id);
      i := j + 1;
      assert Without(awaiters, id) == [awaiters[0]] + Without(tail, id);
      if j < |tail| {
        CutShift(awaiters, j);
      } else {
        assert awaiters == [awaiters[0]] + tail;
        forall q | 0 <= q < i ensures !Registered(awaiters[q], id) {
          assert q > 0 ==> awaiters[q] == tail[q - 1];
        }
      }
    }
  }

  lemma CutShift<T>(s: seq<T>, j: nat)
    requires j + 1 < |s|
    ensures s[1..][j] == s[j + 1]
    ensures [s[0]] + (s[1..][..j] + s[1..][j + 1..]) == s[..j + 1] + s[j + 2..]
  {
  }

  /** Un-registration removes exactly the named callback and keeps the order of the rest. */
  lemma WithoutSplits<K>(awaiters: seq<Awaiter<K>>, id: nat)
    ensures !HasCallback(awaiters, id) ==> Without(awaiters, id) == awaiters
    ensures HasCallback(awaiters, id) ==>
              exists i :: 0 <= i < |awaiters| && awaiters[i].Callback? && awaiters[i].id == id
                          && Without(awaiters, id) == awaiters[..i] + awaiters[i + 1..]
  {
    var i := CutAt(awaiters, id);
    if HasCallback(awaiters, id) {
      var j :| 0 <= j < |awaiters| && awaiters[j].Callback? && awaiters[j].id == id;
      assert Registered(awaiters[j], id);
    }
  }

  /** Nothing is added, and nothing but the named callback is dropped. */
  lemma {:induction false} WithoutMembers<K>(awaiters: seq<Awaiter<K>>, id: nat)
    ensures forall a | a in Without(awaiters, id) :: a in awaiters
    ensures forall a | a in awaiters && !(a.Callback? && a.id == id) :: a in Without(awaiters, id)
    ensures |Without(awaiters, id)| <= |awaiters|
  {
    if awaiters != [] {
      assert awaiters == [awaiters[0]] + awaiters[1..];
      WithoutMembers(awaiters[1..], id);
    }
  }

  /** With increasing ids the named callback is gone and the order is kept. */
  lemma {:induction false} WithoutOrdered<K>(awaiters: seq<Awaiter<K>>, id: nat, bound: nat)
    requires Ordered(awaiters, bound)
    ensures Ordered(Without(awaiters, id), bound)
    ensures forall a | a in Without(awaiters, id) :: !(a.Callback? && a.id == id)
  {
    WithoutSplits(awaiters, id);
    var w := Without(awaiters, id);
    if HasCallback(awaiters, id) {
      var i :| 0 <= i < |awaiters| && awaiters[i].Callback? && awaiters[i].id == id
               && w == awaiters[..i] + awaiters[i + 1..];
      DropOrdered(awaiters, i, bound);
    } else {
      forall a | a in w ensures !(a.Callback? && a.id == id) {
        var j :| 0 <= j < |awaiters| && awaiters[j] == a;
      }
    }
  }

  lemma DropOrdered<K>(s: seq<Awaiter<K>>, i: nat, bound: nat)
    requires i < |s| && Ordered(s, bound)
    ensures Ordered(s[..i] + s[i + 1..], bound)
    ensures forall a | a in s[..i] + s[i + 1..] :: a.id != s[i].id
  {
    var w := s[..i] + s[i + 1..];
    forall p, q | 0 <= p < q < |w| ensures w[p].id < w[q].id {
      var p', q' := if p < i then p else p + 1, if q < i then q else q + 1;
      assert w[p] == s[p'] && w[q] == s[q'];
    }
    forall p | 0 <= p < |w| ensures w[p].id <= bound && w[p].id != s[i].id {
      var p' := if p < i then p else p + 1;
      assert w[p] == s[p'];
    }
  }
}
