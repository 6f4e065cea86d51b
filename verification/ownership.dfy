/** A program's handles seen together: a store of handle slots, the ledger of
    releases, and every resource ever handed to a handle. Any sequence of
    constructions, moves and teardowns whose debug assertions hold keeps each
    acquired resource either owned by exactly one handle or released exactly
    once; destroying every handle then releases each of them exactly once. */
module Ownership {
  import opened Wrappers
  import opened Native
  import CH = ClientHandle

  datatype Store = Store(slots: seq<CH.Handle>, ledger: CH.Ledger, acquired: set<Resource>)

  const Initial: Store := Store([], [], {})

  /** The operations a program performs on its handles. */
  datatype Op =
    | Adopt(client: ClientId, format: FormatBlock)   // the two-pointer constructor
    | MoveConstruct(src: nat)                        // a new handle moved out of slot src
    | MoveAssign(dst: nat, src: nat)                 // slot dst = move(slot src)
    | Uninitialise(slot: nat)                        // explicit teardown, or the destructor

  /** Number of slots that own `r`. */
  function Holders(slots: seq<CH.Handle>, r: Resource): nat
  {
    if |slots| == 0 then 0
    else Holders(slots[..|slots| - 1], r) + CH.Mark(slots[|slots| - 1], r)
  }

  predicate AllPaired(slots: seq<CH.Handle>)
  {
    forall i :: 0 <= i < |slots| ==> CH.Paired(slots[i])
  }

  /** The ownership invariant: every handle is paired, and each acquired
      resource is held by one handle or released once (never both, never
      twice); nothing else is held or released. */
  ghost predicate Accounted(s: Store)
  {
    && AllPaired(s.slots)
    && forall r :: Holders(s.slots, r) + CH.Released(s.ledger, r) == if r in s.acquired then 1 else 0
  }

  /** When an operation may run: slot indices exist, a constructor receives
      resources no handle has had before, a move's source is live (the asserts
      of the move operations), a move assignment is not a self-assignment
      (unguarded by the operation itself), and a handle being released is
      paired (the asserts of `Uninitialise`). */
  predicate Enabled(s: Store, op: Op)
  {
    match op
    case Adopt(c, f) => ClientRes(c) !in s.acquired && FormatRes(f.id) !in s.acquired
    case MoveConstruct(src) => src < |s.slots| && CH.Live(s.slots[src])
    case MoveAssign(dst, src) =>
      dst < |s.slots| && src < |s.slots| && dst != src
      && CH.Live(s.slots[src]) && CH.Paired(s.slots[dst])
    case Uninitialise(i) => i < |s.slots| && CH.Paired(s.slots[i])
  }

  /** Whether `op` changes the handle in slot i. */
  predicate Touches(op: Op, i: nat)
  {
    match op
    case Adopt(_, _) => false
    case MoveConstruct(src) => i == src
    case MoveAssign(dst, src) => i == dst || i == src
    case Uninitialise(j) => i == j
  }

  /** Performs one operation: only the slots it names change, a move's source
      and a torn-down slot end up null, releases are only ever appended, and
      only a construction acquires resources. */
  function Apply(s: Store, op: Op): (r: Store)
    requires Enabled(s, op)
    ensures |r.slots| == |s.slots| + (if op.Adopt? || op.MoveConstruct? then 1 else 0)
    ensures forall i :: 0 <= i < |s.slots| && !Touches(op, i) ==> r.slots[i] == s.slots[i]
    ensures op.MoveConstruct? || op.MoveAssign? ==> r.slots[op.src] == CH.Null
    ensures op.MoveAssign? ==> r.slots[op.dst] == s.slots[op.src]
    ensures op.MoveConstruct? ==> r.slots[|s.slots|] == s.slots[op.src]
    ensures op.Uninitialise? ==> r.slots[op.slot] == CH.Null
    ensures s.ledger <= r.ledger
    ensures !op.Adopt? ==> r.acquired == s.acquired
    ensures op.Adopt? ==> r.acquired == s.acquired + {ClientRes(op.client), FormatRes(op.format.id)}
  {
    match op
    case Adopt(c, f) =>
      Store(s.slots + [CH.Construct(c, f)], s.ledger, s.acquired + {ClientRes(c), FormatRes(f.id)})
    case MoveConstruct(src) =>
      var (d, o) := CH.MoveConstruct(s.slots[src]);
      Store(s.slots[src := o] + [d], s.ledger, s.acquired)
    case MoveAssign(dst, src) =>
      var (d, o, l) := CH.MoveAssign(s.slots[dst], s.slots[src], s.ledger);
      Store(s.slots[dst := d][src := o], l, s.acquired)
    case Uninitialise(i) =>
      var (h, l) := CH.Uninitialise(s.slots[i], s.ledger);
      Store(s.slots[i := h], l, s.acquired)
  }

  /** Runs a program; `None` when some operation would break an assertion or a
      precondition of the handle. */
  function Run(s: Store, ops: seq<Op>): Option<Store>
    decreases |ops|
  {
    if |ops| == 0 then Some(s)
    else if Enabled(s, ops[0]) then Run(Apply(s, ops[0]), ops[1..])
    else None
  }

  /** Runs the destructors of slots 0 .. n-1. */
  function Teardown(s: Store, n: nat): (r: Store)
    requires n <= |s.slots| && AllPaired(s.slots)
    ensures |r.slots| == |s.slots| && AllPaired(r.slots) && r.acquired == s.acquired
    ensures forall j :: 0 <= j < n ==> r.slots[j] == CH.Null
    ensures forall j :: n <= j < |s.slots| ==> r.slots[j] == s.slots[j]
  {
    if n == 0 then s
    else
      var t := Teardown(s, n - 1);
      Apply(t, Uninitialise(n - 1))
  }

  lemma {:induction false} HoldersAppend(slots: seq<CH.Handle>, h: CH.Handle, r: Resource)
    ensures Holders(slots + [h], r) == Holders(slots, r) + CH.Mark(h, r)
  {
    assert (slots + [h])[..|slots|] == slots;
  }

  lemma {:induction false} HoldersUpdate(slots: seq<CH.Handle>, i: nat, h: CH.Handle, r: Resource)
    requires i < |slots|
    ensures Holders(slots[i := h], r) + CH.Mark(slots[i], r) == Holders(slots, r) + CH.Mark(h, r)
  {
    var n := |slots| - 1;
    if i == n {
      assert slots[i := h][..n] == slots[..n];
    } else {
      assert slots[i := h][..n] == slots[..n][i := h];
      HoldersUpdate(slots[..n], i, h, r);
    }
  }

  lemma {:induction false} HoldersOfNullSlots(slots: seq<CH.Handle>, r: Resource)
    requires forall j :: 0 <= j < |slots| ==> slots[j] == CH.Null
    ensures Holders(slots, r) == 0
  {
    if |slots| > 0 {
      HoldersOfNullSlots(slots[..|slots| - 1], r);
    }
  }

  /** Every enabled operation keeps the ownership invariant. */
  lemma {:induction false} ApplyPreservesAccounting(s: Store, op: Op)
    requires Accounted(s) && Enabled(s, op)
    ensures Accounted(Apply(s, op))
  {
    var s' := Apply(s, op);
    match op
    case Adopt(c, f) =>
      var h := CH.Construct(c, f);
      forall r ensures Holders(s'.slots, r) + CH.Released(s'.ledger, r) == if r in s'.acquired then 1 else 0 {
        HoldersAppend(s.slots, h, r);
      }
    case MoveConstruct(src) =>
      var moved := s.slots[src];
      forall r ensures Holders(s'.slots, r) + CH.Released(s'.ledger, r) == if r in s'.acquired then 1 else 0 {
        HoldersUpdate(s.slots, src, CH.Null, r);
        HoldersAppend(s.slots[src := CH.Null], moved, r);
      }
    case MoveAssign(dst, src) =>
      var d := s.slots[dst];
      var o := s.slots[src];
      var mid := s.slots[dst := o];
      assert mid[src] == o;
      forall r ensures Holders(s'.slots, r) + CH.Released(s'.ledger, r) == if r in s'.acquired then 1 else 0 {
        HoldersUpdate(s.slots, dst, o, r);
        HoldersUpdate(mid, src, CH.Null, r);
      }
    case Uninitialise(i) =>
      forall r ensures Holders(s'.slots, r) + CH.Released(s'.ledger, r) == if r in s'.acquired then 1 else 0 {
        HoldersUpdate(s.slots, i, CH.Null, r);
      }
  }

  /** A program that runs to the end keeps the ownership invariant. */
  lemma {:induction false} RunPreservesAccounting(s: Store, ops: seq<Op>)
    requires Accounted(s)
    ensures Run(s, ops).Some? ==> Accounted(Run(s, ops).value)
    decreases |ops|
  {
    if |ops| > 0 && Enabled(s, ops[0]) {
      ApplyPreservesAccounting(s, ops[0]);
      RunPreservesAccounting(Apply(s, ops[0]), ops[1..]);
    }
  }

  /** Tearing down the first n slots keeps the ownership invariant. */
  lemma {:induction false} TeardownPreservesAccounting(s: Store, n: nat)
    requires Accounted(s) && n <= |s.slots|
    ensures Accounted(Teardown(s, n))
  {
    if n > 0 {
      TeardownPreservesAccounting(s, n - 1);
      var t := Teardown(s, n - 1);
      assert Enabled(t, Uninitialise(n - 1));
      ApplyPreservesAccounting(t, Uninitialise(n - 1));
      assert Teardown(s, n) == Apply(t, Uninitialise(n - 1));
    }
  }

  /** No resource is ever released twice. */
  lemma NeverReleasedTwice(s: Store, ops: seq<Op>, r: Resource)
    requires Run(Initial, ops) == Some(s)
    ensures CH.Released(s.ledger, r) <= 1
    ensures CH.Released(s.ledger, r) == 1 ==> r in s.acquired && Holders(s.slots, r) == 0
  {
    RunPreservesAccounting(Initial, ops);
  }

  /** The whole lifecycle: after any program whose assertions hold, running
      every handle's destructor releases each resource ever acquired exactly
      once, and releases nothing else. */
  lemma ExactlyOnceRelease(ops: seq<Op>, s: Store)
    requires Run(Initial, ops) == Some(s)
    ensures AllPaired(s.slots)
    ensures forall r :: CH.Released(Teardown(s, |s.slots|).ledger, r) == if r in s.acquired then 1 else 0
  {
    RunPreservesAccounting(Initial, ops);
    TeardownPreservesAccounting(s, |s.slots|);
    var e := Teardown(s, |s.slots|);
    forall r ensures CH.Released(e.ledger, r) == if r in s.acquired then 1 else 0 {
      HoldersOfNullSlots(e.slots, r);
    }
  }
}
