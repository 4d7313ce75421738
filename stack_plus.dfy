/** StackPlus (lib/stack_plus.rb): a stack of integers whose `increment(n)`
    adds 1 to the bottom n elements in constant time. Each slot of `@data`
    is a pair [value, inc]; an increment only bumps the inc of the topmost
    slot it covers, and a pop hands the popped slot's inc down to the new
    top. The slot at position i (bottom first) therefore stands for its
    value plus the incs of itself and of every slot above it. */
module LazyStack {
  import opened RubyArray
  import EagerStack

  /** One element `[value, inc]` of `@data`. */
  datatype Slot = Slot(value: int, inc: int)

  /** The sum of the incs of `s`. */
  function SumInc(s: seq<Slot>): int
    decreases |s|
  {
    if s == [] then 0 else s[0].inc + SumInc(s[1..])
  }

  /** The abstract view of `@data`, bottom first: each slot is worth its
      value plus the pending incs of itself and of all the slots above it. */
  function Effective(d: seq<Slot>): (e: seq<int>)
    ensures |e| == |d|
    decreases |d|
  {
    if d == [] then [] else [d[0].value + SumInc(d)] + Effective(d[1..])
  }

  /** Slot i's effective value: `value[i]` plus the sum of `inc[j]` for j >= i. */
  lemma {:induction false} EffectiveAt(d: seq<Slot>, i: nat)
    requires i < |d|
    ensures Effective(d)[i] == d[i].value + SumInc(d[i..])
    decreases |d|
  {
    if i > 0 {
      EffectiveAt(d[1..], i - 1);
      assert d[1..][i - 1..] == d[i..];
    }
  }

  /** `d[k][1] += x`; the full effect on the slots is in IncrementTouchesOneSlot
      and PopTouchesOneSlot. */
  function Bump(d: seq<Slot>, k: nat, x: int): (r: seq<Slot>)
    requires k < |d|
    ensures |r| == |d| && r[k] == Slot(d[k].value, d[k].inc + x)
  {
    d[k := Slot(d[k].value, d[k].inc + x)]
  }

  /** The slot that `increment(n)` marks on `@data` of `size` slots
      (`i = [n, data.size].min - 1`, then `data[i]`), None when `data[i]` is nil. */
  function IncrementTarget(n: int, size: nat): (r: Option<nat>)
    ensures size == 0 ==> r == None
    ensures n >= 1 && size >= 1 ==> r == Some(Min(n, size) - 1)
    ensures n <= 0 ==> (r.Some? <==> 1 - size <= n)
    ensures n <= 0 && r.Some? ==> r.value == size + n - 1
  {
    Index(Min(n, size) - 1, size)
  }

  // ---- What each operation does to the slots ----------------------------

  /** `@data` after `push(v)`: one slot more, (v, 0) on top. */
  function Pushed(d: seq<Slot>, v: int): (r: seq<Slot>)
    ensures |r| == |d| + 1 && r[|d|] == Slot(v, 0)
  {
    d + [Slot(v, 0)]
  }

  /** What `pop` returns and `@data` afterwards: -1 and no change on an
      empty stack, otherwise top.value + top.inc and one slot fewer. */
  function Popped(d: seq<Slot>): (r: (int, seq<Slot>))
    ensures d == [] ==> r == (-1, d)
    ensures d != [] ==> r.0 == d[|d| - 1].value + d[|d| - 1].inc && |r.1| == |d| - 1
  {
    if |d| == 0 then (-1, d)
    else
      var top := d[|d| - 1];
      var rest := d[..|d| - 1];
      (top.value + top.inc, if |rest| > 0 then Bump(rest, |rest| - 1, top.inc) else rest)
  }

  /** `@data` after `increment(n)`: as many slots as before. */
  function Incremented(d: seq<Slot>, n: int): (r: seq<Slot>)
    ensures |r| == |d|
  {
    match IncrementTarget(n, |d|)
    case None => d
    case Some(k) => Bump(d, k, 1)
  }

  /** `push(v)` adds the one slot (v, 0) on top and keeps every other slot. */
  lemma PushAppendsOneSlot(d: seq<Slot>, v: int)
    ensures |Pushed(d, v)| == |d| + 1
    ensures Pushed(d, v)[..|d|] == d && Pushed(d, v)[|d|] == Slot(v, 0)
  {
  }

  /** `pop` on a non-empty stack returns top.value + top.inc, drops the top
      slot, adds top.inc to the inc of the new top and leaves every other
      slot alone; on an empty stack it returns -1 and changes nothing. */
  lemma PopTouchesOneSlot(d: seq<Slot>)
    ensures d == [] ==> Popped(d) == (-1, d)
    ensures d != [] ==>
      var top, (r, d') := d[|d| - 1], Popped(d);
      r == top.value + top.inc && |d'| == |d| - 1 &&
      forall i :: 0 <= i < |d'| ==>
        d'[i].value == d[i].value &&
        d'[i].inc == (if i == |d'| - 1 then d[i].inc + top.inc else d[i].inc)
  {
  }

  /** `increment(n)` keeps the length and every value, and adds 1 to the inc
      of the target slot only; with no target it changes nothing. */
  lemma IncrementTouchesOneSlot(d: seq<Slot>, n: int)
    ensures |Incremented(d, n)| == |d|
    ensures forall i :: 0 <= i < |d| ==>
      Incremented(d, n)[i].value == d[i].value &&
      Incremented(d, n)[i].inc == (if IncrementTarget(n, |d|) == Some(i) then d[i].inc + 1 else d[i].inc)
  {
  }

  /** `push(v)` then `pop` returns v and restores `@data` exactly, since the
      inc handed down is 0. */
  lemma PushPopRoundTrip(d: seq<Slot>, v: int)
    ensures Popped(Pushed(d, v)) == (v, d)
  {
    var p := Pushed(d, v);
    assert p[..|p| - 1] == d;
    if |d| > 0 {
      assert Bump(d, |d| - 1, 0) == d;
    }
  }

  /** Two increments leave the same `@data` in either order: neither
      changes the size, so each marks the same slot whichever comes first. */
  lemma IncrementsCommute(d: seq<Slot>, a: int, b: int)
    ensures Incremented(Incremented(d, a), b) == Incremented(Incremented(d, b), a)
  {
    var ab, ba := Incremented(Incremented(d, a), b), Incremented(Incremented(d, b), a);
    IncrementTouchesOneSlot(d, a);
    IncrementTouchesOneSlot(d, b);
    IncrementTouchesOneSlot(Incremented(d, a), b);
    IncrementTouchesOneSlot(Incremented(d, b), a);
    assert |ab| == |ba|;
    forall i | 0 <= i < |ab| ensures ab[i] == ba[i] { }
  }

  // ---- The sum of the incs ----------------------------------------------

  lemma {:induction false} SumIncAppend(a: seq<Slot>, b: seq<Slot>)
    ensures SumInc(a + b) == SumInc(a) + SumInc(b)
    decreases |a|
  {
    if a == [] {
      assert a + b == b;
    } else {
      assert (a + b)[1..] == a[1..] + b;
      SumIncAppend(a[1..], b);
    }
  }

  lemma {:induction false} SumIncBump(s: seq<Slot>, k: nat, x: int)
    requires k < |s|
    ensures SumInc(Bump(s, k, x)) == SumInc(s) + x
    decreases |s|
  {
    if k > 0 {
      assert Bump(s, k, x)[1..] == Bump(s[1..], k - 1, x);
      SumIncBump(s[1..], k - 1, x);
    }
  }

  /** Adding x to the inc of slot k adds x to the effective value of slot k
      and of every slot below it, and to nothing else. */
  lemma {:induction false} BumpEffective(d: seq<Slot>, k: nat, x: int)
    requires k < |d|
    ensures forall i :: 0 <= i < |d| ==>
      Effective(Bump(d, k, x))[i] == (if i <= k then Effective(d)[i] + x else Effective(d)[i])
    decreases |d|
  {
    var b := Bump(d, k, x);
    var tail, tail' := d[1..], b[1..];
    SumIncBump(d, k, x);
    if k == 0 {
      assert tail' == tail;
    } else {
      assert tail' == Bump(tail, k - 1, x);
      BumpEffective(tail, k - 1, x);
    }
    var e, e' := Effective(d), Effective(b);
    assert e == [d[0].value + SumInc(d)] + Effective(tail);
    assert e' == [b[0].value + SumInc(b)] + Effective(tail');
    forall i | 0 <= i < |d|
      ensures e'[i] == (if i <= k then e[i] + x else e[i])
    {
      if i > 0 {
        assert e'[i] == Effective(tail')[i - 1] && e[i] == Effective(tail)[i - 1];
      }
    }
  }

  // ---- Refinement of the plain stack ------------------------------------

  /** Putting a slot on top adds its inc to the effective value of every
      slot below it; the new slot is worth its value plus its inc. */
  lemma {:induction false} EffectiveSnoc(rest: seq<Slot>, top: Slot)
    ensures Effective(rest + [top]) == seq(|rest|, i requires 0 <= i < |rest| => Effective(rest)[i] + top.inc) + [top.value + top.inc]
    decreases |rest|
  {
    var d := rest + [top];
    var e := Effective(d);
    var want := seq(|rest|, i requires 0 <= i < |rest| => Effective(rest)[i] + top.inc) + [top.value + top.inc];
    SumIncAppend(rest, [top]);
    assert SumInc([top]) == top.inc + SumInc([top][1..]);
    assert [top][1..] == [];
    if rest == [] {
      assert d == [top] && d[1..] == [];
      assert e == [top.value + top.inc];
    } else {
      assert d[1..] == rest[1..] + [top];
      EffectiveSnoc(rest[1..], top);
      assert e == [d[0].value + SumInc(d)] + Effective(rest[1..] + [top]);
      assert Effective(rest) == [rest[0].value + SumInc(rest)] + Effective(rest[1..]);
      forall i | 0 <= i < |d| ensures e[i] == want[i] {
        if 0 < i < |rest| {
          assert e[i] == Effective(rest[1..] + [top])[i - 1];
          assert Effective(rest)[i] == Effective(rest[1..])[i - 1];
        }
      }
    }
    assert e == want;
  }

  /** Under Effective, `push(v)` appends v. */
  lemma PushRefines(d: seq<Slot>, v: int)
    ensures Effective(Pushed(d, v)) == EagerStack.Push(Effective(d), v)
  {
    EffectiveSnoc(d, Slot(v, 0));
    assert Effective(Pushed(d, v))[..|d|] == Effective(d);
  }

  /** Under Effective, `pop` returns the top effective value (or -1 on an
      empty stack) and leaves the effective values below it unchanged. */
  lemma PopRefines(d: seq<Slot>)
    ensures Popped(d).0 == EagerStack.Pop(Effective(d)).0
    ensures Effective(Popped(d).1) == EagerStack.Pop(Effective(d)).1
  {
    if |d| > 0 {
      var n := |d| - 1;
      var top, rest := d[n], d[..n];
      assert d == rest + [top];
      EffectiveSnoc(rest, top);
      if n > 0 {
        BumpEffective(rest, n - 1, top.inc);
        assert Effective(Popped(d).1) == Effective(d)[..n];
      }
    }
  }

  /** Under Effective, `increment(n)` adds 1 to the bottom Covered(n, size)
      values, that is the bottom min(n, size) of them when n >= 1. */
  lemma IncrementRefines(d: seq<Slot>, n: int)
    ensures Effective(Incremented(d, n)) == EagerStack.Increment(Effective(d), n)
  {
    var e := EagerStack.Increment(Effective(d), n);
    match IncrementTarget(n, |d|)
    case None =>
      assert EagerStack.Covered(n, |d|) == 0;
      assert Effective(d) == e;
    case Some(k) =>
      assert EagerStack.Covered(n, |d|) == k + 1;
      BumpEffective(d, k, 1);
  }

  /** Runs `ops` from the front on `@data` `d`: the values the pops return,
      in order, and the final `@data`. */
  function Run(d: seq<Slot>, ops: seq<EagerStack.Op>): (r: (seq<int>, seq<Slot>))
    ensures |r.0| == EagerStack.Pops(ops)
    decreases |ops|
  {
    if ops == [] then ([], d)
    else
      match ops[0]
      case PushOp(v) => Run(Pushed(d, v), ops[1..])
      case PopOp =>
        var (x, rest) := Popped(d);
        var (xs, final) := Run(rest, ops[1..]);
        ([x] + xs, final)
      case IncrementOp(n) => Run(Incremented(d, n), ops[1..])
  }

  /** Any sequence of calls on a StackPlus pops exactly the values the plain
      stack pops, however increments and pops interleave, and ends in the
      plain stack's final state under Effective. */
  lemma {:induction false} RunRefines(d: seq<Slot>, ops: seq<EagerStack.Op>)
    ensures Run(d, ops).0 == EagerStack.Run(Effective(d), ops).0
    ensures Effective(Run(d, ops).1) == EagerStack.Run(Effective(d), ops).1
    decreases |ops|
  {
    if ops != [] {
      match ops[0]
      case PushOp(v) =>
        PushRefines(d, v);
        RunRefines(Pushed(d, v), ops[1..]);
      case PopOp =>
        PopRefines(d);
        RunRefines(Popped(d).1, ops[1..]);
      case IncrementOp(n) =>
        IncrementRefines(d, n);
        RunRefines(Incremented(d, n), ops[1..]);
    }
  }

  // ---- The object ---------------------------------------------------------

  /** The Ruby object: its one instance variable `@data`, changed in place. */
  class StackPlus {
    var data: seq<Slot>

    /** `initialize`: `@data = []`. */
    constructor ()
      ensures data == []
    {
      data := [];
    }

    /** `push(value)`: `data.push([value, 0])`. */
    method Push(value: int)
      modifies this
      ensures data == Pushed(old(data), value)
    {
      data := data + [Slot(value, 0)];
    }

    /** `pop`: -1 and no change on an empty stack; otherwise removes the top
        slot, adds its inc to the new top (if any) and returns value + inc. */
    method Pop() returns (r: int)
      modifies this
      ensures r == Popped(old(data)).0 && data == Popped(old(data)).1
    {
      if |data| == 0 {
        return -1;
      }
      var top := data[|data| - 1];
      data := data[..|data| - 1];
      if |data| > 0 {
        var k := |data| - 1;
        data := data[k := Slot(data[k].value, data[k].inc + top.inc)];
      }
      r := top.value + top.inc;
    }

    /** `increment(n)`: `i = [n, data.size].min - 1`, then `data[i][1] += 1`
        if `data[i]` is not nil (Ruby reads a negative i from the end). */
    method Increment(n: int)
      modifies this
      ensures data == Incremented(old(data), n)
    {
      var i := Min(n, |data|) - 1;
      var slot := Index(i, |data|);
      if slot.Some? {
        var k := slot.value;
        data := data[k := Slot(data[k].value, data[k].inc + 1)];
      }
    }
  }
}
