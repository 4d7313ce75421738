/** The plain stack that a StackPlus is meant to behave like: a sequence of
    integers listed bottom first, whose increment really adds 1 to each of
    the bottom elements it covers. This is the view the comments beside the
    repository's test expectations write out ("[4, 5]" and so on). */
module EagerStack {
  import opened RubyArray

  /** Appends `v` on top. */
  function Push(s: seq<int>, v: int): seq<int> {
    s + [v]
  }

  /** Pops the top element: the popped value and the remaining stack, or the
      sentinel -1 and the unchanged (empty) stack. */
  function Pop(s: seq<int>): (int, seq<int>) {
    if s == [] then (-1, s) else (s[|s| - 1], s[..|s| - 1])
  }

  /** Adds 1 to each of the bottom `m` elements; `m` beyond the size covers them all. */
  function IncrementBottom(s: seq<int>, m: nat): (r: seq<int>)
    ensures |r| == |s|
    ensures forall i :: 0 <= i < |s| ==> r[i] == (if i < m then s[i] + 1 else s[i])
    decreases |s|
  {
    if s == [] || m == 0 then s else [s[0] + 1] + IncrementBottom(s[1..], m - 1)
  }

  /** How many bottom elements `increment(n)` covers on a stack of `size`
      elements: the ones up to and including the slot that
      `data[[n, data.size].min - 1]` selects, none when that is nil. */
  function Covered(n: int, size: nat): (m: nat)
    ensures m <= size
    ensures n >= 1 ==> m == Min(n, size)
    ensures n <= 0 ==> m == (if size > 0 && 1 - size <= n then size + n else 0)
  {
    match Index(Min(n, size) - 1, size)
    case None => 0
    case Some(k) => k + 1
  }

  /** `increment(n)` on the plain stack. */
  function Increment(s: seq<int>, n: int): seq<int> {
    IncrementBottom(s, Covered(n, |s|))
  }

  /** Two eager increments give the same stack in either order. */
  lemma IncrementsCommute(s: seq<int>, a: int, b: int)
    ensures Increment(Increment(s, a), b) == Increment(Increment(s, b), a)
  {
  }

  /** One call of the stack's interface. */
  datatype Op = PushOp(v: int) | PopOp | IncrementOp(n: int)

  /** The number of pops in `ops`. */
  function Pops(ops: seq<Op>): nat
    decreases |ops|
  {
    if ops == [] then 0 else (if ops[0].PopOp? then 1 else 0) + Pops(ops[1..])
  }

  /** Runs `ops` from the front on `s`: the values the pops return, in
      order (one per pop), and the final stack. */
  function Run(s: seq<int>, ops: seq<Op>): (r: (seq<int>, seq<int>))
    ensures |r.0| == Pops(ops)
    decreases |ops|
  {
    if ops == [] then ([], s)
    else
      match ops[0]
      case PushOp(v) => Run(Push(s, v), ops[1..])
      case PopOp =>
        var (x, rest) := Pop(s);
        var (xs, final) := Run(rest, ops[1..]);
        ([x] + xs, final)
      case IncrementOp(n) => Run(Increment(s, n), ops[1..])
  }
}
