# StackPlus in Dafny

A model of `StackPlus` (lib/stack_plus.rb), a stack of integers with an
extra operation `increment(n)` that adds 1 to the bottom `n` elements in
constant time. The stack keeps an array `@data` of slots `[value, inc]`:

- `push(v)` appends the slot `[v, 0]`;
- `pop` returns -1 on an empty stack; otherwise it removes the top slot,
  adds that slot's `inc` to the `inc` of the new top (if there is one) and
  returns `value + inc`;
- `increment(n)` computes `i = [n, data.size].min - 1` and, when `data[i]`
  exists, adds 1 to its `inc`.

The increment is lazy: a pending `inc` stands for +1s owed to its own slot
and to every slot below it, and each pop hands it one level down. The model
proves that this bookkeeping is invisible: the *effective value* of slot `i`
is its `value` plus the incs of slots `i` and above, and under that view the
lazy stack behaves exactly like a plain stack whose increment adds 1 to each
covered element straight away (the view the test comments write out, e.g.
`[4, 5]` after `increment(2)`).

Files and modules:

- `ruby_array.dfy`, module `RubyArray`: the two Ruby library behaviours the
  source relies on, `[a, b].min` and the position `ary[i]` reads, including
  negative indices, which count from the end.
- `eager_stack.dfy`, module `EagerStack`: the plain reference stack on
  `seq<int>` (bottom first), an operation datatype `Op` and `Run`, which
  executes a sequence of calls.
- `stack_plus.dfy`, module `LazyStack`: the slot datatype, the pure step
  functions `Pushed`, `Popped`, `Incremented` on `seq<Slot>`, the view
  `Effective`, the lemmas, and the class `StackPlus`, whose field `data`
  is the source's `@data` and whose methods update it in place.
- `stack_plus_scenarios.dfy`, module `StackPlusScenarios`: the scenarios of
  spec/stack_plus_spec.rb as methods on a fresh `StackPlus`, with the pop
  results as postconditions, and lemmas checking the plain stacks that the
  tests' comments write out.

`increment(n)` with `n <= 0` is not a no-op. The code computes
`i = [n, data.size].min - 1`, which is then negative, and Ruby's `data[i]`
reads from the end. So on a stack of `size` slots with `1 - size <= n <= 0`,
the call marks slot `size + n - 1`; `increment(0)` therefore adds 1 to every
element. For `n <= -size` (and `n - 1` no smaller than -2^63, see
"## Left out") `data[i]` is nil and the call changes nothing.
`IncrementTarget` and `EagerStack.Covered` state this, and
`StackPlusScenarios.IncrementNonPositive` walks through it.

Ruby Integers are unbounded, so `int` models them without wrap-around.

## Model

| member | source | states |
|---|---|---|
| RubyArray.Min | lib/stack_plus.rb:23 | `[a, b].min` is at most both arguments and is one of them |
| RubyArray.Index | lib/stack_plus.rb:24 | `ary[i]` finds an element exactly when `-size <= i < size`; the element is at `i` or, for a negative `i`, at `size + i` |
| EagerStack.IncrementBottom | spec/stack_plus_spec.rb:20-26 | the plain increment keeps the length and adds 1 to element `i` exactly when `i` is below the count |
| EagerStack.Covered | lib/stack_plus.rb:22-24 | `increment(n)` covers at most `size` elements: `min(n, size)` of them for `n >= 1`, `size + n` for `1 - size <= n <= 0` on a non-empty stack, none otherwise |
| EagerStack.IncrementsCommute | lib/stack_plus.rb:22-24 | on the plain stack, two increments give the same result in either order |
| LazyStack.Effective | lib/stack_plus.rb:15-19 | the effective view has one value per slot |
| LazyStack.EffectiveAt | lib/stack_plus.rb:15-19 | the effective value of slot `i` is `value[i]` plus the sum of `inc[j]` for `j >= i` |
| LazyStack.IncrementTarget | lib/stack_plus.rb:23-24 | the slot `increment(n)` marks: none on an empty stack; slot `min(n, size) - 1` for `n >= 1`; for `n <= 0`, slot `size + n - 1` exactly when `1 - size <= n` |
| LazyStack.Bump | lib/stack_plus.rb:17-24 | `data[k][1] += x` keeps the length and sets slot `k` to its value with `inc + x`; that no other slot changes is stated by PopTouchesOneSlot and IncrementTouchesOneSlot |
| LazyStack.Pushed | lib/stack_plus.rb:8-10 | `push(v)` makes `@data` one slot longer with `(v, 0)` on top; that every earlier slot is kept is stated by PushAppendsOneSlot |
| LazyStack.Popped | lib/stack_plus.rb:12-20 | `pop` on an empty stack returns -1 and keeps `@data`; otherwise it returns `top.value + top.inc` and `@data` is one slot shorter; the effect on the other slots is stated by PopTouchesOneSlot |
| LazyStack.Incremented | lib/stack_plus.rb:22-25 | `increment(n)` keeps the number of slots; which slot changes is stated by IncrementTouchesOneSlot |
| LazyStack.PushAppendsOneSlot | lib/stack_plus.rb:8-10 | `push(v)` adds one slot `(v, 0)` on top and keeps every earlier slot |
| LazyStack.PopTouchesOneSlot | lib/stack_plus.rb:12-20 | `pop` on an empty stack returns -1 and changes nothing; otherwise it returns `top.value + top.inc`, shrinks `@data` by one, adds `top.inc` to the new top's inc and leaves every other slot and every value as it was |
| LazyStack.IncrementTouchesOneSlot | lib/stack_plus.rb:22-25 | `increment(n)` keeps the length and every value and adds 1 to the inc of the target slot only; with no target (empty stack included) nothing changes |
| LazyStack.PushPopRoundTrip | lib/stack_plus.rb:8-20 | `push(v)` then `pop` returns `v` and restores `@data` exactly |
| LazyStack.IncrementsCommute | lib/stack_plus.rb:22-25 | two increments leave the same `@data` in either order |
| LazyStack.BumpEffective | lib/stack_plus.rb:24 | adding `x` to slot `k`'s inc adds `x` to the effective value of slot `k` and of every slot below it, and to no other |
| LazyStack.EffectiveSnoc | lib/stack_plus.rb:15-17 | a slot on top adds its inc to every effective value below it and is itself worth `value + inc` |
| LazyStack.PushRefines | lib/stack_plus.rb:8-10 | under the effective view, `push(v)` appends `v` |
| LazyStack.PopRefines | lib/stack_plus.rb:12-20 | under the effective view, `pop` returns the top value (-1 when empty) and leaves the values below it unchanged |
| LazyStack.IncrementRefines | lib/stack_plus.rb:22-25 | under the effective view, `increment(n)` adds 1 to the bottom `Covered(n, size)` values, i.e. the bottom `min(n, size)` for `n >= 1` |
| EagerStack.Run | spec/stack_plus_spec.rb:28-57 | running a sequence of calls on the plain stack yields one popped value per pop call |
| LazyStack.Run | lib/stack_plus.rb:1-26 | running a sequence of calls on the slots yields one popped value per pop call; what those values are is stated by RunRefines |
| LazyStack.RunRefines | lib/stack_plus.rb:1-26 | for every sequence of calls, the lazy stack pops exactly the values the plain stack pops and ends in the plain stack's state under the effective view |
| LazyStack.StackPlus.constructor | lib/stack_plus.rb:4-6 | a new stack has no slots |
| LazyStack.StackPlus.Push | lib/stack_plus.rb:8-10 | the new `@data` is `Pushed(old @data, value)` |
| LazyStack.StackPlus.Pop | lib/stack_plus.rb:12-20 | the result and the new `@data` are `Popped(old @data)` |
| LazyStack.StackPlus.Increment | lib/stack_plus.rb:22-25 | the new `@data` is `Incremented(old @data, n)` |
| StackPlusScenarios.PopEmpty | spec/stack_plus_spec.rb:5-7 | popping a new stack gives -1 |
| StackPlusScenarios.PushThenPop | spec/stack_plus_spec.rb:9-12 | `push(3); pop` gives 3 |
| StackPlusScenarios.PushTwiceThenPop | spec/stack_plus_spec.rb:14-18 | `push(3); push(4); pop` gives 4 |
| StackPlusScenarios.IncrementThenPop | spec/stack_plus_spec.rb:20-26 | `push(3); push(4); increment(2)` then pops 5, then 4 |
| StackPlusScenarios.TestCase1 | spec/stack_plus_spec.rb:28-43 | the pops of the trace give 7, 3, 4, 3, 3, 6 |
| StackPlusScenarios.TestCase1Ending | spec/stack_plus_spec.rb:38-42 | from the slots of the plain stack `[6, 3, 3]`, `push(4)` and four pops give 4, 3, 3, 6 and empty the stack |
| StackPlusScenarios.TestCase2 | spec/stack_plus_spec.rb:45-57 | the pops of the trace give 2, 4, 4, 3, -1; that its `increment(5)` covers the three elements there are is checked by the assert on the slots after it, whose effective view TestCase2Views gives as `[2, 3, 4]` |
| StackPlusScenarios.TestCase2Ending | spec/stack_plus_spec.rb:53-56 | from the slots of the plain stack `[3, 4, 4]`, four pops give 4, 4, 3, -1 and leave the stack empty |
| StackPlusScenarios.IncrementNonPositive | lib/stack_plus.rb:23-24 | `increment(0)` adds 1 to every element, `increment(-1)` to all but the top, `increment(-size)` and below to none |
| StackPlusScenarios.IncrementThenPopViews | spec/stack_plus_spec.rb:21-25 | the slots of that scenario have the effective views `[4, 5]` and `[4]` of the test's comments |
| StackPlusScenarios.TestCase1Views | spec/stack_plus_spec.rb:34-40 | the slots of test case 1 have the effective views `[5, 2, 3]`, `[5, 2]`, `[6, 3, 3]`, `[6, 3]` of the test's comments |
| StackPlusScenarios.TestCase2Views | spec/stack_plus_spec.rb:51-52 | the slots of test case 2 have the effective views `[2, 3, 4]` and `[3, 4, 4]` of the test's comments |
| StackPlusScenarios.IncrementNonPositiveViews | lib/stack_plus.rb:23-24 | the slots after `increment(0)` and `increment(-1)` have the effective views `[31, 21, 11]` and `[32, 22, 11]` |

## Left out

- `attr_reader :data` (lib/stack_plus.rb:2) hands out the array itself, so a caller could change it behind the stack's back; the model has no such aliasing.
- The return values of `push` (Ruby's `Array#push` returns the array) and `increment` (the new inc, or nil): the source's callers ignore them, so the methods return nothing.
- RubyArray.Index: does not model that MRI's `Array#[]` raises RangeError for an index below -2^63 (it converts the index to a C long); the model treats every index outside `-size .. size - 1` as nil, so `increment(n)` with `n - 1 < -2^63` is a no-op here rather than an error.
- Ruby's dynamic typing: the model takes Integer values and counts only.
- Array growth and the constant-time claims: the model states only that each operation rewrites at most one slot (PopTouchesOneSlot, IncrementTouchesOneSlot).
- LazyStack.StackPlus.Push, LazyStack.StackPlus.Pop and LazyStack.StackPlus.Increment: their ensures give the new `@data` through `Pushed`, `Popped` and `Incremented`; the plain-stack view of each follows from PushRefines, PopRefines and IncrementRefines instead of being repeated in the method's ensures.
- The RSpec test framework itself; its examples appear only as the scenario methods.
