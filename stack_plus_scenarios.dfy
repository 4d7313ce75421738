/** The scenarios of spec/stack_plus_spec.rb, checked against the
    StackPlus class. Each method starts from a fresh stack and returns the values its
    pops produce, and asserts the slots of `@data` along the way. The
    lemmas at the end check that those slots have, as their effective
    view, the plain stacks the tests' comments write out. */
module StackPlusScenarios {
  import opened LazyStack

  /** Popping an empty stack gives -1. */
  method PopEmpty() returns (r: int)
    ensures r == -1
  {
    var stack := new StackPlus();
    r := stack.Pop();
  }

  /** push(3); pop gives 3. */
  method PushThenPop() returns (r: int)
    ensures r == 3
  {
    var stack := new StackPlus();
    stack.Push(3);
    r := stack.Pop();
  }

  /** push(3); push(4); pop gives 4 (last in, first out). */
  method PushTwiceThenPop() returns (r: int)
    ensures r == 4
  {
    var stack := new StackPlus();
    stack.Push(3);
    stack.Push(4);
    r := stack.Pop();
  }

  /** push(3); push(4); increment(2); then the pops give 5, then 4. */
  method IncrementThenPop() returns (pops: seq<int>)
    ensures pops == [5, 4]
  {
    var stack := new StackPlus();
    stack.Push(3);
    stack.Push(4);
    stack.Increment(2);
    assert stack.data == [Slot(3, 0), Slot(4, 1)];
    var a := stack.Pop();
    assert stack.data == [Slot(3, 1)];
    var b := stack.Pop();
    assert stack.data == [];
    pops := [a, b];
  }

  /** 'passes test case 1'. */
  method TestCase1() returns (pops: seq<int>)
    ensures pops == [7, 3, 4, 3, 3, 6]
  {
    var stack := new StackPlus();
    stack.Push(7);
    var p1 := stack.Pop();
    assert stack.data == [];
    stack.Push(4);
    stack.Push(1);
    stack.Push(2);
    assert stack.data == [Slot(4, 0), Slot(1, 0), Slot(2, 0)];
    stack.Increment(3);
    assert stack.data == [Slot(4, 0), Slot(1, 0), Slot(2, 1)];
    var p2 := stack.Pop();
    assert stack.data == [Slot(4, 0), Slot(1, 1)];
    stack.Push(3);
    assert stack.data == [Slot(4, 0), Slot(1, 1), Slot(3, 0)];
    stack.Increment(2);
    assert stack.data == [Slot(4, 0), Slot(1, 2), Slot(3, 0)];
    var rest := TestCase1Ending(stack);
    pops := [p1, p2] + rest;
  }

  /** The calls of 'passes test case 1' from the plain stack [6, 3, 3] on. */
  method TestCase1Ending(stack: StackPlus) returns (pops: seq<int>)
    requires stack.data == [Slot(4, 0), Slot(1, 2), Slot(3, 0)]
    modifies stack
    ensures pops == [4, 3, 3, 6] && stack.data == []
  {
    stack.Push(4);
    var p3 := stack.Pop();
    assert stack.data == [Slot(4, 0), Slot(1, 2), Slot(3, 0)];
    var p4 := stack.Pop();
    assert stack.data == [Slot(4, 0), Slot(1, 2)];
    var p5 := stack.Pop();
    assert stack.data == [Slot(4, 2)];
    var p6 := stack.Pop();
    pops := [p3, p4, p5, p6];
  }

  /** 'passes test case 2': the slots asserted after its increment(5) show
      that on three elements it marks the top one, so it covers all three. */
  method TestCase2() returns (pops: seq<int>)
    ensures pops == [2, 4, 4, 3, -1]
  {
    var stack := new StackPlus();
    stack.Push(1);
    stack.Push(2);
    var p1 := stack.Pop();
    assert stack.data == [Slot(1, 0)];
    stack.Push(2);
    stack.Push(3);
    assert stack.data == [Slot(1, 0), Slot(2, 0), Slot(3, 0)];
    stack.Increment(5);
    assert stack.data == [Slot(1, 0), Slot(2, 0), Slot(3, 1)];
    stack.Increment(2);
    assert stack.data == [Slot(1, 0), Slot(2, 1), Slot(3, 1)];
    var rest := TestCase2Ending(stack);
    pops := [p1] + rest;
  }

  /** The pops of 'passes test case 2' from the plain stack [3, 4, 4] on. */
  method TestCase2Ending(stack: StackPlus) returns (pops: seq<int>)
    requires stack.data == [Slot(1, 0), Slot(2, 1), Slot(3, 1)]
    modifies stack
    ensures pops == [4, 4, 3, -1] && stack.data == []
  {
    var p2 := stack.Pop();
    assert stack.data == [Slot(1, 0), Slot(2, 2)];
    var p3 := stack.Pop();
    assert stack.data == [Slot(1, 2)];
    var p4 := stack.Pop();
    assert stack.data == [];
    var p5 := stack.Pop();
    pops := [p2, p3, p4, p5];
  }

  /** increment(0) on a non-empty stack marks the top slot (Ruby's
      `data[-1]`), so it adds 1 to every element; increment(-1) marks the
      slot below the top, and a count below -size marks nothing. */
  method IncrementNonPositive() returns (pops: seq<int>)
    ensures pops == [11, 22, 33]
  {
    var stack := new StackPlus();
    stack.Push(30);
    stack.Push(20);
    stack.Push(10);
    stack.Increment(0);
    assert stack.data == [Slot(30, 0), Slot(20, 0), Slot(10, 1)];
    stack.Increment(-1);
    stack.Increment(-3);
    assert stack.data == [Slot(30, 0), Slot(20, 1), Slot(10, 1)];
    var a := stack.Pop();
    var b := stack.Pop();
    stack.Increment(-1);
    assert stack.data == [Slot(30, 2)];
    stack.Increment(0);
    assert stack.data == [Slot(30, 3)];
    var c := stack.Pop();
    pops := [a, b, c];
  }

  // ---- The plain stacks the tests' comments write out --------------------

  /** The effective views of the slots that IncrementThenPop passes through. */
  lemma IncrementThenPopViews()
    ensures Effective([Slot(3, 0), Slot(4, 1)]) == [4, 5]
    ensures Effective([Slot(3, 1)]) == [4]
  {
  }

  /** The effective views of the slots that TestCase1 passes through. */
  lemma TestCase1Views()
    ensures Effective([Slot(4, 0), Slot(1, 0), Slot(2, 1)]) == [5, 2, 3]
    ensures Effective([Slot(4, 0), Slot(1, 1)]) == [5, 2]
    ensures Effective([Slot(4, 0), Slot(1, 2), Slot(3, 0)]) == [6, 3, 3]
    ensures Effective([Slot(4, 0), Slot(1, 2)]) == [6, 3]
  {
  }

  /** The effective views of the slots that TestCase2 passes through. */
  lemma TestCase2Views()
    ensures Effective([Slot(1, 0), Slot(2, 0), Slot(3, 1)]) == [2, 3, 4]
    ensures Effective([Slot(1, 0), Slot(2, 1), Slot(3, 1)]) == [3, 4, 4]
  {
  }

  /** The effective views of the slots that IncrementNonPositive passes through. */
  lemma IncrementNonPositiveViews()
    ensures Effective([Slot(30, 0), Slot(20, 0), Slot(10, 1)]) == [31, 21, 11]
    ensures Effective([Slot(30, 0), Slot(20, 1), Slot(10, 1)]) == [32, 22, 11]
  {
  }
}
