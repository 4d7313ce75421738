/** The two pieces of Ruby's core library that lib/stack_plus.rb relies on
    beyond appending and removing at the end of an Array. */
module RubyArray {

  datatype Option<T> = None | Some(value: T)

  /** `[a, b].min` on two Integers. */
  function Min(a: int, b: int): (r: int)
    ensures r <= a && r <= b
    ensures r == a || r == b
  {
    if a <= b then a else b
  }

  /** The position that `ary[i]` reads in an Array of `size` elements: a
      non-negative `i` counts from the front, a negative one from the end
      (-1 is the last element), and anything else is out of range (nil). */
  function Index(i: int, size: nat): (r: Option<nat>)
    ensures r.Some? <==> -(size as int) <= i < size
    ensures r.Some? ==> r.value < size && (r.value == i || r.value == size + i)
  {
    if 0 <= i < size then Some(i)
    else if -(size as int) <= i < 0 then Some(size + i)
    else None
  }
}
