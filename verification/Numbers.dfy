/** The integer types of the platform: int has 32 bits, size_t has 64. */
module Numbers {

  const INT_MAX: int := 0x7FFF_FFFF
  const INT_RANGE: nat := 0x1_0000_0000
  const SIZE_LIMIT: nat := 0x1_0000_0000_0000_0000

  /** The values of an int. */
  predicate IsInt(x: int) {
    -INT_MAX - 1 <= x <= INT_MAX
  }

  /** The conversion of an integer to an int. */
  function ToInt(x: int): (r: int)
    ensures IsInt(r) && (r - x) % INT_RANGE == 0
  {
    var m := x % INT_RANGE;
    if m <= INT_MAX then m else m - INT_RANGE
  }

  /** The conversion of an integer to a size_t. */
  function ToSize(x: int): (r: nat)
    ensures r < SIZE_LIMIT && (r - x) % SIZE_LIMIT == 0
  {
    x % SIZE_LIMIT
  }

  /** An int survives the way through size_t and back; as a size_t it is small exactly if it is not
      negative. */
  lemma ThroughSize(x: int)
    requires IsInt(x)
    ensures ToInt(ToSize(x)) == x
    ensures ToSize(x) == if x >= 0 then x else x + SIZE_LIMIT
  {
    if x >= 0 {
      assert x % SIZE_LIMIT == x;
    } else {
      assert (x + SIZE_LIMIT) % SIZE_LIMIT == x % SIZE_LIMIT == x + SIZE_LIMIT;
      assert SIZE_LIMIT == INT_RANGE * INT_RANGE;
      assert ToSize(x) % INT_RANGE == x + INT_RANGE;
    }
  }

  lemma IntIffSmall(x: nat)
    ensures ToInt(x) == x <==> x <= INT_MAX
    ensures ToInt(x) >= 0 <==> x % INT_RANGE <= INT_MAX
  {
    if x <= INT_MAX {
      assert x % INT_RANGE == x;
    }
  }
}
