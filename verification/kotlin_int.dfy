/**
 * Kotlin's `Int`: a signed 32-bit two's-complement integer whose `+` wraps
 * around silently on overflow.
 */
module KotlinInt {
  const MinInt: int := -0x8000_0000
  const MaxInt: int := 0x7FFF_FFFF

  type Int32 = x: int | -0x8000_0000 <= x <= 0x7FFF_FFFF

  /** The Int value that an exact integer wraps to: the one congruent to it modulo 2^32. */
  function Wrap32(x: int): (r: Int32)
    ensures MinInt <= x <= MaxInt ==> r == x
    ensures (x - r) % 0x1_0000_0000 == 0
  {
    (x + 0x8000_0000) % 0x1_0000_0000 - 0x8000_0000
  }

  /**
   * `a + b` on two Kotlin `Int`s.  The exact sum is at most one 2^32 out of
   * range, so a single correction wraps it.
   */
  function Add32(a: Int32, b: Int32): (r: Int32)
    ensures MinInt <= a + b <= MaxInt ==> r == a + b
    ensures a + b > MaxInt ==> r < a + b
    ensures a + b < MinInt ==> r > a + b
  {
    var sum := a + b;
    if sum > MaxInt then sum - 0x1_0000_0000
    else if sum < MinInt then sum + 0x1_0000_0000
    else sum
  }

  /** `Add32` is wrap-around addition: the exact sum reduced modulo 2^32. */
  lemma Add32IsWrap(a: Int32, b: Int32)
    ensures Add32(a, b) == Wrap32(a + b)
  {
    var sum := a + b;
    if sum > MaxInt {
      ShiftMod(sum + 0x8000_0000, -1);
    } else if sum < MinInt {
      ShiftMod(sum + 0x8000_0000, 1);
    }
  }

  /** Wrapping after every step of a sum is the same as wrapping once at the end. */
  lemma WrapAdd(a: int, b: int)
    ensures Wrap32(Wrap32(a) + b) == Wrap32(a + b)
  {
    var k := (a + 0x8000_0000) / 0x1_0000_0000;
    assert Wrap32(a) == a - k * 0x1_0000_0000;
    ShiftMod(a + b + 0x8000_0000, -k);
  }

  /** Wrap-around addition is associative, as addition modulo 2^32 is. */
  lemma Add32Assoc(a: Int32, b: Int32, c: Int32)
    ensures Add32(Add32(a, b), c) == Add32(a, Add32(b, c))
  {
    Add32IsWrap(a, b);
    Add32IsWrap(Add32(a, b), c);
    Add32IsWrap(b, c);
    Add32IsWrap(a, Add32(b, c));
    WrapAdd(a + b, c);
    WrapAdd(b + c, a);
  }

  lemma ShiftMod(y: int, k: int)
    ensures (y + k * 0x1_0000_0000) % 0x1_0000_0000 == y % 0x1_0000_0000
  {
  }
}
