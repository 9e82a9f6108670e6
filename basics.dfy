/** The small functions of the basics chapter: `add`, `swap`, `split` and the numeric constants. */
module Basics {
  import opened Powers

  // ---------------------------------------------------------------- add (05-functions-continued)

  /** `add`: the sum of its three arguments. */
  function Add(x: int, y: int, z: int): int
  {
    x + y + z
  }

  /** The sum does not depend on the order in which the three arguments are passed. */
  lemma AddOrderIrrelevant(x: int, y: int, z: int)
    ensures Add(x, y, z) == Add(x, z, y) == Add(y, x, z) == Add(y, z, x) == Add(z, x, y) == Add(z, y, x)
  {
  }

  /** Zero in the other two positions gives back the first argument. */
  lemma AddZeros(x: int)
    ensures Add(x, 0, 0) == x
  {
  }

  /** `RunBasics05` prints `add(42, 13, 50)`, which is 105. */
  lemma RunBasics05()
    ensures Add(42, 13, 50) == 105
  {
  }

  // ---------------------------------------------------------------- swap (06-multiple-results)

  /** `swap`: the third argument first, then the other two in their original order. */
  function Swap(x: string, y: string, z: string): (r: (string, string, string))
    ensures multiset{r.0, r.1, r.2} == multiset{x, y, z}
  {
    (z, x, y)
  }

  /** Swapping three times rotates the triple all the way round. */
  lemma SwapThrice(x: string, y: string, z: string)
    ensures var (a, b, c) := Swap(x, y, z);
            var (d, e, f) := Swap(a, b, c);
            Swap(d, e, f) == (x, y, z)
  {
  }

  /** `RunBasics06`: `swap("test", "hello", "world")` gives `world test hello`. */
  lemma RunBasics06()
    ensures Swap("test", "hello", "world") == ("world", "test", "hello")
  {
  }

  // ---------------------------------------------------------------- split (07-named-return-values)

  /** Go's integer `/` by a positive divisor, which truncates toward zero. */
  function GoDiv(a: int, b: int): (q: int)
    requires b > 0
    ensures a >= 0 ==> q >= 0
    ensures a <= 0 ==> q <= 0
    ensures b == 1 ==> q == a
  {
    if a >= 0 then a / b else -((-a) / b)
  }

  /** Truncation toward zero: `9 * GoDiv(a, 9)` is the multiple of 9 nearest to `a` on the side of zero. */
  lemma GoDivNine(a: int)
    ensures a >= 0 ==> 0 <= 9 * GoDiv(a, 9) <= a < 9 * GoDiv(a, 9) + 9
    ensures a < 0 ==> 9 * GoDiv(a, 9) - 9 < a <= 9 * GoDiv(a, 9) <= 0
  {
  }

  /** `split`: the first share is four ninths of `sum` (Go division), the second is the rest. */
  function Split(sum: int): (r: (int, int))
    ensures r.0 + r.1 == sum
  {
    var x := GoDiv(sum * 4, 9);
    (x, sum - x)
  }

  /**
   * The two results add back up to `sum`; `9 * x` is `4 * sum` rounded toward zero to a multiple
   * of 9, so `x` is the smaller share and has the sign of `sum`, as `y` does.
   */
  lemma SplitParts(sum: int)
    ensures Split(sum).0 + Split(sum).1 == sum
    ensures sum >= 0 ==> 9 * Split(sum).0 <= 4 * sum < 9 * Split(sum).0 + 9
    ensures sum < 0 ==> 9 * Split(sum).0 - 9 < 4 * sum <= 9 * Split(sum).0
    ensures sum >= 0 ==> 0 <= Split(sum).0 <= Split(sum).1
    ensures sum < 0 ==> Split(sum).1 <= Split(sum).0 <= 0
  {
  }

  /** `RunBasics07` prints `split(17)`, that is `7 10`. */
  lemma RunBasics07()
    ensures Split(17) == (7, 10)
  {
  }

  // ---------------------------------------------------------------- numeric constants (16)

  /** `Big`: a one bit shifted left by 100 places. */
  const Big: nat := Pow2(100)

  /** `Small`: `Big` shifted right again by 99 places. */
  const Small: nat := Shr(Big, 99)

  /** Go's `int` is 64 bits wide. */
  const IntMin: int := -0x8000_0000_0000_0000
  const IntMax: int := 0x7fff_ffff_ffff_ffff

  predicate IsInt(x: int)
  {
    IntMin <= x <= IntMax
  }

  /** Two's-complement wrap-around of a mathematical integer into the range of `int`. */
  function Wrap(x: int): (r: int)
    ensures IsInt(r)
    ensures (r - x) % 0x1_0000_0000_0000_0000 == 0
    ensures IsInt(x) ==> r == x
  {
    (x - IntMin) % 0x1_0000_0000_0000_0000 + IntMin
  }

  /** `needInt`: ten times the argument plus one, wrapping around as Go's `int` does on overflow. */
  function NeedInt(x: int): (r: int)
    requires IsInt(x)
    ensures IsInt(r)
    ensures IsInt(x * 10 + 1) ==> r == x * 10 + 1
  {
    Wrap(x * 10 + 1)
  }

  /** `Big` is 1 followed by 100 binary zeroes: 1267650600228229401496703205376. */
  lemma BigValue()
    ensures Big == 1267650600228229401496703205376
  {
    assert Pow2(6) == 64;
    Pow2Add(6, 6);
    Pow2Add(12, 12);
    Pow2Add(1, 24);
    assert Pow2(25) == 33554432;
    Pow2Add(25, 25);
    assert Pow2(50) == 1125899906842624;
    Pow2Add(50, 50);
  }

  /** Shifting `Big` back by 99 places leaves `1 << 1`. */
  lemma SmallIsTwo()
    ensures Small == 2
  {
    ShrPow2(1, 99);
  }

  /** `needInt(Small)` is 21, the first line `RunBasics16` prints. */
  lemma RunBasics16()
    ensures IsInt(Small) && NeedInt(Small) == 21
  {
    SmallIsTwo();
  }

  /**
   * `needInt(Big)` does not compile: `Big` overflows `int`, so it cannot meet `NeedInt`'s
   * precondition.
   */
  lemma BigOverflowsInt()
    ensures !IsInt(Big)
  {
    BigValue();
  }
}
