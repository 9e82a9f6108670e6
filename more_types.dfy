/** The more-types chapter: the `1 << i` fill loop of 17-Range-continued and the `adder` closure. */
module MoreTypes {
  import opened Powers

  // ---------------------------------------------------------------- 17-Range-continued

  /**
   * `RunMoreTypes17`: a zero-filled slice of ten ints, then each index set to 2 to the power of
   * the index; the result is what the second loop prints, in order.
   */
  method RunMoreTypes17() returns (printed: seq<int>)
    ensures |printed| == 10
    ensures forall i :: 0 <= i < 10 ==> printed[i] == Pow2(i)
    ensures forall i, j :: 0 <= i < j < 10 ==> printed[i] < printed[j]
    ensures printed == [1, 2, 4, 8, 16, 32, 64, 128, 256, 512]
  {
    var pow := new int[10](_ => 0);
    var i := 0;
    while i < pow.Length
      invariant 0 <= i <= pow.Length
      invariant forall j :: 0 <= j < i ==> pow[j] == Pow2(j)
      invariant forall j :: i <= j < pow.Length ==> pow[j] == 0
    {
      pow[i] := Pow2(i);
      i := i + 1;
    }
    printed := pow[..];
    forall i, j | 0 <= i < j < 10
      ensures printed[i] < printed[j]
    {
      Pow2StrictlyIncreasing(i, j);
    }
    FirstTenPowers(printed);
  }

  /** The first ten powers of two, as the output comment lists them. */
  lemma FirstTenPowers(s: seq<int>)
    requires |s| == 10 && forall i :: 0 <= i < 10 ==> s[i] == Pow2(i)
    ensures s == [1, 2, 4, 8, 16, 32, 64, 128, 256, 512]
  {
    assert Pow2(9) == 512;
    assert s[0] == 1 && s[1] == 2 && s[2] == 4 && s[3] == 8 && s[4] == 16;
    assert s[5] == 32 && s[6] == 64 && s[7] == 128 && s[8] == 256 && s[9] == 512;
  }

  // ---------------------------------------------------------------- 25-Function-closures

  /** The closure `adder()` returns: its captured `sum` is a field. */
  class Adder {
    var sum: int

    /** The captured sum starts at 0 when `adder()` is called. */
    constructor ()
      ensures sum == 0
    {
      sum := 0;
    }

    /** Calling the closure adds `x` to its own sum and returns the new total. Only this adder changes. */
    method Call(x: int) returns (total: int)
      modifies this
      ensures sum == old(sum) + x
      ensures total == sum
    {
      sum := sum + x;
      total := sum;
    }
  }

  /**
   * `RunMoreTypes25`: two adders `pos` and `neg`; for `i` in 0..9 the line `pos(i) neg(-2*i)`.
   * The two running totals are 0 + 1 + … + i and twice that, negated.
   */
  method RunMoreTypes25() returns (lines: seq<(int, int)>)
    ensures |lines| == 10
    ensures forall i :: 0 <= i < 10 ==> 2 * lines[i].0 == i * (i + 1) && lines[i].1 == -2 * lines[i].0
    ensures lines == [(0, 0), (1, -2), (3, -6), (6, -12), (10, -20),
                      (15, -30), (21, -42), (28, -56), (36, -72), (45, -90)]
  {
    var pos := new Adder();
    var neg := new Adder();
    lines := [];
    var i := 0;
    while i < 10
      invariant 0 <= i <= 10 && |lines| == i
      invariant 2 * pos.sum == i * (i - 1) && neg.sum == -2 * pos.sum
      invariant forall j :: 0 <= j < i ==> 2 * lines[j].0 == j * (j + 1) && lines[j].1 == -2 * lines[j].0
    {
      var p := pos.Call(i);
      var n := neg.Call(-2 * i);
      lines := lines + [(p, n)];
      i := i + 1;
    }
  }
}
