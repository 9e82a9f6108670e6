/** `Index[T comparable](s []T, x T) int` of 06-generics/01-Type-parameters.go. */
module TypeParameters {

  /** Reference definition: the position of the first `x` in `s`, or -1 when there is none. */
  function FirstIndex<T(==)>(s: seq<T>, x: T): (r: int)
    ensures -1 <= r < |s|
    ensures 0 <= r ==> s[r] == x && forall j :: 0 <= j < r ==> s[j] != x
    ensures r == -1 <==> x !in s
  {
    if s == [] then -1
    else if s[0] == x then 0
    else
      var k := FirstIndex(s[1..], x);
      if k == -1 then -1 else k + 1
  }

  /** `Index(s, x)`: scan `s` from the front and return at the first element equal to `x`. */
  method Index<T(==)>(s: seq<T>, x: T) returns (r: int)
    ensures -1 <= r < |s|
    ensures 0 <= r ==> s[r] == x && forall j :: 0 <= j < r ==> s[j] != x
    ensures r == -1 <==> x !in s
    ensures r == FirstIndex(s, x)
  {
    var i := 0;
    while i < |s|
      invariant 0 <= i <= |s|
      invariant forall j :: 0 <= j < i ==> s[j] != x
    {
      if s[i] == x {
        return i;
      }
      i := i + 1;
    }
    return -1;
  }

  /** `RunGenerics01`: 15 sits at index 2 of [10, 20, 15, -10]; "hello" is not among the strings. */
  method RunGenerics01() returns (intIndex: int, stringIndex: int)
    ensures intIndex == 2 && stringIndex == -1
  {
    intIndex := Index([10, 20, 15, -10], 15);
    stringIndex := Index(["foo", "bar", "baz"], "hello");
  }
}
