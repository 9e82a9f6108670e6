/**
 * The generic singly linked list of 06-generics/02-Generic-types.go.
 *
 * A list is a `Node?<T>`: `null` is Go's nil list, otherwise the head node. The heap shape is
 * described by two ghost values that the caller carries along: `spine`, the nodes reachable from
 * the head in order, and `contents`, their values. `IsList` ties them to the heap and keeps the
 * list acyclic (the nodes are pairwise distinct and the last one ends in `null`).
 */
module GenericList {

  /** One node: Go's `List[T]` struct with fields `next` and `val`. */
  class Node<T> {
    var next: Node?<T>
    var val: T

    constructor (val: T, next: Node?<T>)
      ensures this.val == val && this.next == next
    {
      this.val := val;
      this.next := next;
    }
  }

  /** `l` heads an acyclic chain through exactly the nodes of `spine`, holding `contents`. */
  ghost predicate IsList<T>(l: Node?<T>, spine: seq<Node<T>>, contents: seq<T>)
    reads spine
  {
    && |spine| == |contents|
    && (if spine == [] then l == null else l == spine[0])
    && (forall i :: 0 <= i < |spine| ==> spine[i].val == contents[i])
    && (forall i :: 0 <= i < |spine| - 1 ==> spine[i].next == spine[i + 1])
    && (spine != [] ==> spine[|spine| - 1].next == null)
    && (forall i, j :: 0 <= i < j < |spine| ==> spine[i] != spine[j])
  }

  /** The successor of the `k`-th node of a list: the next node of the spine, or nil after the last. */
  lemma NextOf<T>(l: Node?<T>, spine: seq<Node<T>>, contents: seq<T>, k: int)
    requires IsList(l, spine, contents) && 0 <= k < |spine|
    ensures spine[k].next == if k + 1 < |spine| then spine[k + 1] else null
  {
  }

  /**
   * `l.Push(val)`: a fresh head node in front of the old list. Nothing that exists is modified,
   * so the old list is still the same list.
   */
  method Push<T>(l: Node?<T>, val: T, ghost spine: seq<Node<T>>, ghost contents: seq<T>)
    returns (r: Node<T>)
    requires IsList(l, spine, contents)
    ensures fresh(r) && r.val == val && r.next == l
    ensures IsList(r, [r] + spine, [val] + contents)
    ensures IsList(l, spine, contents)
  {
    r := new Node(val, l);
  }

  /**
   * `l.Append(val)`: a one-node list when `l` is nil; otherwise the same head, with a fresh node
   * linked after the old last node. Only the old last node is modified, and only its `next`.
   */
  method Append<T>(l: Node?<T>, val: T, ghost spine: seq<Node<T>>, ghost contents: seq<T>)
    returns (r: Node<T>, ghost added: Node<T>)
    requires IsList(l, spine, contents)
    modifies if l == null then {} else {spine[|spine| - 1]}
    ensures fresh(added) && added.val == val && added.next == null
    ensures l == null ==> r == added
    ensures l != null ==> r == l
    ensures IsList(r, spine + [added], contents + [val])
    ensures l != null ==> spine[|spine| - 1].next == added
  {
    if l == null {
      r := new Node(val, null);
      added := r;
      return;
    }
    var current := l;
    ghost var k := 0;
    while current.next != null
      invariant 0 <= k < |spine| && current == spine[k]
      decreases |spine| - k
    {
      current := current.next;
      k := k + 1;
    }
    NextOf(l, spine, contents, k);
    var node := new Node(val, null);
    current.next := node;
    added := node;
    r := l;
  }

  /** `l.Length()`: the number of nodes reachable through `next`, 0 for nil. */
  method Length<T>(l: Node?<T>, ghost spine: seq<Node<T>>, ghost contents: seq<T>)
    returns (count: int)
    requires IsList(l, spine, contents)
    ensures count == |contents|
  {
    if l == null {
      return 0;
    }
    count := 0;
    var current: Node?<T> := l;
    while current != null
      invariant 0 <= count <= |spine|
      invariant current == (if count < |spine| then spine[count] else null)
      decreases |spine| - count
    {
      count := count + 1;
      current := current.next;
    }
  }

  /**
   * `l.Get(index)` as written: `(contents[index], true)` for an index in range, `(zero, false)`
   * for nil or an index past the end. A negative index skips the loop and yields the head value
   * with `true`. `zero` stands for Go's zero value of `T`.
   */
  method Get<T>(l: Node?<T>, index: int, zero: T, ghost spine: seq<Node<T>>, ghost contents: seq<T>)
    returns (v: T, ok: bool)
    requires IsList(l, spine, contents)
    ensures ok <==> l != null && index < |contents|
    ensures ok && 0 <= index ==> v == contents[index]
    ensures ok && index < 0 ==> v == contents[0]
    ensures !ok ==> v == zero
  {
    if l == null {
      return zero, false;
    }
    var current := l;
    var i := 0;
    while i < index
      invariant 0 <= i < |spine| && current == spine[i]
      invariant index >= 0 ==> i <= index
      invariant index < 0 ==> i == 0
    {
      NextOf(l, spine, contents, i);
      if current.next == null {
        return zero, false;
      }
      current := current.next;
      i := i + 1;
    }
    return current.val, true;
  }

  /**
   * `Get` with the range check its doc comment describes: `(zero, false)` for every index outside
   * `0 <= index < Length`, negative ones included.
   */
  method GetChecked<T>(l: Node?<T>, index: int, zero: T, ghost spine: seq<Node<T>>, ghost contents: seq<T>)
    returns (v: T, ok: bool)
    requires IsList(l, spine, contents)
    ensures ok <==> 0 <= index < |contents|
    ensures ok ==> v == contents[index]
    ensures !ok ==> v == zero
  {
    if l == null || index < 0 {
      return zero, false;
    }
    var current := l;
    var i := 0;
    while i < index
      invariant 0 <= i <= index && i < |spine| && current == spine[i]
    {
      NextOf(l, spine, contents, i);
      if current.next == null {
        return zero, false;
      }
      current := current.next;
      i := i + 1;
    }
    return current.val, true;
  }

  /** The negative-index case of `Get` as written: a non-empty list reports its head as found. */
  method GetNegativeIndexFound() returns (v: int, ok: bool, checkedOk: bool)
    ensures ok && v == 7
    ensures !checkedOk
  {
    var l := new Node(7, null);
    v, ok := Get(l, -1, 0, [l], [7]);
    var _, c := GetChecked(l, -1, 0, [l], [7]);
    checkedOk := c;
  }

  /** `Contains(l, val)`: whether some node holds `val`; the list is only read. */
  method Contains<T(==)>(l: Node?<T>, val: T, ghost spine: seq<Node<T>>, ghost contents: seq<T>)
    returns (found: bool)
    requires IsList(l, spine, contents)
    ensures found <==> val in contents
  {
    var current := l;
    ghost var k := 0;
    while current != null
      invariant 0 <= k <= |spine|
      invariant current == (if k < |spine| then spine[k] else null)
      invariant val !in contents[..k]
      decreases |spine| - k
    {
      if current.val == val {
        return true;
      }
      assert contents[..k + 1] == contents[..k] + [contents[k]];
      current := current.next;
      k := k + 1;
    }
    assert contents[..k] == contents;
    return false;
  }

  /**
   * The demonstration `RunGenerics02`: push 3, 2, 1 onto nil, append 4 and 5, then query; and a
   * second list of strings built by pushing "world" and "hello".
   */
  method RunGenerics02()
    returns (length: int, got: int, gotOk: bool, has3: bool, has10: bool, strLength: int)
    ensures length == 3
    ensures gotOk && got == 3
    ensures has3 && !has10
    ensures strLength == 2
  {
    var intList, spine := PushThreeTwoOne();
    length := Length(intList, spine, [1, 2, 3]);
    ghost var spine';
    intList, spine' := AppendFourFive(intList, spine);
    got, gotOk := Get(intList, 2, 0, spine', [1, 2, 3, 4, 5]);
    has3 := Contains(intList, 3, spine', [1, 2, 3, 4, 5]);
    has10 := Contains(intList, 10, spine', [1, 2, 3, 4, 5]);

    var world := Push<string>(null, "world", [], []);
    var hello := Push(world, "hello", [world], ["world"]);
    strLength := Length(hello, [hello, world], ["hello", "world"]);
  }

  /** `intList.Push(3)`, `.Push(2)`, `.Push(1)` starting from nil. */
  method PushThreeTwoOne() returns (l: Node<int>, ghost spine: seq<Node<int>>)
    ensures fresh(spine) && IsList(l, spine, [1, 2, 3])
  {
    var n3 := Push<int>(null, 3, [], []);
    var n2 := Push(n3, 2, [n3], [3]);
    l := Push(n2, 1, [n2, n3], [2, 3]);
    spine := [l, n2, n3];
  }

  /** `intList.Append(4)`, `.Append(5)` on the list 1 -> 2 -> 3: the head stays the same. */
  method AppendFourFive(l: Node<int>, ghost spine: seq<Node<int>>)
    returns (r: Node<int>, ghost spine': seq<Node<int>>)
    requires IsList(l, spine, [1, 2, 3])
    modifies spine
    ensures r == l && IsList(r, spine', [1, 2, 3, 4, 5])
  {
    ghost var t4, t5;
    r, t4 := Append(l, 4, spine, [1, 2, 3]);
    assert [1, 2, 3] + [4] == [1, 2, 3, 4];
    r, t5 := Append(r, 5, spine + [t4], [1, 2, 3, 4]);
    assert [1, 2, 3, 4] + [5] == [1, 2, 3, 4, 5];
    spine' := spine + [t4] + [t5];
  }
}
