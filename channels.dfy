/**
 * Channels of the concurrency chapter, run one goroutine at a time: a channel of `int` is a FIFO
 * buffer and a closed flag. Sending and closing a closed channel panic in Go, so both require an
 * open channel; receiving from an empty open channel would wait for a sender that, run
 * sequentially, never comes, so receiving requires a value or a close.
 */
module Channels {

  class Channel {
    /** `cap(c)`, the buffer size given to `make`. */
    const capacity: nat
    /** The values sent and not yet received, oldest first. */
    var buffer: seq<int>
    var closed: bool

    /** `make(chan int, capacity)`. */
    constructor (capacity: nat)
      ensures this.capacity == capacity && buffer == [] && !closed
    {
      this.capacity := capacity;
      buffer := [];
      closed := false;
    }

    /** `c <- v`. */
    method Send(v: int)
      requires !closed
      modifies this
      ensures buffer == old(buffer) + [v] && !closed
    {
      buffer := buffer + [v];
    }

    /** `close(c)`: no more values will come; those buffered stay. */
    method Close()
      requires !closed
      modifies this
      ensures closed && buffer == old(buffer)
    {
      closed := true;
    }

    /**
     * `v, ok := <-c`: the oldest buffered value with `true`; once a closed channel is drained,
     * the zero value with `false`.
     */
    method Receive() returns (v: int, ok: bool)
      requires buffer != [] || closed
      modifies this
      ensures closed == old(closed)
      ensures old(buffer) != [] ==> ok && v == old(buffer)[0] && buffer == old(buffer)[1..]
      ensures old(buffer) == [] ==> !ok && v == 0 && buffer == []
    {
      if buffer != [] {
        v, ok := buffer[0], true;
        buffer := buffer[1..];
      } else {
        v, ok := 0, false;
      }
    }
  }

  /**
   * A range loop over a channel, or the equivalent hand-written loop that receives until the
   * second result is false: collects the values in the order they were sent.
   */
  method ReceiveAll(c: Channel) returns (received: seq<int>)
    requires c.closed
    modifies c
    ensures received == old(c.buffer) && c.buffer == [] && c.closed
  {
    received := [];
    while true
      invariant c.closed
      invariant received + c.buffer == old(c.buffer)
      decreases |c.buffer|
    {
      var v, ok := c.Receive();
      if !ok {
        break;
      }
      received := received + [v];
    }
  }

  // ---------------------------------------------------------------- 04-Range-and-Close

  function Fib(k: nat): nat
  {
    if k < 2 then k else Fib(k - 1) + Fib(k - 2)
  }

  /** The first `n` Fibonacci numbers, in order. */
  function Fibs(n: nat): (r: seq<nat>)
    ensures |r| == n
    ensures forall k :: 0 <= k < n ==> r[k] == Fib(k)
  {
    if n == 0 then [] else Fibs(n - 1) + [Fib(n - 1)]
  }

  /**
   * `fibonacci(n, c)`: a pair of consecutive Fibonacci numbers starts at 0 and 1; n times, the
   * smaller one is sent and the pair moves one step along. It sends the first `n` Fibonacci
   * numbers (none for `n <= 0`) and then closes the channel.
   */
  method Fibonacci(n: int, c: Channel)
    requires !c.closed
    modifies c
    ensures c.closed
    ensures c.buffer == old(c.buffer) + Fibs(if n < 0 then 0 else n)
  {
    var x, y := 0, 1;
    var k := 0;
    while k < n
      invariant 0 <= k <= (if n < 0 then 0 else n)
      invariant x == Fib(k) && y == Fib(k + 1)
      invariant !c.closed && c.buffer == old(c.buffer) + Fibs(k)
    {
      c.Send(x);
      x, y := y, x + y;
      k := k + 1;
    }
    c.Close();
  }

  /**
   * `RunConcurrency04`, example 1: `fibonacci(cap(c), c)` on a channel of capacity 10, then
   * `for i := range c`; the values arrive in the order sent.
   */
  method RunConcurrency04Range() returns (fibs: seq<int>)
    ensures fibs == [0, 1, 1, 2, 3, 5, 8, 13, 21, 34]
  {
    var c := new Channel(10);
    Fibonacci(c.capacity, c);
    fibs := ReceiveAll(c);
    FirstTenFibs(fibs);
  }

  /** `RunConcurrency04`, example 2: 1, 2, 3 sent and the channel closed, then received by hand. */
  method RunConcurrency04Manual() returns (received: seq<int>)
    ensures received == [1, 2, 3]
  {
    var ch := new Channel(3);
    ch.Send(1);
    ch.Send(2);
    ch.Send(3);
    ch.Close();
    received := ReceiveAll(ch);
  }

  /**
   * `RunConcurrency04`, example 3: a closed channel holding 10 and 20 still yields both with
   * `true`, then the zero value with `false`.
   */
  method RunConcurrency04Closed() returns (v1: int, ok1: bool, v2: int, ok2: bool, v3: int, ok3: bool)
    ensures v1 == 10 && ok1 && v2 == 20 && ok2 && v3 == 0 && !ok3
  {
    var ch2 := new Channel(2);
    ch2.Send(10);
    ch2.Send(20);
    ch2.Close();
    v1, ok1 := ch2.Receive();
    v2, ok2 := ch2.Receive();
    v3, ok3 := ch2.Receive();
  }

  /**
   * `RunConcurrency04`, example 4: a channel of capacity 2 gets 1 and is closed. A further send
   * would panic; with the channel closed, `Send`'s precondition rules it out.
   */
  method RunConcurrency04SendAfterClose() returns (buffered: seq<int>, closed: bool)
    ensures buffered == [1] && closed
  {
    var ch3 := new Channel(2);
    ch3.Send(1);
    ch3.Close();
    buffered, closed := ch3.buffer, ch3.closed;
  }

  /** The values the first example prints. */
  lemma FirstTenFibs(s: seq<int>)
    requires s == Fibs(10)
    ensures s == [0, 1, 1, 2, 3, 5, 8, 13, 21, 34]
  {
  }

  // ---------------------------------------------------------------- 02-Channels

  /** The sum of the elements of `s`. */
  function SeqSum(s: seq<int>): int
  {
    if s == [] then 0 else SeqSum(s[..|s| - 1]) + s[|s| - 1]
  }

  /** Cutting `s` anywhere splits its sum into the sums of the two pieces. */
  lemma {:induction false} SeqSumSplit(s: seq<int>, k: int)
    requires 0 <= k <= |s|
    ensures SeqSum(s[..k]) + SeqSum(s[k..]) == SeqSum(s)
  {
    if k < |s| {
      var init := s[..|s| - 1];
      SeqSumSplit(init, k);
      assert init[..k] == s[..k];
      assert s[k..][..|s[k..]| - 1] == init[k..];
    } else {
      assert s[..k] == s;
      assert s[k..] == [];
    }
  }

  /** `sum(s, c)`: add up `s` in a loop, then send the total, once. */
  method Sum(s: seq<int>, c: Channel)
    requires !c.closed
    modifies c
    ensures c.buffer == old(c.buffer) + [SeqSum(s)] && !c.closed
  {
    var total := 0;
    var i := 0;
    while i < |s|
      invariant 0 <= i <= |s| && total == SeqSum(s[..i])
    {
      assert s[..i + 1][..i] == s[..i];
      total := total + s[i];
      i := i + 1;
    }
    assert s[..i] == s;
    c.Send(total);
  }

  /**
   * The body of `RunConcurrency02` for any slice: one `sum` goroutine per half, on an unbuffered
   * channel, then two receives. Which half reports first is up to the scheduler and is a
   * parameter here; either way the two values are the two half sums and `x + y` is the total.
   */
  method SumHalves(s: seq<int>, firstHalfFirst: bool) returns (x: int, y: int)
    ensures firstHalfFirst ==> x == SeqSum(s[..|s| / 2]) && y == SeqSum(s[|s| / 2..])
    ensures !firstHalfFirst ==> x == SeqSum(s[|s| / 2..]) && y == SeqSum(s[..|s| / 2])
    ensures x + y == SeqSum(s)
  {
    var c := new Channel(0);
    if firstHalfFirst {
      Sum(s[..|s| / 2], c);
      Sum(s[|s| / 2..], c);
    } else {
      Sum(s[|s| / 2..], c);
      Sum(s[..|s| / 2], c);
    }
    var ok;
    x, ok := c.Receive();
    y, ok := c.Receive();
    SeqSumSplit(s, |s| / 2);
  }

  /** `RunConcurrency02`: for [7, 2, 8, -9, 4, 0] the halves sum to 17 and -5, the whole to 12. */
  method RunConcurrency02(firstHalfFirst: bool) returns (x: int, y: int, total: int)
    ensures firstHalfFirst ==> x == 17 && y == -5
    ensures !firstHalfFirst ==> x == -5 && y == 17
    ensures total == 12
  {
    var s := [7, 2, 8, -9, 4, 0];
    assert s[..3] == [7, 2, 8] && s[3..] == [-9, 4, 0];
    assert SeqSum([7, 2, 8]) == 17 by {
      assert [7, 2, 8][..2] == [7, 2] && [7, 2][..1] == [7] && [7][..0] == [];
    }
    assert SeqSum([-9, 4, 0]) == -5 by {
      assert [-9, 4, 0][..2] == [-9, 4] && [-9, 4][..1] == [-9] && [-9][..0] == [];
    }
    x, y := SumHalves(s, firstHalfFirst);
    total := x + y;
  }
}
