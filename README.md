# Go tour snippets, verified core

A Dafny model of the sequential logic in a collection of Go tour snippets (zxcvbn848/golang-learning).
Each snippet is a self-contained demonstration; the model covers those that compute something checkable:

- the generic singly linked list `List[T]` with `Push`, `Append`, `Length`, `Get` and `Contains`;
- the generic linear search `Index`;
- the mutex-guarded counter `SafeCounter` with `Inc` and `Value`;
- the `adder` closure and its two instances `pos` and `neg`;
- the channel producers `fibonacci(n, c)` and `sum(s, c)`, with buffered values, `close` and draining;
- the small functions `add`, `swap`, `split`, `needInt` and the constants `Big`, `Small`;
- the counting loop, the doubling loop and the `1 << i` fill loop;
- the three `switch` statements: OS name, "when's Saturday", and greeting by hour.

Modules follow the chapters: `Basics`, `FlowControl`, `MoreTypes`, `TypeParameters`, `GenericList`,
`Channels` and `SafeCounters`, plus `Powers` for the powers of two they share.
Each `RunXxx` demonstration is modelled by a member whose postcondition states what the snippet
prints, as its output comments give it: a method where the snippet runs a loop, builds objects or uses
a channel, and a lemma about the called function where it only prints one call's result. The three
switch snippets of the flow-control chapter (`RunFlowControl09` to `RunFlowControl11`) read the
operating system, the clock and the current hour, and have no output comments; they are modelled by
plain functions that take that environment value as a parameter (`OsLine`, `SaturdayLines`,
`Greeting`) and by lemmas that state the line printed for every value.

Modelling choices:

- A list is a `Node?<T>`, with `null` as Go's nil list. The caller carries two ghost values: `spine`,
  the nodes in order, and `contents`, their values. `IsList` ties both to the heap. It keeps the list
  acyclic: the nodes are distinct and the last `next` is `null`. `Append` changes only the old last
  node.
- Go's zero value of `T`, which `Get` returns on failure, is a parameter `zero`.
- A channel of `int` is a class holding a FIFO `buffer` and a `closed` flag.
- Goroutines run one at a time. The order in which the two `sum` goroutines report is a parameter
  of `SumHalves`.
- A `sync.Mutex` is a class with a `locked` flag.
- `runtime.GOOS`, the weekday and the hour of `time.Now()` are parameters.
- Printed output is returned as values. Each `Run` method returns what it prints, and the switch
  functions return the lines.

## Model

| member | source | states |
|---|---|---|
| `GenericList.Node.constructor` | 06-generics/02-Generic-types.go:18-21 | the `&List[T]{val: …, next: …}` literal: a node holding exactly the given value and successor |
| `GenericList.Push` | 06-generics/02-Generic-types.go:25-30 | returns a fresh node holding `val` whose `next` is the old list; the new list's contents are `[val] + contents`; nothing that exists is modified, so the old list is unchanged |
| `GenericList.Append` | 06-generics/02-Generic-types.go:34-48 | nil gives a fresh one-node list; otherwise the same head is returned, with a fresh node after the old last node; the contents become `contents + [val]`; only the old last node is modified |
| `GenericList.Length` | 06-generics/02-Generic-types.go:51-63 | the count equals the number of nodes reachable via `next` (0 for nil) |
| `GenericList.Get` | 06-generics/02-Generic-types.go:86-100 | as written: `ok` iff the list is non-nil and `index < Length`; then the value is `contents[index]`, or the head value when `index` is negative; otherwise `(zero, false)` |
| `GenericList.GetChecked` | 06-generics/02-Generic-types.go:84-100 | as its doc comment says: `ok` iff `0 <= index < Length`, with value `contents[index]`; `(zero, false)` otherwise |
| `GenericList.GetNegativeIndexFound` | 06-generics/02-Generic-types.go:92-99 | on the one-node list [7], `Get(-1)` reports `(7, true)` while the range-checked version reports not found |
| `GenericList.Contains` | 06-generics/02-Generic-types.go:104-113 | true iff some node's value equals `val`; no node is modified |
| `GenericList.PushThreeTwoOne` | 06-generics/02-Generic-types.go:117-122 | pushing 3, 2, 1 onto nil gives the list 1 -> 2 -> 3 of fresh nodes |
| `GenericList.AppendFourFive` | 06-generics/02-Generic-types.go:129-131 | appending 4 and 5 keeps the head and gives 1 -> 2 -> 3 -> 4 -> 5 |
| `GenericList.RunGenerics02` | 06-generics/02-Generic-types.go:115-151 | Length is 3 after the pushes; after the appends the as-written Get(2) is (3, true), Contains 3 is true, Contains 10 is false; the string list "hello" -> "world" has length 2 |
| `TypeParameters.FirstIndex` | 06-generics/01-Type-parameters.go:22-31 | reference definition: the result is -1 or a valid index; at that index the element is `x` and no earlier one is; -1 exactly when `x` does not occur |
| `TypeParameters.Index` | 06-generics/01-Type-parameters.go:22-31 | the loop returns the first index holding `x`, or -1 iff `x` is absent, and agrees with `FirstIndex` |
| `TypeParameters.RunGenerics01` | 06-generics/01-Type-parameters.go:33-41 | `Index([10, 20, 15, -10], 15)` is 2 and `Index(["foo", "bar", "baz"], "hello")` is -1 |
| `SafeCounters.Count` | 07-concurrency/09-sync.Mutex.go:39 | reference definition of Go's map read `c.v[key]` with the zero value 0 for an absent key, with no contract of its own; what `m[key]++` and `Value` do with it is stated by `Incremented` and `SafeCounter.Value` |
| `SafeCounters.Incremented` | 07-concurrency/09-sync.Mutex.go:39 | `m[key]++` adds `key` to the keys, raises its count by one (absent counts as 0) and leaves every other key's count unchanged |
| `SafeCounters.Mutex.constructor` | 07-concurrency/09-sync.Mutex.go:29 | the zero-value `sync.Mutex` embedded in the struct starts unlocked |
| `SafeCounters.SafeCounter.constructor` | 07-concurrency/09-sync.Mutex.go:61 | a new counter has an empty map and a fresh, unlocked mutex |
| `SafeCounters.SafeCounter.Inc` | 07-concurrency/09-sync.Mutex.go:35-41 | the map becomes `Incremented(old map, key)`; the mutex is free again on return |
| `SafeCounters.SafeCounter.Value` | 07-concurrency/09-sync.Mutex.go:45-53 | returns the count for `key` (0 if absent) without changing the map; the mutex is free again on return |
| `SafeCounters.Mutex.Lock` | 07-concurrency/09-sync.Mutex.go:36 | acquiring a free mutex marks it held |
| `SafeCounters.Mutex.Unlock` | 07-concurrency/09-sync.Mutex.go:40 | releasing a held mutex marks it free |
| `SafeCounters.RunConcurrency09` | 07-concurrency/09-sync.Mutex.go:55-75 | 1000 increments of "somekey" on a fresh counter make `Value("somekey")` 1000 |
| `MoreTypes.Adder.constructor` | 04-more-types/25-Function-closures.go:8-9 | a fresh adder's captured sum is 0 |
| `MoreTypes.Adder.Call` | 04-more-types/25-Function-closures.go:10-13 | adds `x` to this adder's own sum and returns the new total; no other adder changes |
| `MoreTypes.RunMoreTypes25` | 04-more-types/25-Function-closures.go:16-42 | line i is `(pos(i), neg(-2*i))` with `pos` at i(i+1)/2 and `neg` at -i(i+1); the ten lines are exactly those in the output comment |
| `MoreTypes.RunMoreTypes17` | 04-more-types/17-Range-continued.go:8-17 | the zero-filled slice of length 10 ends with `pow[i] = 2^i` at every index; the values strictly increase and print as 1 2 4 … 512 |
| `MoreTypes.FirstTenPowers` | 04-more-types/17-Range-continued.go:16 | the ten powers 2^0 … 2^9 are 1, 2, 4, …, 512 |
| `Channels.Channel.constructor` | 07-concurrency/04-Range-and-Close.go:44 | `make(chan int, n)` is open, empty and has capacity n |
| `Channels.Channel.Send` | 07-concurrency/04-Range-and-Close.go:32 | a send on an open channel appends the value to the buffer |
| `Channels.Channel.Close` | 07-concurrency/04-Range-and-Close.go:37 | closing marks the channel closed and keeps buffered values |
| `Channels.Channel.Receive` | 07-concurrency/04-Range-and-Close.go:89-96 | returns the oldest buffered value with `true` and removes it; a drained closed channel gives `(0, false)` |
| `Channels.ReceiveAll` | 07-concurrency/04-Range-and-Close.go:68-76 | receiving until `ok` is false, as `for range c` does, yields exactly the buffered values in send order and empties the channel |
| `Channels.Fibs` | 07-concurrency/04-Range-and-Close.go:30-33 | the sequence of the first n Fibonacci numbers: length n, element k is Fib(k) |
| `Channels.Fibonacci` | 07-concurrency/04-Range-and-Close.go:29-38 | sends exactly Fib(0), …, Fib(n-1), none for n <= 0, keeping (x, y) = (Fib(k), Fib(k+1)), then closes the channel; nothing is sent after the close |
| `Channels.RunConcurrency04Range` | 07-concurrency/04-Range-and-Close.go:43-55 | with n = cap(c) = 10 the range loop receives 0 1 1 2 3 5 8 13 21 34 in order and stops at the close |
| `Channels.FirstTenFibs` | 07-concurrency/04-Range-and-Close.go:53-55 | the first ten Fibonacci numbers are 0, 1, 1, 2, 3, 5, 8, 13, 21, 34 |
| `Channels.RunConcurrency04Manual` | 07-concurrency/04-Range-and-Close.go:61-76 | the hand-written receive loop on a closed channel holding 1, 2, 3 receives 1, 2, 3 |
| `Channels.RunConcurrency04Closed` | 07-concurrency/04-Range-and-Close.go:82-96 | a closed channel holding 10 and 20 yields (10, true), (20, true), then (0, false) |
| `Channels.RunConcurrency04SendAfterClose` | 07-concurrency/04-Range-and-Close.go:102-108 | a channel that got 1 and was closed still buffers [1] and is closed, so a further send is excluded by `Send`'s precondition (the source's panic) |
| `Channels.SeqSumSplit` | 07-concurrency/02-Channels.go:46-50 | cutting a slice at any point splits its sum into the sums of the two pieces |
| `Channels.Sum` | 07-concurrency/02-Channels.go:25-33 | the loop keeps the running sum equal to the sum of the prefix seen; exactly one value, the total, is sent |
| `Channels.SumHalves` | 07-concurrency/02-Channels.go:42-55 | the two received values are the sums of `s[:len/2]` and `s[len/2:]` in report order, and `x + y` is the sum of `s` whichever half reports first |
| `Channels.RunConcurrency02` | 07-concurrency/02-Channels.go:35-59 | for [7, 2, 8, -9, 4, 0] the halves give 17 and -5 in either order and the total is 12 |
| `Basics.Add` | 02-basics/05-functions-continued.go:6-8 | reference definition of Go's `return x + y + z`, with no contract of its own; its properties are stated by `AddOrderIrrelevant`, `AddZeros` and `RunBasics05` |
| `Basics.AddOrderIrrelevant` | 02-basics/05-functions-continued.go:6-8 | `add` gives the same result for every order of its arguments |
| `Basics.AddZeros` | 02-basics/05-functions-continued.go:7 | `add(x, 0, 0) == x` |
| `Basics.RunBasics05` | 02-basics/05-functions-continued.go:10-12 | `add(42, 13, 50)` is 105 |
| `Basics.Swap` | 02-basics/06-multiple-results.go:6-8 | the result holds the same three strings as the input, none lost or duplicated |
| `Basics.SwapThrice` | 02-basics/06-multiple-results.go:7 | applying `swap` three times gives back the original triple |
| `Basics.RunBasics06` | 02-basics/06-multiple-results.go:10-13 | `swap("test", "hello", "world")` is ("world", "test", "hello") |
| `Basics.GoDiv` | 02-basics/07-named-return-values.go:7 | Go's `/` by a positive divisor: the quotient has the sign of the dividend (zero included) and dividing by 1 is the identity |
| `Basics.GoDivNine` | 02-basics/07-named-return-values.go:7 | Go's `/ 9` truncates toward zero: `9 * q` is the multiple of 9 nearest to the dividend on the side of zero |
| `Basics.Split` | 02-basics/07-named-return-values.go:6-10 | the two named results add back up to `sum` |
| `Basics.SplitParts` | 02-basics/07-named-return-values.go:6-10 | `x + y == sum`; `9x` is `4*sum` truncated toward zero to a multiple of 9; x is the smaller share and both have the sign of sum |
| `Basics.RunBasics07` | 02-basics/07-named-return-values.go:12-14 | `split(17)` is (7, 10) |
| `Basics.BigValue` | 02-basics/16-numeric-Constants.go:9-11 | `Big = 1 << 100` is 1267650600228229401496703205376 |
| `Basics.SmallIsTwo` | 02-basics/16-numeric-Constants.go:12-13 | `Small = Big >> 99` is 2 |
| `Basics.Wrap` | 02-basics/16-numeric-Constants.go:16 | 64-bit wrap-around: the result is an `int`, congruent to the input modulo 2^64, and equal to it when it is in range |
| `Basics.NeedInt` | 02-basics/16-numeric-Constants.go:16 | for an `int` argument the result is an `int`, equal to `10x + 1` whenever that does not overflow |
| `Basics.RunBasics16` | 02-basics/16-numeric-Constants.go:21-22 | `needInt(Small)` is 21 |
| `Basics.BigOverflowsInt` | 02-basics/16-numeric-Constants.go:23-24 | `Big` lies outside the `int` range, so `needInt(Big)` cannot be called |
| `Powers.Pow2` | 04-more-types/17-Range-continued.go:12 | `1 << n` on unbounded integers; its contract is only the positivity fact that it is at least 1 (the lemmas below carry the real properties) |
| `Powers.Pow2Add` | 02-basics/16-numeric-Constants.go:11 | `1 << (a + b)` is `(1 << a) * (1 << b)` |
| `Powers.Pow2StrictlyIncreasing` | 04-more-types/17-Range-continued.go:16 | larger shift amounts give strictly larger powers of two |
| `Powers.Shr` | 02-basics/16-numeric-Constants.go:13 | `x >> n` on a non-negative `x` never exceeds `x`, and is strictly smaller for a positive shift of a positive value |
| `Powers.ShrPow2` | 02-basics/16-numeric-Constants.go:12-13 | shifting `1 << (m + n)` right by n places gives `1 << m` |
| `FlowControl.RunFlowControl01` | 03-flow-control/01-for.go:8-15 | the loop runs for i = 0 … 9 keeping `2 * sum == i(i-1)`, and the printed sum is 45 |
| `FlowControl.RunFlowControl02` | 03-flow-control/02-for-continued.go:8-16 | sum stays a power of two and grows until the loop exits; on exit `sum >= 1000` and `sum / 2 < 1000`; the printed value is 1024 |
| `FlowControl.BelowTenBelowThousand` | 03-flow-control/02-for-continued.go:12 | every power 2^k with k < 10 is below the loop bound 1000 |
| `FlowControl.OsLine` | 03-flow-control/09-Switch.go:9-31 | the line always starts with "Go runs on " and ends with "." |
| `FlowControl.OsLineCases` | 03-flow-control/09-Switch.go:21-29 | "darwin" gives "macOS.", "linux" gives "Linux.", any other name gives the name and "." |
| `FlowControl.SaturdayLines` | 03-flow-control/10-Switch-evaluation-order.go:9-23 | "When's Saturday?" is followed by exactly one of the four messages |
| `FlowControl.SaturdayAnswers` | 03-flow-control/10-Switch-evaluation-order.go:13-22 | for Go weekdays 0–6: "Today." iff Saturday, "Tomorrow." iff Friday, "In two days." iff Thursday, "Too far away." iff Sunday to Wednesday |
| `FlowControl.Greeting` | 03-flow-control/11-Switch-with-no-condition.go:9-19 | the result is exactly one of the three greetings |
| `FlowControl.GreetingIntervals` | 03-flow-control/11-Switch-with-no-condition.go:11-18 | "Good morning!" iff hour < 12, "Good afternoon." iff 12 <= hour < 17, "Good evening." iff hour >= 17 |
| `FlowControl.GreetingMonotone` | 03-flow-control/11-Switch-with-no-condition.go:11-18 | as the hour grows the greeting never moves back to an earlier part of the day |

## Left out

- `List.Print` and every `fmt` call: printed output becomes return values.
- The command dispatcher in `main.go` is not modelled. It only handles process arguments and exit codes.
- Goroutine scheduling, blocking sends and receives on full or empty channels, `select`, and the
  blocking of `sync.Mutex` are not modelled. Goroutines run one at a time.
- Sending on or closing a closed channel panics in Go. Here both are preconditions of
  `Channels.Channel.Send` and `Channels.Channel.Close`. Example 4 of `RunConcurrency04` builds a
  channel, sends 1 and closes it (`RunConcurrency04SendAfterClose`); the panicking send stays
  commented out in the source, and the notice it prints is left out.
- Unlocking a `sync.Mutex` that is not locked is a fatal run-time error in Go, and locking a held one
  blocks. Both are preconditions of `SafeCounters.Mutex.Unlock` and `SafeCounters.Mutex.Lock`.
- Channels.Channel.Send: does not block when the buffer is full. `capacity` is recorded but does not
  limit the buffer. The demonstrations never send more values than the capacity, except on the
  unbuffered channel of `SumHalves`, whose receiver is always ready in Go.
- Floating-point code (`needFloat` and the float demonstrations) is not modelled. Dafny offers no
  IEEE doubles here.
- Go's 64-bit `int` wrap-around is modelled only in `NeedInt`. Every other integer is unbounded. No
  demonstration reaches the 64-bit range, but `split` would for `|sum| > 2^61`, `adder` for huge
  inputs, and `fibonacci` for every `n >= 94` (Fib(93) exceeds 2^63 - 1, so Go sends a wrapped value).
- Channels.Fibonacci: states the unbounded Fibonacci numbers for every `n`; for `n >= 94` Go's
  64-bit `int` would send wrapped values instead.
- Basics.GoDiv: defined for positive divisors only; `split` divides by 9. Its truncation property
  is stated for the divisor 9 (`GoDivNine`).
- `runtime.GOOS` and `time.Now()` are not read. They are parameters of `OsLine`, `SaturdayLines`
  and `Greeting`.
- `RunFlowControl09` prints "Go runs on " and the case's text with two calls. `OsLine` returns the
  line they print together.
- The listings printed by `RunGenerics02` (1 -> 2 -> 3 and 1 -> … -> 5) come from `Print`, which is
  left out. The contents are still stated by `PushThreeTwoOne` and `AppendFourFive`.

## Findings

| source | as written | input that shows it | evidently intended | confidence | as-written member | corrected member |
|---|---|---|---|---|---|---|
| 06-generics/02-Generic-types.go:92-99 | a negative index skips the loop, so `Get` returns the head value with `true` | `Get(-1)` on the one-node list holding 7 returns (7, true) | the doc comment at line 85 says an out-of-range index gives the zero value and `false`; a negative index is out of range | medium; not executed | `GenericList.GetNegativeIndexFound` | `GenericList.GetChecked` |
