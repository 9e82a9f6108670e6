/**
 * The flow-control chapter: the two `for` loops and the three `switch` statements. The environment
 * values the switches read (`runtime.GOOS`, the weekday and the hour of `time.Now()`) are
 * parameters, and printed lines are returned as a sequence of strings, one per line.
 */
module FlowControl {
  import opened Powers

  // ---------------------------------------------------------------- 01-for

  /** `RunFlowControl01`: adds each of 0 … 9 to a sum that starts at 0, and prints 45. */
  method RunFlowControl01() returns (sum: int)
    ensures sum == 45
  {
    sum := 0;
    var i := 0;
    while i < 10
      invariant 0 <= i <= 10
      invariant 2 * sum == i * (i - 1)
    {
      sum := sum + i;
      i := i + 1;
    }
  }

  // ---------------------------------------------------------------- 02-for-continued

  /** `RunFlowControl02`: doubles a sum that starts at 1 while it is below 1000, and prints 1024. */
  method RunFlowControl02() returns (sum: int)
    ensures sum >= 1000 && sum / 2 < 1000
    ensures sum == Pow2(10) == 1024
  {
    sum := 1;
    ghost var k := 0;
    while sum < 1000
      invariant 0 <= k <= 10 && sum == Pow2(k)
      invariant k < 10 ==> sum < 1000
      decreases 1000 - sum
    {
      sum := sum + sum;
      k := k + 1;
      if k < 10 {
        BelowTenBelowThousand(k);
      }
    }
  }

  /** The powers of two before the tenth are all below 1000. */
  lemma BelowTenBelowThousand(k: nat)
    requires k < 10
    ensures Pow2(k) < 1000
  {
    assert Pow2(9) == 512;
    if k < 9 {
      Pow2StrictlyIncreasing(k, 9);
    }
  }

  // ---------------------------------------------------------------- 09-Switch

  /** `RunFlowControl09`: "Go runs on " followed by the case the OS name selects. */
  function OsLine(os: string): (line: string)
    ensures |line| > |"Go runs on "| && line[..|"Go runs on "|] == "Go runs on "
    ensures line[|line| - 1] == '.'
  {
    "Go runs on " +
    match os
    case "darwin" => "macOS."
    case "linux" => "Linux."
    case _ => os + "."
  }

  /** Each case: the two named systems get their own names, every other name is echoed. */
  lemma OsLineCases(os: string)
    ensures os == "darwin" ==> OsLine(os) == "Go runs on macOS."
    ensures os == "linux" ==> OsLine(os) == "Go runs on Linux."
    ensures os != "darwin" && os != "linux" ==> OsLine(os) == "Go runs on " + os + "."
  {
  }

  // ---------------------------------------------------------------- 10-Switch-evaluation-order

  /** Go's `time.Weekday` numbering. */
  const Sunday := 0
  const Monday := 1
  const Tuesday := 2
  const Wednesday := 3
  const Thursday := 4
  const Friday := 5
  const Saturday := 6

  /**
   * `RunFlowControl10`: compares Saturday with today, today + 1 and today + 2 in that order and
   * prints the message of the first that is equal, or "Too far away." when none is.
   */
  function SaturdayLines(today: int): (lines: seq<string>)
    ensures |lines| == 2 && lines[0] == "When's Saturday?"
    ensures lines[1] in {"Today.", "Tomorrow.", "In two days.", "Too far away."}
  {
    ["When's Saturday?",
     if Saturday == today + 0 then "Today."
     else if Saturday == today + 1 then "Tomorrow."
     else if Saturday == today + 2 then "In two days."
     else "Too far away."]
  }

  /** Which message follows, weekday by weekday, in both directions. */
  lemma SaturdayAnswers(today: int)
    requires Sunday <= today <= Saturday
    ensures SaturdayLines(today)[1] == "Today." <==> today == Saturday
    ensures SaturdayLines(today)[1] == "Tomorrow." <==> today == Friday
    ensures SaturdayLines(today)[1] == "In two days." <==> today == Thursday
    ensures SaturdayLines(today)[1] == "Too far away." <==> Sunday <= today <= Wednesday
  {
  }

  // ---------------------------------------------------------------- 11-Switch-with-no-condition

  /** `RunFlowControl11`: morning before 12, afternoon before 17, evening otherwise; first match wins. */
  function Greeting(hour: int): (g: string)
    ensures g in {"Good morning!", "Good afternoon.", "Good evening."}
  {
    if hour < 12 then "Good morning!"
    else if hour < 17 then "Good afternoon."
    else "Good evening."
  }

  /** Each greeting covers exactly its interval of hours; 12 and 17 open the later ones. */
  lemma GreetingIntervals(hour: int)
    ensures Greeting(hour) == "Good morning!" <==> hour < 12
    ensures Greeting(hour) == "Good afternoon." <==> 12 <= hour < 17
    ensures Greeting(hour) == "Good evening." <==> 17 <= hour
  {
  }

  /** Greetings never go back to an earlier part of the day as the hour grows. */
  lemma GreetingMonotone(h1: int, h2: int)
    requires h1 <= h2
    ensures Greeting(h1) == "Good evening." ==> Greeting(h2) == "Good evening."
    ensures Greeting(h2) == "Good morning!" ==> Greeting(h1) == "Good morning!"
  {
  }
}
