/** The simulation's event log: a bounded FIFO of human-readable messages (AddLog). */
module EventLog {

  /** The log keeps at most this many messages. */
  const Capacity: nat := 20

  /** Appends `m`; once the log holds more than Capacity messages the oldest one is dropped. */
  function Append(log: seq<string>, m: string): (r: seq<string>)
    // the new message is always the newest entry
    ensures |r| > 0 && r[|r| - 1] == m
    // the log grows by one until it is full, then keeps its length
    ensures |r| == if |log| < Capacity then |log| + 1 else |log|
    // nothing is reordered: the result is the newest part of the old log followed by m
    ensures r == (log + [m])[|log| + 1 - |r|..]
    ensures |log| <= Capacity ==> |r| <= Capacity
  {
    var grown := log + [m];
    if |grown| > Capacity then grown[1..] else grown
  }

  /** The log after appending the messages `ms` one by one, oldest first. */
  function AppendAll(log: seq<string>, ms: seq<string>): seq<string>
    decreases |ms|
  {
    if ms == [] then log else AppendAll(Append(log, ms[0]), ms[1..])
  }

  /** The newest Capacity messages of `s` (all of them if there are fewer), in order. */
  function Newest(s: seq<string>): (r: seq<string>)
    ensures |r| == if |s| > Capacity then Capacity else |s|
    ensures r == s[|s| - |r|..]
  {
    if |s| > Capacity then s[|s| - Capacity..] else s
  }

  /** Appending to a log within capacity keeps the newest Capacity messages of the log and `m`. */
  lemma AppendIsNewest(log: seq<string>, m: string)
    requires |log| <= Capacity
    ensures Append(log, m) == Newest(log + [m])
  {
  }

  lemma SliceThenAppend(x: seq<string>, y: seq<string>, i: nat, j: nat)
    requires i <= |x| && j <= |x| - i + |y|
    ensures (x[i..] + y)[j..] == (x + y)[i + j..]
  {
    assert forall k :: 0 <= k < |x| - i + |y| - j ==> (x[i..] + y)[j..][k] == (x + y)[i + j..][k];
  }

  /** Trimming before more messages arrive does not change what the trimmed log keeps. */
  lemma NewestOfNewest(x: seq<string>, y: seq<string>)
    ensures Newest(Newest(x) + y) == Newest(x + y)
  {
    var i := |x| - |Newest(x)|;
    var j := |Newest(x) + y| - |Newest(Newest(x) + y)|;
    SliceThenAppend(x, y, i, j);
  }

  lemma SplitFirst(log: seq<string>, ms: seq<string>)
    requires |ms| > 0
    ensures (log + [ms[0]]) + ms[1..] == log + ms
  {
    assert ms == [ms[0]] + ms[1..];
  }

  /**
   * However many messages are appended, a log that starts within capacity holds
   * exactly the newest Capacity messages of everything it has seen, in order.
   */
  lemma {:induction false} AppendAllKeepsNewest(log: seq<string>, ms: seq<string>)
    requires |log| <= Capacity
    ensures AppendAll(log, ms) == Newest(log + ms)
    decreases |ms|
  {
    if ms == [] {
      assert log + ms == log;
    } else {
      var a := Append(log, ms[0]);
      assert AppendAll(log, ms) == AppendAll(a, ms[1..]);
      AppendIsNewest(log, ms[0]);
      AppendAllKeepsNewest(a, ms[1..]);
      NewestOfNewest(log + [ms[0]], ms[1..]);
      SplitFirst(log, ms);
    }
  }

  /** On a full log, an append drops exactly the oldest entry and keeps the rest, then the new one, in order. */
  lemma FullLogDropsOldest(log: seq<string>, m: string)
    requires |log| == Capacity
    ensures Append(log, m) == log[1..] + [m]
    ensures |Append(log, m)| == Capacity
  {
    assert (log + [m])[1..] == log[1..] + [m];
  }
}
