/**
 * The bounded in-memory log transport (src/utils/in-memory-logger.js): log
 * records are appended to `queue`; `getLogAsync(nLines)` trims `queue` to the
 * `max` most recent records and answers the last `nLines` of them formatted as
 * text, remembering the answer in `cache`.
 */
module InMemoryLogger {
  import opened Wrappers

  /** A log record as winston hands it to the transport. */
  datatype LogInfo = LogInfo(timestamp: string, level: string, labelName: string, message: string)

  const DefaultMax: int := 100

  /** `timestamp level [label] message`. */
  function FormatLine(l: LogInfo): string
  {
    l.timestamp + " " + l.level + " [" + l.labelName + "] " + l.message
  }

  function FormatAll(records: seq<LogInfo>): (lines: seq<string>)
    ensures |lines| == |records|
  {
    seq(|records|, i requires 0 <= i < |records| => FormatLine(records[i]))
  }

  /** JavaScript `q.slice(start)`: a negative start counts from the end, and is clamped at 0. */
  function SliceFrom<T>(q: seq<T>, start: int): seq<T>
  {
    var from := if start < 0 then (if |q| + start < 0 then 0 else |q| + start)
                else if start > |q| then |q| else start;
    q[from..]
  }

  /** The `max` most recent records of `q`, oldest first: what the trimming loop leaves. */
  function KeepLast<T>(q: seq<T>, max: nat): (r: seq<T>)
    ensures |r| == if |q| <= max then |q| else max
    ensures r == q[|q| - |r|..]
  {
    if |q| <= max then q else q[|q| - max..]
  }

  /** `nLines` is first clamped to `max`. */
  function Clamp(nLines: int, max: int): int
  {
    if nLines > max then max else nLines
  }

  /**
   * The records `getLogAsync` is meant to answer for `n` lines: all of them when
   * `n` reaches the queue length, otherwise the slice the source computes.
   */
  function RecentRecords<T>(q: seq<T>, n: int): seq<T>
  {
    if n >= |q| then q else SliceFrom(q, |q| - n)
  }

  /** For 0 <= n the answer is exactly the last min(n, |q|) records, in order. */
  lemma RecentRecordsAreLastN<T>(q: seq<T>, n: int)
    requires n >= 0
    ensures var r := RecentRecords(q, n);
      |r| == (if n <= |q| then n else |q|) && r == q[|q| - |r|..]
  {
  }

  /** A negative request answers nothing: the slice starts past the end of the queue. */
  lemma NegativeRequestIsEmpty<T>(q: seq<T>, n: int)
    requires n < 0
    ensures RecentRecords(q, n) == []
  {
  }

  /**
   * As written, both branches of `getLogAsync` take `queue.slice(length - nLines)`;
   * for nLines beyond the queue length that start is negative, so the slice starts
   * at max(2 * length - nLines, 0) and drops records from the front.
   */
  lemma SliceAsWrittenBeyondLength<T>(q: seq<T>, n: int)
    requires n > |q|
    ensures SliceFrom(q, |q| - n) == q[(if 2 * |q| - n < 0 then 0 else 2 * |q| - n)..]
  {
  }

  /** Up to the queue length the slice as written is the intended answer. */
  lemma SliceAsWrittenAgrees<T>(q: seq<T>, n: int)
    requires n <= |q|
    ensures SliceFrom(q, |q| - n) == RecentRecords(q, n)
    ensures n >= 0 ==> SliceFrom(q, |q| - n) == q[|q| - n..]
  {
  }

  /** Three records and a request for five: the slice as written answers only the last two. */
  lemma SliceAsWrittenDropsRecords(a: LogInfo, b: LogInfo, c: LogInfo)
    ensures SliceFrom([a, b, c], 3 - 5) == [b, c]
    ensures RecentRecords([a, b, c], 5) == [a, b, c]
  {
    assert [a, b, c][1..] == [b, c];
  }

  class InMemoryLogTransport {
    var queue: seq<LogInfo>
    var cache: seq<string>
    var max: int
    var lock: bool
    var level: Option<string>

    /** `max` is 100 unless `opts.max` is given, non-zero and numeric; the level comes from opts. */
    constructor (optsMax: Option<int>, optsLevel: Option<string>)
      ensures max == if optsMax.Some? && optsMax.value != 0 then optsMax.value else DefaultMax
      ensures level == optsLevel
      ensures queue == [] && cache == [] && !lock
    {
      max := DefaultMax;
      lock := false;
      if optsMax.Some? && optsMax.value != 0 {
        max := optsMax.value;
      }
      level := optsLevel;
      queue := [];
      cache := [];
    }

    /** Append one record at the end of the queue; nothing is trimmed here. */
    method Log(info: LogInfo)
      modifies this
      ensures queue == old(queue) + [info]
      ensures cache == old(cache) && max == old(max) && lock == old(lock) && level == old(level)
    {
      queue := queue + [info];
    }

    /**
     * Answer formatted records from the end of the queue. While `lock` is set the
     * previous answer is returned and nothing changes. Otherwise the queue is
     * trimmed from the front to the `max` most recent records, and both branches
     * answer (and cache) `queue.slice(queue.length - nLines)`: the last `nLines`
     * records up to the queue length (`SliceAsWrittenAgrees`), fewer beyond it
     * (`SliceAsWrittenBeyondLength`).
     */
    method GetLogAsync(nLines: int) returns (lines: seq<string>)
      requires max >= 0
      modifies this
      ensures max == old(max) && level == old(level)
      ensures old(lock) ==> lines == cache == old(cache) && queue == old(queue) && lock
      ensures !old(lock) ==>
        && !lock
        && queue == KeepLast(old(queue), max)
        && lines == cache == FormatAll(SliceFrom(queue, |queue| - Clamp(nLines, max)))
    {
      if lock {
        lines := cache;
        return;
      }
      lock := true;
      var n := nLines;
      if n > max {
        n := max;
      }
      ghost var q0 := queue;
      ghost var dropped := 0;
      while |queue| > max
        invariant 0 <= dropped <= |q0|
        invariant queue == q0[dropped..]
        invariant dropped <= (if |q0| > max then |q0| - max else 0)
        invariant max == old(max) && level == old(level)
      {
        queue := queue[1..];
        dropped := dropped + 1;
      }
      assert queue == KeepLast(q0, max);
      assert n == Clamp(nLines, max);
      if n >= |queue| {
        cache := FormatAll(SliceFrom(queue, |queue| - n));
        lines := cache;
        lock := false;
        return;
      }
      cache := FormatAll(SliceFrom(queue, |queue| - n));
      lines := cache;
      lock := false;
    }
  }
}
