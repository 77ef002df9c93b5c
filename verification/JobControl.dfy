/**
 The controls of one job inside a worker's VM: the instruction hook with its budget, deadline and
 cancel flag, and the log lines a job may leave.
 */
module JobControl {
  import opened Wrappers
  import opened Endings
  import opened Bytes

  const MAX_LOG_LINES: nat := 32
  const MAX_LOG_BYTES: nat := 512

  datatype Line = Line(level: Text, message: seq<byte>)

  /** How many instructions lie between two firings of the hook. */
  function InstructionStep(limit: u64): (step: u64)
    ensures 1000 <= step <= 1_000_000
    ensures step > 1000 ==> 10 * step <= limit
    ensures step < 1_000_000 ==> limit < 10 * (step + 1)
  {
    var tenth := limit / 10;
    if tenth < 1000 then 1000 else if tenth > 1_000_000 then 1_000_000 else tenth
  }

  /** Addition of 64-bit counters, held at the largest. */
  function SaturatingAdd(a: u64, b: u64): u64 {
    if a + b < U64_LIMIT then a + b else U64_LIMIT - 1
  }

  /** Why the hook stops a job, if it does. A cancel counts before a deadline, a deadline before the budget. */
  function Stop(cancelled: bool, late: bool, used: u64, limit: u64): Option<Ending> {
    if cancelled then Some(Cancelled)
    else if late then Some(Timeout)
    else if limit > 0 && used > limit then Some(Budget)
    else None
  }

  /** A UTF-8 string may be cut at `n`: there is no continuation byte there. */
  predicate IsCharBoundary(s: seq<byte>, n: nat) {
    n <= |s| && (n < |s| ==> !Continuation(s[n]))
  }

  class JobCtl {
    const limit: u64
    const step: u64
    var deadline: Option<nat>
    var used: u64
    var cancel: bool
    var logs: seq<Line>
    var dropped: nat

    constructor (limit: u64)
      ensures this.limit == limit && step == InstructionStep(limit)
      ensures deadline == None && used == 0 && !cancel && logs == [] && dropped == 0
    {
      this.limit, step := limit, InstructionStep(limit);
      deadline, used, cancel, logs, dropped := None, 0, false, [], 0;
    }

    /** What `run` does first: nothing of the job before is left, not even a cancel. */
    method Begin(deadline: Option<nat>)
      modifies this
      ensures this.deadline == deadline && used == 0 && !cancel && logs == [] && dropped == 0
    {
      cancel := false;
      this.deadline := deadline;
      used, logs, dropped := 0, [], 0;
    }

    /** The stdin reader's part. */
    method RequestCancel()
      modifies this`cancel
      ensures cancel
    {
      cancel := true;
    }

    /** One firing of the hook: charged unless it stops the job for another reason. */
    method Fire(now: nat) returns (stop: Option<Ending>)
      modifies this`used
      ensures var late := deadline.Some? && now >= deadline.value;
              && used == (if cancel || late then old(used) else SaturatingAdd(old(used), step))
              && stop == Stop(cancel, late, used, limit)
              && (stop == Some(Cancelled) <==> cancel)
              && (stop == Some(Timeout) <==> !cancel && late)
              && (stop == Some(Budget) <==> !cancel && !late && limit > 0 && old(used) + step > limit && limit < U64_LIMIT - 1)
              && (stop == None <==> !cancel && !late && !(limit > 0 && old(used) + step > limit && limit < U64_LIMIT - 1))
    {
      if cancel {
        return Some(Cancelled);
      }
      if deadline.Some? && now >= deadline.value {
        return Some(Timeout);
      }
      used := SaturatingAdd(used, step);
      if limit > 0 && used > limit {
        return Some(Budget);
      }
      return None;
    }

    /** A log line is kept, or dropped and counted. Cutting a message inside a character panics. */
    method Log(level: Text, message: Text) returns (panicked: bool)
      modifies this`logs, this`dropped
      ensures Journal(logs, dropped, panicked) == LogOne(Journal(old(logs), old(dropped), false), Line(level, message))
      ensures panicked == Panics(|old(logs)|, message)
    {
      if |logs| >= MAX_LOG_LINES {
        dropped := dropped + 1;
        return false;
      }
      if |message| > MAX_LOG_BYTES && !IsCharBoundary(message, MAX_LOG_BYTES) {
        return true;
      }
      var kept := if |message| > MAX_LOG_BYTES then message[..MAX_LOG_BYTES] else message;
      logs := logs + [Line(level, kept)];
      return false;
    }

    /** The lines of the job, and one more that says how many were dropped. */
    method TakeLogs() returns (lines: seq<Line>, more: Option<nat>)
      modifies this`logs
      ensures lines == old(logs) && logs == []
      ensures more == if dropped > 0 then Some(dropped) else None
    {
      more := if dropped > 0 then Some(dropped) else None;
      lines := logs;
      logs := [];
    }
  }

  // ----------------------------------------------------------------- the budget

  /** What the counter stands at after `n` firings that stopped nothing else. */
  function UsedAfter(step: u64, n: nat): u64 {
    if n == 0 then 0 else SaturatingAdd(UsedAfter(step, n - 1), step)
  }

  lemma {:induction false} UsedIsProduct(step: u64, n: nat)
    ensures UsedAfter(step, n) == if n * step < U64_LIMIT then n * step else U64_LIMIT - 1
    decreases n
  {
    if n > 0 {
      UsedIsProduct(step, n - 1);
      assert n * step == (n - 1) * step + step;
    }
  }

  /**
   A budget below the largest counter value stops a job at exactly one firing, the first whose charge
   is over it: never before the budget is used up, and never more than one step late. The largest
   value stops nothing.
   */
  lemma BudgetStopsOnTime(limit: u64, n: nat)
    requires limit > 0
    ensures var step := InstructionStep(limit);
            && (limit < U64_LIMIT - 1 ==> (Stop(false, false, UsedAfter(step, n), limit) == Some(Budget) <==> n * step > limit))
            && (limit < U64_LIMIT - 1 && n == limit / step + 1 ==> limit < n * step <= limit + step)
            && (limit == U64_LIMIT - 1 ==> Stop(false, false, UsedAfter(step, n), limit) == None)
  {
    var step := InstructionStep(limit);
    UsedIsProduct(step, n);
    if n == limit / step + 1 {
      QuotientNext(limit, step);
    }
  }

  lemma QuotientNext(limit: nat, step: nat)
    requires step > 0
    ensures limit < (limit / step + 1) * step <= limit + step
  {
    var q := limit / step;
    assert limit == q * step + limit % step;
    assert (q + 1) * step == q * step + step;
  }

  // -------------------------------------------------------------- the log lines

  /** Whether a message would be cut inside one of its characters. */
  predicate Panics(kept: nat, message: seq<byte>) {
    kept < MAX_LOG_LINES && BadlyCut(message)
  }

  function Cut(message: seq<byte>): seq<byte> {
    if |message| > MAX_LOG_BYTES then message[..MAX_LOG_BYTES] else message
  }

  function KeptLogs(logs: seq<Line>, level: Text, message: seq<byte>): seq<Line> {
    if |logs| >= MAX_LOG_LINES then logs else logs + [Line(level, Cut(message))]
  }

  /** What a job's log calls leave: the lines kept, how many were dropped, and whether a call panicked. */
  datatype Journal = Journal(logs: seq<Line>, dropped: nat, panicked: bool)

  /** One call. */
  function LogOne(j: Journal, call: Line): Journal {
    if Panics(|j.logs|, call.message) then j.(panicked := true)
    else if |j.logs| >= MAX_LOG_LINES then j.(dropped := j.dropped + 1)
    else j.(logs := KeptLogs(j.logs, call.level, call.message))
  }

  /** One call after the other, as far as the first that panics. */
  function LogAll(j: Journal, calls: seq<Line>): Journal
    decreases |calls|
  {
    if calls == [] || j.panicked then j else LogAll(LogOne(j, calls[0]), calls[1..])
  }

  function Min(a: nat, b: nat): nat {
    if a < b then a else b
  }

  /** The message is cut, and the cut falls inside a character. */
  predicate BadlyCut(message: seq<byte>) {
    |message| > MAX_LOG_BYTES && !IsCharBoundary(message, MAX_LOG_BYTES)
  }

  /** How many of the calls are kept as lines if nothing stops them. */
  function Room(logs: seq<Line>, calls: seq<Line>): nat {
    Min(|calls|, if |logs| < MAX_LOG_LINES then MAX_LOG_LINES - |logs| else 0)
  }

  /** The first of the first `n` calls that panics, or `n`. */
  function FirstBad(calls: seq<Line>, n: nat): (k: nat)
    requires n <= |calls|
    ensures k <= n && (k < n ==> BadlyCut(calls[k].message)) && forall i :: 0 <= i < k ==> !BadlyCut(calls[i].message)
    decreases n
  {
    if n == 0 || BadlyCut(calls[0].message) then 0 else 1 + FirstBad(calls[1..], n - 1)
  }

  function CutLines(calls: seq<Line>): (lines: seq<Line>)
    ensures |lines| == |calls|
    ensures forall i :: 0 <= i < |calls| ==>
                          && lines[i].level == calls[i].level && lines[i].message <= calls[i].message
                          && |lines[i].message| == Min(|calls[i].message|, MAX_LOG_BYTES)
  {
    seq(|calls|, i requires 0 <= i < |calls| => Line(calls[i].level, Cut(calls[i].message)))
  }

  /**
   Of any calls, those that find room are kept in order, each cut to 512 bytes, up to the first that
   would be cut inside a character: that one panics. If there is none, no call panics, and the rest
   are counted as dropped.
   */
  lemma {:induction false} FirstLinesAreKept(j: Journal, calls: seq<Line>)
    requires |j.logs| <= MAX_LOG_LINES && !j.panicked
    ensures var n := Room(j.logs, calls);
            var k := FirstBad(calls, n);
            LogAll(j, calls) == Journal(j.logs + CutLines(calls[..k]), if k < n then j.dropped else j.dropped + |calls| - n, k < n)
    decreases |calls|
  {
    hide CutLines, BadlyCut, Cut, IsCharBoundary;
    NoLines(j.logs, calls);
    if calls != [] && Room(j.logs, calls) == 0 {
      NoLines(j.logs, calls[1..]);
      FirstLinesAreKept(LogOne(j, calls[0]), calls[1..]);
    } else if calls != [] && !BadlyCut(calls[0].message) {
      var k := FirstBad(calls[1..], Room(j.logs, calls) - 1);
      FirstLinesAreKept(LogOne(j, calls[0]), calls[1..]);
      FirstLine(j.logs, calls, k);
    }
  }

  lemma NoLines(logs: seq<Line>, calls: seq<Line>)
    ensures logs + CutLines(calls[..0]) == logs
  {
  }

  lemma FirstLine(logs: seq<Line>, calls: seq<Line>, k: nat)
    requires k < |calls| && |logs| < MAX_LOG_LINES
    ensures logs + CutLines(calls[..k + 1]) == KeptLogs(logs, calls[0].level, calls[0].message) + CutLines(calls[1..][..k])
  {
    hide Cut;
    var lines, first := CutLines(calls[1..][..k]), Line(calls[0].level, Cut(calls[0].message));
    assert CutLines(calls[..k + 1]) == [first] + lines;
    assert logs + ([first] + lines) == logs + [first] + lines;
  }

  /** A cut of UTF-8 text is UTF-8 exactly if it falls between characters: what is kept is text, and nothing else panics. */
  lemma {:induction false} CutIsText(s: seq<byte>, n: nat)
    requires IsUtf8(s) && n <= |s|
    ensures IsUtf8(s[..n]) <==> IsCharBoundary(s, n)
    decreases |s|
  {
    if n == 0 {
      FirstIsNoContinuation(s);
    } else {
      var k := Utf8Step(s);
      StepBehind(s, n);
      if n >= k {
        CutIsText(s[k..], n - k);
        assert s[..n][k..] == s[k..][..n - k];
        assert n < |s| ==> s[k..][n - k] == s[n];
      }
    }
  }

  lemma FirstIsNoContinuation(s: seq<byte>)
    requires IsUtf8(s)
    ensures s != [] ==> !Continuation(s[0])
  {
  }

  /** The first character of a cut text: whole if the cut is behind it, and broken if the cut is inside it. */
  lemma StepBehind(s: seq<byte>, n: nat)
    requires IsUtf8(s) && 0 < n <= |s|
    ensures 1 <= Utf8Step(s) <= |s|
    ensures n >= Utf8Step(s) ==> Utf8Step(s[..n]) == Utf8Step(s)
    ensures n < Utf8Step(s) ==> Utf8Step(s[..n]) == 0 && Continuation(s[n])
  {
  }

  /** A message can make the call panic although it is valid UTF-8: 511 letters, then a two-byte one. */
  lemma LongMessageMayPanic()
    ensures exists m: Text :: Panics(0, m)
  {
    var a := seq(511, i => 97);
    var m := a + [0xC3, 0xA9];
    LettersThen(a, [0xC3, 0xA9]);
    assert Utf8Step([0xC3, 0xA9]) == 2 && IsUtf8([0xC3, 0xA9][2..]);
    assert IsUtf8(m);
    var t: Text := m;
    assert Panics(0, t);
  }

  lemma {:induction false} LettersThen(a: seq<byte>, tail: seq<byte>)
    requires (forall i :: 0 <= i < |a| ==> a[i] == 97)
    ensures IsUtf8(a + tail) == IsUtf8(tail)
    decreases |a|
  {
    if a == [] {
      assert a + tail == tail;
    } else {
      assert (a + tail)[1..] == a[1..] + tail;
      LettersThen(a[1..], tail);
    }
  }
}
