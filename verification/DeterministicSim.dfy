/** The deterministic simulation test: publishers send a text with the tick and a running
    index, and one subscriber parses the texts, checks the order per publisher and stops
    the simulation when all messages have arrived. Counters have 32 bits. */
module DeterministicSim {
  import opened Arithmetic
  import opened Fifo
  import opened Wrappers

  const WORD: nat := 0x1_0000_0000
  const TICK_LIMIT: nat := 0x8000_0000_0000_0000
  const PERIOD: nat := 1_000_000
  const NAME: string := "TestMessage"

  // ------------------------------------------------------------- printing and parsing

  predicate IsDigit(c: char)
  {
    '0' <= c <= '9'
  }

  function DigitOf(n: nat): (c: char)
    requires n < 10
    ensures IsDigit(c) && ValueOf(c) == n
  {
    "0123456789"[n]
  }

  function ValueOf(c: char): nat
    requires IsDigit(c)
  {
    c as int - '0' as int
  }

  function Print(n: nat): string
  {
    if n < 10 then [DigitOf(n)] else Print(n / 10) + [DigitOf(n % 10)]
  }

  predicate AllDigits(s: string)
  {
    forall i :: 0 <= i < |s| ==> IsDigit(s[i])
  }

  function Value(s: string): nat
    requires AllDigits(s)
  {
    if s == [] then 0 else 10 * Value(s[..|s| - 1]) + ValueOf(s[|s| - 1])
  }

  lemma {:induction false} PrintedValue(n: nat)
    ensures Print(n) != [] && AllDigits(Print(n)) && Value(Print(n)) == n
  {
    if n >= 10 {
      PrintedValue(n / 10);
      assert Print(n)[..|Print(n)| - 1] == Print(n / 10);
    } else {
      assert Print(n)[..0] == [];
    }
  }

  function Pow10(k: nat): (p: nat)
    ensures p > 0
  {
    if k == 0 then 1 else 10 * Pow10(k - 1)
  }

  lemma TenTimes(b: nat, m: nat)
    ensures 10 * (b * m) == m * (10 * b)
  {
  }

  lemma DivTen(n: nat, b: nat)
    requires b > 0
    ensures n / (10 * b) == n / 10 / b
  {
    var q, r := n / 10, n % 10;
    var m, t := q / b, q % b;
    assert q == b * m + t;
    TenTimes(b, m);
    DivModUnique(n, 10 * b, m, 10 * t + r);
  }

  /** What is printed, digit by digit from the right. */
  lemma {:induction false} PrintedDigits(n: nat, k: nat)
    requires k < |Print(n)|
    ensures Print(n)[|Print(n)| - 1 - k] == "0123456789"[n / Pow10(k) % 10]
  {
    if n >= 10 {
      var rest := Print(n / 10);
      assert Print(n) == rest + [DigitOf(n % 10)];
      if k == 0 {
        assert Print(n)[|rest|] == DigitOf(n % 10);
      } else {
        PrintedDigits(n / 10, k - 1);
        assert Print(n)[|rest| - k] == rest[|rest| - 1 - (k - 1)];
        DivTen(n, Pow10(k - 1));
      }
    } else {
      assert k == 0 && n / Pow10(0) % 10 == n;
    }
  }

  /** There is no leading zero. */
  lemma {:induction false} NoLeadingZero(n: nat)
    ensures Print(n) != [] && (n > 0 ==> Print(n)[0] != '0')
  {
    if n >= 10 {
      NoLeadingZero(n / 10);
    }
  }

  predicate IsSpace(c: char)
  {
    c == ' ' || '\t' <= c <= '\r'
  }

  function SkipSpaces(s: string): string
  {
    if s != [] && IsSpace(s[0]) then SkipSpaces(s[1..]) else s
  }

  /** The length of the longest prefix of characters that satisfy `p`. */
  function Span(s: string, p: char -> bool): (n: nat)
    ensures n <= |s|
  {
    if s != [] && p(s[0]) then 1 + Span(s[1..], p) else 0
  }

  /** Extraction of one word: leading spaces are skipped. */
  function ReadWord(s: string): Option<(string, string)>
  {
    var t := SkipSpaces(s);
    var n := Span(t, c => !IsSpace(c));
    if n == 0 then None else Some((t[..n], t[n..]))
  }

  lemma {:induction false} SpanDigits(s: string)
    ensures AllDigits(s[..Span(s, IsDigit)])
  {
    if s != [] && IsDigit(s[0]) {
      SpanDigits(s[1..]);
      assert s[..Span(s, IsDigit)] == [s[0]] + s[1..][..Span(s[1..], IsDigit)];
    }
  }

  /** The value that extracting one number below `limit` stores, and what is left of the
      stream, if it has not failed: without a digit it stores 0 and fails, and a number that
      is too large stores the largest one and fails. */
  function ReadNumber(s: string, limit: nat): (nat, Option<string>)
    requires limit > 0
  {
    var t := SkipSpaces(s);
    var n := Span(t, IsDigit);
    SpanDigits(t);
    if n == 0 then (0, None)
    else if Value(t[..n]) >= limit then (limit - 1, None)
    else (Value(t[..n]), Some(t[n..]))
  }

  datatype Content = Content(name: string, tick: nat, index: nat)

  function Format(tick: nat, index: nat): string
  {
    NAME + " " + Print(tick) + " " + Print(index)
  }

  /** What the three variables hold after the extraction. A stream that has failed stores
      nothing any more, so the numbers keep the indeterminate values in `junk`. */
  function Parse(s: string, junk: Content): Content
  {
    match ReadWord(s)
    case None => Content("", junk.tick, junk.index)
    case Some((name, rest)) =>
      var (tick, afterTick) := ReadNumber(rest, TICK_LIMIT);
      match afterTick
      case None => Content(name, tick, junk.index)
      case Some(last) => Content(name, tick, ReadNumber(last, WORD).0)
  }

  lemma {:induction false} SpanOf(s: string, rest: string, p: char -> bool)
    requires forall i :: 0 <= i < |s| ==> p(s[i])
    requires rest == [] || !p(rest[0])
    ensures Span(s + rest, p) == |s|
    decreases |s|
  {
    if s != [] {
      assert (s + rest)[1..] == s[1..] + rest;
      SpanOf(s[1..], rest, p);
    } else {
      assert s + rest == rest;
    }
  }

  lemma ReadPrinted(n: nat, rest: string, limit: nat)
    requires n < limit && (rest == [] || IsSpace(rest[0]))
    ensures ReadNumber(" " + Print(n) + rest, limit) == (n, Some(rest))
  {
    PrintedValue(n);
    var s, t := " " + Print(n) + rest, Print(n) + rest;
    assert s[1..] == t && SkipSpaces(s) == SkipSpaces(t) == t;
    SpanOf(Print(n), rest, IsDigit);
    assert t[..|Print(n)|] == Print(n) && t[|Print(n)|..] == rest;
  }

  lemma ReadName(rest: string)
    requires rest != [] && IsSpace(rest[0])
    ensures ReadWord(NAME + rest) == Some((NAME, rest))
  {
    var t := NAME + rest;
    assert t[0] == 'T' && SkipSpaces(t) == t;
    SpanOf(NAME, rest, c => !IsSpace(c));
    assert t[..|NAME|] == NAME && t[|NAME|..] == rest;
  }

  /** The text of a message. */
  lemma MessageText(tick: nat, index: nat)
    ensures Format(tick, index) ==
              ['T', 'e', 's', 't', 'M', 'e', 's', 's', 'a', 'g', 'e', ' '] + Print(tick) + [' '] + Print(index)
  {
  }

  /** Parsing undoes printing, for every tick of 63 bits and every index of 32. */
  lemma ParseFormat(tick: nat, index: nat, junk: Content)
    requires tick < 0x8000_0000_0000_0000 && index < 0x1_0000_0000
    ensures Parse(Format(tick, index), junk) == Content(NAME, tick, index)
  {
    var tail := " " + Print(index);
    var rest := " " + Print(tick) + tail;
    assert Format(tick, index) == NAME + rest;
    ReadName(rest);
    ReadPrinted(tick, tail, TICK_LIMIT);
    assert " " + Print(index) + [] == tail;
    ReadPrinted(index, [], WORD);
  }

  // ----------------------------------------------------------------------- publishers

  class Publisher {
    const testSize: nat
    var messageIndex: nat

    constructor (testSize: nat)
      ensures this.testSize == testSize && messageIndex == 0
    {
      this.testSize := testSize;
      messageIndex := 0;
    }

    /** The message of this step carries the number of messages before it. */
    method Step(now: nat) returns (message: Option<string>)
      modifies this
      ensures messageIndex == if old(messageIndex) < testSize then old(messageIndex) + 1 else old(messageIndex)
      ensures message == if old(messageIndex) < testSize then Some(Format(now, old(messageIndex))) else None
    {
      message := None;
      if messageIndex < testSize {
        message := Some(Format(now, messageIndex));
        messageIndex := messageIndex + 1;
      }
    }
  }

  // ----------------------------------------------------------------------- subscriber

  datatype Sub = Sub(testSize: nat, indexes: seq<nat>, currentTick: nat, stops: nat, failures: nat)

  function NewSub(testSize: nat, publishers: nat): Sub
  {
    Sub(testSize, All(publishers, 0), 0, 0, 0)
  }

  /** The number of all messages. */
  function Total(testSize: nat, publishers: nat): nat
  {
    publishers * testSize
  }

  /** What the comparison of the 32-bit sum with the 32-bit product says. */
  predicate Complete(s: Sub)
  {
    Sum(s.indexes) % WORD == Total(s.testSize, |s.indexes|) % WORD
  }

  function Counted(s: Sub, p: nat): Sub
    requires p < |s.indexes|
  {
    var t := s.(indexes := s.indexes[p := (s.indexes[p] + 1) % WORD]);
    if Complete(t) then t.(stops := t.stops + 1) else t
  }

  predicate TickOk(current: nat, sent: nat)
  {
    current == sent || current + PERIOD == sent
  }

  /** A wrong name only fails, a wrong tick or index also ends the handling. */
  function Received(s: Sub, p: nat, message: string, junk: Content): Sub
    requires p < |s.indexes|
  {
    Checked(s, p, Parse(message, junk))
  }

  function Checked(s: Sub, p: nat, content: Content): Sub
    requires p < |s.indexes|
  {
    var t := if content.name == NAME then s else s.(failures := s.failures + 1);
    if TickOk(t.currentTick, content.tick) && t.indexes[p] == content.index then Counted(t, p)
    else t.(failures := t.failures + 1)
  }

  class Subscriber {
    const testSize: nat
    var indexes: seq<nat>
    var currentTick: nat
    ghost var stops: nat
    ghost var failures: nat

    ghost function Model(): Sub
      reads this
    {
      Sub(testSize, indexes, currentTick, stops, failures)
    }

    constructor (testSize: nat, publishers: nat)
      ensures Model() == NewSub(testSize, publishers)
    {
      this.testSize, indexes, currentTick := testSize, All(publishers, 0), 0;
      stops, failures := 0, 0;
    }

    /** The sum of the indexes in 32-bit arithmetic. */
    method Accumulate() returns (sum: nat)
      ensures sum == Sum(indexes) % WORD
    {
      sum := 0;
      for i := 0 to |indexes|
        invariant sum == Sum(indexes[..i]) % WORD
      {
        SumSnoc(indexes[..i], indexes[i]);
        assert indexes[..i + 1] == indexes[..i] + [indexes[i]];
        AddWords(Sum(indexes[..i]), indexes[i]);
        sum := (sum + indexes[i]) % WORD;
      }
      assert indexes[..|indexes|] == indexes;
    }

    method Step(now: nat)
      modifies this`currentTick
      ensures currentTick == now
    {
      currentTick := now;
    }

    /** `junk` is what the variables hold before. */
    method ReceiveMessage(p: nat, message: string, junk: Content)
      requires p < |indexes|
      modifies this
      ensures Model() == Received(old(Model()), p, message, junk)
      ensures var c := Parse(message, junk);
              var counts := (c.tick == currentTick || c.tick == currentTick + 1_000_000) && c.index == old(indexes)[p];
              && indexes == (if counts then old(indexes)[p := (old(indexes)[p] + 1) % 0x1_0000_0000] else old(indexes))
              && failures == old(failures) + (if c.name == "TestMessage" then 0 else 1) + (if counts then 0 else 1)
              && stops == old(stops) + (if counts && Complete(Model()) then 1 else 0)
      ensures currentTick == old(currentTick)
    {
      var content := Parse(message, junk);
      if content.name != NAME {
        failures := failures + 1;
      }
      if !TickOk(currentTick, content.tick) || indexes[p] != content.index {
        failures := failures + 1;
        return;
      }
      Count(p);
    }

    method Count(p: nat)
      requires p < |indexes|
      modifies this
      ensures Model() == Counted(old(Model()), p)
    {
      indexes := indexes[p := (indexes[p] + 1) % WORD];
      var sum := Accumulate();
      if sum == Total(testSize, |indexes|) % WORD {
        stops := stops + 1;
      }
    }
  }

  lemma AddWords(a: nat, b: nat)
    ensures (a % WORD + b) % WORD == (a + b) % WORD
  {
  }

  lemma {:induction false} SumSnoc(counts: seq<nat>, n: nat)
    ensures Sum(counts + [n]) == Sum(counts) + n
  {
    if counts != [] {
      assert (counts + [n])[1..] == counts[1..] + [n];
      SumSnoc(counts[1..], n);
    }
  }

  // ------------------------------------------------------------------------- the runs

  /** When a message was sent, and what the subscriber's last step had made its own tick
      when the message arrived. */
  datatype Times = Times(sent: nat, current: nat)

  /** The messages of every publisher arrive in the order of `schedule`; `counts` is how
      many of each have arrived before. */
  function Run(s: Sub, counts: seq<nat>, schedule: seq<nat>, times: seq<Times>, junk: Content): Sub
    requires |s.indexes| == |counts| && IsSchedule(schedule, |counts|) && |times| == |schedule|
    decreases |schedule|
  {
    if schedule == [] then s
    else
      var p := schedule[0];
      Run(Received(s.(currentTick := times[0].current), p, Format(times[0].sent, counts[p]), junk),
          counts[p := counts[p] + 1], schedule[1..], times[1..], junk)
  }

  /** The same without the texts. */
  function RunParsed(s: Sub, counts: seq<nat>, schedule: seq<nat>, times: seq<Times>): Sub
    requires |s.indexes| == |counts| && IsSchedule(schedule, |counts|) && |times| == |schedule|
    decreases |schedule|
  {
    if schedule == [] then s
    else
      var p := schedule[0];
      RunParsed(Checked(s.(currentTick := times[0].current), p, Content(NAME, times[0].sent, counts[p])),
                counts[p := counts[p] + 1], schedule[1..], times[1..])
  }

  /** The runtime delivers a message in the step it was sent in, or just before it. */
  predicate TimesOk(times: seq<Times>)
  {
    forall k :: 0 <= k < |times| ==> times[k].sent < TICK_LIMIT && TickOk(times[k].current, times[k].sent)
  }

  function Hit(sum: nat, target: nat): nat
  {
    if sum % WORD == target % WORD then 1 else 0
  }

  /** How often the sum is found complete while it grows from `from` by `n`. */
  function Hits(from: nat, n: nat, target: nat): nat
  {
    if n == 0 then 0 else Hits(from, n - 1, target) + Hit(from + n, target)
  }

  lemma {:induction false} HitsFirst(from: nat, n: nat, target: nat)
    ensures Hits(from, n + 1, target) == Hit(from + 1, target) + Hits(from + 1, n, target)
  {
    if n > 0 {
      HitsFirst(from, n - 1, target);
    }
  }

  predicate AllBelow(counts: seq<nat>, limit: nat)
  {
    forall i :: 0 <= i < |counts| ==> counts[i] <= limit
  }

  lemma ReceivedFormat(s: Sub, p: nat, tick: nat, index: nat, junk: Content)
    requires p < |s.indexes| && tick < TICK_LIMIT && index < WORD
    ensures Received(s, p, Format(tick, index), junk) == Checked(s, p, Content(NAME, tick, index))
  {
    ParseFormat(tick, index, junk);
  }

  /** The texts make no difference. */
  lemma {:induction false} RunIsParsed(s: Sub, counts: seq<nat>, schedule: seq<nat>, times: seq<Times>, limit: nat,
                                       junk: Content)
    requires |s.indexes| == |counts| && IsSchedule(schedule, |counts|) && |times| == |schedule| && TimesOk(times)
    requires AllBelow(Arrived(counts, schedule), limit) && limit < WORD
    ensures Run(s, counts, schedule, times, junk) == RunParsed(s, counts, schedule, times)
    decreases |schedule|
  {
    if schedule != [] {
      var p := schedule[0];
      var counts' := counts[p := counts[p] + 1];
      Growing(counts', schedule[1..], p);
      var t := s.(currentTick := times[0].current);
      ReceivedFormat(t, p, times[0].sent, counts[p], junk);
      var next := Checked(t, p, Content(NAME, times[0].sent, counts[p]));
      RunIsParsed(next, counts', schedule[1..], times[1..], limit, junk);
    }
  }

  /** For every interleaving of the publishers' streams: no check fails, the indexes are
      the numbers of messages that arrived, and stops are counted by `Hits`. */
  lemma {:induction false} RunCounts(s: Sub, schedule: seq<nat>, times: seq<Times>, target: nat)
    requires IsSchedule(schedule, |s.indexes|) && |times| == |schedule| && TimesOk(times)
    requires AllBelow(Arrived(s.indexes, schedule), s.testSize) && s.testSize < WORD
    requires target == Total(s.testSize, |s.indexes|)
    ensures var end := RunParsed(s, s.indexes, schedule, times);
            && end.failures == s.failures && end.indexes == Arrived(s.indexes, schedule)
            && end.stops == s.stops + Hits(Sum(s.indexes), |schedule|, target)
    decreases |schedule|
  {
    if schedule != [] {
      var p, sum := schedule[0], Sum(s.indexes);
      Growing(s.indexes[p := s.indexes[p] + 1], schedule[1..], p);
      var s' := CountsNext(s.(currentTick := times[0].current), p, times[0].sent, target);
      RunCounts(s', schedule[1..], times[1..], target);
      HitsFirst(sum, |schedule| - 1, target);
    }
  }

  lemma CountsNext(s: Sub, p: nat, sent: nat, target: nat) returns (s': Sub)
    requires p < |s.indexes| && s.indexes[p] < s.testSize < WORD && TickOk(s.currentTick, sent)
    requires target == Total(s.testSize, |s.indexes|)
    ensures s' == Checked(s, p, Content(NAME, sent, s.indexes[p]))
    ensures s'.testSize == s.testSize && s'.currentTick == s.currentTick && s'.failures == s.failures
    ensures s'.indexes == s.indexes[p := s.indexes[p] + 1] && Sum(s'.indexes) == Sum(s.indexes) + 1
    ensures s'.stops == s.stops + Hit(Sum(s.indexes) + 1, target) && target == Total(s'.testSize, |s'.indexes|)
  {
    SumUpdate(s.indexes, p);
    s' := Counted(s, p);
  }

  lemma {:induction false} Growing(counts: seq<nat>, schedule: seq<nat>, p: nat)
    requires IsSchedule(schedule, |counts|) && p < |counts|
    ensures Arrived(counts, schedule)[p] >= counts[p]
    decreases |schedule|
  {
    if schedule != [] {
      Growing(counts[schedule[0] := counts[schedule[0]] + 1], schedule[1..], p);
    }
  }

  // --------------------------------------------------------------- stopping exactly once

  lemma {:induction false} NoHits(from: nat, n: nat, target: nat)
    requires from + n < target <= from + WORD
    ensures Hits(from, n, target) == 0
  {
    if n > 0 {
      NoHits(from, n - 1, target);
      if (from + n) % WORD == target % WORD {
        SameRemainder(from + n, target);
        assert false;
      }
    }
  }

  lemma SameRemainder(a: nat, b: nat)
    requires a < b && a % WORD == b % WORD
    ensures a + WORD <= b
  {
    assert b - a == WORD * (b / WORD - a / WORD);
  }

  lemma TwoHits(total: nat)
    requires total > WORD
    ensures Hits(0, total, total) >= 2
  {
    HitsSplit(0, total - WORD, WORD - 1, total);
    assert (total - WORD) % WORD == total % WORD;
    assert Hits(0, total - WORD, total) >= 1;
    assert Hits(0, total, total) == Hits(0, total - 1, total) + 1;
  }

  lemma {:induction false} HitsSplit(from: nat, n: nat, m: nat, target: nat)
    ensures Hits(from, n + m, target) >= Hits(from, n, target)
  {
    if m > 0 {
      HitsSplit(from, n, m - 1, target);
      assert Hits(from, n + m, target) >= Hits(from, n + (m - 1), target);
    }
  }

  lemma HitsOnceIff(total: nat)
    ensures Hits(0, total, total) == 1 <==> 1 <= total <= WORD
  {
    if total > WORD {
      TwoHits(total);
    } else if total >= 1 {
      NoHits(0, total - 1, total);
    }
  }

  lemma FromStart(testSize: nat, publishers: nat, schedule: seq<nat>, times: seq<Times>, junk: Content)
    requires testSize < WORD && IsSchedule(schedule, publishers) && |times| == |schedule| && TimesOk(times)
    requires AllBelow(Arrived(All(publishers, 0), schedule), testSize)
    ensures var end := Run(NewSub(testSize, publishers), All(publishers, 0), schedule, times, junk);
            && end.failures == 0 && end.indexes == Arrived(All(publishers, 0), schedule)
            && end.stops == Hits(0, |schedule|, Total(testSize, publishers))
  {
    var s := NewSub(testSize, publishers);
    SumZero(publishers);
    RunIsParsed(s, s.indexes, schedule, times, testSize, junk);
    RunCounts(s, schedule, times, Total(testSize, publishers));
  }

  lemma SumZero(publishers: nat)
    ensures Sum(All(publishers, 0)) == 0
  {
    SumAll(publishers, 0);
  }

  /** All messages of all publishers have arrived, in any interleaving: no check has
      failed, every index equals the test size, and the simulation was stopped exactly once
      if and only if there was a message and there were no more than 2 to the 32. */
  lemma StopsExactlyOnceIff(testSize: nat, publishers: nat, schedule: seq<nat>, times: seq<Times>, junk: Content)
    requires testSize < WORD && publishers < WORD
    requires IsCompleteMerge(schedule, publishers, testSize) && |times| == |schedule| && TimesOk(times)
    ensures var end := Run(NewSub(testSize, publishers), All(publishers, 0), schedule, times, junk);
            && end.failures == 0 && end.indexes == All(publishers, testSize)
            && (end.stops == 1 <==> 1 <= publishers * testSize <= 0x1_0000_0000)
  {
    CompleteTotal(testSize, publishers, schedule);
    FromStart(testSize, publishers, schedule, times, junk);
    HitsOnceIff(|schedule|);
  }

  lemma CompleteTotal(testSize: nat, publishers: nat, schedule: seq<nat>)
    requires IsCompleteMerge(schedule, publishers, testSize)
    ensures |schedule| == Total(testSize, publishers) && AllBelow(Arrived(All(publishers, 0), schedule), testSize)
  {
    CompleteLength(schedule, publishers, testSize);
  }

  /** Until the last message no interleaving stops the simulation. */
  lemma NeverStopsEarly(testSize: nat, publishers: nat, schedule: seq<nat>, times: seq<Times>, junk: Content)
    requires testSize < WORD && publishers < WORD && Total(testSize, publishers) <= WORD
    requires IsSchedule(schedule, publishers) && |times| == |schedule| && TimesOk(times)
    requires AllBelow(Arrived(All(publishers, 0), schedule), testSize)
    requires |schedule| < Total(testSize, publishers)
    ensures var end := Run(NewSub(testSize, publishers), All(publishers, 0), schedule, times, junk);
            end.failures == 0 && end.stops == 0
  {
    FromStart(testSize, publishers, schedule, times, junk);
    NoHits(0, |schedule|, Total(testSize, publishers));
  }
}
