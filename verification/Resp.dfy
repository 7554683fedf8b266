/** The RESP2 transport of apps/web/src/lib/login-rate-limit.ts. */
module Resp {
  import opened Wrappers

  newtype byte = b: int | 0 <= b < 256
  type bytes = seq<byte>

  const CR: byte := 13
  const LF: byte := 10
  const CRLF: bytes := [CR, LF]
  const PLUS: byte := 43
  const MINUS: byte := 45
  const COLON: byte := 58
  const DOLLAR: byte := 36
  const STAR: byte := 42

  /** An integer reply whose text is not a decimal integer carries no value. */
  datatype Reply = Status(text: bytes) | Error(text: bytes) | Int(value: Option<int>) | Bulk(data: Option<bytes>)

  /** `Incomplete` is the null of the source and `Broken` the exception it throws. */
  datatype Parsed = Incomplete | Broken | Replies(replies: seq<Reply>)

  // ------------------------------------------------------------------ Buffer.indexOf and Number

  predicate CrlfAt(buf: bytes, i: nat) {
    i + 1 < |buf| && buf[i] == CR && buf[i + 1] == LF
  }

  function FindCrlf(buf: bytes, off: nat): (at: Option<nat>)
    ensures at.Some? ==> off <= at.value && at.value + 1 < |buf|
    decreases |buf| - off
  {
    if off + 1 >= |buf| then None
    else if CrlfAt(buf, off) then Some(off)
    else FindCrlf(buf, off + 1)
  }

  predicate IsDigit(b: byte) { 48 <= b <= 57 }

  /** The decimal value of the bytes of s from lo to hi, if they are all digits. */
  function ValueOf(s: bytes, lo: nat, hi: nat): Option<nat>
    requires hi <= |s|
  {
    if hi <= lo then Some(0)
    else
      var front := ValueOf(s, lo, hi - 1);
      if front.Some? && IsDigit(s[hi - 1]) then Some(10 * front.value + (s[hi - 1] - 48) as int) else None
  }

  /** `Number` on an optional sign and decimal digits; any other spelling has no value here. */
  function NumberOf(line: bytes): Option<int> {
    if line == [] then Some(0)
    else
      var start := if line[0] == MINUS || line[0] == PLUS then 1 else 0;
      var value := ValueOf(line, start, |line|);
      if |line| == start || value.None? then None
      else Some(if line[0] == MINUS then 0 - value.value else value.value)
  }

  // ------------------------------------------------------------------ parseReplies

  datatype Step = More | Bad | Got(reply: Reply, next: nat)

  /** What lies between the type byte and the end of its line. */
  function LineAt(buf: bytes, off: nat, nl: nat): bytes
    requires nl <= |buf|
  {
    if off < nl then buf[off + 1..nl] else []
  }

  /** One turn of the loop of parseReplies. */
  function ParseOne(buf: bytes, off: nat): (step: Step)
    requires off <= |buf|
    ensures step.Got? ==> off < step.next <= |buf|
  {
    var nl := FindCrlf(buf, off);
    if nl.None? then More else ParseLine(buf, nl.value + 2, buf[off], LineAt(buf, off, nl.value))
  }

  function ParseLine(buf: bytes, next: nat, kind: byte, line: bytes): (step: Step)
    requires next <= |buf|
    ensures step.Got? ==> next <= step.next <= |buf|
  {
    if kind == PLUS then Got(Status(line), next)
    else if kind == MINUS then Got(Error(line), next)
    else if kind == COLON then Got(Int(NumberOf(line)), next)
    else if kind == DOLLAR then ParseBulk(buf, next, NumberOf(line))
    else Bad
  }

  function ParseBulk(buf: bytes, off: nat, length: Option<int>): (step: Step)
    requires off <= |buf|
    ensures step.Got? ==> off <= step.next <= |buf|
  {
    if length == Some(-1) then Got(Bulk(None), off)
    else if length.None? || length.value < 0 then Bad
    else if |buf| < off + length.value + 2 then More
    else Got(Bulk(Some(buf[off..off + length.value])), off + length.value + 2)
  }

  /** The loop of parseReplies from any of its states. */
  function ParseLoop(buf: bytes, off: nat, replies: seq<Reply>, expected: nat): Parsed
    requires off <= |buf|
    decreases expected - |replies|
  {
    if |replies| >= expected then Replies(replies)
    else
      match ParseOne(buf, off)
      case More => Incomplete
      case Bad => Broken
      case Got(reply, next) => ParseLoop(buf, next, replies + [reply], expected)
  }

  /** What the source makes of a buffer from which it expects so many replies. */
  function Parse(buf: bytes, expected: nat): Parsed { ParseLoop(buf, 0, [], expected) }

  /** Reads one reply at `off`; the caller moves on to `step.next`. */
  method ReadReply(buf: array<byte>, off: nat) returns (step: Step)
    requires off <= buf.Length
    ensures step == ParseOne(buf[..], off)
  {
    var nl := FindCrlf(buf[..], off);
    if nl.None? {
      return More;
    }
    var kind := buf[off];
    var line := if off < nl.value then buf[off + 1..nl.value] else [];
    var next := nl.value + 2;
    if kind == PLUS {
      return Got(Status(line), next);
    } else if kind == MINUS {
      return Got(Error(line), next);
    } else if kind == COLON {
      return Got(Int(NumberOf(line)), next);
    } else if kind == DOLLAR {
      var length := NumberOf(line);
      if length == Some(-1) {
        return Got(Bulk(None), next);
      } else if length.None? || length.value < 0 {
        return Bad;
      } else if buf.Length < next + length.value + 2 {
        return More;
      }
      return Got(Bulk(Some(buf[next..next + length.value])), next + length.value + 2);
    } else {
      return Bad;
    }
  }

  method ParseReplies(buf: array<byte>, expected: nat) returns (result: Parsed)
    ensures result == Parse(buf[..], expected)
  {
    var replies: seq<Reply> := [];
    var off: nat := 0;
    while |replies| < expected
      invariant off <= buf.Length
      invariant ParseLoop(buf[..], 0, [], expected) == ParseLoop(buf[..], off, replies, expected)
      decreases expected - |replies|
    {
      var step := ReadReply(buf, off);
      match step
      case More => return Incomplete;
      case Bad => return Broken;
      case Got(reply, next) => replies, off := replies + [reply], next;
    }
    return Replies(replies);
  }
}
