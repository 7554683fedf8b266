/** The buffering data handler and the command encoder of the RESP transport. */
module RespStream {
  import opened Wrappers
  import opened Resp
  import opened RespProofs

  // ------------------------------------------------------------------ the data handler

  /** `Settled(None)` is the null every failure resolves to. */
  datatype Outcome = Waiting | Settled(replies: Option<seq<Reply>>)

  function Verdict(parsed: Parsed, password: bool): Outcome {
    match parsed
    case Incomplete => Waiting
    case Broken => Settled(None)
    case Replies(rs) =>
      if exists r :: r in rs && r.Error? then Settled(None)
      else if password && rs != [] then Settled(Some(rs[1..]))
      else Settled(Some(rs))
  }

  class Connection {
    const expected: nat
    const password: bool
    var buf: array<byte>
    var outcome: Outcome

    constructor (expected: nat, password: bool)
      ensures this.expected == expected && this.password == password
      ensures buf[..] == [] && outcome == Waiting
    {
      this.expected, this.password := expected, password;
      buf, outcome := new byte[0], Waiting;
    }

    /** Only the first verdict counts. */
    method Finish(replies: Option<seq<Reply>>)
      modifies this`outcome
      ensures outcome == if old(outcome).Waiting? then Settled(replies) else old(outcome)
    {
      if outcome.Waiting? {
        outcome := Settled(replies);
      }
    }

    method OnData(chunk: bytes)
      modifies this
      ensures buf[..] == old(buf[..]) + chunk
      ensures outcome == if old(outcome).Waiting? then Verdict(Parse(buf[..], expected), password) else old(outcome)
    {
      var bytes := buf[..] + chunk;
      buf := new byte[|bytes|](i requires 0 <= i < |bytes| => bytes[i]);
      assert buf[..] == bytes;
      var parsed := ParseReplies(buf, expected);
      match parsed
      case Incomplete =>
      case Broken => Finish(None);
      case Replies(replies) =>
        if exists r :: r in replies && r.Error? {
          Finish(None);
        } else if password && replies != [] {
          Finish(Some(replies[1..]));
        } else {
          Finish(Some(replies));
        }
    }
  }

  /** The outcome of a connection that receives these chunks one by one. */
  function OutcomeAfter(chunks: seq<bytes>, expected: nat, password: bool): Outcome {
    if chunks == [] then Waiting
    else
      var before := OutcomeAfter(chunks[..|chunks| - 1], expected, password);
      if before.Waiting? then Verdict(Parse(Glued(chunks), expected), password) else before
  }

  /** A connection fed chunk by chunk ends in that outcome, holding all the bytes it was sent. */
  method Receive(chunks: seq<bytes>, expected: nat, password: bool) returns (c: Connection)
    ensures c.buf[..] == Glued(chunks) && c.outcome == OutcomeAfter(chunks, expected, password)
  {
    c := new Connection(expected, password);
    for i := 0 to |chunks|
      invariant c.expected == expected && c.password == password
      invariant c.buf[..] == Glued(chunks[..i]) && c.outcome == OutcomeAfter(chunks[..i], expected, password)
      invariant fresh(c)
    {
      assert chunks[..i + 1][..i] == chunks[..i];
      c.OnData(chunks[i]);
    }
    assert chunks[..|chunks|] == chunks;
  }

  function Glued(chunks: seq<bytes>): bytes {
    if chunks == [] then [] else Glued(chunks[..|chunks| - 1]) + chunks[|chunks| - 1]
  }

  /** The outcome depends on the bytes received, not on how they were cut into chunks. */
  lemma {:induction false} ChunksDoNotMatter(chunks: seq<bytes>, expected: nat, password: bool)
    requires expected > 0
    ensures OutcomeAfter(chunks, expected, password) == Verdict(Parse(Glued(chunks), expected), password)
  {
    if chunks != [] {
      var front := chunks[..|chunks| - 1];
      ChunksDoNotMatter(front, expected, password);
      if !Parse(Glued(front), expected).Incomplete? {
        VerdictIsStable(Glued(front), chunks[|chunks| - 1], expected);
      }
    }
  }

  /**
   * Well-formed replies settle a connection when their last byte has arrived, and not before: with nothing
   * if one of them is an error, else with all of them but the reply to the password.
   */
  lemma DeliveredOnTheLastByte(rs: seq<Reply>, chunks: seq<bytes>, rest: bytes, password: bool)
    requires rs != [] && AllWellFormed(rs)
    requires Glued(chunks) <= EncodeAll(rs) + rest
    ensures OutcomeAfter(chunks, |rs|, password) ==
      if |Glued(chunks)| < |EncodeAll(rs)| then Waiting
      else if exists r :: r in rs && r.Error? then Settled(None)
      else if password then Settled(Some(rs[1..]))
      else Settled(Some(rs))
  {
    var got, all := Glued(chunks), EncodeAll(rs);
    ChunksDoNotMatter(chunks, |rs|, password);
    if |got| < |all| {
      assert got == all[..|got|];
      StrictPrefixIsIncomplete(rs, |got|);
    } else {
      assert got == all + got[|all|..];
      RoundTrip(rs, got[|all|..]);
    }
  }

  // ------------------------------------------------------------------ encodeCommand

  function BulkBytes(data: bytes): bytes { Line(DOLLAR, Digits(|data|)) + (data + CRLF) }

  function BulkParts(args: seq<bytes>): (parts: seq<bytes>)
    ensures |parts| == |args| && forall i :: 0 <= i < |parts| ==> parts[i] == BulkBytes(args[i])
  {
    seq(|args|, i requires 0 <= i < |args| => BulkBytes(args[i]))
  }

  /** An array of bulk strings. */
  function CommandBytes(args: seq<bytes>): (out: bytes)
    ensures |out| > 0
  {
    Line(STAR, Digits(|args|)) + Concat(BulkParts(args), 0)
  }

  method EncodeCommand(args: seq<bytes>) returns (out: bytes)
    ensures out == CommandBytes(args)
  {
    out := Line(STAR, Digits(|args|));
    ghost var parts := BulkParts(args);
    for i := 0 to |args|
      invariant out + Concat(parts, i) == CommandBytes(args)
    {
      ghost var before := out;
      out := out + (Line(DOLLAR, Digits(|args[i]|)) + (args[i] + CRLF));
      assert out + Concat(parts, i + 1) == before + (parts[i] + Concat(parts, i + 1));
    }
    assert out + [] == out;
  }

  function CommandParts(commands: seq<seq<bytes>>): (parts: seq<bytes>)
    ensures |parts| == |commands| && forall i :: 0 <= i < |parts| ==> parts[i] == CommandBytes(commands[i])
  {
    seq(|commands|, i requires 0 <= i < |commands| => CommandBytes(commands[i]))
  }

  function Pipeline(commands: seq<seq<bytes>>): bytes { Concat(CommandParts(commands), 0) }

  // ------------------------------------------------------------------ what lies at one place is unique

  lemma DigitsValue(text: bytes, n: nat)
    requires text == Digits(n)
    ensures ValueOf(text, 0, |text|) == Some(n)
  {
    DigitsRead(text, 0, n);
  }

  lemma DigitsDetermine(n: nat, m: nat)
    requires Digits(n) == Digits(m)
    ensures n == m
  {
    var text := Digits(n);
    DigitsValue(text, n);
    DigitsValue(text, m);
  }

  lemma OneLineAt(buf: bytes, off: nat, kind: byte, s: bytes, t: bytes)
    requires LiesAt(buf, off, Line(kind, s)) && LiesAt(buf, off, Line(kind, t))
    requires SingleLine(s) && SingleLine(t) && kind != CR
    ensures s == t
  {
    FindsEnd(buf, off, kind, s);
    FindsEnd(buf, off, kind, t);
  }

  lemma OneCountAt(buf: bytes, off: nat, kind: byte, n: nat, m: nat)
    requires LiesAt(buf, off, Line(kind, Digits(n))) && LiesAt(buf, off, Line(kind, Digits(m))) && kind != CR
    ensures n == m
  {
    SignedRead(n);
    SignedRead(m);
    OneLineAt(buf, off, kind, Digits(n), Digits(m));
    DigitsDetermine(n, m);
  }

  lemma OneBulkAt(buf: bytes, off: nat, s: bytes, t: bytes)
    requires LiesAt(buf, off, BulkBytes(s)) && LiesAt(buf, off, BulkBytes(t))
    ensures s == t
  {
    LiesApart(buf, off, Line(DOLLAR, Digits(|s|)), s + CRLF);
    LiesApart(buf, off, Line(DOLLAR, Digits(|t|)), t + CRLF);
    OneCountAt(buf, off, DOLLAR, |s|, |t|);
    var start := off + |Line(DOLLAR, Digits(|s|))|;
    LiesApart(buf, start, s, CRLF);
    LiesApart(buf, start, t, CRLF);
  }

  lemma {:induction false} OneListAt(buf: bytes, off: nat, a: seq<bytes>, b: seq<bytes>, k: nat)
    requires |a| == |b| && k <= |a|
    requires LiesAt(buf, off, Concat(BulkParts(a), k)) && LiesAt(buf, off, Concat(BulkParts(b), k))
    ensures forall i :: k <= i < |a| ==> a[i] == b[i]
    ensures |Concat(BulkParts(a), k)| == |Concat(BulkParts(b), k)|
    decreases |a| - k
  {
    if k < |a| {
      LiesApart(buf, off, BulkBytes(a[k]), Concat(BulkParts(a), k + 1));
      LiesApart(buf, off, BulkBytes(b[k]), Concat(BulkParts(b), k + 1));
      OneBulkAt(buf, off, a[k], b[k]);
      OneListAt(buf, off + |BulkBytes(a[k])|, a, b, k + 1);
    }
  }

  lemma OneCommandAt(buf: bytes, off: nat, a: seq<bytes>, b: seq<bytes>)
    requires LiesAt(buf, off, CommandBytes(a)) && LiesAt(buf, off, CommandBytes(b))
    ensures a == b
  {
    LiesApart(buf, off, Line(STAR, Digits(|a|)), Concat(BulkParts(a), 0));
    LiesApart(buf, off, Line(STAR, Digits(|b|)), Concat(BulkParts(b), 0));
    OneCountAt(buf, off, STAR, |a|, |b|);
    OneListAt(buf, off + |Line(STAR, Digits(|a|))|, a, b, 0);
  }

  lemma OneCommandAhead(buf: bytes, off: nat, a: seq<bytes>, b: seq<bytes>, restA: bytes, restB: bytes)
      returns (next: nat)
    requires LiesAt(buf, off, CommandBytes(a) + restA) && LiesAt(buf, off, CommandBytes(b) + restB)
    requires |CommandBytes(a) + restA| == |CommandBytes(b) + restB|
    ensures a == b && LiesAt(buf, next, restA) && LiesAt(buf, next, restB) && |restA| == |restB|
  {
    LiesApart(buf, off, CommandBytes(a), restA);
    LiesApart(buf, off, CommandBytes(b), restB);
    OneCommandAt(buf, off, a, b);
    next := off + |CommandBytes(a)|;
  }

  lemma {:induction false} OnePipelineAt(
      buf: bytes, off: nat, a: seq<seq<bytes>>, b: seq<seq<bytes>>, partsA: seq<bytes>, partsB: seq<bytes>, k: nat)
    requires |partsA| == |a| && forall i :: 0 <= i < |a| ==> partsA[i] == CommandBytes(a[i])
    requires |partsB| == |b| && forall i :: 0 <= i < |b| ==> partsB[i] == CommandBytes(b[i])
    requires k <= |a| && k <= |b|
    requires LiesAt(buf, off, Concat(partsA, k)) && LiesAt(buf, off, Concat(partsB, k))
    requires |Concat(partsA, k)| == |Concat(partsB, k)|
    ensures |a| == |b| && forall i :: k <= i < |a| ==> a[i] == b[i]
    decreases |a| - k
  {
    if k < |a| && k < |b| {
      var next := OneCommandAhead(buf, off, a[k], b[k], Concat(partsA, k + 1), Concat(partsB, k + 1));
      OnePipelineAt(buf, next, a, b, partsA, partsB, k + 1);
    }
  }

  /** The bytes of a pipeline determine its commands, their number and every argument. */
  lemma PipelineIsUnambiguous(a: seq<seq<bytes>>, b: seq<seq<bytes>>)
    requires Pipeline(a) == Pipeline(b)
    ensures a == b
  {
    OnePipelineAt(Pipeline(a), 0, a, b, CommandParts(a), CommandParts(b), 0);
  }

  /** No command is the beginning of another: a receiver knows where each one ends. */
  lemma CommandsArePrefixFree(a: seq<bytes>, b: seq<bytes>, rest: bytes)
    requires CommandBytes(b) == CommandBytes(a) + rest
    ensures a == b && rest == []
  {
    OneCommandAt(CommandBytes(b), 0, a, b);
  }
}
