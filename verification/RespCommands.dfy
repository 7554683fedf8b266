/** What a server makes of the encoded commands: an array header, then as many bulk strings as it announces. */
module RespCommands {
  import opened Wrappers
  import opened Resp
  import opened RespProofs
  import opened RespStream

  datatype Read = Read(args: seq<bytes>, next: nat)

  /** Bulk strings one after the other, until there are n. */
  function ReadArgs(buf: bytes, off: nat, n: nat, got: seq<bytes>): (r: Option<Read>)
    requires off <= |buf|
    ensures r.Some? ==> off <= r.value.next <= |buf|
    decreases n - |got|
  {
    if |got| >= n then Some(Read(got, off))
    else
      var step := ParseOne(buf, off);
      if step.Got? && step.reply.Bulk? && step.reply.data.Some?
      then ReadArgs(buf, step.next, n, got + [step.reply.data.value])
      else None
  }

  datatype Header = Header(count: nat, next: nat)

  /** RESP2: "*" and the number of arguments on a line of its own. */
  function HeaderAt(buf: bytes, off: nat): (r: Option<Header>)
    requires off <= |buf|
    ensures r.Some? ==> off <= r.value.next <= |buf|
  {
    var nl := FindCrlf(buf, off);
    if nl.None? || buf[off] != STAR then None
    else
      var count := NumberOf(LineAt(buf, off, nl.value));
      if count.None? || count.value < 0 then None else Some(Header(count.value, nl.value + 2))
  }

  /** The header, and each argument as a bulk string. */
  function ReadCommand(buf: bytes, off: nat): (r: Option<Read>)
    requires off <= |buf|
    ensures r.Some? ==> off <= r.value.next <= |buf|
  {
    var header := HeaderAt(buf, off);
    if header.None? then None else ReadArgs(buf, header.value.next, header.value.count, [])
  }

  function Bulks(args: seq<bytes>): (rs: seq<Reply>)
    ensures |rs| == |args| && forall i :: 0 <= i < |args| ==> rs[i] == Bulk(Some(args[i]))
  {
    seq(|args|, i requires 0 <= i < |args| => Bulk(Some(args[i])))
  }

  lemma TakeOneMore<T>(xs: seq<T>, k: nat)
    requires k < |xs|
    ensures xs[..k] + [xs[k]] == xs[..k + 1]
  {
  }

  lemma OneMoreArg(buf: bytes, off: nat, n: nat, got: seq<bytes>, more: seq<bytes>, data: bytes, next: nat)
    requires off <= |buf| && |got| < n && ParseOne(buf, off) == Got(Bulk(Some(data)), next) && more == got + [data]
    ensures ReadArgs(buf, off, n, got) == ReadArgs(buf, next, n, more)
  {
  }

  lemma {:induction false} ArgsAreRead(buf: bytes, off: nat, args: seq<bytes>, rs: seq<Reply>, k: nat, end: nat)
    requires |rs| == |args| && forall i :: 0 <= i < |args| ==> rs[i] == Bulk(Some(args[i]))
    requires k <= |args| && ReadableTo(buf, off, rs, k, end)
    ensures ReadArgs(buf, off, |args|, args[..k]) == Some(Read(args, end))
    decreases |args| - k
  {
    if k == |args| {
      assert args[..k] == args;
    } else {
      var next := ParseOne(buf, off).next;
      ArgsAreRead(buf, next, args, rs, k + 1, end);
      TakeOneMore(args, k);
      OneMoreArg(buf, off, |args|, args[..k], args[..k + 1], args[k], next);
    }
  }

  lemma BulkCarries(data: bytes)
    ensures Carries(BulkBytes(data), Bulk(Some(data)))
  {
    EncodingCarries(Bulk(Some(data)));
    assert Encode(Bulk(Some(data))) == BulkBytes(data);
  }

  lemma BulksCarry(args: seq<bytes>, parts: seq<bytes>, rs: seq<Reply>)
    requires parts == BulkParts(args) && rs == Bulks(args)
    ensures forall i :: 0 <= i < |args| ==> Carries(parts[i], rs[i])
  {
    forall i | 0 <= i < |args| ensures Carries(parts[i], rs[i]) { BulkCarries(args[i]); }
  }

  lemma HeaderReads(buf: bytes, off: nat, n: nat, next: nat)
    requires LiesAt(buf, off, Line(STAR, Digits(n))) && next == off + |Line(STAR, Digits(n))|
    ensures HeaderAt(buf, off) == Some(Header(n, next))
  {
    CountReads(n);
    FindsEnd(buf, off, STAR, Digits(n));
  }

  lemma CountReads(n: nat)
    ensures NumberOf(Digits(n)) == Some(n) && SingleLine(Digits(n))
  {
    SignedRead(n);
    assert Signed(n) == Digits(n);
  }

  lemma ReadableIsBody(buf: bytes, off: nat, args: seq<bytes>, end: nat)
    requires ReadableTo(buf, off, Bulks(args), 0, end)
    ensures ReadArgs(buf, off, |args|, []) == Some(Read(args, end))
  {
    assert args[..0] == [];
    ArgsAreRead(buf, off, args, Bulks(args), 0, end);
  }

  lemma BodyReads(buf: bytes, off: nat, args: seq<bytes>, end: nat)
    requires LiesAt(buf, off, Concat(BulkParts(args), 0)) && end == off + |Concat(BulkParts(args), 0)|
    ensures ReadArgs(buf, off, |args|, []) == Some(Read(args, end))
  {
    BulksCarry(args, BulkParts(args), Bulks(args));
    PartsAreReadable(buf, off, BulkParts(args), Bulks(args), 0, end);
    ReadableIsBody(buf, off, args, end);
  }

  lemma PartsRead(buf: bytes, off: nat, args: seq<bytes>, head: bytes, body: bytes, next: nat, end: nat)
    requires head == Line(STAR, Digits(|args|)) && body == Concat(BulkParts(args), 0)
    requires LiesAt(buf, off, head) && LiesAt(buf, next, body) && next == off + |head| && end == next + |body|
    ensures ReadCommand(buf, off) == Some(Read(args, end))
  {
    HeaderReads(buf, off, |args|, next);
    BodyReads(buf, next, args, end);
    HeaderThenBody(buf, off, Header(|args|, next), Read(args, end));
  }

  lemma HeaderThenBody(buf: bytes, off: nat, header: Header, read: Read)
    requires off <= |buf| && HeaderAt(buf, off) == Some(header)
    requires ReadArgs(buf, header.next, header.count, []) == Some(read)
    ensures ReadCommand(buf, off) == Some(read)
  {
  }

  /** Wherever an encoded command lies, it is read as exactly its arguments, up to its last byte. */
  lemma CommandReads(buf: bytes, off: nat, args: seq<bytes>, end: nat)
    requires LiesAt(buf, off, CommandBytes(args)) && end == off + |CommandBytes(args)|
    ensures ReadCommand(buf, off) == Some(Read(args, end))
  {
    var head, body := Line(STAR, Digits(|args|)), Concat(BulkParts(args), 0);
    LiesApart(buf, off, head, body);
    PartsRead(buf, off, args, head, body, off + |head|, end);
  }

  /** Commands one after the other, until there are n; then no byte may be left. */
  function ReadCommands(buf: bytes, off: nat, n: nat, got: seq<seq<bytes>>): Option<seq<seq<bytes>>>
    requires off <= |buf|
    decreases n - |got|
  {
    if |got| >= n then (if off == |buf| then Some(got) else None)
    else
      var command := ReadCommand(buf, off);
      if command.None? then None else ReadCommands(buf, command.value.next, n, got + [command.value.args])
  }

  /** Wherever it lies, this part is read as this command. */
  ghost predicate IsCommand(part: bytes, args: seq<bytes>) {
    forall buf, off: nat :: LiesAt(buf, off, part) ==> ReadCommand(buf, off) == Some(Read(args, off + |part|))
  }

  lemma EncodedIsCommand(args: seq<bytes>)
    ensures IsCommand(CommandBytes(args), args)
  {
    forall buf, off: nat | LiesAt(buf, off, CommandBytes(args))
      ensures ReadCommand(buf, off) == Some(Read(args, off + |CommandBytes(args)|))
    {
      CommandReads(buf, off, args, off + |CommandBytes(args)|);
    }
  }

  lemma CommandAhead(buf: bytes, off: nat, part: bytes, rest: bytes, args: seq<bytes>, next: nat)
    requires IsCommand(part, args) && LiesAt(buf, off, part + rest) && next == off + |part|
    ensures ReadCommand(buf, off) == Some(Read(args, next)) && LiesAt(buf, next, rest)
  {
    LiesApart(buf, off, part, rest);
  }

  lemma OneMoreCommand(buf: bytes, off: nat, n: nat, got: seq<seq<bytes>>, more: seq<seq<bytes>>, args: seq<bytes>,
      next: nat)
    requires off <= |buf| && |got| < n && ReadCommand(buf, off) == Some(Read(args, next)) && more == got + [args]
    ensures ReadCommands(buf, off, n, got) == ReadCommands(buf, next, n, more)
  {
  }

  /** From `off` on, the buffer holds exactly the commands from k on, to its end. */
  predicate CommandsTo(buf: bytes, off: nat, commands: seq<seq<bytes>>, k: nat)
    requires k <= |commands|
    decreases |commands| - k
  {
    off <= |buf| &&
    if k == |commands| then off == |buf|
    else
      var command := ReadCommand(buf, off);
      command.Some? && command.value.args == commands[k] && CommandsTo(buf, command.value.next, commands, k + 1)
  }

  lemma CommandsBefore(buf: bytes, off: nat, commands: seq<seq<bytes>>, k: nat, next: nat)
    requires off <= |buf| && k < |commands| && ReadCommand(buf, off) == Some(Read(commands[k], next))
    requires CommandsTo(buf, next, commands, k + 1)
    ensures CommandsTo(buf, off, commands, k)
  {
  }

  lemma {:induction false} PartsAreCommands(buf: bytes, off: nat, commands: seq<seq<bytes>>, parts: seq<bytes>, k: nat)
    requires k <= |commands| == |parts| && forall i :: 0 <= i < |commands| ==> IsCommand(parts[i], commands[i])
    requires LiesAt(buf, off, Concat(parts, k)) && off + |Concat(parts, k)| == |buf|
    ensures CommandsTo(buf, off, commands, k)
    decreases |commands| - k
  {
    if k < |commands| {
      assert IsCommand(parts[k], commands[k]);
      var next := off + |parts[k]|;
      CommandAhead(buf, off, parts[k], Concat(parts, k + 1), commands[k], next);
      PartsAreCommands(buf, next, commands, parts, k + 1);
      CommandsBefore(buf, off, commands, k, next);
    }
  }

  lemma {:induction false} CommandsAreRead(buf: bytes, off: nat, commands: seq<seq<bytes>>, k: nat)
    requires k <= |commands| && CommandsTo(buf, off, commands, k)
    ensures ReadCommands(buf, off, |commands|, commands[..k]) == Some(commands)
    decreases |commands| - k
  {
    if k == |commands| {
      assert commands[..k] == commands;
    } else {
      var next := ReadCommand(buf, off).value.next;
      CommandsAreRead(buf, next, commands, k + 1);
      TakeOneMore(commands, k);
      OneMoreCommand(buf, off, |commands|, commands[..k], commands[..k + 1], commands[k], next);
    }
  }

  /** A server that reads as many commands as were sent gets exactly them, and no byte is left. */
  lemma PipelineIsRead(commands: seq<seq<bytes>>)
    ensures ReadCommands(Pipeline(commands), 0, |commands|, []) == Some(commands)
  {
    var parts := CommandParts(commands);
    forall i | 0 <= i < |commands| ensures IsCommand(parts[i], commands[i]) { EncodedIsCommand(commands[i]); }
    PartsAreCommands(Pipeline(commands), 0, commands, parts, 0);
    assert commands[..0] == [];
    CommandsAreRead(Pipeline(commands), 0, commands, 0);
  }
}
