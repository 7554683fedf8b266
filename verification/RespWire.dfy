/** What the transport reads off the wire, in bytes: CR LF is 13 10, and a reply's type is 43, 45, 58 or 36. */
module RespWire {
  import opened Wrappers
  import opened Resp
  import opened RespProofs
  import opened RespStream

  predicate EndsLine(buf: bytes, i: nat) { i + 1 < |buf| && buf[i] == 13 && buf[i + 1] == 10 }

  predicate NoLineEnds(buf: bytes, lo: nat, hi: nat) { forall i :: lo <= i < hi ==> !EndsLine(buf, i) }

  /** The first CR LF from `off` on, if there is one. */
  lemma {:induction false} LineEndIff(buf: bytes, off: nat, nl: nat)
    ensures FindCrlf(buf, off) == Some(nl) <==> off <= nl && EndsLine(buf, nl) && NoLineEnds(buf, off, nl)
    ensures FindCrlf(buf, off).None? <==> NoLineEnds(buf, off, |buf|)
    decreases |buf| - off
  {
    if off + 1 < |buf| && !EndsLine(buf, off) {
      LineEndIff(buf, off + 1, nl);
      NoneEarlier(buf, off, nl);
      NoneEarlier(buf, off, |buf|);
    } else if off + 1 < |buf| {
      assert EndsLine(buf, off);
    }
  }

  lemma NoneEarlier(buf: bytes, off: nat, hi: nat)
    requires !EndsLine(buf, off)
    ensures NoLineEnds(buf, off, hi) <==> NoLineEnds(buf, off + 1, hi)
  {
    if NoLineEnds(buf, off + 1, hi) {
      forall i | off <= i < hi ensures !EndsLine(buf, i) {
        if i > off { assert off + 1 <= i < hi; }
      }
    }
  }

  predicate AllDigits(line: bytes, lo: nat) { forall i :: lo <= i < |line| ==> 48 <= line[i] <= 57 }

  lemma {:induction false} DigitsIff(s: bytes, lo: nat, hi: nat)
    requires hi <= |s|
    ensures ValueOf(s, lo, hi).Some? <==> forall i :: lo <= i < hi ==> 48 <= s[i] <= 57
  {
    if lo < hi { DigitsIff(s, lo, hi - 1); }
  }

  /** A text is a number if it is empty, or digits after at most one "+" (43) or "-" (45). */
  lemma NumberIff(line: bytes)
    ensures line == [] ==> NumberOf(line) == Some(0)
    ensures line != [] && (line[0] == 43 || line[0] == 45) ==>
      (NumberOf(line).Some? <==> |line| > 1 && AllDigits(line, 1))
    ensures line != [] && line[0] != 43 && line[0] != 45 ==> (NumberOf(line).Some? <==> AllDigits(line, 0))
  {
    DigitsIff(line, 0, |line|);
    DigitsIff(line, 1, |line|);
  }

  lemma {:induction false} ValueShifts(front: bytes, s: bytes, lo: nat, hi: nat)
    requires lo <= hi <= |s|
    ensures ValueOf(front + s, |front| + lo, |front| + hi) == ValueOf(s, lo, hi)
  {
    if lo < hi {
      ValueShifts(front, s, lo, hi - 1);
      assert (front + s)[|front| + hi - 1] == s[hi - 1];
    }
  }

  /** One more digit is ten times the number before it and that digit; a sign in front is a sign. */
  lemma NumberGrows(line: bytes, digit: byte)
    requires line != [] && AllDigits(line, 0) && 48 <= digit <= 57
    ensures var n := NumberOf(line);
      n.Some? && n.value >= 0 && NumberOf(line + [digit]) == Some(10 * n.value + digit as int - 48)
    ensures NumberOf([digit]) == Some(digit as int - 48)
    ensures NumberOf([43] + line) == NumberOf(line) && NumberOf([45] + line) == Some(0 - NumberOf(line).value)
  {
    NumberIff(line);
    ValueGrows(line, digit);
    DigitsIff(line, 0, |line|);
    ValueShifts([43], line, 0, |line|);
    ValueShifts([45], line, 0, |line|);
    OneDigit(digit);
  }

  lemma OneDigit(digit: byte)
    requires 48 <= digit <= 57
    ensures NumberOf([digit]) == Some(digit as int - 48)
  {
    assert ValueOf([digit], 0, 0) == Some(0);
    assert ValueOf([digit], 0, 1) == Some((digit - 48) as int);
  }

  lemma {:induction false} ValueOfFront(s: bytes, more: bytes, lo: nat, hi: nat)
    requires hi <= |s|
    ensures ValueOf(s + more, lo, hi) == ValueOf(s, lo, hi)
  {
    if lo < hi { ValueOfFront(s, more, lo, hi - 1); }
  }

  lemma ValueGrows(line: bytes, digit: byte)
    requires AllDigits(line, 0) && 48 <= digit <= 57
    ensures ValueOf(line, 0, |line|).Some?
    ensures ValueOf(line + [digit], 0, |line| + 1) == Some(10 * ValueOf(line, 0, |line|).value + (digit - 48) as int)
  {
    DigitsIff(line, 0, |line|);
    ValueOfFront(line, [digit], 0, |line|);
  }

  /**
   * One reply, whose line ends at nl: "+" is a status, "-" an error, ":" a number, "$" the length of what follows,
   * of which -1 stands for nothing and a length that is not yet there waits; anything else breaks the connection.
   */
  lemma ReplyIs(buf: bytes, off: nat, nl: nat)
    requires off <= nl && EndsLine(buf, nl) && NoLineEnds(buf, off, nl)
    ensures off == nl ==> ParseOne(buf, off) == Bad
    ensures off < nl ==>
      var text, next := buf[off + 1..nl], nl + 2;
      ParseOne(buf, off) ==
        if buf[off] == 43 then Got(Status(text), next)
        else if buf[off] == 45 then Got(Error(text), next)
        else if buf[off] == 58 then Got(Int(NumberOf(text)), next)
        else if buf[off] != 36 || NumberOf(text).None? || NumberOf(text).value < -1 then Bad
        else
          var n := NumberOf(text).value;
          if n == -1 then Got(Bulk(None), next)
          else if next + n + 2 > |buf| then More
          else Got(Bulk(Some(buf[next..next + n])), next + n + 2)
  {
    LineEndIff(buf, off, nl);
  }

  /** Where the first k replies end, if they can be read. */
  function EndOf(buf: bytes, k: nat): (end: Option<nat>)
    ensures end.Some? ==> end.value <= |buf|
  {
    if k == 0 then Some(0)
    else
      var before := EndOf(buf, k - 1);
      if before.None? then None
      else
        var step := ParseOne(buf, before.value);
        if step.Got? then Some(step.next) else None
  }

  /** The first k replies are read, and the next one stops the parser in this way. */
  predicate StopsAt(buf: bytes, k: nat, how: Step) {
    EndOf(buf, k).Some? && ParseOne(buf, EndOf(buf, k).value) == how
  }

  /** One of the replies from `from` to `expected` does. */
  ghost predicate Stops(buf: bytes, from: nat, expected: nat, how: Step) {
    exists k: nat :: from <= k < expected && StopsAt(buf, k, how)
  }

  lemma NoEndAfter(buf: bytes, k: nat)
    requires EndOf(buf, k).Some? ==> !ParseOne(buf, EndOf(buf, k).value).Got?
    ensures EndOf(buf, k + 1).None?
  {
  }

  lemma {:induction false} NothingBehind(buf: bytes, k: nat, n: nat)
    requires EndOf(buf, k).Some? && !ParseOne(buf, EndOf(buf, k).value).Got? && k < n
    ensures EndOf(buf, n).None?
  {
    NoEndAfter(buf, k);
    StaysEndless(buf, k + 1, n);
  }

  lemma {:induction false} StaysEndless(buf: bytes, k: nat, n: nat)
    requires EndOf(buf, k).None? && k <= n
    ensures EndOf(buf, n).None?
    decreases n - k
  {
    if k < n {
      NoEndAfter(buf, k);
      StaysEndless(buf, k + 1, n);
    }
  }

  lemma OnlyHere(buf: bytes, from: nat, k: nat, how: Step)
    requires EndOf(buf, from).Some? && !ParseOne(buf, EndOf(buf, from).value).Got?
    requires from <= k && StopsAt(buf, k, how)
    ensures StopsAt(buf, from, how)
  {
    if from < k { NothingBehind(buf, from, k); }
  }

  lemma StopsHere(buf: bytes, from: nat, expected: nat, how: Step)
    requires from < expected && EndOf(buf, from).Some? && !ParseOne(buf, EndOf(buf, from).value).Got?
    ensures Stops(buf, from, expected, how) <==> StopsAt(buf, from, how)
  {
    forall k: nat | from <= k < expected && StopsAt(buf, k, how) ensures StopsAt(buf, from, how) {
      OnlyHere(buf, from, k, how);
    }
  }

  lemma StopsLater(buf: bytes, from: nat, expected: nat, how: Step)
    requires from < expected && EndOf(buf, from).Some? && ParseOne(buf, EndOf(buf, from).value).Got? && !how.Got?
    ensures Stops(buf, from, expected, how) <==> Stops(buf, from + 1, expected, how)
  {
    if Stops(buf, from, expected, how) {
      var k: nat :| from <= k < expected && StopsAt(buf, k, how);
      assert k != from;
    }
  }

  lemma NextEnd(buf: bytes, k: nat)
    requires EndOf(buf, k).Some? && ParseOne(buf, EndOf(buf, k).value).Got?
    ensures EndOf(buf, k + 1) == Some(ParseOne(buf, EndOf(buf, k).value).next)
  {
  }

  lemma {:induction false} LoopFollowsEnds(buf: bytes, off: nat, done: seq<Reply>, expected: nat)
    requires |done| <= expected && EndOf(buf, |done|) == Some(off)
    ensures var parsed := ParseLoop(buf, off, done, expected);
      && (parsed.Replies? <==> EndOf(buf, expected).Some?)
      && (parsed.Broken? <==> Stops(buf, |done|, expected, Bad))
      && (parsed.Incomplete? <==> Stops(buf, |done|, expected, More))
    decreases expected - |done|
  {
    if |done| < expected {
      var step := ParseOne(buf, off);
      if step.Got? {
        NextEnd(buf, |done|);
        LoopFollowsEnds(buf, step.next, done + [step.reply], expected);
        StopsLater(buf, |done|, expected, Bad);
        StopsLater(buf, |done|, expected, More);
      } else {
        NothingBehind(buf, |done|, expected);
        StopsHere(buf, |done|, expected, Bad);
        StopsHere(buf, |done|, expected, More);
      }
    }
  }

  /**
   * The replies are there when all of them can be read; the connection breaks on a reply it cannot speak, however
   * much is missing behind it; and it waits exactly when the first reply it cannot read is not all there yet.
   */
  lemma ParsesIff(buf: bytes, expected: nat)
    ensures Parse(buf, expected).Replies? <==> EndOf(buf, expected).Some?
    ensures Parse(buf, expected).Broken? <==> Stops(buf, 0, expected, Bad)
    ensures Parse(buf, expected).Incomplete? <==> Stops(buf, 0, expected, More)
  {
    LoopFollowsEnds(buf, 0, [], expected);
  }

  /** The command line "PING" of one word on the wire, byte by byte. */
  lemma PingIs()
    ensures CommandBytes([[80, 73, 78, 71]]) == [42, 49, 13, 10, 36, 52, 13, 10, 80, 73, 78, 71, 13, 10]
  {
    var word: bytes := [80, 73, 78, 71];
    assert Digits(1) == [49] && Digits(4) == [52];
    assert BulkParts([word]) == [BulkBytes(word)];
    assert Concat([BulkBytes(word)], 1) == [];
  }
}
