/** Parsing undoes encoding, waits for exactly what is missing, and does not depend on how bytes arrive. */
module RespProofs {
  import opened Wrappers
  import opened Resp

  // ------------------------------------------------------------------ encoding

  function Digits(n: nat): bytes {
    if n < 10 then [48 + n as byte] else Digits(n / 10) + [48 + (n % 10) as byte]
  }

  function Signed(n: int): bytes {
    if n < 0 then [MINUS] + Digits(-n) else Digits(n)
  }

  function Line(kind: byte, text: bytes): bytes { [kind] + text + CRLF }

  /** RESP2: simple strings, simple errors, integers and bulk strings. */
  function Encode(r: Reply): bytes
    requires WellFormed(r)
  {
    match r
    case Status(text) => Line(PLUS, text)
    case Error(text) => Line(MINUS, text)
    case Int(value) => Line(COLON, Signed(value.value))
    case Bulk(data) =>
      if data.None? then Line(DOLLAR, Signed(-1)) else Line(DOLLAR, Digits(|data.value|)) + data.value + CRLF
  }

  /** A line may not hold its own terminator. */
  predicate WellFormed(r: Reply) {
    match r
    case Status(text) => SingleLine(text)
    case Error(text) => SingleLine(text)
    case Int(value) => value.Some?
    case Bulk(_) => true
  }

  predicate SingleLine(text: bytes) { forall i :: 0 <= i < |text| ==> !CrlfAt(text, i) }

  predicate AllWellFormed(rs: seq<Reply>) { forall r :: r in rs ==> WellFormed(r) }

  function Concat(parts: seq<bytes>, k: nat): bytes
    requires k <= |parts|
    decreases |parts| - k
  {
    if k == |parts| then [] else parts[k] + Concat(parts, k + 1)
  }

  function Parts(rs: seq<Reply>): (parts: seq<bytes>)
    requires AllWellFormed(rs)
    ensures |parts| == |rs|
  {
    seq(|rs|, i requires 0 <= i < |rs| => Encode(rs[i]))
  }

  function EncodeAll(rs: seq<Reply>): bytes
    requires AllWellFormed(rs)
  {
    Concat(Parts(rs), 0)
  }

  // ------------------------------------------------------------------ numbers

  /** The digits of n, wherever they lie in a text, are read as n. */
  lemma {:induction false} DigitsRead(text: bytes, lo: nat, n: nat)
    requires lo + |Digits(n)| <= |text|
    requires forall i :: 0 <= i < |Digits(n)| ==> text[lo + i] == Digits(n)[i]
    ensures var hi := lo + |Digits(n)|;
      hi > lo && ValueOf(text, lo, hi) == Some(n)
  {
    var hi := lo + |Digits(n)|;
    if n < 10 {
      assert text[lo + 0] == Digits(n)[0];
      assert ValueOf(text, lo, lo) == Some(0);
    } else {
      var front := Digits(n / 10);
      assert Digits(n) == front + [48 + (n % 10) as byte];
      assert forall i :: 0 <= i < |front| ==> Digits(n)[i] == front[i];
      DigitsRead(text, lo, n / 10);
      assert text[lo + |front|] == Digits(n)[|front|];
    }
  }

  lemma {:induction false} DigitsHoldNoCr(n: nat)
    ensures CR !in Digits(n) && IsDigit(Digits(n)[0])
  {
    if n >= 10 {
      DigitsHoldNoCr(n / 10);
    }
  }

  lemma SignedRead(n: int)
    ensures NumberOf(Signed(n)) == Some(n) && SingleLine(Signed(n))
  {
    DigitsHoldNoCr(if n < 0 then -n else n);
    if n < 0 {
      DigitsRead(Signed(n), 1, -n);
    } else {
      DigitsRead(Signed(n), 0, n);
    }
  }

  // ------------------------------------------------------------------ one reply

  predicate LiesAt(buf: bytes, off: nat, part: bytes) {
    off + |part| <= |buf| && forall i :: 0 <= i < |part| ==> part[i] == buf[off + i]
  }

  lemma LiesApart(buf: bytes, off: nat, a: bytes, b: bytes)
    requires LiesAt(buf, off, a + b)
    ensures LiesAt(buf, off, a) && LiesAt(buf, off + |a|, b)
  {
    forall i | 0 <= i < |a| ensures a[i] == buf[off + i] {
      assert (a + b)[i] == a[i];
    }
    forall i | 0 <= i < |b| ensures b[i] == buf[off + |a| + i] {
      assert (a + b)[|a| + i] == b[i];
    }
  }

  lemma {:induction false} FirstCrlf(buf: bytes, off: nat, nl: nat)
    requires off <= nl && CrlfAt(buf, nl)
    requires forall i :: off <= i < nl ==> !CrlfAt(buf, i)
    ensures FindCrlf(buf, off) == Some(nl)
    decreases nl - off
  {
    if off < nl {
      FirstCrlf(buf, off + 1, nl);
    }
  }

  /** A line without a terminator inside it ends at its own terminator. */
  lemma FindsEnd(buf: bytes, off: nat, kind: byte, text: bytes)
    requires LiesAt(buf, off, Line(kind, text)) && SingleLine(text) && kind != CR
    ensures FindCrlf(buf, off) == Some(off + 1 + |text|)
    ensures buf[off] == kind && LineAt(buf, off, off + 1 + |text|) == text
  {
    var nl := off + 1 + |text|;
    LiesApart(buf, off, [kind] + text, CRLF);
    LiesApart(buf, off, [kind], text);
    assert buf[nl] == CRLF[0] && buf[nl + 1] == CRLF[1];
    assert buf[off] == [kind][0];
    assert CrlfAt(buf, nl);
    forall i | off <= i < nl ensures !CrlfAt(buf, i) {
      if off < i < nl - 1 {
        assert buf[i] == text[i - off - 1] && buf[i + 1] == text[i - off];
        assert !CrlfAt(text, i - off - 1);
      }
    }
    FirstCrlf(buf, off, nl);
    assert buf[off + 1..nl] == text;
  }

  lemma LineReads(buf: bytes, off: nat, kind: byte, text: bytes)
    requires LiesAt(buf, off, Line(kind, text)) && SingleLine(text) && kind != CR
    ensures ParseOne(buf, off) == ParseLine(buf, off + |Line(kind, text)|, kind, text)
  {
    FindsEnd(buf, off, kind, text);
  }

  lemma ReadsBack(buf: bytes, off: nat, r: Reply)
    requires WellFormed(r) && LiesAt(buf, off, Encode(r))
    ensures ParseOne(buf, off) == Got(r, off + |Encode(r)|)
  {
    match r
    case Status(text) => LineReads(buf, off, PLUS, text);
    case Error(text) => LineReads(buf, off, MINUS, text);
    case Int(value) =>
      SignedRead(value.value);
      LineReads(buf, off, COLON, Signed(value.value));
    case Bulk(data) =>
      if data.None? {
        SignedRead(-1);
        LineReads(buf, off, DOLLAR, Signed(-1));
      } else {
        BulkReads(buf, off, data.value);
      }
  }

  lemma BulkReads(buf: bytes, off: nat, data: bytes)
    requires LiesAt(buf, off, Line(DOLLAR, Digits(|data|)) + data + CRLF)
    ensures ParseOne(buf, off) == Got(Bulk(Some(data)), off + |Line(DOLLAR, Digits(|data|))| + |data| + 2)
  {
    var head := Line(DOLLAR, Digits(|data|));
    LiesApart(buf, off, head + data, CRLF);
    LiesApart(buf, off, head, data);
    SignedRead(|data|);
    LineReads(buf, off, DOLLAR, Digits(|data|));
    BulkBody(buf, off + |head|, data);
  }

  lemma BulkBody(buf: bytes, off: nat, data: bytes)
    requires off + |data| + 2 <= |buf| && LiesAt(buf, off, data)
    ensures ParseBulk(buf, off, Some(|data|)) == Got(Bulk(Some(data)), off + |data| + 2)
  {
    assert buf[off..off + |data|] == data;
  }

  // ------------------------------------------------------------------ round trip

  /** From `off` on, the buffer holds exactly the replies from k on, and they end at `end`. */
  predicate ReadableTo(buf: bytes, off: nat, rs: seq<Reply>, k: nat, end: nat)
    requires k <= |rs|
    decreases |rs| - k
  {
    off <= |buf| &&
    if k == |rs| then off == end
    else
      var step := ParseOne(buf, off);
      step.Got? && step.reply == rs[k] && ReadableTo(buf, step.next, rs, k + 1, end)
  }

  lemma ReadableBefore(buf: bytes, off: nat, rs: seq<Reply>, k: nat, end: nat)
    requires off <= |buf| && k < |rs|
    requires var step := ParseOne(buf, off);
      step.Got? && step.reply == rs[k] && ReadableTo(buf, step.next, rs, k + 1, end)
    ensures ReadableTo(buf, off, rs, k, end)
  {}

  /** Wherever it lies, this part is read back as this reply. */
  ghost predicate Carries(part: bytes, r: Reply) {
    forall buf, off: nat :: LiesAt(buf, off, part) ==> ParseOne(buf, off) == Got(r, off + |part|)
  }

  lemma EncodingCarries(r: Reply)
    requires WellFormed(r)
    ensures Carries(Encode(r), r)
  {
    forall buf, off: nat | LiesAt(buf, off, Encode(r)) ensures ParseOne(buf, off) == Got(r, off + |Encode(r)|) {
      ReadsBack(buf, off, r);
    }
  }

  lemma PartReads(buf: bytes, off: nat, part: bytes, rest: bytes, r: Reply)
    requires Carries(part, r) && LiesAt(buf, off, part + rest)
    ensures ParseOne(buf, off) == Got(r, off + |part|) && LiesAt(buf, off + |part|, rest)
  {
    LiesApart(buf, off, part, rest);
  }

  lemma {:induction false} PartsAreReadable(buf: bytes, off: nat, parts: seq<bytes>, rs: seq<Reply>, k: nat, end: nat)
    requires k <= |rs| == |parts| && forall i :: 0 <= i < |rs| ==> Carries(parts[i], rs[i])
    requires LiesAt(buf, off, Concat(parts, k)) && end == off + |Concat(parts, k)|
    ensures ReadableTo(buf, off, rs, k, end)
    decreases |rs| - k
  {
    if k < |rs| {
      assert Carries(parts[k], rs[k]);
      PartReads(buf, off, parts[k], Concat(parts, k + 1), rs[k]);
      PartsAreReadable(buf, off + |parts[k]|, parts, rs, k + 1, end);
      ReadableBefore(buf, off, rs, k, end);
    }
  }

  lemma EncodingIsReadable(buf: bytes, off: nat, rs: seq<Reply>)
    requires AllWellFormed(rs) && LiesAt(buf, off, EncodeAll(rs))
    ensures ReadableTo(buf, off, rs, 0, off + |EncodeAll(rs)|)
  {
    forall i | 0 <= i < |rs| ensures Carries(Parts(rs)[i], rs[i]) {
      EncodingCarries(rs[i]);
    }
    PartsAreReadable(buf, off, Parts(rs), rs, 0, off + |EncodeAll(rs)|);
  }

  lemma {:induction false} ReadableIsRead(buf: bytes, off: nat, rs: seq<Reply>, k: nat, end: nat)
    requires k <= |rs| && ReadableTo(buf, off, rs, k, end)
    ensures ParseLoop(buf, off, rs[..k], |rs|) == Replies(rs)
    decreases |rs| - k
  {
    if k == |rs| {
      assert rs[..k] == rs;
    } else {
      ReadableIsRead(buf, ParseOne(buf, off).next, rs, k + 1, end);
      assert rs[..k] + [rs[k]] == rs[..k + 1];
    }
  }

  /** Parsing the encoding of a list of replies, whatever follows it, gives exactly that list. */
  lemma RoundTrip(rs: seq<Reply>, rest: bytes)
    requires AllWellFormed(rs)
    ensures Parse(EncodeAll(rs) + rest, |rs|) == Replies(rs)
  {
    var buf := EncodeAll(rs) + rest;
    EncodingIsReadable(buf, 0, rs);
    ReadableIsRead(buf, 0, rs, 0, |EncodeAll(rs)|);
    assert rs[..0] == [];
  }

  // ------------------------------------------------------------------ more bytes

  lemma {:induction false} CrlfIsStable(buf: bytes, more: bytes, off: nat)
    requires FindCrlf(buf, off).Some?
    ensures FindCrlf(buf + more, off) == FindCrlf(buf, off)
    decreases |buf| - off
  {
    if !CrlfAt(buf, off) {
      CrlfIsStable(buf, more, off + 1);
    }
  }

  lemma OneIsStable(buf: bytes, more: bytes, off: nat)
    requires off <= |buf| && !ParseOne(buf, off).More?
    ensures ParseOne(buf + more, off) == ParseOne(buf, off)
  {
    var nl := FindCrlf(buf, off).value;
    var all := buf + more;
    CrlfIsStable(buf, more, off);
    assert LineAt(all, off, nl) == LineAt(buf, off, nl);
    if buf[off] == DOLLAR {
      var length := NumberOf(LineAt(buf, off, nl));
      if length.Some? && length.value >= 0 {
        assert all[nl + 2..nl + 2 + length.value] == buf[nl + 2..nl + 2 + length.value];
      }
    }
  }

  lemma {:induction false} LoopIsStable(buf: bytes, more: bytes, off: nat, done: seq<Reply>, expected: nat)
    requires off <= |buf| && !ParseLoop(buf, off, done, expected).Incomplete?
    ensures ParseLoop(buf + more, off, done, expected) == ParseLoop(buf, off, done, expected)
    decreases expected - |done|
  {
    if |done| < expected {
      OneIsStable(buf, more, off);
      match ParseOne(buf, off)
      case Got(reply, next) => LoopIsStable(buf, more, next, done + [reply], expected);
      case _ =>
    }
  }

  /** A verdict once reached is not changed by the bytes that follow. */
  lemma VerdictIsStable(buf: bytes, more: bytes, expected: nat)
    requires !Parse(buf, expected).Incomplete?
    ensures Parse(buf + more, expected) == Parse(buf, expected)
  {
    LoopIsStable(buf, more, 0, [], expected);
  }

  /** Cutting the buffer leaves a reply either unread or read as before. */
  lemma CutStep(buf: bytes, off: nat, cut: nat)
    requires off <= cut <= |buf|
    ensures ParseOne(buf[..cut], off) == More || ParseOne(buf[..cut], off) == ParseOne(buf, off)
  {
    if !ParseOne(buf[..cut], off).More? {
      OneIsStable(buf[..cut], buf[cut..], off);
      assert buf[..cut] + buf[cut..] == buf;
    }
  }

  lemma {:induction false} CutIsIncomplete(buf: bytes, off: nat, rs: seq<Reply>, k: nat, end: nat, cut: nat)
    requires k <= |rs| && ReadableTo(buf, off, rs, k, end) && off <= cut < end && cut <= |buf|
    ensures ParseLoop(buf[..cut], off, rs[..k], |rs|) == Incomplete
    decreases |rs| - k
  {
    CutStep(buf, off, cut);
    if ParseOne(buf[..cut], off) != More {
      CutIsIncomplete(buf, ParseOne(buf, off).next, rs, k + 1, end, cut);
      assert rs[..k] + [rs[k]] == rs[..k + 1];
    }
  }

  /** Every strict prefix of the encoding leaves the parser waiting. */
  lemma StrictPrefixIsIncomplete(rs: seq<Reply>, cut: nat)
    requires AllWellFormed(rs)
    requires cut < |EncodeAll(rs)|
    ensures Parse(EncodeAll(rs)[..cut], |rs|) == Incomplete
  {
    var buf := EncodeAll(rs);
    EncodingIsReadable(buf, 0, rs);
    CutIsIncomplete(buf, 0, rs, 0, |buf|, cut);
    assert rs[..0] == [];
  }
}
