/** The alert table is the run-length encoding of the firing history. */
module AlertHistory {
  import opened Wrappers
  import opened Alerts
  import opened Stretches

  datatype Poll = Poll(firing: seq<Firing>, at: int)

  function TableAfter(polls: seq<Poll>): seq<Row> {
    if polls == [] then []
    else
      var last := polls[|polls| - 1];
      Reconciled(TableAfter(polls[..|polls| - 1]), last.firing, last.at)
  }

  /** The table object after a history of polls. */
  method Watch(polls: seq<Poll>) returns (t: AlertTable)
    ensures t.rows == TableAfter(polls)
  {
    t := new AlertTable();
    for i := 0 to |polls|
      invariant fresh(t) && t.rows == TableAfter(polls[..i])
    {
      assert polls[..i + 1][..i] == polls[..i];
      t.Reconcile(polls[i].firing, polls[i].at);
    }
    assert polls[..|polls|] == polls;
  }

  /** At which polls a rule was firing. */
  function FiringAt(polls: seq<Poll>, rule: RuleId): (bs: seq<bool>)
    ensures |bs| == |polls| && forall i :: 0 <= i < |bs| ==> bs[i] == HasRule(polls[i].firing, rule)
  {
    seq(|polls|, i requires 0 <= i < |polls| => HasRule(polls[i].firing, rule))
  }

  // ------------------------------------------------------------------ the rows of one rule

  function RowsOf(rows: seq<Row>, rule: RuleId): seq<Row> {
    if rows == [] then []
    else
      var front, last := RowsOf(rows[..|rows| - 1], rule), rows[|rows| - 1];
      if last.firing.rule == rule then front + [last] else front
  }

  /** The entry of a rule in a poll. */
  function EntryOf(firing: seq<Firing>, rule: RuleId): Firing
    requires HasRule(firing, rule)
  {
    if firing[|firing| - 1].rule == rule then firing[|firing| - 1]
    else
      assert HasRule(firing[..|firing| - 1], rule) by {
        var i :| 0 <= i < |firing| && firing[i].rule == rule;
        assert firing[..|firing| - 1][i].rule == rule;
      }
      EntryOf(firing[..|firing| - 1], rule)
  }

  lemma RowsOfAppend(rows: seq<Row>, row: Row, rule: RuleId)
    ensures RowsOf(rows + [row], rule) ==
      if row.firing.rule == rule then RowsOf(rows, rule) + [row] else RowsOf(rows, rule)
  {
    assert (rows + [row])[..|rows|] == rows;
  }

  lemma {:induction false} BumpRowsOf(rows: seq<Row>, f: Firing, now: int, rule: RuleId)
    ensures RowsOf(BumpAll(rows, f, now), rule) ==
      if rule == f.rule then BumpAll(RowsOf(rows, rule), f, now) else RowsOf(rows, rule)
  {
    if rows != [] {
      var front, last := rows[..|rows| - 1], rows[|rows| - 1];
      BumpRowsOf(front, f, now, rule);
      RowsOfAppend(BumpAll(front, f, now), Bumped(last, f, now), rule);
      BumpAppend(RowsOf(front, rule), last, f, now);
    }
  }

  lemma BumpAppend(rows: seq<Row>, row: Row, f: Firing, now: int)
    ensures BumpAll(rows + [row], f, now) == BumpAll(rows, f, now) + [Bumped(row, f, now)]
    ensures AnyActive(rows + [row], f.rule) == (IsActive(row, f.rule) || AnyActive(rows, f.rule))
  {
    assert (rows + [row])[..|rows|] == rows;
  }

  lemma {:induction false} ActiveRowsOf(rows: seq<Row>, rule: RuleId)
    ensures AnyActive(RowsOf(rows, rule), rule) == AnyActive(rows, rule)
  {
    if rows != [] {
      var front, last := rows[..|rows| - 1], rows[|rows| - 1];
      ActiveRowsOf(front, rule);
      BumpAppend(RowsOf(front, rule), last, Firing(rule, WARNING, None), 0);
    }
  }

  lemma UpsertRowsOf(rows: seq<Row>, f: Firing, now: int, rule: RuleId)
    ensures RowsOf(Upsert(rows, f, now), rule) ==
      if rule == f.rule then Upsert(RowsOf(rows, rule), f, now) else RowsOf(rows, rule)
  {
    ActiveRowsOf(rows, f.rule);
    BumpRowsOf(rows, f, now, rule);
    RowsOfAppend(rows, Row(f, true, now, now, None), rule);
  }

  lemma {:induction false} UpsertAllRowsOf(rows: seq<Row>, firing: seq<Firing>, now: int, rule: RuleId)
    requires OncePerRule(firing)
    ensures RowsOf(UpsertAll(rows, firing, now), rule) ==
      if HasRule(firing, rule) then Upsert(RowsOf(rows, rule), EntryOf(firing, rule), now) else RowsOf(rows, rule)
  {
    if firing != [] {
      var n := |firing| - 1;
      var front, f := firing[..n], firing[n];
      UpsertAllRowsOf(rows, front, now, rule);
      UpsertRowsOf(UpsertAll(rows, front, now), f, now, rule);
      if f.rule == rule {
        assert HasRule(firing, rule) && !HasRule(front, rule);
      } else {
        SameInFront(firing, rule);
      }
    }
  }

  lemma SameInFront(firing: seq<Firing>, rule: RuleId)
    requires firing != [] && firing[|firing| - 1].rule != rule
    ensures HasRule(firing, rule) <==> HasRule(firing[..|firing| - 1], rule)
    ensures HasRule(firing, rule) ==> EntryOf(firing, rule) == EntryOf(firing[..|firing| - 1], rule)
  {
    var front := firing[..|firing| - 1];
    if HasRule(firing, rule) {
      var i :| 0 <= i < |firing| && firing[i].rule == rule;
      assert front[i].rule == rule;
    }
    if HasRule(front, rule) {
      var i :| 0 <= i < |front| && front[i].rule == rule;
      assert firing[i].rule == rule;
    }
  }

  lemma {:induction false} ResolveRowsOf(rows: seq<Row>, firing: seq<Firing>, now: int, rule: RuleId)
    ensures RowsOf(ResolveAll(rows, firing, now), rule) == ResolveAll(RowsOf(rows, rule), firing, now)
  {
    if rows != [] {
      var front, last := rows[..|rows| - 1], rows[|rows| - 1];
      ResolveRowsOf(front, firing, now, rule);
      RowsOfAppend(ResolveAll(front, firing, now), Resolved(last, firing, now), rule);
      var fs := RowsOf(front, rule);
      assert (fs + [last])[..|fs|] == fs;
    }
  }

  // ------------------------------------------------------------------ rows and stretches

  /** What the row of a stretch records. */
  ghost predicate Records(row: Row, polls: seq<Poll>, s: Stretch, rule: RuleId) {
    && s.from <= s.to < |polls|
    && HasRule(polls[s.to].firing, rule) && row.firing == EntryOf(polls[s.to].firing, rule) && row.firing.rule == rule
    && row.firstSeen == polls[s.from].at && row.lastSeen == polls[s.to].at
    && row.active == (s.to == |polls| - 1)
    && row.resolvedAt == if s.to + 1 < |polls| then Some(polls[s.to + 1].at) else None
  }

  ghost predicate RecordsAll(rows: seq<Row>, polls: seq<Poll>, ss: seq<Stretch>, rule: RuleId) {
    |rows| == |ss| && forall a :: 0 <= a < |rows| ==> Records(rows[a], polls, ss[a], rule)
  }

  ghost predicate AllClosed(rows: seq<Row>) { forall a :: 0 <= a < |rows| ==> !rows[a].active }

  lemma {:induction false} ClosedRowsStay(rows: seq<Row>, f: Firing, firing: seq<Firing>, now: int)
    requires AllClosed(rows)
    ensures BumpAll(rows, f, now) == rows && ResolveAll(rows, firing, now) == rows && !AnyActive(rows, f.rule)
  {
    if rows != [] {
      ClosedRowsStay(rows[..|rows| - 1], f, firing, now);
    }
  }

  /** The row of a stretch that is not the last, or that ends before the last poll, is closed. */
  lemma OnlyTheLastIsOpen(rows: seq<Row>, polls: seq<Poll>, ss: seq<Stretch>, rule: RuleId)
    requires RecordsAll(rows, polls, ss, rule) && Ascending(ss)
    ensures rows != [] ==> AllClosed(rows[..|rows| - 1])
    ensures rows != [] && ss[|ss| - 1].to + 1 < |polls| ==> AllClosed(rows)
  {
    forall a | 0 <= a < |rows| - 1 ensures !rows[a].active {
      assert Records(rows[a], polls, ss[a], rule) && Records(rows[|rows| - 1], polls, ss[|rows| - 1], rule);
      assert ss[a].to + 1 < ss[|ss| - 1].from;
    }
    if rows != [] { assert Records(rows[|rows| - 1], polls, ss[|ss| - 1], rule); }
  }

  /** A closed record is still right when a poll is added. */
  lemma ClosedRecordStays(row: Row, polls: seq<Poll>, s: Stretch, rule: RuleId, p: Poll)
    requires Records(row, polls, s, rule) && !row.active
    ensures Records(row, polls + [p], s, rule)
  {}

  lemma ClosedRecordsStay(rows: seq<Row>, polls: seq<Poll>, ss: seq<Stretch>, rule: RuleId, p: Poll)
    requires RecordsAll(rows, polls, ss, rule) && AllClosed(rows)
    ensures RecordsAll(rows, polls + [p], ss, rule)
  {
    forall a | 0 <= a < |rows| ensures Records(rows[a], polls + [p], ss[a], rule) {
      ClosedRecordStays(rows[a], polls, ss[a], rule, p);
    }
  }

  lemma RecordsFront(rows: seq<Row>, polls: seq<Poll>, ss: seq<Stretch>, rule: RuleId)
    requires RecordsAll(rows, polls, ss, rule) && rows != []
    ensures RecordsAll(rows[..|rows| - 1], polls, ss[..|ss| - 1], rule)
  {
    var fs, ts := rows[..|rows| - 1], ss[..|ss| - 1];
    forall a | 0 <= a < |fs| ensures Records(fs[a], polls, ts[a], rule) {
      assert Records(rows[a], polls, ss[a], rule);
    }
  }

  lemma RecordsAppend(rows: seq<Row>, polls: seq<Poll>, ss: seq<Stretch>, rule: RuleId, row: Row, s: Stretch)
    requires RecordsAll(rows, polls, ss, rule) && Records(row, polls, s, rule)
    ensures RecordsAll(rows + [row], polls, ss + [s], rule)
  {}

  /** The rule keeps firing: its open row is bumped. */
  lemma Continues(rows: seq<Row>, polls: seq<Poll>, ss: seq<Stretch>, rule: RuleId, p: Poll)
    requires RecordsAll(rows, polls, ss, rule) && Ascending(ss) && HasRule(p.firing, rule)
    requires ss != [] && ss[|ss| - 1].to + 1 == |polls|
    ensures EntryOf(p.firing, rule).rule == rule
    ensures RecordsAll(Upsert(rows, EntryOf(p.firing, rule), p.at), polls + [p],
      ss[..|ss| - 1] + [Stretch(ss[|ss| - 1].from, |polls|)], rule)
  {
    var f, m := EntryOf(p.firing, rule), |rows| - 1;
    EntryHasRule(p.firing, rule);
    assert Records(rows[m], polls, ss[m], rule);
    OnlyTheLastIsOpen(rows, polls, ss, rule);
    ClosedRowsStay(rows[..m], f, p.firing, p.at);
    RecordsFront(rows, polls, ss, rule);
    ClosedRecordsStay(rows[..m], polls, ss[..m], rule, p);
    RecordsAppend(rows[..m], polls + [p], ss[..m], rule, Bumped(rows[m], f, p.at), Stretch(ss[m].from, |polls|));
  }

  lemma {:induction false} EntryHasRule(firing: seq<Firing>, rule: RuleId)
    requires HasRule(firing, rule)
    ensures EntryOf(firing, rule).rule == rule
  {
    if firing[|firing| - 1].rule != rule {
      SameInFront(firing, rule);
      EntryHasRule(firing[..|firing| - 1], rule);
    }
  }

  /** The rule starts firing: it gets a new row. */
  lemma Starts(rows: seq<Row>, polls: seq<Poll>, ss: seq<Stretch>, rule: RuleId, p: Poll)
    requires RecordsAll(rows, polls, ss, rule) && Ascending(ss) && HasRule(p.firing, rule)
    requires ss != [] ==> ss[|ss| - 1].to + 1 < |polls|
    ensures EntryOf(p.firing, rule).rule == rule
    ensures RecordsAll(Upsert(rows, EntryOf(p.firing, rule), p.at), polls + [p], ss + [Stretch(|polls|, |polls|)], rule)
  {
    var f := EntryOf(p.firing, rule);
    EntryHasRule(p.firing, rule);
    OnlyTheLastIsOpen(rows, polls, ss, rule);
    ClosedRowsStay(rows, f, p.firing, p.at);
    ClosedRecordsStay(rows, polls, ss, rule, p);
    RecordsAppend(rows, polls + [p], ss, rule, Row(f, true, p.at, p.at, None), Stretch(|polls|, |polls|));
  }

  /** The rule is silent: an open row is resolved. */
  lemma Stops(rows: seq<Row>, polls: seq<Poll>, ss: seq<Stretch>, rule: RuleId, p: Poll)
    requires RecordsAll(rows, polls, ss, rule) && Ascending(ss) && !HasRule(p.firing, rule)
    ensures RecordsAll(ResolveAll(rows, p.firing, p.at), polls + [p], ss, rule)
  {
    if rows != [] {
      var m := |rows| - 1;
      OnlyTheLastIsOpen(rows, polls, ss, rule);
      ClosedRowsStay(rows[..m], Firing(rule, WARNING, None), p.firing, p.at);
      RecordsFront(rows, polls, ss, rule);
      ClosedRecordsStay(rows[..m], polls, ss[..m], rule, p);
      assert Records(rows[m], polls, ss[m], rule);
      RecordsAppend(rows[..m], polls + [p], ss[..m], rule, Resolved(rows[m], p.firing, p.at), ss[m]);
      assert ss[..m] + [ss[m]] == ss;
    }
  }

  lemma FiringRowsStay(rows: seq<Row>, firing: seq<Firing>, now: int, rule: RuleId)
    requires HasRule(firing, rule) && forall a :: 0 <= a < |rows| ==> rows[a].firing.rule == rule
    ensures ResolveAll(rows, firing, now) == rows
    decreases rows
  {
    if rows != [] {
      FiringRowsStay(rows[..|rows| - 1], firing, now, rule);
    }
  }

  lemma OnePoll(table: seq<Row>, polls: seq<Poll>, ss: seq<Stretch>, rule: RuleId, p: Poll)
    requires OncePerRule(p.firing) && Ascending(ss) && RecordsAll(RowsOf(table, rule), polls, ss, rule)
    requires ss != [] ==> ss[|ss| - 1].to < |polls|
    ensures RecordsAll(RowsOf(Reconciled(table, p.firing, p.at), rule), polls + [p],
      if !HasRule(p.firing, rule) then ss
      else if ss != [] && ss[|ss| - 1].to + 1 == |polls| then ss[..|ss| - 1] + [Stretch(ss[|ss| - 1].from, |polls|)]
      else ss + [Stretch(|polls|, |polls|)], rule)
  {
    var rows := RowsOf(table, rule);
    ResolveRowsOf(UpsertAll(table, p.firing, p.at), p.firing, p.at, rule);
    UpsertAllRowsOf(table, p.firing, p.at, rule);
    if !HasRule(p.firing, rule) {
      Stops(rows, polls, ss, rule, p);
    } else {
      var after := Upsert(rows, EntryOf(p.firing, rule), p.at);
      if ss != [] && ss[|ss| - 1].to + 1 == |polls| {
        Continues(rows, polls, ss, rule, p);
      } else {
        Starts(rows, polls, ss, rule, p);
      }
      FiringRowsStay(after, p.firing, p.at, rule);
    }
  }

  lemma StretchesAppend(polls: seq<Poll>, rule: RuleId, p: Poll)
    ensures var ss := StretchesOf(FiringAt(polls, rule));
      StretchesOf(FiringAt(polls + [p], rule)) ==
      if !HasRule(p.firing, rule) then ss
      else if ss != [] && ss[|ss| - 1].to + 1 == |polls| then ss[..|ss| - 1] + [Stretch(ss[|ss| - 1].from, |polls|)]
      else ss + [Stretch(|polls|, |polls|)]
  {
    var bs := FiringAt(polls + [p], rule);
    assert bs[..|polls|] == FiringAt(polls, rule);
    assert bs[|polls|] == HasRule(p.firing, rule);
  }

  lemma HistoryAppend(polls: seq<Poll>, rule: RuleId, p: Poll)
    requires OncePerRule(p.firing)
    requires RecordsAll(RowsOf(TableAfter(polls), rule), polls, StretchesOf(FiringAt(polls, rule)), rule)
    ensures RecordsAll(RowsOf(TableAfter(polls + [p]), rule), polls + [p], StretchesOf(FiringAt(polls + [p], rule)),
        rule)
  {
    var ss := StretchesOf(FiringAt(polls, rule));
    LastStretchFits(FiringAt(polls, rule));
    TableAppend(polls, p);
    StretchesAppend(polls, rule, p);
    OnePoll(TableAfter(polls), polls, ss, rule, p);
  }

  lemma LastStretchFits(bs: seq<bool>)
    ensures var ss := StretchesOf(bs); Ascending(ss) && (ss != [] ==> ss[|ss| - 1].to < |bs|)
  {
    var ss := StretchesOf(bs);
    StretchesEncode(bs);
    assert ss != [] ==> IsMaximal(bs, ss[|ss| - 1]);
  }

  lemma TableAppend(polls: seq<Poll>, p: Poll)
    ensures TableAfter(polls + [p]) == Reconciled(TableAfter(polls), p.firing, p.at)
  {
    assert (polls + [p])[..|polls|] == polls;
  }

  /**
   * After any sequence of polls the rows of a rule are, in order, its maximal stretches of consecutive
   * firing polls: opened at the first, last seen at the last, resolved at the poll after it, and
   * still active exactly if there is none.
   */
  lemma {:induction false} TableEncodesHistory(polls: seq<Poll>, rule: RuleId)
    requires forall i :: 0 <= i < |polls| ==> OncePerRule(polls[i].firing)
    ensures Encodes(StretchesOf(FiringAt(polls, rule)), FiringAt(polls, rule))
    ensures RecordsAll(RowsOf(TableAfter(polls), rule), polls, StretchesOf(FiringAt(polls, rule)), rule)
  {
    StretchesEncode(FiringAt(polls, rule));
    if polls != [] {
      var front, last := polls[..|polls| - 1], polls[|polls| - 1];
      TableEncodesHistory(front, rule);
      HistoryAppend(front, rule, last);
      assert front + [last] == polls;
    }
  }
}
