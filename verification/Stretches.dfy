/** Maximal stretches of true in a sequence of truth values. */
module Stretches {
  datatype Stretch = Stretch(from: nat, to: nat)

  function StretchesOf(bs: seq<bool>): seq<Stretch> {
    if bs == [] then []
    else
      var n := |bs| - 1;
      var front := StretchesOf(bs[..n]);
      if !bs[n] then front
      else if front != [] && front[|front| - 1].to + 1 == n then
        front[..|front| - 1] + [Stretch(front[|front| - 1].from, n)]
      else front + [Stretch(n, n)]
  }

  /** Consecutive truths with a falsehood, or an end of the sequence, on either side. */
  ghost predicate IsMaximal(bs: seq<bool>, s: Stretch) {
    && s.from <= s.to < |bs|
    && (forall i :: s.from <= i <= s.to ==> bs[i])
    && (s.from > 0 ==> !bs[s.from - 1])
    && (s.to + 1 < |bs| ==> !bs[s.to + 1])
  }

  ghost predicate Ascending(ss: seq<Stretch>) {
    forall a, b :: 0 <= a < b < |ss| ==> ss[a].to + 1 < ss[b].from
  }

  ghost predicate Covers(ss: seq<Stretch>, i: nat) {
    exists a :: 0 <= a < |ss| && ss[a].from <= i <= ss[a].to
  }

  /** Maximal stretches, in order, that leave out no truth. */
  ghost predicate Encodes(ss: seq<Stretch>, bs: seq<bool>) {
    && Ascending(ss)
    && (forall a :: 0 <= a < |ss| ==> IsMaximal(bs, ss[a]))
    && (forall i :: 0 <= i < |bs| && bs[i] ==> Covers(ss, i))
  }

  lemma Silence(ss: seq<Stretch>, bs: seq<bool>)
    requires Encodes(ss, bs)
    ensures Encodes(ss, bs + [false])
  {
    forall a | 0 <= a < |ss| ensures IsMaximal(bs + [false], ss[a]) {
      assert IsMaximal(bs, ss[a]);
    }
  }

  lemma Opening(ss: seq<Stretch>, bs: seq<bool>)
    requires Encodes(ss, bs) && (ss == [] || ss[|ss| - 1].to + 1 < |bs|)
    ensures Encodes(ss + [Stretch(|bs|, |bs|)], bs + [true])
  {
    var n, cs, ts := |bs|, bs + [true], ss + [Stretch(|bs|, |bs|)];
    forall a | 0 <= a < |ss| ensures IsMaximal(cs, ss[a]) && ss[a].to + 1 < n {
      assert IsMaximal(bs, ss[a]);
    }
    assert n > 0 ==> !Covers(ss, n - 1);
    forall i | 0 <= i <= n && cs[i] ensures Covers(ts, i) {
      if i < n {
        var a :| 0 <= a < |ss| && ss[a].from <= i <= ss[a].to;
        assert ts[a] == ss[a];
      } else {
        assert ts[|ss|].from == i;
      }
    }
  }

  lemma Extension(ss: seq<Stretch>, bs: seq<bool>)
    requires Encodes(ss, bs) && ss != [] && ss[|ss| - 1].to + 1 == |bs|
    ensures Encodes(ss[..|ss| - 1] + [Stretch(ss[|ss| - 1].from, |bs|)], bs + [true])
  {
    var n, m, cs := |bs|, |ss| - 1, bs + [true];
    var ts := ss[..m] + [Stretch(ss[m].from, n)];
    assert IsMaximal(bs, ss[m]);
    forall a | 0 <= a < m ensures IsMaximal(cs, ss[a]) {
      assert IsMaximal(bs, ss[a]) && ss[a].to + 1 < ss[m].from;
    }
    forall i | 0 <= i <= n && cs[i] ensures Covers(ts, i) {
      if i < n {
        var a :| 0 <= a < |ss| && ss[a].from <= i <= ss[a].to;
        assert ts[a].from == ss[a].from && ts[a].to >= ss[a].to;
      } else {
        assert ts[m].to == i;
      }
    }
  }

  lemma {:induction false} StretchesEncode(bs: seq<bool>)
    ensures Encodes(StretchesOf(bs), bs)
  {
    if bs != [] {
      var n := |bs| - 1;
      StretchesEncode(bs[..n]);
      assert bs == bs[..n] + [bs[n]];
      StretchesStep(StretchesOf(bs[..n]), bs[..n], bs[n]);
    }
  }

  lemma StretchesStep(ss: seq<Stretch>, bs: seq<bool>, b: bool)
    requires Encodes(ss, bs)
    ensures Encodes(
      if !b then ss
      else if ss != [] && ss[|ss| - 1].to + 1 == |bs| then ss[..|ss| - 1] + [Stretch(ss[|ss| - 1].from, |bs|)]
      else ss + [Stretch(|bs|, |bs|)], bs + [b])
  {
    if !b {
      Silence(ss, bs);
    } else if ss != [] && ss[|ss| - 1].to + 1 == |bs| {
      Extension(ss, bs);
    } else {
      assert ss != [] ==> IsMaximal(bs, ss[|ss| - 1]);
      Opening(ss, bs);
    }
  }
}
