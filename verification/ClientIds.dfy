/** A numbering of clients by short ids: no two share one, and none is long enough for the limiter to cut it. */
module ClientIds {
  function Code(id: string): nat {
    if id == [] then 0 else (if id[0] == '1' then 1 else 0) + 2 * Code(id[1..])
  }

  /** A number in binary, lowest digit first. */
  function Binary(i: nat): (id: string)
    ensures Code(id) == i && id != []
  {
    var digit := if i % 2 == 1 then '1' else '0';
    if i < 2 then [digit]
    else
      assert ([digit] + Binary(i / 2))[1..] == Binary(i / 2);
      [digit] + Binary(i / 2)
  }

  function Pow2(k: nat): nat {
    if k == 0 then 1 else 2 * Pow2(k - 1)
  }

  /** Not empty, and no longer than the number needs in binary. */
  ghost predicate Fits(id: string, i: nat) {
    id != [] && forall k: nat :: 0 < k && i < Pow2(k) ==> |id| <= k
  }

  lemma {:induction false} BinaryIsShort(i: nat, k: nat)
    requires 0 < k && i < Pow2(k)
    ensures |Binary(i)| <= k
  {
    if i >= 2 { BinaryIsShort(i / 2, k - 1); }
  }

  lemma BinaryFits(i: nat)
    ensures Code(Binary(i)) == i && Fits(Binary(i), i)
  {
    forall k: nat | 0 < k && i < Pow2(k) ensures |Binary(i)| <= k {
      BinaryIsShort(i, k);
    }
  }

  /** The id of client i; chosen by what is needed of it, so that it need not be unfolded. */
  ghost function Name(i: nat): (id: string)
    ensures Code(id) == i
  {
    BinaryFits(i);
    var id :| Code(id) == i && Fits(id, i);
    id
  }

  /** The limiter cuts ids at 256 characters: it cuts none of the first 2^256. */
  lemma NamesFit(i: nat, k: nat)
    requires 0 < k && i < Pow2(k)
    ensures 0 < |Name(i)| <= k
  {
    assert Fits(Name(i), i);
  }

  lemma NamesDiffer(i: nat, j: nat)
    ensures Name(i) == Name(j) <==> i == j
  {
    assert Code(Name(i)) == i && Code(Name(j)) == j;
  }
}
