/** Coordinates in a list of lists.

    Templates, Kubernetes statuses and the stored action list all hold the same actions, once
    nested by task and once flat.  A flat position `k` and its coordinates `(i, j)` (list `i`,
    element `j`) determine each other through the lengths of the inner lists alone, so everything
    is stated on the sequence of lengths.
  */
module Nested {

  function Sum(lens: seq<nat>): nat {
    if lens == [] then 0 else Sum(lens[..|lens| - 1]) + lens[|lens| - 1]
  }

  /** The flat position at which list `i` starts. */
  function Offset(lens: seq<nat>, i: nat): nat
    requires i <= |lens|
  {
    Sum(lens[..i])
  }

  /** The coordinates of flat position `k`. */
  function Locate(lens: seq<nat>, k: nat): (c: (nat, nat))
    requires k < Sum(lens)
    ensures c.0 < |lens| && c.1 < lens[c.0]
    ensures Offset(lens, c.0) + c.1 == k
  {
    var n := |lens| - 1;
    if k >= Sum(lens[..n]) then
      (n, k - Sum(lens[..n]))
    else
      var c := Locate(lens[..n], k);
      assert lens[..n][..c.0] == lens[..c.0];
      c
  }

  lemma OffsetStep(lens: seq<nat>, i: nat)
    requires i < |lens|
    ensures Offset(lens, i + 1) == Offset(lens, i) + lens[i]
  {
    assert lens[..i + 1][..i] == lens[..i];
  }

  lemma OffsetWhole(lens: seq<nat>)
    ensures Offset(lens, 0) == 0
    ensures Offset(lens, |lens|) == Sum(lens)
  {
    assert lens[..|lens|] == lens;
  }

  lemma {:induction false} OffsetMonotone(lens: seq<nat>, i: nat, i': nat)
    requires i <= i' <= |lens|
    ensures Offset(lens, i) <= Offset(lens, i')
    decreases i'
  {
    if i < i' {
      OffsetStep(lens, i' - 1);
      OffsetMonotone(lens, i, i' - 1);
    }
  }

  lemma CoordinatesUnique(lens: seq<nat>, i: nat, j: nat, i': nat, j': nat)
    requires i < |lens| && j < lens[i] && i' < |lens| && j' < lens[i']
    requires Offset(lens, i) + j == Offset(lens, i') + j'
    ensures i == i' && j == j'
  {
    OffsetStep(lens, i);
    OffsetStep(lens, i');
    if i < i' {
      OffsetMonotone(lens, i + 1, i');
    } else if i' < i {
      OffsetMonotone(lens, i' + 1, i);
    }
  }

  /** `Locate` inverts the offset arithmetic. */
  lemma LocateUnique(lens: seq<nat>, i: nat, j: nat)
    requires i < |lens| && j < lens[i]
    ensures Offset(lens, i) + j < Sum(lens)
    ensures Locate(lens, Offset(lens, i) + j) == (i, j)
  {
    OffsetStep(lens, i);
    OffsetMonotone(lens, i + 1, |lens|);
    OffsetWhole(lens);
    var c := Locate(lens, Offset(lens, i) + j);
    CoordinatesUnique(lens, i, j, c.0, c.1);
  }

  /** The length of the first list that is not empty. */
  function FirstBlock(lens: seq<nat>): nat {
    if Sum(lens) == 0 then 0 else lens[Locate(lens, 0).0]
  }

  /** Positions in that list are those no element of an earlier list precedes. */
  lemma FirstBlockExact(lens: seq<nat>, k: nat)
    requires k < Sum(lens)
    ensures Offset(lens, Locate(lens, k).0) == 0 <==> k < FirstBlock(lens)
    ensures FirstBlock(lens) <= Sum(lens)
  {
    var f := Locate(lens, 0).0;
    var c := Locate(lens, k);
    LocateUnique(lens, f, lens[f] - 1);
    if k < lens[f] {
      LocateUnique(lens, f, k);
    } else {
      LocateUnique(lens, c.0, 0);
    }
  }

  lemma FirstBlockCoordinates(lens: seq<nat>, k: nat)
    requires k < FirstBlock(lens)
    ensures FirstBlock(lens) <= Sum(lens) && Locate(lens, k).0 == Locate(lens, 0).0
  {
    FirstBlockExact(lens, 0);
    LocateUnique(lens, Locate(lens, 0).0, k);
  }
}
