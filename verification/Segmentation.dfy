/**
 Cutting a stretch of positions into consecutive pieces by a rule that says, for a piece opened at s,
 whether position i may no longer belong to it.
 */
module Segmentation {
  /** One past the last position of piece k. */
  function EndOf(starts: seq<nat>, hi: nat, k: nat): nat
    requires k < |starts|
  {
    if k + 1 < |starts| then starts[k + 1] else hi
  }

  /** Piece k was opened because the rule no longer let its start belong to the piece before. */
  ghost predicate OpensPiece(splits: (nat, nat) -> bool, starts: seq<nat>, k: nat)
    requires 0 < k < |starts|
  {
    splits(starts[k - 1], starts[k])
  }

  ghost predicate InPiece(splits: (nat, nat) -> bool, starts: seq<nat>, k: nat, i: nat)
    requires k < |starts|
  {
    !splits(starts[k], i)
  }

  ghost predicate IsSegmentation(splits: (nat, nat) -> bool, first: nat, hi: nat, starts: seq<nat>) {
    && starts != []
    && starts[0] == first
    && (forall k: nat {:trigger EndOf(starts, hi, k)} | k < |starts| :: starts[k] < EndOf(starts, hi, k))
    && (forall k: nat {:trigger OpensPiece(splits, starts, k)} | 0 < k < |starts| :: OpensPiece(splits, starts, k))
    && (forall k: nat, i: nat {:trigger InPiece(splits, starts, k, i)} |
          k < |starts| && starts[k] < i < EndOf(starts, hi, k) :: InPiece(splits, starts, k, i))
  }

  lemma {:induction false} StartsBelow(splits: (nat, nat) -> bool, first: nat, hi: nat, a: seq<nat>, k: nat)
    requires IsSegmentation(splits, first, hi, a) && k < |a|
    ensures EndOf(a, hi, k) <= hi
    decreases |a| - k
  {
    if k + 1 < |a| {
      StartsBelow(splits, first, hi, a, k + 1);
    }
  }

  /** Two segmentations that share a piece's start end it at the same place. */
  lemma BoundaryNotEarlier(splits: (nat, nat) -> bool, first: nat, hi: nat, a: seq<nat>, b: seq<nat>, k: nat)
    requires IsSegmentation(splits, first, hi, a) && IsSegmentation(splits, first, hi, b)
    requires k < |a| && k < |b| && a[k] == b[k]
    ensures EndOf(a, hi, k) <= EndOf(b, hi, k)
  {
    StartsBelow(splits, first, hi, a, k);
    StartsBelow(splits, first, hi, b, k);
    assert k + 1 < |b| ==> OpensPiece(splits, b, k + 1) && a[k] < EndOf(b, hi, k);
    assert EndOf(b, hi, k) < EndOf(a, hi, k) ==> InPiece(splits, a, k, EndOf(b, hi, k));
  }

  /** A segmentation contains every piece boundary of any other: there is only one. */
  lemma {:induction false} BoundaryShared(
    splits: (nat, nat) -> bool, first: nat, hi: nat, a: seq<nat>, b: seq<nat>, k: nat)
    requires IsSegmentation(splits, first, hi, a) && IsSegmentation(splits, first, hi, b)
    requires k < |a|
    ensures k < |b| && a[k] == b[k]
  {
    if k > 0 {
      BoundaryShared(splits, first, hi, a, b, k - 1);
      BoundaryNotEarlier(splits, first, hi, a, b, k - 1);
      BoundaryNotEarlier(splits, first, hi, b, a, k - 1);
      StartsBelow(splits, first, hi, a, k);
    }
  }

  lemma Unique(splits: (nat, nat) -> bool, first: nat, hi: nat, a: seq<nat>, b: seq<nat>)
    requires IsSegmentation(splits, first, hi, a) && IsSegmentation(splits, first, hi, b)
    ensures a == b
  {
    BoundaryShared(splits, first, hi, a, b, |a| - 1);
    BoundaryShared(splits, first, hi, b, a, |b| - 1);
    forall k: nat | k < |a|
      ensures a[k] == b[k]
    {
      BoundaryShared(splits, first, hi, a, b, k);
    }
  }

  lemma ExtendLast(splits: (nat, nat) -> bool, first: nat, hi: nat, a: seq<nat>)
    requires IsSegmentation(splits, first, hi, a)
    requires !splits(a[|a| - 1], hi)
    ensures IsSegmentation(splits, first, hi + 1, a)
  {
    forall k: nat | k < |a|
      ensures a[k] < EndOf(a, hi + 1, k)
    {
      assert a[k] < EndOf(a, hi, k);
    }
    forall k: nat, i: nat | k < |a| && a[k] < i < EndOf(a, hi + 1, k)
      ensures InPiece(splits, a, k, i)
    {
      if i < EndOf(a, hi, k) {
        assert InPiece(splits, a, k, i);
      }
    }
  }

  lemma OpenNext(splits: (nat, nat) -> bool, first: nat, hi: nat, a: seq<nat>)
    requires IsSegmentation(splits, first, hi, a)
    requires splits(a[|a| - 1], hi)
    ensures IsSegmentation(splits, first, hi + 1, a + [hi])
  {
    var b := a + [hi];
    forall k: nat | k < |b|
      ensures b[k] < EndOf(b, hi + 1, k)
    {
      if k < |a| {
        assert EndOf(b, hi + 1, k) == EndOf(a, hi, k);
      }
    }
    forall k: nat | 0 < k < |b|
      ensures OpensPiece(splits, b, k)
    {
      if k < |a| {
        assert OpensPiece(splits, a, k);
      }
    }
    forall k: nat, i: nat | k < |b| && b[k] < i < EndOf(b, hi + 1, k)
      ensures InPiece(splits, b, k, i)
    {
      assert EndOf(b, hi + 1, k) == EndOf(a, hi, k);
      assert InPiece(splits, a, k, i);
    }
  }

  /** One more position, opening a piece exactly when the rule says so. */
  lemma OneMore(splits: (nat, nat) -> bool, first: nat, hi: nat, a: seq<nat>, opens: bool)
    requires IsSegmentation(splits, first, hi, a)
    requires opens <==> splits(a[|a| - 1], hi)
    ensures IsSegmentation(splits, first, hi + 1, if opens then a + [hi] else a)
  {
    if opens {
      OpenNext(splits, first, hi, a);
    } else {
      ExtendLast(splits, first, hi, a);
    }
  }

  /** The segmentation of the positions from first up to hi, found by one pass. */
  function Greedy(splits: (nat, nat) -> bool, first: nat, hi: nat): (r: seq<nat>)
    ensures if hi <= first then r == [] else r != [] && first <= r[|r| - 1] < hi
  {
    if hi <= first then []
    else if hi == first + 1 then [first]
    else
      var r := Greedy(splits, first, hi - 1);
      if splits(r[|r| - 1], hi - 1) then r + [hi - 1] else r
  }

  lemma OnePiece(splits: (nat, nat) -> bool, first: nat)
    ensures IsSegmentation(splits, first, first + 1, [first])
  {
  }

  lemma {:induction false} GreedyIsSegmentation(splits: (nat, nat) -> bool, first: nat, hi: nat)
    requires first < hi
    ensures IsSegmentation(splits, first, hi, Greedy(splits, first, hi))
  {
    if first + 1 == hi {
      OnePiece(splits, first);
    } else {
      var r := Greedy(splits, first, hi - 1);
      var opens := splits(r[|r| - 1], hi - 1);
      GreedyIsSegmentation(splits, first, hi - 1);
      OneMore(splits, first, hi - 1, r, opens);
      assert Greedy(splits, first, hi) == if opens then r + [hi - 1] else r;
    }
  }
}
