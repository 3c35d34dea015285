/** Classification of an array move (reorder) operation: its direction, the
    index range it spans, and where an index falls relative to that range.
    These drive the array-move transformations. */
module ArrayMoveHelper {
  import opened Ops

  datatype MoveDirection = Forward | Backward | Identity

  /** A move whose from index is strictly less than its to index. */
  function IsForwardMove(op: Op): (r: bool)
    requires op.kind.ArrayMove?
    ensures r <==> GetRangeMin(op) == op.kind.fromIndex < GetRangeMax(op)
  {
    op.kind.fromIndex < op.kind.toIndex
  }

  /** A move whose from index is strictly greater than its to index. */
  function IsBackwardMoveMove(op: Op): (r: bool)
    requires op.kind.ArrayMove?
    ensures r <==> GetRangeMin(op) == op.kind.toIndex < GetRangeMax(op)
  {
    op.kind.fromIndex > op.kind.toIndex
  }

  /** A move whose from and to indices are equal. */
  function IsIdentityMove(op: Op): (r: bool)
    requires op.kind.ArrayMove?
    ensures r <==> GetRangeMin(op) == GetRangeMax(op)
  {
    op.kind.fromIndex == op.kind.toIndex
  }

  function GetMoveDirection(op: Op): (d: MoveDirection)
    requires op.kind.ArrayMove?
    ensures d == Forward <==> IsForwardMove(op)
    ensures d == Backward <==> IsBackwardMoveMove(op)
    ensures d == Identity <==> IsIdentityMove(op)
  {
    if IsForwardMove(op) then Forward
    else if IsBackwardMoveMove(op) then Backward
    else Identity
  }

  /** Every move has exactly one of the three directions. */
  lemma ExactlyOneDirection(op: Op)
    requires op.kind.ArrayMove?
    ensures IsForwardMove(op) || IsBackwardMoveMove(op) || IsIdentityMove(op)
    ensures !(IsForwardMove(op) && IsBackwardMoveMove(op))
    ensures !(IsForwardMove(op) && IsIdentityMove(op))
    ensures !(IsBackwardMoveMove(op) && IsIdentityMove(op))
  {
  }

  /** `Math.min(fromIndex, toIndex)`. */
  function GetRangeMin(op: Op): (r: int)
    requires op.kind.ArrayMove?
    ensures r <= op.kind.fromIndex && r <= op.kind.toIndex
    ensures r == op.kind.fromIndex || r == op.kind.toIndex
  {
    if op.kind.fromIndex <= op.kind.toIndex then op.kind.fromIndex else op.kind.toIndex
  }

  /** `Math.max(fromIndex, toIndex)`. */
  function GetRangeMax(op: Op): (r: int)
    requires op.kind.ArrayMove?
    ensures r >= op.kind.fromIndex && r >= op.kind.toIndex
    ensures r == op.kind.fromIndex || r == op.kind.toIndex
  {
    if op.kind.fromIndex >= op.kind.toIndex then op.kind.fromIndex else op.kind.toIndex
  }

  /** The range of a move is never empty-reversed, and its ends are fixed by
      the direction of the move. */
  lemma RangeByDirection(op: Op)
    requires op.kind.ArrayMove?
    ensures GetRangeMin(op) <= GetRangeMax(op)
    ensures IsForwardMove(op) ==> GetRangeMin(op) == op.kind.fromIndex && GetRangeMax(op) == op.kind.toIndex
    ensures IsBackwardMoveMove(op) ==> GetRangeMin(op) == op.kind.toIndex && GetRangeMax(op) == op.kind.fromIndex
    ensures IsIdentityMove(op) ==> GetRangeMin(op) == GetRangeMax(op) == op.kind.fromIndex
  {
  }

  /** Entirely before: below both ends of the move. */
  function IndexBeforeRange(op: Op, index: int): (r: bool)
    requires op.kind.ArrayMove?
    ensures r <==> index < op.kind.fromIndex && index < op.kind.toIndex
  {
    index < GetRangeMin(op)
  }

  /** Entirely after: above both ends of the move. */
  function IndexAfterRange(op: Op, index: int): (r: bool)
    requires op.kind.ArrayMove?
    ensures r <==> index > op.kind.fromIndex && index > op.kind.toIndex
  {
    index > GetRangeMax(op)
  }

  /** Strictly inside: the two ends of the range are not within it. */
  function IndexWithinRange(op: Op, index: int): (r: bool)
    requires op.kind.ArrayMove?
    ensures r <==> op.kind.fromIndex < index < op.kind.toIndex || op.kind.toIndex < index < op.kind.fromIndex
  {
    index > GetRangeMin(op) && index < GetRangeMax(op)
  }

  /** Before, within and after are pairwise exclusive; an index on either end
      of the range is in none of them, and every other index is in one. */
  lemma IndexClassification(op: Op, index: int)
    requires op.kind.ArrayMove?
    ensures !(IndexBeforeRange(op, index) && IndexWithinRange(op, index))
    ensures !(IndexBeforeRange(op, index) && IndexAfterRange(op, index))
    ensures !(IndexWithinRange(op, index) && IndexAfterRange(op, index))
    ensures index == GetRangeMin(op) || index == GetRangeMax(op) <==>
      !IndexBeforeRange(op, index) && !IndexWithinRange(op, index) && !IndexAfterRange(op, index)
  {
  }

  /** An identity move spans no index strictly. */
  lemma IdentityMoveContainsNothing(op: Op, index: int)
    requires op.kind.ArrayMove? && IsIdentityMove(op)
    ensures !IndexWithinRange(op, index)
  {
  }

  /** The move with its two indices exchanged. */
  function Reversed(op: Op): (r: Op)
    requires op.kind.ArrayMove?
    ensures r.kind.ArrayMove? && r.id == op.id && r.noOp == op.noOp
    ensures r.kind.fromIndex == op.kind.toIndex && r.kind.toIndex == op.kind.fromIndex
  {
    op.(kind := ArrayMove(op.kind.toIndex, op.kind.fromIndex))
  }

  /** The range and the index classification ignore which end is the source
      and which the target; only the direction flips. */
  lemma ReversedMoveSameRange(op: Op, index: int)
    requires op.kind.ArrayMove?
    ensures GetRangeMin(Reversed(op)) == GetRangeMin(op)
    ensures GetRangeMax(Reversed(op)) == GetRangeMax(op)
    ensures IndexBeforeRange(Reversed(op), index) == IndexBeforeRange(op, index)
    ensures IndexWithinRange(Reversed(op), index) == IndexWithinRange(op, index)
    ensures IndexAfterRange(Reversed(op), index) == IndexAfterRange(op, index)
    ensures IsForwardMove(Reversed(op)) == IsBackwardMoveMove(op)
    ensures IsIdentityMove(Reversed(op)) == IsIdentityMove(op)
  {
  }

  /** `getRangeIndexRelationship`: the range utility, which is not part of
      this model, is a parameter applied to (min, max, index). */
  function GetRangeIndexRelationship<R>(op: Op, index: int, rangeIndexRelationship: (int, int, int) -> R): (r: R)
    requires op.kind.ArrayMove?
    ensures op.kind.fromIndex <= op.kind.toIndex ==> r == rangeIndexRelationship(op.kind.fromIndex, op.kind.toIndex, index)
    ensures op.kind.fromIndex > op.kind.toIndex ==> r == rangeIndexRelationship(op.kind.toIndex, op.kind.fromIndex, index)
  {
    rangeIndexRelationship(GetRangeMin(op), GetRangeMax(op), index)
  }

  /** `getRangeRelationship(op1, op2)`: the range utility is a parameter
      applied to (min1, max1, min2, max2). */
  function GetRangeRelationship<R>(op1: Op, op2: Op, rangeRangeRelationship: (int, int, int, int) -> R): (r: R)
    requires op1.kind.ArrayMove? && op2.kind.ArrayMove?
    ensures op1.kind.fromIndex <= op1.kind.toIndex && op2.kind.fromIndex <= op2.kind.toIndex ==>
      r == rangeRangeRelationship(op1.kind.fromIndex, op1.kind.toIndex, op2.kind.fromIndex, op2.kind.toIndex)
    ensures op1.kind.fromIndex > op1.kind.toIndex && op2.kind.fromIndex > op2.kind.toIndex ==>
      r == rangeRangeRelationship(op1.kind.toIndex, op1.kind.fromIndex, op2.kind.toIndex, op2.kind.fromIndex)
  {
    rangeRangeRelationship(GetRangeMin(op1), GetRangeMax(op1), GetRangeMin(op2), GetRangeMax(op2))
  }

  /** Whatever the range utility computes, the relationship of two moves
      depends only on the (min, max) of each: moves with the same spans, in
      either direction, relate alike. */
  lemma RangeRelationshipBySpan<R>(op1: Op, op2: Op, op3: Op, op4: Op, rel: (int, int, int, int) -> R)
    requires op1.kind.ArrayMove? && op2.kind.ArrayMove? && op3.kind.ArrayMove? && op4.kind.ArrayMove?
    requires GetRangeMin(op1) == GetRangeMin(op3) && GetRangeMax(op1) == GetRangeMax(op3)
    requires GetRangeMin(op2) == GetRangeMin(op4) && GetRangeMax(op2) == GetRangeMax(op4)
    ensures GetRangeRelationship(op1, op2, rel) == GetRangeRelationship(op3, op4, rel)
    ensures GetRangeRelationship(Reversed(op1), op2, rel) == GetRangeRelationship(op1, op2, rel)
  {
    ReversedMoveSameRange(op1, 0);
  }
}
