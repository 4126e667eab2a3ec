/** A cursor over a list of `count` entries that steps forward one entry at a
    time and wraps from the last entry to the first: `(prev + 1) % length`,
    as both the games carousel and the promotion banner advance theirs. */
module Cursor {

  /** One step of the cursor: `(prev + 1) % count`, with JavaScript's `%`, whose
      remainder takes the sign of the dividend. From any position that is not
      negative the step lands in range, moves forward by one, and wraps after
      the last entry. */
  function Advance(i: int, count: int): (j: int)
    requires count > 0
    ensures 0 <= i ==> 0 <= j < count
    ensures 0 <= i < count - 1 ==> j == i + 1
    ensures i == count - 1 ==> j == 0
    ensures i + 1 < 0 ==> -count < j <= 0
  {
    if i + 1 >= 0 then (i + 1) % count else -((-(i + 1)) % count)
  }

  /** `k` cursor steps from `i`. */
  function AdvanceN(i: int, k: nat, count: int): int
    requires count > 0
    decreases k
  {
    if k == 0 then i else AdvanceN(Advance(i, count), k - 1, count)
  }

  /** Up to a full cycle of steps from a position in range lands `k` places
      further, wrapping past the last entry at most once. */
  lemma {:induction false} AdvanceNShifts(i: int, k: nat, count: int)
    requires 0 <= i < count && k <= count
    ensures AdvanceN(i, k, count) == if i + k < count then i + k else i + k - count
    decreases k
  {
    if k > 0 {
      AdvanceNShifts(Advance(i, count), k - 1, count);
    }
  }

  /** Wrap-around: after as many steps as there are entries the cursor is back where it started. */
  lemma FullCycleReturns(i: int, count: int)
    requires 0 <= i < count
    ensures AdvanceN(i, count, count) == i
  {
    AdvanceNShifts(i, count, count);
  }
}
