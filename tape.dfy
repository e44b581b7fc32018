/** The tape cursor: a position on a fixed-length tape that moves one cell at a time
    and is clamped at both ends. */
module Tape {
  /** The direction a state scans in. */
  datatype Direction = Left | Right

  /** The cursor sits on the end cell that a move in `dir` would run past. */
  predicate AtBoundary(dir: Direction, p: nat, n: nat) {
    if dir == Left then p == 0 else p + 1 == n
  }

  /** One move of the cursor in direction `dir` on a tape of `n` cells, written with the
      same clamping expressions the source uses (an integer 0 counts as false there). */
  function ShiftPos(dir: Direction, p: nat, n: nat): (q: nat)
    requires p < n
    ensures q < n
    ensures q == p <==> AtBoundary(dir, p, n)
    ensures q != p ==> q == if dir == Left then p - 1 else p + 1
  {
    if dir == Left then
      var shift := p - 1;
      if shift >= 0 && shift != 0 then shift else 0
    else
      var shift := p + 1;
      if shift < n && shift != 0 then shift else n - 1
  }

  /** Cell `j` is one that a search moving in `dir` from `p` inspects: every cell strictly
      past `p`, and the end cell itself, which is inspected again when the cursor is clamped. */
  predicate Ahead(dir: Direction, p: nat, n: nat, j: nat) {
    j < n && if dir == Left then j < p || j == 0 else j > p || j + 1 == n
  }

  /** Cell `j` lies strictly between the start `p` and the stop `q` of a search in `dir`. */
  predicate Between(dir: Direction, p: nat, q: nat, j: nat) {
    if dir == Left then q < j < p else p < j < q
  }
}
