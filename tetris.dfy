/**
 * The Tetris board of 3d/games/game-3/main.js: a 20 by 10 arena of cell
 * values (0 is empty), seven square piece templates, the collision test,
 * merging a piece into the arena, in-place rotation, the row sweep with its
 * doubling score, spawning with game over, and the gravity and key moves.
 *
 * `Math.random()` is the injected stream `rand`; the frame timestamp is a
 * parameter.
 */
module Tetris {
  import opened Options

  const COLS: int := 10
  const ROWS: int := 20
  const DROP_INTERVAL: real := 1000.0
  /** Piece order of the type string "IJLOSTZ"; KINDS is its length. */
  const TYPES: string := "IJLOSTZ"
  const KINDS: nat := 7
  const TEMPLATES: seq<seq<seq<int>>> := [
    [[0, 0, 0, 0], [1, 1, 1, 1], [0, 0, 0, 0], [0, 0, 0, 0]],
    [[2, 0, 0], [2, 2, 2], [0, 0, 0]],
    [[0, 0, 3], [3, 3, 3], [0, 0, 0]],
    [[4, 4], [4, 4]],
    [[0, 5, 5], [5, 5, 0], [0, 0, 0]],
    [[0, 6, 0], [6, 6, 6], [0, 0, 0]],
    [[7, 7, 0], [0, 7, 7], [0, 0, 0]]
  ]

  /** Every row of the board has the same width. */
  predicate Rect(g: seq<seq<int>>, h: int, w: int)
  {
    |g| == h && forall r :: 0 <= r < |g| ==> |g[r]| == w
  }

  /** The arena shape: 20 rows of 10 cells. */
  predicate Shape(a: seq<seq<int>>)
  {
    Rect(a, ROWS, COLS)
  }

  function ZeroRow(w: nat): (row: seq<int>)
    ensures |row| == w && forall c :: 0 <= c < w ==> row[c] == 0
  {
    seq(w, _ => 0)
  }

  function Zeros(k: nat, w: nat): (g: seq<seq<int>>)
    ensures Rect(g, k, w) && forall r :: 0 <= r < k ==> g[r] == ZeroRow(w)
  {
    seq(k, _ => ZeroRow(w))
  }

  /** `createMatrix(w, h)`: h rows of w zeros, built by pushing one row per countdown step. */
  method CreateMatrix(w: nat, h: nat) returns (m: seq<seq<int>>)
    ensures m == Zeros(h, w)
  {
    m := [];
    var left := h;
    while left > 0
      invariant 0 <= left <= h
      invariant m == Zeros(h - left, w)
    {
      left := left - 1;
      m := m + [ZeroRow(w)];
    }
  }

  /** The cells of an array2 matrix, row by row. */
  ghost function Grid(m: array2<int>): (g: seq<seq<int>>)
    reads m
    ensures Rect(g, m.Length0, m.Length1)
    ensures forall i, j :: 0 <= i < m.Length0 && 0 <= j < m.Length1 ==> g[i][j] == m[i, j]
  {
    seq(m.Length0, i requires 0 <= i < m.Length0 reads m =>
      seq(m.Length1, j requires 0 <= j < m.Length1 reads m => m[i, j]))
  }

  /** The arena cell (r, c) exists and is empty. */
  predicate Free(arena: seq<seq<int>>, r: int, c: int)
  {
    0 <= r < |arena| && 0 <= c < |arena[r]| && arena[r][c] == 0
  }

  /**
   * The piece g placed with its top-left corner at (px, py) collides: some
   * nonzero piece cell falls on a missing row, a missing column or a
   * nonzero arena cell.
   */
  predicate Collides(arena: seq<seq<int>>, g: seq<seq<int>>, px: int, py: int)
  {
    exists y, x :: 0 <= y < |g| && 0 <= x < |g[y]| && g[y][x] != 0 && !Free(arena, y + py, x + px)
  }

  /** `collide`: the nested read-only scan with an early return. */
  method Collide(arena: seq<seq<int>>, g: seq<seq<int>>, px: int, py: int) returns (hit: bool)
    ensures hit <==> Collides(arena, g, px, py)
  {
    for y := 0 to |g|
      invariant forall yy, x :: 0 <= yy < y && 0 <= x < |g[yy]| && g[yy][x] != 0 ==> Free(arena, yy + py, x + px)
    {
      for x := 0 to |g[y]|
        invariant forall xx :: 0 <= xx < x && g[y][xx] != 0 ==> Free(arena, y + py, xx + px)
      {
        if g[y][x] != 0 {
          var r, c := y + py, x + px;
          if !(0 <= r < |arena| && 0 <= c < |arena[r]|) || arena[r][c] != 0 {
            return true;
          }
        }
      }
    }
    return false;
  }

  /** Every nonzero piece cell lands inside the arena (what `merge` needs in order to write). */
  predicate Fits(arena: seq<seq<int>>, g: seq<seq<int>>, px: int, py: int)
  {
    forall y, x :: 0 <= y < |g| && 0 <= x < |g[y]| && g[y][x] != 0 ==>
      0 <= y + py < |arena| && 0 <= x + px < |arena[y + py]|
  }

  /** The arena cell (r, c) after merging: the piece value where the piece has a block, else unchanged. */
  function MergedCell(arena: seq<seq<int>>, g: seq<seq<int>>, px: int, py: int, r: int, c: int): int
    requires 0 <= r < |arena| && 0 <= c < |arena[r]|
  {
    var y, x := r - py, c - px;
    if 0 <= y < |g| && 0 <= x < |g[y]| && g[y][x] != 0 then g[y][x] else arena[r][c]
  }

  function Merged(arena: seq<seq<int>>, g: seq<seq<int>>, px: int, py: int): (a: seq<seq<int>>)
    ensures |a| == |arena| && forall r :: 0 <= r < |a| ==> |a[r]| == |arena[r]|
    ensures forall r, c :: 0 <= r < |a| && 0 <= c < |a[r]| ==> a[r][c] == MergedCell(arena, g, px, py, r, c)
  {
    seq(|arena|, r requires 0 <= r < |arena| =>
      seq(|arena[r]|, c requires 0 <= c < |arena[r]| => MergedCell(arena, g, px, py, r, c)))
  }

  /**
   * Merging a fitting piece writes each of its nonzero values at its offset
   * and nothing else; the same piece at the same place then collides with
   * what was merged.
   */
  lemma {:induction false} MergeWrites(arena: seq<seq<int>>, g: seq<seq<int>>, px: int, py: int)
    requires Fits(arena, g, px, py)
    ensures forall y, x :: 0 <= y < |g| && 0 <= x < |g[y]| && g[y][x] != 0 ==>
      Merged(arena, g, px, py)[y + py][x + px] == g[y][x]
    ensures (exists y, x :: 0 <= y < |g| && 0 <= x < |g[y]| && g[y][x] != 0) ==> Collides(Merged(arena, g, px,
        py), g, px, py)
  {
    var a := Merged(arena, g, px, py);
    forall y, x | 0 <= y < |g| && 0 <= x < |g[y]| && g[y][x] != 0
      ensures a[y + py][x + px] == g[y][x]
    {
      assert MergedCell(arena, g, px, py, y + py, x + px) == g[y][x];
    }
    if exists y, x :: 0 <= y < |g| && 0 <= x < |g[y]| && g[y][x] != 0 {
      var y, x :| 0 <= y < |g| && 0 <= x < |g[y]| && g[y][x] != 0;
      assert !Free(a, y + py, x + px);
    }
  }

  /** A matrix that is n by n. */
  predicate Square(g: seq<seq<int>>)
  {
    Rect(g, |g|, |g|)
  }

  /**
   * `rotate(m, dir)`: transpose, then reverse every row (dir > 0, a
   * clockwise turn) or reverse the row order (otherwise, counter-clockwise).
   */
  function Rotated(g: seq<seq<int>>, dir: int): (r: seq<seq<int>>)
    requires Square(g)
    ensures Square(r) && |r| == |g|
  {
    var n := |g|;
    if dir > 0 then seq(n, i requires 0 <= i < n => seq(n, j requires 0 <= j < n => g[n - 1 - j][i]))
    else seq(n, i requires 0 <= i < n => seq(n, j requires 0 <= j < n => g[j][n - 1 - i]))
  }

  /** A turn one way followed by a turn the other way restores the matrix: the undo of the X and Z keys. */
  lemma {:induction false} RotateUndo(g: seq<seq<int>>)
    requires Square(g)
    ensures Rotated(Rotated(g, 1), -1) == g
    ensures Rotated(Rotated(g, -1), 1) == g
  {
    var n := |g|;
    var a, b := Rotated(Rotated(g, 1), -1), Rotated(Rotated(g, -1), 1);
    forall i | 0 <= i < n
      ensures a[i] == g[i] && b[i] == g[i]
    {
      forall j | 0 <= j < n
        ensures a[i][j] == g[i][j] && b[i][j] == g[i][j]
      {
        assert a[i][j] == Rotated(g, 1)[j][n - 1 - i];
        assert b[i][j] == Rotated(g, -1)[n - 1 - j][i];
      }
    }
  }

  /** Some cell of the matrix is nonzero. */
  predicate HasBlock(g: seq<seq<int>>)
  {
    exists y, x :: 0 <= y < |g| && 0 <= x < |g[y]| && g[y][x] != 0
  }

  /** Where rotation by dir carries the cell b of an n by n matrix. */
  function TurnedCell(n: int, b: (int, int), dir: int): (int, int)
  {
    if dir > 0 then (b.1, n - 1 - b.0) else (n - 1 - b.1, b.0)
  }

  /** Rotation moves cells around and never loses a block: the cell b ends up at TurnedCell. */
  lemma {:induction false} RotateMovesBlock(g: seq<seq<int>>, b: (int, int), dir: int)
    requires Square(g) && 0 <= b.0 < |g| && 0 <= b.1 < |g|
    ensures var c := TurnedCell(|g|, b, dir);
      0 <= c.0 < |g| && 0 <= c.1 < |g| && Rotated(g, dir)[c.0][c.1] == g[b.0][b.1]
  {
    var n, c := |g|, TurnedCell(|g|, b, dir);
    if dir > 0 {
      assert Rotated(g, dir)[c.0][c.1] == g[n - 1 - c.1][c.0];
    } else {
      assert Rotated(g, dir)[c.0][c.1] == g[c.1][n - 1 - c.0];
    }
  }

  /** Two matrices of the same shape that agree cell by cell are equal. */
  lemma {:induction false} SameCells(a: seq<seq<int>>, b: seq<seq<int>>, h: nat, w: nat)
    requires Rect(a, h, w) && Rect(b, h, w)
    requires forall i, j :: 0 <= i < h && 0 <= j < w ==> a[i][j] == b[i][j]
    ensures a == b
  {
    forall i | 0 <= i < h
      ensures a[i] == b[i]
    {
      assert forall j :: 0 <= j < w ==> a[i][j] == b[i][j];
    }
  }

  /** The matrix mirrored in its main diagonal. */
  function Transposed(g: seq<seq<int>>): (t: seq<seq<int>>)
    requires Square(g)
    ensures Square(t) && |t| == |g|
  {
    seq(|g|, i requires 0 <= i < |g| => seq(|g|, j requires 0 <= j < |g| => g[j][i]))
  }

  /** Every row of the matrix reversed. */
  function RowsReversed(g: seq<seq<int>>): (t: seq<seq<int>>)
    ensures |t| == |g| && forall i :: 0 <= i < |g| ==> |t[i]| == |g[i]|
  {
    seq(|g|, i requires 0 <= i < |g| => seq(|g[i]|, j requires 0 <= j < |g[i]| => g[i][|g[i]| - 1 - j]))
  }

  /** The rows of the matrix in reverse order. */
  function OrderReversed(g: seq<seq<int>>): (t: seq<seq<int>>)
    ensures |t| == |g| && forall i :: 0 <= i < |g| ==> t[i] == g[|g| - 1 - i]
  {
    seq(|g|, i requires 0 <= i < |g| => g[|g| - 1 - i])
  }

  /** Swap m[x, y] and m[y, x] for every x < y. */
  method Transpose(m: array2<int>)
    requires m.Length0 == m.Length1
    modifies m
    ensures Grid(m) == Transposed(old(Grid(m)))
  {
    var n := m.Length0;
    for y := 0 to n
      invariant forall i, j :: 0 <= i < n && 0 <= j < n ==>
        m[i, j] == if i < y && j < y then old(m[j, i]) else old(m[i, j])
    {
      for x := 0 to y
        invariant forall i, j :: 0 <= i < n && 0 <= j < n ==>
          m[i, j] == if (i < y && j < y) || (i == y && j < x) || (j == y && i < x) then old(m[j, i]) else old(m[i, j])
      {
        m[x, y], m[y, x] := m[y, x], m[x, y];
      }
    }
    SameCells(Grid(m), Transposed(old(Grid(m))), n, n);
  }

  /** `row.reverse()` on every row, in place. */
  method ReverseEachRow(m: array2<int>)
    modifies m
    ensures Grid(m) == RowsReversed(old(Grid(m)))
  {
    var w := m.Length1;
    for i := 0 to m.Length0
      invariant forall ii, j :: 0 <= ii < m.Length0 && 0 <= j < w ==>
        m[ii, j] == if ii < i then old(m[ii, w - 1 - j]) else old(m[ii, j])
    {
      for j := 0 to w / 2
        invariant forall ii, jj :: 0 <= ii < m.Length0 && 0 <= jj < w ==>
          m[ii, jj] == if ii < i || (ii == i && (jj < j || w - 1 - jj < j)) then old(m[ii,
              w - 1 - jj]) else old(m[ii, jj])
      {
        m[i, j], m[i, w - 1 - j] := m[i, w - 1 - j], m[i, j];
      }
    }
    SameCells(Grid(m), RowsReversed(old(Grid(m))), m.Length0, w);
  }

  /** `matrix.reverse()`: the row order reversed, in place. */
  method ReverseRowOrder(m: array2<int>)
    modifies m
    ensures Grid(m) == OrderReversed(old(Grid(m)))
  {
    var h := m.Length0;
    for i := 0 to h / 2
      invariant forall ii, j :: 0 <= ii < h && 0 <= j < m.Length1 ==>
        m[ii, j] == if ii < i || h - 1 - ii < i then old(m[h - 1 - ii, j]) else old(m[ii, j])
    {
      for j := 0 to m.Length1
        invariant forall ii, jj :: 0 <= ii < h && 0 <= jj < m.Length1 ==>
          m[ii, jj] == if ii < i || h - 1 - ii < i || ((ii == i || ii == h - 1 - i) && jj < j)
              then old(m[h - 1 - ii, jj]) else old(m[ii, jj])
      {
        m[i, j], m[h - 1 - i, j] := m[h - 1 - i, j], m[i, j];
      }
    }
    SameCells(Grid(m), OrderReversed(old(Grid(m))), h, m.Length1);
  }

  /** A transpose followed by reversing each row (dir > 0) or the row order (otherwise) is the turn Rotated. */
  lemma {:induction false} TransposeThenReverse(g: seq<seq<int>>, dir: int)
    requires Square(g)
    ensures dir > 0 ==> RowsReversed(Transposed(g)) == Rotated(g, dir)
    ensures dir <= 0 ==> OrderReversed(Transposed(g)) == Rotated(g, dir)
  {
    var n, t := |g|, Transposed(g);
    var after := if dir > 0 then RowsReversed(t) else OrderReversed(t);
    forall i, j | 0 <= i < n && 0 <= j < n
      ensures after[i][j] == Rotated(g, dir)[i][j]
    {
      if dir > 0 {
        assert after[i][j] == t[i][n - 1 - j];
      } else {
        assert after[i][j] == t[n - 1 - i][j];
      }
    }
    SameCells(after, Rotated(g, dir), n, n);
  }

  /** `rotate(matrix, dir)` in place on a square matrix. */
  method Rotate(m: array2<int>, dir: int)
    requires m.Length0 == m.Length1
    modifies m
    ensures Grid(m) == Rotated(old(Grid(m)), dir)
  {
    TransposeThenReverse(Grid(m), dir);
    Transpose(m);
    if dir > 0 {
      ReverseEachRow(m);
    } else {
      ReverseRowOrder(m);
    }
  }

  /** Every cell of the row is nonzero. */
  predicate Full(row: seq<int>)
  {
    forall c :: 0 <= c < |row| ==> row[c] != 0
  }

  /** The rows that are not full, in their order. */
  function NonFull(a: seq<seq<int>>): (rest: seq<seq<int>>)
    ensures |rest| <= |a|
  {
    if a == [] then []
    else (if Full(a[0]) then [] else [a[0]]) + NonFull(a[1..])
  }

  /** The kept rows are exactly the rows of a that are not full: none is full, and each comes from a. */
  lemma {:induction false} NonFullKept(a: seq<seq<int>>)
    ensures forall r :: 0 <= r < |NonFull(a)| ==> !Full(NonFull(a)[r]) && NonFull(a)[r] in a
    ensures forall r :: 0 <= r < |a| && !Full(a[r]) ==> a[r] in NonFull(a)
  {
    if a != [] {
      NonFullKept(a[1..]);
      forall r | 0 <= r < |a| && !Full(a[r])
        ensures a[r] in NonFull(a)
      {
        if r > 0 {
          assert a[r] == a[1..][r - 1];
        }
      }
    }
  }

  /** The number of full rows. */
  function CountFull(a: seq<seq<int>>): nat
  {
    if a == [] then 0 else (if Full(a[0]) then 1 else 0) + CountFull(a[1..])
  }

  /** The full rows and the kept rows together are all the rows. */
  lemma {:induction false} CountSplit(a: seq<seq<int>>)
    ensures CountFull(a) + |NonFull(a)| == |a|
  {
    if a != [] {
      CountSplit(a[1..]);
    }
  }

  /** The board after `arenaSweep`: one zero row on top for every full row removed, then the rest in order. */
  function Swept(a: seq<seq<int>>): seq<seq<int>>
  {
    Zeros(CountFull(a), COLS) + NonFull(a)
  }

  /** The sweep keeps the board 20 by 10. */
  lemma {:induction false} SweptShape(a: seq<seq<int>>)
    requires Shape(a)
    ensures Shape(Swept(a))
  {
    SweptRows(a);
  }

  /** The sweep leaves no full row behind. */
  lemma {:induction false} SweptNoFull(a: seq<seq<int>>)
    requires Shape(a)
    ensures forall r :: 0 <= r < |Swept(a)| ==> !Full(Swept(a)[r])
  {
    SweptRows(a);
  }

  /** Each of the 20 swept rows has 10 cells and is not full. */
  lemma {:induction false} SweptRows(a: seq<seq<int>>)
    requires Shape(a)
    ensures |Swept(a)| == ROWS
    ensures forall r :: 0 <= r < ROWS ==> |Swept(a)[r]| == COLS && !Full(Swept(a)[r])
  {
    CountSplit(a);
    NonFullKept(a);
    var s := Swept(a);
    forall r | 0 <= r < ROWS
      ensures |s[r]| == COLS && !Full(s[r])
    {
      if r < CountFull(a) {
        assert s[r] == ZeroRow(COLS) && s[r][0] == 0;
      } else {
        assert s[r] == NonFull(a)[r - CountFull(a)];
      }
    }
  }

  function Pow2(k: nat): (p: nat)
    ensures p >= 1
  {
    if k == 0 then 1 else 2 * Pow2(k - 1)
  }

  /** The score for clearing k rows in one sweep: 10, 20, 40, ... summed. */
  function Bonus(k: nat): int
  {
    10 * (Pow2(k) - 1)
  }

  lemma {:induction false} NonFullStep(a: seq<seq<int>>, j: nat)
    requires 1 <= j <= |a|
    ensures NonFull(a[j - 1..]) == (if Full(a[j - 1]) then [] else [a[j - 1]]) + NonFull(a[j..])
  {
    assert a[j - 1..][1..] == a[j..];
  }

  lemma {:induction false} CountFullStep(a: seq<seq<int>>, j: nat)
    requires 1 <= j <= |a|
    ensures CountFull(a[j - 1..]) == (if Full(a[j - 1]) then 1 else 0) + CountFull(a[j..])
  {
    assert a[j - 1..][1..] == a[j..];
  }

  /** Without a collision every nonzero piece cell is inside the arena, so `merge` can write it. */
  lemma {:induction false} NoCollideFits(arena: seq<seq<int>>, g: seq<seq<int>>, px: int, py: int)
    requires !Collides(arena, g, px, py)
    ensures Fits(arena, g, px, py)
  {
    forall y, x | 0 <= y < |g| && 0 <= x < |g[y]| && g[y][x] != 0
      ensures 0 <= y + py < |arena| && 0 <= x + px < |arena[y + py]|
    {
      assert Free(arena, y + py, x + px);
    }
  }

  /** A piece with a block that does not collide has its top row above the arena floor. */
  lemma {:induction false} NoCollideAboveFloor(arena: seq<seq<int>>, g: seq<seq<int>>, px: int, py: int)
    requires HasBlock(g) && !Collides(arena, g, px, py)
    ensures py < |arena|
  {
    var y, x :| 0 <= y < |g| && 0 <= x < |g[y]| && g[y][x] != 0;
    assert Free(arena, y + py, x + px);
  }

  /** The spawn column `floor((10 - width) / 2)`. */
  function SpawnX(side: nat): int
  {
    (COLS - side) / 2
  }

  /** On an empty arena a square piece of side 2 to 4 never collides at its spawn point. */
  lemma {:induction false} EmptyArenaSpawn(g: seq<seq<int>>)
    requires Square(g) && 2 <= |g| <= 4
    ensures !Collides(Zeros(ROWS, COLS), g, SpawnX(|g|), 0)
  {
    var a := Zeros(ROWS, COLS);
    forall y, x | 0 <= y < |g| && 0 <= x < |g[y]| && g[y][x] != 0
      ensures Free(a, y, x + SpawnX(|g|))
    {
      assert a[y] == ZeroRow(COLS);
    }
  }

  /** What one lock leaves on the board: the piece merged, then the full rows swept. */
  function Locked(arena: seq<seq<int>>, g: seq<seq<int>>, px: int, py: int): seq<seq<int>>
  {
    Swept(Merged(arena, g, px, py))
  }

  /** The part of the board a lock or a spawn decides. */
  datatype Outcome = Outcome(arena: seq<seq<int>>, score: int, running: bool)

  /**
   * What a spawn of the piece h leaves as arena, score and running flag: all
   * as they were if h is free at its spawn point, else game over on an
   * emptied arena with the score zeroed.
   */
  function SpawnOutcome(a: seq<seq<int>>, s: int, wasRunning: bool, h: seq<seq<int>>): Outcome
  {
    if Collides(a, h, SpawnX(|h|), 0) then Outcome(Zeros(ROWS, COLS), 0, false) else Outcome(a, s, wasRunning)
  }

  /**
   * What a lock leaves: the piece g merged at (px, py), the full rows swept
   * with the sweep's score added, then the next piece h spawned.
   */
  function LockOutcome(a: seq<seq<int>>, g: seq<seq<int>>, px: int, py: int, s: int, wasRunning: bool,
      h: seq<seq<int>>): Outcome
  {
    SpawnOutcome(Locked(a, g, px, py), s + Bonus(CountFull(Merged(a, g, px, py))), wasRunning, h)
  }

  /** `Math.floor(r * 7)`: an index into the type string "IJLOSTZ". */
  function Pick(r: real): (k: nat)
    requires 0.0 <= r < 1.0
    ensures k < KINDS
  {
    (r * 7.0).Floor
  }
  /** A square template of side 2 to 4 with a block at the cell b. */
  predicate Template(g: seq<seq<int>>, b: (int, int))
  {
    Square(g) && 2 <= |g| <= 4 && 0 <= b.0 < |g| && 0 <= b.1 < |g| && g[b.0][b.1] != 0
  }

  /** The seven templates, each with a witness block. */
  predicate Templates(ps: seq<seq<seq<int>>>, bs: seq<(int, int)>)
  {
    |ps| == KINDS && |bs| == KINDS && forall i :: 0 <= i < KINDS ==> Template(ps[i], bs[i])
  }

  /** Replacing one template by another keeps the seven valid. */
  lemma {:induction false} TemplatesUpdate(ps: seq<seq<seq<int>>>, bs: seq<(int, int)>, k: nat,
      g: seq<seq<int>>, b: (int, int))
    requires Templates(ps, bs) && k < KINDS && Template(g, b)
    ensures Templates(ps[k := g], bs[k := b])
  {
    var ps', bs' := ps[k := g], bs[k := b];
    forall i | 0 <= i < KINDS
      ensures Template(ps'[i], bs'[i])
    {
      if i != k {
        assert ps'[i] == ps[i] && bs'[i] == bs[i];
      }
    }
  }

  /** A block of each template in "IJLOSTZ" order. */
  const BLOCKS: seq<(int, int)> := [(1, 0), (0, 0), (0, 2), (0, 0), (0, 1), (0, 1), (0, 0)]

  /** The literal templates are seven squares of side 2 to 4 with a block at BLOCKS. */
  lemma {:induction false} TemplatesLiteral()
    ensures Templates(TEMPLATES, BLOCKS)
  {
    forall i | 0 <= i < KINDS
      ensures Template(TEMPLATES[i], BLOCKS[i])
    {
      if i == 0 { assert TEMPLATES[0][1][0] == 1; }
    }
  }

  /** The board part of the sweep invariant: r zero rows, the j unscanned rows, the kept scanned rows. */
  function SweepState(a: seq<seq<int>>, r: nat, j: nat): seq<seq<int>>
    requires j <= |a|
  {
    Zeros(r, COLS) + a[..j] + NonFull(a[j..])
  }

  /** The row the sweep looks at next is an unscanned row, or a zero row once all have been scanned. */
  lemma {:induction false} SweepRowAt(a: seq<seq<int>>, r: nat, j: nat, y: int)
    requires Shape(a) && j <= |a| && 0 <= y < r + j && (j > 0 ==> y + 1 == r + j)
    ensures j > 0 ==> SweepState(a, r, j)[y] == a[j - 1]
    ensures j == 0 ==> SweepState(a, r, j)[y] == ZeroRow(COLS) && !Full(SweepState(a, r, j)[y])
  {
    var st := SweepState(a, r, j);
    if j == 0 {
      assert st[y] == Zeros(r, COLS)[y];
      assert st[y][0] == 0;
    } else {
      assert st[y] == (Zeros(r, COLS) + a[..j])[y];
    }
  }

  /** A kept row is stepped over: the state is the same with one row fewer unscanned. */
  lemma {:induction false} SweepKeep(a: seq<seq<int>>, r: nat, j: nat)
    requires 1 <= j <= |a| && !Full(a[j - 1])
    ensures SweepState(a, r, j) == SweepState(a, r, j - 1)
  {
    NonFullStep(a, j);
    assert a[..j] == a[..j - 1] + [a[j - 1]];
  }

  /** Cutting x out of z + (p + [x]) + n and putting w on top gives [w] + z, then p, then n. */
  lemma CutOut<T>(w: T, z: seq<T>, p: seq<T>, x: T, n: seq<T>)
    ensures var st, y := z + (p + [x]) + n, |z| + |p|;
      y < |st| && st[y] == x && [w] + st[..y] + st[y + 1..] == ([w] + z) + p + n
  {
    var st, y := z + (p + [x]) + n, |z| + |p|;
    assert st == (z + p) + ([x] + n);
    assert st[..y] == z + p;
    assert st[y + 1..] == n;
  }

  /** A full row is cut out and a zero row put on top: one more zero row, one row fewer unscanned. */
  lemma {:induction false} SweepCut(a: seq<seq<int>>, r: nat, j: nat)
    requires 1 <= j <= |a| && |a[j - 1]| == COLS && Full(a[j - 1])
    ensures var st, y := SweepState(a, r, j), r + j - 1;
      [ZeroRow(|st[y]|)] + st[..y] + st[y + 1..] == SweepState(a, r + 1, j - 1)
  {
    NonFullStep(a, j);
    assert a[..j] == a[..j - 1] + [a[j - 1]];
    CutOut(ZeroRow(COLS), Zeros(r, COLS), a[..j - 1], a[j - 1], NonFull(a[j..]));
    assert [ZeroRow(COLS)] + Zeros(r, COLS) == Zeros(r + 1, COLS);
  }

  /** One step of the sweep from the state with r zero rows and j unscanned rows, looking at row y. */
  lemma {:induction false} SweepNext(a: seq<seq<int>>, r: nat, j: nat, y: int)
    requires Shape(a) && j <= |a| && 0 <= y < r + j && (j > 0 ==> y + 1 == r + j)
    ensures var st := SweepState(a, r, j);
      && y < |st|
      && (!Full(st[y]) && j > 0 ==> st == SweepState(a, r, j - 1) && CountFull(a[j - 1..]) == CountFull(a[j..]))
      && (Full(st[y]) ==> j > 0 && |st[y]| == COLS && [ZeroRow(COLS)] + st[..y] + st[y + 1..] == SweepState(a,
          r + 1, j - 1)
                          && CountFull(a[j - 1..]) == CountFull(a[j..]) + 1)
  {
    SweepRowAt(a, r, j, y);
    if j > 0 {
      CountFullStep(a, j);
      if Full(a[j - 1]) {
        SweepCut(a, r, j);
      } else {
        SweepKeep(a, r, j);
      }
    }
  }

  /** The full test of `arenaSweep`'s inner loop. */
  method RowFull(row: seq<int>) returns (full: bool)
    ensures full <==> Full(row)
  {
    for x := 0 to |row|
      invariant forall c :: 0 <= c < x ==> row[c] != 0
    {
      if row[x] == 0 {
        return false;
      }
    }
    return true;
  }

  /** `merge(arena, player)`: each nonzero piece cell written at its offset, cell by cell. */
  method MergePiece(arena: seq<seq<int>>, g: seq<seq<int>>, px: int, py: int) returns (a: seq<seq<int>>)
    requires Fits(arena, g, px, py)
    ensures a == Merged(arena, g, px, py)
  {
    a := arena;
    for y := 0 to |g|
      invariant |a| == |arena| && forall r :: 0 <= r < |a| ==> |a[r]| == |arena[r]|
      invariant forall r, c :: 0 <= r < |a| && 0 <= c < |a[r]| ==>
        a[r][c] == if r - py < y then MergedCell(arena, g, px, py, r, c) else arena[r][c]
    {
      for x := 0 to |g[y]|
        invariant |a| == |arena| && forall r :: 0 <= r < |a| ==> |a[r]| == |arena[r]|
        invariant forall r, c :: 0 <= r < |a| && 0 <= c < |a[r]| ==>
          a[r][c] == if r - py < y || (r - py == y && c - px < x) then MergedCell(arena, g, px, py, r,
              c) else arena[r][c]
      {
        var v := g[y][x];
        if v != 0 {
          var r, c := y + py, x + px;
          a := a[r := a[r][c := v]];
        }
      }
    }
    assert forall r :: 0 <= r < |a| ==> a[r] == Merged(arena, g, px, py)[r];
  }

  /**
   * `arenaSweep`: scanning from the bottom, each full row is cut out and a
   * zero row put on top, the same index looked at again, and the score
   * raised by 10, 20, 40, ... for the first, second, third row.
   */
  method Sweep(arena: seq<seq<int>>, score0: int) returns (a: seq<seq<int>>, score: int)
    requires Shape(arena)
    ensures a == Swept(arena)
    ensures score == score0 + Bonus(CountFull(arena))
  {
    a, score := arena, score0;
    var rowCount := 1;
    ghost var r: nat := 0;
    ghost var j: nat := |arena|;
    var y := |a| - 1;
    while y >= 0
      invariant -1 <= y && j <= |arena|
      invariant a == SweepState(arena, r, j)
      invariant y + 1 <= r + j
      invariant j > 0 ==> y + 1 == r + j
      invariant r == CountFull(arena[j..])
      invariant rowCount == Pow2(r) && score == score0 + Bonus(r)
      decreases y + 1 + j
    {
      SweepNext(arena, r, j, y);
      var full := RowFull(a[y]);
      if !full {
        if j > 0 {
          j := j - 1;
        }
        y := y - 1;
      } else {
        a := [ZeroRow(|a[y]|)] + a[..y] + a[y + 1..];
        score := score + rowCount * 10;
        rowCount := rowCount * 2;
        r, j := r + 1, j - 1;
      }
    }
    assert arena[..0] == [] && arena[0..] == arena;
  }

  /**
   * The hard drop from row py ends on row `landed`: every row from py down
   * to it is free and the next one collides, so it is the first row above a
   * collision.
   */
  ghost predicate LandsAt(arena: seq<seq<int>>, g: seq<seq<int>>, px: int, py: int, landed: int)
  {
    && landed >= py
    && (forall y :: py <= y <= landed ==> !Collides(arena, g, px, y))
    && Collides(arena, g, px, landed + 1)
  }

  /** The landing row of a hard drop is unique. */
  lemma {:induction false} LandsAtUnique(arena: seq<seq<int>>, g: seq<seq<int>>, px: int, py: int, l1: int, l2: int)
    requires LandsAt(arena, g, px, py, l1) && LandsAt(arena, g, px, py, l2)
    ensures l1 == l2
  {
  }

  /**
   * The fall of the space bar: from a free row, step down while the piece
   * does not collide, then back up one. The block b shows the fall ends.
   */
  method DropRow(arena: seq<seq<int>>, g: seq<seq<int>>, px: int, py: int, ghost b: (int, int)) returns (landed: int)
    requires !Collides(arena, g, px, py)
    requires 0 <= b.0 < |g| && 0 <= b.1 < |g[b.0]| && g[b.0][b.1] != 0
    ensures LandsAt(arena, g, px, py, landed)
  {
    var y := py;
    var hit := false;
    while !hit
      invariant y >= py
      invariant hit <==> Collides(arena, g, px, y)
      invariant forall yy :: py <= yy < y ==> !Collides(arena, g, px, yy)
      invariant y == py ==> !Collides(arena, g, px, y)
      decreases |arena| - y
    {
      NoCollideAboveFloor(arena, g, px, y);
      y := y + 1;
      hit := Collide(arena, g, px, y);
    }
    landed := y - 1;
  }

  /** What a key press asks of the board; Spin carries 1 for a clockwise turn and -1 otherwise. */
  datatype Action = Ignore | Move(dx: int) | Down | Spin(dir: int) | Plunge

  /**
   * The keydown handler's dispatch: the arrows shift or drop, X and Z turn,
   * the space bar (matched on the key code) drops hard; the first match wins.
   */
  function KeyAction(key: string, code: string): (act: Action)
    ensures act.Spin? ==> act.dir == 1 || act.dir == -1
  {
    if key == "ArrowLeft" then Move(-1)
    else if key == "ArrowRight" then Move(1)
    else if key == "ArrowDown" then Down
    else if key == "x" || key == "X" then Spin(1)
    else if key == "z" || key == "Z" then Spin(-1)
    else if code == "Space" then Plunge
    else Ignore
  }

  /** `merge` then `arenaSweep`: a piece that does not collide is written into the arena and the full rows swept. */
  method LockPiece(arena: seq<seq<int>>, g: seq<seq<int>>, px: int, py: int,
      score0: int) returns (a: seq<seq<int>>, score: int)
    requires Shape(arena) && !Collides(arena, g, px, py)
    ensures Shape(a) && a == Locked(arena, g, px, py)
    ensures score == score0 + Bonus(CountFull(Merged(arena, g, px, py)))
  {
    NoCollideFits(arena, g, px, py);
    var merged := MergePiece(arena, g, px, py);
    SweptShape(merged);
    a, score := Sweep(merged, score0);
  }

  /** The part of the board the key moves and drops change, as a value. */
  datatype Play = Play(
    arena: seq<seq<int>>, pieces: seq<seq<seq<int>>>, current: nat, posX: int, posY: int, score: int,
    nextPiece: Option<nat>, drawn: nat, running: bool)

  /** A sideways move by dx from b, taken back if the piece then collides. */
  predicate Moved(b: Play, a: Play, dx: int)
  {
    && b.current < |b.pieces|
    && a == b.(posX := if Collides(b.arena, b.pieces[b.current], b.posX + dx, b.posY) then b.posX else b.posX + dx)
  }

  /** A turn of the current template by dir from b, taken back if the turned piece collides. */
  predicate Spun(b: Play, a: Play, dir: int)
  {
    && b.current < |b.pieces| && Square(b.pieces[b.current])
    && var r := Rotated(b.pieces[b.current], dir);
       a == if Collides(b.arena, r, b.posX, b.posY) then b else b.(pieces := b.pieces[b.current := r])
  }

  /**
   * A lock at row `row` from b, then `playerReset`: merge and sweep, the
   * queued type current, the next draw of `rand` queued, and the new piece
   * spawned at the top by SpawnOutcome.
   */
  predicate LockedAt(rand: nat -> Fraction, b: Play, a: Play, row: int)
  {
    && b.current < |b.pieces| && b.nextPiece.Some? && b.nextPiece.value < |b.pieces|
    && var h := b.pieces[b.nextPiece.value];
       var o := LockOutcome(b.arena, b.pieces[b.current], b.posX, row, b.score, b.running, h);
       a == b.(arena := o.arena, score := o.score, running := o.running, current := b.nextPiece.value,
               nextPiece := Some(Pick(rand(b.drawn))), drawn := b.drawn + 1, posX := SpawnX(|h|), posY := 0)
  }

  /** One row down from b when that row is free, otherwise a lock where the piece stands. */
  predicate Dropped(rand: nat -> Fraction, b: Play, a: Play)
  {
    && b.current < |b.pieces|
    && if Collides(b.arena, b.pieces[b.current], b.posX, b.posY + 1) then LockedAt(rand, b, a, b.posY)
       else a == b.(posY := b.posY + 1)
  }

  class Board {
    const rand: nat -> Fraction
    var drawn: nat
    var arena: seq<seq<int>>
    /**
     * The seven templates in "IJLOSTZ" order. The falling piece is the
     * template `pieces[current]` itself, not a copy, so a turn changes that
     * template for every later spawn of its type.
     */
    var pieces: seq<seq<seq<int>>>
    /** A block of each template, which rotation moves but never removes. */
    ghost var blocks: seq<(int, int)>
    var current: nat
    var posX: int
    var posY: int
    var score: int
    var nextPiece: Option<nat>
    var running: bool
    var lastTime: real
    var dropCounter: real

    /** The board as a value. */
    function Snapshot(): Play
      reads this`arena, this`pieces, this`current, this`posX, this`posY, this`score, this`nextPiece, this`drawn,
        this`running
    {
      Play(arena, pieces, current, posX, posY, score, nextPiece, drawn, running)
    }

    /** The board invariant: 20 by 10, the current piece is a template, and it never overlaps. */
    ghost predicate Valid()
      reads this`arena, this`pieces, this`blocks, this`current, this`nextPiece, this`posX, this`posY
    {
      && Shape(arena)
      && Templates(pieces, blocks)
      && current < KINDS
      && nextPiece.Some? && nextPiece.value < KINDS
      && !Collides(arena, pieces[current], posX, posY)
    }

    /** Page load: an empty arena, the templates, then the first spawn. */
    constructor (rand: nat -> Fraction)
      ensures Valid() && pieces == TEMPLATES && score == 0 && running
      ensures current == Pick(rand(0)) && nextPiece == Some(Pick(rand(1))) && drawn == 2
      ensures posY == 0 && posX == SpawnX(|pieces[current]|) && arena == Zeros(ROWS, COLS)
      ensures lastTime == 0.0 && dropCounter == 0.0
    {
      this.rand := rand;
      drawn := 0;
      var a := CreateMatrix(COLS, ROWS);
      arena := a;
      TemplatesLiteral();
      pieces := TEMPLATES;
      blocks := BLOCKS;
      current := 0;
      posX, posY := 0, 0;
      score := 0;
      nextPiece := None;
      running := true;
      lastTime, dropCounter := 0.0, 0.0;
      new;
      EmptyArenaSpawn(pieces[Pick(rand(0))]);
      PlayerReset();
    }

    /** One `Math.random()` draw. */
    method Random() returns (r: Fraction)
      modifies this`drawn
      ensures r == rand(old(drawn)) && drawn == old(drawn) + 1
    {
      r := rand(drawn);
      drawn := drawn + 1;
    }

    /**
     * The first half of `playerReset`: the queued type becomes current,
     * drawing one first if none is queued, and a new one is queued.
     */
    method DrawNext()
      modifies this`drawn, this`nextPiece, this`current
      ensures current < KINDS && drawn >= 1 && nextPiece == Some(Pick(rand(drawn - 1)))
      ensures old(nextPiece).Some? && old(nextPiece).value < KINDS ==>
        current == old(nextPiece).value && drawn == old(drawn) + 1
      ensures !(old(nextPiece).Some? && old(nextPiece).value < KINDS) ==>
        current == Pick(rand(old(drawn))) && drawn == old(drawn) + 2
    {
      if nextPiece.None? || nextPiece.value >= KINDS {
        var r := Random();
        nextPiece := Some(Pick(r));
      }
      current := nextPiece.value;
      var r := Random();
      nextPiece := Some(Pick(r));
    }

    /**
     * The second half of `playerReset`: the piece spawns at row 0, column
     * floor((10 - width) / 2). A collision there is game over: the arena is
     * emptied, the score zeroed and the game stopped.
     */
    method Spawn()
      requires Shape(arena) && Templates(pieces, blocks) && current < KINDS
      modifies this`posX, this`posY, this`arena, this`score, this`running
      ensures posY == 0 && posX == SpawnX(|pieces[current]|)
      ensures !Collides(arena, pieces[current], posX, posY)
      ensures var o := SpawnOutcome(old(arena), old(score), old(running), pieces[current]);
        arena == o.arena && score == o.score && running == o.running
    {
      posY := 0;
      posX := SpawnX(|pieces[current]|);
      var hit := Collide(arena, pieces[current], posX, posY);
      if hit {
        ClearArena();
        score := 0;
        running := false;
        EmptyArenaSpawn(pieces[current]);
      }
    }

    /** `playerReset`: the next piece drawn, then spawned. */
    method PlayerReset()
      requires Shape(arena) && Templates(pieces, blocks)
      modifies this`drawn, this`nextPiece, this`current, this`posX, this`posY, this`arena, this`score, this`running
      ensures Valid() && posY == 0 && posX == SpawnX(|pieces[current]|)
      ensures old(nextPiece).Some? && old(nextPiece).value < KINDS ==>
        current == old(nextPiece).value && nextPiece == Some(Pick(rand(old(drawn)))) && drawn == old(drawn) + 1
      ensures !(old(nextPiece).Some? && old(nextPiece).value < KINDS) ==>
        current == Pick(rand(old(drawn))) && nextPiece == Some(Pick(rand(old(drawn) + 1))) && drawn == old(drawn) + 2
      ensures var o := SpawnOutcome(old(arena), old(score), old(running), pieces[current]);
        arena == o.arena && score == o.score && running == o.running
    {
      DrawNext();
      Spawn();
    }

    /** The game-over wipe: every row filled with 0 in place. */
    method ClearArena()
      requires Shape(arena)
      modifies this`arena
      ensures arena == Zeros(ROWS, COLS)
    {
      for r := 0 to |arena|
        invariant Shape(arena)
        invariant forall k :: 0 <= k < r ==> arena[k] == ZeroRow(COLS)
      {
        arena := arena[r := ZeroRow(|arena[r]|)];
      }
      assert forall k :: 0 <= k < ROWS ==> arena[k] == Zeros(ROWS, COLS)[k];
    }

    /**
     * After `playerReset` from queue n0 with d0 draws used: the queued type
     * is current and the next draw of the stream is queued.
     */
    ghost predicate NextDealt(n0: Option<nat>, d0: nat)
      reads this`current, this`nextPiece, this`drawn
    {
      n0.Some? && current == n0.value && nextPiece == Some(Pick(rand(d0))) && drawn == d0 + 1
    }

    /** The shared tail of a landing: merge, sweep, spawn the next piece. */
    method Lock()
      requires Valid()
      modifies this`drawn, this`nextPiece, this`current, this`posX, this`posY, this`arena, this`score, this`running
      ensures Valid()
      ensures posY == 0 && posX == SpawnX(|pieces[current]|)
      ensures NextDealt(old(nextPiece), old(drawn))
      ensures LockedAt(rand, old(Snapshot()), Snapshot(), old(posY))
      ensures var o := LockOutcome(old(arena), old(pieces[current]), old(posX), old(posY), old(score),
          old(running), pieces[current]);
        arena == o.arena && score == o.score && running == o.running
    {
      ghost var b := Snapshot();
      arena, score := LockPiece(arena, pieces[current], posX, posY, score);
      PlayerReset();
      assert LockedAt(rand, b, Snapshot(), b.posY);
    }

    /** `update(time)`: gravity moves the piece down one row once more than 1000 ms have gathered. */
    method Update(time: real)
      requires Valid()
      modifies this`drawn, this`nextPiece, this`current, this`posX, this`posY, this`arena, this`score,
          this`running, this`lastTime, this`dropCounter
      ensures Valid() && lastTime == time
      ensures !old(running) ==>
        arena == old(arena) && posX == old(posX) && posY == old(posY) && score == old(score) &&
        dropCounter == old(dropCounter) && !running &&
        current == old(current) && nextPiece == old(nextPiece) && drawn == old(drawn)
      ensures old(running) && old(dropCounter) + (time - old(lastTime)) <= DROP_INTERVAL ==>
        arena == old(arena) && posX == old(posX) && posY == old(posY) && score == old(score) && running &&
        current == old(current) && nextPiece == old(nextPiece) && drawn == old(drawn) &&
        dropCounter == old(dropCounter) + (time - old(lastTime))
      ensures old(running) && old(dropCounter) + (time - old(lastTime)) > DROP_INTERVAL ==>
        && dropCounter == 0.0
        && Dropped(rand, old(Snapshot()), Snapshot())
        && (!Collides(old(arena), old(pieces[current]), old(posX), old(posY) + 1) ==>
              posY == old(posY) + 1 && posX == old(posX) && arena == old(arena) && score == old(score) &&
              running && current == old(current) && nextPiece == old(nextPiece) && drawn == old(drawn))
        && (Collides(old(arena), old(pieces[current]), old(posX), old(posY) + 1) ==>
              posY == 0 && NextDealt(old(nextPiece), old(drawn)) &&
              var o := LockOutcome(old(arena), old(pieces[current]), old(posX), old(posY), old(score), true,
                  pieces[current]);
              arena == o.arena && score == o.score && running == o.running)
    {
      // The frame clock advances first in the handler; no step below reads it.
      var delta := time - lastTime;
      if running {
        var counter := dropCounter + delta;
        if counter > DROP_INTERVAL {
          SoftDrop();
          dropCounter := 0.0;
        } else {
          dropCounter := counter;
        }
      }
      lastTime := time;
    }

    /** One row down; on a collision the piece goes back up and locks. */
    method SoftDrop()
      requires Valid() && running
      modifies this`drawn, this`nextPiece, this`current, this`posX, this`posY, this`arena, this`score, this`running
      ensures Valid()
      ensures Dropped(rand, old(Snapshot()), Snapshot())
      ensures !Collides(old(arena), old(pieces[current]), old(posX), old(posY) + 1) ==>
        posY == old(posY) + 1 && posX == old(posX) && arena == old(arena) && score == old(score)
            && current == old(current) && drawn == old(drawn) && nextPiece == old(nextPiece) && running
      ensures Collides(old(arena), old(pieces[current]), old(posX), old(posY) + 1) ==>
        posY == 0 && posX == SpawnX(|pieces[current]|) && NextDealt(old(nextPiece), old(drawn)) &&
        var o := LockOutcome(old(arena), old(pieces[current]), old(posX), old(posY), old(score), true, pieces[current]);
        arena == o.arena && score == o.score && running == o.running
    {
      // The step down to posY + 1 is tried first and taken back on a hit.
      var hit := Collide(arena, pieces[current], posX, posY + 1);
      if hit {
        Lock();
      } else {
        posY := posY + 1;
      }
    }

    /** The space bar: fall while the next row is free, then lock at the last free row. */
    method HardDrop() returns (landed: int)
      requires Valid()
      modifies this`drawn, this`nextPiece, this`current, this`posX, this`posY, this`arena, this`score, this`running
      ensures Valid()
      ensures LandsAt(old(arena), old(pieces[current]), old(posX), old(posY), landed)
      ensures posY == 0 && posX == SpawnX(|pieces[current]|)
      ensures NextDealt(old(nextPiece), old(drawn))
      ensures LockedAt(rand, old(Snapshot()), Snapshot(), landed)
      ensures var o := LockOutcome(old(arena), old(pieces[current]), old(posX), landed, old(score),
          old(running), pieces[current]);
        arena == o.arena && score == o.score && running == o.running
    {
      ghost var b := blocks[current];
      landed := DropRow(arena, pieces[current], posX, posY, b);
      posY := landed;
      Lock();
    }

    /** A sideways move by dx, undone if the piece then collides. */
    method Shift(dx: int)
      requires Valid()
      modifies this`posX
      ensures Valid()
      ensures Moved(old(Snapshot()), Snapshot(), dx)
      ensures !Collides(arena, pieces[current], old(posX) + dx, posY) ==> posX == old(posX) + dx
      ensures Collides(arena, pieces[current], old(posX) + dx, posY) ==> posX == old(posX)
    {
      posX := posX + dx;
      var hit := Collide(arena, pieces[current], posX, posY);
      if hit {
        posX := posX - dx;
      }
    }

    /**
     * A turn of the current piece (dir 1 for X, -1 for Z), undone by the
     * opposite turn if it then collides. The template itself turns.
     */
    method Turn(dir: int)
      requires Valid() && (dir == 1 || dir == -1)
      modifies this`pieces, this`blocks
      ensures Valid()
      ensures Spun(old(Snapshot()), Snapshot(), dir)
      ensures forall k :: 0 <= k < KINDS && k != current ==> pieces[k] == old(pieces[k])
      ensures !Collides(arena, Rotated(old(pieces[current]), dir), posX, posY)
          ==> pieces[current] == Rotated(old(pieces[current]), dir)
      ensures Collides(arena, Rotated(old(pieces[current]), dir), posX, posY) ==> pieces == old(pieces)
    {
      var g := pieces[current];
      ghost var b := blocks[current];
      var r := Rotated(g, dir);
      var hit := Collide(arena, r, posX, posY);
      if !hit {
        RotateMovesBlock(g, b, dir);
        TemplatesUpdate(pieces, blocks, current, r, TurnedCell(|g|, b, dir));
        pieces := pieces[current := r];
        blocks := blocks[current := TurnedCell(|g|, b, dir)];
      } else {
        // The opposite turn restores the template, so it stays as it was.
        RotateUndo(g);
        assert Rotated(r, -dir) == g;
      }
    }

    /**
     * The keydown handler: ignored while stopped; otherwise the KeyAction
     * move. A shift is kept only when it does not collide; a turn turns the
     * template only when that does not collide; ArrowDown is one soft drop;
     * Space falls to the LandsAt row (`landed`) and locks there. Both drops
     * reset the gravity counter.
     */
    method KeyDown(key: string, code: string) returns (ghost landed: int)
      requires Valid()
      modifies this`drawn, this`nextPiece, this`current, this`posX, this`posY, this`arena, this`score,
          this`running, this`dropCounter, this`pieces, this`blocks
      ensures Valid()
      ensures var act := if old(running) then KeyAction(key, code) else Ignore;
        act == Ignore ==> Snapshot() == old(Snapshot())
      ensures var act := if old(running) then KeyAction(key, code) else Ignore;
        act.Move? ==> Moved(old(Snapshot()), Snapshot(), act.dx)
      ensures var act := if old(running) then KeyAction(key, code) else Ignore;
        act.Spin? ==> Spun(old(Snapshot()), Snapshot(), act.dir)
      ensures var act := if old(running) then KeyAction(key, code) else Ignore;
        act == Down ==> Dropped(rand, old(Snapshot()), Snapshot())
      ensures var act := if old(running) then KeyAction(key, code) else Ignore;
        act == Plunge ==>
          LandsAt(old(arena), old(pieces[current]), old(posX), old(posY), landed) &&
          LockedAt(rand, old(Snapshot()), Snapshot(), landed)
      ensures var act := if old(running) then KeyAction(key, code) else Ignore;
        (act == Down || act == Plunge ==> dropCounter == 0.0)
      ensures var act := if old(running) then KeyAction(key, code) else Ignore;
        (act != Down && act != Plunge ==> dropCounter == old(dropCounter))
    {
      ghost var b := Snapshot();
      landed := posY;
      if !running {
        return;
      }
      match KeyAction(key, code) {
        case Move(dx) =>
          Shift(dx);
          assert Moved(b, Snapshot(), dx);
        case Down =>
          SoftDrop();
          dropCounter := 0.0;
          assert Dropped(rand, b, Snapshot());
        case Spin(dir) =>
          Turn(dir);
          assert Spun(b, Snapshot(), dir);
        case Plunge =>
          landed := HardDrop();
          dropCounter := 0.0;
          assert LockedAt(rand, b, Snapshot(), landed);
        case Ignore =>
      }
    }

    /** The pause button: toggles running; resuming restarts the frame clock at `now`. */
    method TogglePause(now: real)
      modifies this`running, this`lastTime
      ensures running == !old(running)
      ensures running ==> lastTime == now
      ensures !running ==> lastTime == old(lastTime)
    {
      running := !running;
      if running {
        lastTime := now;
      }
    }
  }
}
