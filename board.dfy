/**
 * The game board of model.py: a 3x3 Tic-Tac-Toe grid packed into one 18-bit
 * integer. Cell (i, j) is the 2-bit field at bits 2(3i+j) and 2(3i+j)+1, where
 * 00 is an X (read as -1), 01 is an empty cell (0) and 10 is an O (+1); the
 * pattern 11 is not a legal field. The operations that only compute from the
 * packed value (get, invert, result, as_array) are functions of it; the class
 * Board at the end holds the value and updates it in place (set, clear).
 */
module Boards {
  import opened Options

  /** The packed value of a board (the source's `_id`). */
  type Id = bv18

  /** A row or column index: get and set reject anything outside range(3). */
  type Index = i: int | 0 <= i < 3

  /** A mark that set accepts: -1 for X, +1 for O. */
  type Mark = m: int | m == -1 || m == 1 witness 1

  /** A 3x3 view of the board, row by row, as as_array gives it. */
  type Grid = seq<seq<int>>

  /** The new-game board: every field holds the empty pattern 01. */
  const EMPTY: Id := 0x15555

  // ---------------------------------------------------------------------------
  // The operations, as the source computes them on the packed value
  // ---------------------------------------------------------------------------

  /** The content of cell (i, j): -1 for X, 0 for empty, +1 for O (2 for the illegal pattern). */
  function Get(id: Id, i: Index, j: Index): int
  {
    Decode((((id >> RowShift(i)) & 0x3F) >> ColumnShift(j)) & 0x03)
  }

  /** The shift 6i that brings row i to the low bits, as a bit-vector constant. */
  function RowShift(i: Index): bv18
  {
    if i == 0 then 0 else if i == 1 then 6 else 12
  }

  /** The shift j << 1 that brings column j of a row to the low bits. */
  function ColumnShift(j: Index): bv18
  {
    if j == 0 then 0 else if j == 1 then 2 else 4
  }

  /** The board as a 3x3 array of cell contents. */
  function AsArray(id: Id): (g: Grid)
    ensures IsGrid(g)
  {
    [[Get(id, 0, 0), Get(id, 0, 1), Get(id, 0, 2)],
     [Get(id, 1, 0), Get(id, 1, 1), Get(id, 1, 2)],
     [Get(id, 2, 0), Get(id, 2, 1), Get(id, 2, 2)]]
  }

  /**
   * The bit offset of cell (i, j), the source's (3i + j) << 1, as a table of
   * bit-vector constants (OffsetCells proves it is that product).
   */
  function Offset(i: Index, j: Index): bv18
  {
    if i == 0 then (if j == 0 then 0 else if j == 1 then 2 else 4)
    else if i == 1 then (if j == 0 then 6 else if j == 1 then 8 else 10)
    else (if j == 0 then 12 else if j == 1 then 14 else 16)
  }

  /** The packed value after writing mark xo into cell (i, j). */
  function Placed(id: Id, i: Index, j: Index, xo: Mark): Id
  {
    var index := Offset(i, j);
    var mask: Id := 0x3FFFF ^ (0x3 << index);
    var bit: Id := MarkBits(xo) << index;
    (id & mask) | bit
  }

  /** The two bits set writes for a mark: 00 for X, 10 for O. */
  function MarkBits(xo: Mark): bv18
  {
    if xo == -1 then 0x0 else 0x2
  }

  /** The board with X and O swapped: flips the high bit of every field whose low bit is clear. */
  function Inverted(id: Id): Id
  {
    id ^ ((((0x15555 & id) ^ 0x3FFFF) << 1) & 0x2AAAA)
  }

  /**
   * Whether the game is over: Some(-1) if X has a full line, Some(+1) if O has
   * one, Some(0) for a tie (no empty cell left), None while the game goes on.
   * ResultMeaning states what each answer says about the grid.
   */
  function Result(id: Id): Option<int>
  {
    Scan(id, 0)
  }

  /**
   * The scan of Result from iteration k of its loop over rows and columns on:
   * row k and column k, then the later ones, then the two diagonals, then the
   * test for a board without empty cells.
   */
  function Scan(id: Id, k: nat): Option<int>
    requires k <= 3
    decreases 3 - k
  {
    if k < 3 then
      var row := (id >> RowShift(k)) & 0x3F;
      var column := (id >> ColumnShift(k)) & 0x30C3;
      if row == 0x00 || column == 0x0000 then
        Some(-1)
      else if row == 0x2A || column == 0x2082 then
        Some(1)
      else
        Scan(id, k + 1)
    else
      var mainDiagonal := id & 0x30303;
      var antiDiagonal := id & 0x03330;
      if mainDiagonal == 0x00000 then Some(-1)
      else if mainDiagonal == 0x20202 then Some(1)
      else if antiDiagonal == 0x00000 then Some(-1)
      else if antiDiagonal == 0x02220 then Some(1)
      else if id & 0x15555 == 0x00000 then Some(0)
      else None
  }

  /**
   * What result reports: a winner only if that side has a full line, the side
   * with a full line when only one side has one, a tie exactly when nobody has
   * a line and every cell holds a mark, and None exactly when nobody has a
   * line and some cell holds no mark (on a legal board: some cell is empty).
   * Which side is reported when both have a line depends on the scan order
   * and is not stated; a game never reaches such a board (OneWinnerKept).
   */
  lemma ResultMeaning(id: Id)
    ensures Result(id).Some? ==> -1 <= Result(id).value <= 1
    ensures Result(id) == Some(-1) ==> Wins(AsArray(id), -1)
    ensures Result(id) == Some(1) ==> Wins(AsArray(id), 1)
    ensures Wins(AsArray(id), -1) && !Wins(AsArray(id), 1) ==> Result(id) == Some(-1)
    ensures Wins(AsArray(id), 1) && !Wins(AsArray(id), -1) ==> Result(id) == Some(1)
    ensures Result(id) == Some(0) <==> !Wins(AsArray(id), -1) && !Wins(AsArray(id), 1) && Filled(AsArray(id))
    ensures Result(id) == None <==> !Wins(AsArray(id), -1) && !Wins(AsArray(id), 1) && !Filled(AsArray(id))
  {
    ScanWinner(id, 0);
    ScanUndecided(id, 0);
  }

  /** Iteration k of the scan, in terms of the lines of the board's array. */
  lemma ScanStep(id: Id, k: Index)
    ensures Scan(id, k) ==
      if RowFull(AsArray(id), k, -1) || ColumnFull(AsArray(id), k, -1) then Some(-1)
      else if RowFull(AsArray(id), k, 1) || ColumnFull(AsArray(id), k, 1) then Some(1)
      else Scan(id, k + 1)
  {
    LineMasks(id, k);
  }

  /** The final iteration of the scan: diagonals, then the test for a full board. */
  lemma ScanLast(id: Id)
    ensures Scan(id, 3) ==
      if MainDiagonalFull(AsArray(id), -1) || AntiDiagonalFull(AsArray(id), -1) then Some(-1)
      else if MainDiagonalFull(AsArray(id), 1) || AntiDiagonalFull(AsArray(id), 1) then Some(1)
      else if Filled(AsArray(id)) then Some(0)
      else None
  {
    DiagonalMasks(id);
  }

  /** A winner reported from iteration k on has a full line among the lines still to scan. */
  lemma {:induction false} ScanWinner(id: Id, k: nat)
    requires k <= 3
    ensures Scan(id, k) in {None, Some(-1), Some(0), Some(1)}
    ensures Scan(id, k) == Some(-1) ==> WinsFrom(AsArray(id), -1, k)
    ensures Scan(id, k) == Some(1) ==> WinsFrom(AsArray(id), 1, k)
    decreases 3 - k
  {
    if k < 3 {
      ScanWinner(id, k + 1);
      ScanStep(id, k);
      WinsFromStep(AsArray(id), -1, k);
      WinsFromStep(AsArray(id), 1, k);
    } else {
      ScanLast(id);
    }
  }

  /**
   * From iteration k on, the scan ends in a tie exactly when neither side has
   * a line still to scan and every cell holds a mark, and in None exactly
   * when neither side has such a line and some cell holds no mark.
   */
  lemma {:induction false} ScanUndecided(id: Id, k: nat)
    requires k <= 3
    ensures Scan(id, k) == Some(0) ==> !WinsFrom(AsArray(id), -1, k) && !WinsFrom(AsArray(id), 1, k) && Filled(AsArray(id))
    ensures Scan(id, k) == None ==> !WinsFrom(AsArray(id), -1, k) && !WinsFrom(AsArray(id), 1, k) && !Filled(AsArray(id))
    ensures !WinsFrom(AsArray(id), -1, k) && !WinsFrom(AsArray(id), 1, k) && Filled(AsArray(id)) ==> Scan(id, k) == Some(0)
    ensures !WinsFrom(AsArray(id), -1, k) && !WinsFrom(AsArray(id), 1, k) && !Filled(AsArray(id)) ==> Scan(id, k) == None
    decreases 3 - k
  {
    ScanWinner(id, k);
    if k < 3 {
      ScanUndecided(id, k + 1);
      ScanStep(id, k);
      WinsFromStep(AsArray(id), -1, k);
      WinsFromStep(AsArray(id), 1, k);
    } else {
      ScanLast(id);
    }
  }

  // ---------------------------------------------------------------------------
  // The abstract view: grids, lines, legality
  // ---------------------------------------------------------------------------

  predicate IsGrid(g: Grid)
  {
    |g| == 3 && |g[0]| == 3 && |g[1]| == 3 && |g[2]| == 3
  }

  /** The grid with cell (i, j) replaced by v. */
  function Put(g: Grid, i: Index, j: Index, v: int): Grid
    requires IsGrid(g)
  {
    g[i := g[i][j := v]]
  }

  /** The content a cell shows once X and O are swapped. */
  function SwapCell(c: int): int
  {
    if c == 2 then 2 else -c
  }

  function Swapped(g: Grid): Grid
    requires IsGrid(g)
  {
    [[SwapCell(g[0][0]), SwapCell(g[0][1]), SwapCell(g[0][2])],
     [SwapCell(g[1][0]), SwapCell(g[1][1]), SwapCell(g[1][2])],
     [SwapCell(g[2][0]), SwapCell(g[2][1]), SwapCell(g[2][2])]]
  }

  predicate RowFull(g: Grid, r: Index, m: int)
    requires IsGrid(g)
  {
    g[r][0] == m && g[r][1] == m && g[r][2] == m
  }

  predicate ColumnFull(g: Grid, c: Index, m: int)
    requires IsGrid(g)
  {
    g[0][c] == m && g[1][c] == m && g[2][c] == m
  }

  predicate MainDiagonalFull(g: Grid, m: int)
    requires IsGrid(g)
  {
    g[0][0] == m && g[1][1] == m && g[2][2] == m
  }

  predicate AntiDiagonalFull(g: Grid, m: int)
    requires IsGrid(g)
  {
    g[0][2] == m && g[1][1] == m && g[2][0] == m
  }

  /** m fills a row or column numbered k or later, or a diagonal. */
  predicate WinsFrom(g: Grid, m: int, k: nat)
    requires IsGrid(g)
  {
    (exists r: Index :: k <= r && (RowFull(g, r, m) || ColumnFull(g, r, m)))
    || MainDiagonalFull(g, m) || AntiDiagonalFull(g, m)
  }

  /** m fills one of the eight lines. */
  predicate Wins(g: Grid, m: int)
    requires IsGrid(g)
  {
    WinsFrom(g, m, 0)
  }

  /** Every cell holds a mark. */
  predicate Filled(g: Grid)
    requires IsGrid(g)
  {
    forall r: Index, c: Index :: g[r][c] == -1 || g[r][c] == 1
  }

  /** No field of the packed value holds the illegal pattern 11. */
  predicate Valid(id: Id)
  {
    Legal(AsArray(id))
  }

  /** Every cell holds one of the four values a 2-bit field decodes to. */
  predicate InRange(g: Grid)
    requires IsGrid(g)
  {
    forall i: Index, j: Index :: -1 <= g[i][j] <= 2
  }

  /** No cell of the grid shows the illegal pattern. */
  predicate Legal(g: Grid)
    requires IsGrid(g)
  {
    forall i: Index, j: Index :: g[i][j] != 2
  }

  /** Writing v into a cell gives no other value m a line it did not have. */
  lemma WinsPut(g: Grid, i: Index, j: Index, v: int, m: int)
    requires IsGrid(g) && m != v && Wins(Put(g, i, j, v), m)
    ensures Wins(g, m)
  {
    var h := Put(g, i, j, v);
    assert forall r: Index, c: Index :: h[r][c] == m ==> g[r][c] == m;
    if exists r: Index :: RowFull(h, r, m) || ColumnFull(h, r, m) {
      var r: Index :| RowFull(h, r, m) || ColumnFull(h, r, m);
      assert RowFull(g, r, m) || ColumnFull(g, r, m);
    }
  }

  // ---------------------------------------------------------------------------
  // From bits to cells
  // ---------------------------------------------------------------------------

  /** The 2-bit field of cell (i, j), extracted as Get does. */
  function Field(id: Id, i: Index, j: Index): bv18
  {
    (((id >> RowShift(i)) & 0x3F) >> ColumnShift(j)) & 0x03
  }

  /** The cell content a 2-bit field stands for. */
  function Decode(f: bv18): (c: int)
    ensures -1 <= c <= 2
  {
    if f == 0 then -1 else if f == 1 then 0 else if f == 2 then 1 else 2
  }

  /** The 3x3 view computed field by field with fixed shifts. */
  function Fields(id: Id): Grid
  {
    [[Decode(id & 3), Decode((id >> 2) & 3), Decode((id >> 4) & 3)],
     [Decode((id >> 6) & 3), Decode((id >> 8) & 3), Decode((id >> 10) & 3)],
     [Decode((id >> 12) & 3), Decode((id >> 14) & 3), Decode((id >> 16) & 3)]]
  }

  lemma GetDecodes(id: Id, i: Index, j: Index)
    ensures Get(id, i, j) == Decode(Field(id, i, j))
  {
    var f := Field(id, i, j);
    assert f <= 3;
  }

  lemma FieldShifts(id: Id)
    ensures Field(id, 0, 0) == id & 3 && Field(id, 0, 1) == (id >> 2) & 3 && Field(id, 0, 2) == (id >> 4) & 3
    ensures Field(id, 1, 0) == (id >> 6) & 3 && Field(id, 1, 1) == (id >> 8) & 3 && Field(id, 1, 2) == (id >> 10) & 3
    ensures Field(id, 2, 0) == (id >> 12) & 3 && Field(id, 2, 1) == (id >> 14) & 3 && Field(id, 2, 2) == (id >> 16) & 3
  {
  }

  lemma AsArrayFields(id: Id)
    ensures AsArray(id) == Fields(id)
  {
    FieldShifts(id);
    GetDecodes(id, 0, 0); GetDecodes(id, 0, 1); GetDecodes(id, 0, 2);
    GetDecodes(id, 1, 0); GetDecodes(id, 1, 1); GetDecodes(id, 1, 2);
    GetDecodes(id, 2, 0); GetDecodes(id, 2, 1); GetDecodes(id, 2, 2);
  }

  /** Get reads the same cell as the 3x3 view. */
  lemma CellAt(id: Id, i: Index, j: Index)
    ensures Get(id, i, j) == AsArray(id)[i][j]
  {
    if i == 0 {
      if j == 0 { } else if j == 1 { } else { }
    } else if i == 1 {
      if j == 0 { } else if j == 1 { } else { }
    } else {
      if j == 0 { } else if j == 1 { } else { }
    }
  }

  /** The row and column tests of Result's loop read the cells of row k and column k. */
  lemma LineMasks(id: Id, k: Index)
    ensures ((id >> RowShift(k)) & 0x3F == 0x00) <==> RowFull(AsArray(id), k, -1)
    ensures ((id >> RowShift(k)) & 0x3F == 0x2A) <==> RowFull(AsArray(id), k, 1)
    ensures ((id >> ColumnShift(k)) & 0x30C3 == 0x0000) <==> ColumnFull(AsArray(id), k, -1)
    ensures ((id >> ColumnShift(k)) & 0x30C3 == 0x2082) <==> ColumnFull(AsArray(id), k, 1)
  {
    AsArrayFields(id);
    RowBits(id, k);
    ColumnBits(id, k);
  }

  lemma RowBits(id: Id, k: Index)
    ensures ((id >> RowShift(k)) & 0x3F == 0x00) <==> RowFull(Fields(id), k, -1)
    ensures ((id >> RowShift(k)) & 0x3F == 0x2A) <==> RowFull(Fields(id), k, 1)
  {
    if k == 0 { RowBits0(id); } else if k == 1 { RowBits1(id); } else { RowBits2(id); }
  }

  lemma RowBits0(id: Id)
    ensures (id & 0x3F == 0x00) <==> RowFull(Fields(id), 0, -1)
    ensures (id & 0x3F == 0x2A) <==> RowFull(Fields(id), 0, 1)
  {
  }

  lemma RowBits1(id: Id)
    ensures ((id >> 6) & 0x3F == 0x00) <==> RowFull(Fields(id), 1, -1)
    ensures ((id >> 6) & 0x3F == 0x2A) <==> RowFull(Fields(id), 1, 1)
  {
  }

  lemma RowBits2(id: Id)
    ensures ((id >> 12) & 0x3F == 0x00) <==> RowFull(Fields(id), 2, -1)
    ensures ((id >> 12) & 0x3F == 0x2A) <==> RowFull(Fields(id), 2, 1)
  {
  }

  lemma ColumnBits(id: Id, k: Index)
    ensures ((id >> ColumnShift(k)) & 0x30C3 == 0x0000) <==> ColumnFull(Fields(id), k, -1)
    ensures ((id >> ColumnShift(k)) & 0x30C3 == 0x2082) <==> ColumnFull(Fields(id), k, 1)
  {
    if k == 0 { ColumnBits0(id); } else if k == 1 { ColumnBits1(id); } else { ColumnBits2(id); }
  }

  lemma ColumnBits0(id: Id)
    ensures (id & 0x30C3 == 0x0000) <==> ColumnFull(Fields(id), 0, -1)
    ensures (id & 0x30C3 == 0x2082) <==> ColumnFull(Fields(id), 0, 1)
  {
  }

  lemma ColumnBits1(id: Id)
    ensures ((id >> 2) & 0x30C3 == 0x0000) <==> ColumnFull(Fields(id), 1, -1)
    ensures ((id >> 2) & 0x30C3 == 0x2082) <==> ColumnFull(Fields(id), 1, 1)
  {
  }

  lemma ColumnBits2(id: Id)
    ensures ((id >> 4) & 0x30C3 == 0x0000) <==> ColumnFull(Fields(id), 2, -1)
    ensures ((id >> 4) & 0x30C3 == 0x2082) <==> ColumnFull(Fields(id), 2, 1)
  {
  }

  lemma DiagonalMasks(id: Id)
    ensures (id & 0x30303 == 0x00000) <==> MainDiagonalFull(AsArray(id), -1)
    ensures (id & 0x30303 == 0x20202) <==> MainDiagonalFull(AsArray(id), 1)
    ensures (id & 0x03330 == 0x00000) <==> AntiDiagonalFull(AsArray(id), -1)
    ensures (id & 0x03330 == 0x02220) <==> AntiDiagonalFull(AsArray(id), 1)
    ensures (id & 0x15555 == 0x00000) <==> Filled(AsArray(id))
  {
    AsArrayFields(id);
    DiagonalBits(id);
    var g := AsArray(id);
    if Filled(g) {
      assert g[0][0] != 0 && g[0][1] != 0 && g[0][2] != 0;
      assert g[1][0] != 0 && g[1][1] != 0 && g[1][2] != 0;
      assert g[2][0] != 0 && g[2][1] != 0 && g[2][2] != 0;
    }
  }

  lemma DiagonalBits(id: Id)
    ensures (id & 0x30303 == 0x00000) <==> MainDiagonalFull(Fields(id), -1)
    ensures (id & 0x30303 == 0x20202) <==> MainDiagonalFull(Fields(id), 1)
    ensures (id & 0x03330 == 0x00000) <==> AntiDiagonalFull(Fields(id), -1)
    ensures (id & 0x03330 == 0x02220) <==> AntiDiagonalFull(Fields(id), 1)
    ensures (id & 0x15555 == 0x00000) <==> NoLowBit(Fields(id))
  {
  }

  /** No field of the view decodes to empty or to the illegal pattern (each low bit is clear). */
  predicate NoLowBit(g: Grid)
    requires IsGrid(g)
  {
    && g[0][0] != 0 && g[0][1] != 0 && g[0][2] != 0
    && g[1][0] != 0 && g[1][1] != 0 && g[1][2] != 0
    && g[2][0] != 0 && g[2][1] != 0 && g[2][2] != 0
    && g[0][0] != 2 && g[0][1] != 2 && g[0][2] != 2
    && g[1][0] != 2 && g[1][1] != 2 && g[1][2] != 2
    && g[2][0] != 2 && g[2][1] != 2 && g[2][2] != 2
  }

  lemma WinsFromStep(g: Grid, m: int, k: nat)
    requires IsGrid(g) && k < 3
    ensures WinsFrom(g, m, k) <==> RowFull(g, k, m) || ColumnFull(g, k, m) || WinsFrom(g, m, k + 1)
  {
    if WinsFrom(g, m, k) && !RowFull(g, k, m) && !ColumnFull(g, k, m)
      && !MainDiagonalFull(g, m) && !AntiDiagonalFull(g, m) {
      var r: Index :| k <= r && (RowFull(g, r, m) || ColumnFull(g, r, m));
      assert k + 1 <= r;
    }
    if RowFull(g, k, m) || ColumnFull(g, k, m) {
      var r: Index := k;
      assert RowFull(g, r, m) || ColumnFull(g, r, m);
    }
  }

  // ---------------------------------------------------------------------------
  // set, invert, legality and equality
  // ---------------------------------------------------------------------------

  /** Clearing the field at an even offset s and or-ing in a 2-bit value c rewrites that field alone (here: the fields of row 0). */
  lemma SetRow0(id: Id, s: bv18, c: bv18)
    requires s <= 16 && s & 1 == 0 && c < 4
    ensures (((id & (0x3FFFF ^ (0x3 << s))) | (c << s)) >> 0) & 3 == (if s == 0 then c else (id >> 0) & 3)
    ensures (((id & (0x3FFFF ^ (0x3 << s))) | (c << s)) >> 2) & 3 == (if s == 2 then c else (id >> 2) & 3)
    ensures (((id & (0x3FFFF ^ (0x3 << s))) | (c << s)) >> 4) & 3 == (if s == 4 then c else (id >> 4) & 3)
  {
  }

  /** Clearing the field at an even offset s and or-ing in a 2-bit value c rewrites that field alone (here: the fields of row 1). */
  lemma SetRow1(id: Id, s: bv18, c: bv18)
    requires s <= 16 && s & 1 == 0 && c < 4
    ensures (((id & (0x3FFFF ^ (0x3 << s))) | (c << s)) >> 6) & 3 == (if s == 6 then c else (id >> 6) & 3)
    ensures (((id & (0x3FFFF ^ (0x3 << s))) | (c << s)) >> 8) & 3 == (if s == 8 then c else (id >> 8) & 3)
    ensures (((id & (0x3FFFF ^ (0x3 << s))) | (c << s)) >> 10) & 3 == (if s == 10 then c else (id >> 10) & 3)
  {
  }

  /** Clearing the field at an even offset s and or-ing in a 2-bit value c rewrites that field alone (here: the fields of row 2). */
  lemma SetRow2(id: Id, s: bv18, c: bv18)
    requires s <= 16 && s & 1 == 0 && c < 4
    ensures (((id & (0x3FFFF ^ (0x3 << s))) | (c << s)) >> 12) & 3 == (if s == 12 then c else (id >> 12) & 3)
    ensures (((id & (0x3FFFF ^ (0x3 << s))) | (c << s)) >> 14) & 3 == (if s == 14 then c else (id >> 14) & 3)
    ensures (((id & (0x3FFFF ^ (0x3 << s))) | (c << s)) >> 16) & 3 == (if s == 16 then c else (id >> 16) & 3)
  {
  }

  /** The offset table is the source's (3i + j) << 1, and it tells the nine cells apart. */
  lemma OffsetCells(i: Index, j: Index)
    ensures Offset(i, j) as int == (3 * i + j) * 2
    ensures Offset(i, j) == 0 <==> 3 * i + j == 0
    ensures Offset(i, j) == 2 <==> 3 * i + j == 1
    ensures Offset(i, j) == 4 <==> 3 * i + j == 2
    ensures Offset(i, j) == 6 <==> 3 * i + j == 3
    ensures Offset(i, j) == 8 <==> 3 * i + j == 4
    ensures Offset(i, j) == 10 <==> 3 * i + j == 5
    ensures Offset(i, j) == 12 <==> 3 * i + j == 6
    ensures Offset(i, j) == 14 <==> 3 * i + j == 7
    ensures Offset(i, j) == 16 <==> 3 * i + j == 8
  {
  }

  /** The nine fields after set: the written one holds the mark's bits, the others are kept. */
  lemma PlacedShifts(id: Id, i: Index, j: Index, xo: Mark)
    ensures (Placed(id, i, j, xo) >> 0) & 3 == (if 3 * i + j == 0 then MarkBits(xo) else (id >> 0) & 3)
    ensures (Placed(id, i, j, xo) >> 2) & 3 == (if 3 * i + j == 1 then MarkBits(xo) else (id >> 2) & 3)
    ensures (Placed(id, i, j, xo) >> 4) & 3 == (if 3 * i + j == 2 then MarkBits(xo) else (id >> 4) & 3)
    ensures (Placed(id, i, j, xo) >> 6) & 3 == (if 3 * i + j == 3 then MarkBits(xo) else (id >> 6) & 3)
    ensures (Placed(id, i, j, xo) >> 8) & 3 == (if 3 * i + j == 4 then MarkBits(xo) else (id >> 8) & 3)
    ensures (Placed(id, i, j, xo) >> 10) & 3 == (if 3 * i + j == 5 then MarkBits(xo) else (id >> 10) & 3)
    ensures (Placed(id, i, j, xo) >> 12) & 3 == (if 3 * i + j == 6 then MarkBits(xo) else (id >> 12) & 3)
    ensures (Placed(id, i, j, xo) >> 14) & 3 == (if 3 * i + j == 7 then MarkBits(xo) else (id >> 14) & 3)
    ensures (Placed(id, i, j, xo) >> 16) & 3 == (if 3 * i + j == 8 then MarkBits(xo) else (id >> 16) & 3)
  {
    OffsetCells(i, j);
    SetRow0(id, Offset(i, j), MarkBits(xo));
    SetRow1(id, Offset(i, j), MarkBits(xo));
    SetRow2(id, Offset(i, j), MarkBits(xo));
  }

  /** The cells of row 0 after set, read one by one. */
  lemma PlacedRow0(id: Id, i: Index, j: Index, xo: Mark)
    ensures Get(Placed(id, i, j, xo), 0, 0) == if 3 * i + j == 0 then xo else Get(id, 0, 0)
    ensures Get(Placed(id, i, j, xo), 0, 1) == if 3 * i + j == 1 then xo else Get(id, 0, 1)
    ensures Get(Placed(id, i, j, xo), 0, 2) == if 3 * i + j == 2 then xo else Get(id, 0, 2)
  {
    PlacedShifts(id, i, j, xo);
    MarkDecodes(xo);
    FieldShifts(Placed(id, i, j, xo));
    FieldShifts(id);
  }

  /** The cells of row 1 after set, read one by one. */
  lemma PlacedRow1(id: Id, i: Index, j: Index, xo: Mark)
    ensures Get(Placed(id, i, j, xo), 1, 0) == if 3 * i + j == 3 then xo else Get(id, 1, 0)
    ensures Get(Placed(id, i, j, xo), 1, 1) == if 3 * i + j == 4 then xo else Get(id, 1, 1)
    ensures Get(Placed(id, i, j, xo), 1, 2) == if 3 * i + j == 5 then xo else Get(id, 1, 2)
  {
    PlacedShifts(id, i, j, xo);
    MarkDecodes(xo);
    FieldShifts(Placed(id, i, j, xo));
    FieldShifts(id);
  }

  /** The cells of row 2 after set, read one by one. */
  lemma PlacedRow2(id: Id, i: Index, j: Index, xo: Mark)
    ensures Get(Placed(id, i, j, xo), 2, 0) == if 3 * i + j == 6 then xo else Get(id, 2, 0)
    ensures Get(Placed(id, i, j, xo), 2, 1) == if 3 * i + j == 7 then xo else Get(id, 2, 1)
    ensures Get(Placed(id, i, j, xo), 2, 2) == if 3 * i + j == 8 then xo else Get(id, 2, 2)
  {
    PlacedShifts(id, i, j, xo);
    MarkDecodes(xo);
    FieldShifts(Placed(id, i, j, xo));
    FieldShifts(id);
  }

  /** Writing a mark changes exactly one cell of the 3x3 view: the one written. */
  lemma PlacedPut(id: Id, i: Index, j: Index, xo: Mark)
    ensures AsArray(Placed(id, i, j, xo)) == Put(AsArray(id), i, j, xo)
  {
    if i == 0 && j == 0 {
      PutAt00(id, xo);
    } else if i == 0 && j == 1 {
      PutAt01(id, xo);
    } else if i == 0 && j == 2 {
      PutAt02(id, xo);
    } else if i == 1 && j == 0 {
      PutAt10(id, xo);
    } else if i == 1 && j == 1 {
      PutAt11(id, xo);
    } else if i == 1 && j == 2 {
      PutAt12(id, xo);
    } else if i == 2 && j == 0 {
      PutAt20(id, xo);
    } else if i == 2 && j == 1 {
      PutAt21(id, xo);
    } else {
      PutAt22(id, xo);
    }
  }

  lemma PutAt00(id: Id, xo: Mark)
    ensures AsArray(Placed(id, 0, 0, xo)) == Put(AsArray(id), 0, 0, xo)
  {
    PlacedRow0(id, 0, 0, xo);
    PlacedRow1(id, 0, 0, xo);
    PlacedRow2(id, 0, 0, xo);
    var g, h := AsArray(Placed(id, 0, 0, xo)), Put(AsArray(id), 0, 0, xo);
    assert g[0] == h[0] && g[1] == h[1] && g[2] == h[2];
  }

  lemma PutAt01(id: Id, xo: Mark)
    ensures AsArray(Placed(id, 0, 1, xo)) == Put(AsArray(id), 0, 1, xo)
  {
    PlacedRow0(id, 0, 1, xo);
    PlacedRow1(id, 0, 1, xo);
    PlacedRow2(id, 0, 1, xo);
    var g, h := AsArray(Placed(id, 0, 1, xo)), Put(AsArray(id), 0, 1, xo);
    assert g[0] == h[0] && g[1] == h[1] && g[2] == h[2];
  }

  lemma PutAt02(id: Id, xo: Mark)
    ensures AsArray(Placed(id, 0, 2, xo)) == Put(AsArray(id), 0, 2, xo)
  {
    PlacedRow0(id, 0, 2, xo);
    PlacedRow1(id, 0, 2, xo);
    PlacedRow2(id, 0, 2, xo);
    var g, h := AsArray(Placed(id, 0, 2, xo)), Put(AsArray(id), 0, 2, xo);
    assert g[0] == h[0] && g[1] == h[1] && g[2] == h[2];
  }

  lemma PutAt10(id: Id, xo: Mark)
    ensures AsArray(Placed(id, 1, 0, xo)) == Put(AsArray(id), 1, 0, xo)
  {
    PlacedRow0(id, 1, 0, xo);
    PlacedRow1(id, 1, 0, xo);
    PlacedRow2(id, 1, 0, xo);
    var g, h := AsArray(Placed(id, 1, 0, xo)), Put(AsArray(id), 1, 0, xo);
    assert g[0] == h[0] && g[1] == h[1] && g[2] == h[2];
  }

  lemma PutAt11(id: Id, xo: Mark)
    ensures AsArray(Placed(id, 1, 1, xo)) == Put(AsArray(id), 1, 1, xo)
  {
    PlacedRow0(id, 1, 1, xo);
    PlacedRow1(id, 1, 1, xo);
    PlacedRow2(id, 1, 1, xo);
    var g, h := AsArray(Placed(id, 1, 1, xo)), Put(AsArray(id), 1, 1, xo);
    assert g[0] == h[0] && g[1] == h[1] && g[2] == h[2];
  }

  lemma PutAt12(id: Id, xo: Mark)
    ensures AsArray(Placed(id, 1, 2, xo)) == Put(AsArray(id), 1, 2, xo)
  {
    PlacedRow0(id, 1, 2, xo);
    PlacedRow1(id, 1, 2, xo);
    PlacedRow2(id, 1, 2, xo);
    var g, h := AsArray(Placed(id, 1, 2, xo)), Put(AsArray(id), 1, 2, xo);
    assert g[0] == h[0] && g[1] == h[1] && g[2] == h[2];
  }

  lemma PutAt20(id: Id, xo: Mark)
    ensures AsArray(Placed(id, 2, 0, xo)) == Put(AsArray(id), 2, 0, xo)
  {
    PlacedRow0(id, 2, 0, xo);
    PlacedRow1(id, 2, 0, xo);
    PlacedRow2(id, 2, 0, xo);
    var g, h := AsArray(Placed(id, 2, 0, xo)), Put(AsArray(id), 2, 0, xo);
    assert g[0] == h[0] && g[1] == h[1] && g[2] == h[2];
  }

  lemma PutAt21(id: Id, xo: Mark)
    ensures AsArray(Placed(id, 2, 1, xo)) == Put(AsArray(id), 2, 1, xo)
  {
    PlacedRow0(id, 2, 1, xo);
    PlacedRow1(id, 2, 1, xo);
    PlacedRow2(id, 2, 1, xo);
    var g, h := AsArray(Placed(id, 2, 1, xo)), Put(AsArray(id), 2, 1, xo);
    assert g[0] == h[0] && g[1] == h[1] && g[2] == h[2];
  }

  lemma PutAt22(id: Id, xo: Mark)
    ensures AsArray(Placed(id, 2, 2, xo)) == Put(AsArray(id), 2, 2, xo)
  {
    PlacedRow0(id, 2, 2, xo);
    PlacedRow1(id, 2, 2, xo);
    PlacedRow2(id, 2, 2, xo);
    var g, h := AsArray(Placed(id, 2, 2, xo)), Put(AsArray(id), 2, 2, xo);
    assert g[0] == h[0] && g[1] == h[1] && g[2] == h[2];
  }

  /** The bits set writes for a mark read back as that mark. */
  lemma MarkDecodes(xo: Mark)
    ensures Decode(MarkBits(xo)) == xo
  {
  }

  /**
   * set(i, j, xo) followed by get(i, j) gives xo back, every other cell reads
   * as before, and a board without the illegal pattern stays without it.
   */
  lemma SetGet(id: Id, i: Index, j: Index, xo: Mark)
    ensures Get(Placed(id, i, j, xo), i, j) == xo
    ensures forall i': Index, j': Index :: (i', j') != (i, j) ==> Get(Placed(id, i, j, xo), i', j') == Get(id, i', j')
    ensures Valid(id) ==> Valid(Placed(id, i, j, xo))
  {
    var r := Placed(id, i, j, xo);
    PlacedPut(id, i, j, xo);
    CellAt(r, i, j);
    forall i': Index, j': Index
      ensures Get(r, i', j') == if i' == i && j' == j then xo else Get(id, i', j')
    {
      CellAt(r, i', j');
      CellAt(id, i', j');
    }
    if Valid(id) {
      forall i': Index, j': Index
        ensures AsArray(r)[i'][j'] != 2
      {
        CellAt(r, i', j');
        CellAt(id, i', j');
      }
    }
  }

  /** invert swaps X and O in every cell and leaves empty cells (and illegal ones) alone. */
  lemma InvertedArray(id: Id)
    ensures AsArray(Inverted(id)) == Swapped(AsArray(id))
  {
    AsArrayFields(id);
    AsArrayFields(Inverted(id));
    FieldsInverted(id);
  }

  lemma FieldsInverted(id: Id)
    ensures Fields(Inverted(id)) == Swapped(Fields(id))
  {
    var a, b := Fields(Inverted(id)), Swapped(Fields(id));
    assert a[0] == b[0] && a[1] == b[1] && a[2] == b[2];
  }

  /** invert maps X to O, O to X and keeps an empty cell empty (and an illegal field illegal). */
  lemma InvertGet(id: Id, i: Index, j: Index)
    ensures Get(Inverted(id), i, j) == SwapCell(Get(id, i, j))
  {
    InvertedArray(id);
    CellOf(Inverted(id), Swapped(AsArray(id)), i, j);
    CellAt(id, i, j);
    SwappedAt(AsArray(id), i, j);
  }

  lemma SwappedAt(g: Grid, i: Index, j: Index)
    requires IsGrid(g)
    ensures Swapped(g)[i][j] == SwapCell(g[i][j])
  {
  }

  /** A cell read through Get is the cell of any grid equal to the 3x3 view. */
  lemma CellOf(r: Id, g: Grid, i: Index, j: Index)
    requires AsArray(r) == g
    ensures Get(r, i, j) == g[i][j]
  {
    CellAt(r, i, j);
  }

  /** invert keeps a legal board legal, and only a legal board inverts to a legal one. */
  lemma InvertValid(id: Id)
    ensures Valid(Inverted(id)) <==> Valid(id)
  {
    InvertedArray(id);
    ArrayInRange(id);
    SwappedLegal(AsArray(id));
  }

  /** Every cell of the 3x3 view is one of the four decoded values. */
  lemma ArrayInRange(id: Id)
    ensures InRange(AsArray(id))
  {
    var g := AsArray(id);
    forall i: Index, j: Index ensures -1 <= g[i][j] <= 2 {
      CellAt(id, i, j);
    }
  }

  /** Swapping X and O creates no illegal cell and removes none. */
  lemma SwappedLegal(g: Grid)
    requires IsGrid(g) && InRange(g)
    ensures Legal(Swapped(g)) <==> Legal(g)
  {
    var h := Swapped(g);
    if Legal(g) {
      forall r: Index, c: Index ensures h[r][c] != 2 {
        assert g[r][c] != 2;
      }
    }
    if Legal(h) {
      forall r: Index, c: Index ensures g[r][c] != 2 {
        assert h[r][c] != 2;
      }
    }
  }

  /** invert is its own inverse, for every packed value. */
  lemma InvertInvolution(id: Id)
    ensures Inverted(Inverted(id)) == id
  {
  }

  /** A packed value is legal exactly when no field has both bits set. */
  lemma ValidBits(id: Id)
    ensures Valid(id) <==> id & (id >> 1) & 0x15555 == 0
  {
    AsArrayFields(id);
    var g := AsArray(id);
    if Valid(id) {
      assert g[0][0] != 2 && g[0][1] != 2 && g[0][2] != 2;
      assert g[1][0] != 2 && g[1][1] != 2 && g[1][2] != 2;
      assert g[2][0] != 2 && g[2][1] != 2 && g[2][2] != 2;
    }
  }

  /** Two boards are equal (and hash alike) exactly when every cell matches. */
  lemma SameBoard(a: Id, b: Id)
    ensures a == b <==> AsArray(a) == AsArray(b)
  {
    AsArrayFields(a);
    AsArrayFields(b);
    if AsArray(a) == AsArray(b) {
      FieldsInjective(a, b);
    }
  }

  lemma FieldsInjective(a: Id, b: Id)
    requires Fields(a) == Fields(b)
    ensures a == b
  {
    RowInjective0(a, b);
    RowInjective1(a, b);
    RowInjective2(a, b);
    SameFields(a, b);
  }

  lemma RowInjective0(a: Id, b: Id)
    requires Fields(a)[0] == Fields(b)[0]
    ensures a & 3 == b & 3 && (a >> 2) & 3 == (b >> 2) & 3 && (a >> 4) & 3 == (b >> 4) & 3
  {
    FieldEqual(a, b, 0);
    FieldEqual(a, b, 2);
    FieldEqual(a, b, 4);
  }

  lemma RowInjective1(a: Id, b: Id)
    requires Fields(a)[1] == Fields(b)[1]
    ensures (a >> 6) & 3 == (b >> 6) & 3 && (a >> 8) & 3 == (b >> 8) & 3 && (a >> 10) & 3 == (b >> 10) & 3
  {
    FieldEqual(a, b, 6);
    FieldEqual(a, b, 8);
    FieldEqual(a, b, 10);
  }

  lemma RowInjective2(a: Id, b: Id)
    requires Fields(a)[2] == Fields(b)[2]
    ensures (a >> 12) & 3 == (b >> 12) & 3 && (a >> 14) & 3 == (b >> 14) & 3 && (a >> 16) & 3 == (b >> 16) & 3
  {
    FieldEqual(a, b, 12);
    FieldEqual(a, b, 14);
    FieldEqual(a, b, 16);
  }

  /** Decode tells the four values of a two-bit field apart. */
  lemma FieldEqual(a: Id, b: Id, s: bv18)
    requires s <= 16
    requires Decode((a >> s) & 3) == Decode((b >> s) & 3)
    ensures (a >> s) & 3 == (b >> s) & 3
  {
  }

  /** Nine equal two-bit fields make two 18-bit values equal. */
  lemma SameFields(a: Id, b: Id)
    requires a & 3 == b & 3 && (a >> 2) & 3 == (b >> 2) & 3 && (a >> 4) & 3 == (b >> 4) & 3
    requires (a >> 6) & 3 == (b >> 6) & 3 && (a >> 8) & 3 == (b >> 8) & 3 && (a >> 10) & 3 == (b >> 10) & 3
    requires (a >> 12) & 3 == (b >> 12) & 3 && (a >> 14) & 3 == (b >> 14) & 3 && (a >> 16) & 3 == (b >> 16) & 3
    ensures a == b
  {
  }

  /** The new-game board is legal, every cell reads empty, and the game is not over. */
  lemma EmptyBoard()
    ensures Valid(EMPTY)
    ensures forall i: Index, j: Index :: Get(EMPTY, i, j) == 0
    ensures Result(EMPTY) == None
  {
    AsArrayFields(EMPTY);
    forall i: Index, j: Index ensures Get(EMPTY, i, j) == 0 {
      CellAt(EMPTY, i, j);
    }
    assert AsArray(EMPTY)[0][0] == 0;
  }

  /** A legal board shows only -1, 0 and +1, and a board showing only those is legal. */
  lemma ValidCells(id: Id)
    ensures Valid(id) <==> forall i: Index, j: Index :: -1 <= Get(id, i, j) <= 1
  {
    forall i: Index, j: Index ensures Get(id, i, j) == AsArray(id)[i][j] {
      CellAt(id, i, j);
    }
  }

  /** On a legal board whose game is not over, some cell is still empty. */
  lemma OpenCell(id: Id)
    requires Valid(id) && Result(id) == None
    ensures exists i: Index, j: Index :: Get(id, i, j) == 0
  {
    ResultMeaning(id);
    ValidCells(id);
    var g := AsArray(id);
    var i: Index, j: Index :| !(g[i][j] == -1 || g[i][j] == 1);
    CellAt(id, i, j);
  }

  // ---------------------------------------------------------------------------
  // Counting marks
  // ---------------------------------------------------------------------------

  /** The nine cells in row-major order, the order of their fields in the packed value. */
  function Cells(g: Grid): (s: seq<int>)
    requires IsGrid(g)
    ensures |s| == 9
  {
    g[0] + g[1] + g[2]
  }

  /** The number of non-empty entries. */
  function Marks(s: seq<int>): nat
  {
    if |s| == 0 then 0 else (if s[0] != 0 then 1 else 0) + Marks(s[1..])
  }

  /** The number of marks on a board. */
  function MarkCount(id: Id): nat
  {
    Marks(Cells(AsArray(id)))
  }

  lemma CellsAt(g: Grid, i: Index, j: Index)
    requires IsGrid(g)
    ensures Cells(g)[3 * i + j] == g[i][j]
  {
  }

  lemma CellsPut(g: Grid, i: Index, j: Index, v: int)
    requires IsGrid(g)
    ensures Cells(Put(g, i, j, v)) == Cells(g)[3 * i + j := v]
  {
    var a, b := Cells(Put(g, i, j, v)), Cells(g)[3 * i + j := v];
    forall k | 0 <= k < 9 ensures a[k] == b[k] {
      if k < 3 { } else if k < 6 { } else { }
    }
  }

  /** Writing a mark into an empty entry adds one mark. */
  lemma {:induction false} MarksUpdate(s: seq<int>, k: nat, v: int)
    requires k < |s| && s[k] == 0 && v != 0
    ensures Marks(s[k := v]) == Marks(s) + 1
  {
    if k == 0 {
      assert s[k := v][1..] == s[1..];
    } else {
      MarksUpdate(s[1..], k - 1, v);
      assert s[k := v][1..] == s[1..][k - 1 := v];
    }
  }

  /** Erasing a mark removes exactly one. */
  lemma MarksErase(s: seq<int>, k: nat)
    requires k < |s| && s[k] != 0
    ensures Marks(s) == Marks(s[k := 0]) + 1
  {
    MarksUpdate(s[k := 0], k, s[k]);
    assert s[k := 0][k := s[k]] == s;
  }

  /** Two sequences empty at the same places hold as many marks. */
  lemma {:induction false} MarksAgree(s: seq<int>, t: seq<int>)
    requires |s| == |t|
    requires forall k :: 0 <= k < |s| ==> (s[k] == 0 <==> t[k] == 0)
    ensures Marks(s) == Marks(t)
  {
    if |s| > 0 {
      MarksAgree(s[1..], t[1..]);
    }
  }

  /** Three marked entries make at least three marks. */
  lemma MarksAtLeastThree(s: seq<int>, a: nat, b: nat, c: nat)
    requires a < |s| && b < |s| && c < |s| && a != b && b != c && a != c
    requires s[a] != 0 && s[b] != 0 && s[c] != 0
    ensures Marks(s) >= 3
  {
    MarksErase(s, a);
    var s1 := s[a := 0];
    MarksErase(s1, b);
    var s2 := s1[b := 0];
    MarksErase(s2, c);
  }

  /** set on an empty cell adds exactly one mark. */
  lemma PlacedCount(id: Id, i: Index, j: Index, xo: Mark)
    requires Get(id, i, j) == 0
    ensures MarkCount(Placed(id, i, j, xo)) == MarkCount(id) + 1
  {
    var g := AsArray(id);
    PlacedPut(id, i, j, xo);
    CellAt(id, i, j);
    CellsPut(g, i, j, xo);
    CellsAt(g, i, j);
    MarksUpdate(Cells(g), 3 * i + j, xo);
  }

  /** invert keeps the number of marks. */
  lemma InvertedCount(id: Id)
    ensures MarkCount(Inverted(id)) == MarkCount(id)
  {
    InvertedArray(id);
    SwappedMarks(AsArray(id));
  }

  /** Swapping X and O empties no cell and fills none. */
  lemma SwappedMarks(g: Grid)
    requires IsGrid(g)
    ensures Marks(Cells(Swapped(g))) == Marks(Cells(g))
  {
    var s, t := Cells(Swapped(g)), Cells(g);
    forall k | 0 <= k < 9 ensures s[k] == 0 <==> t[k] == 0 {
      if k < 3 { } else if k < 6 { } else { }
    }
    MarksAgree(s, t);
  }

  /** The new-game board holds no mark. */
  lemma EmptyCount()
    ensures MarkCount(EMPTY) == 0
  {
    EmptyBoard();
    var g := AsArray(EMPTY);
    assert g[0][0] == 0 && g[0][1] == 0 && g[0][2] == 0;
    assert g[1][0] == 0 && g[1][1] == 0 && g[1][2] == 0;
    assert g[2][0] == 0 && g[2][1] == 0 && g[2][2] == 0;
  }

  /** A full line of X or O is three marks. */
  lemma WinsCount(g: Grid, m: Mark)
    requires IsGrid(g) && Wins(g, m)
    ensures Marks(Cells(g)) >= 3
  {
    var s := Cells(g);
    if MainDiagonalFull(g, m) {
      MarksAtLeastThree(s, 0, 4, 8);
    } else if AntiDiagonalFull(g, m) {
      MarksAtLeastThree(s, 2, 4, 6);
    } else {
      var r: Index :| RowFull(g, r, m) || ColumnFull(g, r, m);
      if RowFull(g, r, m) {
        CellsAt(g, r, 0); CellsAt(g, r, 1); CellsAt(g, r, 2);
        MarksAtLeastThree(s, 3 * r, 3 * r + 1, 3 * r + 2);
      } else {
        CellsAt(g, 0, r); CellsAt(g, 1, r); CellsAt(g, 2, r);
        MarksAtLeastThree(s, r, 3 + r, 6 + r);
      }
    }
  }

  /** A finished game (a win or a tie) has at least three marks on the board. */
  lemma FinishedCount(id: Id)
    requires Result(id).Some?
    ensures MarkCount(id) >= 3
  {
    var g := AsArray(id);
    ResultMeaning(id);
    if Result(id) == Some(-1) {
      WinsCount(g, -1);
    } else if Result(id) == Some(1) {
      WinsCount(g, 1);
    } else {
      assert g[0][0] != 0 && g[0][1] != 0 && g[0][2] != 0;
      MarksAtLeastThree(Cells(g), 0, 1, 2);
    }
  }

  // ---------------------------------------------------------------------------
  // The board object
  // ---------------------------------------------------------------------------

  /** The mutable board of model.py; get, result, as_array, hash and == read its id. */
  class Board {
    var id: Id

    /** Board(): the empty board. */
    constructor ()
      ensures id == EMPTY
    {
      id := EMPTY;
    }

    /** Board(id): a board regenerated from a packed value. */
    constructor FromId(id0: Id)
      ensures id == id0
    {
      id := id0;
    }

    /** clear: back to the empty board. */
    method Clear()
      modifies this
      ensures id == EMPTY
    {
      id := EMPTY;
    }

    /**
     * set(i, j, xo) in place: the id is rewritten by the mask-and-or of
     * Placed, which (SetGet, PlacedPut) puts the mark in cell (i, j), leaves
     * every other cell as it was and keeps a legal board legal.
     */
    method Set(i: Index, j: Index, xo: Mark)
      modifies this
      ensures id == Placed(old(id), i, j, xo)
    {
      id := Placed(id, i, j, xo);
    }

    /**
     * invert: a new board with X and O swapped (InvertGet); this one is left
     * as it is.
     */
    method Invert() returns (b: Board)
      ensures fresh(b)
      ensures b.id == Inverted(id)
    {
      b := new Board.FromId(Inverted(id));
    }
  }
}
