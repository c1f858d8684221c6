/**
 * The falling-sand simulation of one 16x16 LED matrix
 * (src/component/comp_sand.hpp). A SandGrid owns a 16x16 array of cells;
 * its abstract value is the row-major `seq<seq<bool>>` returned by Model().
 * The random draws and the trigonometry of StepOnce are parameters: the
 * eight dot products of the neighbour directions with the gravity vector,
 * and the noisy cosine threshold drawn for each cell of the traversal.
 */
module SandModel {

  const SIZE: int := 16
  /** The number of cells of a grid. */
  const CELLS: int := 256

  datatype Pos = Pos(r: int, c: int)

  /** One queued grain move of StepOnce: (from_row, from_col, to_row, to_col). */
  datatype Move = Move(from: Pos, to: Pos)

  predicate InBounds(p: Pos)
  {
    0 <= p.r < 16 && 0 <= p.c < 16
  }

  /** The shape of grid_: 16 rows of 16 cells. */
  predicate IsGrid(g: seq<seq<bool>>)
  {
    |g| == 16 && forall r :: 0 <= r < 16 ==> |g[r]| == 16
  }

  /** GetCell: the cell's value, and false outside the grid. */
  function Get(g: seq<seq<bool>>, p: Pos): bool
    requires IsGrid(g)
  {
    if InBounds(p) then g[p.r][p.c] else false
  }

  /** SetCell: writes a cell inside the grid, ignores a position outside it. */
  function Set(g: seq<seq<bool>>, p: Pos, v: bool): (h: seq<seq<bool>>)
    requires IsGrid(g)
    ensures IsGrid(h)
    ensures forall q :: Get(h, q) == if q == p && InBounds(p) then v else Get(g, q)
  {
    if InBounds(p) then g[p.r := g[p.r][p.c := v]] else g
  }

  /** Two grids are equal when every cell is. */
  lemma GridExt(g: seq<seq<bool>>, h: seq<seq<bool>>)
    requires IsGrid(g) && IsGrid(h)
    requires forall r, c :: 0 <= r < 16 && 0 <= c < 16 ==> g[r][c] == h[r][c]
    ensures g == h
  {
    forall r | 0 <= r < 16
      ensures g[r] == h[r]
    {
      assert forall c :: 0 <= c < 16 ==> g[r][c] == h[r][c];
    }
  }

  /** Get determines a grid. */
  lemma GetExt(g: seq<seq<bool>>, h: seq<seq<bool>>)
    requires IsGrid(g) && IsGrid(h)
    requires forall q :: InBounds(q) ==> Get(g, q) == Get(h, q)
    ensures g == h
  {
    forall r, c | 0 <= r < 16 && 0 <= c < 16
      ensures g[r][c] == h[r][c]
    {
      assert Get(g, Pos(r, c)) == Get(h, Pos(r, c));
    }
    GridExt(g, h);
  }

  /** The grid after Clear (and the initial grid_ = {}). */
  function EmptyGrid(): (g: seq<seq<bool>>)
    ensures IsGrid(g)
    ensures forall q :: !Get(g, q)
  {
    seq(16, r => seq(16, c => false))
  }

  function B2I(b: bool): nat
  {
    if b then 1 else 0
  }

  /** The grains in one row. */
  function CountRow(row: seq<bool>): nat
  {
    if |row| == 0 then 0 else CountRow(row[..|row| - 1]) + B2I(row[|row| - 1])
  }

  /** The grains in a list of rows: what Count returns for a grid. */
  function CountRows(g: seq<seq<bool>>): nat
  {
    if |g| == 0 then 0 else CountRows(g[..|g| - 1]) + CountRow(g[|g| - 1])
  }

  lemma {:induction false} CountRowBound(row: seq<bool>)
    ensures CountRow(row) <= |row|
    ensures (forall c :: 0 <= c < |row| ==> !row[c]) ==> CountRow(row) == 0
  {
    if |row| > 0 {
      CountRowBound(row[..|row| - 1]);
    }
  }

  lemma {:induction false} CountRowsBound(g: seq<seq<bool>>)
    requires forall r :: 0 <= r < |g| ==> |g[r]| == 16
    ensures CountRows(g) <= 16 * |g|
  {
    if |g| > 0 {
      CountRowsBound(g[..|g| - 1]);
      CountRowBound(g[|g| - 1]);
    }
  }

  /** A grid holds at most 256 grains, and the empty grid none. */
  lemma CountBounds(g: seq<seq<bool>>)
    requires IsGrid(g)
    ensures CountRows(g) <= CELLS
    ensures CountRows(EmptyGrid()) == 0
  {
    CountRowsBound(g);
    EmptyCount(16);
    assert EmptyGrid()[..16] == EmptyGrid();
  }

  lemma {:induction false} EmptyCount(n: nat)
    requires n <= 16
    ensures CountRows(EmptyGrid()[..n]) == 0
  {
    if n > 0 {
      EmptyCount(n - 1);
      assert EmptyGrid()[..n][..n - 1] == EmptyGrid()[..n - 1];
      CountRowBound(EmptyGrid()[n - 1]);
    }
  }

  lemma {:induction false} CountRowUpdate(row: seq<bool>, c: int, v: bool)
    requires 0 <= c < |row|
    ensures CountRow(row[c := v]) == CountRow(row) - B2I(row[c]) + B2I(v)
  {
    var n := |row|;
    if c == n - 1 {
      assert row[c := v][..n - 1] == row[..n - 1];
    } else {
      assert row[c := v][..n - 1] == row[..n - 1][c := v];
      CountRowUpdate(row[..n - 1], c, v);
    }
  }

  lemma {:induction false} CountRowsUpdate(g: seq<seq<bool>>, r: int, row: seq<bool>)
    requires 0 <= r < |g|
    ensures CountRows(g[r := row]) == CountRows(g) - CountRow(g[r]) + CountRow(row)
  {
    var n := |g|;
    if r == n - 1 {
      assert g[r := row][..n - 1] == g[..n - 1];
    } else {
      assert g[r := row][..n - 1] == g[..n - 1][r := row];
      CountRowsUpdate(g[..n - 1], r, row);
    }
  }

  /** Writing one cell changes the count by the change of that cell. */
  lemma CountSet(g: seq<seq<bool>>, p: Pos, v: bool)
    requires IsGrid(g)
    ensures CountRows(Set(g, p, v)) == CountRows(g) - B2I(Get(g, p)) + B2I(v && InBounds(p))
  {
    if InBounds(p) {
      CountRowUpdate(g[p.r], p.c, v);
      CountRowsUpdate(g, p.r, g[p.r][p.c := v]);
    }
  }

  // ---- Traversal order of StepOnce: rows bottom-up, each from the centre outward ----

  /** SIZE / 2: the column each row of the traversal starts from. */
  const CENTER: int := 8

  /**
   * The columns a row of the traversal lists once the offsets
   * 1 .. offset - 1 have been handled: the centre, then left and right of it.
   */
  function CenterOut(offset: nat): seq<int>
    requires 1 <= offset <= 16
  {
    if offset == 1 then [CENTER]
    else
      CenterOut(offset - 1)
      + (if CENTER - (offset - 1) >= 0 then [CENTER - (offset - 1)] else [])
      + (if CENTER + (offset - 1) < 16 then [CENTER + (offset - 1)] else [])
  }

  /** One step of the offset loop, by the cases of which side is still on the grid. */
  lemma CenterOutStep(offset: nat)
    requires 1 <= offset < 16
    ensures offset < CENTER ==> CenterOut(offset + 1) == CenterOut(offset) + [CENTER - offset] + [CENTER + offset]
    ensures offset == CENTER ==> CenterOut(offset + 1) == CenterOut(offset) + [CENTER - offset]
    ensures offset > CENTER ==> CenterOut(offset + 1) == CenterOut(offset)
  {
  }

  /** The column order of every row of the traversal. */
  const COLUMN_ORDER: seq<int> := [8, 7, 9, 6, 10, 5, 11, 4, 12, 3, 13, 2, 14, 1, 15, 0]

  /** Where column c comes in a row of the traversal. */
  function ColumnRank(c: int): (k: nat)
    requires 0 <= c < 16
    ensures k < 16 && COLUMN_ORDER[k] == c
  {
    if c >= CENTER then 2 * (c - CENTER) else 2 * (CENTER - c) - 1
  }

  lemma ColumnRankInverse(k: int)
    requires 0 <= k < 16
    ensures 0 <= COLUMN_ORDER[k] < 16 && ColumnRank(COLUMN_ORDER[k]) == k
  {
  }

  /** The first four offsets: the centre and three columns on each side. */
  lemma CenterOutFirst()
    ensures CenterOut(4) == [8, 7, 9, 6, 10, 5, 11]
  {
    CenterOutStep(1);
    CenterOutStep(2);
    CenterOutStep(3);
  }

  /** Offsets 4 to 8 complete the row. */
  lemma CenterOutRest()
    ensures CenterOut(9) == COLUMN_ORDER
  {
    CenterOutFirst();
    CenterOutStep(4);
    CenterOutStep(5);
    CenterOutStep(6);
    CenterOutStep(7);
    CenterOutStep(8);
  }

  lemma CenterOutOrder()
    ensures CenterOut(16) == COLUMN_ORDER
  {
    CenterOutRest();
    CenterOutStep(9);
    CenterOutStep(10);
    CenterOutStep(11);
    CenterOutStep(12);
    CenterOutStep(13);
    CenterOutStep(14);
    CenterOutStep(15);
  }

  /** The i-th cell StepOnce visits. */
  function Traversal(i: int): (p: Pos)
    requires 0 <= i < CELLS
    ensures InBounds(p)
  {
    ColumnRankInverse(i % 16);
    Pos(15 - i / 16, COLUMN_ORDER[i % 16])
  }

  /** The step at which StepOnce visits a cell. */
  function TraversalIndex(p: Pos): (i: nat)
    requires InBounds(p)
    ensures i < CELLS && Traversal(i) == p
  {
    (15 - p.r) * 16 + ColumnRank(p.c)
  }

  /**
   * The traversal visits every cell exactly once, and the rows bottom-up:
   * a later step is never in a lower row.
   */
  lemma TraversalBijective(i: int, j: int)
    requires 0 <= i < CELLS && 0 <= j < CELLS
    ensures TraversalIndex(Traversal(i)) == i
    ensures Traversal(i) == Traversal(j) ==> i == j
    ensures i <= j ==> Traversal(i).r >= Traversal(j).r
  {
    ColumnRankInverse(i % 16);
    ColumnRankInverse(j % 16);
  }

  // ---- The candidate cells of AddGrainNearExisting ----

  /** The nine (dr, dc) pairs of the neighbour loops, dr outer and dc inner. */
  const SQUARE: seq<Pos> :=
    [Pos(-1, -1), Pos(-1, 0), Pos(-1, 1), Pos(0, -1), Pos(0, 0), Pos(0, 1), Pos(1, -1), Pos(1, 0), Pos(1, 1)]

  lemma SquareIndex(dr: int, dc: int)
    requires -1 <= dr <= 1 && -1 <= dc <= 1
    ensures SQUARE[(dr + 1) * 3 + (dc + 1)] == Pos(dr, dc)
  {
  }

  /** The neighbour of p in direction d when the loops would list it. */
  function Offer(g: seq<seq<bool>>, p: Pos, d: Pos): seq<Pos>
    requires IsGrid(g)
  {
    var n := Shift(p, d);
    if d == Pos(0, 0) || !InBounds(n) || Get(g, n) then [] else [n]
  }

  /** What the dr/dc loops list for the grain at p after k of their 9 steps. */
  function OffersUpTo(g: seq<seq<bool>>, p: Pos, k: nat): seq<Pos>
    requires IsGrid(g) && k <= 9
  {
    if k == 0 then [] else OffersUpTo(g, p, k - 1) + Offer(g, p, SQUARE[k - 1])
  }

  /** One step of the dr/dc loops, spelled out. */
  lemma OfferStep(g: seq<seq<bool>>, p: Pos, k: nat, dr: int, dc: int)
    requires IsGrid(g) && -1 <= dr <= 1 && -1 <= dc <= 1 && k == (dr + 1) * 3 + (dc + 1)
    ensures var n := Pos(p.r + dr, p.c + dc);
      OffersUpTo(g, p, k + 1)
      == OffersUpTo(g, p, k) + if (dr == 0 && dc == 0) || !InBounds(n) || Get(g, n) then [] else [n]
  {
    SquareIndex(dr, dc);
  }

  /** What the col loop lists for row r after visiting its first c cells. */
  function RowCandidates(g: seq<seq<bool>>, r: int, c: nat): seq<Pos>
    requires IsGrid(g) && c <= 16
  {
    if c == 0 then []
    else RowCandidates(g, r, c - 1) + (if Get(g, Pos(r, c - 1)) then OffersUpTo(g, Pos(r, c - 1), 9) else [])
  }

  /** What the row loop lists after visiting its first r rows. */
  function CandidatesUpTo(g: seq<seq<bool>>, r: nat): seq<Pos>
    requires IsGrid(g) && r <= 16
  {
    if r == 0 then [] else CandidatesUpTo(g, r - 1) + RowCandidates(g, r - 1, 16)
  }

  /** The candidate list of AddGrainNearExisting, duplicates included. */
  function Candidates(g: seq<seq<bool>>): seq<Pos>
    requires IsGrid(g)
  {
    CandidatesUpTo(g, 16)
  }

  /** The eight cells around a cell, the cell itself excluded. */
  predicate Adjacent(p: Pos, q: Pos)
  {
    p != q && -1 <= q.r - p.r <= 1 && -1 <= q.c - p.c <= 1
  }

  /** An empty cell of the grid next to a grain. */
  ghost predicate NearGrain(g: seq<seq<bool>>, q: Pos)
    requires IsGrid(g)
  {
    InBounds(q) && !Get(g, q) && exists p :: Get(g, p) && Adjacent(p, q)
  }

  lemma {:induction false} OffersSound(g: seq<seq<bool>>, p: Pos, k: nat)
    requires IsGrid(g) && k <= 9 && Get(g, p)
    ensures forall j :: 0 <= j < |OffersUpTo(g, p, k)| ==> NearGrain(g, OffersUpTo(g, p, k)[j])
  {
    if k > 0 {
      OffersSound(g, p, k - 1);
    }
  }

  lemma {:induction false} RowSound(g: seq<seq<bool>>, r: int, c: nat)
    requires IsGrid(g) && c <= 16
    ensures forall j :: 0 <= j < |RowCandidates(g, r, c)| ==> NearGrain(g, RowCandidates(g, r, c)[j])
  {
    if c > 0 {
      RowSound(g, r, c - 1);
      if Get(g, Pos(r, c - 1)) {
        OffersSound(g, Pos(r, c - 1), 9);
      }
    }
  }

  lemma {:induction false} CandidatesSound(g: seq<seq<bool>>, r: nat)
    requires IsGrid(g) && r <= 16
    ensures forall j :: 0 <= j < |CandidatesUpTo(g, r)| ==> NearGrain(g, CandidatesUpTo(g, r)[j])
  {
    if r > 0 {
      CandidatesSound(g, r - 1);
      RowSound(g, r - 1, 16);
    }
  }

  lemma {:induction false} OffersComplete(g: seq<seq<bool>>, p: Pos, q: Pos, k: nat)
    requires IsGrid(g) && k <= 9
    requires Adjacent(p, q) && InBounds(q) && !Get(g, q)
    requires (q.r - p.r + 1) * 3 + (q.c - p.c + 1) < k
    ensures q in OffersUpTo(g, p, k)
  {
    if (q.r - p.r + 1) * 3 + (q.c - p.c + 1) < k - 1 {
      OffersComplete(g, p, q, k - 1);
    } else {
      SquareIndex(q.r - p.r, q.c - p.c);
      assert Offer(g, p, SQUARE[k - 1]) == [q];
    }
  }

  lemma InPrefix<T>(a: seq<T>, b: seq<T>, x: T)
    requires a <= b && x in a
    ensures x in b
  {
    var k :| 0 <= k < |a| && a[k] == x;
    assert b[k] == x;
  }

  lemma {:induction false} RowGrow(g: seq<seq<bool>>, r: int, c1: nat, c2: nat)
    requires IsGrid(g) && c1 <= c2 <= 16
    ensures RowCandidates(g, r, c1) <= RowCandidates(g, r, c2)
  {
    if c1 < c2 {
      RowGrow(g, r, c1, c2 - 1);
    }
  }

  lemma {:induction false} CandidatesGrow(g: seq<seq<bool>>, r1: nat, r2: nat)
    requires IsGrid(g) && r1 <= r2 <= 16
    ensures CandidatesUpTo(g, r1) <= CandidatesUpTo(g, r2)
  {
    if r1 < r2 {
      CandidatesGrow(g, r1, r2 - 1);
    }
  }

  lemma CandidatesComplete(g: seq<seq<bool>>, p: Pos, q: Pos)
    requires IsGrid(g) && InBounds(q) && !Get(g, q) && Get(g, p) && Adjacent(p, q)
    ensures q in Candidates(g)
  {
    OffersComplete(g, p, q, 9);
    assert q in RowCandidates(g, p.r, p.c + 1);
    RowGrow(g, p.r, p.c + 1, 16);
    InPrefix(RowCandidates(g, p.r, p.c + 1), RowCandidates(g, p.r, 16), q);
    assert q in CandidatesUpTo(g, p.r + 1);
    CandidatesGrow(g, p.r + 1, 16);
    InPrefix(CandidatesUpTo(g, p.r + 1), Candidates(g), q);
  }

  /**
   * The candidate list holds exactly the empty cells next to a grain, so
   * AddGrainNearExisting fails only when no such cell exists.
   */
  lemma CandidatesExact(g: seq<seq<bool>>, q: Pos)
    requires IsGrid(g)
    ensures q in Candidates(g) <==> NearGrain(g, q)
  {
    if NearGrain(g, q) {
      var p :| Get(g, p) && Adjacent(p, q);
      CandidatesComplete(g, p, q);
    }
    if q in Candidates(g) {
      CandidatesSound(g, 16);
      var k :| 0 <= k < |Candidates(g)| && Candidates(g)[k] == q;
      assert NearGrain(g, Candidates(g)[k]);
    }
  }

  // ---- The move decision of StepOnce ----

  /** The eight neighbour directions (dr, dc), in the order StepOnce tries them. */
  const DIRECTIONS: seq<Pos> :=
    [Pos(-1, -1), Pos(-1, 0), Pos(-1, 1), Pos(0, -1), Pos(0, 1), Pos(1, -1), Pos(1, 0), Pos(1, 1)]

  function Shift(p: Pos, d: Pos): Pos
  {
    Pos(p.r + d.r, p.c + d.c)
  }

  lemma DirectionsAdjacent(p: Pos, k: int)
    requires 0 <= k < 8
    ensures Adjacent(p, Shift(p, DIRECTIONS[k]))
  {
  }

  /** A direction the grain at p may take: into an empty cell inside the grid. */
  predicate Open(g: seq<seq<bool>>, p: Pos, d: Pos)
    requires IsGrid(g)
  {
    InBounds(Shift(p, d)) && !Get(g, Shift(p, d))
  }

  /** best_dot and best_move of the direction search. */
  datatype Best = Best(dot: real, dir: Pos)

  /** The search's starting point: nothing found yet. */
  const NO_BEST: Best := Best(-2.0, Pos(0, 0))

  /**
   * The direction search for the grain at p after trying the first k
   * directions: a direction replaces the best so far when it is open and its
   * dot product with gravity beats both the threshold and the best so far.
   */
  function BestUpTo(g: seq<seq<bool>>, p: Pos, dots: seq<real>, threshold: real, k: nat): Best
    requires IsGrid(g) && |dots| == 8 && k <= 8
  {
    if k == 0 then NO_BEST
    else
      var prev := BestUpTo(g, p, dots, threshold, k - 1);
      if Open(g, p, DIRECTIONS[k - 1]) && dots[k - 1] > threshold && dots[k - 1] > prev.dot
      then Best(dots[k - 1], DIRECTIONS[k - 1])
      else prev
  }

  /**
   * The search either finds nothing or an open direction whose dot product
   * beats the threshold and is the largest among the open directions tried.
   */
  lemma {:induction false} BestIsArgmax(g: seq<seq<bool>>, p: Pos, dots: seq<real>, threshold: real, k: nat)
    requires IsGrid(g) && |dots| == 8 && k <= 8
    ensures var b := BestUpTo(g, p, dots, threshold, k);
      && (b == NO_BEST || (b.dot > -2.0 && b.dot > threshold && b.dir in DIRECTIONS && Open(g, p, b.dir)))
      && (forall j :: 0 <= j < k && Open(g, p, DIRECTIONS[j]) && dots[j] > threshold ==> dots[j] <= b.dot)
  {
    if k > 0 {
      BestIsArgmax(g, p, dots, threshold, k - 1);
    }
  }

  /** occupied_next: some queued move already goes into t. */
  predicate Targeted(ms: seq<Move>, t: Pos)
  {
    exists k :: 0 <= k < |ms| && ms[k].to == t
  }

  /** Some queued move leaves from s. */
  ghost predicate IsSource(ms: seq<Move>, s: Pos)
  {
    exists k :: 0 <= k < |ms| && ms[k].from == s
  }

  /**
   * The moves StepOnce has queued after the first i cells of the traversal:
   * a grain queues a move when its search found a direction with a dot
   * product above -1 and no earlier grain has claimed the target.
   */
  function DecisionUpTo(g: seq<seq<bool>>, dots: seq<real>, thresholds: seq<real>, i: nat): seq<Move>
    requires IsGrid(g) && |dots| == 8 && |thresholds| == CELLS && i <= CELLS
  {
    if i == 0 then []
    else
      var prev := DecisionUpTo(g, dots, thresholds, i - 1);
      var p := Traversal(i - 1);
      if !Get(g, p) then prev
      else
        var b := BestUpTo(g, p, dots, thresholds[i - 1], 8);
        if b.dot > -1.0 && !Targeted(prev, Shift(p, b.dir)) then prev + [Move(p, Shift(p, b.dir))]
        else prev
  }

  function Decision(g: seq<seq<bool>>, dots: seq<real>, thresholds: seq<real>): seq<Move>
    requires IsGrid(g) && |dots| == 8 && |thresholds| == CELLS
  {
    DecisionUpTo(g, dots, thresholds, CELLS)
  }

  /** One step of the decision pass, spelled out. */
  lemma DecisionStep(g: seq<seq<bool>>, dots: seq<real>, thresholds: seq<real>, i: nat, b: Best)
    requires IsGrid(g) && |dots| == 8 && |thresholds| == CELLS && i < CELLS
    requires b == BestUpTo(g, Traversal(i), dots, thresholds[i], 8)
    ensures var prev, p := DecisionUpTo(g, dots, thresholds, i), Traversal(i);
      DecisionUpTo(g, dots, thresholds, i + 1)
      == if Get(g, p) && b.dot > -1.0 && !Targeted(prev, Shift(p, b.dir)) then prev + [Move(p, Shift(p, b.dir))] else prev
    ensures b.dot > -1.0 ==> InBounds(Shift(Traversal(i), b.dir))
  {
    BestIsArgmax(g, Traversal(i), dots, thresholds[i], 8);
  }

  lemma TargetedAll(ms: seq<Move>, m: Move)
    ensures forall q :: Targeted(ms + [m], q) == (Targeted(ms, q) || m.to == q)
  {
    forall q
      ensures Targeted(ms + [m], q) == (Targeted(ms, q) || m.to == q)
    {
      TargetedSnoc(ms, m, q);
    }
  }

  /**
   * Moves that can be applied one after the other without interfering: each
   * takes a grain into an adjacent empty cell, and no two share a source or
   * a target.
   */
  predicate Disjoint(g: seq<seq<bool>>, ms: seq<Move>)
    requires IsGrid(g)
  {
    && (forall k :: 0 <= k < |ms| ==>
          Get(g, ms[k].from) && InBounds(ms[k].to) && !Get(g, ms[k].to) && Adjacent(ms[k].from, ms[k].to))
    && (forall k1, k2 :: 0 <= k1 < k2 < |ms| ==> ms[k1].from != ms[k2].from && ms[k1].to != ms[k2].to)
  }

  lemma DisjointSnoc(g: seq<seq<bool>>, ms: seq<Move>, m: Move)
    requires IsGrid(g) && Disjoint(g, ms)
    requires Get(g, m.from) && InBounds(m.to) && !Get(g, m.to) && Adjacent(m.from, m.to)
    requires forall k :: 0 <= k < |ms| ==> ms[k].from != m.from
    requires !Targeted(ms, m.to)
    ensures Disjoint(g, ms + [m])
  {
    var ms' := ms + [m];
    assert forall k :: 0 <= k < |ms| ==> ms'[k] == ms[k];
  }

  lemma DisjointPrefix(g: seq<seq<bool>>, ms: seq<Move>, n: nat)
    requires IsGrid(g) && Disjoint(g, ms) && n <= |ms|
    ensures Disjoint(g, ms[..n])
  {
    assert forall k :: 0 <= k < n ==> ms[..n][k] == ms[k];
  }

  /** The moves StepOnce queues never interfere with each other. */
  lemma {:induction false} DecisionDisjoint(g: seq<seq<bool>>, dots: seq<real>, thresholds: seq<real>, i: nat)
    requires IsGrid(g) && |dots| == 8 && |thresholds| == CELLS && i <= CELLS
    ensures Disjoint(g, DecisionUpTo(g, dots, thresholds, i))
    ensures forall k :: 0 <= k < |DecisionUpTo(g, dots, thresholds, i)| ==>
      TraversalIndex(DecisionUpTo(g, dots, thresholds, i)[k].from) < i
  {
    if i > 0 {
      DecisionDisjoint(g, dots, thresholds, i - 1);
      var prev := DecisionUpTo(g, dots, thresholds, i - 1);
      var p := Traversal(i - 1);
      if Get(g, p) {
        var b := BestUpTo(g, p, dots, thresholds[i - 1], 8);
        if b.dot > -1.0 && !Targeted(prev, Shift(p, b.dir)) {
          QueueDisjoint(g, prev, p, b, i, dots, thresholds[i - 1]);
        }
      }
    }
  }

  /** Queuing the move of the i-th grain keeps the queue non-interfering. */
  lemma QueueDisjoint(g: seq<seq<bool>>, prev: seq<Move>, p: Pos, b: Best, i: nat, dots: seq<real>, threshold: real)
    requires IsGrid(g) && |dots| == 8 && 0 < i <= CELLS
    requires p == Traversal(i - 1) && Get(g, p)
    requires b == BestUpTo(g, p, dots, threshold, 8) && b.dot > -1.0
    requires !Targeted(prev, Shift(p, b.dir))
    requires Disjoint(g, prev)
    requires forall k :: 0 <= k < |prev| ==> TraversalIndex(prev[k].from) < i - 1
    ensures Disjoint(g, prev + [Move(p, Shift(p, b.dir))])
    ensures forall k :: 0 <= k < |prev| + 1 ==> TraversalIndex((prev + [Move(p, Shift(p, b.dir))])[k].from) < i
  {
    var m := Move(p, Shift(p, b.dir));
    assert Get(g, m.from) && InBounds(m.to) && !Get(g, m.to) && Adjacent(m.from, m.to) by {
      BestIsArgmax(g, p, dots, threshold, 8);
      var j :| 0 <= j < 8 && DIRECTIONS[j] == b.dir;
      DirectionsAdjacent(p, j);
    }
    assert TraversalIndex(p) == i - 1 by {
      TraversalBijective(i - 1, i - 1);
    }
    DisjointSnoc(g, prev, m);
    var ms := prev + [m];
    assert forall k :: 0 <= k < |prev| ==> ms[k] == prev[k];
  }

  /** Applying one queued move: the source cell empties, the target fills. */
  function ApplyMove(g: seq<seq<bool>>, m: Move): (h: seq<seq<bool>>)
    requires IsGrid(g)
    ensures IsGrid(h)
  {
    Set(Set(g, m.from, false), m.to, true)
  }

  lemma ApplyMoveEffect(g: seq<seq<bool>>, m: Move)
    requires IsGrid(g) && Get(g, m.from) && InBounds(m.to) && !Get(g, m.to)
    ensures forall q :: Get(ApplyMove(g, m), q) == if q == m.to then true else if q == m.from then false else Get(g, q)
    ensures CountRows(ApplyMove(g, m)) == CountRows(g)
  {
    CountSet(g, m.from, false);
    CountSet(Set(g, m.from, false), m.to, true);
  }

  /** The grid after applying the moves in order. */
  function ApplyAll(g: seq<seq<bool>>, ms: seq<Move>): (h: seq<seq<bool>>)
    requires IsGrid(g)
    ensures IsGrid(h)
  {
    if |ms| == 0 then g else ApplyMove(ApplyAll(g, ms[..|ms| - 1]), ms[|ms| - 1])
  }

  /**
   * Applying non-interfering moves: a cell ends up full exactly when it was
   * full and no grain left it, or a grain arrived in it; the number of
   * grains does not change.
   */
  lemma {:induction false} ApplyAllEffect(g: seq<seq<bool>>, ms: seq<Move>)
    requires IsGrid(g) && Disjoint(g, ms)
    ensures forall q :: InBounds(q) ==>
      Get(ApplyAll(g, ms), q) == ((Get(g, q) && !IsSource(ms, q)) || Targeted(ms, q))
    ensures CountRows(ApplyAll(g, ms)) == CountRows(g)
  {
    if |ms| > 0 {
      var n := |ms|;
      DisjointPrefix(g, ms, n - 1);
      ApplyAllEffect(g, ms[..n - 1]);
      ApplyLast(g, ms);
    }
  }

  lemma ApplyLast(g: seq<seq<bool>>, ms: seq<Move>)
    requires IsGrid(g) && Disjoint(g, ms) && |ms| > 0
    requires forall q :: InBounds(q) ==>
      Get(ApplyAll(g, ms[..|ms| - 1]), q) == ((Get(g, q) && !IsSource(ms[..|ms| - 1], q)) || Targeted(ms[..|ms| - 1], q))
    requires CountRows(ApplyAll(g, ms[..|ms| - 1])) == CountRows(g)
    ensures forall q :: InBounds(q) ==>
      Get(ApplyAll(g, ms), q) == ((Get(g, q) && !IsSource(ms, q)) || Targeted(ms, q))
    ensures CountRows(ApplyAll(g, ms)) == CountRows(g)
  {
    var n := |ms|;
    var front, m := ms[..n - 1], ms[n - 1];
    LastMoveFree(g, ms);
    var h := ApplyAll(g, front);
    assert Get(h, m.from) && !Get(h, m.to);
    ApplyMoveEffect(h, m);
    SplitLast(ms);
    ApplyStepEffect(g, front, m, h);
  }

  /** The last of non-interfering moves leaves a full cell that no earlier move touches for an empty one no earlier move fills. */
  lemma LastMoveFree(g: seq<seq<bool>>, ms: seq<Move>)
    requires IsGrid(g) && Disjoint(g, ms) && |ms| > 0
    ensures var front, m := ms[..|ms| - 1], ms[|ms| - 1];
      && Get(g, m.from) && InBounds(m.to) && !Get(g, m.to) && m.from != m.to
      && !IsSource(front, m.from) && !Targeted(front, m.from) && !Targeted(front, m.to)
  {
    var n := |ms|;
    var front, m := ms[..n - 1], ms[n - 1];
    assert Adjacent(m.from, m.to);
    forall k | 0 <= k < n - 1
      ensures front[k].from != m.from && front[k].to != m.from && front[k].to != m.to
    {
      assert front[k] == ms[k];
    }
  }

  lemma SplitLast(ms: seq<Move>)
    requires |ms| > 0
    ensures ms == ms[..|ms| - 1] + [ms[|ms| - 1]]
  {
  }

  lemma ApplyStepEffect(g: seq<seq<bool>>, front: seq<Move>, m: Move, h: seq<seq<bool>>)
    requires IsGrid(g) && IsGrid(h)
    requires forall q :: InBounds(q) ==> Get(h, q) == ((Get(g, q) && !IsSource(front, q)) || Targeted(front, q))
    requires Get(g, m.from) && !Get(g, m.to) && m.from != m.to && !Targeted(front, m.from)
    requires forall q :: Get(ApplyMove(h, m), q) == if q == m.to then true else if q == m.from then false else Get(h, q)
    ensures forall q :: InBounds(q) ==>
      Get(ApplyMove(h, m), q) == ((Get(g, q) && !IsSource(front + [m], q)) || Targeted(front + [m], q))
  {
    forall q | InBounds(q)
      ensures Get(ApplyMove(h, m), q) == ((Get(g, q) && !IsSource(front + [m], q)) || Targeted(front + [m], q))
    {
      SourceSnoc(front, m, q);
      TargetedSnoc(front, m, q);
    }
  }

  lemma SourceSnoc(ms: seq<Move>, m: Move, q: Pos)
    ensures IsSource(ms + [m], q) == (IsSource(ms, q) || m.from == q)
  {
    var ms' := ms + [m];
    if IsSource(ms', q) && m.from != q {
      var k :| 0 <= k < |ms'| && ms'[k].from == q;
      assert ms[k].from == q;
    }
    if IsSource(ms, q) {
      var k :| 0 <= k < |ms| && ms[k].from == q;
      assert ms'[k].from == q;
    }
    assert ms'[|ms|] == m;
  }

  lemma TargetedSnoc(ms: seq<Move>, m: Move, q: Pos)
    ensures Targeted(ms + [m], q) == (Targeted(ms, q) || m.to == q)
  {
    var ms' := ms + [m];
    if Targeted(ms', q) && m.to != q {
      var k :| 0 <= k < |ms'| && ms'[k].to == q;
      assert ms[k].to == q;
    }
    if Targeted(ms, q) {
      var k :| 0 <= k < |ms| && ms[k].to == q;
      assert ms'[k].to == q;
    }
    assert ms'[|ms|] == m;
  }

  /**
   * One StepOnce conserves the sand: each grain stays where it was or moves
   * to an adjacent cell that was empty, and no two grains end in one cell.
   */
  lemma StepConservesSand(g: seq<seq<bool>>, dots: seq<real>, thresholds: seq<real>)
    requires IsGrid(g) && |dots| == 8 && |thresholds| == CELLS
    ensures CountRows(ApplyAll(g, Decision(g, dots, thresholds))) == CountRows(g)
    ensures Disjoint(g, Decision(g, dots, thresholds))
  {
    DecisionDisjoint(g, dots, thresholds, CELLS);
    ApplyAllEffect(g, Decision(g, dots, thresholds));
  }

  /** The cells of row r in the given column order. */
  function RowCells(r: int, cols: seq<int>): (ps: seq<Pos>)
    ensures |ps| == |cols|
    ensures forall k :: 0 <= k < |cols| ==> ps[k] == Pos(r, cols[k])
  {
    if |cols| == 0 then [] else RowCells(r, cols[..|cols| - 1]) + [Pos(r, cols[|cols| - 1])]
  }

  lemma RowCellsSnoc(r: int, cols: seq<int>, x: int)
    ensures RowCells(r, cols + [x]) == RowCells(r, cols) + [Pos(r, x)]
  {
    assert (cols + [x])[..|cols|] == cols;
  }

  /** The two grids before and after MoveSand(up, down, angle), as one relation. */
  predicate Transferred(u0: seq<seq<bool>>, d0: seq<seq<bool>>, u: seq<seq<bool>>, d: seq<seq<bool>>, angle: real)
    requires IsGrid(u0) && IsGrid(d0)
  {
    var downward := angle < 90.0 || angle > 270.0;
    var moves := if downward then Get(u0, Pos(0, 0)) && !Get(d0, Pos(15, 15))
                 else !Get(u0, Pos(0, 0)) && Get(d0, Pos(15, 15));
    if moves then u == Set(u0, Pos(0, 0), !Get(u0, Pos(0, 0))) && d == Set(d0, Pos(15, 15), !Get(d0, Pos(15, 15)))
    else u == u0 && d == d0
  }

  class SandGrid {
    /** grid_: the cells, row by row. */
    const grid: array2<bool>

    ghost predicate Valid()
      reads this
    {
      grid.Length0 == 16 && grid.Length1 == 16
    }

    /** The grid's contents as a value. */
    ghost function Model(): (g: seq<seq<bool>>)
      reads this, grid
      requires Valid()
      ensures IsGrid(g)
      ensures forall r, c :: 0 <= r < 16 && 0 <= c < 16 ==> g[r][c] == grid[r, c]
    {
      seq(16, r requires 0 <= r < 16 reads grid => seq(16, c requires 0 <= c < 16 reads grid => grid[r, c]))
    }

    /** A new grid holds no sand. */
    constructor ()
      ensures Valid() && fresh(grid)
      ensures Model() == EmptyGrid()
    {
      grid := new bool[16, 16]((r, c) => false);
      new;
      GridExt(Model(), EmptyGrid());
    }

    function GetCell(r: int, c: int): (b: bool)
      reads this, grid
      requires Valid()
      ensures b == Get(Model(), Pos(r, c))
      ensures !InBounds(Pos(r, c)) ==> !b
    {
      if InBounds(Pos(r, c)) then grid[r, c] else false
    }

    method SetCell(r: int, c: int, val: bool)
      requires Valid()
      modifies grid
      ensures Model() == Set(old(Model()), Pos(r, c), val)
    {
      ghost var before := Model();
      if InBounds(Pos(r, c)) {
        grid[r, c] := val;
      }
      GetExt(Model(), Set(before, Pos(r, c), val));
    }

    /** Drops a grain into the bottom-right corner cell unless it is full. */
    method AddNewSand() returns (added: bool)
      requires Valid()
      modifies grid
      ensures added == !old(Get(Model(), Pos(15, 15)))
      ensures Model() == if added then Set(old(Model()), Pos(15, 15), true) else old(Model())
      ensures CountRows(Model()) == old(CountRows(Model())) + B2I(added)
    {
      ghost var before := Model();
      if !grid[15, 15] {
        grid[15, 15] := true;
        added := true;
        GetExt(Model(), Set(before, Pos(15, 15), true));
        CountSet(before, Pos(15, 15), true);
      } else {
        added := false;
      }
    }

    /**
     * Fills one empty cell next to a grain; `pick` is the random draw, and
     * the cell is the candidate at that position modulo the number of
     * candidates.
     */
    method AddGrainNearExisting(pick: nat) returns (added: bool)
      requires Valid()
      modifies grid
      ensures added == (|Candidates(old(Model()))| > 0)
      ensures added == exists q :: NearGrain(old(Model()), q)
      ensures added ==> Model() == Set(old(Model()), Candidates(old(Model()))[pick % |Candidates(old(Model()))|], true)
      ensures added ==> CountRows(Model()) == old(CountRows(Model())) + 1
      ensures !added ==> Model() == old(Model())
    {
      ghost var g := Model();
      var candidates := CollectCandidates();
      if |candidates| == 0 {
        assert !exists q :: NearGrain(g, q) by {
          if exists q :: NearGrain(g, q) {
            var q :| NearGrain(g, q);
            CandidatesExact(g, q);
          }
        }
        return false;
      }
      var q := candidates[pick % |candidates|];
      CandidatesExact(g, q);
      grid[q.r, q.c] := true;
      GetExt(Model(), Set(g, q, true));
      CountSet(g, q, true);
      return true;
    }

    /** The candidate list of AddGrainNearExisting: the row and column loops. */
    method CollectCandidates() returns (candidates: seq<Pos>)
      requires Valid()
      ensures candidates == Candidates(Model())
    {
      candidates := [];
      var row := 0;
      while row < 16
        invariant 0 <= row <= 16
        invariant candidates == CandidatesUpTo(Model(), row)
      {
        var offers := CollectRow(row);
        candidates := candidates + offers;
        row := row + 1;
      }
    }

    /** The column loop for one row: the empty neighbours of each grain of that row, in order. */
    method CollectRow(row: nat) returns (candidates: seq<Pos>)
      requires Valid() && row < 16
      ensures candidates == RowCandidates(Model(), row, 16)
    {
      candidates := [];
      var col := 0;
      while col < 16
        invariant 0 <= col <= 16
        invariant candidates == RowCandidates(Model(), row, col)
      {
        assert grid[row, col] == Get(Model(), Pos(row, col));
        if grid[row, col] {
          var offers := EmptyNeighbours(row, col);
          candidates := candidates + offers;
        }
        col := col + 1;
      }
    }

    /** The dr and dc loops: the empty cells around (row, col), in the loops' order. */
    method EmptyNeighbours(row: int, col: int) returns (offers: seq<Pos>)
      requires Valid()
      ensures offers == OffersUpTo(Model(), Pos(row, col), 9)
    {
      offers := [];
      var dr := -1;
      while dr <= 1
        invariant -1 <= dr <= 2
        invariant offers == OffersUpTo(Model(), Pos(row, col), (dr + 1) * 3)
      {
        offers := EmptyNeighboursAt(row, col, dr, offers);
        dr := dr + 1;
      }
    }

    /** The dc loop for one dr: appends the empty cells (row + dr, col + dc). */
    method EmptyNeighboursAt(row: int, col: int, dr: int, offers: seq<Pos>) returns (offers': seq<Pos>)
      requires Valid() && -1 <= dr <= 1
      requires offers == OffersUpTo(Model(), Pos(row, col), (dr + 1) * 3)
      ensures offers' == OffersUpTo(Model(), Pos(row, col), (dr + 1) * 3 + 3)
    {
      offers' := offers;
      var dc := -1;
      while dc <= 1
        invariant -1 <= dc <= 2
        invariant offers' == OffersUpTo(Model(), Pos(row, col), (dr + 1) * 3 + (dc + 1))
      {
        offers' := OfferNeighbour(row, col, dr, dc, offers');
        dc := dc + 1;
      }
      assert (dr + 1) * 3 + (dc + 1) == (dr + 1) * 3 + 3;
    }

    /** One pass of the dc loop body: appends (row + dr, col + dc) when it is an empty cell of the grid. */
    method OfferNeighbour(row: int, col: int, dr: int, dc: int, offers: seq<Pos>) returns (offers': seq<Pos>)
      requires Valid() && -1 <= dr <= 1 && -1 <= dc <= 1
      requires offers == OffersUpTo(Model(), Pos(row, col), (dr + 1) * 3 + (dc + 1))
      ensures offers' == OffersUpTo(Model(), Pos(row, col), (dr + 1) * 3 + (dc + 1) + 1)
    {
      OfferStep(Model(), Pos(row, col), (dr + 1) * 3 + (dc + 1), dr, dc);
      offers' := offers;
      if !(dr == 0 && dc == 0) {
        var nr, nc := row + dr, col + dc;
        if InBounds(Pos(nr, nc)) && !grid[nr, nc] {
          offers' := offers' + [Pos(nr, nc)];
        }
      }
    }

    /**
     * One frame of the simulation: visits the cells bottom-up and from the
     * centre outward, lets every grain pick its best direction, queues the
     * moves whose target is still unclaimed, then performs them in order.
     * `dots[k]` is the dot product of direction k with the gravity vector and
     * `thresholds[i]` the noisy cosine threshold of the i-th visited cell.
     */
    method StepOnce(dots: seq<real>, thresholds: seq<real>)
      requires Valid() && |dots| == 8 && |thresholds| == CELLS
      modifies grid
      ensures Model() == ApplyAll(old(Model()), Decision(old(Model()), dots, thresholds))
      ensures CountRows(Model()) == old(CountRows(Model()))
    {
      ghost var g := Model();
      var moves := DecideMoves(dots, thresholds);
      DecisionDisjoint(g, dots, thresholds, CELLS);
      ApplyMoves(moves);
      StepConservesSand(g, dots, thresholds);
    }

    /** The decision pass of StepOnce: the moves it queues, the grid untouched. */
    method DecideMoves(dots: seq<real>, thresholds: seq<real>) returns (moves: seq<Move>)
      requires Valid() && |dots| == 8 && |thresholds| == CELLS
      ensures moves == Decision(Model(), dots, thresholds)
    {
      ghost var g := Model();
      var order := TraversalOrder();
      moves := [];
      // occupied_next is a local value array, not shared with anything
      var occupied := EmptyGrid();
      var i := 0;
      while i < |order|
        invariant 0 <= i <= CELLS
        invariant moves == DecisionUpTo(g, dots, thresholds, i)
        invariant IsGrid(occupied)
        invariant forall q :: InBounds(q) ==> Get(occupied, q) == Targeted(moves, q)
      {
        moves, occupied := DecideCell(dots, thresholds, i, order[i], moves, occupied);
        i := i + 1;
      }
    }

    /**
     * The decision for the i-th visited cell p: a grain whose search found a
     * direction queues its move unless the target is already claimed.
     */
    method DecideCell(dots: seq<real>, thresholds: seq<real>, i: nat, p: Pos, moves: seq<Move>, occupied: seq<seq<bool>>)
      returns (moves': seq<Move>, occupied': seq<seq<bool>>)
      requires Valid() && |dots| == 8 && |thresholds| == CELLS && i < CELLS && p == Traversal(i)
      requires moves == DecisionUpTo(Model(), dots, thresholds, i)
      requires IsGrid(occupied) && forall q :: InBounds(q) ==> Get(occupied, q) == Targeted(moves, q)
      ensures moves' == DecisionUpTo(Model(), dots, thresholds, i + 1)
      ensures IsGrid(occupied') && forall q :: InBounds(q) ==> Get(occupied', q) == Targeted(moves', q)
    {
      ghost var g := Model();
      ghost var b := BestUpTo(g, p, dots, thresholds[i], 8);
      DecisionStep(g, dots, thresholds, i, b);
      moves', occupied' := moves, occupied;
      if grid[p.r, p.c] {
        var best := BestDirection(p, dots, thresholds[i]);
        if best.dot > -1.0 {
          var t := Shift(p, best.dir);
          if !occupied[t.r][t.c] {
            occupied' := Set(occupied, t, true);
            TargetedAll(moves, Move(p, t));
            moves' := moves + [Move(p, t)];
          }
        }
      }
    }

    /** The direction search of StepOnce for the grain at p. */
    method BestDirection(p: Pos, dots: seq<real>, threshold: real) returns (best: Best)
      requires Valid() && |dots| == 8
      ensures best == BestUpTo(Model(), p, dots, threshold, 8)
    {
      var bestDot := -2.0;
      var bestMove := Pos(0, 0);
      var k := 0;
      while k < |DIRECTIONS|
        invariant 0 <= k <= 8
        invariant Best(bestDot, bestMove) == BestUpTo(Model(), p, dots, threshold, k)
      {
        var d := DIRECTIONS[k];
        var nr, nc := p.r + d.r, p.c + d.c;
        if InBounds(Pos(nr, nc)) && !grid[nr, nc] {
          if dots[k] > threshold && dots[k] > bestDot {
            bestDot := dots[k];
            bestMove := d;
          }
        }
        k := k + 1;
      }
      best := Best(bestDot, bestMove);
    }

    /** The move pass of StepOnce: each queued move empties its source and fills its target. */
    method ApplyMoves(moves: seq<Move>)
      requires Valid() && Disjoint(Model(), moves)
      modifies grid
      ensures Model() == ApplyAll(old(Model()), moves)
    {
      ghost var g := Model();
      var j := 0;
      while j < |moves|
        invariant 0 <= j <= |moves|
        invariant Model() == ApplyAll(g, moves[..j])
      {
        var m := moves[j];
        ghost var h := Model();
        grid[m.from.r, m.from.c] := false;
        grid[m.to.r, m.to.c] := true;
        GetExt(Model(), ApplyMove(h, m));
        assert moves[..j + 1][..j] == moves[..j];
        j := j + 1;
      }
      assert moves[..j] == moves;
    }

    /** The cells in the order StepOnce visits them. */
    static method TraversalOrder() returns (order: seq<Pos>)
      ensures |order| == CELLS
      ensures forall i :: 0 <= i < CELLS ==> order[i] == Traversal(i)
    {
      order := [];
      var r := 15;
      while r >= 0
        invariant -1 <= r <= 15
        invariant |order| == (15 - r) * 16
        invariant forall i :: 0 <= i < |order| ==> order[i] == Traversal(i)
      {
        var cells := TraversalRow(r);
        forall k | 0 <= k < 16
          ensures cells[k] == Traversal(|order| + k)
        {
          assert (|order| + k) / 16 == 15 - r && (|order| + k) % 16 == k;
        }
        order := order + cells;
        r := r - 1;
      }
    }

    /** The cells of row r in the order StepOnce visits them: centre first, then alternately left and right. */
    static method TraversalRow(r: int) returns (cells: seq<Pos>)
      ensures cells == RowCells(r, COLUMN_ORDER)
    {
      var center := CENTER;
      cells := [Pos(r, center)];
      var offset := 1;
      ghost var cols := [center];
      while offset < 16
        invariant 1 <= offset <= 16
        invariant cols == CenterOut(offset)
        invariant cells == RowCells(r, cols)
      {
        ghost var next := CenterOut(offset + 1);
        CenterOutStep(offset);
        var left, right := center - offset, center + offset;
        if left >= 0 {
          RowCellsSnoc(r, cols, left);
          cells := cells + [Pos(r, left)];
          cols := cols + [left];
        }
        if right < 16 {
          RowCellsSnoc(r, cols, right);
          cells := cells + [Pos(r, right)];
          cols := cols + [right];
        }
        assert cols == next;
        offset := offset + 1;
      }
      CenterOutOrder();
    }

    method Clear()
      requires Valid()
      modifies grid
      ensures Model() == EmptyGrid()
    {
      var r := 0;
      while r < 16
        invariant 0 <= r <= 16
        invariant forall r', c :: 0 <= r' < r && 0 <= c < 16 ==> !grid[r', c]
      {
        var c := 0;
        while c < 16
          invariant 0 <= c <= 16
          invariant forall r', c' :: 0 <= r' < r && 0 <= c' < 16 ==> !grid[r', c']
          invariant forall c' :: 0 <= c' < c ==> !grid[r, c']
        {
          grid[r, c] := false;
          c := c + 1;
        }
        r := r + 1;
      }
      GridExt(Model(), EmptyGrid());
    }

    /** The number of grains. */
    method Count() returns (total: int)
      requires Valid()
      ensures total == CountRows(Model())
      ensures 0 <= total <= CELLS
    {
      ghost var g := Model();
      total := 0;
      var r := 0;
      while r < 16
        invariant 0 <= r <= 16
        invariant total == CountRows(g[..r])
      {
        var c := 0;
        while c < 16
          invariant 0 <= c <= 16
          invariant total == CountRows(g[..r]) + CountRow(g[r][..c])
        {
          assert g[r][..c + 1][..c] == g[r][..c];
          if grid[r, c] {
            total := total + 1;
          }
          c := c + 1;
        }
        assert g[r][..16] == g[r];
        assert g[..r + 1][..r] == g[..r];
        r := r + 1;
      }
      assert g[..16] == g;
      CountBounds(g);
    }

    /**
     * Passes one grain between the two halves of the hourglass: with gravity
     * pointing down (angle below 90 or above 270 degrees) from the upper
     * grid's top-left corner to the lower grid's bottom-right corner, and the
     * other way otherwise; only when the source is full and the target empty.
     */
    static method MoveSand(up: SandGrid, down: SandGrid, angle: real) returns (moved: bool)
      requires up.Valid() && down.Valid() && up.grid != down.grid
      modifies up.grid, down.grid
      ensures var downward := angle < 90.0 || angle > 270.0;
        moved == if downward then old(Get(up.Model(), Pos(0, 0)) && !Get(down.Model(), Pos(15, 15)))
                 else old(!Get(up.Model(), Pos(0, 0)) && Get(down.Model(), Pos(15, 15)))
      ensures moved ==> up.Model() == Set(old(up.Model()), Pos(0, 0), !old(Get(up.Model(), Pos(0, 0))))
      ensures moved ==> down.Model() == Set(old(down.Model()), Pos(15, 15), !old(Get(down.Model(), Pos(15, 15))))
      ensures !moved ==> up.Model() == old(up.Model()) && down.Model() == old(down.Model())
      ensures CountRows(up.Model()) + CountRows(down.Model()) == old(CountRows(up.Model()) + CountRows(down.Model()))
      ensures Transferred(old(up.Model()), old(down.Model()), up.Model(), down.Model(), angle)
    {
      ghost var u, d := up.Model(), down.Model();
      moved := false;
      if angle < 90.0 || angle > 270.0 {
        if up.grid[0, 0] && !down.grid[15, 15] {
          down.grid[15, 15] := true;
          up.grid[0, 0] := false;
          moved := true;
        }
      } else {
        if !up.grid[0, 0] && down.grid[15, 15] {
          up.grid[0, 0] := true;
          down.grid[15, 15] := false;
          moved := true;
        }
      }
      if moved {
        GetExt(up.Model(), Set(u, Pos(0, 0), !Get(u, Pos(0, 0))));
        GetExt(down.Model(), Set(d, Pos(15, 15), !Get(d, Pos(15, 15))));
        CountSet(u, Pos(0, 0), !Get(u, Pos(0, 0)));
        CountSet(d, Pos(15, 15), !Get(d, Pos(15, 15)));
      } else {
        GridExt(up.Model(), u);
        GridExt(down.Model(), d);
      }
    }
  }
}
