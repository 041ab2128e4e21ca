/**
 * The pieces of the Capture-the-Flag path planner that edit or inspect a
 * waypoint list without recursion: the shift search around a blocked
 * waypoint, the final pass that drops redundant waypoints, the guard
 * against a search that cycles, and the scan of a fresh list for
 * impassable points.
 */
module PathEditing {
  import opened JavaSemantics
  import opened Coordinates
  import opened GameParams
  import opened ZoneMap

  /** Two consecutive waypoints form a leg along a row or a column. */
  predicate Aligned(a: Coordinate, b: Coordinate)
  {
    a.x == b.x || a.y == b.y
  }

  /** Three waypoints on one row or one column: the middle one is redundant. */
  predicate Collinear(a: Coordinate, b: Coordinate, c: Coordinate)
  {
    (a.x == b.x && a.x == c.x) || (a.y == b.y && a.y == c.y)
  }

  /** Every leg of the path runs along a row or a column. */
  predicate AllAligned(p: seq<Coordinate>)
  {
    forall j :: 0 <= j < |p| - 1 ==> Aligned(p[j], p[j + 1])
  }

  /** The legs that start before index `n` run along a row or a column. */
  predicate AlignedBefore(p: seq<Coordinate>, n: int)
  {
    forall j :: 0 <= j < n && j < |p| - 1 ==> Aligned(p[j], p[j + 1])
  }

  /** No three consecutive waypoints share a row or a column. */
  predicate NoRedundantTriple(p: seq<Coordinate>)
  {
    forall j :: 0 <= j < |p| - 2 ==> !Collinear(p[j], p[j + 1], p[j + 2])
  }

  /** `a` is `b` with some waypoints deleted, the rest in their order. */
  ghost predicate IsSubsequence(a: seq<Coordinate>, b: seq<Coordinate>)
    decreases |b|
  {
    a == [] || (b != [] && ((a[0] == b[0] && IsSubsequence(a[1..], b[1..])) || IsSubsequence(a, b[1..])))
  }

  lemma {:induction false} SubsequenceReflexive(a: seq<Coordinate>)
    ensures IsSubsequence(a, a)
    decreases |a|
  {
    if a != [] { SubsequenceReflexive(a[1..]); }
  }

  lemma {:induction false} SubsequenceTransitive(a: seq<Coordinate>, b: seq<Coordinate>, c: seq<Coordinate>)
    requires IsSubsequence(a, b) && IsSubsequence(b, c)
    ensures IsSubsequence(a, c)
    decreases |c|
  {
    if a != [] {
      if IsSubsequence(b, c[1..]) {
        SubsequenceTransitive(a, b, c[1..]);
      } else if a[0] == b[0] && IsSubsequence(a[1..], b[1..]) {
        SubsequenceTransitive(a[1..], b[1..], c[1..]);
      } else {
        SubsequenceTransitive(a, b[1..], c[1..]);
      }
    }
  }

  lemma {:induction false} DropIsSubsequence(b: seq<Coordinate>, m: nat)
    requires m < |b|
    ensures IsSubsequence(b[..m] + b[m + 1..], b)
    decreases m
  {
    var d := b[..m] + b[m + 1..];
    if m == 0 {
      assert d == b[1..];
      SubsequenceReflexive(b[1..]);
    } else {
      DropIsSubsequence(b[1..], m - 1);
      assert d[0] == b[0];
      assert d[1..] == b[1..][..m - 1] + b[1..][m..];
    }
  }

  /** Dropping the middle of a collinear triple keeps every leg aligned. */
  lemma DropKeepsAligned(p: seq<Coordinate>, i: nat)
    requires i + 2 < |p| && Collinear(p[i], p[i + 1], p[i + 2])
    ensures AllAligned(p) ==> AllAligned(p[..i + 1] + p[i + 2..])
  {
    if !AllAligned(p) { return; }
    var q := p[..i + 1] + p[i + 2..];
    forall j | 0 <= j < |q| - 1
      ensures Aligned(q[j], q[j + 1])
    {
      if j < i { assert q[j] == p[j] && q[j + 1] == p[j + 1]; }
      else if j == i { assert q[j] == p[i] && q[j + 1] == p[i + 2]; }
      else { assert q[j] == p[j + 1] && q[j + 1] == p[j + 2]; }
    }
  }

  /** The triples starting before `i` have been looked at and kept. */
  predicate CheckedBefore(p: seq<Coordinate>, i: int)
  {
    forall j :: 0 <= j < i && j < |p| - 2 ==> !Collinear(p[j], p[j + 1], p[j + 2])
  }

  /**
   * Dropping the waypoint after `i` leaves the triples that end at or before
   * `i` as they were, and keeps both ends of the path.
   */
  lemma DropKeepsChecked(p: seq<Coordinate>, i: nat)
    requires i + 2 < |p| && CheckedBefore(p, i)
    ensures var q := p[..i + 1] + p[i + 2..];
            CheckedBefore(q, if i > 0 then i - 1 else 0) && |q| == |p| - 1
            && q[0] == p[0] && q[|q| - 1] == p[|p| - 1]
  {
    var q := p[..i + 1] + p[i + 2..];
    forall j | 0 <= j < i - 1 && j < |q| - 2
      ensures !Collinear(q[j], q[j + 1], q[j + 2])
    {
      assert q[j] == p[j] && q[j + 1] == p[j + 1] && q[j + 2] == p[j + 2];
    }
  }

  /**
   * removeRedundantPoints, corrected: after dropping a waypoint the scan
   * steps back one place, because the triple ending at the new neighbour
   * has not been looked at yet.
   */
  method RemoveRedundantPoints(path: seq<Coordinate>) returns (r: seq<Coordinate>)
    ensures NoRedundantTriple(r)
    ensures IsSubsequence(r, path)
    ensures |path| > 0 ==> |r| > 0 && r[0] == path[0] && r[|r| - 1] == path[|path| - 1]
    ensures AllAligned(path) ==> AllAligned(r)
    ensures NoRedundantTriple(path) ==> r == path
  {
    r := path;
    ScanStart(path);
    var i := 0;
    while i < |r| - 2
      invariant 0 <= i
      invariant ScanInvariant(path, r, i)
      decreases 2 * |r| - i
    {
      if Collinear(r[i], r[i + 1], r[i + 2]) {
        DropStep(path, r, i);
        r := r[..i + 1] + r[i + 2..];
        if i > 0 {
          i := i - 1;
        }
      } else {
        AdvanceStep(path, r, i);
        i := i + 1;
      }
    }
    ScanDone(path, r, i);
  }

  lemma ScanStart(path: seq<Coordinate>)
    ensures ScanInvariant(path, path, 0)
  {
    SubsequenceReflexive(path);
  }

  lemma AdvanceStep(path: seq<Coordinate>, r: seq<Coordinate>, i: nat)
    requires ScanInvariant(path, r, i) && i + 2 < |r| && !Collinear(r[i], r[i + 1], r[i + 2])
    ensures ScanInvariant(path, r, i + 1)
  {
  }

  lemma ScanDone(path: seq<Coordinate>, r: seq<Coordinate>, i: nat)
    requires ScanInvariant(path, r, i) && i >= |r| - 2
    ensures NoRedundantTriple(r) && IsSubsequence(r, path)
    ensures |path| > 0 ==> |r| > 0 && r[0] == path[0] && r[|r| - 1] == path[|path| - 1]
    ensures AllAligned(path) ==> AllAligned(r)
    ensures NoRedundantTriple(path) ==> r == path
  {
  }

  /** What the corrected pass keeps true: the scanned triples are clean and `r` comes from `path`. */
  ghost predicate ScanInvariant(path: seq<Coordinate>, r: seq<Coordinate>, i: int)
  {
    CheckedBefore(r, i)
    && IsSubsequence(r, path)
    && (|path| > 0 ==> |r| > 0 && r[0] == path[0] && r[|r| - 1] == path[|path| - 1])
    && (AllAligned(path) ==> AllAligned(r))
    && (NoRedundantTriple(path) ==> r == path)
  }

  lemma DropStep(path: seq<Coordinate>, r: seq<Coordinate>, i: nat)
    requires ScanInvariant(path, r, i) && i + 2 < |r| && Collinear(r[i], r[i + 1], r[i + 2])
    ensures ScanInvariant(path, r[..i + 1] + r[i + 2..], if i > 0 then i - 1 else 0)
  {
    DropIsSubsequence(r, i + 1);
    assert r[..i + 1] + r[i + 2..] == r[..i + 1] + r[i + 1 + 1..];
    SubsequenceTransitive(r[..i + 1] + r[i + 2..], r, path);
    DropKeepsAligned(r, i);
    DropKeepsChecked(r, i);
  }

  /** The scan of removeRedundantPoints as written, from index `i` on. */
  function ScanAsWritten(p: seq<Coordinate>, i: nat): (r: seq<Coordinate>)
    ensures |r| <= |p|
    ensures |p| > 0 ==> |r| > 0 && r[0] == p[0] && r[|r| - 1] == p[|p| - 1]
    ensures AllAligned(p) ==> AllAligned(r)
    decreases |p|, |p| - i
  {
    if i + 2 >= |p| then p
    else if Collinear(p[i], p[i + 1], p[i + 2]) then
      DropKeepsAligned(p, i);
      ScanAsWritten(p[..i + 1] + p[i + 2..], i)
    else ScanAsWritten(p, i + 1)
  }

  /**
   * removeRedundantPoints as written: after a removal the loop's `i--` and
   * `i++` cancel, so the scan resumes at the same index and never revisits
   * the triple just before it.
   */
  method RemoveRedundantPointsAsWritten(path: seq<Coordinate>) returns (r: seq<Coordinate>)
    ensures r == ScanAsWritten(path, 0)
  {
    r := path;
    var i: int := 0;
    while i < |r| - 2
      invariant 0 <= i
      invariant ScanAsWritten(r, i) == ScanAsWritten(path, 0)
      decreases |r|, |r| - i
    {
      if Collinear(r[i], r[i + 1], r[i + 2]) {
        r := r[..i + 1] + r[i + 2..];
        i := i - 1;
      }
      i := i + 1;
    }
  }

  /**
   * A path that doubles back, (0,0) (1,0) (1,5) (1,0): the pass as written
   * drops (1,5) and stops, leaving three waypoints on the row y = 0.
   */
  lemma AsWrittenKeepsCollinearTriple()
    ensures var p := [Coordinate(0.0, 0.0), Coordinate(1.0, 0.0), Coordinate(1.0, 5.0), Coordinate(1.0, 0.0)];
            ScanAsWritten(p, 0) == [Coordinate(0.0, 0.0), Coordinate(1.0, 0.0), Coordinate(1.0, 0.0)]
            && !NoRedundantTriple(ScanAsWritten(p, 0))
  {
    var p := [Coordinate(0.0, 0.0), Coordinate(1.0, 0.0), Coordinate(1.0, 5.0), Coordinate(1.0, 0.0)];
    var q := [Coordinate(0.0, 0.0), Coordinate(1.0, 0.0), Coordinate(1.0, 0.0)];
    assert !Collinear(p[0], p[1], p[2]);
    assert Collinear(p[1], p[2], p[3]);
    assert p[..2] + p[3..] == q;
    assert ScanAsWritten(q, 1) == q;
    assert ScanAsWritten(p, 1) == q;
    assert Collinear(q[0], q[1], q[2]);
  }

  /** The last `j` waypoints up to `i` equal the ones `k` places earlier. */
  predicate MatchesBack(p: seq<Coordinate>, i: int, k: int, j: int)
    requires 0 <= j <= k && k + j <= i + 1 && i < |p|
  {
    forall m :: i + 1 - j <= m <= i ==> p[m] == p[m - k]
  }

  /** The block of `k` waypoints ending at `i` repeats the `k` just before it. */
  predicate BlockRepeats(p: seq<Coordinate>, i: int, k: int)
  {
    0 < k && 2 * k <= i + 1 && i < |p| && MatchesBack(p, i, k, k)
  }

  /**
   * The cycle guard of recursivePath: is some block of between 3 and
   * (i+1)/2 waypoints ending at `i` an exact repeat of the block before it?
   */
  method RepeatsBlock(p: seq<Coordinate>, i: nat) returns (repeat: bool)
    requires i < |p|
    ensures repeat <==> exists k :: 3 <= k <= (i + 1) / 2 && BlockRepeats(p, i, k)
  {
    repeat := false;
    var k := 3;
    while k <= (i + 1) / 2 && !repeat
      invariant 3 <= k
      invariant repeat ==> 4 <= k && k - 1 <= (i + 1) / 2 && BlockRepeats(p, i, k - 1)
      invariant !repeat ==> forall m :: 3 <= m < k ==> !BlockRepeats(p, i, m)
    {
      var counter := 0;
      var j := 0;
      while j < k && !repeat
        invariant 0 <= counter <= j <= k
        invariant counter == j <==> MatchesBack(p, i, k, j)
        invariant repeat ==> j == k && counter == k
        invariant !repeat ==> counter < k
      {
        if Equals(p[i - j], Some(p[i - j - k])) {
          counter := counter + 1;
          if counter == k {
            repeat := true;
          }
        }
        j := j + 1;
      }
      assert repeat ==> BlockRepeats(p, i, k);
      assert !repeat ==> !BlockRepeats(p, i, k);
      k := k + 1;
    }
    if repeat {
      assert 3 <= k - 1 <= (i + 1) / 2 && BlockRepeats(p, i, k - 1);
    }
  }

  /** A waypoint the planner may keep: not river and not a tower centre. */
  predicate Passable(g: GameParameters, c: Coordinate)
  {
    MapPoint(g, c) != RIVER && !Equals(c, Some(g.ZC_R)) && !Equals(c, Some(g.ZC_G))
  }

  /** The scan recursivePath makes of the whole list when it starts at index 0. */
  method AllPassable(g: GameParameters, p: seq<Coordinate>) returns (ok: bool)
    ensures ok <==> forall c :: c in p ==> Passable(g, c)
  {
    var n := 0;
    while n < |p|
      invariant 0 <= n <= |p|
      invariant forall m :: 0 <= m < n ==> Passable(g, p[m])
    {
      var c := p[n];
      if MapPoint(g, c) == RIVER || Equals(c, Some(g.ZC_R)) || Equals(c, Some(g.ZC_G)) {
        assert c in p && !Passable(g, c);
        return false;
      }
      n := n + 1;
    }
    return true;
  }

  /** The largest double the shift search starts from, compared on squared distances. */
  const UNREACHED: real := INT_MAX as real * INT_MAX as real

  /** The eight candidate shifts in the order closeShift tries them. */
  function ShiftX(k: nat, tile: real): (dx: real)
    requires k < 8
  {
    [tile, -tile, 0.0, 0.0, tile / 2.0, -tile / 2.0, 0.0, 0.0][k]
  }

  function ShiftY(k: nat, tile: real): (dy: real)
    requires k < 8
  {
    [0.0, 0.0, tile, -tile, 0.0, 0.0, tile / 2.0, -tile / 2.0][k]
  }

  /** Candidates 0, 1, 4 and 5 move along the row, the others along the column. */
  predicate IsHorizontal(k: nat)
  {
    k in {0, 1, 4, 5}
  }

  /** The status bit that records that candidate `k` was taken. */
  function Bit(k: nat): (b: bv32)
    requires k < 8
  {
    if k == 0 then 1 else if k == 1 then 2 else if k == 2 then 4 else if k == 3 then 8
    else if k == 4 then 16 else if k == 5 then 32 else if k == 6 then 64 else 128
  }

  predicate Eligible(status: bv32, k: nat, vertical: bool, horizontal: bool)
    requires k < 8
  {
    (if IsHorizontal(k) then horizontal else vertical) && status & Bit(k) == 0
  }

  function Shifted(ith: Coordinate, k: nat, tile: real): (c: Coordinate)
    requires k < 8
  {
    Coordinate(ith.x + ShiftX(k, tile), ith.y + ShiftY(k, tile))
  }

  /**
   * The distance closeShift compares, before its square root: the
   * Manhattan distance from the shifted point to the goal.
   */
  function Cost(ith: Coordinate, goal: Coordinate, k: nat, tile: real): (cost: real)
    requires k < 8
  {
    AbsReal(ith.x + ShiftX(k, tile) - goal.x) + AbsReal(ith.y + ShiftY(k, tile) - goal.y)
  }

  /**
   * The first candidate is taken without comparison; every later one must
   * beat the current distance, which starts at Integer.MAX_VALUE.
   */
  predicate Selectable(ith: Coordinate, goal: Coordinate, status: bv32, vertical: bool, horizontal: bool,
                       tile: real, k: nat)
    requires k < 8
  {
    Eligible(status, k, vertical, horizontal)
    && (Eligible(status, 0, vertical, horizontal) || Cost(ith, goal, k, tile) < UNREACHED)
  }

  /** `k` is the first selectable candidate of least distance. */
  predicate BestShift(ith: Coordinate, goal: Coordinate, status: bv32, vertical: bool, horizontal: bool,
                      tile: real, k: nat)
    requires k < 8
  {
    Selectable(ith, goal, status, vertical, horizontal, tile, k)
    && forall j :: 0 <= j < 8 && Selectable(ith, goal, status, vertical, horizontal, tile, j) ==>
         Cost(ith, goal, k, tile) <= Cost(ith, goal, j, tile)
         && (j < k ==> Cost(ith, goal, k, tile) < Cost(ith, goal, j, tile))
  }

  /**
   * closeShift: the untried shift of one tile or half a tile, along the
   * allowed axes, that lands closest to `goal`. The shared status cell the
   * source updates is passed in as `status` and handed back as `status'`,
   * with the chosen candidate's bit added; when no candidate is left the
   * answer is the point (-1, -1) and the status is unchanged.
   */
  method CloseShift(ith: Coordinate, goal: Coordinate, status: bv32, vertical: bool, horizontal: bool,
                    tile: real) returns (option: Coordinate, status': bv32)
    ensures (exists k :: 0 <= k < 8 && Selectable(ith, goal, status, vertical, horizontal, tile, k)) ==>
              exists k :: 0 <= k < 8 && BestShift(ith, goal, status, vertical, horizontal, tile, k)
                && option == Shifted(ith, k, tile) && status' == status + Bit(k)
    ensures !(exists k :: 0 <= k < 8 && Selectable(ith, goal, status, vertical, horizontal, tile, k)) ==>
              option == Coordinate(-1.0, -1.0) && status' == status
  {
    var distance := UNREACHED;
    var chosen := -1;
    option := Coordinate(-1.0, -1.0);
    var k := 0;
    while k < 8
      invariant 0 <= k <= 8 && -1 <= chosen < k
      invariant chosen == -1 ==> option == Coordinate(-1.0, -1.0)
      invariant chosen == -1 ==> forall j :: 0 <= j < k ==> !Selectable(ith, goal, status, vertical, horizontal, tile, j)
      invariant chosen == -1 ==> distance == UNREACHED
      invariant chosen == -1 && k > 0 ==> !Eligible(status, 0, vertical, horizontal)
      invariant chosen >= 0 ==> option == Shifted(ith, chosen, tile) && distance == Cost(ith, goal, chosen, tile)
      invariant chosen >= 0 ==> Selectable(ith, goal, status, vertical, horizontal, tile, chosen)
      invariant chosen >= 0 ==> forall j :: 0 <= j < k && Selectable(ith, goal, status, vertical, horizontal, tile, j) ==>
                  distance <= Cost(ith, goal, j, tile) && (j < chosen ==> distance < Cost(ith, goal, j, tile))
    {
      var cost := Cost(ith, goal, k, tile);
      if Eligible(status, k, vertical, horizontal) && (k == 0 || cost < distance) {
        distance := cost;
        option := Shifted(ith, k, tile);
        chosen := k;
      }
      k := k + 1;
    }
    if chosen >= 0 {
      status' := status + Bit(chosen);
      assert BestShift(ith, goal, status, vertical, horizontal, tile, chosen);
    } else {
      status' := status;
    }
  }

  /** A shift stays on the row or the column it was allowed to move along. */
  lemma ShiftStaysOnAxis(ith: Coordinate, goal: Coordinate, status: bv32, vertical: bool, horizontal: bool,
                         tile: real, k: nat)
    requires k < 8 && Selectable(ith, goal, status, vertical, horizontal, tile, k)
    ensures Aligned(ith, Shifted(ith, k, tile))
    ensures !vertical ==> Shifted(ith, k, tile).y == ith.y
    ensures !horizontal ==> Shifted(ith, k, tile).x == ith.x
  {
  }

  lemma AddIsOr(status: bv32, b: bv32)
    requires status & b == 0
    ensures status + b == status | b
  {
  }

  /**
   * Taking a candidate sets its bit and no other, so it is never offered
   * again by the same search.
   */
  lemma TakenShiftIsRetired(status: bv32, vertical: bool, horizontal: bool, k: nat)
    requires k < 8 && Eligible(status, k, vertical, horizontal)
    ensures !Eligible(status + Bit(k), k, vertical, horizontal)
    ensures forall j :: 0 <= j < 8 && j != k ==>
              Eligible(status + Bit(k), j, vertical, horizontal) == Eligible(status, j, vertical, horizontal)
  {
    SetsItsBit(status, k);
    forall j | 0 <= j < 8 && j != k
      ensures Eligible(status + Bit(k), j, vertical, horizontal) == Eligible(status, j, vertical, horizontal)
    {
      KeepsOtherBit(status, k, j);
    }
  }

  /** Adding a clear bit sets it. */
  lemma SetsItsBit(status: bv32, k: nat)
    requires k < 8 && status & Bit(k) == 0
    ensures (status + Bit(k)) & Bit(k) != 0
  {
    BitIsSet(k);
    SetsMask(status, Bit(k));
  }

  /** Adding a clear bit leaves every other bit as it was. */
  lemma KeepsOtherBit(status: bv32, k: nat, j: nat)
    requires k < 8 && j < 8 && j != k && status & Bit(k) == 0
    ensures (status + Bit(k)) & Bit(j) == status & Bit(j)
  {
    DistinctBits(k, j);
    KeepsOutsideMask(status, Bit(k), Bit(j));
  }

  lemma BitIsSet(k: nat)
    requires k < 8
    ensures Bit(k) != 0
  {
  }

  /** Adding a clear mask sets every bit of it. */
  lemma SetsMask(status: bv32, b: bv32)
    ensures status & b == 0 ==> (status + b) & b == b
  {
    if status & b == 0 {
      AddIsOr(status, b);
      OrKeepsBits(status, b, b);
    }
  }

  /** Adding a clear mask leaves every bit outside it as it was. */
  lemma KeepsOutsideMask(status: bv32, b: bv32, c: bv32)
    ensures status & b == 0 && b & c == 0 ==> (status + b) & c == status & c
  {
    if status & b == 0 && b & c == 0 {
      AddIsOr(status, b);
      OrKeepsBits(status, b, c);
      OrZero(status & c);
    }
  }

  /** Masking `status | b` with `c` adds to `status & c` only what `b` and `c` share. */
  lemma OrKeepsBits(status: bv32, b: bv32, c: bv32)
    ensures (status | b) & c == (status & c) | (b & c)
  {
  }

  lemma OrZero(x: bv32)
    ensures x | 0 == x
  {
  }

  /** Two different status bits do not overlap. */
  lemma DistinctBits(j: nat, k: nat)
    requires j < 8 && k < 8 && j != k
    ensures Bit(j) & Bit(k) == 0
  {
  }

  /** Once all eight bits are set the search offers nothing. */
  lemma ExhaustedSearch(ith: Coordinate, goal: Coordinate, status: bv32, vertical: bool, horizontal: bool,
                        tile: real)
    requires status & 255 == 255
    ensures forall k :: 0 <= k < 8 ==> !Selectable(ith, goal, status, vertical, horizontal, tile, k)
  {
  }
}
