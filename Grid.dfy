/**
 * The part of the fluid object that the scene component writes directly:
 * the row-major cell arrays `s` (solid 0 / fluid 1), `u`, `v` (face
 * velocities) and the interleaved particle positions.  The solver that owns
 * these arrays is not part of this model; its `simulate` call is recorded in
 * a step log so that callers can state when a step happens and with which
 * arguments.
 */
module Grid {
  import opened Js

  /** The row-major cell index `i * n + j` used for every per-cell array. */
  function Idx(i: int, j: int, n: int): int
  {
    i * n + j
  }

  function Max(a: int, b: int): int
  {
    if a >= b then a else b
  }

  /** Row-major order: a cell in an earlier row, or earlier in the same row, has a smaller index. */
  lemma IdxOrder(a: int, b: int, c: int, d: int, n: int)
    requires 0 <= b < n && 0 <= d < n
    requires a < c || (a == c && b < d)
    ensures Idx(a, b, n) < Idx(c, d, n)
  {
    if a < c {
      var gap := c - a - 1;
      assert gap * n >= 0;
      calc {
        Idx(a, b, n);
      <  a * n + n;
      == (a + 1) * n;
      <= (a + 1) * n + gap * n;
      == c * n;
      <= Idx(c, d, n);
      }
    }
  }

  lemma IdxOrderAll(n: int)
    ensures forall a, b, c, d :: 0 <= b < n && 0 <= d < n && (a < c || (a == c && b < d)) ==>
                                 Idx(a, b, n) < Idx(c, d, n)
  {
    forall a, b, c, d | 0 <= b < n && 0 <= d < n && (a < c || (a == c && b < d))
      ensures Idx(a, b, n) < Idx(c, d, n)
    {
      IdxOrder(a, b, c, d, n);
    }
  }

  /** Every cell visited before (i, j) in row-major order has a smaller index. */
  lemma IdxBefore(i: int, j: int, n: int)
    requires 0 <= j < n
    ensures forall a, b :: 0 <= b < n && (a < i || (a == i && b < j)) ==> Idx(a, b, n) < Idx(i, j, n)
  {
    forall a, b | 0 <= b < n && (a < i || (a == i && b < j)) ensures Idx(a, b, n) < Idx(i, j, n) {
      IdxOrder(a, b, i, j, n);
    }
  }

  /** No other cell shares the index of cell (c, d). */
  lemma IdxInjectiveAt(c: int, d: int, n: int)
    requires 0 <= d < n
    ensures forall a, b :: 0 <= b < n && (a != c || b != d) ==> Idx(a, b, n) != Idx(c, d, n)
  {
    forall a, b | 0 <= b < n && (a != c || b != d) ensures Idx(a, b, n) != Idx(c, d, n) {
      if a < c || (a == c && b < d) { IdxOrder(a, b, c, d, n); } else { IdxOrder(c, d, a, b, n); }
    }
  }

  /** A cell of a `rows` by `n` grid has an index inside the flat array. */
  lemma IdxInRange(a: int, b: int, rows: int, n: int)
    requires 0 <= a < rows && 0 <= b < n
    ensures 0 <= Idx(a, b, n) < rows * n
  {
    assert a * n >= 0;
    if a < rows - 1 || b < n - 1 {
      IdxOrder(a, b, rows - 1, n - 1, n);
    }
    assert Idx(rows - 1, n - 1, n) == rows * n - 1;
  }

  /** Every cell of a `rows` by `n` grid has an index inside the flat array. */
  ghost predicate LayoutInRange(rows: int, n: int)
  {
    forall a, b :: 0 <= a < rows && 0 <= b < n ==> 0 <= Idx(a, b, n) < rows * n
  }

  lemma LayoutIsInRange(rows: int, n: int)
    ensures LayoutInRange(rows, n)
  {
    forall a, b | 0 <= a < rows && 0 <= b < n ensures 0 <= Idx(a, b, n) < rows * n {
      IdxInRange(a, b, rows, n);
    }
  }

  /** Every index of the flat array belongs to exactly one cell: the layout is a bijection. */
  lemma IdxCovers(k: int, rows: nat, n: nat)
    requires 0 <= k < rows * n
    ensures n > 0 && 0 <= k / n < rows && 0 <= k % n < n && Idx(k / n, k % n, n) == k
    ensures forall a, b :: 0 <= b < n && Idx(a, b, n) == k ==> a == k / n && b == k % n
  {
    assert n > 0;
    var a0, b0 := k / n, k % n;
    assert Idx(a0, b0, n) == k;
    IdxInRange(rows - 1, n - 1, rows, n);
    if a0 >= rows {
      IdxOrder(rows - 1, n - 1, a0, b0, n);
      assert false;
    }
    forall a, b | 0 <= b < n && Idx(a, b, n) == k ensures a == a0 && b == b0 {
      if a < a0 || (a == a0 && b < b0) { IdxOrder(a, b, a0, b0, n); }
      if a0 < a || (a == a0 && b0 < b) { IdxOrder(a0, b0, a, b, n); }
    }
  }

  /** The colour configuration the component pushes into the solver before each step. */
  datatype ColorConfig = ColorConfig(threshold: real,
                                     lowr: Value, lowg: Value, lowb: Value,
                                     highr: Value, highg: Value, highb: Value)

  /** The arguments of one solver step, in the order the component passes them. */
  datatype StepArgs = StepArgs(dt: real, gravity: real, flipRatio: real,
                               numPressureIters: int, numParticleIters: int,
                               overRelaxation: real, compensateDrift: bool,
                               separateParticles: bool,
                               obstacleX: real, obstacleY: real, obstacleRadius: real)

  /**
   * Where the scene setup seeds particle (a, b): `h` is the setup's own cell
   * spacing, `r` the particle radius, `dx` and `dy` the horizontal and
   * vertical spacing; odd `b` are shifted right by `r`.
   */
  function SeedX(a: int, b: int, h: real, r: real, dx: real): real
  {
    h + r + dx * a as real + (if b % 2 == 0 then 0.0 else r)
  }

  function SeedY(b: int, h: real, r: real, dy: real): real
  {
    h + r + dy * b as real
  }

  class FluidGrid {
    const fNumX: nat
    const fNumY: nat
    const h: real
    const maxParticles: nat
    const s: array<real>
    const u: array<real>
    const v: array<real>
    const particlePos: array<real>
    var numParticles: int
    var config: ColorConfig
    var stepLog: seq<StepArgs>

    ghost predicate Valid()
      reads this`numParticles
    {
      && s.Length == fNumX * fNumY
      && u.Length == fNumX * fNumY
      && v.Length == fNumX * fNumY
      && particlePos.Length == 2 * maxParticles
      && s != u && s != v && u != v
      && particlePos != s && particlePos != u && particlePos != v
      && 0 <= numParticles <= maxParticles
      && LayoutInRange(fNumX, fNumY)
    }

    /** The solver's allocation: zero-filled arrays of the sizes its fields promise. */
    constructor (fNumX: nat, fNumY: nat, h: real, maxParticles: nat, config: ColorConfig)
      ensures Valid()
      ensures this.fNumX == fNumX && this.fNumY == fNumY && this.h == h
      ensures this.maxParticles == maxParticles && this.config == config
      ensures numParticles == 0 && stepLog == []
      ensures fresh(s) && fresh(u) && fresh(v) && fresh(particlePos)
      ensures forall k :: 0 <= k < u.Length ==> u[k] == 0.0
      ensures forall k :: 0 <= k < v.Length ==> v[k] == 0.0
      ensures forall k :: 0 <= k < particlePos.Length ==> particlePos[k] == 0.0
    {
      this.fNumX, this.fNumY, this.h := fNumX, fNumY, h;
      this.maxParticles, this.config := maxParticles, config;
      s := new real[fNumX * fNumY](_ => 0.0);
      u := new real[fNumX * fNumY](_ => 0.0);
      v := new real[fNumX * fNumY](_ => 0.0);
      particlePos := new real[2 * maxParticles](_ => 0.0);
      numParticles := 0;
      stepLog := [];
      LayoutIsInRange(fNumX, fNumY);
    }

    /** One solver step; the solver's own effect on the arrays is not modelled. */
    method Simulate(args: StepArgs)
      modifies this`stepLog
      ensures stepLog == old(stepLog) + [args]
    {
      stepLog := stepLog + [args];
    }

    // ---------------- tank walls ----------------

    /** Left, right and bottom border cells are solid; the top row stays open. */
    function TankMarker(a: int, b: int): real
    {
      if a == 0 || a == fNumX - 1 || b == 0 then 0.0 else 1.0
    }

    /** The tank loop of the scene setup: every cell gets its wall marker. */
    method MarkTankWalls()
      requires Valid()
      modifies s
      ensures forall a, b :: 0 <= a < fNumX && 0 <= b < fNumY ==>
                s[Idx(a, b, fNumY)] == TankMarker(a, b)
    {
      var n := fNumY;
      var i := 0;
      while i < fNumX
        invariant 0 <= i <= fNumX
        invariant forall a, b :: 0 <= a < i && 0 <= b < n ==> s[Idx(a, b, n)] == TankMarker(a, b)
      {
        var j := 0;
        while j < n
          invariant 0 <= j <= n
          invariant forall a, b :: 0 <= a < i && 0 <= b < n ==> s[Idx(a, b, n)] == TankMarker(a, b)
          invariant forall b :: 0 <= b < j ==> s[Idx(i, b, n)] == TankMarker(i, b)
        {
          var m := 1.0;
          if i == 0 || i == fNumX - 1 || j == 0 {
            m := 0.0;
          }
          IdxInRange(i, j, fNumX, n);
          IdxBefore(i, j, n);
          s[Idx(i, j, n)] := m;
          j := j + 1;
        }
        i := i + 1;
      }
    }

    /**
     * Read slot by slot, the tank loop has written the whole marker array:
     * slot k holds the marker of cell (k / fNumY, k % fNumY), so no slot is
     * skipped and none lies outside the grid.
     */
    lemma {:induction false} TankFillsArray(m: seq<real>)
      requires Valid() && |m| == fNumX * fNumY
      requires forall a, b :: 0 <= a < fNumX && 0 <= b < fNumY ==> m[Idx(a, b, fNumY)] == TankMarker(a, b)
      ensures forall k :: 0 <= k < |m| ==> m[k] == TankMarker(k / fNumY, k % fNumY)
    {
      forall k | 0 <= k < |m| ensures m[k] == TankMarker(k / fNumY, k % fNumY) {
        IdxCovers(k, fNumX, fNumY);
        var a, b := k / fNumY, k % fNumY;
        assert 0 <= a < fNumX && 0 <= b < fNumY && Idx(a, b, fNumY) == k;
        assert m[Idx(a, b, fNumY)] == TankMarker(a, b);
      }
    }

    // ---------------- particle seeding ----------------

    /** Number of `particlePos` slots the seeding loops write. */
    function SeededSlots(numX: int, numY: int): int
    {
      2 * (Max(0, numX) * Max(0, numY))
    }

    /**
     * The particle loop of the scene setup: a `numX` by `numY` block, particle
     * `k = i * numY + j` at slots `2k` and `2k + 1`, placed with the setup's
     * spacing `h0` (not the grid's own `h`).
     */
    method SeedParticles(numX: int, numY: int, h0: real, r: real, dx: real, dy: real)
      requires Valid()
      requires maxParticles == Max(1, numX * numY)
      modifies this`numParticles, particlePos
      ensures Valid()
      ensures numParticles == Max(0, numX * numY)
      ensures forall a, b :: 0 <= a < numX && 0 <= b < numY ==> 0 <= Idx(a, b, numY) < numParticles
      ensures forall a, b :: 0 <= a < numX && 0 <= b < numY ==>
                && particlePos[2 * Idx(a, b, numY)] == SeedX(a, b, h0, r, dx)
                && particlePos[2 * Idx(a, b, numY) + 1] == SeedY(b, h0, r, dy)
      ensures forall k :: SeededSlots(numX, numY) <= k < particlePos.Length ==>
                particlePos[k] == old(particlePos[k])
    {
      numParticles := Max(0, numX * numY);
      ghost var m := Max(0, numY);
      LayoutIsInRange(numX, numY);
      var p := 0;
      var i := 0;
      while i < numX
        invariant 0 <= i <= Max(0, numX)
        invariant numParticles == Max(0, numX * numY)
        invariant p == 2 * Idx(i, 0, m)
        invariant forall a, b :: 0 <= a < i && 0 <= b < numY ==>
                    && particlePos[2 * Idx(a, b, numY)] == SeedX(a, b, h0, r, dx)
                    && particlePos[2 * Idx(a, b, numY) + 1] == SeedY(b, h0, r, dy)
        invariant forall k :: p <= k < particlePos.Length ==> particlePos[k] == old(particlePos[k])
      {
        ghost var before := particlePos[..];
        ghost var p0 := p;
        if numY > 0 {
          IdxInRange(i, numY - 1, numX, numY);
          IdxBefore(i, 0, numY);
        }
        p := SeedRow(i, numY, h0, r, dx, dy, p);
        forall a, b | 0 <= a < i + 1 && 0 <= b < numY
          ensures && particlePos[2 * Idx(a, b, numY)] == SeedX(a, b, h0, r, dx)
                  && particlePos[2 * Idx(a, b, numY) + 1] == SeedY(b, h0, r, dy)
        {
          if a < i {
            assert particlePos[2 * Idx(a, b, numY)] == before[2 * Idx(a, b, numY)];
            assert particlePos[2 * Idx(a, b, numY) + 1] == before[2 * Idx(a, b, numY) + 1];
          } else {
            assert m == numY && 2 * Idx(a, b, numY) == p0 + 2 * b;
          }
        }
        assert (i + 1) * m == i * m + m;
        i := i + 1;
      }
    }

    /** The seeded slots fit in the particle buffer that the scene setup allocates. */
    lemma {:induction false} SeededSlotsFit(numX: int, numY: int)
      ensures 0 <= SeededSlots(numX, numY) <= 2 * Max(1, numX * numY)
      ensures numX >= 0 || numY >= 0 ==> SeededSlots(numX, numY) == 2 * Max(0, numX * numY)
    {
      if numX > 0 && numY > 0 {
        assert numX * numY >= 1 by {
          assert numX * numY >= 1 * numY;
        }
      } else {
        assert Max(0, numX) * Max(0, numY) == 0;
        assert numX * numY <= 0 || (numX < 0 && numY < 0);
      }
    }

    /** The inner seeding loop: row i of the particle block, two slots per particle, starting at slot p0. */
    method SeedRow(i: int, numY: int, h0: real, r: real, dx: real, dy: real, p0: int) returns (p: int)
      requires 0 <= p0 && p0 + 2 * Max(0, numY) <= particlePos.Length
      modifies particlePos
      ensures p == p0 + 2 * Max(0, numY)
      ensures forall b :: 0 <= b < numY ==>
                particlePos[p0 + 2 * b] == SeedX(i, b, h0, r, dx) && particlePos[p0 + 2 * b + 1] == SeedY(b, h0, r, dy)
      ensures forall k :: 0 <= k < particlePos.Length && !(p0 <= k < p) ==> particlePos[k] == old(particlePos[k])
    {
      p := p0;
      var j := 0;
      while j < numY
        invariant 0 <= j <= Max(0, numY)
        invariant p == p0 + 2 * j
        invariant forall b :: 0 <= b < j ==>
                    particlePos[p0 + 2 * b] == SeedX(i, b, h0, r, dx) && particlePos[p0 + 2 * b + 1] == SeedY(b, h0, r, dy)
        invariant forall k :: 0 <= k < particlePos.Length && !(p0 <= k < p) ==> particlePos[k] == old(particlePos[k])
      {
        SeedPair(p, SeedX(i, j, h0, r, dx), SeedY(j, h0, r, dy));
        p := p + 2;
        j := j + 1;
      }
    }

    /** One particle of the seeding loop: its x and y coordinates go to slots p and p + 1. */
    method SeedPair(p: int, x: real, y: real)
      requires 0 <= p && p + 1 < particlePos.Length
      modifies particlePos
      ensures particlePos[..] == old(particlePos[..])[p := x][p + 1 := y]
    {
      particlePos[p] := x;
      particlePos[p + 1] := y;
    }

    // ---------------- obstacle stamping ----------------

    /** The cells the obstacle loop visits: it skips the border and the last interior column and row. */
    predicate InStampRange(a: int, b: int)
    {
      1 <= a < fNumX - 2 && 1 <= b < fNumY - 2
    }

    /** The cell centre lies strictly inside the obstacle circle. */
    predicate InsideObstacle(a: int, b: int, x: real, y: real, r: real)
    {
      var dx := (a as real + 0.5) * h - x;
      var dy := (b as real + 0.5) * h - y;
      dx * dx + dy * dy < r * r
    }

    predicate Covered(a: int, b: int, x: real, y: real, r: real)
    {
      InStampRange(a, b) && InsideObstacle(a, b, x, y, r)
    }

    /** Face (a, b) of `u` lies between cells (a - 1, b) and (a, b); it takes the obstacle velocity when either is covered. */
    predicate UFaceCovered(a: int, b: int, x: real, y: real, r: real)
    {
      Covered(a, b, x, y, r) || Covered(a - 1, b, x, y, r)
    }

    /** Face (a, b) of `v` lies between cells (a, b - 1) and (a, b). */
    predicate VFaceCovered(a: int, b: int, x: real, y: real, r: real)
    {
      Covered(a, b, x, y, r) || Covered(a, b - 1, x, y, r)
    }

    /** Cells of the stamp range that the loops have visited before cell (i, j). */
    ghost predicate Visited(a: int, b: int, i: int, j: int)
    {
      InStampRange(a, b) && (a < i || (a == i && b < j))
    }

    /** Marker of cell (a, b) once the loops have reached (i, j), starting from `s0`. */
    ghost function MarkAt(a: int, b: int, i: int, j: int, x: real, y: real, r: real, s0: real): real
    {
      if Visited(a, b, i, j) then (if InsideObstacle(a, b, x, y, r) then 0.0 else 1.0) else s0
    }

    /** Face (a, b) has received the obstacle velocity from cell (a, b) or from its neighbour (a - da, b - db). */
    ghost predicate FaceHit(a: int, b: int, da: int, db: int, i: int, j: int, x: real, y: real, r: real)
    {
      || (Visited(a, b, i, j) && InsideObstacle(a, b, x, y, r))
      || (Visited(a - da, b - db, i, j) && InsideObstacle(a - da, b - db, x, y, r))
    }

    /** The three arrays `s1`, `u1`, `v1` once the obstacle loops have reached cell (i, j), starting from `s0`, `u0`, `v0`. */
    ghost predicate StampedUpTo(i: int, j: int, x: real, y: real, r: real, vx: real, vy: real,
                                s0: seq<real>, u0: seq<real>, v0: seq<real>,
                                s1: seq<real>, u1: seq<real>, v1: seq<real>)
      requires LayoutInRange(fNumX, fNumY)
      requires |s0| == |u0| == |v0| == |s1| == |u1| == |v1| == fNumX * fNumY
    {
      && (forall a, b :: 0 <= a < fNumX && 0 <= b < fNumY ==>
            s1[Idx(a, b, fNumY)] == MarkAt(a, b, i, j, x, y, r, s0[Idx(a, b, fNumY)]))
      && (forall a, b :: 0 <= a < fNumX && 0 <= b < fNumY ==>
            u1[Idx(a, b, fNumY)] == if FaceHit(a, b, 1, 0, i, j, x, y, r) then vx else u0[Idx(a, b, fNumY)])
      && (forall a, b :: 0 <= a < fNumX && 0 <= b < fNumY ==>
            v1[Idx(a, b, fNumY)] == if FaceHit(a, b, 0, 1, i, j, x, y, r) then vy else v0[Idx(a, b, fNumY)])
    }

    /**
     * The arrays `s1`, `u1`, `v1` after the obstacle loops, starting from
     * `s0`, `u0`, `v0`: every cell of the stamp range is re-marked (solid
     * exactly when its centre is inside the circle), a face gets the obstacle
     * velocity exactly when one of the two cells sharing it is covered, and
     * everything else keeps its previous value.
     */
    ghost predicate ObstacleStamped(x: real, y: real, r: real, vx: real, vy: real,
                                    s0: seq<real>, u0: seq<real>, v0: seq<real>,
                                    s1: seq<real>, u1: seq<real>, v1: seq<real>)
      requires LayoutInRange(fNumX, fNumY)
      requires |s0| == |u0| == |v0| == |s1| == |u1| == |v1| == fNumX * fNumY
    {
      && (forall a, b :: 0 <= a < fNumX && 0 <= b < fNumY ==>
            s1[Idx(a, b, fNumY)] ==
              if InStampRange(a, b) then (if InsideObstacle(a, b, x, y, r) then 0.0 else 1.0)
              else s0[Idx(a, b, fNumY)])
      && (forall a, b :: 0 <= a < fNumX && 0 <= b < fNumY ==>
            u1[Idx(a, b, fNumY)] ==
              if UFaceCovered(a, b, x, y, r) then vx else u0[Idx(a, b, fNumY)])
      && (forall a, b :: 0 <= a < fNumX && 0 <= b < fNumY ==>
            v1[Idx(a, b, fNumY)] ==
              if VFaceCovered(a, b, x, y, r) then vy else v0[Idx(a, b, fNumY)])
    }

    /** The obstacle loop of the source: stamps the circle of radius r at (x, y) with velocity (vx, vy). */
    method StampObstacle(x: real, y: real, r: real, vx: real, vy: real)
      requires Valid()
      modifies s, u, v
      ensures ObstacleStamped(x, y, r, vx, vy, old(s[..]), old(u[..]), old(v[..]), s[..], u[..], v[..])
    {
      ghost var s0, u0, v0 := s[..], u[..], v[..];
      var i := 1;
      while i < fNumX - 2
        invariant 1 <= i && (i <= fNumX - 2 || i == 1)
        invariant StampedUpTo(i, 1, x, y, r, vx, vy, s0, u0, v0, s[..], u[..], v[..])
      {
        StampRow(i, x, y, r, vx, vy, s0, u0, v0);
        i := i + 1;
      }
      StampFinished(i, x, y, r, vx, vy, s0, u0, v0, s[..], u[..], v[..]);
    }

    /** Once the outer loop has passed the last row of the stamp range, the arrays are as stamped. */
    lemma StampFinished(i: int, x: real, y: real, r: real, vx: real, vy: real,
                        s0: seq<real>, u0: seq<real>, v0: seq<real>,
                        s1: seq<real>, u1: seq<real>, v1: seq<real>)
      requires LayoutInRange(fNumX, fNumY) && 1 <= i && i >= fNumX - 2
      requires |s0| == |u0| == |v0| == |s1| == |u1| == |v1| == fNumX * fNumY
      requires StampedUpTo(i, 1, x, y, r, vx, vy, s0, u0, v0, s1, u1, v1)
      ensures ObstacleStamped(x, y, r, vx, vy, s0, u0, v0, s1, u1, v1)
    {
      forall a, b | 0 <= a < fNumX && 0 <= b < fNumY
        ensures s1[Idx(a, b, fNumY)] ==
                  if InStampRange(a, b) then (if InsideObstacle(a, b, x, y, r) then 0.0 else 1.0)
                  else s0[Idx(a, b, fNumY)]
        ensures u1[Idx(a, b, fNumY)] ==
                  if UFaceCovered(a, b, x, y, r) then vx else u0[Idx(a, b, fNumY)]
        ensures v1[Idx(a, b, fNumY)] ==
                  if VFaceCovered(a, b, x, y, r) then vy else v0[Idx(a, b, fNumY)]
      {
        assert FaceHit(a, b, 1, 0, i, 1, x, y, r) <==> UFaceCovered(a, b, x, y, r);
        assert FaceHit(a, b, 0, 1, i, 1, x, y, r) <==> VFaceCovered(a, b, x, y, r);
      }
    }

    /**
     * Where the obstacle stamp can write: markers only inside the stamp range,
     * horizontal faces never in column 0, the last column or the top two rows,
     * vertical faces never in row 0, the top row or the last two columns.
     */
    lemma StampFootprint(x: real, y: real, r: real, vx: real, vy: real,
                         s0: seq<real>, u0: seq<real>, v0: seq<real>,
                         s1: seq<real>, u1: seq<real>, v1: seq<real>)
      requires LayoutInRange(fNumX, fNumY)
      requires |s0| == |u0| == |v0| == |s1| == |u1| == |v1| == fNumX * fNumY
      requires ObstacleStamped(x, y, r, vx, vy, s0, u0, v0, s1, u1, v1)
      ensures forall a, b :: 0 <= a < fNumX && 0 <= b < fNumY && !InStampRange(a, b) ==>
                s1[Idx(a, b, fNumY)] == s0[Idx(a, b, fNumY)]
      ensures forall a, b :: FaceOutsideU(a, b) ==> u1[Idx(a, b, fNumY)] == u0[Idx(a, b, fNumY)]
      ensures forall a, b :: FaceOutsideV(a, b) ==> v1[Idx(a, b, fNumY)] == v0[Idx(a, b, fNumY)]
    {
      forall a, b | FaceOutsideU(a, b) ensures u1[Idx(a, b, fNumY)] == u0[Idx(a, b, fNumY)] {
        assert !Covered(a, b, x, y, r) && !Covered(a - 1, b, x, y, r);
      }
      forall a, b | FaceOutsideV(a, b) ensures v1[Idx(a, b, fNumY)] == v0[Idx(a, b, fNumY)] {
        assert !Covered(a, b, x, y, r) && !Covered(a, b - 1, x, y, r);
      }
    }

    /**
     * Stamping an obstacle at rest into a freshly marked tank: inside the
     * stamp range the cells are solid exactly under the circle, outside it
     * they keep their wall markers, and every face velocity stays zero.
     */
    lemma {:induction false} StampedTank(x: real, y: real, r: real,
                                         s0: seq<real>, u0: seq<real>, v0: seq<real>,
                                         s1: seq<real>, u1: seq<real>, v1: seq<real>)
      requires LayoutInRange(fNumX, fNumY)
      requires |s0| == |u0| == |v0| == |s1| == |u1| == |v1| == fNumX * fNumY
      requires forall a, b :: 0 <= a < fNumX && 0 <= b < fNumY ==> s0[Idx(a, b, fNumY)] == TankMarker(a, b)
      requires forall k :: 0 <= k < |u0| ==> u0[k] == 0.0
      requires forall k :: 0 <= k < |v0| ==> v0[k] == 0.0
      requires ObstacleStamped(x, y, r, 0.0, 0.0, s0, u0, v0, s1, u1, v1)
      ensures forall a, b :: 0 <= a < fNumX && 0 <= b < fNumY ==>
                s1[Idx(a, b, fNumY)] ==
                  if InStampRange(a, b) then (if InsideObstacle(a, b, x, y, r) then 0.0 else 1.0)
                  else TankMarker(a, b)
      ensures forall a, b :: 0 <= a < fNumX && 0 <= b < fNumY ==>
                u1[Idx(a, b, fNumY)] == 0.0 && v1[Idx(a, b, fNumY)] == 0.0
    {
      forall a, b | 0 <= a < fNumX && 0 <= b < fNumY
        ensures u1[Idx(a, b, fNumY)] == 0.0 && v1[Idx(a, b, fNumY)] == 0.0
      {
        assert 0 <= Idx(a, b, fNumY) < |u0|;
      }
    }

    /** Horizontal faces in column 0, the last column, row 0 or the top two rows. */
    predicate FaceOutsideU(a: int, b: int)
    {
      0 <= a < fNumX && 0 <= b < fNumY && (a == 0 || a == fNumX - 1 || b == 0 || b >= fNumY - 2)
    }

    /** Vertical faces in row 0, the top row, column 0 or the last two columns. */
    predicate FaceOutsideV(a: int, b: int)
    {
      0 <= a < fNumX && 0 <= b < fNumY && (a == 0 || a >= fNumX - 2 || b == 0 || b == fNumY - 1)
    }

    /** The inner obstacle loop over row i of the stamp range. */
    method StampRow(i: int, x: real, y: real, r: real, vx: real, vy: real,
                    ghost s0: seq<real>, ghost u0: seq<real>, ghost v0: seq<real>)
      requires Valid() && 1 <= i < fNumX - 2
      requires |s0| == |u0| == |v0| == fNumX * fNumY
      requires StampedUpTo(i, 1, x, y, r, vx, vy, s0, u0, v0, s[..], u[..], v[..])
      modifies s, u, v
      ensures StampedUpTo(i + 1, 1, x, y, r, vx, vy, s0, u0, v0, s[..], u[..], v[..])
    {
      var n: int := fNumY;
      var j := 1;
      while j < n - 2
        invariant 1 <= j && (j <= n - 2 || j == 1)
        invariant StampedUpTo(i, j, x, y, r, vx, vy, s0, u0, v0, s[..], u[..], v[..])
      {
        ghost var s1, u1, v1 := s[..], u[..], v[..];
        StampCell(i, j, x, y, r, vx, vy);
        StampStep(i, j, x, y, r, vx, vy, s0, u0, v0, s1, u1, v1, s[..], u[..], v[..]);
        j := j + 1;
      }
      RowDone(i, j, x, y, r, vx, vy, s0, u0, v0, s[..], u[..], v[..]);
    }

    /** One iteration of the inner obstacle loop keeps the loop's description of the arrays. */
    lemma StampStep(i: int, j: int, x: real, y: real, r: real, vx: real, vy: real,
                    s0: seq<real>, u0: seq<real>, v0: seq<real>,
                    s1: seq<real>, u1: seq<real>, v1: seq<real>,
                    s2: seq<real>, u2: seq<real>, v2: seq<real>)
      requires LayoutInRange(fNumX, fNumY) && InStampRange(i, j)
      requires |s0| == |u0| == |v0| == |s1| == |u1| == |v1| == fNumX * fNumY
      requires StampedUpTo(i, j, x, y, r, vx, vy, s0, u0, v0, s1, u1, v1)
      requires 0 <= Idx(i, j, fNumY) && Idx(i, j + 1, fNumY) < fNumX * fNumY && Idx(i + 1, j, fNumY) < fNumX * fNumY
      requires s2 == s1[Idx(i, j, fNumY) := if InsideObstacle(i, j, x, y, r) then 0.0 else 1.0]
      requires u2 == if InsideObstacle(i, j, x, y, r)
                     then u1[Idx(i, j, fNumY) := vx][Idx(i + 1, j, fNumY) := vx]
                     else u1
      requires v2 == if InsideObstacle(i, j, x, y, r)
                     then v1[Idx(i, j, fNumY) := vy][Idx(i, j + 1, fNumY) := vy]
                     else v1
      ensures StampedUpTo(i, j + 1, x, y, r, vx, vy, s0, u0, v0, s2, u2, v2)
    {
      StepMarks(i, j, x, y, r, s0, s1, s2);
      StepFaces(i, j, 1, 0, x, y, r, vx, u0, u1, u2);
      StepFaces(i, j, 0, 1, x, y, r, vy, v0, v1, v2);
    }

    /** The marker part of one inner iteration. */
    lemma StepMarks(i: int, j: int, x: real, y: real, r: real, s0: seq<real>, s1: seq<real>, s2: seq<real>)
      requires LayoutInRange(fNumX, fNumY) && InStampRange(i, j)
      requires |s0| == |s1| == fNumX * fNumY && 0 <= Idx(i, j, fNumY) < fNumX * fNumY
      requires forall a, b :: 0 <= a < fNumX && 0 <= b < fNumY ==>
                 s1[Idx(a, b, fNumY)] == MarkAt(a, b, i, j, x, y, r, s0[Idx(a, b, fNumY)])
      requires s2 == s1[Idx(i, j, fNumY) := if InsideObstacle(i, j, x, y, r) then 0.0 else 1.0]
      ensures forall a, b :: 0 <= a < fNumX && 0 <= b < fNumY ==>
                s2[Idx(a, b, fNumY)] == MarkAt(a, b, i, j + 1, x, y, r, s0[Idx(a, b, fNumY)])
    {
      IdxInjectiveAt(i, j, fNumY);
    }

    /**
     * The face part of one inner iteration, for the faces that cell (i, j)
     * shares with its neighbour (i + da, j + db).
     */
    lemma StepFaces(i: int, j: int, da: int, db: int, x: real, y: real, r: real, vel: real,
                    w0: seq<real>, w1: seq<real>, w2: seq<real>)
      requires LayoutInRange(fNumX, fNumY) && InStampRange(i, j) && da + db == 1 && 0 <= da && 0 <= db
      requires |w0| == |w1| == fNumX * fNumY
      requires 0 <= Idx(i, j, fNumY) && Idx(i + da, j + db, fNumY) < fNumX * fNumY
      requires forall a, b :: 0 <= a < fNumX && 0 <= b < fNumY ==>
                 w1[Idx(a, b, fNumY)] == if FaceHit(a, b, da, db, i, j, x, y, r) then vel else w0[Idx(a, b, fNumY)]
      requires w2 == if InsideObstacle(i, j, x, y, r)
                     then w1[Idx(i, j, fNumY) := vel][Idx(i + da, j + db, fNumY) := vel]
                     else w1
      ensures forall a, b :: 0 <= a < fNumX && 0 <= b < fNumY ==>
                w2[Idx(a, b, fNumY)] == if FaceHit(a, b, da, db, i, j + 1, x, y, r) then vel else w0[Idx(a, b, fNumY)]
    {
      IdxInjectiveAt(i, j, fNumY);
      IdxInjectiveAt(i + da, j + db, fNumY);
    }

    /** Past the last column of the stamp range, row i is done and the next row starts. */
    lemma RowDone(i: int, j: int, x: real, y: real, r: real, vx: real, vy: real,
                  s0: seq<real>, u0: seq<real>, v0: seq<real>,
                  s1: seq<real>, u1: seq<real>, v1: seq<real>)
      requires LayoutInRange(fNumX, fNumY) && 1 <= j && j >= fNumY - 2
      requires |s0| == |u0| == |v0| == |s1| == |u1| == |v1| == fNumX * fNumY
      requires StampedUpTo(i, j, x, y, r, vx, vy, s0, u0, v0, s1, u1, v1)
      ensures StampedUpTo(i + 1, 1, x, y, r, vx, vy, s0, u0, v0, s1, u1, v1)
    {
      forall a, b | 0 <= a < fNumX && 0 <= b < fNumY
        ensures FaceHit(a, b, 1, 0, i, j, x, y, r) == FaceHit(a, b, 1, 0, i + 1, 1, x, y, r)
        ensures FaceHit(a, b, 0, 1, i, j, x, y, r) == FaceHit(a, b, 0, 1, i + 1, 1, x, y, r)
        ensures MarkAt(a, b, i, j, x, y, r, s0[Idx(a, b, fNumY)]) == MarkAt(a, b, i + 1, 1, x, y, r, s0[Idx(a, b, fNumY)])
      {
      }
    }

    /** One iteration of the obstacle loop, for cell (i, j) of the stamp range. */
    method StampCell(i: int, j: int, x: real, y: real, r: real, vx: real, vy: real)
      requires Valid() && InStampRange(i, j)
      modifies s, u, v
      ensures 0 <= Idx(i, j, fNumY) && Idx(i, j + 1, fNumY) < fNumX * fNumY && Idx(i + 1, j, fNumY) < fNumX * fNumY
      ensures s[..] == old(s[..])[Idx(i, j, fNumY) := if InsideObstacle(i, j, x, y, r) then 0.0 else 1.0]
      ensures u[..] == if InsideObstacle(i, j, x, y, r)
                       then old(u[..])[Idx(i, j, fNumY) := vx][Idx(i + 1, j, fNumY) := vx]
                       else old(u[..])
      ensures v[..] == if InsideObstacle(i, j, x, y, r)
                       then old(v[..])[Idx(i, j, fNumY) := vy][Idx(i, j + 1, fNumY) := vy]
                       else old(v[..])
    {
      var n: int := fNumY;
      IdxInRange(i, j, fNumX, n);
      IdxInRange(i + 1, j, fNumX, n);
      IdxInRange(i, j + 1, fNumX, n);
      s[Idx(i, j, n)] := 1.0;
      var dx := (i as real + 0.5) * h - x;
      var dy := (j as real + 0.5) * h - y;
      if dx * dx + dy * dy < r * r {
        s[Idx(i, j, n)] := 0.0;
        u[Idx(i, j, n)] := vx;
        u[Idx(i + 1, j, n)] := vx;
        v[Idx(i, j, n)] := vy;
        v[Idx(i, j + 1, n)] := vy;
      }
    }
  }
}
