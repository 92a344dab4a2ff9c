/**
  The particle canvas behind the page: how many particles a canvas of a given
  size gets, how each particle is sampled, the wrap-around lines of the
  per-frame update, and the pair enumeration that decides which particles are
  joined by a line. Positions and speeds are reals; the eight `Math.random()`
  values a particle is built from are an input.
 */
module ParticleField {

  /** At most this many particles, whatever the canvas size. */
  const Cap: nat := 100
  /** One particle per this many square pixels of canvas. */
  const AreaPerParticle: nat := 15000
  /** Particles closer than this are joined by a line. */
  const MaxDistance: real := 100.0

  /** `Math.min(Math.floor(width * height / 15000), 100)`: the largest count
      that gives every particle 15000 square pixels, capped at 100. */
  function ParticleCount(width: nat, height: nat): (count: nat)
    ensures count <= Cap
    ensures count * AreaPerParticle <= width * height
    ensures count == Cap || width * height < (count + 1) * AreaPerParticle
  {
    var byArea := (width * height) / AreaPerParticle;
    if byArea < Cap then byArea else Cap
  }

  /** The eight `Math.random()` results one particle's constructor draws, in
      the order it draws them. */
  datatype Draw = Draw(x: real, y: real, size: real, speedX: real, speedY: real,
                       red: real, green: real, alpha: real)
  {
    /** `Math.random()` returns a value in [0, 1). */
    predicate Valid() {
      IsUnit(x) && IsUnit(y) && IsUnit(size) && IsUnit(speedX) && IsUnit(speedY) &&
      IsUnit(red) && IsUnit(green) && IsUnit(alpha)
    }
  }

  predicate IsUnit(r: real) {
    0.0 <= r < 1.0
  }

  /** The wrap lines of `update`, on one coordinate already advanced by its
      speed: leaving past the far edge re-enters at 0, leaving past 0
      re-enters at the far edge, and the two tests run in that order. */
  function WrapCoordinate(v: real, bound: real): (r: real)
    requires bound >= 0.0
    ensures 0.0 <= r <= bound
    ensures 0.0 <= v <= bound ==> r == v
  {
    var afterFar := if v > bound then 0.0 else v;
    if afterFar < 0.0 then bound else afterFar
  }

  /** A particle that leaves on the right re-enters at the left edge, not at
      its mirror image inside the canvas; one that leaves on the left
      re-enters at the right edge. */
  lemma WrapReentersOppositeEdge(v: real, bound: real)
    requires bound >= 0.0
    ensures v > bound ==> WrapCoordinate(v, bound) == 0.0
    ensures v < 0.0 ==> WrapCoordinate(v, bound) == bound
  {
  }

  class Particle {
    var x: real
    var y: real
    const size: real
    const speedX: real
    const speedY: real
    /** The colour `rgba(red, green, 255, alpha)`. */
    const red: int
    const green: int
    const alpha: real

    predicate InCanvas(width: nat, height: nat)
      reads this
    {
      0.0 <= x <= width as real && 0.0 <= y <= height as real
    }

    /** The particle is the one the constructor builds from `d` on a canvas
        of the given size: each attribute is its formula applied to its draw,
        evaluated over exact reals. */
    predicate MadeFrom(d: Draw, width: nat, height: nat)
      reads this
    {
      x == d.x * width as real && y == d.y * height as real &&
      size == d.size * 2.0 + 0.5 &&
      speedX == d.speedX * 0.5 - 0.25 && speedY == d.speedY * 0.5 - 0.25 &&
      red == (d.red * 100.0 + 155.0).Floor && green == (d.green * 100.0 + 155.0).Floor &&
      alpha == d.alpha * 0.5 + 0.1
    }

    /** The particle's constructor on a canvas of the given size. Over exact
        reals the position is on the canvas, the size in [0.5, 2.5), the
        speeds in [-0.25, 0.25), red and green in 155..254 and the opacity in
        [0.1, 0.6). */
    constructor (d: Draw, width: nat, height: nat)
      requires d.Valid()
      ensures MadeFrom(d, width, height)
      ensures InCanvas(width, height)
      ensures 0.5 <= size < 2.5
      ensures -0.25 <= speedX < 0.25 && -0.25 <= speedY < 0.25
      ensures 155 <= red <= 254 && 155 <= green <= 254
      ensures 0.1 <= alpha < 0.6
    {
      assert IsUnit(d.x) && IsUnit(d.y);
      UnitScales(d.x, width as real);
      UnitScales(d.y, height as real);
      assert 0.0 <= d.x * width as real <= width as real;
      assert 0.0 <= d.y * height as real <= height as real;
      x := d.x * width as real;
      y := d.y * height as real;
      size := d.size * 2.0 + 0.5;
      speedX := d.speedX * 0.5 - 0.25;
      speedY := d.speedY * 0.5 - 0.25;
      red := (d.red * 100.0 + 155.0).Floor;
      green := (d.green * 100.0 + 155.0).Floor;
      alpha := d.alpha * 0.5 + 0.1;
    }

    /** The position step and the four wrap tests at the start of `update`.
        Afterwards the particle is on the canvas, from any real position it
        had before. */
    method AdvanceAndWrap(width: nat, height: nat)
      modifies this
      ensures x == WrapCoordinate(old(x) + speedX, width as real)
      ensures y == WrapCoordinate(old(y) + speedY, height as real)
      ensures InCanvas(width, height)
    {
      x := x + speedX;
      y := y + speedY;
      if x > width as real {
        x := 0.0;
      }
      if x < 0.0 {
        x := width as real;
      }
      if y > height as real {
        y := 0.0;
      }
      if y < 0.0 {
        y := height as real;
      }
    }
  }

  lemma UnitScales(r: real, bound: real)
    requires IsUnit(r) && bound >= 0.0
    ensures 0.0 <= r * bound <= bound
  {
    assert bound - r * bound == (1.0 - r) * bound;
  }

  datatype Point = Point(x: real, y: real)

  /** `sqrt(dx * dx + dy * dy) < 100`, stated on the squares. */
  predicate Close(p: Point, q: Point) {
    (p.x - q.x) * (p.x - q.x) + (p.y - q.y) * (p.y - q.y) < MaxDistance * MaxDistance
  }

  type Pair = (int, int)

  /** The pairs the inner loop of `connectParticles` visits for outer index
      `a`, from inner index `b` on. */
  function Row(a: nat, b: nat, n: nat): seq<Pair>
    decreases n - b
  {
    if b >= n then [] else [(a, b)] + Row(a, b + 1, n)
  }

  /** The pairs the nested loops visit from outer index `a` on. */
  function PairsFrom(a: nat, n: nat): seq<Pair>
    decreases n - a
  {
    if a >= n then [] else Row(a, a, n) + PairsFrom(a + 1, n)
  }

  /** The pairs `connectParticles` visits for `n` particles, in order. */
  function Pairs(n: nat): seq<Pair> {
    PairsFrom(0, n)
  }

  lemma {:induction false} RowMembership(a: nat, b: nat, n: nat, i: int, j: int)
    ensures (i, j) in Row(a, b, n) <==> i == a && b <= j < n
    decreases n - b
  {
    if b < n {
      RowMembership(a, b + 1, n, i, j);
    }
  }

  /** `x` is in a concatenation exactly when it is in one of the parts. */
  lemma InConcat(x: Pair, s: seq<Pair>, t: seq<Pair>)
    ensures x in s + t <==> x in s || x in t
  {
  }

  lemma {:induction false} PairsFromMembership(a: nat, n: nat, i: int, j: int)
    ensures (i, j) in PairsFrom(a, n) <==> a <= i <= j < n
    decreases n - a
  {
    if a < n {
      var row, rest := Row(a, a, n), PairsFrom(a + 1, n);
      assert PairsFrom(a, n) == row + rest;
      InConcat((i, j), row, rest);
      RowMembership(a, a, n, i, j);
      PairsFromMembership(a + 1, n, i, j);
    } else {
      assert PairsFrom(a, n) == [];
    }
  }

  /** The loops visit `(i, j)` exactly when `0 <= i <= j < n`; self-pairs
      included. */
  lemma PairsMembership(n: nat, i: nat, j: nat)
    ensures (i, j) in Pairs(n) <==> i <= j < n
  {
    PairsFromMembership(0, n, i, j);
  }

  /** `p` comes strictly before `q` in the order the loops run. */
  predicate Before(p: Pair, q: Pair) {
    p.0 < q.0 || (p.0 == q.0 && p.1 < q.1)
  }

  predicate StrictlyOrdered(s: seq<Pair>) {
    forall i, j :: 0 <= i < j < |s| ==> Before(s[i], s[j])
  }

  lemma {:induction false} RowOrdered(a: nat, b: nat, n: nat)
    ensures StrictlyOrdered(Row(a, b, n))
    ensures forall i :: 0 <= i < |Row(a, b, n)| ==> Row(a, b, n)[i].0 == a && b <= Row(a, b, n)[i].1
    decreases n - b
  {
    if b < n {
      RowOrdered(a, b + 1, n);
    }
  }

  lemma {:induction false} PairsFromOrdered(a: nat, n: nat)
    ensures StrictlyOrdered(PairsFrom(a, n))
    ensures forall i :: 0 <= i < |PairsFrom(a, n)| ==> a <= PairsFrom(a, n)[i].0
    decreases n - a
  {
    if a < n {
      RowOrdered(a, a, n);
      PairsFromOrdered(a + 1, n);
      var row, rest := Row(a, a, n), PairsFrom(a + 1, n);
      var s := row + rest;
      forall i, j | 0 <= i < j < |s| ensures Before(s[i], s[j]) {
        if j < |row| {
        } else if i < |row| {
          assert s[i] == row[i] && s[j] == rest[j - |row|];
        } else {
          assert s[i] == rest[i - |row|] && s[j] == rest[j - |row|];
        }
      }
    }
  }

  /** No pair is visited twice. */
  lemma PairsVisitedOnce(n: nat)
    ensures forall i, j :: 0 <= i < j < |Pairs(n)| ==> Pairs(n)[i] != Pairs(n)[j]
  {
    PairsFromOrdered(0, n);
  }

  lemma {:induction false} RowLength(a: nat, b: nat, n: nat)
    ensures |Row(a, b, n)| == if b <= n then n - b else 0
    decreases n - b
  {
    if b < n {
      RowLength(a, b + 1, n);
    }
  }

  lemma {:induction false} PairsFromLength(a: nat, n: nat)
    requires a <= n
    ensures |PairsFrom(a, n)| * 2 == (n - a) * (n - a + 1)
    decreases n - a
  {
    if a < n {
      RowLength(a, a, n);
      PairsFromLength(a + 1, n);
      assert (n - a) * (n - a + 1) == (n - a - 1) * (n - a) + 2 * (n - a);
    }
  }

  /** The loops run their body `n * (n + 1) / 2` times. */
  lemma PairsCount(n: nat)
    ensures |Pairs(n)| == n * (n + 1) / 2
  {
    PairsFromLength(0, n);
  }

  /** A visited pair gets a line when both indices are in range and the two
      particles are close. */
  predicate Linked(pts: seq<Point>, p: Pair) {
    0 <= p.0 < |pts| && 0 <= p.1 < |pts| && Close(pts[p.0], pts[p.1])
  }

  /** The pairs among `ps` that get a line, in the order they are drawn. */
  function Connections(pts: seq<Point>, ps: seq<Pair>): seq<Pair>
    decreases |ps|
  {
    if ps == [] then []
    else
      var last := ps[|ps| - 1];
      Connections(pts, ps[..|ps| - 1]) + (if Linked(pts, last) then [last] else [])
  }

  lemma {:induction false} ConnectionsMembership(pts: seq<Point>, ps: seq<Pair>, p: Pair)
    ensures p in Connections(pts, ps) <==> p in ps && Linked(pts, p)
    decreases |ps|
  {
    if ps != [] {
      ConnectionsMembership(pts, ps[..|ps| - 1], p);
      assert ps == ps[..|ps| - 1] + [ps[|ps| - 1]];
    }
  }

  /** The outer loop's step: the pairs from `a` on are row `a` followed by
      the pairs from `a + 1` on. */
  lemma OuterStep(visited: seq<Pair>, a: nat, n: nat)
    requires a < n
    ensures visited + PairsFrom(a, n) == visited + Row(a, a, n) + PairsFrom(a + 1, n)
  {
  }

  /** The inner loop's step: visiting `(a, b)` moves it from the row to the
      visited pairs. */
  lemma InnerStep(visited: seq<Pair>, a: nat, b: nat, n: nat, rest: seq<Pair>)
    requires b < n
    ensures visited + Row(a, b, n) + rest == (visited + [(a, b)]) + Row(a, b + 1, n) + rest
  {
  }

  /** The inner loop's exit: row `a` is exhausted. */
  lemma RowEnd(visited: seq<Pair>, a: nat, n: nat, rest: seq<Pair>)
    ensures visited + Row(a, n, n) + rest == visited + rest
  {
    assert Row(a, n, n) == [];
  }

  /** The distance test of the inner loop, on the two coordinate
      differences, is `Linked`. */
  lemma LinkedByDistance(pts: seq<Point>, a: nat, b: nat, dx: real, dy: real)
    requires a < |pts| && b < |pts|
    requires dx == pts[a].x - pts[b].x && dy == pts[a].y - pts[b].y
    ensures Linked(pts, (a, b)) <==> dx * dx + dy * dy < MaxDistance * MaxDistance
  {
  }

  /** Visiting one more pair adds it to the lines exactly when it is
      linked. */
  lemma ConnectionsStep(pts: seq<Point>, ps: seq<Pair>, p: Pair)
    ensures Connections(pts, ps + [p]) == Connections(pts, ps) + (if Linked(pts, p) then [p] else [])
  {
    assert (ps + [p])[..|ps|] == ps;
  }

  /** A line is drawn between particles `a` and `b` exactly when
      `a <= b < n` and they are close; every particle gets a zero-length
      line to itself. */
  lemma LinesDrawn(pts: seq<Point>, a: nat, b: nat)
    ensures (a, b) in Connections(pts, Pairs(|pts|)) <==> a <= b < |pts| && Close(pts[a], pts[b])
    ensures a < |pts| ==> (a, a) in Connections(pts, Pairs(|pts|))
  {
    ConnectionsMembership(pts, Pairs(|pts|), (a, b));
    PairsMembership(|pts|, a, b);
    ConnectionsMembership(pts, Pairs(|pts|), (a, a));
    PairsMembership(|pts|, a, a);
  }

  class Canvas {
    var width: nat
    var height: nat
    var particles: seq<Particle>

    /** Every particle is on the canvas. */
    ghost predicate InBounds()
      reads this, particles
    {
      forall i :: 0 <= i < |particles| ==> particles[i].InCanvas(width, height)
    }

    function Positions(): (pts: seq<Point>)
      reads this, particles
      ensures |pts| == |particles|
      ensures forall i :: 0 <= i < |particles| ==> pts[i] == Point(particles[i].x, particles[i].y)
    {
      seq(|particles|, i reads this, particles requires 0 <= i < |particles| =>
        Point(particles[i].x, particles[i].y))
    }

    constructor ()
      ensures width == 0 && height == 0 && particles == []
    {
      width, height, particles := 0, 0, [];
    }

    /** `initParticles`: the collection is replaced, not extended, by
        `ParticleCount` fresh particles, the `i`-th drawn from `draws(i)`. */
    method InitParticles(draws: nat -> Draw)
      requires forall i :: draws(i).Valid()
      modifies this
      ensures width == old(width) && height == old(height)
      ensures |particles| == ParticleCount(width, height)
      ensures forall i :: 0 <= i < |particles| ==> fresh(particles[i])
      ensures forall i, j :: 0 <= i < j < |particles| ==> particles[i] != particles[j]
      ensures forall i :: 0 <= i < |particles| ==> particles[i].MadeFrom(draws(i), width, height)
      ensures InBounds()
    {
      particles := [];
      var count := ParticleCount(width, height);
      var i := 0;
      while i < count
        invariant 0 <= i <= count && |particles| == i
        invariant width == old(width) && height == old(height)
        invariant forall k :: 0 <= k < i ==> fresh(particles[k])
        invariant forall k, m :: 0 <= k < m < i ==> particles[k] != particles[m]
        invariant forall k :: 0 <= k < i ==> particles[k].MadeFrom(draws(k), width, height)
        invariant InBounds()
      {
        var p := new Particle(draws(i), width, height);
        particles := particles + [p];
        i := i + 1;
      }
    }

    /** `resizeCanvas`: the canvas takes the window's size and the particles
        are rebuilt for it. */
    method Resize(windowWidth: nat, windowHeight: nat, draws: nat -> Draw)
      requires forall i :: draws(i).Valid()
      modifies this
      ensures width == windowWidth && height == windowHeight
      ensures |particles| == ParticleCount(windowWidth, windowHeight)
      ensures forall i :: 0 <= i < |particles| ==> fresh(particles[i])
      ensures forall i, j :: 0 <= i < j < |particles| ==> particles[i] != particles[j]
      ensures forall i :: 0 <= i < |particles| ==> particles[i].MadeFrom(draws(i), width, height)
      ensures InBounds()
    {
      width := windowWidth;
      height := windowHeight;
      InitParticles(draws);
    }

    /** `connectParticles`: the pairs the nested loops visit, in order, and
        the pairs among them that get a line. */
    method ConnectParticles() returns (visited: seq<Pair>, lines: seq<Pair>)
      ensures visited == Pairs(|particles|)
      ensures lines == Connections(Positions(), visited)
    {
      var n := |particles|;
      ghost var pts := Positions();
      visited, lines := [], [];
      var a := 0;
      while a < n
        invariant 0 <= a <= n
        invariant visited + PairsFrom(a, n) == Pairs(n)
        invariant lines == Connections(pts, visited)
      {
        OuterStep(visited, a, n);
        var b := a;
        while b < n
          invariant a <= b <= n
          invariant visited + Row(a, b, n) + PairsFrom(a + 1, n) == Pairs(n)
          invariant lines == Connections(pts, visited)
        {
          var dx := particles[a].x - particles[b].x;
          var dy := particles[a].y - particles[b].y;
          LinkedByDistance(pts, a, b, dx, dy);
          ConnectionsStep(pts, visited, (a, b));
          InnerStep(visited, a, b, n, PairsFrom(a + 1, n));
          if dx * dx + dy * dy < MaxDistance * MaxDistance {
            lines := lines + [(a, b)];
          }
          visited := visited + [(a, b)];
          b := b + 1;
        }
        RowEnd(visited, a, n, PairsFrom(a + 1, n));
        a := a + 1;
      }
    }
  }
}
