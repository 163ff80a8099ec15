/**
 The bouncing ball of weston/clients/simple-damage.c.  A step may carry the ball any distance
 beyond the arena; a loop reflects it until it is inside again.  Coordinates are reals.
 */
module Bounce {

  /** One axis of the arena. */
  datatype Arena = Arena(lo: real, hi: real)

  function Length(a: Arena): real { a.hi - a.lo }
  predicate In(a: Arena, x: real) { a.lo <= x <= a.hi }

  /** One pass of the loop: up to two reflections. */
  function Pass(a: Arena, x: real): real {
    var y := if x < a.lo then 2.0 * a.lo - x else x;
    if a.hi <= y then 2.0 * a.hi - y else y
  }

  /** Whether a pass from outside reflects twice. */
  predicate Twice(a: Arena, x: real) { x < a.lo && a.hi <= 2.0 * a.lo - x }

  function Overshoot(a: Arena, x: real): real {
    if x < a.lo then a.lo - x else if x > a.hi then x - a.hi else 0.0
  }

  // ---------------------------------------------------------------- termination

  function Iterate(a: Arena, x: real, n: nat): real
    decreases n
  {
    if n == 0 then x else Iterate(a, Pass(a, x), n - 1)
  }

  /** Whether the loop has ended after `n` passes. */
  predicate Settled(a: Arena, x: real, n: nat) { In(a, Iterate(a, x, n)) }

  /** The ball is inside after `n` passes, and not before. */
  ghost predicate FirstIn(a: Arena, x: real, n: nat) { Settled(a, x, n) && forall m: nat | m < n :: !Settled(a, x, m) }

  lemma {:induction false} IterateMore(a: Arena, x: real, n: nat)
    ensures Iterate(a, x, n + 1) == Pass(a, Iterate(a, x, n))
    decreases n
  {
    if n > 0 { IterateMore(a, Pass(a, x), n - 1); }
  }

  /** Where the ball is and how fast after `n` passes, each of which turned it round. */
  ghost predicate Reached(a: Arena, x0: real, v0: real, n: nat, x: real, v: real) {
    x == Iterate(a, x0, n) && (v == if n % 2 == 0 then v0 else -v0) && forall m: nat | m < n :: !Settled(a, x0, m)
  }

  /** The loop has ended after some number of passes, each of which turned the ball round. */
  ghost predicate TurnedOften(a: Arena, x0: real, v0: real, x: real, v: real) {
    In(a, x) && exists n: nat :: Reached(a, x0, v0, n, x, v)
  }

  lemma ReachedNext(a: Arena, x0: real, v0: real, n: nat, x: real, v: real)
    requires Reached(a, x0, v0, n, x, v) && !In(a, x)
    ensures Reached(a, x0, v0, n + 1, Pass(a, x), -v)
  {
    IterateMore(a, x0, n);
  }

  /** One pass mirrors a ball below the arena at its lower wall, and a ball at or above its upper
      wall, then, at the upper one. */
  lemma PassMirrors(a: Arena, x: real)
    ensures x < a.lo && 2.0 * a.lo - x < a.hi ==> Pass(a, x) + x == 2.0 * a.lo
    ensures x < a.lo && 2.0 * a.lo - x >= a.hi ==> Pass(a, x) - x == 2.0 * (a.hi - a.lo)
    ensures x >= a.lo && x >= a.hi ==> Pass(a, x) + x == 2.0 * a.hi
    ensures a.lo <= x < a.hi ==> Pass(a, x) == x
  {
  }

  /** Each pass that ends outside has come closer by the length of the arena, at least. */
  lemma PassCloser(a: Arena, x: real)
    requires a.lo < a.hi && !In(a, x)
    ensures In(a, Pass(a, x)) || Overshoot(a, Pass(a, x)) <= Overshoot(a, x) - Length(a)
  {
  }

  /** A bound on the number of passes. */
  function Rounds(a: Arena, x: real): (n: nat)
    requires a.lo < a.hi
  {
    if In(a, x) then 0
    else
      assert Overshoot(a, x) / Length(a) >= 0.0 by { Nonnegative(Overshoot(a, x), Length(a)); }
      1 + (Overshoot(a, x) / Length(a)).Floor
  }

  lemma Nonnegative(p: real, q: real)
    requires p >= 0.0 && q > 0.0
    ensures p / q >= 0.0
  {
  }

  lemma Ordered(p: real, p': real, q: real)
    requires q > 0.0 && p' <= p - q
    ensures p' / q <= p / q - 1.0
  {
    Divided(-1.0, p, q);
    Nonnegative(p - q - p', q);
    assert (p - q - p') / q == (p - q) / q - p' / q;
  }

  lemma RoundsDrop(a: Arena, x: real)
    requires a.lo < a.hi && !In(a, x)
    ensures Rounds(a, Pass(a, x)) < Rounds(a, x)
  {
    PassCloser(a, x);
    Nonnegative(Overshoot(a, x), Length(a));
    if !In(a, Pass(a, x)) {
      Ordered(Overshoot(a, x), Overshoot(a, Pass(a, x)), Length(a));
    }
  }

  lemma {:induction false} Arrives(a: Arena, x: real) returns (n: nat)
    requires a.lo < a.hi
    ensures Settled(a, x, n)
    decreases Rounds(a, x)
  {
    n := 0;
    if !In(a, x) {
      RoundsDrop(a, x);
      var m := Arrives(a, Pass(a, x));
      n := m + 1;
    }
  }

  lemma {:induction false} NeverArrives(a: Arena, x: real, n: nat)
    requires a.hi <= a.lo && !In(a, x)
    ensures !Settled(a, x, n)
    decreases n
  {
    if n > 0 {
      NeverArrives(a, Pass(a, x), n - 1);
    }
  }

  /** The arena has positive length, or the ball is inside it. */
  predicate Ends(a: Arena, x: real) { a.lo < a.hi || In(a, x) }

  /** The loop terminates if and only if the arena has positive length or the ball is inside
      to begin with. */
  lemma TerminatesIf(a: Arena, x: real)
    ensures (exists n: nat :: Settled(a, x, n)) <==> Ends(a, x)
  {
    if In(a, x) {
      assert Settled(a, x, 0);
    } else if a.lo < a.hi {
      var n := Arrives(a, x);
    } else {
      forall n: nat ensures !Settled(a, x, n) { NeverArrives(a, x, n); }
    }
  }

  // ---------------------------------------------------------------- where the ball ends up

  /** The images of x0 under any number of reflections. */
  function Image(a: Arena, x0: real, mirrored: bool, k: int): real {
    (if mirrored then 2.0 * a.lo - x0 else x0) + k as real * (2.0 * Length(a))
  }

  /** How far x lies beyond a multiple of twice the length, from the lower end. */
  function Phase(a: Arena, x: real): real
    requires a.lo < a.hi
  {
    (x - a.lo) - ((x - a.lo) / (2.0 * Length(a))).Floor as real * (2.0 * Length(a))
  }

  /** The ball's track folded into the arena: a triangle wave. */
  function Fold(a: Arena, x: real): real
    requires a.lo < a.hi
  {
    var m := Phase(a, x);
    if m <= Length(a) then a.lo + m else a.lo + 2.0 * Length(a) - m
  }

  lemma FloorIs(t: real, d: real, q: int, m: real)
    requires d > 0.0 && t == q as real * d + m && 0.0 <= m < d
    ensures (t / d).Floor == q
  {
    Nonnegative(m, d);
    assert m / d < 1.0 by { Below(m, d); }
    assert t / d == q as real + m / d by { Divided(q as real, m, d); }
  }

  lemma Below(m: real, d: real)
    requires m < d && d > 0.0
    ensures m / d < 1.0
  {
  }

  lemma Divided(q: real, m: real, d: real)
    requires d > 0.0
    ensures (q * d + m) / d == q + m / d
  {
  }

  lemma PhaseIs(a: Arena, x: real, q: int, m: real)
    requires a.lo < a.hi && x - a.lo == q as real * (2.0 * Length(a)) + m && 0.0 <= m < 2.0 * Length(a)
    ensures Phase(a, x) == m
  {
    FloorIs(x - a.lo, 2.0 * Length(a), q, m);
  }

  /** Only one image lies in the arena, and it is the folded position; between the ends the
      phase tells whether it is mirrored. */
  lemma FoldUnique(a: Arena, x0: real, mirrored: bool, k: int)
    requires a.lo < a.hi && In(a, Image(a, x0, mirrored, k))
    ensures Image(a, x0, mirrored, k) == Fold(a, x0)
    ensures a.lo < Image(a, x0, mirrored, k) < a.hi ==> (mirrored <==> Phase(a, x0) > Length(a))
  {
    var d, x := 2.0 * Length(a), Image(a, x0, mirrored, k);
    Multiple(k, d);
    if !mirrored {
      PhaseIs(a, x0, -k, x - a.lo);
    } else if x == a.lo {
      PhaseIs(a, x0, k, 0.0);
    } else {
      PhaseIs(a, x0, k - 1, d - (x - a.lo));
    }
  }

  /** The folded position is an image of the position, by some number of reflections. */
  lemma FoldIsImage(a: Arena, x: real) returns (mirrored: bool, k: int)
    requires a.lo < a.hi
    ensures Fold(a, x) == Image(a, x, mirrored, k) && In(a, Fold(a, x))
  {
    var d := 2.0 * Length(a);
    var q := ((x - a.lo) / d).Floor;
    PhaseRange(x - a.lo, d);
    Multiple(q, d);
    mirrored := Phase(a, x) > Length(a);
    k := if mirrored then q + 1 else -q;
  }

  lemma Scaled(f: real, d: real, e: real)
    requires d > 0.0 && 0.0 <= f < 1.0 && e == f * d
    ensures 0.0 <= e < d
  {
    assert (1.0 - f) * d > 0.0;
  }

  lemma Distribute(p: real, q: real, d: real)
    ensures (p - q) * d == p * d - q * d
  {
  }

  lemma Whole(t: real, d: real)
    requires d > 0.0
    ensures (t / d) * d == t
  {
  }

  lemma PhaseRange(t: real, d: real)
    requires d > 0.0
    ensures 0.0 <= t - (t / d).Floor as real * d < d
  {
    Whole(t, d);
    FractionOf(t / d, (t / d).Floor as real, d, t);
  }

  lemma FractionOf(p: real, q: real, d: real, t: real)
    requires d > 0.0 && p * d == t && 0.0 <= p - q < 1.0
    ensures 0.0 <= t - q * d < d
  {
    Distribute(p, q, d);
    Scaled(p - q, d, t - q * d);
  }

  lemma Multiple(k: int, d: real)
    ensures (-k) as real * d == -(k as real * d) && (k - 1) as real * d == k as real * d - d
    ensures (k + 1) as real * d == k as real * d + d
  {
    assert (k - 1) as real == k as real - 1.0 && (-k) as real == -(k as real) && (k + 1) as real == k as real + 1.0;
  }

  /** A pass leads from one image to another. */
  function Turned(a: Arena, x: real, mirrored: bool): bool { if Twice(a, x) then mirrored else !mirrored }

  lemma PassImage(a: Arena, x0: real, mirrored: bool, k: int, x: real) returns (k': int)
    requires a.lo < a.hi && x == Image(a, x0, mirrored, k) && !In(a, x)
    ensures Pass(a, x) == Image(a, x0, Turned(a, x, mirrored), k')
  {
    var d := 2.0 * Length(a);
    Multiple(k, d);
    if Twice(a, x) {
      k' := k + 1;
    } else if x < a.lo {
      k' := -k;
    } else {
      k' := 1 - k;
      Multiple(-k, d);
    }
  }

  // ---------------------------------------------------------------- which way it faces

  /** How many passes will reflect twice. */
  function Doubles(a: Arena, x: real): int
    requires a.lo < a.hi
  {
    var below := if x < a.lo then a.lo - x else if x > a.hi + Length(a) then x - a.hi - Length(a) else 0.0;
    ((below + Length(a)) / (2.0 * Length(a))).Floor
  }

  lemma DoublesStep(a: Arena, x: real)
    requires a.lo < a.hi && !In(a, x)
    ensures Doubles(a, Pass(a, x)) == Doubles(a, x) - if Twice(a, x) then 1 else 0
  {
    var l := Length(a);
    var d := 2.0 * l;
    if Twice(a, x) {
      var o := a.lo - x;
      if Pass(a, x) < a.lo {
        assert a.lo - Pass(a, x) + l == o + l - d;
        Divided(-1.0, o + l, d);
        assert -1.0 * d + (o + l) == o + l - d;
      } else {
        Small(o + l - d, d);
        Divided(1.0, o + l - d, d);
        Small(l, d);
      }
    } else if x < a.lo {
      Small(a.lo - x + l, d);
      Small(l, d);
    } else if x - a.hi <= l {
      Small(l, d);
    }
  }

  lemma Small(m: real, d: real)
    requires 0.0 <= m < d
    ensures (m / d).Floor == 0
  {
    Nonnegative(m, d);
    Below(m, d);
  }

  lemma DoublesInside(a: Arena, x: real)
    requires a.lo < a.hi && In(a, x)
    ensures Doubles(a, x) == 0
  {
    Small(Length(a), 2.0 * Length(a));
  }

  // ---------------------------------------------------------------- the loop

  /** The velocity of a ball whose track is folded into the arena. */
  function Facing(a: Arena, x: real, v: real): real
    requires a.lo < a.hi
  {
    if Phase(a, x) > Length(a) then -v else v
  }

  /** It is turned round exactly if the image of its start that lies in the arena is mirrored. */
  lemma FacingImage(a: Arena, x0: real, v: real, mirrored: bool, k: int)
    requires a.lo < a.hi && a.lo < Image(a, x0, mirrored, k) < a.hi
    ensures Facing(a, x0, v) == if mirrored then -v else v
  {
    FoldUnique(a, x0, mirrored, k);
  }

  predicate Even(n: int) { n % 2 == 0 }

  /** The velocity after some passes, by the reflections and double reflections made. */
  function Negated(mirrored: bool, doubles: nat, v: real): real { if mirrored == Even(doubles) then -v else v }

  lemma NegatedStep(a: Arena, x: real, mirrored: bool, doubles: nat, v: real)
    ensures -Negated(mirrored, doubles, v)
         == Negated(Turned(a, x, mirrored), doubles + if Twice(a, x) then 1 else 0, v)
  {
  }

  /** The reflection loop of one axis.  It ends with the ball at its folded position.  The
      velocity is negated once per pass, however many reflections the pass makes: away from
      the walls it is the folded track's velocity exactly if the number of double reflections
      is even. */
  method Reflect(a: Arena, x0: real, v0: real) returns (x: real, v: real)
    requires Ends(a, x0)
    ensures In(a, x) && (v == v0 || v == -v0)
    ensures In(a, x0) ==> x == x0 && v == v0
    ensures a.lo < a.hi ==> x == Fold(a, x0)
    ensures a.lo < a.hi && a.lo < x < a.hi && v0 != 0.0 ==> (v == Facing(a, x0, v0) <==> Even(Doubles(a, x0)))
    ensures TurnedOften(a, x0, v0, x, v)
  {
    x, v := x0, v0;
    ghost var mirrored, k, doubles: nat := false, 0, 0;
    ghost var n: nat := 0;
    while x < a.lo || a.hi < x
      invariant Reached(a, x0, v0, n, x, v)
      invariant a.lo < a.hi || (In(a, x0) && x == x0 && v == v0)
      invariant In(a, x0) ==> x == x0 && v == v0
      invariant x == Image(a, x0, mirrored, k)
      invariant v == Negated(mirrored, doubles, v0)
      invariant a.lo < a.hi ==> Doubles(a, x) + doubles == Doubles(a, x0)
      decreases if a.lo < a.hi then Rounds(a, x) else 0
    {
      RoundsDrop(a, x);
      DoublesStep(a, x);
      ReachedNext(a, x0, v0, n, x, v);
      ghost var was := x;
      NegatedStep(a, x, mirrored, doubles, v0);
      k := PassImage(a, x0, mirrored, k, x);
      mirrored := Turned(a, x, mirrored);
      doubles := doubles + if Twice(a, x) then 1 else 0;
      if x < a.lo {
        x := 2.0 * a.lo - x;
      }
      if a.hi <= x {
        x := 2.0 * a.hi - x;
      }
      assert x == Pass(a, was);
      v := -v;
      n := n + 1;
    }
    assert TurnedOften(a, x0, v0, x, v);
    if a.lo < a.hi {
      FoldUnique(a, x0, mirrored, k);
      DoublesInside(a, x);
    }
  }

  // ---------------------------------------------------------------- the game

  class Ball {
    var x: real
    var y: real
    var dx: real
    var dy: real
    var prevTime: nat

    constructor (x: real, y: real, dx: real, dy: real)
      ensures this.x == x && this.y == y && this.dx == dx && this.dy == dy && prevTime == 0
    {
      this.x, this.y, this.dx, this.dy, prevTime := x, y, dx, dy, 0;
    }

    /** window_advance_game: times are 32-bit counts of milliseconds. */
    method Advance(timestamp: nat, width: int, height: int, border: int, radius: int)
      requires prevTime != 0 ==> Ends(Side(width, border, radius), Moved(x, dx, Elapsed(prevTime, timestamp)))
      requires prevTime != 0 ==> Ends(Side(height, border, radius), Moved(y, dy, Elapsed(prevTime, timestamp)))
      modifies this
      ensures prevTime == timestamp
      ensures old(prevTime) == 0 ==> x == old(x) && y == old(y) && dx == old(dx) && dy == old(dy)
      ensures old(prevTime) != 0 ==>
                var dt := Elapsed(old(prevTime), timestamp);
                && Bounced(Side(width, border, radius), Moved(old(x), old(dx), dt), old(dx), x, dx)
                && Bounced(Side(height, border, radius), Moved(old(y), old(dy), dt), old(dy), y, dy)
    {
      if prevTime == 0 {
        prevTime := timestamp;
        return;
      }
      var dt := Elapsed(prevTime, timestamp);
      x, dx := ReflectMoved(Side(width, border, radius), x, dx, dt);
      y, dy := ReflectMoved(Side(height, border, radius), y, dy, dt);
      prevTime := timestamp;
    }
  }

  /** The seconds between two times. */
  function Elapsed(from: nat, to: nat): real { ((to - from) % 0x1_0000_0000) as real / 1000.0 }

  function Moved(x: real, v: real, dt: real): real { x + v * dt }

  /** What one axis of the game comes to, from a position anywhere on the line. */
  ghost predicate Bounced(a: Arena, x0: real, v0: real, x: real, v: real) {
    && In(a, x) && (v == v0 || v == -v0)
    && (In(a, x0) ==> x == x0 && v == v0)
    && (a.lo < a.hi ==> x == Fold(a, x0))
    && (a.lo < x < a.hi && v0 != 0.0 ==> (v == Facing(a, x0, v0) <==> Even(Doubles(a, x0))))
    && TurnedOften(a, x0, v0, x, v)
  }

  method ReflectMoved(a: Arena, x0: real, v0: real, dt: real) returns (x: real, v: real)
    requires Ends(a, Moved(x0, v0, dt))
    ensures Bounced(a, Moved(x0, v0, dt), v0, x, v)
  {
    x, v := Reflect(a, Moved(x0, v0, dt), v0);
  }

  /** In each second the ball moves by its velocity; times are in milliseconds and wrap at 2^32. */
  lemma TrackFields(x: real, v: real, from: nat, ms: nat, to: nat)
    requires ms < 0x1_0000_0000 && to == (from + ms) % 0x1_0000_0000 && from < 0x1_0000_0000
    ensures Elapsed(from, to) * 1000.0 == ms as real
    ensures Moved(x, v, Elapsed(from, to)) - x == v * Elapsed(from, to)
  {
  }

  /** The arena along one side of the window: inside the border by the radius at both ends. */
  function Side(size: int, border: int, radius: int): (a: Arena)
    ensures a.lo == border as real + radius as real && a.hi == size as real - a.lo
  {
    Arena((border + radius) as real, (size - border - radius) as real)
  }

  /** A ball 15 beyond the lower wall of an arena of length 10, moving down: its folded track
      moves down in the middle of the arena. */
  lemma WrongWayFacts(a: Arena)
    requires a == Arena(20.0, 30.0)
    ensures Twice(a, 5.0) && Doubles(a, 5.0) == 1 && Fold(a, 5.0) == 25.0 && Facing(a, 5.0, -20.0) == -20.0
  {
    PhaseIs(a, 5.0, -1, 5.0);
  }

  lemma OneSecond()
    ensures Elapsed(1, 1001) == 1.0 && Moved(25.0, -20.0, 1.0) == 5.0 && Moved(25.0, 0.0, 1.0) == 25.0
    ensures Side(50, 10, 10) == Arena(20.0, 30.0)
  {
  }

  /** The game does send balls the wrong way: in a window of 50 by 50, with the border and the
      radius of the program, a ball in the middle that moves down by 20 in a second is reflected
      twice in one pass.  Its folded track moves down, and the loop sends it up. */
  method WrongWay() returns (ball: Ball)
    ensures ball.x == 25.0 && ball.dx == 20.0 && Facing(Side(50, 10, 10), 5.0, -20.0) == -20.0
  {
    ball := new Ball(25.0, 25.0, -20.0, 0.0);
    ball.Advance(1, 50, 50, 10, 10);
    OneSecond();
    WrongWayFacts(Side(50, 10, 10));
    ball.Advance(1001, 50, 50, 10, 10);
  }
}
