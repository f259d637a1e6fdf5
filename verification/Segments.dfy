/** Whether two closed segments meet, decided by orientations, and whether a segment meets the
    boundary of a polygon. Coordinates are reals. */
module Segments {

  datatype Point = Point(x: real, y: real)

  function Min(a: real, b: real): real {
    if a <= b then a else b
  }

  function Max(a: real, b: real): real {
    if a >= b then a else b
  }

  // ----- The code -----

  function Turn(p: Point, q: Point, r: Point): real {
    (q.y - p.y) * (r.x - q.x) - (q.x - p.x) * (r.y - q.y)
  }

  /** 0 collinear, 1 clockwise, 2 counterclockwise. */
  function Orientation(p: Point, q: Point, r: Point): (o: nat)
    ensures o == 0 <==> Turn(p, q, r) == 0.0
    ensures o == 1 <==> Turn(p, q, r) > 0.0
    ensures o == 2 <==> Turn(p, q, r) < 0.0
  {
    var val := Turn(p, q, r);
    if val == 0.0 then 0 else if val > 0.0 then 1 else 2
  }

  predicate OnSegment(p: Point, q: Point, r: Point) {
    && q.x <= Max(p.x, r.x) && q.x >= Min(p.x, r.x)
    && q.y <= Max(p.y, r.y) && q.y >= Min(p.y, r.y)
  }

  predicate SegmentsIntersect(p1: Point, q1: Point, p2: Point, q2: Point) {
    var o1 := Orientation(p1, q1, p2);
    var o2 := Orientation(p1, q1, q2);
    var o3 := Orientation(p2, q2, p1);
    var o4 := Orientation(p2, q2, q1);
    || (o1 != o2 && o3 != o4)
    || (o1 == 0 && OnSegment(p1, p2, q1))
    || (o2 == 0 && OnSegment(p1, q2, q1))
    || (o3 == 0 && OnSegment(p2, p1, q2))
    || (o4 == 0 && OnSegment(p2, q1, q2))
  }

  // ----- What it decides -----

  /** The point at parameter s of the segment. */
  function Along(p: Point, q: Point, s: real): Point {
    Point(p.x + s * (q.x - p.x), p.y + s * (q.y - p.y))
  }

  predicate Unit(s: real) {
    0.0 <= s <= 1.0
  }

  ghost predicate MeetAt(p1: Point, q1: Point, p2: Point, q2: Point, s: real, t: real) {
    Unit(s) && Unit(t) && Along(p1, q1, s) == Along(p2, q2, t)
  }

  /** The closed segments share a point. */
  ghost predicate Meet(p1: Point, q1: Point, p2: Point, q2: Point) {
    exists s, t :: MeetAt(p1, q1, p2, q2, s, t)
  }

  // ----- Collinear points in the bounding box are on the segment -----

  ghost predicate Lies(p: Point, q: Point, r: Point) {
    exists s :: Unit(s) && Along(p, r, s) == q
  }

  lemma QuotientUnit(a: real, d: real)
    requires d != 0.0 && (0.0 <= a <= d || d <= a <= 0.0)
    ensures Unit(a / d) && (a / d) * d == a
  {
  }

  lemma Proportion(s: real, dx: real, dy: real, ex: real, ey: real)
    requires dx != 0.0 && s * dx == ex && dy * ex == dx * ey
    ensures s * dy == ey
  {
    assert dx * (s * dy - ey) == 0.0;
  }

  lemma TurnFromStart(p: Point, r: Point, q: Point)
    ensures Turn(p, r, q) == (r.y - p.y) * (q.x - p.x) - (r.x - p.x) * (q.y - p.y)
  {
  }

  lemma BoxedIsOn(p: Point, q: Point, r: Point)
    requires Turn(p, r, q) == 0.0 && OnSegment(p, q, r)
    ensures Lies(p, q, r)
  {
    var dx, dy, ex, ey := r.x - p.x, r.y - p.y, q.x - p.x, q.y - p.y;
    TurnFromStart(p, r, q);
    if dx != 0.0 {
      QuotientUnit(ex, dx);
      Proportion(ex / dx, dx, dy, ex, ey);
      assert Along(p, r, ex / dx) == q;
    } else if dy != 0.0 {
      QuotientUnit(ey, dy);
      assert Along(p, r, ey / dy) == q;
    } else {
      assert Along(p, r, 0.0) == q;
    }
  }

  lemma ScaleWithin(s: real, d: real)
    requires Unit(s)
    ensures Min(0.0, d) <= s * d <= Max(0.0, d)
  {
    if d >= 0.0 {
      assert s * d <= 1.0 * d;
    } else {
      assert s * (-d) <= 1.0 * (-d);
    }
  }

  lemma OnIsBoxed(p: Point, q: Point, r: Point, s: real)
    requires Unit(s) && Along(p, r, s) == q
    ensures Turn(p, r, q) == 0.0 && OnSegment(p, q, r)
  {
    ScaleWithin(s, r.x - p.x);
    ScaleWithin(s, r.y - p.y);
    TurnFromStart(p, r, q);
    var dx, dy := r.x - p.x, r.y - p.y;
    assert dy * (s * dx) - dx * (s * dy) == 0.0;
  }

  // ----- Where crossing segments cross -----

  /** Three plane vectors: (u x v) w + (v x w) u + (w x u) v = 0, one coordinate at a time. */
  lemma CrossIdentity(ux: real, uy: real, vx: real, vy: real, wx: real, wy: real)
    ensures (ux * vy - uy * vx) * wx + (vx * wy - vy * wx) * ux + (wx * uy - wy * ux) * vx == 0.0
    ensures (ux * vy - uy * vx) * wy + (vx * wy - vy * wx) * uy + (wx * uy - wy * ux) * vy == 0.0
  {
  }

  lemma CrossZero(ux: real, uy: real, vx: real, vy: real, wx: real, wy: real, k: real, d1: real, d3: real)
    requires k == ux * vy - uy * vx && d1 == ux * wy - uy * wx && d3 == vy * wx - vx * wy
    ensures k * wx - d3 * ux - d1 * vx == 0.0 && k * wy - d3 * uy - d1 * vy == 0.0
  {
    CrossIdentity(ux, uy, vx, vy, wx, wy);
    assert -d3 * ux == (vx * wy - vy * wx) * ux && -d3 * uy == (vx * wy - vy * wx) * uy;
    assert -d1 * vx == (wx * uy - wy * ux) * vx && -d1 * vy == (wx * uy - wy * ux) * vy;
  }

  lemma OppositeSides(a: real, b: real)
    requires !(a > 0.0 && b > 0.0) && !(a < 0.0 && b < 0.0) && a != b
    ensures Unit(a / (a - b)) && (a / (a - b)) * (a - b) == a
  {
    QuotientUnit(a, a - b);
  }

  lemma Cancel(k: real, x: real, y: real)
    requires k != 0.0 && k * x == k * y
    ensures x == y
  {
  }

  /** The two parameters solve one coordinate of the crossing. */
  lemma Solves(k: real, s: real, t: real, d1: real, d3: real, w: real, u: real, v: real)
    requires k != 0.0 && t * k == d1 && s * (-k) == d3
    requires k * w - d3 * u - d1 * v == 0.0
    ensures w + s * u == t * v
  {
    assert k * (w + s * u) == k * w + (s * k) * u;
    assert k * (t * v) == (t * k) * v;
    Cancel(k, w + s * u, t * v);
  }

  lemma TurnDifference(p: Point, q: Point, r: Point, e: Point)
    ensures Turn(p, q, r) - Turn(p, q, e) == (q.x - p.x) * (e.y - r.y) - (q.y - p.y) * (e.x - r.x)
  {
  }

  lemma CrossingPoint(p1: Point, q1: Point, p2: Point, q2: Point, s: real, t: real)
    requires
      var d1, d2, d3 := Turn(p1, q1, p2), Turn(p1, q1, q2), Turn(p2, q2, p1);
      d1 != d2 && t * (d1 - d2) == d1 && s * (-(d1 - d2)) == d3
    ensures Along(p1, q1, s) == Along(p2, q2, t)
  {
    var ux, uy, vx, vy := q1.x - p1.x, q1.y - p1.y, q2.x - p2.x, q2.y - p2.y;
    var wx, wy := p1.x - p2.x, p1.y - p2.y;
    var k, d1, d3 := ux * vy - uy * vx, Turn(p1, q1, p2), Turn(p2, q2, p1);
    assert d1 - Turn(p1, q1, q2) == k by {
      TurnDifference(p1, q1, p2, q2);
    }
    assert d1 == ux * wy - uy * wx by {
      TurnFromStart(p1, q1, p2);
    }
    assert d3 == vy * wx - vx * wy by {
      TurnFromStart(p2, q2, p1);
    }
    CrossZero(ux, uy, vx, vy, wx, wy, k, d1, d3);
    Solves(k, s, t, d1, d3, wx, ux, vx);
    Solves(k, s, t, d1, d3, wy, uy, vy);
  }

  lemma GeneralCase(p1: Point, q1: Point, p2: Point, q2: Point)
    requires Orientation(p1, q1, p2) != Orientation(p1, q1, q2)
    requires Orientation(p2, q2, p1) != Orientation(p2, q2, q1)
    ensures Meet(p1, q1, p2, q2)
  {
    var d1, d2 := Turn(p1, q1, p2), Turn(p1, q1, q2);
    var d3, d4 := Turn(p2, q2, p1), Turn(p2, q2, q1);
    OppositeSides(d1, d2);
    OppositeSides(d3, d4);
    var t, s := d1 / (d1 - d2), d3 / (d3 - d4);
    TurnDifference(p1, q1, p2, q2);
    TurnDifference(p2, q2, p1, q1);
    assert d3 - d4 == -(d1 - d2);
    CrossingPoint(p1, q1, p2, q2, s, t);
    assert MeetAt(p1, q1, p2, q2, s, t);
  }

  // ----- Both directions -----

  lemma MeetsFlip(p1: Point, q1: Point, p2: Point, q2: Point)
    ensures Meet(p1, q1, p2, q2) <==> Meet(p2, q2, p1, q1)
  {
    if s, t :| MeetAt(p1, q1, p2, q2, s, t) {
      assert MeetAt(p2, q2, p1, q1, t, s);
    }
    if s, t :| MeetAt(p2, q2, p1, q1, s, t) {
      assert MeetAt(p1, q1, p2, q2, t, s);
    }
  }

  /** An end of the second segment lying on the first is a shared point. */
  lemma EndsMeet(p1: Point, q1: Point, p2: Point, q2: Point)
    ensures Lies(p1, p2, q1) ==> Meet(p1, q1, p2, q2)
    ensures Lies(p1, q2, q1) ==> Meet(p1, q1, p2, q2)
  {
    if s :| Unit(s) && Along(p1, q1, s) == p2 {
      assert MeetAt(p1, q1, p2, q2, s, 0.0);
    }
    if s :| Unit(s) && Along(p1, q1, s) == q2 {
      assert MeetAt(p1, q1, p2, q2, s, 1.0);
    }
  }

  lemma IntersectImpliesMeet(p1: Point, q1: Point, p2: Point, q2: Point)
    requires SegmentsIntersect(p1, q1, p2, q2)
    ensures Meet(p1, q1, p2, q2)
  {
    MeetsFlip(p1, q1, p2, q2);
    EndsMeet(p1, q1, p2, q2);
    EndsMeet(p2, q2, p1, q1);
    if Orientation(p1, q1, p2) != Orientation(p1, q1, q2) && Orientation(p2, q2, p1) != Orientation(p2, q2, q1) {
      GeneralCase(p1, q1, p2, q2);
    } else if Orientation(p1, q1, p2) == 0 && OnSegment(p1, p2, q1) {
      BoxedIsOn(p1, p2, q1);
    } else if Orientation(p1, q1, q2) == 0 && OnSegment(p1, q2, q1) {
      BoxedIsOn(p1, q2, q1);
    } else if Orientation(p2, q2, p1) == 0 && OnSegment(p2, p1, q2) {
      BoxedIsOn(p2, p1, q2);
    } else {
      BoxedIsOn(p2, q1, q2);
    }
  }

  lemma Distribute(a: real, s: real, x: real, t: real, y: real)
    ensures a * (s * x + t * y) == s * (a * x) + t * (a * y)
  {
  }

  /** Turn is affine in its last point. */
  lemma TurnAlong(p: Point, q: Point, r: Point, e: Point, t: real)
    ensures Turn(p, q, Along(r, e, t)) == (1.0 - t) * Turn(p, q, r) + t * Turn(p, q, e)
  {
    var a, b := q.y - p.y, q.x - p.x;
    var x := Along(r, e, t);
    assert x.x - q.x == (1.0 - t) * (r.x - q.x) + t * (e.x - q.x);
    assert x.y - q.y == (1.0 - t) * (r.y - q.y) + t * (e.y - q.y);
    Distribute(a, 1.0 - t, r.x - q.x, t, e.x - q.x);
    Distribute(b, 1.0 - t, r.y - q.y, t, e.y - q.y);
    Distribute(1.0, 1.0 - t, a * (r.x - q.x) - b * (r.y - q.y), t, a * (e.x - q.x) - b * (e.y - q.y));
  }

  lemma Weighted(t: real, a: real, b: real)
    requires Unit(t) && a > 0.0 && b > 0.0
    ensures (1.0 - t) * a + t * b > 0.0
  {
    var least := Min(a, b);
    assert (1.0 - t) * a >= (1.0 - t) * least;
    assert t * b >= t * least;
    assert (1.0 - t) * least + t * least == least;
  }

  /** Shared points put the ends of one segment on both sides of the line of the other, or on it. */
  lemma SidesOfMeeting(p1: Point, q1: Point, p2: Point, q2: Point, s: real, t: real)
    requires MeetAt(p1, q1, p2, q2, s, t) && Orientation(p1, q1, p2) == Orientation(p1, q1, q2)
    ensures Turn(p1, q1, p2) == 0.0 && Turn(p1, q1, q2) == 0.0
  {
    OnIsBoxed(p1, Along(p1, q1, s), q1, s);
    TurnAlong(p1, q1, p2, q2, t);
    var d1, d2 := Turn(p1, q1, p2), Turn(p1, q1, q2);
    if d1 > 0.0 && d2 > 0.0 {
      Weighted(t, d1, d2);
    }
    if d1 < 0.0 && d2 < 0.0 {
      Weighted(t, -d1, -d2);
    }
  }

  /** An end of one of two overlapping intervals lies in the other. */
  lemma Overlap(a: real, b: real, c: real, d: real, x: real)
    requires Min(a, b) <= x <= Max(a, b) && Min(c, d) <= x <= Max(c, d)
    ensures Min(a, b) <= c <= Max(a, b) || Min(a, b) <= d <= Max(a, b) || Min(c, d) <= a <= Max(c, d)
  {
  }

  /** Parameter of a point on the line through two different points. */
  lemma LineParameter(p: Point, q: Point, r: Point) returns (c: real)
    requires p != q && Turn(p, q, r) == 0.0
    ensures Along(p, q, c) == r
  {
    TurnFromStart(p, q, r);
    var dx, dy, ex, ey := q.x - p.x, q.y - p.y, r.x - p.x, r.y - p.y;
    if dx != 0.0 {
      c := ex / dx;
      Proportion(c, dx, dy, ex, ey);
    } else {
      c := ey / dy;
      Proportion(c, dy, dx, ey, ex);
    }
  }

  lemma SameParameter(p: Point, q: Point, a: real, b: real)
    requires p != q && Along(p, q, a) == Along(p, q, b)
    ensures a == b
  {
    if q.x != p.x {
      Cancel(q.x - p.x, a, b);
    } else {
      Cancel(q.y - p.y, a, b);
    }
  }

  lemma Reparametrize(k: real, c: real, d: real, t: real)
    ensures c * k + t * (d * k - c * k) == (c + t * (d - c)) * k
  {
  }

  lemma AlongAlong(p: Point, q: Point, c: real, d: real, t: real)
    ensures Along(Along(p, q, c), Along(p, q, d), t) == Along(p, q, c + t * (d - c))
  {
    var r, e := Along(p, q, c), Along(p, q, d);
    var kx, ky := q.x - p.x, q.y - p.y;
    Reparametrize(kx, c, d, t);
    Reparametrize(ky, c, d, t);
    assert e.x - r.x == d * kx - c * kx;
    assert e.y - r.y == d * ky - c * ky;
  }

  lemma BetweenParameters(p: Point, q: Point, c: real, d: real, a: real)
    requires Min(c, d) <= a <= Max(c, d)
    ensures Lies(Along(p, q, c), Along(p, q, a), Along(p, q, d))
  {
    if c == d {
      AlongAlong(p, q, c, d, 0.0);
      assert Along(Along(p, q, c), Along(p, q, d), 0.0) == Along(p, q, a);
    } else {
      QuotientUnit(a - c, d - c);
      var t := (a - c) / (d - c);
      AlongAlong(p, q, c, d, t);
      assert Along(Along(p, q, c), Along(p, q, d), t) == Along(p, q, a);
    }
  }

  /** On one line: if the segments share a point, an end of one lies on the other. */
  lemma CollinearEnds(p1: Point, q1: Point, p2: Point, q2: Point, s: real, t: real)
    requires MeetAt(p1, q1, p2, q2, s, t) && Turn(p1, q1, p2) == 0.0 && Turn(p1, q1, q2) == 0.0
    ensures Lies(p1, p2, q1) || Lies(p1, q2, q1) || Lies(p2, p1, q2)
  {
    if p1 == q1 {
      assert Along(p2, q2, t) == p1;
    } else {
      var c := LineParameter(p1, q1, p2);
      var d := LineParameter(p1, q1, q2);
      AlongAlong(p1, q1, c, d, t);
      SameParameter(p1, q1, s, c + t * (d - c));
      ScaleWithin(t, d - c);
      Overlap(0.0, 1.0, c, d, s);
      if Unit(c) {
        assert Along(p1, q1, c) == p2;
      } else if Unit(d) {
        assert Along(p1, q1, d) == q2;
      } else {
        BetweenParameters(p1, q1, c, d, 0.0);
        assert Along(p1, q1, 0.0) == p1;
      }
    }
  }

  lemma LiesIsBoxed(p: Point, q: Point, r: Point)
    requires Lies(p, q, r)
    ensures Orientation(p, r, q) == 0 && OnSegment(p, q, r)
  {
    var s :| Unit(s) && Along(p, r, s) == q;
    OnIsBoxed(p, q, r, s);
  }

  lemma CollinearMeetIntersects(p1: Point, q1: Point, p2: Point, q2: Point, s: real, t: real)
    requires MeetAt(p1, q1, p2, q2, s, t) && Turn(p1, q1, p2) == 0.0 && Turn(p1, q1, q2) == 0.0
    ensures SegmentsIntersect(p1, q1, p2, q2) && SegmentsIntersect(p2, q2, p1, q1)
  {
    CollinearEnds(p1, q1, p2, q2, s, t);
    if Lies(p1, p2, q1) {
      LiesIsBoxed(p1, p2, q1);
    } else if Lies(p1, q2, q1) {
      LiesIsBoxed(p1, q2, q1);
    } else {
      LiesIsBoxed(p2, p1, q2);
    }
  }

  /** The test answers exactly whether the closed segments share a point, for all end points:
      touching, overlapping, collinear and degenerate ones included. */
  lemma IntersectIffMeet(p1: Point, q1: Point, p2: Point, q2: Point)
    ensures SegmentsIntersect(p1, q1, p2, q2) <==> Meet(p1, q1, p2, q2)
  {
    if SegmentsIntersect(p1, q1, p2, q2) {
      IntersectImpliesMeet(p1, q1, p2, q2);
    }
    if s, t :| MeetAt(p1, q1, p2, q2, s, t) {
      if Orientation(p1, q1, p2) == Orientation(p1, q1, q2) {
        SidesOfMeeting(p1, q1, p2, q2, s, t);
        CollinearMeetIntersects(p1, q1, p2, q2, s, t);
      } else if Orientation(p2, q2, p1) == Orientation(p2, q2, q1) {
        assert MeetAt(p2, q2, p1, q1, t, s);
        SidesOfMeeting(p2, q2, p1, q1, t, s);
        CollinearMeetIntersects(p2, q2, p1, q1, t, s);
      }
    }
  }

  // ----- Polygons -----

  function NextIndex(k: nat, n: nat): nat {
    if k + 1 < n then k + 1 else 0
  }

  datatype Option<T> = None | Some(value: T)

  /** What an iterator over the elements gives next, or a default if it is exhausted. */
  function Next<T>(s: seq<T>, default: Option<T>): Option<T> {
    if s == [] then default else Some(s[0])
  }

  function Advance<T>(s: seq<T>): seq<T> {
    if s == [] then s else s[1..]
  }

  /** Pairs of what two iterators give, until both are exhausted; the fill value stands in for the
      one that is exhausted first. */
  function ZipLongest<T>(a: seq<T>, b: seq<T>, fill: Option<T>): seq<(Option<T>, Option<T>)>
    decreases |a| + |b|
  {
    if a == [] && b == [] then []
    else [(Next(a, fill), Next(b, fill))] + ZipLongest(Advance(a), Advance(b), fill)
  }

  /** Two iterators over the same elements: the second is moved on by one, and what it gave then
      fills the last pair. */
  function PairwiseCircle<T>(s: seq<T>): seq<(Option<T>, Option<T>)> {
    var a, b := s, s;
    var first := Next(b, None);
    ZipLongest(a, Advance(b), first)
  }

  lemma {:induction false} ZipLongestAt<T>(a: seq<T>, b: seq<T>, fill: Option<T>, k: nat)
    ensures |ZipLongest(a, b, fill)| == if |a| > |b| then |a| else |b|
    ensures k < |ZipLongest(a, b, fill)| ==>
              ZipLongest(a, b, fill)[k] == (Next(a[if k < |a| then k else |a|..], fill), Next(b[if k < |b| then k else |b|..], fill))
    decreases |a| + |b|
  {
    if a != [] || b != [] {
      ZipLongestAt(Advance(a), Advance(b), fill, if k > 0 then k - 1 else 0);
    }
  }

  /** The pairs are each element with the next one and the last with the first; there are none for
      the empty list. */
  lemma PairwiseCircleIs<T>(s: seq<T>)
    ensures |PairwiseCircle(s)| == |s|
    ensures forall k | 0 <= k < |s| :: PairwiseCircle(s)[k] == (Some(s[k]), Some(s[NextIndex(k, |s|)]))
  {
    ZipLongestAt(s, Advance(s), Next(s, None), 0);
    forall k | 0 <= k < |s|
      ensures PairwiseCircle(s)[k] == (Some(s[k]), Some(s[NextIndex(k, |s|)]))
    {
      ZipLongestAt(s, Advance(s), Next(s, None), k);
    }
  }

  ghost predicate MeetsEdge(a: Point, b: Point, polygon: seq<Point>, k: nat)
    requires k < |polygon|
  {
    Meet(a, b, polygon[k], polygon[NextIndex(k, |polygon|)])
  }

  /** The segment shares a point with some edge of the polygon. */
  ghost predicate MeetsBoundary(a: Point, b: Point, polygon: seq<Point>) {
    exists k | 0 <= k < |polygon| :: MeetsEdge(a, b, polygon, k)
  }

  method SegmentInPolygon(a: Point, b: Point, polygon: seq<Point>) returns (meets: bool)
    ensures meets <==> MeetsBoundary(a, b, polygon)
  {
    var pairs := PairwiseCircle(polygon);
    PairwiseCircleIs(polygon);
    for k := 0 to |pairs|
      invariant forall j | 0 <= j < k :: !MeetsEdge(a, b, polygon, j)
    {
      var vertex1, vertex2 := pairs[k].0.value, pairs[k].1.value;
      assert MeetsEdge(a, b, polygon, k) <==> SegmentsIntersect(a, b, vertex1, vertex2) by {
        IntersectIffMeet(a, b, vertex1, vertex2);
      }
      if SegmentsIntersect(a, b, vertex1, vertex2) {
        return true;
      }
    }
    meets := false;
  }
}
