/** The point-against-polygon test of the route planner: a ray to the right, and the parity of
    the edges it crosses. Coordinates are reals. */
module RayCasting {
  import opened Segments

  // ----- Crossings, geometrically -----

  /** One end is below the height, the other is not: each edge is open at its lower end. */
  predicate Straddles(y: real, p: Point, q: Point) {
    (p.y < y) != (q.y < y)
  }

  /** The edge has a point at height y with abscissa X. */
  ghost predicate HasPoint(p: Point, q: Point, X: real, y: real) {
    exists s :: Unit(s) && Along(p, q, s) == Point(X, y)
  }

  /** The half-open edge meets the ray from (x, y) to the right. */
  ghost predicate Crosses(x: real, y: real, p: Point, q: Point) {
    Straddles(y, p, q) && exists X :: X >= x && HasPoint(p, q, X, y)
  }

  /** The abscissa at height y of an edge that is not horizontal. */
  function Abscissa(y: real, p: Point, q: Point): real
    requires p.y != q.y
  {
    (y - p.y) * (q.x - p.x) / (q.y - p.y) + p.x
  }

  lemma RatioUnit(y: real, p: Point, q: Point)
    requires Straddles(y, p, q)
    ensures p.y != q.y && Unit((y - p.y) / (q.y - p.y)) && (y - p.y) / (q.y - p.y) * (q.y - p.y) == y - p.y
  {
    QuotientUnit(y - p.y, q.y - p.y);
  }

  lemma DivideLater(a: real, b: real, c: real)
    requires c != 0.0
    ensures a * b / c == a / c * b
  {
  }

  lemma SameQuotient(s: real, t: real, d: real, e: real)
    requires d != 0.0 && s * d == e && t * d == e
    ensures s == t
  {
    Cancel(d, s, t);
  }

  lemma AlongAt(p: Point, q: Point, s: real, X: real, y: real)
    requires s * (q.x - p.x) + p.x == X && s * (q.y - p.y) == y - p.y
    ensures Along(p, q, s) == Point(X, y)
  {
  }

  /** A straddling edge has exactly one point at the height. */
  lemma OnePoint(y: real, p: Point, q: Point, X: real)
    requires Straddles(y, p, q)
    ensures p.y != q.y && (HasPoint(p, q, X, y) <==> X == Abscissa(y, p, q))
  {
    RatioUnit(y, p, q);
    var s := (y - p.y) / (q.y - p.y);
    DivideLater(y - p.y, q.x - p.x, q.y - p.y);
    AlongAt(p, q, s, Abscissa(y, p, q), y);
    if t :| Unit(t) && Along(p, q, t) == Point(X, y) {
      SameQuotient(t, s, q.y - p.y, y - p.y);
    }
  }

  lemma CrossesAt(x: real, y: real, p: Point, q: Point)
    requires Straddles(y, p, q)
    ensures p.y != q.y && (Crosses(x, y, p, q) <==> x <= Abscissa(y, p, q))
  {
    RatioUnit(y, p, q);
    OnePoint(y, p, q, Abscissa(y, p, q));
    if Crosses(x, y, p, q) {
      var X :| X >= x && HasPoint(p, q, X, y);
      OnePoint(y, p, q, X);
    }
  }

  /** The abscissa does not pass the right end of the edge. */
  lemma AbscissaInside(y: real, p: Point, q: Point)
    requires Straddles(y, p, q)
    ensures p.y != q.y && Min(p.x, q.x) <= Abscissa(y, p, q) <= Max(p.x, q.x)
  {
    RatioUnit(y, p, q);
    DivideLater(y - p.y, q.x - p.x, q.y - p.y);
    ScaleWithin((y - p.y) / (q.y - p.y), q.x - p.x);
  }

  /** What one turn of the loop asks of an edge. */
  predicate Toggles(x: real, y: real, p1: Point, p2: Point) {
    && y > Min(p1.y, p2.y)
    && y <= Max(p1.y, p2.y)
    && x <= Max(p1.x, p2.x)
    && (p1.x == p2.x || p1.y == p2.y || x <= Abscissa(y, p1, p2))
  }

  lemma TogglesIffCrosses(x: real, y: real, p: Point, q: Point)
    ensures Toggles(x, y, p, q) <==> Crosses(x, y, p, q)
  {
    if Straddles(y, p, q) {
      CrossesAt(x, y, p, q);
      AbscissaInside(y, p, q);
    }
  }

  lemma FlipPoint(p: Point, q: Point, X: real, y: real)
    ensures HasPoint(p, q, X, y) ==> HasPoint(q, p, X, y)
  {
    if s :| Unit(s) && Along(p, q, s) == Point(X, y) {
      assert Along(q, p, 1.0 - s) == Point(X, y);
    }
  }

  lemma CrossesFlips(x: real, y: real, p: Point, q: Point)
    ensures Crosses(x, y, p, q) <==> Crosses(x, y, q, p)
  {
    forall X
      ensures HasPoint(p, q, X, y) <==> HasPoint(q, p, X, y)
    {
      FlipPoint(p, q, X, y);
      FlipPoint(q, p, X, y);
    }
  }

  // ----- Counting -----

  function Closed(poly: seq<Point>): (path: seq<Point>)
    requires |poly| > 0
    ensures |path| == |poly| + 1 && forall i | 0 <= i < |path| :: path[i] == poly[i % |poly|]
  {
    poly + [poly[0]]
  }

  /** Crossed edges of a path. */
  ghost function PathCrossings(x: real, y: real, path: seq<Point>): nat {
    if |path| < 2 then 0
    else (if Crosses(x, y, path[0], path[1]) then 1 else 0) + PathCrossings(x, y, path[1..])
  }

  /** Crossed edges of the closed polygon. */
  ghost function Crossings(x: real, y: real, poly: seq<Point>): nat
    requires |poly| > 0
  {
    PathCrossings(x, y, Closed(poly))
  }

  lemma {:induction false} PathSnoc(x: real, y: real, path: seq<Point>, p: Point)
    ensures PathCrossings(x, y, path + [p]) ==
            PathCrossings(x, y, path) + (if path != [] && Crosses(x, y, path[|path| - 1], p) then 1 else 0)
  {
    if |path| == 1 {
      assert (path + [p])[1..] == [p];
    } else if |path| > 1 {
      assert (path + [p])[1..] == path[1..] + [p];
      PathSnoc(x, y, path[1..], p);
    }
  }

  function Reversed(s: seq<Point>): (r: seq<Point>)
    ensures |r| == |s|
  {
    if s == [] then [] else Reversed(s[1..]) + [s[0]]
  }

  lemma ReversedLast(s: seq<Point>)
    requires s != []
    ensures Reversed(s)[|s| - 1] == s[0]
  {
  }

  lemma {:induction false} ReversedPath(x: real, y: real, path: seq<Point>)
    ensures PathCrossings(x, y, Reversed(path)) == PathCrossings(x, y, path)
  {
    if |path| == 1 {
      assert Reversed(path) == [path[0]];
    } else if |path| > 1 {
      var rest := path[1..];
      ReversedPath(x, y, rest);
      ReversedLast(rest);
      PathSnoc(x, y, Reversed(rest), path[0]);
      CrossesFlips(x, y, path[0], path[1]);
    }
  }

  lemma {:induction false} ReversedSnoc(s: seq<Point>, p: Point)
    ensures Reversed(s + [p]) == [p] + Reversed(s)
  {
    if s == [] {
      assert Reversed([p]) == Reversed([p][1..]) + [p];
      assert s + [p] == [p];
    } else {
      ReversedSnoc(s[1..], p);
      assert (s + [p])[1..] == s[1..] + [p];
    }
  }

  /** Starting the vertex list at the second vertex. */
  function Rotated(poly: seq<Point>): (r: seq<Point>)
    requires |poly| > 0
    ensures |r| == |poly|
  {
    poly[1..] + [poly[0]]
  }

  lemma RotationKeepsCrossings(x: real, y: real, poly: seq<Point>)
    requires |poly| > 0
    ensures Crossings(x, y, Rotated(poly)) == Crossings(x, y, poly)
  {
    var rotated := Rotated(poly);
    if |poly| == 1 {
      assert rotated == poly;
    } else {
      var path := Closed(poly);
      assert path[1..] == rotated;
      PathSnoc(x, y, rotated, rotated[0]);
      assert Closed(rotated) == rotated + [rotated[0]];
      assert rotated[|rotated| - 1] == poly[0] == path[0] && rotated[0] == path[1];
    }
  }

  /** Starting the vertex list at the k-th vertex. */
  function From(poly: seq<Point>, k: nat): (r: seq<Point>)
    requires k <= |poly|
    ensures |r| == |poly|
  {
    poly[k..] + poly[..k]
  }

  lemma {:induction false} AnyStartKeepsCrossings(x: real, y: real, poly: seq<Point>, k: nat)
    requires |poly| > 0 && k <= |poly|
    ensures Crossings(x, y, From(poly, k)) == Crossings(x, y, poly)
  {
    if k == 0 {
      assert From(poly, 0) == poly;
    } else {
      AnyStartKeepsCrossings(x, y, poly, k - 1);
      RotationKeepsCrossings(x, y, From(poly, k - 1));
      assert Rotated(From(poly, k - 1)) == From(poly, k);
    }
  }

  lemma ReversedIsRotated(poly: seq<Point>)
    requires |poly| > 0
    ensures Rotated([poly[0]] + Reversed(poly[1..])) == Reversed(poly)
  {
    var around := [poly[0]] + Reversed(poly[1..]);
    assert around[1..] == Reversed(poly[1..]);
  }

  lemma ReversedClosed(poly: seq<Point>)
    requires |poly| > 0
    ensures Closed([poly[0]] + Reversed(poly[1..])) == Reversed(Closed(poly))
  {
    ReversedSnoc(poly, poly[0]);
  }

  lemma ReversalKeepsCrossings(x: real, y: real, poly: seq<Point>)
    requires |poly| > 0
    ensures Crossings(x, y, Reversed(poly)) == Crossings(x, y, poly)
  {
    var around := [poly[0]] + Reversed(poly[1..]);
    ReversedIsRotated(poly);
    RotationKeepsCrossings(x, y, around);
    ReversedClosed(poly);
    ReversedPath(x, y, Closed(poly));
  }

  // ----- Outside the bounding box -----

  /** Height changes along a path are as many as its ends differ, modulo two. */
  ghost function Changes(y: real, path: seq<Point>): nat {
    if |path| < 2 then 0
    else (if Straddles(y, path[0], path[1]) then 1 else 0) + Changes(y, path[1..])
  }

  lemma {:induction false} ChangesParity(y: real, path: seq<Point>)
    requires |path| > 0
    ensures Changes(y, path) % 2 == if Straddles(y, path[0], path[|path| - 1]) then 1 else 0
  {
    if |path| > 1 {
      ChangesParity(y, path[1..]);
    }
  }

  /** All vertices are to the right of the point: every straddling edge is crossed. */
  lemma {:induction false} LeftOfAll(x: real, y: real, path: seq<Point>)
    requires forall p | p in path :: x <= p.x
    ensures PathCrossings(x, y, path) == Changes(y, path)
  {
    if |path| > 1 {
      LeftOfAll(x, y, path[1..]);
      var p, q := path[0], path[1];
      assert p in path && q in path;
      if Straddles(y, p, q) {
        CrossesAt(x, y, p, q);
        AbscissaInside(y, p, q);
      }
    }
  }

  lemma {:induction false} NoneCrossed(x: real, y: real, path: seq<Point>)
    requires (forall p | p in path :: p.x < x) || (forall p | p in path :: p.y < y) || (forall p | p in path :: y <= p.y)
    ensures PathCrossings(x, y, path) == 0
  {
    if |path| > 1 {
      NoneCrossed(x, y, path[1..]);
      var p, q := path[0], path[1];
      assert p in path && q in path;
      if Straddles(y, p, q) {
        CrossesAt(x, y, p, q);
        AbscissaInside(y, p, q);
      }
    }
  }

  /** The point is strictly beyond one side of the bounding box (or level with its lower side). */
  predicate OutsideBox(x: real, y: real, poly: seq<Point>) {
    || (forall p | p in poly :: p.x < x)
    || (forall p | p in poly :: x < p.x)
    || (forall p | p in poly :: p.y < y)
    || (forall p | p in poly :: y <= p.y)
  }

  /** Outside the bounding box of any polygon, also one that crosses itself, the parity is even. */
  lemma OutsideIsEven(x: real, y: real, poly: seq<Point>)
    requires |poly| > 0 && OutsideBox(x, y, poly)
    ensures Crossings(x, y, poly) % 2 == 0
  {
    var path := Closed(poly);
    assert forall p :: p in path <==> p in poly;
    if forall p | p in poly :: x < p.x {
      LeftOfAll(x, y, path);
      ChangesParity(y, path);
    } else {
      NoneCrossed(x, y, path);
    }
  }

  // ----- The code -----

  /** The body of the loop: the flag changes exactly at a crossed edge. */
  method OneEdge(x: real, y: real, p1: Point, p2: Point, before: bool) returns (inside: bool)
    ensures inside <==> before != Crosses(x, y, p1, p2)
  {
    inside := before;
    var xints := 0.0;
    if y > Min(p1.y, p2.y) {
      if y <= Max(p1.y, p2.y) {
        if x <= Max(p1.x, p2.x) {
          if p1.y != p2.y {
            xints := Abscissa(y, p1, p2);
          }
          if p1.x == p2.x || x <= xints {
            inside := !inside;
          }
        }
      }
    }
    TogglesIffCrosses(x, y, p1, p2);
  }

  lemma NextEdge(x: real, y: real, path: seq<Point>, i: nat)
    requires i < |path|
    ensures PathCrossings(x, y, path[..i + 1]) ==
            PathCrossings(x, y, path[..i]) + (if i > 0 && Crosses(x, y, path[i - 1], path[i]) then 1 else 0)
  {
    assert path[..i + 1] == path[..i] + [path[i]];
    PathSnoc(x, y, path[..i], path[i]);
  }

  /** The source reads poly[0] first, so it needs a vertex. */
  method NotColides(x: real, y: real, poly: seq<Point>) returns (inside: bool)
    requires |poly| > 0
    ensures inside <==> Crossings(x, y, poly) % 2 == 0
    ensures forall k | 0 <= k <= |poly| :: inside <==> Crossings(x, y, From(poly, k)) % 2 == 0
    ensures inside <==> Crossings(x, y, Reversed(poly)) % 2 == 0
    ensures OutsideBox(x, y, poly) ==> inside
  {
    var n := |poly|;
    inside := true;
    var p1 := poly[0];
    ghost var path := Closed(poly);
    for i := 0 to n + 1
      invariant p1 == if i == 0 then poly[0] else path[i - 1]
      invariant inside <==> PathCrossings(x, y, path[..i]) % 2 == 0
    {
      var p2 := poly[i % n];
      inside := OneEdge(x, y, p1, p2, inside);
      NextEdge(x, y, path, i);
      p1 := p2;
    }
    assert path[..n + 1] == path;
    forall k | 0 <= k <= |poly|
      ensures inside <==> Crossings(x, y, From(poly, k)) % 2 == 0
    {
      AnyStartKeepsCrossings(x, y, poly, k);
    }
    ReversalKeepsCrossings(x, y, poly);
    if OutsideBox(x, y, poly) {
      OutsideIsEven(x, y, poly);
    }
  }
}
