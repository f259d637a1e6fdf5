/** The tree builder of the route planner: nodes with parent links and costs, the choice of the
    parent, the best node so far, and the walk back that writes the route. Distance is any
    metric, the random points are any points. */
module RrtStar {
  import opened Segments
  import opened RayCasting

  const NEIGHBORHOOD := 10.0
  const GoalRange := 10.0
  const NoCost := 9999999.0
  const Origin := Point(0.0, 0.0)

  /** The collision test reads the first vertex, so an obstacle has one. */
  type Polygon = p: seq<Point> | |p| > 0 witness [Origin]

  type Distance = (Point, Point) -> real

  ghost predicate Metric(dist: Distance) {
    && (forall p :: dist(p, p) == 0.0)
    && (forall p, q :: dist(p, q) >= 0.0 && dist(p, q) == dist(q, p))
    && (forall p, q, r {:trigger dist(p, q), dist(q, r)} :: dist(p, r) <= dist(p, q) + dist(q, r))
  }

  class Node {
    var point: Point
    var parent: Node?
    var cost: real

    constructor (point: Point, parent: Node?, cost: real)
      ensures this.point == point && this.parent == parent && this.cost == cost
    {
      this.point, this.parent, this.cost := point, parent, cost;
    }

    method SetParent(newparent: Node)
      modifies this`parent
      ensures parent == newparent
    {
      parent := newparent;
    }

    method SetCost(newcost: real)
      modifies this`cost
      ensures cost == newcost
    {
      cost := newcost;
    }
  }

  // ----- The tree -----

  /** The k-th node hangs below the j-th, which came earlier, and pays for the edge. */
  ghost predicate Below(dist: Distance, nodes: seq<Node>, k: nat, j: nat)
    requires k < |nodes|
    reads nodes
  {
    j < k && nodes[k].parent == nodes[j] && nodes[k].cost == nodes[j].cost + dist(nodes[k].point, nodes[j].point)
  }

  ghost predicate HasParent(dist: Distance, nodes: seq<Node>, k: nat)
    requires k < |nodes|
    reads nodes
  {
    exists j: nat :: Below(dist, nodes, k, j)
  }

  ghost predicate Tree(dist: Distance, nodes: seq<Node>)
    reads nodes
  {
    && |nodes| > 0 && nodes[0].parent == null && nodes[0].cost == 0.0
    && forall k | 0 < k < |nodes| :: HasParent(dist, nodes, k)
  }

  ghost function ParentIndex(dist: Distance, nodes: seq<Node>, k: nat): (j: nat)
    requires Tree(dist, nodes) && 0 < k < |nodes|
    reads nodes
    ensures Below(dist, nodes, k, j)
  {
    assert HasParent(dist, nodes, k);
    var j: nat :| Below(dist, nodes, k, j);
    j
  }

  /** The points from the root's child down to the node, the root left out. */
  ghost function ChainOf(dist: Distance, nodes: seq<Node>, k: nat): seq<Point>
    requires Tree(dist, nodes) && k < |nodes|
    reads nodes
  {
    if k == 0 then [] else ChainOf(dist, nodes, ParentIndex(dist, nodes, k)) + [nodes[k].point]
  }

  function Length(dist: Distance, from: Point, path: seq<Point>): real {
    if path == [] then 0.0
    else
      var n := |path| - 1;
      Length(dist, from, path[..n]) + dist(path[n], if n == 0 then from else path[n - 1])
  }

  lemma {:induction false} ChainEnds(dist: Distance, nodes: seq<Node>, k: nat)
    requires Tree(dist, nodes) && k < |nodes|
    ensures k > 0 ==> ChainOf(dist, nodes, k) != [] &&
                      ChainOf(dist, nodes, k)[|ChainOf(dist, nodes, k)| - 1] == nodes[k].point
  {
  }

  /** A node's cost is the length of its chain from the root. */
  lemma {:induction false} CostIsChainLength(dist: Distance, nodes: seq<Node>, k: nat)
    requires Tree(dist, nodes) && k < |nodes|
    ensures nodes[k].cost == Length(dist, nodes[0].point, ChainOf(dist, nodes, k))
  {
    if k > 0 {
      var j := ParentIndex(dist, nodes, k);
      CostIsChainLength(dist, nodes, j);
      ChainEnds(dist, nodes, j);
      var chain := ChainOf(dist, nodes, k);
      assert chain[..|chain| - 1] == ChainOf(dist, nodes, j);
    }
  }

  /** No node is cheaper than its straight distance from the root. */
  lemma {:induction false} CostAtLeastDistance(dist: Distance, nodes: seq<Node>, k: nat)
    requires Metric(dist) && Tree(dist, nodes) && k < |nodes|
    ensures nodes[k].cost >= dist(nodes[k].point, nodes[0].point)
  {
    if k > 0 {
      var j := ParentIndex(dist, nodes, k);
      CostAtLeastDistance(dist, nodes, j);
      assert dist(nodes[k].point, nodes[0].point) <=
             dist(nodes[k].point, nodes[j].point) + dist(nodes[j].point, nodes[0].point);
    }
  }

  lemma TreeGrows(dist: Distance, nodes: seq<Node>, node: Node, j: nat)
    requires Tree(dist, nodes) && j < |nodes| && node.parent == nodes[j]
    requires node.cost == nodes[j].cost + dist(node.point, nodes[j].point)
    ensures Tree(dist, nodes + [node])
  {
    var grown := nodes + [node];
    forall k | 0 < k < |grown|
      ensures HasParent(dist, grown, k)
    {
      if k < |nodes| {
        assert HasParent(dist, nodes, k);
        var i: nat :| Below(dist, nodes, k, i);
        assert Below(dist, grown, k, i);
      } else {
        assert Below(dist, grown, k, j);
      }
    }
  }

  // ----- One sample -----

  ghost predicate Nearest(dist: Distance, nodes: seq<Node>, rand: Point, i: nat)
    requires i < |nodes|
    reads nodes
  {
    forall k | 0 <= k < |nodes| :: dist(nodes[i].point, rand) <= dist(nodes[k].point, rand)
  }

  method NearestNode(dist: Distance, nodes: seq<Node>, rand: Point) returns (nn: Node, ghost i: nat)
    requires |nodes| > 0
    ensures i < |nodes| && nn == nodes[i] && Nearest(dist, nodes, rand, i)
    ensures nn in nodes && forall t | t in nodes :: dist(nn.point, rand) <= dist(t.point, rand)
  {
    nn, i := nodes[0], 0;
    for k := 0 to |nodes|
      invariant i < |nodes| && nn == nodes[i]
      invariant forall l | 0 <= l < k :: dist(nn.point, rand) <= dist(nodes[l].point, rand)
    {
      if dist(nodes[k].point, rand) < dist(nn.point, rand) {
        nn, i := nodes[k], k;
      }
    }
  }

  /** What hanging the point below the node would cost. */
  ghost function CostBelow(dist: Distance, point: Point, t: Node): real
    reads t
  {
    t.cost + dist(point, t.point)
  }

  /** The j-th node is the cheapest parent among the nearest node i and all close nodes. */
  ghost predicate BestParent(dist: Distance, nodes: seq<Node>, point: Point, i: nat, j: nat)
    requires i < |nodes| && j < |nodes|
    reads nodes
  {
    && (j == i || dist(nodes[j].point, point) < NEIGHBORHOOD)
    && CostBelow(dist, point, nodes[j]) <= CostBelow(dist, point, nodes[i])
    && forall k | 0 <= k < |nodes| && dist(nodes[k].point, point) < NEIGHBORHOOD ::
         CostBelow(dist, point, nodes[j]) <= CostBelow(dist, point, nodes[k])
  }

  /** A new node towards the sample, hung below the cheapest of the nearest and the close nodes. */
  method NewNode(dist: Distance, step: (Point, Point) -> Point, nodes: seq<Node>, rand: Point)
    returns (node: Node, ghost i: nat, ghost j: nat)
    requires |nodes| > 0
    ensures fresh(node) && i < |nodes| && j < |nodes|
    ensures Nearest(dist, nodes, rand, i) && node.point == step(nodes[i].point, rand)
    ensures node.parent == nodes[j] && node.cost == CostBelow(dist, node.point, nodes[j])
    ensures BestParent(dist, nodes, node.point, i, j)
    ensures j == i || dist(nodes[j].point, node.point) < 10.0
    ensures forall k | 0 <= k < |nodes| && dist(nodes[k].point, node.point) < 10.0 ::
              node.cost <= nodes[k].cost + dist(node.point, nodes[k].point)
  {
    var nn;
    nn, i := NearestNode(dist, nodes, rand);
    var newnode := step(nn.point, rand);
    node := new Node(newnode, nn, nn.cost + dist(newnode, nn.point));
    j := i;
    for k := 0 to |nodes|
      invariant fresh(node) && node !in nodes && j < |nodes| && node.point == newnode
      invariant node.parent == nodes[j] && node.cost == CostBelow(dist, newnode, nodes[j])
      invariant j == i || dist(nodes[j].point, newnode) < NEIGHBORHOOD
      invariant node.cost <= CostBelow(dist, newnode, nodes[i])
      invariant forall l | 0 <= l < k && dist(nodes[l].point, newnode) < NEIGHBORHOOD ::
                  node.cost <= CostBelow(dist, newnode, nodes[l])
    {
      var t := nodes[k];
      if dist(t.point, node.point) < NEIGHBORHOOD && node.cost > t.cost + dist(node.point, t.point) {
        node.SetParent(t);
        node.SetCost(t.cost + dist(node.point, t.point));
        j := k;
      }
    }
  }

  /** The point is outside every obstacle. */
  ghost predicate Free(p: Point, obstacles: seq<Polygon>)
  {
    forall q | 0 <= q < |obstacles| :: Crossings(p.x, p.y, obstacles[q]) % 2 == 0
  }

  method IsFree(p: Point, obstacles: seq<Polygon>) returns (free: bool)
    ensures free <==> Free(p, obstacles)
  {
    var colision := 0;
    for q := 0 to |obstacles|
      invariant 0 <= colision <= q
      invariant colision == q <==> forall k | 0 <= k < q :: Crossings(p.x, p.y, obstacles[k]) % 2 == 0
    {
      var outside := NotColides(p.x, p.y, obstacles[q]);
      if outside {
        colision := colision + 1;
      }
    }
    free := colision >= |obstacles|;
  }

  // ----- The route -----

  datatype Line = Waypoint(point: Point) | GoalLine

  function Waypoints(chain: seq<Point>): (lines: seq<Line>)
    ensures |lines| == |chain| && forall k | 0 <= k < |chain| :: lines[k] == Waypoint(chain[k])
  {
    seq(|chain|, k requires 0 <= k < |chain| => Waypoint(chain[k]))
  }

  function Backwards(lines: seq<Line>): (r: seq<Line>)
    ensures |r| == |lines| && forall k | 0 <= k < |lines| :: r[k] == lines[|lines| - 1 - k]
  {
    seq(|lines|, k requires 0 <= k < |lines| => lines[|lines| - 1 - k])
  }

  lemma OneStepBack(chain: seq<Point>, p: Point, lines: seq<Line>)
    ensures Waypoints(chain + [p]) + Backwards(lines) == Waypoints(chain) + Backwards(lines + [Waypoint(p)])
  {
  }

  lemma OnlyRootIsLoose(dist: Distance, nodes: seq<Node>, k: nat)
    requires Tree(dist, nodes) && k < |nodes|
    ensures nodes[k].parent == null <==> k == 0
  {
    if k > 0 {
      assert HasParent(dist, nodes, k);
    }
  }

  /** Walk back from the best node. The lines are written backwards without the last one, which
      is the goal: the chain in root-to-goal order without the root. */
  method WriteRoute(dist: Distance, nodes: seq<Node>, best: Node, ghost k0: nat) returns (written: seq<Line>)
    requires Tree(dist, nodes) && k0 < |nodes| && best == nodes[k0]
    ensures written == Waypoints(ChainOf(dist, nodes, k0))
  {
    var linhas: seq<Line> := [];
    var node := best;
    ghost var k: nat := k0;
    while node.parent != null
      invariant k < |nodes| && node == nodes[k]
      invariant Waypoints(ChainOf(dist, nodes, k)) + Backwards(linhas) == Waypoints(ChainOf(dist, nodes, k0))
      decreases k
    {
      ghost var j := ParentIndex(dist, nodes, k);
      OneStepBack(ChainOf(dist, nodes, j), nodes[k].point, linhas);
      linhas := linhas + [Waypoint(node.point)];
      node := node.parent;
      k := j;
    }
    OnlyRootIsLoose(dist, nodes, k);
    linhas := linhas + [GoalLine];
    written := [];
    for w := 1 to |linhas|
      invariant written == Backwards(linhas[..|linhas| - 1])[..w - 1]
    {
      written := written + [linhas[|linhas| - 1 - w]];
    }
  }

  // ----- The main loop -----

  /** A random point, and whether the time is up after it. */
  datatype Sample = Sample(rand: Point, late: bool)

  datatype Outcome =
    | Written(lines: seq<Line>)
    | Crashed                          // a route is asked of the starting best node, which is in no tree
    | NotFound
    | OutOfSamples

  /** The first cheapest node so far within range of the goal; none if all such cost NoCost or more. */
  ghost predicate IsBest(dist: Distance, nodes: seq<Node>, goal: Point, best: Node, found: bool, b: nat)
    reads nodes, best
  {
    if found then
      && 0 < b < |nodes| && best == nodes[b] && dist(best.point, goal) < GoalRange && best.cost < NoCost
      && (forall k | 0 < k < |nodes| && dist(nodes[k].point, goal) < GoalRange :: best.cost <= nodes[k].cost)
      && (forall k | 0 < k < b && dist(nodes[k].point, goal) < GoalRange :: best.cost < nodes[k].cost)
    else
      && best.parent == null && best.point == Origin && best.cost == NoCost
      && forall k | 0 < k < |nodes| && dist(nodes[k].point, goal) < GoalRange :: nodes[k].cost >= NoCost
  }

  /** The step from a nearest node towards the sample ends in an obstacle. */
  ghost predicate BlockedFrom(dist: Distance, step: (Point, Point) -> Point, obstacles: seq<Polygon>, nodes: seq<Node>,
                              rand: Point, i: nat)
    reads nodes
  {
    i < |nodes| && Nearest(dist, nodes, rand, i) && !Free(step(nodes[i].point, rand), obstacles)
  }

  ghost predicate ChosenFrom(dist: Distance, step: (Point, Point) -> Point, nodes: seq<Node>, rand: Point, node: Node, i: nat, j: nat)
    reads nodes, node
  {
    && i < |nodes| && j < |nodes| && Nearest(dist, nodes, rand, i) && node.point == step(nodes[i].point, rand)
    && node.parent == nodes[j] && BestParent(dist, nodes, node.point, i, j)
  }

  /** The new node: a step from the nearest towards the sample, below the best parent. */
  ghost predicate Chosen(dist: Distance, step: (Point, Point) -> Point, nodes: seq<Node>, rand: Point, node: Node)
    reads nodes, node
  {
    exists i: nat, j: nat :: ChosenFrom(dist, step, nodes, rand, node, i, j)
  }

  /** The tree after one sample: with a free node chosen for it, or as before if blocked. */
  ghost predicate Grown(dist: Distance, step: (Point, Point) -> Point, obstacles: seq<Polygon>, nodes: seq<Node>,
                        rand: Point, nodes': seq<Node>)
    reads nodes, nodes'
  {
    if nodes' == nodes then exists i: nat :: BlockedFrom(dist, step, obstacles, nodes, rand, i)
    else
      && |nodes'| == |nodes| + 1 && nodes'[..|nodes|] == nodes
      && Free(nodes'[|nodes|].point, obstacles) && Chosen(dist, step, nodes, rand, nodes'[|nodes|])
  }

  /** One sample: the chosen node joins the tree if it is free, and may become the best node. */
  method Grow(dist: Distance, step: (Point, Point) -> Point, obstacles: seq<Polygon>, goal: Point, nodes: seq<Node>,
              best: Node, rand: Point, ghost found: bool, ghost b: nat)
    returns (nodes': seq<Node>, best': Node, ghost found': bool, ghost b': nat)
    requires Tree(dist, nodes) && IsBest(dist, nodes, goal, best, found, b)
    ensures Tree(dist, nodes') && IsBest(dist, nodes', goal, best', found', b')
    ensures Grown(dist, step, obstacles, nodes, rand, nodes')
  {
    nodes', best', found', b' := nodes, best, found, b;
    var node, i, j := NewNode(dist, step, nodes, rand);
    var free := IsFree(node.point, obstacles);
    if free {
      nodes' := nodes + [node];
      TreeGrows(dist, nodes, node, j);
      assert ChosenFrom(dist, step, nodes, rand, node, i, j);
      if dist(node.point, goal) < GoalRange {
        if node.cost < best.cost {
          best', found', b' := node, true, |nodes|;
        }
      }
    } else {
      assert BlockedFrom(dist, step, obstacles, nodes, rand, i);
    }
  }

  /** The tree is the root, grown by the first n samples in turn; sizes are its sizes on the way. */
  ghost predicate GrownBy(dist: Distance, step: (Point, Point) -> Point, obstacles: seq<Polygon>, nodes: seq<Node>,
                          samples: seq<Sample>, n: nat, sizes: seq<nat>)
    reads nodes
  {
    && n <= |samples| && |sizes| == n + 1 && sizes[0] == 1 && sizes[n] == |nodes|
    && (forall m | 0 <= m <= n :: sizes[m] <= |nodes|)
    && forall m | 0 <= m < n ::
         Grown(dist, step, obstacles, nodes[..sizes[m]], samples[m].rand, nodes[..sizes[m + 1]])
  }

  lemma OneSampleMore(dist: Distance, step: (Point, Point) -> Point, obstacles: seq<Polygon>, nodes: seq<Node>,
                      nodes': seq<Node>, samples: seq<Sample>, n: nat, sizes: seq<nat>)
    requires n < |samples| && GrownBy(dist, step, obstacles, nodes, samples, n, sizes)
    requires Grown(dist, step, obstacles, nodes, samples[n].rand, nodes')
    ensures GrownBy(dist, step, obstacles, nodes', samples, n + 1, sizes + [|nodes'|])
  {
    var more := sizes + [|nodes'|];
    assert nodes'[..|nodes|] == nodes && nodes'[..|nodes'|] == nodes';
    forall m | 0 <= m < n + 1
      ensures Grown(dist, step, obstacles, nodes'[..more[m]], samples[m].rand, nodes'[..more[m + 1]])
    {
      if m < n {
        assert nodes'[..sizes[m]] == nodes[..sizes[m]] && nodes'[..sizes[m + 1]] == nodes[..sizes[m + 1]];
      }
    }
  }

  ghost predicate NoneInRange(dist: Distance, nodes: seq<Node>, goal: Point)
    reads nodes
  {
    forall k | 0 < k < |nodes| && dist(nodes[k].point, goal) < GoalRange :: nodes[k].cost >= NoCost
  }

  /** What an outcome says about the nodes; b is the node whose route is written. */
  ghost predicate Decided(dist: Distance, nodes: seq<Node>, goal: Point, outcome: Outcome, b: nat)
    requires Tree(dist, nodes)
    reads nodes
  {
    match outcome
    case Written(lines) =>
      && 0 < b < |nodes| && dist(nodes[b].point, goal) < GoalRange && nodes[b].cost < NoCost
      && lines == Waypoints(ChainOf(dist, nodes, b))
      && (forall k | 0 < k < |nodes| && dist(nodes[k].point, goal) < GoalRange :: nodes[b].cost <= nodes[k].cost)
      && (forall k | 0 < k < b && dist(nodes[k].point, goal) < GoalRange :: nodes[b].cost < nodes[k].cost)
    case Crashed => dist(Origin, goal) < GoalRange && NoneInRange(dist, nodes, goal)
    case NotFound => dist(Origin, goal) >= GoalRange && NoneInRange(dist, nodes, goal)
    case OutOfSamples => true
  }

  /** Time is up. */
  method Finish(dist: Distance, nodes: seq<Node>, goal: Point, best: Node, ghost found: bool, ghost b: nat)
    returns (outcome: Outcome)
    requires Tree(dist, nodes) && IsBest(dist, nodes, goal, best, found, b)
    ensures Decided(dist, nodes, goal, outcome, b) && !outcome.OutOfSamples?
  {
    if found {
      OnlyRootIsLoose(dist, nodes, b);
    }
    if dist(best.point, goal) < GoalRange {
      if best.parent == null {
        outcome := Crashed;
      } else {
        var lines := WriteRoute(dist, nodes, best, b);
        outcome := Written(lines);
      }
    } else {
      outcome := NotFound;
    }
  }

  /** The state of the loop after n samples: a tree with its best node, grown from the root by
      just these samples. Kept closed, as a proof that only chains samples need not look inside. */
  datatype Key = SearchKey

  predicate Opened(key: Key) {
    true
  }

  /** What is searched, and by which metric and step. */
  datatype Task = Task(dist: Distance, step: (Point, Point) -> Point, obstacles: seq<Polygon>, goal: Point,
                       samples: seq<Sample>)

  ghost predicate Searched(task: Task, nodes: seq<Node>, sizes: seq<nat>, n: nat)
    reads nodes
  {
    && Tree(task.dist, nodes) && nodes[0].point == Origin
    && GrownBy(task.dist, task.step, task.obstacles, nodes, task.samples, n, sizes)
  }

  ghost predicate Searching(task: Task, nodes: seq<Node>, best: Node, found: bool, b: nat, sizes: seq<nat>, n: nat)
    reads nodes, best
  {
    forall key {:trigger Opened(key)} | Opened(key) && key == SearchKey ::
      Searched(task, nodes, sizes, n) && IsBest(task.dist, nodes, task.goal, best, found, b)
  }

  method StartTree(task: Task) returns (nodes: seq<Node>, best: Node)
    ensures Searching(task, nodes, best, false, 0, [1], 0)
  {
    var root := new Node(Origin, null, 0.0);
    best := new Node(Origin, null, NoCost);
    nodes := [root];
  }

  /** The n-th sample of the loop. */
  method TakeSample(task: Task, nodes: seq<Node>, best: Node, n: nat, ghost found: bool, ghost b: nat, ghost sizes: seq<nat>)
    returns (nodes': seq<Node>, best': Node, ghost found': bool, ghost b': nat, ghost sizes': seq<nat>)
    requires n < |task.samples| && Searching(task, nodes, best, found, b, sizes, n)
    ensures Searching(task, nodes', best', found', b', sizes', n + 1)
  {
    assert Opened(SearchKey);
    nodes', best', found', b' :=
      Grow(task.dist, task.step, task.obstacles, task.goal, nodes, best, task.samples[n].rand, found, b);
    OneSampleMore(task.dist, task.step, task.obstacles, nodes, nodes', task.samples, n, sizes);
    sizes' := sizes + [|nodes'|];
  }

  predicate NoneLate(samples: seq<Sample>, n: nat) {
    n <= |samples| && forall k | 0 <= k < n :: !samples[k].late
  }

  /** Which samples were taken: up to the first late one, or all. */
  predicate Stops(samples: seq<Sample>, outcome: Outcome, n: nat) {
    n <= |samples| &&
    if outcome.OutOfSamples? then n == |samples| && NoneLate(samples, n)
    else n > 0 && NoneLate(samples, n - 1) && samples[n - 1].late
  }

  /** The loop has stopped: n samples were taken. */
  ghost predicate Stopped(task: Task, outcome: Outcome, nodes: seq<Node>, b: nat, sizes: seq<nat>, n: nat)
    reads nodes
  {
    Searched(task, nodes, sizes, n) && Stops(task.samples, outcome, n) && Decided(task.dist, nodes, task.goal, outcome, b)
  }

  /** The same, kept closed for the loop. */
  ghost predicate HasStopped(task: Task, outcome: Outcome, nodes: seq<Node>, b: nat, sizes: seq<nat>, n: nat)
    reads nodes
  {
    forall key {:trigger Opened(key)} | Opened(key) && key == SearchKey :: Stopped(task, outcome, nodes, b, sizes, n)
  }

  method StopLate(task: Task, nodes: seq<Node>, best: Node, n: nat, ghost found: bool, ghost b: nat, ghost sizes: seq<nat>)
    returns (outcome: Outcome)
    requires 0 < n <= |task.samples| && Searching(task, nodes, best, found, b, sizes, n)
    requires NoneLate(task.samples, n - 1) && task.samples[n - 1].late
    ensures HasStopped(task, outcome, nodes, b, sizes, n) && !outcome.OutOfSamples?
  {
    assert Opened(SearchKey);
    outcome := Finish(task.dist, nodes, task.goal, best, found, b);
  }

  lemma StopUnfinished(task: Task, nodes: seq<Node>, best: Node, found: bool, b: nat, sizes: seq<nat>)
    requires Searching(task, nodes, best, found, b, sizes, |task.samples|) && NoneLate(task.samples, |task.samples|)
    ensures HasStopped(task, OutOfSamples, nodes, b, sizes, |task.samples|)
  {
    assert Opened(SearchKey);
  }

  /** One turn of the loop: a sample, and the end if the time is up after it. */
  method Turn(task: Task, nodes: seq<Node>, best: Node, k: nat, ghost found: bool, ghost b: nat, ghost sizes: seq<nat>)
    returns (outcome: Outcome, nodes': seq<Node>, best': Node, ghost found': bool, ghost b': nat, ghost sizes': seq<nat>)
    requires k < |task.samples| && Searching(task, nodes, best, found, b, sizes, k) && NoneLate(task.samples, k)
    ensures if outcome.OutOfSamples? then Searching(task, nodes', best', found', b', sizes', k + 1) && NoneLate(task.samples, k + 1)
            else HasStopped(task, outcome, nodes', b', sizes', k + 1)
  {
    nodes', best', found', b', sizes' := TakeSample(task, nodes, best, k, found, b, sizes);
    outcome := OutOfSamples;
    if task.samples[k].late {
      outcome := StopLate(task, nodes', best', k + 1, found', b', sizes');
    }
  }

  /** One node after the other until the time is up or the samples are used. */
  method GrowTree(task: Task) returns (outcome: Outcome, ghost nodes: seq<Node>, ghost b: nat, ghost sizes: seq<nat>, ghost n: nat)
    ensures HasStopped(task, outcome, nodes, b, sizes, n)
  {
    var tree, best := StartTree(task);
    ghost var found := false;
    b, sizes := 0, [1];
    for k := 0 to |task.samples|
      invariant Searching(task, tree, best, found, b, sizes, k) && NoneLate(task.samples, k)
    {
      outcome, tree, best, found, b, sizes := Turn(task, tree, best, k, found, b, sizes);
      if !outcome.OutOfSamples? {
        return outcome, tree, b, sizes, k + 1;
      }
    }
    StopUnfinished(task, tree, best, found, b, sizes);
    return OutOfSamples, tree, b, sizes, |task.samples|;
  }

  /** For every sequence of samples: the nodes form a tree, grown sample by sample from the root,
      and when time is up the route of the cheapest node near the goal is written, root to goal. If
      none was found, the planner says so, except that it fails on its placeholder when the goal is
      within range of the origin. n samples are taken: all, or those up to the first late one. */
  method Plan(task: Task) returns (outcome: Outcome, ghost nodes: seq<Node>, ghost b: nat, ghost sizes: seq<nat>, ghost n: nat)
    ensures Stopped(task, outcome, nodes, b, sizes, n)
    ensures outcome.OutOfSamples? <==> NoneLate(task.samples, |task.samples|)
    ensures nodes[0].point == Point(0.0, 0.0) && nodes[0].cost == 0.0
    ensures outcome.Written? ==> 0 < b < |nodes| && task.dist(nodes[b].point, task.goal) < 10.0 && nodes[b].cost < 9999999.0
    ensures outcome.Written? ==> outcome.lines != [] && outcome.lines[|outcome.lines| - 1] == Waypoint(nodes[b].point)
    ensures outcome.Crashed? ==> task.dist(Point(0.0, 0.0), task.goal) < 10.0
    ensures outcome.NotFound? ==> task.dist(Point(0.0, 0.0), task.goal) >= 10.0
    ensures outcome.Crashed? || outcome.NotFound? ==>
              forall k | 0 < k < |nodes| && nodes[k].cost < 9999999.0 :: task.dist(nodes[k].point, task.goal) >= 10.0
  {
    outcome, nodes, b, sizes, n := GrowTree(task);
    assert Opened(SearchKey);
    if outcome.Written? {
      ChainEnds(task.dist, nodes, b);
    }
  }

  // ----- The placeholder -----

  lemma GrownOfRoot(dist: Distance, step: (Point, Point) -> Point, obstacles: seq<Polygon>, root: seq<Node>, rand: Point,
                    nodes: seq<Node>)
    requires |root| == 1 && Grown(dist, step, obstacles, root, rand, nodes)
    ensures nodes == root || Free(step(root[0].point, rand), obstacles)
  {
    if nodes != root {
      var i: nat, j: nat :| ChosenFrom(dist, step, root, rand, nodes[1], i, j);
    }
  }

  /** With one sample, late and blocked, only the root is there. */
  lemma OnlyRoot(task: Task, outcome: Outcome, nodes: seq<Node>, b: nat, sizes: seq<nat>, n: nat)
    requires Stopped(task, outcome, nodes, b, sizes, n) && !outcome.OutOfSamples?
    requires |task.samples| == 1 && !Free(task.step(Origin, task.samples[0].rand), task.obstacles)
    ensures |nodes| == 1
  {
    var root, rand := nodes[..1], task.samples[0].rand;
    assert n == 1 && nodes[..sizes[1]] == nodes && nodes[..sizes[0]] == root && root[0] == nodes[0];
    GrownOfRoot(task.dist, task.step, task.obstacles, root, rand, nodes);
  }

  /** Then, with the goal in range of the origin, the route is asked of the starting best node. */
  lemma PlaceholderAsked(task: Task, outcome: Outcome, nodes: seq<Node>, b: nat, sizes: seq<nat>, n: nat)
    requires Stopped(task, outcome, nodes, b, sizes, n) && !outcome.OutOfSamples?
    requires |task.samples| == 1 && !Free(task.step(Origin, task.samples[0].rand), task.obstacles)
    requires task.dist(Origin, task.goal) < GoalRange
    ensures outcome == Crashed
  {
    OnlyRoot(task, outcome, nodes, b, sizes, n);
  }

  lemma OneEdge(x: real, y: real, p: Point, q: Point, rest: seq<Point>)
    ensures PathCrossings(x, y, [p, q] + rest) ==
            (if Toggles(x, y, p, q) then 1 else 0) + PathCrossings(x, y, [q] + rest)
  {
    TogglesIffCrosses(x, y, p, q);
    assert ([p, q] + rest)[1..] == [q] + rest;
  }

  lemma FourEdges(x: real, y: real, a: Point, b: Point, c: Point, d: Point)
    ensures Crossings(x, y, [a, b, c, d]) ==
            (if Toggles(x, y, a, b) then 1 else 0) + (if Toggles(x, y, b, c) then 1 else 0) +
            (if Toggles(x, y, c, d) then 1 else 0) + (if Toggles(x, y, d, a) then 1 else 0)
  {
    assert Closed([a, b, c, d]) == [a, b] + [c, d, a];
    OneEdge(x, y, a, b, [c, d, a]);
    assert [b] + [c, d, a] == [b, c] + [d, a];
    OneEdge(x, y, b, c, [d, a]);
    assert [c] + [d, a] == [c, d] + [a];
    OneEdge(x, y, c, d, [a]);
    assert [d] + [a] == [d, a] + [];
    OneEdge(x, y, d, a, []);
  }

  /** The square from (4, 4) to (6, 6). */
  function Square(): Polygon {
    [Point(4.0, 4.0), Point(6.0, 4.0), Point(6.0, 6.0), Point(4.0, 6.0)]
  }

  lemma MiddleIsInside()
    ensures Crossings(5.0, 5.0, Square()) == 1
  {
    var a, b, c, d := Point(4.0, 4.0), Point(6.0, 4.0), Point(6.0, 6.0), Point(4.0, 6.0);
    FourEdges(5.0, 5.0, a, b, c, d);
    assert Toggles(5.0, 5.0, b, c);
    assert !Toggles(5.0, 5.0, a, b) && !Toggles(5.0, 5.0, c, d) && !Toggles(5.0, 5.0, d, a);
  }

  /** One sample in the square, late, and the goal at the origin. */
  function Enclosed(dist: Distance): Task {
    Task(dist, (p, q) => q, [Square()], Origin, [Sample(Point(5.0, 5.0), true)])
  }

  /** Whatever the metric, the planner fails then. */
  method RouteOfPlaceholder(dist: Distance) returns (outcome: Outcome)
    requires dist(Origin, Origin) == 0.0
    ensures outcome == Crashed
  {
    var task := Enclosed(dist);
    ghost var nodes, b, sizes, n;
    outcome, nodes, b, sizes, n := Plan(task);
    assert !Free(Point(5.0, 5.0), task.obstacles) by {
      MiddleIsInside();
      assert task.obstacles[0] == Square();
    }
    assert task.samples[0].late;
    PlaceholderAsked(task, outcome, nodes, b, sizes, n);
  }
}
