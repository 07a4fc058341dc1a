/**
 The analytic layout of the hierarchy view: `layout`, with the level structure that
 `buildLiveTree` gives its tree. Geometry only.
 */
module Layout {

  datatype Kind = Orchestrator | Lead | Worker | Task

  datatype Tree = Node(id: string, kind: Kind, kids: seq<Tree>)

  datatype Box = Box(id: string, kind: Kind, x: real, y: int, w: int, h: int,
                     depth: nat, open: bool, hasKids: bool)

  datatype Link = Link(from: string, to: string)

  /** What placing a subtree yields: its centre, what it drew, and the next free leaf slot. */
  datatype Placed = Placed(x: real, boxes: seq<Box>, links: seq<Link>, leaf: nat)

  datatype PlacedKids = PlacedKids(xs: seq<real>, boxes: seq<Box>, links: seq<Link>, leaf: nat)

  const COL := 56
  const ROW := 132
  const SLOT := Width(Task) + COL

  function Width(k: Kind): int {
    match k
    case Orchestrator => 230
    case Lead => 208
    case Worker => 210
    case Task => 176
  }

  function Height(k: Kind): int {
    match k
    case Orchestrator => 76
    case Lead => 66
    case Worker => 70
    case Task => 42
  }

  function Half(k: Kind): real {
    Width(k) as real / 2.0
  }

  predicate IsOpen(n: Tree, collapsed: set<string>) {
    n.kids != [] && n.id !in collapsed
  }

  function BoxOf(n: Tree, x: real, depth: nat, collapsed: set<string>): Box {
    Box(n.id, n.kind, x, depth * ROW, Width(n.kind), Height(n.kind), depth, IsOpen(n, collapsed), n.kids != [])
  }

  function LinksTo(n: Tree): seq<Link> {
    seq(|n.kids|, i requires 0 <= i < |n.kids| => Link(n.id, n.kids[i].id))
  }

  /** The reference form of the recursive placement. */
  function Place(n: Tree, depth: nat, collapsed: set<string>, leaf: nat): Placed
    decreases n, 1
  {
    if !IsOpen(n, collapsed) then
      var x := (leaf * SLOT) as real + Half(n.kind);
      Placed(x, [BoxOf(n, x, depth, collapsed)], [], leaf + 1)
    else
      var p := PlaceAll(n.kids, depth + 1, collapsed, leaf);
      var x := if p.xs == [] then 0.0 else (p.xs[0] + p.xs[|p.xs| - 1]) / 2.0;
      Placed(x, p.boxes + [BoxOf(n, x, depth, collapsed)], p.links + LinksTo(n), p.leaf)
  }

  function PlaceAll(kids: seq<Tree>, depth: nat, collapsed: set<string>, leaf: nat): (p: PlacedKids)
    ensures |p.xs| == |kids|
    decreases kids, 0
  {
    if kids == [] then PlacedKids([], [], [], leaf)
    else
      var p := Place(kids[0], depth, collapsed, leaf);
      var rest := PlaceAll(kids[1..], depth, collapsed, p.leaf);
      PlacedKids([p.x] + rest.xs, p.boxes + rest.boxes, p.links + rest.links, rest.leaf)
  }

  // ---------------------------------------------------------------- levels

  function Level(k: Kind): nat {
    match k case Orchestrator => 0 case Lead => 1 case Worker => 2 case Task => 3
  }

  /** Children sit exactly one level below their parent; tasks have none. */
  predicate WellLevelled(n: Tree)
    decreases n
  {
    forall k | k in n.kids :: Level(k.kind) == Level(n.kind) + 1 && WellLevelled(k)
  }

  // ---------------------------------------------------------------- bounds

  /** How far right of its slot's origin the centre of a box of this kind may lie. */
  function Reach(k: Kind): real {
    match k case Orchestrator => 115.0 case Lead => 105.0 case Worker => 105.0 case Task => 88.0
  }

  /** A box whose centre lies in the slots [from, to), on the row its depth gives it. */
  ghost predicate Within(b: Box, from: nat, to: nat) {
    && b.w == Width(b.kind) && b.h == Height(b.kind) && b.y == b.depth * ROW
    && (from * SLOT) as real + 88.0 <= b.x <= ((to - 1) * SLOT) as real + Reach(b.kind)
  }

  /** Boxes of one row are at least 5 apart; boxes of different rows at least 56. */
  ghost predicate Apart(a: Box, b: Box) {
    if a.depth == b.depth then
      a.x + Half(a.kind) + 5.0 <= b.x - Half(b.kind) || b.x + Half(b.kind) + 5.0 <= a.x - Half(a.kind)
    else
      a.y + a.h + 56 <= b.y || b.y + b.h + 56 <= a.y
  }

  ghost predicate AllApart(boxes: seq<Box>) {
    forall i, j | 0 <= i < j < |boxes| :: Apart(boxes[i], boxes[j])
  }

  /** The facts the induction carries for the boxes of trees whose roots are at (depth, level). */
  ghost predicate Tidy(boxes: seq<Box>, depth: nat, level: nat, from: nat, to: nat) {
    && AllApart(boxes)
    && forall b | b in boxes ::
         Within(b, from, to) && depth <= b.depth && Level(b.kind) == level + (b.depth - depth)
  }

  lemma RowsApart(a: Box, b: Box)
    requires a.h == Height(a.kind) && a.y == a.depth * ROW
    requires b.h == Height(b.kind) && b.y == b.depth * ROW
    requires a.depth != b.depth
    ensures Apart(a, b)
  {
    if a.depth < b.depth {
      assert b.depth * ROW >= (a.depth + 1) * ROW;
    } else {
      assert a.depth * ROW >= (b.depth + 1) * ROW;
    }
  }

  /** Boxes in disjoint slot ranges of one layout never touch. */
  lemma SlotsApart(a: Box, b: Box, from: nat, mid: nat, to: nat)
    requires Within(a, from, mid) && Within(b, mid, to)
    requires a.depth == b.depth ==> a.kind == b.kind && a.kind != Orchestrator
    ensures Apart(a, b)
  {
    if a.depth != b.depth {
      RowsApart(a, b);
    }
  }

  lemma TidyConcat(l: seq<Box>, r: seq<Box>, depth: nat, level: nat, from: nat, mid: nat, to: nat)
    requires level > 0 && from <= mid <= to
    requires Tidy(l, depth, level, from, mid) && Tidy(r, depth, level, mid, to)
    requires r != [] ==> mid < to
    requires l != [] ==> from < mid
    ensures Tidy(l + r, depth, level, from, to)
  {
    var boxes := l + r;
    forall b | b in boxes
      ensures Within(b, from, to) && depth <= b.depth && Level(b.kind) == level + (b.depth - depth)
    {
      assert b in l || b in r;
    }
    forall i, j | 0 <= i < j < |boxes|
      ensures Apart(boxes[i], boxes[j])
    {
      if j < |l| {
      } else if i >= |l| {
      } else {
        var a, b := l[i], r[j - |l|];
        assert a in l && b in r;
        SlotsApart(a, b, from, mid, to);
      }
    }
  }

  /** One subtree: everything it draws is tidy, and its own centre is inside its slots. */
  lemma {:induction false} PlaceTidy(n: Tree, depth: nat, collapsed: set<string>, leaf: nat)
    requires WellLevelled(n)
    ensures var p := Place(n, depth, collapsed, leaf);
            && leaf < p.leaf
            && Tidy(p.boxes, depth, Level(n.kind), leaf, p.leaf)
            && p.boxes != [] && p.boxes[|p.boxes| - 1] == BoxOf(n, p.x, depth, collapsed)
    decreases n, 1
  {
    var p := Place(n, depth, collapsed, leaf);
    var self := BoxOf(n, p.x, depth, collapsed);
    if IsOpen(n, collapsed) {
      PlaceAllTidy(n.kids, depth + 1, Level(n.kind) + 1, collapsed, leaf);
      var q := PlaceAll(n.kids, depth + 1, collapsed, leaf);
      var first, last := q.xs[0], q.xs[|q.xs| - 1];
      assert n.kids[0] in n.kids;
      assert first in q.xs && last in q.xs;
      assert Within(self, leaf, p.leaf);
      forall i | 0 <= i < |q.boxes|
        ensures Apart(q.boxes[i], self)
      {
        assert q.boxes[i] in q.boxes;
        RowsApart(q.boxes[i], self);
      }
      assert p.boxes == q.boxes + [self];
    }
  }

  /** Centres of boxes on one level, within their slots. */
  ghost predicate Centres(xs: seq<real>, level: nat, from: nat, to: int) {
    forall x | x in xs ::
      (from * SLOT) as real + 88.0 <= x <= ((to - 1) * SLOT) as real + (if level == 3 then 88.0 else 105.0)
  }

  lemma CentresConcat(x: real, xs: seq<real>, level: nat, from: nat, mid: nat, to: nat)
    requires Centres([x], level, from, mid) && Centres(xs, level, mid, to) && from < mid <= to
    ensures Centres([x] + xs, level, from, to)
  {
    assert x in [x];
    assert (from * SLOT) as real <= (mid * SLOT) as real && ((mid - 1) * SLOT) as real <= ((to - 1) * SLOT) as real;
    forall y | y in [x] + xs ensures y == x || y in xs {}
  }

  lemma OwnCentre(n: Tree, depth: nat, collapsed: set<string>, leaf: nat)
    requires WellLevelled(n) && Level(n.kind) > 0
    requires var p := Place(n, depth, collapsed, leaf);
             && Tidy(p.boxes, depth, Level(n.kind), leaf, p.leaf)
             && p.boxes != [] && p.boxes[|p.boxes| - 1] == BoxOf(n, p.x, depth, collapsed)
    ensures var p := Place(n, depth, collapsed, leaf); Centres([p.x], Level(n.kind), leaf, p.leaf)
  {
    var p := Place(n, depth, collapsed, leaf);
    assert p.boxes[|p.boxes| - 1] in p.boxes;
  }

  lemma {:induction false} PlaceAllTidy(kids: seq<Tree>, depth: nat, level: nat, collapsed: set<string>, leaf: nat)
    requires level > 0
    requires forall k | k in kids :: Level(k.kind) == level && WellLevelled(k)
    ensures var p := PlaceAll(kids, depth, collapsed, leaf);
            && leaf <= p.leaf && (kids != [] ==> leaf < p.leaf) && (kids == [] ==> p.boxes == [])
            && Tidy(p.boxes, depth, level, leaf, p.leaf)
            && Centres(p.xs, level, leaf, p.leaf)
    decreases kids, 0
  {
    if kids == [] {
    } else {
      var p := Place(kids[0], depth, collapsed, leaf);
      var rest := PlaceAll(kids[1..], depth, collapsed, p.leaf);
      assert kids[0] in kids;
      PlaceTidy(kids[0], depth, collapsed, leaf);
      PlaceAllTidy(kids[1..], depth, level, collapsed, p.leaf);
      OwnCentre(kids[0], depth, collapsed, leaf);
      CentresConcat(p.x, rest.xs, level, leaf, p.leaf, rest.leaf);
      TidyConcat(p.boxes, rest.boxes, depth, level, leaf, p.leaf, rest.leaf);
    }
  }

  // ---------------------------------------------------------------- the whole picture

  datatype Picture = Picture(nodes: seq<Box>, links: seq<Link>, width: int, height: int)

  function Deepest(boxes: seq<Box>): (d: nat)
    ensures forall b | b in boxes :: b.depth <= d
  {
    if boxes == [] then 0
    else
      var d := Deepest(boxes[1..]);
      assert forall b | b in boxes :: b == boxes[0] || b in boxes[1..];
      if boxes[0].depth > d then boxes[0].depth else d
  }

  function Draw(root: Tree, collapsed: set<string>): Picture {
    var p := Place(root, 0, collapsed, 0);
    Picture(p.boxes, p.links, p.leaf * SLOT + 80, (Deepest(p.boxes) + 1) * ROW + 90)
  }

  /** No two boxes overlap, and nothing sticks out on the right or at the bottom. */
  lemma NoOverlap(root: Tree, collapsed: set<string>)
    requires WellLevelled(root)
    ensures AllApart(Draw(root, collapsed).nodes)
    ensures forall b | b in Draw(root, collapsed).nodes ::
              && b.x + Half(b.kind) <= Draw(root, collapsed).width as real
              && 0 <= b.y && b.y + b.h <= Draw(root, collapsed).height
  {
    PlaceTidy(root, 0, collapsed, 0);
    var p := Place(root, 0, collapsed, 0);
    forall b | b in p.boxes
      ensures b.x + Half(b.kind) <= (p.leaf * SLOT + 80) as real
      ensures 0 <= b.y && b.y + b.h <= (Deepest(p.boxes) + 1) * ROW + 90
    {
      assert Within(b, 0, p.leaf);
    }
  }

  /** A node of the tree. */
  predicate Inside(n: Tree, root: Tree)
    decreases root
  {
    n == root || exists k | k in root.kids :: Inside(n, k)
  }

  predicate InsideAny(n: Tree, kids: seq<Tree>)
    decreases kids
  {
    exists k | k in kids :: Inside(n, k)
  }

  /** The node is drawn with this centre. */
  predicate Drawn(n: Tree, x: real, depth: nat, collapsed: set<string>, boxes: seq<Box>) {
    BoxOf(n, x, depth, collapsed) in boxes
  }

  /** The first child is drawn at f and the last at l, one row below, with x midway. */
  predicate Midway(n: Tree, x: real, f: real, l: real, depth: nat, collapsed: set<string>, boxes: seq<Box>)
    requires n.kids != []
  {
    && Drawn(n.kids[0], f, depth + 1, collapsed, boxes) && Drawn(n.kids[|n.kids| - 1], l, depth + 1, collapsed, boxes)
    && f <= l && x == (f + l) / 2.0
  }

  /** The node's box hangs midway over the boxes of its first and its last child, one row below and linked to it. */
  ghost predicate HangsOver(n: Tree, x: real, depth: nat, collapsed: set<string>, boxes: seq<Box>, links: seq<Link>) {
    && IsOpen(n, collapsed)
    && Link(n.id, n.kids[0].id) in links && Link(n.id, n.kids[|n.kids| - 1].id) in links
    && exists f, l :: Midway(n, x, f, l, depth, collapsed, boxes)
  }

  /** A box stands for an open node it hangs from the picture by. */
  ghost predicate Hung(b: Box, n: Tree, collapsed: set<string>, boxes: seq<Box>, links: seq<Link>) {
    b == BoxOf(n, b.x, b.depth, collapsed) && HangsOver(n, b.x, b.depth, collapsed, boxes, links)
  }

  ghost predicate AllHang(nodes: seq<Tree>, collapsed: set<string>, boxes: seq<Box>, links: seq<Link>) {
    forall b | b in boxes && b.open :: exists n :: InsideAny(n, nodes) && Hung(b, n, collapsed, boxes, links)
  }

  lemma HangsMore(b: Box, n: Tree, collapsed: set<string>, boxes: seq<Box>, links: seq<Link>, boxes': seq<Box>, links': seq<Link>)
    requires Hung(b, n, collapsed, boxes, links)
    requires (forall c | c in boxes :: c in boxes') && (forall l | l in links :: l in links')
    ensures Hung(b, n, collapsed, boxes', links')
  {
    var f, l :| Midway(n, b.x, f, l, b.depth, collapsed, boxes);
    assert Midway(n, b.x, f, l, b.depth, collapsed, boxes');
  }

  lemma HangConcat(kl: seq<Tree>, bl: seq<Box>, ll: seq<Link>, kr: seq<Tree>, br: seq<Box>, lr: seq<Link>, collapsed: set<string>)
    requires AllHang(kl, collapsed, bl, ll) && AllHang(kr, collapsed, br, lr)
    ensures AllHang(kl + kr, collapsed, bl + br, ll + lr)
  {
    forall b | b in bl + br && b.open
      ensures exists n :: InsideAny(n, kl + kr) && Hung(b, n, collapsed, bl + br, ll + lr)
    {
      if b in bl {
        var n :| InsideAny(n, kl) && Hung(b, n, collapsed, bl, ll);
        HangsMore(b, n, collapsed, bl, ll, bl + br, ll + lr);
        var k :| k in kl && Inside(n, k);
        assert k in kl + kr;
      } else {
        var n :| InsideAny(n, kr) && Hung(b, n, collapsed, br, lr);
        HangsMore(b, n, collapsed, br, lr, bl + br, ll + lr);
        var k :| k in kr && Inside(n, k);
        assert k in kl + kr;
      }
    }
  }

  /** The root's own box, drawn after its children. */
  lemma HangRoot(root: Tree, x: real, depth: nat, collapsed: set<string>, boxes: seq<Box>, links: seq<Link>, f: real, l: real)
    requires IsOpen(root, collapsed) && AllHang(root.kids, collapsed, boxes, links)
    requires Midway(root, x, f, l, depth, collapsed, boxes)
    ensures AllHang([root], collapsed, boxes + [BoxOf(root, x, depth, collapsed)], links + LinksTo(root))
  {
    var self := BoxOf(root, x, depth, collapsed);
    var boxes', links' := boxes + [self], links + LinksTo(root);
    assert LinksTo(root)[0] in links' && LinksTo(root)[|root.kids| - 1] in links';
    assert Midway(root, x, f, l, depth, collapsed, boxes');
    assert Hung(self, root, collapsed, boxes', links');
    assert root in [root] && Inside(root, root);
    forall b | b in boxes' && b.open
      ensures exists n :: InsideAny(n, [root]) && Hung(b, n, collapsed, boxes', links')
    {
      if b in boxes {
        var n :| InsideAny(n, root.kids) && Hung(b, n, collapsed, boxes, links);
        HangsMore(b, n, collapsed, boxes, links, boxes', links');
        assert Inside(n, root);
      } else {
        assert InsideAny(root, [root]);
      }
    }
  }

  /** Every child is drawn at the centre its parent was told. */
  lemma {:induction false} KidDrawn(kids: seq<Tree>, depth: nat, collapsed: set<string>, leaf: nat, i: nat)
    requires i < |kids|
    ensures var p := PlaceAll(kids, depth, collapsed, leaf);
            BoxOf(kids[i], p.xs[i], depth, collapsed) in p.boxes
  {
    var p := Place(kids[0], depth, collapsed, leaf);
    if i == 0 {
      assert p.boxes[|p.boxes| - 1] == BoxOf(kids[0], p.x, depth, collapsed);
    } else {
      KidDrawn(kids[1..], depth, collapsed, p.leaf, i - 1);
    }
  }

  /** Siblings are placed left to right. */
  lemma {:induction false} SiblingsInOrder(kids: seq<Tree>, depth: nat, level: nat, collapsed: set<string>, leaf: nat,
                                           i: nat, j: nat)
    requires level > 0 && i < j < |kids|
    requires forall k | k in kids :: Level(k.kind) == level && WellLevelled(k)
    ensures var p := PlaceAll(kids, depth, collapsed, leaf); p.xs[i] < p.xs[j]
  {
    var p := Place(kids[0], depth, collapsed, leaf);
    var rest := PlaceAll(kids[1..], depth, collapsed, p.leaf);
    assert kids[0] in kids;
    if i == 0 {
      PlaceTidy(kids[0], depth, collapsed, leaf);
      assert p.boxes[|p.boxes| - 1] in p.boxes;
      PlaceAllTidy(kids[1..], depth, level, collapsed, p.leaf);
      assert rest.xs[j - 1] in rest.xs;
    } else {
      SiblingsInOrder(kids[1..], depth, level, collapsed, p.leaf, i - 1, j - 1);
    }
  }

  /** Every open box of a drawing stands for a node of the tree and hangs midway over its first and last child. */
  lemma {:induction false} ParentsCentred(n: Tree, depth: nat, collapsed: set<string>, leaf: nat)
    requires WellLevelled(n)
    ensures AllHang([n], collapsed, Place(n, depth, collapsed, leaf).boxes, Place(n, depth, collapsed, leaf).links)
    decreases n, 1
  {
    var p := Place(n, depth, collapsed, leaf);
    if IsOpen(n, collapsed) {
      var q := PlaceAll(n.kids, depth + 1, collapsed, leaf);
      var last := |n.kids| - 1;
      KidsCentred(n.kids, depth + 1, collapsed, leaf);
      KidDrawn(n.kids, depth + 1, collapsed, leaf, 0);
      KidDrawn(n.kids, depth + 1, collapsed, leaf, last);
      if last > 0 {
        SiblingsInOrder(n.kids, depth + 1, Level(n.kind) + 1, collapsed, leaf, 0, last);
      }
      HangRoot(n, p.x, depth, collapsed, q.boxes, q.links, q.xs[0], q.xs[last]);
    }
  }

  lemma {:induction false} KidsCentred(kids: seq<Tree>, depth: nat, collapsed: set<string>, leaf: nat)
    requires forall k | k in kids :: WellLevelled(k)
    ensures AllHang(kids, collapsed, PlaceAll(kids, depth, collapsed, leaf).boxes, PlaceAll(kids, depth, collapsed, leaf).links)
    decreases kids, 0
  {
    if kids == [] {
    } else {
      var p := Place(kids[0], depth, collapsed, leaf);
      var rest := PlaceAll(kids[1..], depth, collapsed, p.leaf);
      assert kids[0] in kids;
      ParentsCentred(kids[0], depth, collapsed, leaf);
      KidsCentred(kids[1..], depth, collapsed, p.leaf);
      HangConcat([kids[0]], p.boxes, p.links, kids[1..], rest.boxes, rest.links, collapsed);
      assert kids == [kids[0]] + kids[1..];
    }
  }

  /** A drawing is a tree: one link fewer than boxes, whatever is folded. */
  lemma {:induction false} OneLinkPerChild(n: Tree, depth: nat, collapsed: set<string>, leaf: nat)
    ensures var p := Place(n, depth, collapsed, leaf); |p.links| == |p.boxes| - 1
    decreases n, 1
  {
    if IsOpen(n, collapsed) {
      OneLinkPerKid(n.kids, depth + 1, collapsed, leaf);
    }
  }

  lemma {:induction false} OneLinkPerKid(kids: seq<Tree>, depth: nat, collapsed: set<string>, leaf: nat)
    ensures var p := PlaceAll(kids, depth, collapsed, leaf); |p.links| == |p.boxes| - |kids|
    decreases kids, 0
  {
    if kids == [] {
    } else {
      OneLinkPerChild(kids[0], depth, collapsed, leaf);
      OneLinkPerKid(kids[1..], depth, collapsed, Place(kids[0], depth, collapsed, leaf).leaf);
    }
  }

  // ---------------------------------------------------------------- which nodes are drawn

  /** A position in the tree, as child numbers from the root, with no folded node above it. */
  predicate Shown(n: Tree, path: seq<nat>, collapsed: set<string>)
    decreases path
  {
    path == [] || (path[0] < |n.kids| && n.id !in collapsed && Shown(n.kids[path[0]], path[1..], collapsed))
  }

  function NodeAt(n: Tree, path: seq<nat>): Tree
    decreases path
  {
    if path == [] || path[0] >= |n.kids| then n else NodeAt(n.kids[path[0]], path[1..])
  }

  /** The positions shown, children before their parent. */
  function Paths(n: Tree, collapsed: set<string>): seq<seq<nat>>
    decreases n, 1
  {
    if n.id in collapsed then [[]] else PathsAll(n.kids, 0, collapsed) + [[]]
  }

  /** The positions under these children, the first of which has this number. */
  function PathsAll(kids: seq<Tree>, first: nat, collapsed: set<string>): seq<seq<nat>>
    decreases kids, 0
  {
    if kids == [] then [] else Under(first, Paths(kids[0], collapsed)) + PathsAll(kids[1..], first + 1, collapsed)
  }

  function Under(first: nat, paths: seq<seq<nat>>): seq<seq<nat>> {
    seq(|paths|, i requires 0 <= i < |paths| => [first] + paths[i])
  }

  lemma UnderHas(first: nat, paths: seq<seq<nat>>, path: seq<nat>)
    ensures path in Under(first, paths) <==> path != [] && path[0] == first && path[1..] in paths
  {
    if path != [] && path[0] == first && path[1..] in paths {
      var i :| 0 <= i < |paths| && paths[i] == path[1..];
      assert Under(first, paths)[i] == path;
    }
    if path in Under(first, paths) {
      var i :| 0 <= i < |paths| && Under(first, paths)[i] == path;
      assert path[1..] == paths[i];
    }
  }

  lemma {:induction false} PathsAreShown(n: Tree, collapsed: set<string>, path: seq<nat>)
    ensures path in Paths(n, collapsed) <==> Shown(n, path, collapsed)
    decreases n, 1
  {
    if n.id !in collapsed {
      AllPathsAreShown(n.kids, 0, collapsed, path);
      assert path in Paths(n, collapsed) <==> path in PathsAll(n.kids, 0, collapsed) || path == [];
    }
  }

  lemma {:induction false} AllPathsAreShown(kids: seq<Tree>, first: nat, collapsed: set<string>, path: seq<nat>)
    ensures path in PathsAll(kids, first, collapsed) <==>
            path != [] && first <= path[0] < first + |kids| && Shown(kids[path[0] - first], path[1..], collapsed)
    decreases kids, 0
  {
    if kids != [] {
      var own := Paths(kids[0], collapsed);
      UnderHas(first, own, path);
      if path != [] { PathsAreShown(kids[0], collapsed, path[1..]); }
      AllPathsAreShown(kids[1..], first + 1, collapsed, path);
    }
  }

  ghost predicate Distinct(paths: seq<seq<nat>>) {
    forall i, j | 0 <= i < j < |paths| :: paths[i] != paths[j]
  }

  lemma {:induction false} PathsDiffer(n: Tree, collapsed: set<string>)
    ensures Distinct(Paths(n, collapsed))
    decreases n, 1
  {
    if n.id !in collapsed {
      AllPathsDiffer(n.kids, 0, collapsed);
      var below := PathsAll(n.kids, 0, collapsed);
      forall i | 0 <= i < |below| ensures below[i] != [] {
        AllPathsAreShown(n.kids, 0, collapsed, below[i]);
      }
    }
  }

  lemma {:induction false} AllPathsDiffer(kids: seq<Tree>, first: nat, collapsed: set<string>)
    ensures Distinct(PathsAll(kids, first, collapsed))
    decreases kids, 0
  {
    if kids != [] {
      var own, rest := Paths(kids[0], collapsed), PathsAll(kids[1..], first + 1, collapsed);
      PathsDiffer(kids[0], collapsed);
      AllPathsDiffer(kids[1..], first + 1, collapsed);
      forall i, j | 0 <= i < j < |own| ensures Under(first, own)[i] != Under(first, own)[j] {
        assert Under(first, own)[i][1..] == own[i] && Under(first, own)[j][1..] == own[j];
      }
      forall j | 0 <= j < |rest| ensures rest[j] != [] && rest[j][0] > first {
        AllPathsAreShown(kids[1..], first + 1, collapsed, rest[j]);
      }
    }
  }

  /** The box shows the node, open exactly when it has children and is not folded. */
  predicate Shows(b: Box, n: Tree, depth: nat, collapsed: set<string>) {
    && b.id == n.id && b.kind == n.kind
    && (match n.kind
        case Orchestrator => b.w == 230 && b.h == 76
        case Lead => b.w == 208 && b.h == 66
        case Worker => b.w == 210 && b.h == 70
        case Task => b.w == 176 && b.h == 42)
    && b.depth == depth && b.y == 132 * depth
    && (b.hasKids <==> n.kids != []) && (b.open <==> n.kids != [] && n.id !in collapsed)
  }

  lemma {:induction false} BoxesFollowPaths(n: Tree, depth: nat, collapsed: set<string>, leaf: nat)
    ensures var boxes, paths := Place(n, depth, collapsed, leaf).boxes, Paths(n, collapsed);
            |boxes| == |paths| && forall i | 0 <= i < |boxes| :: Shows(boxes[i], NodeAt(n, paths[i]), depth + |paths[i]|, collapsed)
    decreases n, 1
  {
    if n.kids == [] {
      assert PathsAll(n.kids, 0, collapsed) == [];
    } else if IsOpen(n, collapsed) {
      AllBoxesFollowPaths(n.kids, n, 0, depth + 1, collapsed, leaf);
    }
  }

  lemma UnderShows(boxes: seq<Box>, n: Tree, first: nat, own: seq<seq<nat>>, depth: nat, collapsed: set<string>)
    requires first < |n.kids| && |boxes| == |own| && depth > 0
    requires forall i | 0 <= i < |boxes| :: Shows(boxes[i], NodeAt(n.kids[first], own[i]), depth + |own[i]|, collapsed)
    ensures forall i | 0 <= i < |boxes| ::
              Shows(boxes[i], NodeAt(n, Under(first, own)[i]), depth - 1 + |Under(first, own)[i]|, collapsed)
  {
    forall i | 0 <= i < |own|
      ensures NodeAt(n, Under(first, own)[i]) == NodeAt(n.kids[first], own[i])
    {
      assert Under(first, own)[i][1..] == own[i];
    }
  }

  lemma {:induction false} AllBoxesFollowPaths(kids: seq<Tree>, n: Tree, first: nat, depth: nat, collapsed: set<string>, leaf: nat)
    requires depth > 0 && first <= |n.kids| && kids == n.kids[first..]
    ensures var boxes, paths := PlaceAll(kids, depth, collapsed, leaf).boxes, PathsAll(kids, first, collapsed);
            |boxes| == |paths| && forall i | 0 <= i < |boxes| :: Shows(boxes[i], NodeAt(n, paths[i]), depth - 1 + |paths[i]|, collapsed)
    decreases kids, 0
  {
    if kids != [] {
      var p, own := Place(kids[0], depth, collapsed, leaf), Paths(kids[0], collapsed);
      BoxesFollowPaths(kids[0], depth, collapsed, leaf);
      AllBoxesFollowPaths(kids[1..], n, first + 1, depth, collapsed, p.leaf);
      assert kids[0] == n.kids[first];
      UnderShows(p.boxes, n, first, own, depth, collapsed);
    }
  }

  lemma {:induction false} LinkDrawn(n: Tree, depth: nat, collapsed: set<string>, leaf: nat, path: seq<nat>)
    requires path != [] && Shown(n, path, collapsed)
    ensures Link(NodeAt(n, path[..|path| - 1]).id, NodeAt(n, path).id) in Place(n, depth, collapsed, leaf).links
    decreases path
  {
    var p, kid := PlaceAll(n.kids, depth + 1, collapsed, leaf), n.kids[path[0]];
    if |path| == 1 {
      assert LinksTo(n)[path[0]] == Link(n.id, kid.id);
    } else {
      var at := KidLinks(n.kids, depth + 1, collapsed, leaf, path[0]);
      LinkDrawn(kid, depth + 1, collapsed, at, path[1..]);
      assert path[1..][..|path| - 2] == path[..|path| - 1][1..];
    }
  }

  lemma {:induction false} KidLinks(kids: seq<Tree>, depth: nat, collapsed: set<string>, leaf: nat, i: nat) returns (at: nat)
    requires i < |kids|
    ensures forall l | l in Place(kids[i], depth, collapsed, at).links :: l in PlaceAll(kids, depth, collapsed, leaf).links
  {
    if i == 0 {
      at := leaf;
    } else {
      at := KidLinks(kids[1..], depth, collapsed, Place(kids[0], depth, collapsed, leaf).leaf, i - 1);
    }
  }

  /**
   The boxes of a picture: one for every position with no folded node above it, and no other, showing the node
   there at the depth of its position.
   */
  lemma DrawnExactly(root: Tree, collapsed: set<string>) returns (paths: seq<seq<nat>>)
    ensures forall i, j | 0 <= i < j < |paths| :: paths[i] != paths[j]
    ensures forall path :: path in paths <==> Shown(root, path, collapsed)
    ensures var boxes := Draw(root, collapsed).nodes;
            |boxes| == |paths| && forall i | 0 <= i < |boxes| :: Shows(boxes[i], NodeAt(root, paths[i]), |paths[i]|, collapsed)
  {
    paths := Paths(root, collapsed);
    PathsDiffer(root, collapsed);
    BoxesFollowPaths(root, 0, collapsed, 0);
    forall path ensures path in paths <==> Shown(root, path, collapsed) { PathsAreShown(root, collapsed, path); }
  }

  /** Its links: from every such position but the root's one to the parent, one link fewer than boxes in all. */
  lemma LinksDrawn(root: Tree, collapsed: set<string>)
    ensures |Draw(root, collapsed).links| == |Draw(root, collapsed).nodes| - 1
    ensures forall path | Shown(root, path, collapsed) && path != [] ::
              Link(NodeAt(root, path[..|path| - 1]).id, NodeAt(root, path).id) in Draw(root, collapsed).links
  {
    OneLinkPerChild(root, 0, collapsed, 0);
    forall path | Shown(root, path, collapsed) && path != []
      ensures Link(NodeAt(root, path[..|path| - 1]).id, NodeAt(root, path).id) in Draw(root, collapsed).links
    {
      LinkDrawn(root, 0, collapsed, 0, path);
    }
  }

  lemma {:induction false} DeepestIsSome(boxes: seq<Box>)
    ensures Deepest(boxes) == 0 || exists b :: b in boxes && b.depth == Deepest(boxes)
  {
    if boxes != [] {
      DeepestIsSome(boxes[1..]);
      assert boxes[0] in boxes && forall b | b in boxes[1..] :: b in boxes;
    }
  }

  /** The picture is as wide as its closed boxes need, and as high as its deepest box does. */
  lemma PictureFits(root: Tree, collapsed: set<string>) returns (deepest: nat)
    ensures var picture := Draw(root, collapsed);
            && (exists b :: b in picture.nodes && b.depth == deepest) && (forall b | b in picture.nodes :: b.depth <= deepest)
            && picture.height == (deepest + 1) * 132 + 90
            && picture.width == Closed(picture.nodes) * 232 + 80
  {
    var p := Place(root, 0, collapsed, 0);
    deepest := Deepest(p.boxes);
    DeepestIsSome(p.boxes);
    SlotsAreFilled(root, 0, collapsed, 0);
    assert p.boxes[|p.boxes| - 1] in p.boxes && p.boxes[|p.boxes| - 1].depth == 0;
  }

  function Size(n: Tree): nat
    decreases n, 1
  {
    1 + SizeAll(n.kids)
  }

  function SizeAll(kids: seq<Tree>): nat
    decreases kids, 0
  {
    if kids == [] then 0 else Size(kids[0]) + SizeAll(kids[1..])
  }

  /** With nothing folded the whole tree is drawn. */
  lemma {:induction false} AllIsDrawn(n: Tree, depth: nat, leaf: nat)
    ensures |Place(n, depth, {}, leaf).boxes| == Size(n)
    decreases n, 1
  {
    AllKidsAreDrawn(n.kids, depth + 1, leaf);
  }

  lemma {:induction false} AllKidsAreDrawn(kids: seq<Tree>, depth: nat, leaf: nat)
    ensures |PlaceAll(kids, depth, {}, leaf).boxes| == SizeAll(kids)
    decreases kids, 0
  {
    if kids != [] {
      AllIsDrawn(kids[0], depth, leaf);
      AllKidsAreDrawn(kids[1..], depth, Place(kids[0], depth, {}, leaf).leaf);
    }
  }

  function Closed(boxes: seq<Box>): nat {
    if boxes == [] then 0 else Closed(boxes[..|boxes| - 1]) + if boxes[|boxes| - 1].open then 0 else 1
  }

  /** The closed boxes, in drawing order, take the slots one after another. */
  ghost predicate Slotted(boxes: seq<Box>, leaf: nat) {
    forall i | 0 <= i < |boxes| && !boxes[i].open ::
      boxes[i].x == ((leaf + Closed(boxes[..i])) * 232) as real + boxes[i].w as real / 2.0
  }

  lemma {:induction false} ClosedConcat(a: seq<Box>, b: seq<Box>)
    ensures Closed(a + b) == Closed(a) + Closed(b)
    decreases |b|
  {
    if b == [] {
      assert a + b == a;
    } else {
      assert (a + b)[..|a + b| - 1] == a + b[..|b| - 1];
      ClosedConcat(a, b[..|b| - 1]);
    }
  }

  lemma SlottedConcat(a: seq<Box>, b: seq<Box>, leaf: nat)
    requires Slotted(a, leaf) && Slotted(b, leaf + Closed(a))
    ensures Slotted(a + b, leaf)
  {
    var c := a + b;
    forall i | 0 <= i < |c| && !c[i].open
      ensures c[i].x == ((leaf + Closed(c[..i])) * 232) as real + c[i].w as real / 2.0
    {
      if i < |a| {
        assert c[..i] == a[..i];
      } else {
        assert c[..i] == a + b[..i - |a|];
        ClosedConcat(a, b[..i - |a|]);
      }
    }
  }

  lemma OneSlot(b: Box, leaf: nat)
    requires !b.open ==> b.x == (leaf * 232) as real + b.w as real / 2.0
    ensures Closed([b]) == (if b.open then 0 else 1) && Slotted([b], leaf)
  {
    assert [b][..0] == [];
  }

  /** Whatever is folded, the closed boxes stand in the slots one after another, and the picture is as wide as they need. */
  lemma {:induction false} SlotsAreFilled(n: Tree, depth: nat, collapsed: set<string>, leaf: nat)
    ensures var p := Place(n, depth, collapsed, leaf); p.leaf == leaf + Closed(p.boxes) && Slotted(p.boxes, leaf)
    decreases n, 1
  {
    var self := BoxOf(n, Place(n, depth, collapsed, leaf).x, depth, collapsed);
    if IsOpen(n, collapsed) {
      var q := PlaceAll(n.kids, depth + 1, collapsed, leaf);
      AllSlotsAreFilled(n.kids, depth + 1, collapsed, leaf);
      OneSlot(self, q.leaf);
      ClosedConcat(q.boxes, [self]);
      SlottedConcat(q.boxes, [self], leaf);
    } else {
      OneSlot(self, leaf);
    }
  }

  lemma {:induction false} AllSlotsAreFilled(kids: seq<Tree>, depth: nat, collapsed: set<string>, leaf: nat)
    ensures var p := PlaceAll(kids, depth, collapsed, leaf); p.leaf == leaf + Closed(p.boxes) && Slotted(p.boxes, leaf)
    decreases kids, 0
  {
    if kids != [] {
      var p := Place(kids[0], depth, collapsed, leaf);
      var rest := PlaceAll(kids[1..], depth, collapsed, p.leaf);
      SlotsAreFilled(kids[0], depth, collapsed, leaf);
      AllSlotsAreFilled(kids[1..], depth, collapsed, p.leaf);
      ClosedConcat(p.boxes, rest.boxes);
      SlottedConcat(p.boxes, rest.boxes, leaf);
    }
  }

  // ---------------------------------------------------------------- the in-place form

  /** The state the recursive closure shares: what is drawn so far and the next leaf slot. */
  class Canvas {
    var nodes: seq<Box>
    var links: seq<Link>
    var leaf: nat

    constructor ()
      ensures nodes == [] && links == [] && leaf == 0
    {
      nodes, links, leaf := [], [], 0;
    }

    method PlaceNode(n: Tree, depth: nat, collapsed: set<string>) returns (x: real)
      modifies this
      ensures var p := Place(n, depth, collapsed, old(leaf));
              && x == p.x && leaf == p.leaf
              && nodes == old(nodes) + p.boxes && links == old(links) + p.links
      decreases n, 1
    {
      var open := IsOpen(n, collapsed);
      if !open {
        x := (leaf * SLOT) as real + Half(n.kind);
        leaf := leaf + 1;
      } else {
        var xs := PlaceKids(n.kids, depth + 1, collapsed);
        x := (xs[0] + xs[|xs| - 1]) / 2.0;
      }
      nodes := nodes + [Box(n.id, n.kind, x, depth * ROW, Width(n.kind), Height(n.kind), depth, open, n.kids != [])];
      if open {
        links := links + LinksTo(n);
      }
    }

    method PlaceKids(kids: seq<Tree>, depth: nat, collapsed: set<string>) returns (xs: seq<real>)
      modifies this
      ensures var p := PlaceAll(kids, depth, collapsed, old(leaf));
              && xs == p.xs && leaf == p.leaf
              && nodes == old(nodes) + p.boxes && links == old(links) + p.links
      decreases kids, 0
    {
      xs := [];
      if kids != [] {
        var x := PlaceNode(kids[0], depth, collapsed);
        var rest := PlaceKids(kids[1..], depth, collapsed);
        xs := [x] + rest;
      }
    }

    method Layout(root: Tree, collapsed: set<string>) returns (p: Picture)
      requires nodes == [] && links == [] && leaf == 0
      modifies this
      ensures p == Draw(root, collapsed)
    {
      var _ := PlaceNode(root, 0, collapsed);
      assert nodes == Place(root, 0, collapsed, 0).boxes && links == Place(root, 0, collapsed, 0).links;
      var deepest := FindDeepest(nodes);
      p := Picture(nodes, links, leaf * SLOT + 80, (deepest + 1) * ROW + 90);
    }
  }

  method FindDeepest(boxes: seq<Box>) returns (deepest: nat)
    ensures deepest == Deepest(boxes)
    ensures forall b | b in boxes :: b.depth <= deepest
    ensures deepest == 0 || exists b :: b in boxes && b.depth == deepest
  {
    deepest := 0;
    for i := |boxes| downto 0
      invariant deepest == Deepest(boxes[i..])
      invariant deepest == 0 || exists b :: b in boxes && b.depth == deepest
    {
      assert boxes[i..] == [boxes[i]] + boxes[i + 1..];
      assert boxes[i] in boxes;
      if boxes[i].depth > deepest { deepest := boxes[i].depth; }
    }
    assert boxes[0..] == boxes;
  }

  // ---------------------------------------------------------------- the live tree

  datatype LiveTask = LiveTask(title: string, agents: seq<string>, subtaskAgents: seq<string>)

  /** `task` is the agent's current task label, empty when it has none. */
  datatype LiveAgent = LiveAgent(key: string, task: string)

  datatype Detail = Detail(agents: seq<LiveAgent>, tasks: seq<LiveTask>)

  function Involved(t: LiveTask): set<string> {
    (set a | a in t.agents) + (set a | a in t.subtaskAgents && a != "")
  }

  function TasksOf(tasks: seq<LiveTask>, key: string): seq<LiveTask> {
    if tasks == [] then []
    else (if key in Involved(tasks[0]) then [tasks[0]] else []) + TasksOf(tasks[1..], key)
  }

  lemma {:induction false} TasksOfSnoc(tasks: seq<LiveTask>, t: LiveTask, key: string)
    ensures TasksOf(tasks + [t], key) == TasksOf(tasks, key) + (if key in Involved(t) then [t] else [])
  {
    if tasks == [] {
      assert [t] + [] == [t];
    } else {
      assert (tasks + [t])[0] == tasks[0] && (tasks + [t])[1..] == tasks[1..] + [t];
      TasksOfSnoc(tasks[1..], t, key);
    }
  }

  function Entry(byAgent: map<string, seq<LiveTask>>, key: string): seq<LiveTask> {
    if key in byAgent then byAgent[key] else []
  }

  /** Put one task under each agent involved in it. */
  method IndexTask(byAgent: map<string, seq<LiveTask>>, t: LiveTask) returns (more: map<string, seq<LiveTask>>)
    ensures forall key :: Entry(more, key) == Entry(byAgent, key) + (if key in Involved(t) then [t] else [])
  {
    more := byAgent;
    var involved := Involved(t);
    var rest := involved;
    while rest != {}
      invariant rest <= involved
      invariant forall key :: Entry(more, key) == Entry(byAgent, key) + (if key in involved && key !in rest then [t] else [])
    {
      var key :| key in rest;
      more := more[key := Entry(more, key) + [t]];
      rest := rest - {key};
    }
  }

  /** The map from agent to the cards it takes part in. */
  method IndexTasks(tasks: seq<LiveTask>) returns (byAgent: map<string, seq<LiveTask>>)
    ensures forall key :: Entry(byAgent, key) == TasksOf(tasks, key)
  {
    byAgent := map[];
    for i := 0 to |tasks|
      invariant forall key :: Entry(byAgent, key) == TasksOf(tasks[..i], key)
    {
      byAgent := IndexTask(byAgent, tasks[i]);
      assert tasks[..i + 1] == tasks[..i] + [tasks[i]];
      forall key ensures Entry(byAgent, key) == TasksOf(tasks[..i + 1], key) {
        TasksOfSnoc(tasks[..i], tasks[i], key);
      }
    }
    assert tasks[..|tasks|] == tasks;
  }

  function Decimal(n: nat): string {
    if n < 10 then ["0123456789"[n]] else Decimal(n / 10) + ["0123456789"[n % 10]]
  }

  function AgentNode(project: string, a: LiveAgent, tasks: seq<LiveTask>): Tree {
    var id := project + "::" + a.key;
    var mine := TasksOf(tasks, a.key);
    var cards := if mine == [] && a.task != "" then 1 else |mine|;
    Node(id, Worker, seq(cards, i requires 0 <= i < cards => Node(id + "::t" + Decimal(i), Task, [])))
  }

  function ProjectNode(project: string, details: map<string, Detail>): Tree {
    var det := if project in details then details[project] else Detail([], []);
    Node(project, Lead,
         seq(|det.agents|, i requires 0 <= i < |det.agents| => AgentNode(project, det.agents[i], det.tasks)))
  }

  function BuildLiveTree(projects: seq<string>, details: map<string, Detail>): Tree {
    Node("__fleet__", Orchestrator,
         seq(|projects|, i requires 0 <= i < |projects| => ProjectNode(projects[i], details)))
  }

  /** The tasks an agent takes part in, itself or through a subtask. */
  function TaskNumbers(tasks: seq<LiveTask>, key: string): set<nat> {
    set i: nat | i < |tasks| && (key in tasks[i].agents || (key != "" && key in tasks[i].subtaskAgents))
  }

  lemma TaskNumbersSnoc(tasks: seq<LiveTask>, t: LiveTask, key: string)
    ensures TaskNumbers(tasks + [t], key) == TaskNumbers(tasks, key) + if key in Involved(t) then {|tasks|} else {}
  {
    var more := tasks + [t];
    assert more[|tasks|] == t && forall i | 0 <= i < |tasks| :: more[i] == tasks[i];
  }

  lemma {:induction false} TasksAreCounted(tasks: seq<LiveTask>, key: string)
    ensures |TasksOf(tasks, key)| == |TaskNumbers(tasks, key)|
    decreases |tasks|
  {
    if tasks != [] {
      var last := |tasks| - 1;
      assert tasks == tasks[..last] + [tasks[last]];
      TasksAreCounted(tasks[..last], key);
      TasksOfSnoc(tasks[..last], tasks[last], key);
      TaskNumbersSnoc(tasks[..last], tasks[last], key);
    }
  }

  /** The node of one agent: a card for every task it takes part in; if there is none, one for its current task, if any. */
  ghost predicate Mirrors(node: Tree, project: string, agent: LiveAgent, tasks: seq<LiveTask>) {
    var cards := |TaskNumbers(tasks, agent.key)|;
    && node.id == project + "::" + agent.key
    && |node.kids| == (if cards > 0 then cards else if agent.task != "" then 1 else 0)
    && forall i | 0 <= i < |node.kids| ::
         node.kids[i].id == project + "::" + agent.key + "::t" + Decimal(i) && node.kids[i].kids == []
  }

  lemma AgentIsMirrored(project: string, agent: LiveAgent, tasks: seq<LiveTask>)
    ensures Mirrors(AgentNode(project, agent, tasks), project, agent, tasks)
  {
    TasksAreCounted(tasks, agent.key);
  }

  /** The live tree: a node for every project, under it one for every agent of its detail, with the agent's cards. */
  lemma LiveTreeMirrorsFleet(projects: seq<string>, details: map<string, Detail>)
    ensures var root := BuildLiveTree(projects, details);
            && |root.kids| == |projects|
            && (forall p | 0 <= p < |projects| ::
                  && root.kids[p].id == projects[p]
                  && |root.kids[p].kids| == (if projects[p] in details then |details[projects[p]].agents| else 0))
            && (forall p, a | 0 <= p < |projects| && projects[p] in details && 0 <= a < |details[projects[p]].agents| ::
                  Mirrors(root.kids[p].kids[a], projects[p], details[projects[p]].agents[a], details[projects[p]].tasks))
  {
    forall p, a | 0 <= p < |projects| && projects[p] in details && 0 <= a < |details[projects[p]].agents|
      ensures Mirrors(BuildLiveTree(projects, details).kids[p].kids[a], projects[p], details[projects[p]].agents[a],
                      details[projects[p]].tasks)
    {
      AgentIsMirrored(projects[p], details[projects[p]].agents[a], details[projects[p]].tasks);
    }
  }

  lemma AgentLevelled(project: string, a: LiveAgent, tasks: seq<LiveTask>)
    ensures WellLevelled(AgentNode(project, a, tasks))
  {
    var n := AgentNode(project, a, tasks);
    forall k | k in n.kids
      ensures Level(k.kind) == Level(n.kind) + 1 && WellLevelled(k)
    {
      assert k.kind == Task && k.kids == [];
    }
  }

  lemma ProjectLevelled(project: string, details: map<string, Detail>)
    ensures WellLevelled(ProjectNode(project, details))
  {
    var det := if project in details then details[project] else Detail([], []);
    forall i | 0 <= i < |det.agents| { AgentLevelled(project, det.agents[i], det.tasks); }
  }

  /** Whatever the server reports and whatever is folded away, the drawn fleet never overlaps. */
  lemma LiveFleetNeverOverlaps(projects: seq<string>, details: map<string, Detail>, collapsed: set<string>)
    ensures var picture := Draw(BuildLiveTree(projects, details), collapsed);
            && AllApart(picture.nodes)
            && AllHang([BuildLiveTree(projects, details)], collapsed, picture.nodes, picture.links)
            && (forall b | b in picture.nodes ::
                  b.x + Half(b.kind) <= picture.width as real && b.y + b.h <= picture.height)
  {
    var root := BuildLiveTree(projects, details);
    forall i | 0 <= i < |projects| { ProjectLevelled(projects[i], details); }
    assert WellLevelled(root);
    NoOverlap(root, collapsed);
    ParentsCentred(root, 0, collapsed, 0);
  }
}
