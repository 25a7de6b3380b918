/** The parent graph of the repository and the ancestor trees built from it
    (the "parents" breadcrumb data), with reachability along parent edges. */
module Hierarchy {

  /** One node of an ancestor tree: an object and the trees of its parents. */
  datatype TreeNode = TreeNode(pid: string, title: string, parents: seq<TreeNode>)

  /** The immediate parents of each object; an object missing from the map has none. */
  type Graph = map<string, seq<string>>

  function ParentsOf(g: Graph, pid: string): seq<string>
  {
    if pid in g then g[pid] else []
  }

  function TitleOf(titles: map<string, string>, pid: string): string
  {
    if pid in titles then titles[pid] else ""
  }

  /** Every object the graph mentions. */
  function Nodes(g: Graph): set<string>
  {
    g.Keys + set x, p | x in g && p in g[x] :: p
  }

  // ---- Ancestor trees ----

  /** The full ancestor tree of `pid`: every parent chain to the roots, one
      branch per path. A parent already on the current branch (a cycle in
      malformed data) is not expanded again. */
  function AncestorTree(g: Graph, titles: map<string, string>, pid: string): TreeNode
  {
    NodeTree(g, titles, pid, {})
  }

  function NodeTree(g: Graph, titles: map<string, string>, pid: string, seen: set<string>): TreeNode
    requires pid !in seen
    decreases |Nodes(g) - seen|, 0
  {
    TreeNode(pid, TitleOf(titles, pid),
      if pid in g then
        assert pid in Nodes(g);
        FewerUnseen(Nodes(g), seen, pid);
        Branches(g, titles, g[pid], seen + {pid})
      else [])
  }

  function Branches(g: Graph, titles: map<string, string>, ps: seq<string>, seen: set<string>): seq<TreeNode>
    requires forall p :: p in ps ==> p in Nodes(g)
    decreases |Nodes(g) - seen|, |ps| + 1
  {
    if |ps| == 0 then []
    else
      (if ps[0] in seen then [] else [NodeTree(g, titles, ps[0], seen)])
      + Branches(g, titles, ps[1..], seen)
  }

  lemma FewerUnseen(all: set<string>, seen: set<string>, x: string)
    requires x in all && x !in seen
    ensures |all - (seen + {x})| < |all - seen|
  {
    assert all - seen == (all - (seen + {x})) + {x};
  }

  /** A parent edge in front of a path is a path. */
  lemma PrependEdge(g: Graph, pid: string, path: seq<string>)
    requires IsPath(g, path) && path[0] in ParentsOf(g, pid)
    ensures IsPath(g, [pid] + path)
  {
    var longer := [pid] + path;
    forall j | 0 <= j < |longer| - 1 ensures longer[j + 1] in ParentsOf(g, longer[j]) {
      if j > 0 {
        assert longer[j] == path[j - 1] && longer[j + 1] == path[j];
      }
    }
  }

  /** `getHierarchy(pid, true)`: the object and its immediate parents, unexpanded. */
  function ShallowTree(g: Graph, titles: map<string, string>, pid: string): TreeNode
  {
    var ps := ParentsOf(g, pid);
    TreeNode(pid, TitleOf(titles, pid), seq(|ps|, i requires 0 <= i < |ps| => TreeNode(ps[i], TitleOf(titles, ps[i]), [])))
  }

  /** `pid` appears somewhere in the tree. */
  predicate InTree(t: TreeNode, pid: string)
  {
    t.pid == pid || exists i :: 0 <= i < |t.parents| && InTree(t.parents[i], pid)
  }

  // ---- Paths ----

  /** A walk along parent edges, from child to ancestor. */
  ghost predicate IsPath(g: Graph, path: seq<string>)
  {
    |path| >= 1 && forall i :: 0 <= i < |path| - 1 ==> path[i + 1] in ParentsOf(g, path[i])
  }

  /** `x` is `a` or one of its ancestors at any depth. */
  ghost predicate Reachable(g: Graph, a: string, x: string)
  {
    exists path :: IsPath(g, path) && path[0] == a && path[|path| - 1] == x
  }

  ghost predicate Distinct(path: seq<string>)
  {
    forall i, j :: 0 <= i < j < |path| ==> path[i] != path[j]
  }

  /** No object is an ancestor of one of its own parents. */
  ghost predicate Acyclic(g: Graph)
  {
    forall x, y :: y in ParentsOf(g, x) ==> !Reachable(g, y, x)
  }

  // ---- Soundness: everything in the tree is an ancestor ----

  lemma {:induction false} NodeTreeSound(g: Graph, titles: map<string, string>, pid: string, seen: set<string>, x: string)
    requires pid !in seen
    requires InTree(NodeTree(g, titles, pid, seen), x)
    ensures Reachable(g, pid, x)
    decreases |Nodes(g) - seen|, 0
  {
    var t := NodeTree(g, titles, pid, seen);
    if pid == x {
      assert IsPath(g, [pid]);
    } else {
      var i :| 0 <= i < |t.parents| && InTree(t.parents[i], x);
      assert pid in g;
      FewerUnseen(Nodes(g), seen, pid);
      assert t.parents == Branches(g, titles, g[pid], seen + {pid});
      var p := BranchesSound(g, titles, g[pid], seen + {pid}, i, x);
      ReachViaParent(g, pid, p, x);
    }
  }

  /** An ancestor of a parent is an ancestor. */
  lemma ReachViaParent(g: Graph, pid: string, p: string, x: string)
    requires p in ParentsOf(g, pid) && Reachable(g, p, x)
    ensures Reachable(g, pid, x)
  {
    var path :| IsPath(g, path) && path[0] == p && path[|path| - 1] == x;
    PrependEdge(g, pid, path);
    assert ([pid] + path)[|path|] == x;
  }

  lemma {:induction false} BranchesSound(g: Graph, titles: map<string, string>, ps: seq<string>, seen: set<string>, i: nat, x: string)
      returns (p: string)
    requires forall q :: q in ps ==> q in Nodes(g)
    requires i < |Branches(g, titles, ps, seen)| && InTree(Branches(g, titles, ps, seen)[i], x)
    ensures p in ps && Reachable(g, p, x)
    decreases |Nodes(g) - seen|, |ps| + 1
  {
    var head := if ps[0] in seen then [] else [NodeTree(g, titles, ps[0], seen)];
    var rest := Branches(g, titles, ps[1..], seen);
    assert Branches(g, titles, ps, seen) == head + rest;
    if i < |head| {
      NodeTreeSound(g, titles, ps[0], seen, x);
      p := ps[0];
    } else {
      assert (head + rest)[i] == rest[i - |head|];
      p := BranchesSound(g, titles, ps[1..], seen, i - |head|, x);
    }
  }

  /** Every object in the full ancestor tree of `pid` is reachable from it. */
  lemma AncestorTreeSound(g: Graph, titles: map<string, string>, pid: string, x: string)
    requires InTree(AncestorTree(g, titles, pid), x)
    ensures Reachable(g, pid, x)
  {
    NodeTreeSound(g, titles, pid, {}, x);
  }

  // ---- Completeness: every ancestor is in the tree ----

  lemma {:induction false} BranchesInclude(g: Graph, titles: map<string, string>, ps: seq<string>, seen: set<string>, q: string)
      returns (i: nat)
    requires forall p :: p in ps ==> p in Nodes(g)
    requires q in ps && q !in seen
    ensures i < |Branches(g, titles, ps, seen)| && Branches(g, titles, ps, seen)[i] == NodeTree(g, titles, q, seen)
    decreases |ps|
  {
    var head := if ps[0] in seen then [] else [NodeTree(g, titles, ps[0], seen)];
    var rest := Branches(g, titles, ps[1..], seen);
    BranchesCons(g, titles, ps, seen);
    if ps[0] == q {
      i := 0;
    } else {
      assert q in ps[1..];
      var k := BranchesInclude(g, titles, ps[1..], seen, q);
      i := |head| + k;
      IndexPastHead(head, rest, k);
    }
  }

  /** One step of `Branches`: the head's tree, unless seen, before the rest's. */
  lemma BranchesCons(g: Graph, titles: map<string, string>, ps: seq<string>, seen: set<string>)
    requires forall p :: p in ps ==> p in Nodes(g)
    requires |ps| > 0
    ensures Branches(g, titles, ps, seen)
      == (if ps[0] in seen then [] else [NodeTree(g, titles, ps[0], seen)]) + Branches(g, titles, ps[1..], seen)
  {
  }

  lemma IndexPastHead<T>(head: seq<T>, rest: seq<T>, k: nat)
    requires k < |rest|
    ensures |head| + k < |head + rest| && (head + rest)[|head| + k] == rest[k]
  {
  }

  /** A repetition-free path whose nodes avoid `seen` is a branch of the tree. */
  lemma {:induction false} SimplePathInTree(g: Graph, titles: map<string, string>, path: seq<string>, seen: set<string>)
    requires IsPath(g, path) && Distinct(path)
    requires forall i :: 0 <= i < |path| ==> path[i] !in seen
    ensures InTree(NodeTree(g, titles, path[0], seen), path[|path| - 1])
    decreases |path|
  {
    if |path| > 1 {
      var pid := path[0];
      var q := path[1];
      assert q in ParentsOf(g, pid);
      assert pid in g;
      assert q != pid && q !in seen;
      var tail := path[1..];
      assert IsPath(g, tail) by {
        forall j | 0 <= j < |tail| - 1 ensures tail[j + 1] in ParentsOf(g, tail[j]) {
          assert tail[j] == path[j + 1] && tail[j + 1] == path[j + 2];
        }
      }
      assert forall i :: 0 <= i < |tail| ==> tail[i] !in seen + {pid} by {
        forall i | 0 <= i < |tail| ensures tail[i] !in seen + {pid} {
          assert tail[i] == path[i + 1];
        }
      }
      SimplePathInTree(g, titles, tail, seen + {pid});
      var i := BranchesInclude(g, titles, g[pid], seen + {pid}, q);
      assert NodeTree(g, titles, pid, seen).parents[i] == NodeTree(g, titles, q, seen + {pid});
    }
  }

  /** A path with a repeated node can be shortened to one without. */
  lemma {:induction false} ShortenPath(g: Graph, path: seq<string>) returns (simple: seq<string>)
    requires IsPath(g, path)
    ensures IsPath(g, simple) && Distinct(simple)
    ensures simple[0] == path[0] && simple[|simple| - 1] == path[|path| - 1]
    decreases |path|
  {
    if Distinct(path) {
      simple := path;
    } else {
      var i, j :| 0 <= i < j < |path| && path[i] == path[j];
      var cut := path[..i] + path[j..];
      assert |cut| < |path|;
      assert IsPath(g, cut) by {
        forall k | 0 <= k < |cut| - 1 ensures cut[k + 1] in ParentsOf(g, cut[k]) {
          if k + 1 < i {
            assert cut[k] == path[k] && cut[k + 1] == path[k + 1];
          } else if k + 1 == i {
            assert cut[k] == path[k] && cut[k + 1] == path[j] == path[k + 1];
          } else {
            assert cut[k] == path[k - i + j] && cut[k + 1] == path[k - i + j + 1];
          }
        }
      }
      if i == 0 {
        assert cut[0] == path[j] == path[0];
      } else {
        assert cut[0] == path[0];
      }
      assert cut[|cut| - 1] == path[|path| - 1];
      simple := ShortenPath(g, cut);
    }
  }

  /** Every ancestor of `pid` appears in its full ancestor tree. */
  lemma AncestorTreeComplete(g: Graph, titles: map<string, string>, pid: string, x: string)
    requires Reachable(g, pid, x)
    ensures InTree(AncestorTree(g, titles, pid), x)
  {
    var path :| IsPath(g, path) && path[0] == pid && path[|path| - 1] == x;
    var simple := ShortenPath(g, path);
    SimplePathInTree(g, titles, simple, {});
  }

  /** Tree membership is exactly reachability. */
  lemma AncestorTreeExact(g: Graph, titles: map<string, string>, pid: string, x: string)
    ensures InTree(AncestorTree(g, titles, pid), x) <==> Reachable(g, pid, x)
  {
    if InTree(AncestorTree(g, titles, pid), x) {
      AncestorTreeSound(g, titles, pid, x);
    }
    if Reachable(g, pid, x) {
      AncestorTreeComplete(g, titles, pid, x);
    }
  }

  // ---- Editing the graph ----

  /** `pid` gains the parent `parent` (adding an existing relationship changes nothing). */
  function AddParentEdge(g: Graph, pid: string, parent: string): Graph
  {
    var ps := ParentsOf(g, pid);
    g[pid := if parent in ps then ps else ps + [parent]]
  }

  /** `ps` without any occurrence of `x`. */
  function Without(ps: seq<string>, x: string): (r: seq<string>)
    ensures forall q :: q in r <==> q in ps && q != x
    ensures |r| <= |ps|
    ensures x !in ps ==> r == ps
  {
    if |ps| == 0 then []
    else (if ps[0] == x then [] else [ps[0]]) + Without(ps[1..], x)
  }

  /** Removal keeps the other elements in their order: it acts on each part
      of a concatenation separately. */
  lemma {:induction false} WithoutAppend(a: seq<string>, b: seq<string>, x: string)
    ensures Without(a + b, x) == Without(a, x) + Without(b, x)
    decreases |a|
  {
    if |a| > 0 {
      assert (a + b)[1..] == a[1..] + b;
      var h, rest, tail := if a[0] == x then [] else [a[0]], Without(a[1..], x), Without(b, x);
      WithoutAppend(a[1..], b, x);
      assert Without(a + b, x) == h + (rest + tail);
      assert h + (rest + tail) == (h + rest) + tail;
    } else {
      assert a + b == b;
    }
  }

  /** Each single copy of `x` is dropped, and any other element kept. */
  lemma WithoutSingle(y: string, x: string)
    ensures Without([y], x) == if y == x then [] else [y]
  {
    assert [y][1..] == [];
  }

  /** `pid` loses the parent `parent`. */
  function RemoveParentEdge(g: Graph, pid: string, parent: string): Graph
  {
    g[pid := Without(ParentsOf(g, pid), parent)]
  }

  /** All of `pid`'s parents are replaced by `parent` alone. */
  function ReplaceParents(g: Graph, pid: string, parent: string): Graph
  {
    g[pid := [parent]]
  }

  /** Every edge of `h` is an edge of `g`. */
  ghost predicate Subgraph(h: Graph, g: Graph)
  {
    forall x, y :: y in ParentsOf(h, x) ==> y in ParentsOf(g, x)
  }

  lemma SubgraphReach(h: Graph, g: Graph, a: string, x: string)
    requires Subgraph(h, g) && Reachable(h, a, x)
    ensures Reachable(g, a, x)
  {
    var path :| IsPath(h, path) && path[0] == a && path[|path| - 1] == x;
    assert IsPath(g, path);
  }

  /** Removing edges cannot create a cycle. */
  lemma AcyclicSubgraph(h: Graph, g: Graph)
    requires Subgraph(h, g) && Acyclic(g)
    ensures Acyclic(h)
  {
    forall x, y | y in ParentsOf(h, x) ensures !Reachable(h, y, x) {
      if Reachable(h, y, x) {
        SubgraphReach(h, g, y, x);
      }
    }
  }

  lemma RemoveParentEdgeShrinks(g: Graph, pid: string, parent: string)
    ensures Subgraph(RemoveParentEdge(g, pid, parent), g)
    ensures parent !in ParentsOf(RemoveParentEdge(g, pid, parent), pid)
  {
  }

  /** Ancestry is transitive. */
  lemma ReachTrans(g: Graph, a: string, b: string, x: string)
    requires Reachable(g, a, b) && Reachable(g, b, x)
    ensures Reachable(g, a, x)
  {
    var p1 :| IsPath(g, p1) && p1[0] == a && p1[|p1| - 1] == b;
    var p2 :| IsPath(g, p2) && p2[0] == b && p2[|p2| - 1] == x;
    var joined := p1 + p2[1..];
    forall j | 0 <= j < |joined| - 1 ensures joined[j + 1] in ParentsOf(g, joined[j]) {
      if j + 1 < |p1| {
        assert joined[j] == p1[j] && joined[j + 1] == p1[j + 1];
      } else {
        assert joined[j] == p2[j - |p1| + 1] && joined[j + 1] == p2[j - |p1| + 2];
      }
    }
    assert IsPath(g, joined);
    if |p2| == 1 {
      assert joined == p1;
    } else {
      assert joined[|joined| - 1] == p2[|p2| - 1];
    }
  }

  /** After `pid` gains `parent`, an ancestor is either an old ancestor or
      reached through the new edge, provided `pid` was not already an ancestor
      of `parent`. */
  lemma {:induction false} ReachAfterAdd(g: Graph, pid: string, parent: string, path: seq<string>)
    requires !Reachable(g, parent, pid)
    requires IsPath(AddParentEdge(g, pid, parent), path)
    ensures Reachable(g, path[0], path[|path| - 1])
      || (Reachable(g, path[0], pid) && Reachable(g, parent, path[|path| - 1]))
    decreases |path|
  {
    var g' := AddParentEdge(g, pid, parent);
    var a := path[0];
    var last := path[|path| - 1];
    if |path| == 1 {
      assert IsPath(g, [a]);
    } else {
      var rest := path[1..];
      var b := rest[0];
      assert IsPath(g', rest) by {
        forall j | 0 <= j < |rest| - 1 ensures rest[j + 1] in ParentsOf(g', rest[j]) {
          assert rest[j] == path[j + 1] && rest[j + 1] == path[j + 2];
        }
      }
      assert rest[|rest| - 1] == last;
      ReachAfterAdd(g, pid, parent, rest);
      assert b in ParentsOf(g', a);
      if b in ParentsOf(g, a) {
        if Reachable(g, b, last) {
          ReachViaParent(g, a, b, last);
        } else {
          ReachViaParent(g, a, b, pid);
        }
      } else {
        if Reachable(g, parent, last) {
          assert IsPath(g, [a]);
        }
      }
    }
  }

  /** The grandparent rule is enough: if `pid` is not among the ancestors of
      `parent`, making `parent` a parent of `pid` keeps the graph acyclic. */
  lemma AttachKeepsAcyclic(g: Graph, pid: string, parent: string)
    requires Acyclic(g) && !Reachable(g, parent, pid)
    ensures Acyclic(AddParentEdge(g, pid, parent))
  {
    var g' := AddParentEdge(g, pid, parent);
    forall x, y | y in ParentsOf(g', x) ensures !Reachable(g', y, x) {
      if Reachable(g', y, x) {
        var path :| IsPath(g', path) && path[0] == y && path[|path| - 1] == x;
        ReachAfterAdd(g, pid, parent, path);
        if y in ParentsOf(g, x) {
          if !Reachable(g, y, x) {
            ReachViaParent(g, x, y, pid);
            ReachTrans(g, parent, x, pid);
          }
        }
      }
    }
  }

  /** Moving `pid` under `parent` alone keeps the graph acyclic under the same condition. */
  lemma MoveKeepsAcyclic(g: Graph, pid: string, parent: string)
    requires Acyclic(g) && !Reachable(g, parent, pid)
    ensures Acyclic(ReplaceParents(g, pid, parent))
  {
    var bare := g[pid := []];
    assert Subgraph(bare, g);
    AcyclicSubgraph(bare, g);
    if Reachable(bare, parent, pid) {
      SubgraphReach(bare, g, parent, pid);
    }
    AttachKeepsAcyclic(bare, pid, parent);
    assert ParentsOf(bare, pid) == [] && [] + [parent] == [parent];
    assert AddParentEdge(bare, pid, parent) == ReplaceParents(g, pid, parent);
  }

  /** Detaching keeps the graph acyclic. */
  lemma DetachKeepsAcyclic(g: Graph, pid: string, parent: string)
    requires Acyclic(g)
    ensures Acyclic(RemoveParentEdge(g, pid, parent))
  {
    RemoveParentEdgeShrinks(g, pid, parent);
    AcyclicSubgraph(RemoveParentEdge(g, pid, parent), g);
  }
}
