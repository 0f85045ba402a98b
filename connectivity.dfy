/**
 * Edge labels and their propagation along links between cells
 * (Cell.update_side, Cell.sides_connected, Cell.add_link in classes.py).
 * Links and label sets are held per coordinate; a link is a coordinate in
 * the linking cell's neighbour set.
 */
module Connectivity {
  import opened Geometry

  /** The two edge labels: Zero is '0', Equals is '='. */
  datatype Side = Zero | Equals

  /** Each cell's linked neighbours (Cell._neighbours). */
  type Links = map<Coord, set<Coord>>

  /** Each cell's edge labels (Cell._connected). */
  type Labels = map<Coord, set<Side>>

  /** A cell reaches both edges: it holds both labels. */
  predicate SidesConnected(labels: set<Side>)
  {
    Zero in labels && Equals in labels
  }

  /** There are just the two labels, so a cell reaching both edges holds every label there is. */
  lemma SidesConnectedAll(labels: set<Side>)
    ensures SidesConnected(labels) <==> labels == {Zero, Equals}
  {
    if SidesConnected(labels) {
      forall x | x in labels
        ensures x in {Zero, Equals}
      {
        assert x.Zero? || x.Equals?;
      }
    }
  }

  /** Links point only at cells that exist, and every cell has a label set. */
  ghost predicate WellFormed(links: Links, labels: Labels)
  {
    labels.Keys == links.Keys && forall a :: a in links ==> links[a] <= links.Keys
  }

  /** Every link is matched by the link back. */
  ghost predicate Symmetric(links: Links)
  {
    forall a, b {:trigger b in links[a]} :: a in links && b in links[a] ==> b in links && a in links[b]
  }

  /** p is a walk along links. */
  ghost predicate IsPath(links: Links, p: seq<Coord>)
  {
    |p| > 0 && forall i :: 0 <= i < |p| - 1 ==> p[i] in links && p[i + 1] in links[p[i]]
  }

  /** b can be reached from a by following links (zero or more of them). */
  ghost predicate Reachable(links: Links, a: Coord, b: Coord)
  {
    exists p {:trigger IsPath(links, p)} :: IsPath(links, p) && p[0] == a && p[|p| - 1] == b
  }

  /** Label s is passed along every link, except possibly the links into c. */
  ghost predicate SideFlowsExceptInto(links: Links, labels: Labels, s: Side, c: Coord)
  {
    forall a, b {:trigger b in links[a], s in labels[a]} :: a in links && b in links[a] && a in labels && b in labels && b != c && s in labels[a] ==>
      s in labels[b]
  }

  /** Label s is passed along every link. */
  ghost predicate SideFlows(links: Links, labels: Labels, s: Side)
  {
    forall a, b {:trigger b in links[a], s in labels[a]} :: a in links && b in links[a] && a in labels && b in labels && s in labels[a] ==>
      s in labels[b]
  }

  /** Every label is passed along every link: a linked neighbour holds all its linker's labels. */
  ghost predicate LabelsFlow(links: Links, labels: Labels)
  {
    SideFlows(links, labels, Zero) && SideFlows(links, labels, Equals)
  }

  /**
   * What update_side(s) started at c leaves behind: s is added to every cell
   * reachable from c, and nothing else changes.
   */
  ghost function Flooded(links: Links, labels: Labels, c: Coord, s: Side): (r: Labels)
    ensures r.Keys == labels.Keys
  {
    map d | d in labels :: if Reachable(links, c, d) then labels[d] + {s} else labels[d]
  }

  lemma ReachableSelf(links: Links, a: Coord)
    ensures Reachable(links, a, a)
  {
    assert IsPath(links, [a]);
  }

  /** A walk extends by one link at its end. */
  lemma ReachableAppend(links: Links, a: Coord, b: Coord, c: Coord)
    requires Reachable(links, a, b) && b in links && c in links[b]
    ensures Reachable(links, a, c)
  {
    var p :| IsPath(links, p) && p[0] == a && p[|p| - 1] == b;
    var q := p + [c];
    assert IsPath(links, q);
  }

  /** A walk extends by one link at its start. */
  lemma ReachablePrepend(links: Links, a: Coord, b: Coord, c: Coord)
    requires a in links && b in links[a] && Reachable(links, b, c)
    ensures Reachable(links, a, c)
  {
    var p :| IsPath(links, p) && p[0] == b && p[|p| - 1] == c;
    var q := [a] + p;
    assert forall i :: 1 <= i < |q| ==> q[i] == p[i - 1];
    assert IsPath(links, q);
  }

  /** Adding links never makes a cell unreachable. */
  lemma ReachableMono(links: Links, more: Links, a: Coord, b: Coord)
    requires forall x :: x in links ==> x in more && links[x] <= more[x]
    requires Reachable(links, a, b)
    ensures Reachable(more, a, b)
  {
    var p :| IsPath(links, p) && p[0] == a && p[|p| - 1] == b;
    assert IsPath(more, p);
  }

  /** Linking two cells both ways keeps the links symmetric. */
  lemma SymmetricJoin(links: Links, a: Coord, b: Coord)
    requires Symmetric(links) && a in links && b in links && a != b
    ensures Symmetric(links[a := links[a] + {b}][b := links[b] + {a}])
  {
  }

  /** Adding one link never makes a cell unreachable. */
  lemma ReachableAddLink(links: Links, a: Coord, b: Coord, x: Coord, y: Coord)
    requires a in links && Reachable(links, x, y)
    ensures Reachable(links[a := links[a] + {b}], x, y)
  {
    ReachableMono(links, links[a := links[a] + {b}], x, y);
  }

  /** A walk that ends elsewhere leaves its start cell by a link. */
  lemma ReachableOtherLeaves(links: Links, a: Coord, b: Coord)
    requires Reachable(links, a, b) && b != a
    ensures a in links && links[a] != {}
  {
    var p :| IsPath(links, p) && p[0] == a && p[|p| - 1] == b;
    assert p[0] in links && p[1] in links[p[0]];
  }

  /** A cell reached by at least one link is the target of some link. */
  lemma ReachableOtherIsLinkedTo(links: Links, a: Coord, b: Coord)
    requires Reachable(links, a, b) && b != a
    ensures exists m :: m in links && b in links[m]
  {
    var p :| IsPath(links, p) && p[0] == a && p[|p| - 1] == b;
    assert p[|p| - 2] in links && p[|p| - 1] in links[p[|p| - 2]];
  }

  /** With symmetric links, reachability is symmetric. */
  lemma ReachableReverse(links: Links, a: Coord, b: Coord)
    requires Symmetric(links) && Reachable(links, a, b)
    ensures Reachable(links, b, a)
  {
    var p :| IsPath(links, p) && p[0] == a && p[|p| - 1] == b;
    var n := |p|;
    var q := seq(n, i requires 0 <= i < n => p[n - 1 - i]);
    forall i | 0 <= i < n - 1
      ensures q[i] in links && q[i + 1] in links[q[i]]
    {
      var k := n - 1 - i;
      assert p[k - 1] in links && p[k] in links[p[k - 1]];
    }
    assert IsPath(links, q);
  }

  /** A label that flows along every link is held along the whole of any walk from a cell that holds it. */
  lemma {:induction false} PathCarriesSide(links: Links, labels: Labels, s: Side, p: seq<Coord>)
    requires WellFormed(links, labels) && SideFlows(links, labels, s)
    requires IsPath(links, p) && p[0] in labels && s in labels[p[0]]
    ensures p[|p| - 1] in labels && s in labels[p[|p| - 1]]
    decreases |p|
  {
    if |p| > 1 {
      var q := p[..|p| - 1];
      assert IsPath(links, q);
      PathCarriesSide(links, labels, s, q);
      assert p[|p| - 2] in links && p[|p| - 1] in links[p[|p| - 2]];
    }
  }

  /** A label that flows along every link reaches every cell reachable from a cell that holds it. */
  lemma SideReachesAll(links: Links, labels: Labels, s: Side, a: Coord, b: Coord)
    requires WellFormed(links, labels) && SideFlows(links, labels, s)
    requires a in labels && s in labels[a] && Reachable(links, a, b)
    ensures b in labels && s in labels[b]
  {
    var p :| IsPath(links, p) && p[0] == a && p[|p| - 1] == b;
    PathCarriesSide(links, labels, s, p);
  }

  /**
   * update_side with a label the start cell already holds changes nothing,
   * provided the label already flows along every link except those into
   * the start cell.
   */
  lemma FloodIdempotent(links: Links, labels: Labels, c: Coord, s: Side)
    requires WellFormed(links, labels) && c in labels && SideFlowsExceptInto(links, labels, s, c)
    requires s in labels[c]
    ensures Flooded(links, labels, c, s) == labels
  {
    var after := Flooded(links, labels, c, s);
    forall d | d in labels
      ensures after[d] == labels[d]
    {
      if Reachable(links, c, d) {
        SideReachesAll(links, labels, s, c, d);
      }
    }
  }

  /**
   * After the flood the label flows along every link, the links into the
   * start cell included.
   */
  lemma FloodRestoresFlow(links: Links, labels: Labels, c: Coord, s: Side)
    requires WellFormed(links, labels) && c in labels && SideFlowsExceptInto(links, labels, s, c)
    ensures SideFlows(links, Flooded(links, labels, c, s), s)
  {
    var after := Flooded(links, labels, c, s);
    forall a, b | a in links && b in links[a] && a in after && b in after && s in after[a]
      ensures s in after[b]
    {
      if Reachable(links, c, a) {
        ReachableAppend(links, c, a, b);
      } else if b == c {
        ReachableSelf(links, c);
      }
    }
  }

  /** The flood leaves every other label where it was. */
  lemma FloodKeepsOtherSides(links: Links, labels: Labels, c: Coord, s: Side, t: Side)
    requires t != s
    ensures forall d :: d in labels ==> (t in Flooded(links, labels, c, s)[d] <==> t in labels[d])
  {
  }

  /**
   * Along symmetric links with every label flowing, a chain of linked cells
   * shares one label set.
   */
  lemma ChainShares(links: Links, labels: Labels, a: Coord, b: Coord)
    requires WellFormed(links, labels) && LabelsFlow(links, labels) && Symmetric(links)
    requires a in labels && Reachable(links, a, b)
    ensures b in labels && labels[b] == labels[a]
  {
    ReachableReverse(links, a, b);
    if b != a {
      ReachableOtherIsLinkedTo(links, a, b);
    }
    forall s | s in labels[a]
      ensures s in labels[b]
    {
      assert SideFlows(links, labels, s) by { assert s == Zero || s == Equals; }
      SideReachesAll(links, labels, s, a, b);
    }
    forall s | s in labels[b]
      ensures s in labels[a]
    {
      assert SideFlows(links, labels, s) by { assert s == Zero || s == Equals; }
      SideReachesAll(links, labels, s, b, a);
    }
  }

  /** Every label held by some cell of ns. */
  function Gathered(labels: Labels, ns: set<Coord>): (r: set<Side>)
    ensures forall s :: s in r <==> exists n :: n in ns && n in labels && s in labels[n]
  {
    set n, s | n in ns && n in labels && s in labels[n] :: s
  }

  /**
   * Each cell of labels is as in start, or has gained s and is reachable
   * from c: the state of a flood of s from c that is under way.
   */
  ghost predicate GrownFrom(links: Links, start: Labels, labels: Labels, c: Coord, s: Side)
  {
    labels.Keys == start.Keys &&
    forall d :: d in labels ==> labels[d] == start[d] || (labels[d] == start[d] + {s} && Reachable(links, c, d))
  }

  /** Label s is passed along every link leaving a cell outside work. */
  ghost predicate FlowsOutside(links: Links, labels: Labels, s: Side, work: set<Coord>)
  {
    forall a, b {:trigger b in links[a], s in labels[a]} :: a in links && b in links[a] && a !in work && a in labels && b in labels && s in labels[a] ==>
      s in labels[b]
  }

  /** Giving s to one more cell reachable from c keeps the flood under way. */
  lemma GrowFlood(links: Links, start: Labels, labels: Labels, c: Coord, s: Side, n: Coord)
    requires GrownFrom(links, start, labels, c, s)
    requires n in labels && s !in labels[n] && Reachable(links, c, n)
    ensures GrownFrom(links, start, labels[n := labels[n] + {s}], c, s)
  {
  }

  /** Giving s to a cell and putting it on the worklist keeps the flow outside the worklist. */
  lemma FlowsOutsideGrow(links: Links, labels: Labels, s: Side, work: set<Coord>, n: Coord)
    requires FlowsOutside(links, labels, s, work) && n in labels
    ensures FlowsOutside(links, labels[n := labels[n] + {s}], s, work + {n})
  {
  }

  /**
   * A flood under way from c whose worklist is empty is finished: s flows
   * along every link, and the labels are exactly the flooded ones.
   */
  lemma FloodComplete(links: Links, start: Labels, labels: Labels, c: Coord, s: Side)
    requires WellFormed(links, labels) && c in labels && s in labels[c]
    requires GrownFrom(links, start, labels, c, s) && FlowsOutside(links, labels, s, {})
    ensures labels == Flooded(links, start, c, s) && SideFlows(links, labels, s)
  {
    forall d | d in labels
      ensures labels[d] == Flooded(links, start, c, s)[d]
    {
      if Reachable(links, c, d) {
        SideReachesAll(links, labels, s, c, d);
      }
    }
  }

  /** Flooding s leaves the flow of every other label as it was. */
  lemma FloodKeepsFlow(links: Links, labels: Labels, c: Coord, s: Side, t: Side, x: Coord)
    requires t != s
    ensures SideFlows(links, labels, t) ==> SideFlows(links, Flooded(links, labels, c, s), t)
    ensures SideFlowsExceptInto(links, labels, t, x) ==> SideFlowsExceptInto(links, Flooded(links, labels, c, s), t, x)
  {
    FloodKeepsOtherSides(links, labels, c, s, t);
  }

  /** The labels ls pushed from c: every cell reachable from c gains them. */
  ghost function Pushed(links: Links, labels: Labels, c: Coord, ls: set<Side>): (r: Labels)
    ensures r.Keys == labels.Keys
  {
    map d | d in labels :: if Reachable(links, c, d) then labels[d] + ls else labels[d]
  }

  /** What add_link(a, b) leaves: a's labels pushed from b along the links. */
  ghost function Linked(links: Links, labels: Labels, a: Coord, b: Coord): (r: Labels)
    requires a in labels
    ensures r.Keys == labels.Keys
  {
    Pushed(links, labels, b, labels[a])
  }

  /** Pushing no labels changes nothing. */
  lemma PushNothing(links: Links, labels: Labels, c: Coord)
    ensures Pushed(links, labels, c, {}) == labels
  {
    assert forall d :: d in labels ==> Pushed(links, labels, c, {})[d] == labels[d];
  }

  /** Flooding one more label is pushing one more label. */
  lemma PushOneMore(links: Links, labels: Labels, c: Coord, ls: set<Side>, s: Side)
    ensures Flooded(links, Pushed(links, labels, c, ls), c, s) == Pushed(links, labels, c, ls + {s})
  {
    var l := Flooded(links, Pushed(links, labels, c, ls), c, s);
    var r := Pushed(links, labels, c, ls + {s});
    assert forall d :: d in labels ==> l[d] == r[d];
  }

  /**
   * A new link a -> b may stop a label flowing only into b, and only a
   * label a holds.
   */
  lemma NewLinkFlows(links: Links, labels: Labels, a: Coord, b: Coord, s: Side)
    requires LabelsFlow(links, labels) && a in links && a in labels
    ensures SideFlowsExceptInto(links[a := links[a] + {b}], labels, s, b)
    ensures s !in labels[a] ==> SideFlows(links[a := links[a] + {b}], labels, s)
  {
    assert SideFlows(links, labels, s) by {
      assert s == Zero || s == Equals;
    }
  }

  /** On a cell without links, update_side labels that cell alone. */
  lemma FloodUnlinked(links: Links, labels: Labels, c: Coord, s: Side)
    requires c in links && links[c] == {} && c in labels
    ensures Flooded(links, labels, c, s) == labels[c := labels[c] + {s}]
  {
    ReachableSelf(links, c);
    forall d | d in labels && d != c
      ensures !Reachable(links, c, d)
    {
      if Reachable(links, c, d) {
        ReachableOtherLeaves(links, c, d);
        assert false;
      }
    }
  }

  /** Gathering one more cell adds exactly that cell's labels. */
  lemma GatheredAdd(labels: Labels, ns: set<Coord>, n: Coord)
    requires n in labels
    ensures Gathered(labels, ns + {n}) == Gathered(labels, ns) + labels[n]
  {
  }

  /** Labels of cells outside ns do not matter to what ns gathers. */
  lemma GatheredIgnores(labels: Labels, ns: set<Coord>, t: Coord, v: set<Side>)
    requires t !in ns
    ensures Gathered(labels[t := v], ns) == Gathered(labels, ns)
  {
  }
}
