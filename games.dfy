/**
 * The game board (Game in classes.py). The three attributes of every Cell
 * (its owner, its edge labels and its linked neighbours) are held as three
 * maps indexed by the cell's coordinate, so that a move copies the board by
 * copying the maps.
 */
module Games {
  import opened Wrappers
  import opened Geometry
  import opened Connectivity

  type Name = string

  /** The stroke a player marks cells with: Back is '\\', Forward is '/', Other any other value. */
  datatype Stroke = Back | Forward | Other

  /** The state of a game as a value: the three cell attributes of every cell, and the winner. */
  datatype GameState = GameState(owner: map<Coord, Option<Name>>, connected: Labels, links: Links, winner: Option<Name>)

  /**
   * The labels a move with this stroke seeds on cell t: the literal
   * boundary rule of make_step.
   */
  function Seeds(size: nat, t: Coord, stroke: Stroke): (r: set<Side>)
    ensures r != {} && OnBoard(size, t) ==> t.1 == 0 || t.1 == RowLength(size, t.0) - 1
  {
    match stroke
    case Back =>
      (if t.0 < size && t.0 == t.1 then {Equals} else {}) + (if t.0 >= size - 1 && t.1 == 0 then {Zero} else {})
    case Forward =>
      (if t.0 < size && t.1 == 0 then {Zero} else {}) + (if t.0 >= size - 1 && t.1 == 2 * size - 2 - t.0 then {Equals} else {})
    case Other => {}
  }

  /**
   * Seeding marks the board's edges: '\\' marks '=' on the last cell of a
   * row of the upper half and '0' on the first cell of a row of the lower
   * half; '/' marks '0' on the first cell of an upper row and '=' on the
   * last cell of a lower row. The middle row belongs to both halves.
   */
  lemma SeedsMarkEdges(size: nat, t: Coord)
    requires OnBoard(size, t)
    ensures Equals in Seeds(size, t, Back) <==> t.0 < size && t.1 == RowLength(size, t.0) - 1
    ensures Zero in Seeds(size, t, Back) <==> t.0 >= size - 1 && t.1 == 0
    ensures Zero in Seeds(size, t, Forward) <==> t.0 < size && t.1 == 0
    ensures Equals in Seeds(size, t, Forward) <==> t.0 >= size - 1 && t.1 == RowLength(size, t.0) - 1
    ensures Seeds(size, t, Other) == {}
  {
  }

  /** A single seeded cell holds both labels only on the one-cell board. */
  lemma SeedsBothOnlyOnSingleCell(size: nat, t: Coord, stroke: Stroke)
    requires OnBoard(size, t) && SidesConnected(Seeds(size, t, stroke))
    ensures size == 1 && t == (0, 0)
  {
  }

  /** On the one-cell board either stroke seeds both labels. */
  lemma SingleCellSeedsBoth(stroke: Stroke)
    requires stroke != Other
    ensures SidesConnected(Seeds(1, (0, 0), stroke))
  {
  }

  /**
   * The neighbours of t that p owns: the cells a move by p on t links to.
   * There are at most six of them, and t is never one.
   */
  function Mates(layout: Layout, size: nat, owner: map<Coord, Option<Name>>, t: Coord, p: Name): (r: set<Coord>)
    ensures |r| <= 6 && t !in r
    ensures forall n :: n in r ==> n in owner && owner[n] == Some(p)
  {
    var r := set n | n in NeighboursIn(layout, size, t) && n in owner && owner[n] == Some(p);
    SubsetCardinality(r, NeighboursIn(layout, size, t));
    r
  }

  /** The mates of t are exactly the cells p owns that are t's neighbours under the layout. */
  lemma MatesNeighbouring(layout: Layout, size: nat, owner: map<Coord, Option<Name>>, t: Coord, p: Name)
    requires OnBoard(size, t)
    ensures forall n :: n in Mates(layout, size, owner, t, p) <==> Neighbouring(layout, size, t, n) && n in owner && owner[n] == Some(p)
  {
  }

  /**
   * The mates of a cell t on the board are the cells p owns at one of the
   * layout's offsets from t; under the drawn layout, the cells p owns whose
   * hexagons touch t's.
   */
  lemma MatesAdjacent(layout: Layout, size: nat, owner: map<Coord, Option<Name>>, t: Coord, p: Name, n: Coord)
    requires OnBoard(size, t)
    ensures n in Mates(layout, size, owner, t, p) <==>
      OnBoard(size, n) && (n.0 - t.0, n.1 - t.1) in LayoutOffsets(layout, size, t.0) && n in owner && owner[n] == Some(p)
    ensures layout == Drawn ==> (n in Mates(layout, size, owner, t, p) <==> Adjacent(size, t, n) && n in owner && owner[n] == Some(p))
  {
    NeighboursInOffsets(layout, size, t, n);
    DrawnIsTouching(size, t, n);
  }

  /** Links exactly between same-owner neighbours. */
  ghost predicate LinksMatch(layout: Layout, size: nat, owner: map<Coord, Option<Name>>, links: Links)
  {
    forall a, b {:trigger Neighbouring(layout, size, a, b)} :: a in links ==>
      (b in links[a] <==> Neighbouring(layout, size, a, b) && a in owner && b in owner && owner[a].Some? && owner[b] == owner[a])
  }

  /** joined is links with t linked to every cell of ms, in both directions. */
  ghost predicate Joins(joined: Links, links: Links, t: Coord, ms: set<Coord>)
  {
    joined.Keys == links.Keys &&
    forall c :: c in joined ==>
      joined[c] == if c == t then links[c] + ms else if c in ms then links[c] + {t} else links[c]
  }

  /** links with t linked to every cell of ms, in both directions. */
  ghost function Joined(links: Links, t: Coord, ms: set<Coord>): (r: Links)
    ensures Joins(r, links, t, ms)
  {
    map c | c in links :: if c == t then links[c] + ms else if c in ms then links[c] + {t} else links[c]
  }

  /** Joins pins the joined links down. */
  lemma JoinsOnly(joined: Links, links: Links, t: Coord, ms: set<Coord>)
    requires Joins(joined, links, t, ms)
    ensures joined == Joined(links, t, ms)
  {
  }

  /**
   * Claiming the free cell t for p and linking it both ways to p's
   * neighbouring cells keeps the links exactly between same-owner
   * neighbours.
   */
  lemma JoinMatches(layout: Layout, size: nat, owner: map<Coord, Option<Name>>, links: Links, t: Coord, p: Name, joined: Links)
    requires links.Keys == owner.Keys && LinksMatch(layout, size, owner, links)
    requires OnBoard(size, t) && t in owner && owner[t] == None
    requires Joins(joined, links, t, Mates(layout, size, owner, t, p))
    ensures LinksMatch(layout, size, owner[t := Some(p)], joined)
  {
    var after := owner[t := Some(p)];
    forall a, b | a in joined
      ensures b in joined[a] <==>
        Neighbouring(layout, size, a, b) && a in after && b in after && after[a].Some? && after[b] == after[a]
    {
      JoinPair(layout, size, owner, links, t, p, joined, a, b);
    }
  }

  /** JoinMatches for one pair of cells. */
  lemma JoinPair(layout: Layout, size: nat, owner: map<Coord, Option<Name>>, links: Links, t: Coord, p: Name, joined: Links,
                 a: Coord, b: Coord)
    requires links.Keys == owner.Keys && LinksMatch(layout, size, owner, links)
    requires OnBoard(size, t) && t in owner && owner[t] == None && a in links
    requires Joins(joined, links, t, Mates(layout, size, owner, t, p))
    ensures var after := owner[t := Some(p)];
      b in joined[a] <==> Neighbouring(layout, size, a, b) && a in after && b in after && after[a].Some? && after[b] == after[a]
  {
    var ms := Mates(layout, size, owner, t, p);
    if a == t {
      assert joined[a] == links[t] + ms;
      JoinAtTarget(layout, size, owner, links, t, p, b);
    } else if a in ms {
      assert joined[a] == links[a] + {t};
      JoinAtMate(layout, size, owner, links, t, p, a, b);
    } else {
      assert joined[a] == links[a];
      JoinElsewhere(layout, size, owner, links, t, p, a, b);
    }
  }

  lemma JoinAtTarget(layout: Layout, size: nat, owner: map<Coord, Option<Name>>, links: Links, t: Coord, p: Name, b: Coord)
    requires links.Keys == owner.Keys && LinksMatch(layout, size, owner, links)
    requires OnBoard(size, t) && t in owner && owner[t] == None
    ensures var after := owner[t := Some(p)];
      b in links[t] + Mates(layout, size, owner, t, p) <==> Neighbouring(layout, size, t, b) && b in after && after[b] == after[t]
  {
    MatesNeighbouring(layout, size, owner, t, p);
    ghost var near := Neighbouring(layout, size, t, b);
    assert b !in links[t];
  }

  lemma JoinAtMate(layout: Layout, size: nat, owner: map<Coord, Option<Name>>, links: Links, t: Coord, p: Name, a: Coord, b: Coord)
    requires links.Keys == owner.Keys && LinksMatch(layout, size, owner, links)
    requires OnBoard(size, t) && t in owner && owner[t] == None && a in links && a != t
    requires a in Mates(layout, size, owner, t, p)
    ensures var after := owner[t := Some(p)];
      b in links[a] + {t} <==> Neighbouring(layout, size, a, b) && b in after && after[a].Some? && after[b] == after[a]
  {
    var after := owner[t := Some(p)];
    assert a in NeighboursIn(layout, size, t) && owner[a] == Some(p);
    if b == t {
      NeighbouringSymmetric(layout, size, t, a);
      assert Neighbouring(layout, size, a, b) && after[b] == after[a];
    } else {
      assert b in links[a] <==> Neighbouring(layout, size, a, b) && b in owner && owner[a].Some? && owner[b] == owner[a];
    }
  }

  lemma JoinElsewhere(layout: Layout, size: nat, owner: map<Coord, Option<Name>>, links: Links, t: Coord, p: Name, a: Coord, b: Coord)
    requires links.Keys == owner.Keys && LinksMatch(layout, size, owner, links)
    requires OnBoard(size, t) && t in owner && owner[t] == None && a in links && a != t
    requires a !in Mates(layout, size, owner, t, p)
    ensures var after := owner[t := Some(p)];
      b in links[a] <==> Neighbouring(layout, size, a, b) && b in after && after[a].Some? && after[b] == after[a]
  {
    MatesNeighbouring(layout, size, owner, t, p);
    ghost var near, toTarget := Neighbouring(layout, size, a, b), Neighbouring(layout, size, a, t);
    NeighbouringSymmetric(layout, size, a, t);
    assert t !in links[a];
  }

  /** Nothing joined yet: the links as they were. */
  lemma JoinNothing(links: Links, t: Coord)
    requires t in links
    ensures Joins(links, links, t, {})
  {
  }

  /** Linking t and n both ways extends the joined links by n. */
  lemma JoinOneMore(j: Links, links: Links, t: Coord, done: set<Coord>, n: Coord)
    requires t in links && n in links && n != t && n !in done && Joins(j, links, t, done)
    ensures Joins(j[t := j[t] + {n}][n := j[n] + {t}], links, t, done + {n})
  {
  }

  /**
   * The two add_link calls of one make_step link t and n both ways: t
   * ends up with its labels joined by those n held before the move.
   */
  lemma MergeTarget(k0: Links, l0: Labels, orig: Labels, t: Coord, n: Coord,
                    k1: Links, l1: Labels, k2: Links, l2: Labels)
    requires WellFormed(k0, l0) && LabelsFlow(k0, l0) && Symmetric(k0)
    requires t in k0 && n in k0 && n != t
    requires orig.Keys == l0.Keys && orig[n] <= l0[n]
    requires !Reachable(k0, t, n) ==> l0[n] == orig[n]
    requires k1 == k0[t := k0[t] + {n}] && l1 == Pushed(k1, l0, n, l0[t])
    requires k2 == k1[n := k1[n] + {t}] && l2 == Pushed(k2, l1, t, l1[n])
    ensures l2.Keys == orig.Keys && l2[t] == l0[t] + orig[n]
  {
    ReachableSelf(k1, n);
    ReachableSelf(k2, t);
    if Reachable(k0, t, n) {
      ChainShares(k0, l0, t, n);
    }
  }

  /**
   * The two add_link calls of one make_step change only cells that end up
   * reachable from t, and lose no label.
   */
  lemma MergeUntouched(k0: Links, l0: Labels, orig: Labels, t: Coord, n: Coord,
                       k1: Links, l1: Labels, k2: Links, l2: Labels)
    requires t in k0 && n in k0 && n != t && t in l0 && n in l1
    requires orig.Keys == l0.Keys && forall d :: d in orig ==> orig[d] <= l0[d]
    requires forall d :: d in orig && !Reachable(k0, t, d) ==> l0[d] == orig[d]
    requires k1 == k0[t := k0[t] + {n}] && l1 == Pushed(k1, l0, n, l0[t])
    requires k2 == k1[n := k1[n] + {t}] && l2 == Pushed(k2, l1, t, l1[n])
    ensures forall d :: d in orig ==> orig[d] <= l2[d]
    ensures forall d :: d in orig && !Reachable(k2, t, d) ==> l2[d] == orig[d]
  {
    forall d | d in orig && !Reachable(k2, t, d)
      ensures l2[d] == orig[d]
    {
      if Reachable(k1, n, d) {
        ReachableAddLink(k1, n, t, n, d);
        ReachablePrepend(k2, t, n, d);
        assert false;
      }
      if Reachable(k0, t, d) {
        ReachableAddLink(k0, t, n, t, d);
        ReachableAddLink(k1, n, t, t, d);
        assert false;
      }
    }
  }

  lemma UnionAssociates<T>(a: set<T>, b: set<T>, c: set<T>)
    ensures (a + b) + c == a + (b + c)
  {
  }

  /** With nothing left to visit, every cell has been visited. */
  lemma AllVisited<T>(a: set<T>, ns: set<T>)
    requires ns == {}
    ensures a - ns == a
  {
  }

  /** A cell n of a set of at most six that is not in done leaves done at most five. */
  lemma SmallerByOne<T>(done: set<T>, all: set<T>, n: T)
    requires done <= all && |all| <= 6 && n in all && n !in done
    ensures |done| <= 5
  {
    SubsetCardinality(done, all - {n});
  }

  /** Taking n out of the cells still to visit adds it to those visited. */
  lemma VisitOne<T>(a: set<T>, ns: set<T>, n: T)
    requires n in ns
    ensures n in a ==> a - (ns - {n}) == (a - ns) + {n}
    ensures n !in a ==> a - (ns - {n}) == a - ns
  {
  }

  /**
   * The state of a game of the given size is consistent: the maps cover
   * exactly the cells of the board, links join exactly the same-owner
   * neighbours, every label flows along every link, free cells hold no
   * label, and there is a winner exactly when some cell of that player
   * reaches both edges.
   */
  ghost predicate ConsistentState(layout: Layout, size: nat, owner: map<Coord, Option<Name>>, connected: Labels, links: Links,
                                  winner: Option<Name>)
  {
    owner.Keys == Board(size) && connected.Keys == owner.Keys && WellFormed(links, connected) &&
    LabelsFlow(links, connected) && LinksMatch(layout, size, owner, links) &&
    (forall c :: c in owner && owner[c].None? ==> connected[c] == {}) &&
    (winner.None? ==> forall c :: c in connected ==> !SidesConnected(connected[c])) &&
    (winner.Some? ==> exists c :: c in owner && owner[c] == winner && c in connected && SidesConnected(connected[c]))
  }

  /** Claiming t does not change which neighbours of t are mates. */
  lemma MatesIgnoreTarget(layout: Layout, size: nat, owner: map<Coord, Option<Name>>, t: Coord, p: Name, v: Option<Name>)
    ensures Mates(layout, size, owner[t := v], t, p) == Mates(layout, size, owner, t, p)
  {
  }

  /**
   * The labels once the group of t has taken the label set l: every cell
   * reachable from t over links holds l, every other cell keeps its own.
   */
  ghost function Regrouped(links: Links, labels: Labels, t: Coord, l: set<Side>): (r: Labels)
    ensures r.Keys == labels.Keys
    ensures t in labels ==> r[t] == l
  {
    ReachableSelf(links, t);
    map d | d in labels :: if Reachable(links, t, d) then l else labels[d]
  }

  /**
   * After a move on t, the cells t reaches hold t's labels and all others
   * keep theirs.
   */
  lemma StepGroups(connected: Labels, links2: Links, connected2: Labels, t: Coord)
    requires WellFormed(links2, connected2) && LabelsFlow(links2, connected2) && Symmetric(links2)
    requires t in connected2 && connected2.Keys == connected.Keys
    requires forall d {:trigger Reachable(links2, t, d)} :: d in connected && d != t && !Reachable(links2, t, d) ==> connected2[d] == connected[d]
    ensures connected2 == Regrouped(links2, connected, t, connected2[t])
  {
    var r := Regrouped(links2, connected, t, connected2[t]);
    forall d | d in connected
      ensures connected2[d] == r[d]
    {
      if Reachable(links2, t, d) {
        ChainShares(links2, connected2, t, d);
      } else {
        ReachableSelf(links2, t);
      }
    }
  }

  /** A cell still free after the move on t cannot be reached from t, so it keeps no label. */
  lemma StepFree(layout: Layout, size: nat, owner: map<Coord, Option<Name>>, connected: Labels, links2: Links, connected2: Labels,
                 t: Coord, p: Name)
    requires connected.Keys == owner.Keys && t in owner
    requires forall c :: c in owner && owner[c].None? ==> connected[c] == {}
    requires LinksMatch(layout, size, owner[t := Some(p)], links2)
    requires connected2.Keys == connected.Keys
    requires forall d {:trigger Reachable(links2, t, d)} :: d in connected && d != t && !Reachable(links2, t, d) ==> connected2[d] == connected[d]
    ensures var owner2 := owner[t := Some(p)];
      forall c :: c in owner2 && owner2[c].None? ==> connected2[c] == {}
  {
    var owner2 := owner[t := Some(p)];
    forall c | c in owner2 && owner2[c].None?
      ensures connected2[c] == {}
    {
      if Reachable(links2, t, c) {
        ReachableOtherIsLinkedTo(links2, t, c);
        var m :| m in links2 && c in links2[m];
        ghost var near := Neighbouring(layout, size, m, c);
        assert false;
      }
    }
  }

  /** The winner rule of make_step keeps the winner consistent with the labels. */
  lemma StepWinner(owner: map<Coord, Option<Name>>, connected: Labels, winner: Option<Name>,
                   owner2: map<Coord, Option<Name>>, links2: Links, connected2: Labels, winner2: Option<Name>,
                   t: Coord, p: Name)
    requires connected.Keys == owner.Keys && t in owner && owner[t].None?
    requires owner2 == owner[t := Some(p)]
    requires winner.None? ==> forall c :: c in connected ==> !SidesConnected(connected[c])
    requires winner.Some? ==> exists c :: c in owner && owner[c] == winner && c in connected && SidesConnected(connected[c])
    requires WellFormed(links2, connected2) && LabelsFlow(links2, connected2) && Symmetric(links2)
    requires connected2.Keys == connected.Keys && forall d :: d in connected ==> connected[d] <= connected2[d]
    requires forall d {:trigger Reachable(links2, t, d)} :: d in connected && d != t && !Reachable(links2, t, d) ==> connected2[d] == connected[d]
    requires winner2 == if winner.None? && SidesConnected(connected2[t]) then Some(p) else winner
    ensures winner2.None? ==> forall c :: c in connected2 ==> !SidesConnected(connected2[c])
    ensures winner2.Some? ==> exists c :: c in owner2 && owner2[c] == winner2 && c in connected2 && SidesConnected(connected2[c])
  {
    StepGroups(connected, links2, connected2, t);
    if winner.Some? {
      var c :| c in owner && owner[c] == winner && c in connected && SidesConnected(connected[c]);
      assert c in owner2 && owner2[c] == winner2 && c in connected2 && SidesConnected(connected2[c]);
    } else if winner2.Some? {
      assert t in owner2 && owner2[t] == winner2 && t in connected2 && SidesConnected(connected2[t]);
    } else {
      forall c | c in connected2
        ensures !SidesConnected(connected2[c])
      {
        assert connected2[c] == Regrouped(links2, connected, t, connected2[t])[c];
      }
    }
  }

  /** Overwriting a present key keeps the key set. */
  lemma UpdateKeeps<K, V>(m: map<K, V>, k: K, v: V)
    requires k in m
    ensures m[k := v].Keys == m.Keys
  {
  }

  /**
   * Claiming t and joining it to its mates keeps the cells of the board,
   * links exactly between same-owner neighbours, and free cells unlabelled.
   */
  lemma StepShape(layout: Layout, size: nat, owner: map<Coord, Option<Name>>, connected: Labels, links: Links,
                  t: Coord, p: Name, links2: Links, connected2: Labels)
    requires owner.Keys == Board(size) && connected.Keys == owner.Keys && links.Keys == owner.Keys
    requires LinksMatch(layout, size, owner, links)
    requires forall c :: c in owner && owner[c].None? ==> connected[c] == {}
    requires t in owner && owner[t].None?
    requires Joins(links2, links, t, Mates(layout, size, owner, t, p))
    requires connected2.Keys == connected.Keys
    requires forall d {:trigger Reachable(links2, t, d)} :: d in connected && d != t && !Reachable(links2, t, d) ==> connected2[d] == connected[d]
    ensures var owner2 := owner[t := Some(p)];
      owner2.Keys == Board(size) && LinksMatch(layout, size, owner2, links2) &&
      forall c :: c in owner2 && owner2[c].None? ==> connected2[c] == {}
  {
    JoinMatches(layout, size, owner, links, t, p, links2);
    StepFree(layout, size, owner, connected, links2, connected2, t, p);
    UpdateKeeps(owner, t, Some(p));
  }

  /** ConsistentState from its parts. */
  lemma ConsistentIntro(layout: Layout, size: nat, owner: map<Coord, Option<Name>>, connected: Labels, links: Links,
                        winner: Option<Name>)
    requires owner.Keys == Board(size) && connected.Keys == owner.Keys
    requires WellFormed(links, connected) && LabelsFlow(links, connected) && LinksMatch(layout, size, owner, links)
    requires forall c :: c in owner && owner[c].None? ==> connected[c] == {}
    requires winner.None? ==> forall c :: c in connected ==> !SidesConnected(connected[c])
    requires winner.Some? ==> exists c :: c in owner && owner[c] == winner && c in connected && SidesConnected(connected[c])
    ensures ConsistentState(layout, size, owner, connected, links, winner)
  {
  }

  /** make_step keeps a consistent game consistent. */
  lemma StepConsistent(layout: Layout, size: nat, owner: map<Coord, Option<Name>>, connected: Labels, links: Links,
                       winner: Option<Name>, t: Coord, p: Name,
                       links2: Links, connected2: Labels, winner2: Option<Name>)
    requires ConsistentState(layout, size, owner, connected, links, winner)
    requires t in owner && owner[t].None?
    requires Joins(links2, links, t, Mates(layout, size, owner, t, p))
    requires WellFormed(links2, connected2) && LabelsFlow(links2, connected2) && Symmetric(links2)
    requires connected2.Keys == connected.Keys && forall d :: d in connected ==> connected[d] <= connected2[d]
    requires forall d {:trigger Reachable(links2, t, d)} :: d in connected && d != t && !Reachable(links2, t, d) ==> connected2[d] == connected[d]
    requires winner2 == if winner.None? && SidesConnected(connected2[t]) then Some(p) else winner
    ensures ConsistentState(layout, size, owner[t := Some(p)], connected2, links2, winner2)
  {
    StepShape(layout, size, owner, connected, links, t, p, links2, connected2);
    StepWinner(owner, connected, winner, owner[t := Some(p)], links2, connected2, winner2, t, p);
    ConsistentIntro(layout, size, owner[t := Some(p)], connected2, links2, winner2);
  }

  /** Seeding t changes only t's labels, so what held against the seeded labels holds against the old ones. */
  lemma SeededBase(connected: Labels, seeded: Labels, links2: Links, connected2: Labels, t: Coord, seeds: set<Side>)
    requires t in connected && seeded == connected[t := connected[t] + seeds]
    requires connected2.Keys == seeded.Keys
    requires forall d :: d in seeded ==> seeded[d] <= connected2[d]
    requires forall d {:trigger Reachable(links2, t, d)} :: d in seeded && !Reachable(links2, t, d) ==> connected2[d] == seeded[d]
    ensures connected2.Keys == connected.Keys
    ensures forall d :: d in connected ==> connected[d] <= connected2[d]
    ensures forall d {:trigger Reachable(links2, t, d)} :: d in connected && d != t && !Reachable(links2, t, d) ==> connected2[d] == connected[d]
  {
  }

  /**
   * The labels after a move on t: the group t now belongs to holds t's
   * seeds and everything its mates held; all other cells keep theirs.
   */
  lemma MoveLabels(size: nat, connected: Labels, t: Coord, mates: set<Coord>,
                   stroke: Stroke, seeded: Labels, links2: Links, connected2: Labels)
    requires t in connected && connected[t] == {} && t !in mates
    requires seeded == connected[t := connected[t] + Seeds(size, t, stroke)]
    requires connected2.Keys == seeded.Keys
    requires connected2[t] == seeded[t] + Gathered(seeded, mates)
    requires forall d :: d in seeded ==> seeded[d] <= connected2[d]
    requires forall d {:trigger Reachable(links2, t, d)} :: d in seeded && !Reachable(links2, t, d) ==> connected2[d] == seeded[d]
    requires WellFormed(links2, connected2) && LabelsFlow(links2, connected2) && Symmetric(links2)
    ensures connected2 == Regrouped(links2, connected, t, Seeds(size, t, stroke) + Gathered(connected, mates))
  {
    GatheredIgnores(connected, mates, t, seeded[t]);
    assert connected2[t] == Seeds(size, t, stroke) + Gathered(connected, mates);
    SeededBase(connected, seeded, links2, connected2, t, Seeds(size, t, stroke));
    StepGroups(connected, links2, connected2, t);
  }

  /**
   * What the steps of make_step establish, put together: the links join
   * t to its mates, the group of t holds its seeds and what its mates
   * held, the winner rule, and a consistent game.
   */
  lemma MoveFacts(layout: Layout, size: nat, owner: map<Coord, Option<Name>>, connected: Labels, links: Links,
                  winner: Option<Name>, t: Coord, mover: Name, stroke: Stroke,
                  links2: Links, connected2: Labels, winner2: Option<Name>)
    requires ConsistentState(layout, size, owner, connected, links, winner) && t in owner && owner[t].None?
    requires JoinedUp(links, connected[t := connected[t] + Seeds(size, t, stroke)], t,
                      Mates(layout, size, owner, t, mover), links2, connected2)
    requires winner2 == if SidesConnected(connected2[t]) && winner.None? then Some(mover) else winner
    ensures Played(layout, size, GameState(owner, connected, links, winner), t, mover, stroke) ==
            GameState(owner[t := Some(mover)], connected2, links2, winner2)
    ensures ConsistentState(layout, size, owner[t := Some(mover)], connected2, links2, winner2)
  {
    var seeded := connected[t := connected[t] + Seeds(size, t, stroke)];
    SeededBase(connected, seeded, links2, connected2, t, Seeds(size, t, stroke));
    StepConsistent(layout, size, owner, connected, links, winner, t, mover, links2, connected2, winner2);
    MoveLabels(size, connected, t, Mates(layout, size, owner, t, mover), stroke, seeded, links2, connected2);
    JoinsOnly(links2, links, t, Mates(layout, size, owner, t, mover));
  }

  /** In a consistent game links go both ways. */
  lemma ConsistentSymmetric(layout: Layout, size: nat, owner: map<Coord, Option<Name>>, connected: Labels, links: Links,
                            winner: Option<Name>)
    requires ConsistentState(layout, size, owner, connected, links, winner)
    ensures Symmetric(links)
  {
    forall a, b | a in links && b in links[a]
      ensures b in links && a in links[b]
    {
      ghost var near := Neighbouring(layout, size, a, b);
      NeighbouringSymmetric(layout, size, a, b);
    }
  }

  /** In a consistent game a cell is linked only to its neighbours, and never to a free cell. */
  lemma LinksBelowNeighbours(layout: Layout, size: nat, owner: map<Coord, Option<Name>>, connected: Labels, links: Links,
                             winner: Option<Name>, a: Coord)
    requires ConsistentState(layout, size, owner, connected, links, winner) && a in links
    ensures links[a] <= NeighboursIn(layout, size, a)
    ensures forall b :: b in links[a] ==> owner[b].Some?
    ensures links[a] != {} ==> owner[a].Some?
  {
    if links[a] != {} {
      var b :| b in links[a];
      ghost var near := Neighbouring(layout, size, a, b);
    }
    forall b | b in links[a]
      ensures b in NeighboursIn(layout, size, a) && owner[b].Some?
    {
      ghost var near := Neighbouring(layout, size, a, b);
    }
  }

  /** In a consistent game each neighbour of a free cell has room for one more link. */
  lemma RoomNextToFree(layout: Layout, size: nat, owner: map<Coord, Option<Name>>, connected: Labels, links: Links,
                       winner: Option<Name>, t: Coord)
    requires ConsistentState(layout, size, owner, connected, links, winner) && t in owner && owner[t].None?
    ensures forall a :: a in NeighboursIn(layout, size, t) ==> a in links && |links[a]| <= 5
  {
    forall a | a in NeighboursIn(layout, size, t)
      ensures a in links && |links[a]| <= 5
    {
      LinksBelowNeighbours(layout, size, owner, connected, links, winner, a);
      NeighbouringSymmetric(layout, size, t, a);
      SubsetCardinality(links[a], NeighboursIn(layout, size, a) - {t});
    }
  }

  /**
   * What the linking loop of make_step needs before it starts on t: the
   * links and labels fit together and flow, links go both ways, t is
   * still unlinked, and every neighbour of t has room for one more link.
   */
  ghost predicate ReadyToLink(layout: Layout, size: nat, owner: map<Coord, Option<Name>>, links: Links, labels: Labels, t: Coord)
  {
    WellFormed(links, labels) && LabelsFlow(links, labels) && Symmetric(links) &&
    owner.Keys == links.Keys && t in owner && links[t] == {} &&
    forall a :: a in NeighboursIn(layout, size, t) ==> a in links && |links[a]| <= 5
  }

  /**
   * Before the linking loop of make_step on t: t is not among its at most
   * six neighbours, each of them has room for a link and is a mate exactly
   * when mover owns it, and t is joined to no mate yet.
   */
  lemma LinkingStarts(layout: Layout, size: nat, owner: map<Coord, Option<Name>>, links: Links, labels: Labels, t: Coord, mover: Name)
    requires ReadyToLink(layout, size, owner, links, labels, t)
    ensures var nbrs, mates := NeighboursIn(layout, size, t), Mates(layout, size, owner, t, mover);
      t !in nbrs && |nbrs| <= 6 && mates <= nbrs &&
      (forall a :: a in nbrs ==> a in owner && a in links && |links[a]| <= 5 && (a in mates <==> owner[a] == Some(mover))) &&
      JoinedUp(links, labels, t, {}, links, labels)
  {
    JoinNothing(links, t);
    assert Gathered(labels, {}) == {};
  }

  /**
   * A free cell of a consistent game is ready to be linked, also after its
   * labels have been seeded.
   */
  lemma FreeCellReady(layout: Layout, size: nat, owner: map<Coord, Option<Name>>, connected: Labels, links: Links,
                      winner: Option<Name>, t: Coord, labels: Labels)
    requires ConsistentState(layout, size, owner, connected, links, winner) && t in owner && owner[t].None?
    requires labels.Keys == connected.Keys && LabelsFlow(links, labels)
    ensures ReadyToLink(layout, size, owner, links, labels, t)
  {
    LinksBelowNeighbours(layout, size, owner, connected, links, winner, t);
    RoomNextToFree(layout, size, owner, connected, links, winner, t);
    ConsistentSymmetric(layout, size, owner, connected, links, winner);
  }

  /**
   * The game s after mover has played stroke on the free cell t: mover
   * owns t, t is linked both ways to its mates, the group t now belongs to
   * holds t's seeds and everything its mates held while every other cell
   * keeps its labels, and mover has won if t joins both edges and nobody
   * had won before.
   */
  ghost function Played(layout: Layout, size: nat, s: GameState, t: Coord, mover: Name, stroke: Stroke): (r: GameState)
    ensures r.connected.Keys == s.connected.Keys && r.links.Keys == s.links.Keys
  {
    var mates := Mates(layout, size, s.owner, t, mover);
    var links := Joined(s.links, t, mates);
    var connected := Regrouped(links, s.connected, t, Seeds(size, t, stroke) + Gathered(s.connected, mates));
    var won := t in connected && SidesConnected(connected[t]);
    GameState(s.owner[t := Some(mover)], connected, links, if s.winner.None? && won then Some(mover) else s.winner)
  }

  /**
   * A walk over the joined links from t, unlinked before, ends at t or
   * at a cell some mate reached before the move.
   */
  lemma {:induction false} JoinedWalkFromTarget(links: Links, t: Coord, ms: set<Coord>, p: seq<Coord>)
    requires t in links && links[t] == {} && ms <= links.Keys
    requires IsPath(Joined(links, t, ms), p) && p[0] == t
    ensures p[|p| - 1] == t || exists m :: m in ms && Reachable(links, m, p[|p| - 1])
    decreases |p|
  {
    if |p| > 1 {
      var joined := Joined(links, t, ms);
      var q := p[..|p| - 1];
      assert IsPath(joined, q);
      JoinedWalkFromTarget(links, t, ms, q);
      var x, y := p[|p| - 2], p[|p| - 1];
      assert x in joined && y in joined[x];
      if y != t {
        if x == t {
          ReachableSelf(links, y);
        } else {
          var m :| m in ms && Reachable(links, m, x);
          ReachableAppend(links, m, x, y);
        }
      }
    }
  }

  /** The cells that have an owner. */
  function Owned(owner: map<Coord, Option<Name>>): (r: set<Coord>)
    ensures forall c :: c in r <==> c in owner && owner[c].Some?
  {
    set c | c in owner && owner[c].Some?
  }

  /**
   * A move on the free cell t claims t for the mover and no other cell,
   * so exactly one more cell is owned, and never replaces a winner.
   */
  lemma PlayedClaims(layout: Layout, size: nat, s: GameState, t: Coord, mover: Name, stroke: Stroke)
    requires t in s.owner && s.owner[t].None?
    ensures var s2 := Played(layout, size, s, t, mover, stroke);
      s2.owner.Keys == s.owner.Keys && s2.owner[t] == Some(mover) &&
      (forall c :: c in s.owner && c != t ==> s2.owner[c] == s.owner[c]) &&
      Owned(s2.owner) == Owned(s.owner) + {t} && |Owned(s2.owner)| == |Owned(s.owner)| + 1 &&
      (s.winner.Some? ==> s2.winner == s.winner)
  {
    ClaimOwned(s.owner, t, mover);
  }

  /** Claiming a free cell adds exactly that cell to the owned ones. */
  lemma ClaimOwned(owner: map<Coord, Option<Name>>, t: Coord, p: Name)
    requires t in owner && owner[t].None?
    ensures Owned(owner[t := Some(p)]) == Owned(owner) + {t} && t !in Owned(owner)
    ensures |Owned(owner[t := Some(p)])| == |Owned(owner)| + 1
  {
    assert Owned(owner[t := Some(p)]) == Owned(owner) + {t};
  }

  /** A move on a free cell of a consistent game takes no label away from any cell. */
  lemma PlayedGrows(layout: Layout, size: nat, s: GameState, t: Coord, mover: Name, stroke: Stroke)
    requires ConsistentState(layout, size, s.owner, s.connected, s.links, s.winner) && t in s.owner && s.owner[t].None?
    ensures var s2 := Played(layout, size, s, t, mover, stroke);
      s2.connected.Keys == s.connected.Keys && forall c :: c in s.connected ==> s.connected[c] <= s2.connected[c]
  {
    var mates := Mates(layout, size, s.owner, t, mover);
    var joined := Joined(s.links, t, mates);
    var l := Seeds(size, t, stroke) + Gathered(s.connected, mates);
    LinksBelowNeighbours(layout, size, s.owner, s.connected, s.links, s.winner, t);
    ConsistentSymmetric(layout, size, s.owner, s.connected, s.links, s.winner);
    GroupOfTargetBelow(s.links, s.connected, t, mates, l);
    RegroupedGrows(joined, s.connected, t, l);
    assert Played(layout, size, s, t, mover, stroke).connected == Regrouped(joined, s.connected, t, l);
  }

  /**
   * Before a move on the free cell t, every cell that t reaches once
   * joined to its mates held no more than the mates' labels.
   */
  lemma GroupOfTargetBelow(links: Links, connected: Labels, t: Coord, ms: set<Coord>, l: set<Side>)
    requires WellFormed(links, connected) && LabelsFlow(links, connected) && Symmetric(links)
    requires t in links && links[t] == {} && connected[t] == {} && ms <= links.Keys
    requires Gathered(connected, ms) <= l
    ensures forall d :: d in connected && Reachable(Joined(links, t, ms), t, d) ==> connected[d] <= l
  {
    var joined := Joined(links, t, ms);
    forall d | d in connected && d != t && Reachable(joined, t, d)
      ensures connected[d] <= l
    {
      var p :| IsPath(joined, p) && p[0] == t && p[|p| - 1] == d;
      JoinedWalkFromTarget(links, t, ms, p);
      var m :| m in ms && Reachable(links, m, d);
      ChainShares(links, connected, m, d);
    }
  }

  /** Regrouping t's group under a label set no smaller than any of its cells held takes no label away. */
  lemma RegroupedGrows(links: Links, labels: Labels, t: Coord, l: set<Side>)
    requires forall d :: d in labels && Reachable(links, t, d) ==> labels[d] <= l
    ensures forall d :: d in labels ==> labels[d] <= Regrouped(links, labels, t, l)[d]
  {
  }

  /** On the one-cell board the first move wins, with either stroke. */
  lemma FirstMoveWinsSingleCell(layout: Layout, s: GameState, mover: Name, stroke: Stroke)
    requires ConsistentState(layout, 1, s.owner, s.connected, s.links, s.winner) && s.owner[(0, 0)].None?
    requires stroke != Other
    ensures Played(layout, 1, s, (0, 0), mover, stroke).winner == Some(mover)
  {
    SingleCellUnwon(layout, s);
    SingleCellSeedsBoth(stroke);
    SeededWin(layout, 1, s, (0, 0), mover, stroke);
  }

  /** A move whose seeds alone reach both edges wins, unless somebody has won already. */
  lemma SeededWin(layout: Layout, size: nat, s: GameState, t: Coord, mover: Name, stroke: Stroke)
    requires s.winner.None? && t in s.connected && SidesConnected(Seeds(size, t, stroke))
    ensures Played(layout, size, s, t, mover, stroke).winner == Some(mover)
  {
    var mates := Mates(layout, size, s.owner, t, mover);
    var l := Seeds(size, t, stroke) + Gathered(s.connected, mates);
    assert Regrouped(Joined(s.links, t, mates), s.connected, t, l)[t] == l;
  }

  /** Before the first move on the one-cell board nobody has won. */
  lemma SingleCellUnwon(layout: Layout, s: GameState)
    requires ConsistentState(layout, 1, s.owner, s.connected, s.links, s.winner) && s.owner[(0, 0)].None?
    ensures s.winner.None?
  {
    SingleCellBoard();
    NoWinnerWhileFree(layout, 1, s.owner, s.connected, s.links, s.winner);
  }

  /** Nobody has won a consistent game in which every cell is still free. */
  lemma NoWinnerWhileFree(layout: Layout, size: nat, owner: map<Coord, Option<Name>>, connected: Labels, links: Links,
                          winner: Option<Name>)
    requires ConsistentState(layout, size, owner, connected, links, winner)
    requires forall c :: c in owner ==> owner[c].None?
    ensures winner.None?
  {
  }

  /**
   * With t and all of ms unlinked, a walk from t over the joined links
   * stays on t and ms.
   */
  lemma JoinedReach(links: Links, t: Coord, ms: set<Coord>, d: Coord)
    requires t in links && links[t] == {} && ms <= links.Keys
    requires forall m :: m in ms ==> links[m] == {}
    requires Reachable(Joined(links, t, ms), t, d)
    ensures d == t || d in ms
  {
    var p :| IsPath(Joined(links, t, ms), p) && p[0] == t && p[|p| - 1] == d;
    JoinedWalkFromTarget(links, t, ms, p);
    if d != t {
      var m :| m in ms && Reachable(links, m, d);
      if d != m {
        ReachableOtherLeaves(links, m, d);
      }
    }
  }

  /**
   * A move on the unlinked cell t whose mates are all unlinked: t and its
   * mates end up holding t's seeds and everything the mates held, every
   * other cell keeps its labels, and the winner rule applies to that label
   * set.
   */
  lemma PlayedSmall(layout: Layout, size: nat, s: GameState, t: Coord, mover: Name, stroke: Stroke)
    requires s.links.Keys == s.owner.Keys && t in s.links && s.links[t] == {}
    requires forall m :: m in Mates(layout, size, s.owner, t, mover) ==> s.links[m] == {}
    ensures var ms := Mates(layout, size, s.owner, t, mover);
      var l := Seeds(size, t, stroke) + Gathered(s.connected, ms);
      var s2 := Played(layout, size, s, t, mover, stroke);
      (forall d :: d in s.connected ==> s2.connected[d] == if d == t || d in ms then l else s.connected[d]) &&
      s2.winner == if s.winner.None? && t in s.connected && SidesConnected(l) then Some(mover) else s.winner
  {
    var ms := Mates(layout, size, s.owner, t, mover);
    var l := Seeds(size, t, stroke) + Gathered(s.connected, ms);
    SmallRegroup(s.links, s.connected, t, ms, l);
  }

  /** After a move on t, t is linked to its mates, each mate to t, and other cells as before. */
  lemma PlayedLinks(layout: Layout, size: nat, s: GameState, t: Coord, mover: Name, stroke: Stroke)
    ensures var ms := Mates(layout, size, s.owner, t, mover);
      var s2 := Played(layout, size, s, t, mover, stroke);
      s2.owner == s.owner[t := Some(mover)] &&
      forall d :: d in s.links ==> s2.links[d] == if d == t then s.links[t] + ms else if d in ms then s.links[d] + {t} else s.links[d]
  {
  }

  /** Regrouping after joining the unlinked t to the unlinked cells ms changes t and ms alone. */
  lemma SmallRegroup(links: Links, labels: Labels, t: Coord, ms: set<Coord>, l: set<Side>)
    requires t in links && links[t] == {} && ms <= links.Keys
    requires forall m :: m in ms ==> links[m] == {}
    ensures forall d :: d in labels ==>
      Regrouped(Joined(links, t, ms), labels, t, l)[d] == if d == t || d in ms then l else labels[d]
  {
    var joined := Joined(links, t, ms);
    forall d | d in labels
      ensures Regrouped(joined, labels, t, l)[d] == if d == t || d in ms then l else labels[d]
    {
      if d in ms {
        ReachableSelf(joined, t);
        ReachableAppend(joined, t, t, d);
      } else if d != t && Reachable(joined, t, d) {
        JoinedReach(links, t, ms, d);
      }
    }
  }

  /** The set m holds for c, empty when c has none. */
  function At<V>(m: map<Coord, set<V>>, c: Coord): set<V>
  {
    if c in m then m[c] else {}
  }

  /**
   * s is a game on the board of the given size in which the cells of own
   * are taken by the players named there and every other cell is free,
   * the cells of lab hold those labels and every other cell none, and the
   * cells of lnk are linked to those cells and every other cell to none.
   */
  ghost predicate Pictured(size: nat, s: GameState, own: map<Coord, Name>, lab: Labels, lnk: Links)
  {
    OwnersPictured(size, s.owner, own) && SetsPictured(size, s.connected, lab) && SetsPictured(size, s.links, lnk)
  }

  /** The cells own names are cells of the board taken by those players; the others are free. */
  ghost predicate OwnersPictured(size: nat, owner: map<Coord, Option<Name>>, own: map<Coord, Name>)
  {
    owner.Keys == Board(size) && own.Keys <= Board(size) &&
    forall c :: c in owner ==> owner[c] == if c in own then Some(own[c]) else None
  }

  /** Every cell of the board holds the set pic gives it, or none. */
  ghost predicate SetsPictured<V>(size: nat, m: map<Coord, set<V>>, pic: map<Coord, set<V>>)
  {
    m.Keys == Board(size) && forall c :: c in m ==> m[c] == At(pic, c)
  }

  /** A new game is pictured by no owners, no labels and no links. */
  lemma InitialPictured(size: nat)
    ensures Pictured(size, Initial(size), map[], map[], map[]) && Initial(size).winner.None?
  {
  }

  /** What the mates of a pictured game gather is read off its picture. */
  lemma GatheredPictured(size: nat, s: GameState, own: map<Coord, Name>, lab: Labels, lnk: Links, ms: set<Coord>)
    requires Pictured(size, s, own, lab, lnk) && ms <= Board(size)
    ensures Gathered(s.connected, ms) == Gathered(lab, ms)
  {
    forall x | x in Gathered(lab, ms)
      ensures x in Gathered(s.connected, ms)
    {
      var n :| n in ms && n in lab && x in lab[n];
      assert x in s.connected[n];
    }
    forall x | x in Gathered(s.connected, ms)
      ensures x in Gathered(lab, ms)
    {
      var n :| n in ms && n in s.connected && x in s.connected[n];
      assert x in At(lab, n);
    }
  }

  /**
   * In a pictured game, the mates of a move by mover on the cell t are ms
   * when ms holds exactly the cells mover owns at one of the layout's
   * offsets from t.
   */
  lemma PicturedMates(layout: Layout, size: nat, s: GameState, own: map<Coord, Name>, lab: Labels, lnk: Links,
                      t: Coord, mover: Name, ms: set<Coord>)
    requires Pictured(size, s, own, lab, lnk) && OnBoard(size, t) && ms <= own.Keys
    requires forall n :: n in own ==> (n in ms <==> own[n] == mover && (n.0 - t.0, n.1 - t.1) in LayoutOffsets(layout, size, t.0))
    ensures Mates(layout, size, s.owner, t, mover) == ms
  {
    forall n
      ensures n in Mates(layout, size, s.owner, t, mover) <==> n in ms
    {
      MatesAdjacent(layout, size, s.owner, t, mover, n);
    }
  }

  /**
   * The move of mover with stroke on the free cell t, read off a picture:
   * its mates are ms, the cells mover owns at one of the layout's offsets
   * from t, and l is t's seeds together with the mates' labels.
   */
  ghost predicate PictureMove(layout: Layout, size: nat, own: map<Coord, Name>, lab: Labels,
                              t: Coord, mover: Name, stroke: Stroke, ms: set<Coord>, l: set<Side>)
  {
    OnBoard(size, t) && t !in own && ms <= own.Keys &&
    (forall n :: n in own ==> (n in ms <==> own[n] == mover && (n.0 - t.0, n.1 - t.1) in LayoutOffsets(layout, size, t.0))) &&
    l == Seeds(size, t, stroke) + Gathered(lab, ms)
  }

  /**
   * The picture after that move, when t and ms are unlinked: t and ms hold
   * l, t is linked to ms and each of ms to t, every other cell as before.
   */
  ghost predicate PictureAfter(size: nat, lab: Labels, lnk: Links, t: Coord, ms: set<Coord>, l: set<Side>,
                               lab2: Labels, lnk2: Links)
  {
    t !in lnk && (forall m :: m in ms ==> m !in lnk) && LabelsRepictured(lab, lab2, t, ms, l) && LinksRepictured(lnk, lnk2, t, ms)
  }

  /** The pictured labels once t and ms have taken l. */
  ghost predicate LabelsRepictured(lab: Labels, lab2: Labels, t: Coord, ms: set<Coord>, l: set<Side>)
  {
    forall c :: At(lab2, c) == if c == t || c in ms then l else At(lab, c)
  }

  /** The pictured links once the unlinked t and ms have been joined. */
  ghost predicate LinksRepictured(lnk: Links, lnk2: Links, t: Coord, ms: set<Coord>)
  {
    forall c :: At(lnk2, c) == if c == t then ms else if c in ms then {t} else At(lnk, c)
  }

  /**
   * A move by mover with stroke on the free cell t of a pictured game
   * without a winner, whose mates are ms: mover wins exactly when t's
   * seeds and the mates' labels l join both edges.
   */
  lemma PicturedWinner(layout: Layout, size: nat, s: GameState, own: map<Coord, Name>, lab: Labels, lnk: Links,
                       t: Coord, mover: Name, stroke: Stroke, ms: set<Coord>, l: set<Side>)
    requires Pictured(size, s, own, lab, lnk) && s.winner.None?
    requires PictureMove(layout, size, own, lab, t, mover, stroke, ms, l)
    ensures Played(layout, size, s, t, mover, stroke).winner == if SidesConnected(l) then Some(mover) else None
  {
    PicturedMove(layout, size, s, own, lab, lnk, t, mover, stroke, ms, l);
  }

  /** The mates of the move and the labels they gather, read off the picture. */
  lemma PicturedMove(layout: Layout, size: nat, s: GameState, own: map<Coord, Name>, lab: Labels, lnk: Links,
                     t: Coord, mover: Name, stroke: Stroke, ms: set<Coord>, l: set<Side>)
    requires Pictured(size, s, own, lab, lnk)
    requires PictureMove(layout, size, own, lab, t, mover, stroke, ms, l)
    ensures Mates(layout, size, s.owner, t, mover) == ms && Seeds(size, t, stroke) + Gathered(s.connected, ms) == l
    ensures t in s.connected && t in s.links && s.links.Keys == s.owner.Keys
    ensures t !in lnk ==> s.links[t] == {}
    ensures forall m :: m in ms && m !in lnk ==> s.links[m] == {}
  {
    PicturedMates(layout, size, s, own, lab, lnk, t, mover, ms);
    GatheredPictured(size, s, own, lab, lnk, ms);
  }

  /**
   * A move by mover with stroke on the free, unlinked cell t of a pictured
   * game without a winner, whose mates ms are unlinked: the new game is
   * pictured with t taken by mover, t and ms holding t's seeds and the
   * mates' labels l, and t linked to ms.
   */
  lemma PicturedStep(layout: Layout, size: nat, s: GameState, own: map<Coord, Name>, lab: Labels, lnk: Links,
                     t: Coord, mover: Name, stroke: Stroke, ms: set<Coord>, l: set<Side>,
                     lab2: Labels, lnk2: Links)
    requires Pictured(size, s, own, lab, lnk) && s.winner.None?
    requires PictureMove(layout, size, own, lab, t, mover, stroke, ms, l)
    requires PictureAfter(size, lab, lnk, t, ms, l, lab2, lnk2)
    ensures var s2 := Played(layout, size, s, t, mover, stroke);
      Pictured(size, s2, own[t := mover], lab2, lnk2) &&
      s2.winner == if SidesConnected(l) then Some(mover) else None
  {
    PicturedPlayed(layout, size, s, own, lab, lnk, t, mover, stroke, ms, l);
    PicturedWinner(layout, size, s, own, lab, lnk, t, mover, stroke, ms, l);
    Repictured(size, s, Played(layout, size, s, t, mover, stroke), own, lab, lnk, t, mover, ms, l, lab2, lnk2);
  }

  /**
   * s2 is s once mover has taken t: t and ms hold l while every other
   * cell keeps its labels, t is linked to ms and each of ms to t.
   */
  ghost predicate Moved(s: GameState, s2: GameState, t: Coord, mover: Name, ms: set<Coord>, l: set<Side>)
  {
    s2.owner == s.owner[t := Some(mover)] && Relabels(s2.connected, s.connected, t, ms, l) && Joins(s2.links, s.links, t, ms)
  }

  /** labels2 is labels with t and every cell of ms holding l. */
  ghost predicate Relabels(labels2: Labels, labels: Labels, t: Coord, ms: set<Coord>, l: set<Side>)
  {
    labels2.Keys == labels.Keys &&
    forall d :: d in labels ==> labels2[d] == if d == t || d in ms then l else labels[d]
  }

  /** The move pictured cell by cell. */
  lemma PicturedPlayed(layout: Layout, size: nat, s: GameState, own: map<Coord, Name>, lab: Labels, lnk: Links,
                       t: Coord, mover: Name, stroke: Stroke, ms: set<Coord>, l: set<Side>)
    requires Pictured(size, s, own, lab, lnk)
    requires PictureMove(layout, size, own, lab, t, mover, stroke, ms, l)
    requires t !in lnk && forall m :: m in ms ==> m !in lnk
    ensures Moved(s, Played(layout, size, s, t, mover, stroke), t, mover, ms, l)
  {
    PicturedMove(layout, size, s, own, lab, lnk, t, mover, stroke, ms, l);
    PlayedMoved(layout, size, s, t, mover, stroke);
  }

  /** A move on the unlinked t whose mates are unlinked moves s by its mates and the labels they gather. */
  lemma PlayedMoved(layout: Layout, size: nat, s: GameState, t: Coord, mover: Name, stroke: Stroke)
    requires s.links.Keys == s.owner.Keys && t in s.links && s.links[t] == {}
    requires forall m :: m in Mates(layout, size, s.owner, t, mover) ==> s.links[m] == {}
    ensures var ms := Mates(layout, size, s.owner, t, mover);
      Moved(s, Played(layout, size, s, t, mover, stroke), t, mover, ms, Seeds(size, t, stroke) + Gathered(s.connected, ms))
  {
    PlayedSmall(layout, size, s, t, mover, stroke);
    PlayedLinks(layout, size, s, t, mover, stroke);
  }

  /** A picture of s, moved as PictureAfter says, is a picture of s2. */
  lemma Repictured(size: nat, s: GameState, s2: GameState, own: map<Coord, Name>, lab: Labels, lnk: Links,
                   t: Coord, mover: Name, ms: set<Coord>, l: set<Side>, lab2: Labels, lnk2: Links)
    requires Pictured(size, s, own, lab, lnk) && OnBoard(size, t)
    requires Moved(s, s2, t, mover, ms, l)
    requires PictureAfter(size, lab, lnk, t, ms, l, lab2, lnk2)
    ensures Pictured(size, s2, own[t := mover], lab2, lnk2)
  {
    RepictureOwners(size, s.owner, own, t, mover);
    RepictureLabels(size, s.connected, s2.connected, lab, lab2, t, ms, l);
    RepictureLinks(size, s.links, s2.links, lnk, lnk2, t, ms);
  }

  /** The owners pictured once mover has taken t. */
  lemma RepictureOwners(size: nat, owner: map<Coord, Option<Name>>, own: map<Coord, Name>, t: Coord, mover: Name)
    requires OwnersPictured(size, owner, own) && t in Board(size)
    ensures OwnersPictured(size, owner[t := Some(mover)], own[t := mover])
  {
    UpdateKeeps(owner, t, Some(mover));
  }

  /** The labels pictured once t and ms have taken l. */
  lemma RepictureLabels(size: nat, labels: Labels, labels2: Labels, lab: Labels, lab2: Labels, t: Coord, ms: set<Coord>, l: set<Side>)
    requires SetsPictured(size, labels, lab) && Relabels(labels2, labels, t, ms, l) && LabelsRepictured(lab, lab2, t, ms, l)
    ensures SetsPictured(size, labels2, lab2)
  {
  }

  /** The links pictured once the unlinked t has been joined to the unlinked ms. */
  lemma RepictureLinks(size: nat, links: Links, links2: Links, lnk: Links, lnk2: Links, t: Coord, ms: set<Coord>)
    requires SetsPictured(size, links, lnk) && Joins(links2, links, t, ms)
    requires t !in lnk && (forall m :: m in ms ==> m !in lnk) && LinksRepictured(lnk, lnk2, t, ms)
    ensures SetsPictured(size, links2, lnk2)
  {
    forall c | c in links2
      ensures links2[c] == At(lnk2, c)
    {
      if c == t {
        assert links[t] + ms == ms;
      } else if c in ms {
        assert links[c] + {t} == {t};
      }
    }
  }

  /** A cell of a pictured game: its owner and whether it reaches both edges, read off the picture. */
  lemma PicturedCell(size: nat, s: GameState, own: map<Coord, Name>, lab: Labels, lnk: Links, c: Coord)
    requires Pictured(size, s, own, lab, lnk) && OnBoard(size, c)
    ensures c in s.owner && s.owner[c] == (if c in own then Some(own[c]) else None)
    ensures OnBothEdges(s, c) <==> SidesConnected(At(lab, c))
  {
  }

  /** The cell c of the game s holds both labels: it reaches both edges. */
  ghost predicate OnBothEdges(s: GameState, c: Coord)
  {
    c in s.connected && SidesConnected(s.connected[c])
  }

  /** The mates of the move of ScenarioFirst and the labels they gather. */
  lemma ScenarioFirstMates(layout: Layout, a: Name, b: Name)
    requires a != b
    ensures PictureMove(layout, 3, map[], map[], (0, 0), a, Forward, {}, {Zero})
  {
  }

  /** The picture after the move of ScenarioFirst. */
  lemma ScenarioFirstPicture()
    ensures PictureAfter(3, map[], map[], (0, 0), {}, {Zero}, map[(0, 0) := {Zero}], map[])
  {
  }

  /** a plays '/' on (0, 0), which is seeded '0'. */
  lemma ScenarioFirst(layout: Layout, s: GameState, a: Name, b: Name)
    requires a != b && s.winner.None?
    requires Pictured(3, s, map[], map[], map[])
    ensures var s2 := Played(layout, 3, s, (0, 0), a, Forward);
      Pictured(3, s2, map[(0, 0) := a], map[(0, 0) := {Zero}], map[]) &&
      s2.winner.None?
  {
    ScenarioFirstMates(layout, a, b);
    ScenarioFirstPicture();
    PicturedStep(layout, 3, s, map[], map[], map[], (0, 0), a, Forward, {}, {Zero}, map[(0, 0) := {Zero}], map[]);
  }

  /** The mates of the move of ScenarioSecond and the labels they gather. */
  lemma ScenarioSecondMates(layout: Layout, a: Name, b: Name)
    requires a != b
    ensures PictureMove(layout, 3, map[(0, 0) := a], map[(0, 0) := {Zero}], (2, 0), b, Back, {}, {Zero})
  {
  }

  /** The picture after the move of ScenarioSecond. */
  lemma ScenarioSecondPicture()
    ensures PictureAfter(3, map[(0, 0) := {Zero}], map[], (2, 0), {}, {Zero}, map[(0, 0) := {Zero}, (2, 0) := {Zero}],
                         map[])
  {
  }

  /** b plays '\\' on (2, 0), which is seeded '0'. */
  lemma ScenarioSecond(layout: Layout, s: GameState, a: Name, b: Name)
    requires a != b && s.winner.None?
    requires Pictured(3, s, map[(0, 0) := a], map[(0, 0) := {Zero}], map[])
    ensures var s2 := Played(layout, 3, s, (2, 0), b, Back);
      Pictured(3, s2, map[(0, 0) := a, (2, 0) := b], map[(0, 0) := {Zero}, (2, 0) := {Zero}], map[]) &&
      s2.winner.None?
  {
    ScenarioSecondMates(layout, a, b);
    ScenarioSecondPicture();
    PicturedStep(layout, 3, s, map[(0, 0) := a], map[(0, 0) := {Zero}], map[], (2, 0), b, Back, {}, {Zero},
                 map[(0, 0) := {Zero}, (2, 0) := {Zero}], map[]);
  }

  /** The mates of the move of ScenarioThird and the labels they gather. */
  lemma ScenarioThirdMates(layout: Layout, a: Name, b: Name)
    requires a != b
    ensures PictureMove(layout, 3, map[(0, 0) := a, (2, 0) := b], map[(0, 0) := {Zero}, (2, 0) := {Zero}], (2, 2), a,
                        Forward, {}, {Equals})
  {
  }

  /** The picture after the move of ScenarioThird. */
  lemma ScenarioThirdPicture()
    ensures PictureAfter(3, map[(0, 0) := {Zero}, (2, 0) := {Zero}], map[], (2, 2), {}, {Equals},
                         map[(0, 0) := {Zero}, (2, 0) := {Zero}, (2, 2) := {Equals}], map[])
  {
  }

  /** a plays '/' on (2, 2), which is seeded '='; (0, 0) is not its neighbour. */
  lemma ScenarioThird(layout: Layout, s: GameState, a: Name, b: Name)
    requires a != b && s.winner.None?
    requires Pictured(3, s, map[(0, 0) := a, (2, 0) := b], map[(0, 0) := {Zero}, (2, 0) := {Zero}], map[])
    ensures var s2 := Played(layout, 3, s, (2, 2), a, Forward);
      Pictured(3, s2, map[(0, 0) := a, (2, 0) := b, (2, 2) := a],
               map[(0, 0) := {Zero}, (2, 0) := {Zero}, (2, 2) := {Equals}], map[]) &&
      s2.winner.None?
  {
    ScenarioThirdMates(layout, a, b);
    ScenarioThirdPicture();
    PicturedStep(layout, 3, s, map[(0, 0) := a, (2, 0) := b], map[(0, 0) := {Zero}, (2, 0) := {Zero}], map[], (2, 2),
                 a, Forward, {}, {Equals}, map[(0, 0) := {Zero}, (2, 0) := {Zero}, (2, 2) := {Equals}], map[]);
  }

  /** The mates of the move of ScenarioFourth and the labels they gather. */
  lemma ScenarioFourthMates(layout: Layout, a: Name, b: Name)
    requires a != b
    ensures PictureMove(layout, 3, map[(0, 0) := a, (2, 0) := b, (2, 2) := a],
                        map[(0, 0) := {Zero}, (2, 0) := {Zero}, (2, 2) := {Equals}], (1, 1), b, Back, {}, {Equals})
  {
  }

  /** The picture after the move of ScenarioFourth. */
  lemma ScenarioFourthPicture()
    ensures PictureAfter(3, map[(0, 0) := {Zero}, (2, 0) := {Zero}, (2, 2) := {Equals}], map[], (1, 1), {}, {Equals},
                         map[(0, 0) := {Zero}, (2, 0) := {Zero}, (2, 2) := {Equals}, (1, 1) := {Equals}], map[])
  {
  }

  /** b plays '\\' on (1, 1), which is seeded '='; (2, 0) is not its neighbour. */
  lemma ScenarioFourth(layout: Layout, s: GameState, a: Name, b: Name)
    requires a != b && s.winner.None?
    requires Pictured(3, s, map[(0, 0) := a, (2, 0) := b, (2, 2) := a],
                      map[(0, 0) := {Zero}, (2, 0) := {Zero}, (2, 2) := {Equals}], map[])
    ensures var s2 := Played(layout, 3, s, (1, 1), b, Back);
      Pictured(3, s2, map[(0, 0) := a, (2, 0) := b, (2, 2) := a, (1, 1) := b],
               map[(0, 0) := {Zero}, (2, 0) := {Zero}, (2, 2) := {Equals}, (1, 1) := {Equals}], map[]) &&
      s2.winner.None?
  {
    ScenarioFourthMates(layout, a, b);
    ScenarioFourthPicture();
    PicturedStep(layout, 3, s, map[(0, 0) := a, (2, 0) := b, (2, 2) := a],
                 map[(0, 0) := {Zero}, (2, 0) := {Zero}, (2, 2) := {Equals}], map[], (1, 1), b, Back, {}, {Equals},
                 map[(0, 0) := {Zero}, (2, 0) := {Zero}, (2, 2) := {Equals}, (1, 1) := {Equals}], map[]);
  }

  /** The mates of the move of ScenarioFifth and the labels they gather. */
  lemma ScenarioFifthMates(layout: Layout, a: Name, b: Name)
    requires a != b
    ensures PictureMove(layout, 3, map[(0, 0) := a, (2, 0) := b, (2, 2) := a, (1, 1) := b],
                        map[(0, 0) := {Zero}, (2, 0) := {Zero}, (2, 2) := {Equals}, (1, 1) := {Equals}], (1, 0), a,
                        Forward, {(0, 0)}, {Zero})
  {
  }

  /** The picture after the move of ScenarioFifth. */
  lemma ScenarioFifthPicture()
    ensures PictureAfter(3, map[(0, 0) := {Zero}, (2, 0) := {Zero}, (2, 2) := {Equals}, (1, 1) := {Equals}], map[],
                         (1, 0), {(0, 0)}, {Zero},
                         map[(0, 0) := {Zero}, (2, 0) := {Zero}, (2, 2) := {Equals}, (1, 1) := {Equals}, (1, 0) := {Zero}],
                         map[(0, 0) := {(1, 0)}, (1, 0) := {(0, 0)}])
  {
  }

  /** a plays '/' on (1, 0), which is seeded '0', and links it to (0, 0). */
  lemma ScenarioFifth(layout: Layout, s: GameState, a: Name, b: Name)
    requires a != b && s.winner.None?
    requires Pictured(3, s, map[(0, 0) := a, (2, 0) := b, (2, 2) := a, (1, 1) := b],
                      map[(0, 0) := {Zero}, (2, 0) := {Zero}, (2, 2) := {Equals}, (1, 1) := {Equals}], map[])
    ensures var s2 := Played(layout, 3, s, (1, 0), a, Forward);
      Pictured(3, s2, map[(0, 0) := a, (2, 0) := b, (2, 2) := a, (1, 1) := b, (1, 0) := a],
               map[(0, 0) := {Zero}, (2, 0) := {Zero}, (2, 2) := {Equals}, (1, 1) := {Equals}, (1, 0) := {Zero}],
               map[(0, 0) := {(1, 0)}, (1, 0) := {(0, 0)}]) &&
      s2.winner.None?
  {
    ScenarioFifthMates(layout, a, b);
    ScenarioFifthPicture();
    PicturedStep(layout, 3, s, map[(0, 0) := a, (2, 0) := b, (2, 2) := a, (1, 1) := b],
                 map[(0, 0) := {Zero}, (2, 0) := {Zero}, (2, 2) := {Equals}, (1, 1) := {Equals}], map[], (1, 0), a,
                 Forward, {(0, 0)}, {Zero},
                 map[(0, 0) := {Zero}, (2, 0) := {Zero}, (2, 2) := {Equals}, (1, 1) := {Equals}, (1, 0) := {Zero}],
                 map[(0, 0) := {(1, 0)}, (1, 0) := {(0, 0)}]);
  }

  /** The mates of the move of ScenarioSixth and the labels they gather. */
  lemma ScenarioSixthMates(layout: Layout, a: Name, b: Name)
    requires a != b
    ensures PictureMove(layout, 3, map[(0, 0) := a, (2, 0) := b, (2, 2) := a, (1, 1) := b, (1, 0) := a],
                        map[(0, 0) := {Zero}, (2, 0) := {Zero}, (2, 2) := {Equals}, (1, 1) := {Equals}, (1, 0) := {Zero}],
                        (2, 1), b, Back, {(2, 0), (1, 1)}, {Zero, Equals})
  {
  }

  /** The picture after the move of ScenarioSixth. */
  lemma ScenarioSixthPicture()
    ensures PictureAfter(3,
                         map[(0, 0) := {Zero}, (2, 0) := {Zero}, (2, 2) := {Equals}, (1, 1) := {Equals}, (1, 0) := {Zero}],
                         map[(0, 0) := {(1, 0)}, (1, 0) := {(0, 0)}], (2, 1), {(2, 0), (1, 1)}, {Zero, Equals},
                         map[(0, 0) := {Zero}, (2, 0) := {Zero, Equals}, (2, 2) := {Equals}, (1, 1) := {Zero, Equals}, (1, 0) := {Zero}, (2, 1) := {Zero, Equals}],
                         map[(0, 0) := {(1, 0)}, (1, 0) := {(0, 0)}, (2, 1) := {(2, 0), (1, 1)}, (2, 0) := {(2, 1)}, (1, 1) := {(2, 1)}])
  {
  }

  /** b plays '\\' on (2, 1) and links it to (2, 0) and (1, 1): the three hold both labels and b wins. */
  lemma ScenarioSixth(layout: Layout, s: GameState, a: Name, b: Name)
    requires a != b && s.winner.None?
    requires Pictured(3, s, map[(0, 0) := a, (2, 0) := b, (2, 2) := a, (1, 1) := b, (1, 0) := a],
                      map[(0, 0) := {Zero}, (2, 0) := {Zero}, (2, 2) := {Equals}, (1, 1) := {Equals}, (1, 0) := {Zero}],
                      map[(0, 0) := {(1, 0)}, (1, 0) := {(0, 0)}])
    ensures var s2 := Played(layout, 3, s, (2, 1), b, Back);
      Pictured(3, s2, map[(0, 0) := a, (2, 0) := b, (2, 2) := a, (1, 1) := b, (1, 0) := a, (2, 1) := b],
               map[(0, 0) := {Zero}, (2, 0) := {Zero, Equals}, (2, 2) := {Equals}, (1, 1) := {Zero, Equals}, (1, 0) := {Zero}, (2, 1) := {Zero, Equals}],
               map[(0, 0) := {(1, 0)}, (1, 0) := {(0, 0)}, (2, 1) := {(2, 0), (1, 1)}, (2, 0) := {(2, 1)}, (1, 1) := {(2, 1)}]) &&
      s2.winner == Some(b)
  {
    ScenarioSixthMates(layout, a, b);
    ScenarioSixthPicture();
    PicturedStep(layout, 3, s, map[(0, 0) := a, (2, 0) := b, (2, 2) := a, (1, 1) := b, (1, 0) := a],
                 map[(0, 0) := {Zero}, (2, 0) := {Zero}, (2, 2) := {Equals}, (1, 1) := {Equals}, (1, 0) := {Zero}],
                 map[(0, 0) := {(1, 0)}, (1, 0) := {(0, 0)}], (2, 1), b, Back, {(2, 0), (1, 1)}, {Zero, Equals},
                 map[(0, 0) := {Zero}, (2, 0) := {Zero, Equals}, (2, 2) := {Equals}, (1, 1) := {Zero, Equals}, (1, 0) := {Zero}, (2, 1) := {Zero, Equals}],
                 map[(0, 0) := {(1, 0)}, (1, 0) := {(0, 0)}, (2, 1) := {(2, 0), (1, 1)}, (2, 0) := {(2, 1)}, (1, 1) := {(2, 1)}]);
  }

  /**
   * The make_step scenario of the test suite, from a new game on the board
   * of size 3 (InitialPictured shows a new game is one) and under either
   * layout, with a as Player1 and b as Player2. The picture of the game
   * after each move gives every cell's owner, labels and links
   * (PicturedCell reads a cell off it). a plays '/' on (0, 0), b '\\' on
   * (2, 0) and a '/' on (2, 2): each is seeded with one label and none is a
   * neighbour of another. b's '\\' on the taken (2, 2) changes nothing
   * (Game.MakeStep). b plays '\\' on (1, 1), seeded '='; a plays '/' on
   * (1, 0), seeded '0' and linked to (0, 0); no cell holds both labels. Then
   * b's '\\' on (2, 1) links it to (2, 0), which holds '0', and to (1, 1),
   * which holds '='. The three cells now hold both labels and b wins.
   */
  lemma MakeStepScenario(layout: Layout, s0: GameState, a: Name, b: Name)
    requires a != b && Pictured(3, s0, map[], map[], map[]) && s0.winner.None?
    ensures var s1 := Played(layout, 3, s0, (0, 0), a, Forward);
      var s2 := Played(layout, 3, s1, (2, 0), b, Back);
      var s3 := Played(layout, 3, s2, (2, 2), a, Forward);
      var s5 := Played(layout, 3, s3, (1, 1), b, Back);
      var s6 := Played(layout, 3, s5, (1, 0), a, Forward);
      var s7 := Played(layout, 3, s6, (2, 1), b, Back);
      Pictured(3, s1, map[(0, 0) := a], map[(0, 0) := {Zero}], map[]) && s1.winner.None? &&
      Pictured(3, s2, map[(0, 0) := a, (2, 0) := b], map[(0, 0) := {Zero}, (2, 0) := {Zero}], map[]) && s2.winner.None? &&
      Pictured(3, s3, map[(0, 0) := a, (2, 0) := b, (2, 2) := a],
               map[(0, 0) := {Zero}, (2, 0) := {Zero}, (2, 2) := {Equals}], map[]) && s3.winner.None? &&
      Pictured(3, s5, map[(0, 0) := a, (2, 0) := b, (2, 2) := a, (1, 1) := b],
               map[(0, 0) := {Zero}, (2, 0) := {Zero}, (2, 2) := {Equals}, (1, 1) := {Equals}], map[]) && s5.winner.None? &&
      Pictured(3, s6, map[(0, 0) := a, (2, 0) := b, (2, 2) := a, (1, 1) := b, (1, 0) := a],
               map[(0, 0) := {Zero}, (2, 0) := {Zero}, (2, 2) := {Equals}, (1, 1) := {Equals}, (1, 0) := {Zero}],
               map[(0, 0) := {(1, 0)}, (1, 0) := {(0, 0)}]) && s6.winner.None? &&
      Pictured(3, s7, map[(0, 0) := a, (2, 0) := b, (2, 2) := a, (1, 1) := b, (1, 0) := a, (2, 1) := b],
               map[(0, 0) := {Zero}, (2, 0) := {Zero, Equals}, (2, 2) := {Equals}, (1, 1) := {Zero, Equals},
                   (1, 0) := {Zero}, (2, 1) := {Zero, Equals}],
               map[(0, 0) := {(1, 0)}, (1, 0) := {(0, 0)}, (2, 1) := {(2, 0), (1, 1)}, (2, 0) := {(2, 1)}, (1, 1) := {(2, 1)}]) &&
      s7.winner == Some(b)
  {
    var s1 := Played(layout, 3, s0, (0, 0), a, Forward);
    ScenarioFirst(layout, s0, a, b);
    var s2 := Played(layout, 3, s1, (2, 0), b, Back);
    ScenarioSecond(layout, s1, a, b);
    var s3 := Played(layout, 3, s2, (2, 2), a, Forward);
    ScenarioThird(layout, s2, a, b);
    var s5 := Played(layout, 3, s3, (1, 1), b, Back);
    ScenarioFourth(layout, s3, a, b);
    var s6 := Played(layout, 3, s5, (1, 0), a, Forward);
    ScenarioFifth(layout, s5, a, b);
    ScenarioSixth(layout, s6, a, b);
  }

  /** The mates of the move of DivergingFirst and the labels they gather. */
  lemma DivergingFirstMates(layout: Layout, a: Name, b: Name)
    requires a != b
    ensures PictureMove(layout, 3, map[], map[], (1, 1), a, Back, {}, {Equals})
  {
  }

  /** The picture after the move of DivergingFirst. */
  lemma DivergingFirstPicture()
    ensures PictureAfter(3, map[], map[], (1, 1), {}, {Equals}, map[(1, 1) := {Equals}], map[])
  {
  }

  /** a plays '\\' on (1, 1), which is seeded '='. */
  lemma DivergingFirst(layout: Layout, s: GameState, a: Name, b: Name)
    requires a != b && s.winner.None?
    requires Pictured(3, s, map[], map[], map[])
    ensures var s2 := Played(layout, 3, s, (1, 1), a, Back);
      Pictured(3, s2, map[(1, 1) := a], map[(1, 1) := {Equals}], map[]) &&
      s2.winner.None?
  {
    DivergingFirstMates(layout, a, b);
    DivergingFirstPicture();
    PicturedStep(layout, 3, s, map[], map[], map[], (1, 1), a, Back, {}, {Equals}, map[(1, 1) := {Equals}], map[]);
  }

  /** The mates of the move of DivergingSecond and the labels they gather. */
  lemma DivergingSecondMates(layout: Layout, a: Name, b: Name)
    requires a != b
    ensures PictureMove(layout, 3, map[(1, 1) := a], map[(1, 1) := {Equals}], (4, 0), b, Forward, {}, {Equals})
  {
  }

  /** The picture after the move of DivergingSecond. */
  lemma DivergingSecondPicture()
    ensures PictureAfter(3, map[(1, 1) := {Equals}], map[], (4, 0), {}, {Equals},
                         map[(1, 1) := {Equals}, (4, 0) := {Equals}], map[])
  {
  }

  /** b plays '/' on (4, 0), which is seeded '='. */
  lemma DivergingSecond(layout: Layout, s: GameState, a: Name, b: Name)
    requires a != b && s.winner.None?
    requires Pictured(3, s, map[(1, 1) := a], map[(1, 1) := {Equals}], map[])
    ensures var s2 := Played(layout, 3, s, (4, 0), b, Forward);
      Pictured(3, s2, map[(1, 1) := a, (4, 0) := b], map[(1, 1) := {Equals}, (4, 0) := {Equals}], map[]) &&
      s2.winner.None?
  {
    DivergingSecondMates(layout, a, b);
    DivergingSecondPicture();
    PicturedStep(layout, 3, s, map[(1, 1) := a], map[(1, 1) := {Equals}], map[], (4, 0), b, Forward, {}, {Equals},
                 map[(1, 1) := {Equals}, (4, 0) := {Equals}], map[]);
  }

  /** The mates of the move of DivergingThird and the labels they gather. */
  lemma DivergingThirdMates(layout: Layout, a: Name, b: Name)
    requires a != b
    ensures PictureMove(layout, 3, map[(1, 1) := a, (4, 0) := b], map[(1, 1) := {Equals}, (4, 0) := {Equals}], (2, 1),
                        a, Back, {(1, 1)}, {Equals})
  {
  }

  /** The picture after the move of DivergingThird. */
  lemma DivergingThirdPicture()
    ensures PictureAfter(3, map[(1, 1) := {Equals}, (4, 0) := {Equals}], map[], (2, 1), {(1, 1)}, {Equals},
                         map[(1, 1) := {Equals}, (4, 0) := {Equals}, (2, 1) := {Equals}],
                         map[(1, 1) := {(2, 1)}, (2, 1) := {(1, 1)}])
  {
  }

  /** a plays '\\' on (2, 1), which is not seeded, and links it to (1, 1). */
  lemma DivergingThird(layout: Layout, s: GameState, a: Name, b: Name)
    requires a != b && s.winner.None?
    requires Pictured(3, s, map[(1, 1) := a, (4, 0) := b], map[(1, 1) := {Equals}, (4, 0) := {Equals}], map[])
    ensures var s2 := Played(layout, 3, s, (2, 1), a, Back);
      Pictured(3, s2, map[(1, 1) := a, (4, 0) := b, (2, 1) := a],
               map[(1, 1) := {Equals}, (4, 0) := {Equals}, (2, 1) := {Equals}],
               map[(1, 1) := {(2, 1)}, (2, 1) := {(1, 1)}]) &&
      s2.winner.None?
  {
    DivergingThirdMates(layout, a, b);
    DivergingThirdPicture();
    PicturedStep(layout, 3, s, map[(1, 1) := a, (4, 0) := b], map[(1, 1) := {Equals}, (4, 0) := {Equals}], map[],
                 (2, 1), a, Back, {(1, 1)}, {Equals}, map[(1, 1) := {Equals}, (4, 0) := {Equals}, (2, 1) := {Equals}],
                 map[(1, 1) := {(2, 1)}, (2, 1) := {(1, 1)}]);
  }

  /** The mates of the move of DivergingFourth and the labels they gather. */
  lemma DivergingFourthMates(layout: Layout, a: Name, b: Name)
    requires a != b
    ensures PictureMove(layout, 3, map[(1, 1) := a, (4, 0) := b, (2, 1) := a],
                        map[(1, 1) := {Equals}, (4, 0) := {Equals}, (2, 1) := {Equals}], (2, 2), b, Forward, {},
                        {Equals})
  {
  }

  /** The picture after the move of DivergingFourth. */
  lemma DivergingFourthPicture()
    ensures PictureAfter(3, map[(1, 1) := {Equals}, (4, 0) := {Equals}, (2, 1) := {Equals}],
                         map[(1, 1) := {(2, 1)}, (2, 1) := {(1, 1)}], (2, 2), {}, {Equals},
                         map[(1, 1) := {Equals}, (4, 0) := {Equals}, (2, 1) := {Equals}, (2, 2) := {Equals}],
                         map[(1, 1) := {(2, 1)}, (2, 1) := {(1, 1)}])
  {
  }

  /** b plays '/' on (2, 2), which is seeded '='; (4, 0) is not its neighbour. */
  lemma DivergingFourth(layout: Layout, s: GameState, a: Name, b: Name)
    requires a != b && s.winner.None?
    requires Pictured(3, s, map[(1, 1) := a, (4, 0) := b, (2, 1) := a],
                      map[(1, 1) := {Equals}, (4, 0) := {Equals}, (2, 1) := {Equals}],
                      map[(1, 1) := {(2, 1)}, (2, 1) := {(1, 1)}])
    ensures var s2 := Played(layout, 3, s, (2, 2), b, Forward);
      Pictured(3, s2, map[(1, 1) := a, (4, 0) := b, (2, 1) := a, (2, 2) := b],
               map[(1, 1) := {Equals}, (4, 0) := {Equals}, (2, 1) := {Equals}, (2, 2) := {Equals}],
               map[(1, 1) := {(2, 1)}, (2, 1) := {(1, 1)}]) &&
      s2.winner.None?
  {
    DivergingFourthMates(layout, a, b);
    DivergingFourthPicture();
    PicturedStep(layout, 3, s, map[(1, 1) := a, (4, 0) := b, (2, 1) := a],
                 map[(1, 1) := {Equals}, (4, 0) := {Equals}, (2, 1) := {Equals}],
                 map[(1, 1) := {(2, 1)}, (2, 1) := {(1, 1)}], (2, 2), b, Forward, {}, {Equals},
                 map[(1, 1) := {Equals}, (4, 0) := {Equals}, (2, 1) := {Equals}, (2, 2) := {Equals}],
                 map[(1, 1) := {(2, 1)}, (2, 1) := {(1, 1)}]);
  }

  /** The mates of the move of DivergingFifth under either layout, and the labels they gather. */
  lemma DivergingFifthMates(layout: Layout, a: Name, b: Name)
    requires a != b
    ensures PictureMove(layout, 3, map[(1, 1) := a, (4, 0) := b, (2, 1) := a, (2, 2) := b],
                        map[(1, 1) := {Equals}, (4, 0) := {Equals}, (2, 1) := {Equals}, (2, 2) := {Equals}], (3, 0), a,
                        Back, if layout == Drawn then {(2, 1)} else {},
                        if layout == Drawn then {Zero, Equals} else {Zero})
  {
  }

  /**
   * a plays '\\' on (3, 0), which is seeded '0'. Under the drawn layout
   * (2, 1) is a mate and a wins; as written it is not, and nobody wins.
   */
  lemma DivergingFifth(layout: Layout, s: GameState, a: Name, b: Name)
    requires a != b && s.winner.None?
    requires Pictured(3, s, map[(1, 1) := a, (4, 0) := b, (2, 1) := a, (2, 2) := b],
                      map[(1, 1) := {Equals}, (4, 0) := {Equals}, (2, 1) := {Equals}, (2, 2) := {Equals}],
                      map[(1, 1) := {(2, 1)}, (2, 1) := {(1, 1)}])
    ensures Played(layout, 3, s, (3, 0), a, Back).winner == if layout == Drawn then Some(a) else None
  {
    DivergingFifthMates(layout, a, b);
    PicturedWinner(layout, 3, s, map[(1, 1) := a, (4, 0) := b, (2, 1) := a, (2, 2) := b],
                   map[(1, 1) := {Equals}, (4, 0) := {Equals}, (2, 1) := {Equals}, (2, 2) := {Equals}],
                   map[(1, 1) := {(2, 1)}, (2, 1) := {(1, 1)}], (3, 0), a, Back,
                   if layout == Drawn then {(2, 1)} else {}, if layout == Drawn then {Zero, Equals} else {Zero});
  }

  /**
   * The neighbour rule decides who wins. From a new game on the board of
   * size 3, a plays '\\' on (1, 1), b '/' on (4, 0), a '\\' on (2, 1), b
   * '/' on (2, 2) and a '\\' on (3, 0): the group of (1, 1) and (2, 1)
   * holds '=' and (3, 0) is seeded '0'. The hexagons of (3, 0) and (2, 1)
   * touch, so under the drawn layout a joins both edges and wins; the
   * neighbours get_neighbours lists for (3, 0) are (2, 0), (3, 1) and
   * (4, 0), so as written nobody has won.
   */
  lemma LowerHalfWinDiverges(layout: Layout, s0: GameState, a: Name, b: Name)
    requires a != b && Pictured(3, s0, map[], map[], map[]) && s0.winner.None?
    ensures var s1 := Played(layout, 3, s0, (1, 1), a, Back);
      var s2 := Played(layout, 3, s1, (4, 0), b, Forward);
      var s3 := Played(layout, 3, s2, (2, 1), a, Back);
      var s4 := Played(layout, 3, s3, (2, 2), b, Forward);
      var s5 := Played(layout, 3, s4, (3, 0), a, Back);
      s4.winner.None? && s5.winner == if layout == Drawn then Some(a) else None
  {
    var s1 := Played(layout, 3, s0, (1, 1), a, Back);
    DivergingFirst(layout, s0, a, b);
    var s2 := Played(layout, 3, s1, (4, 0), b, Forward);
    DivergingSecond(layout, s1, a, b);
    var s3 := Played(layout, 3, s2, (2, 1), a, Back);
    DivergingThird(layout, s2, a, b);
    var s4 := Played(layout, 3, s3, (2, 2), b, Forward);
    DivergingFourth(layout, s3, a, b);
    DivergingFifth(layout, s4, a, b);
  }

  /**
   * Part way through the linking loop of make_step: t, unlinked in base,
   * is joined in links to the mates in done, holds its labels of orig
   * together with those they held, and the cells t cannot reach still hold
   * theirs.
   */
  ghost predicate JoinedUp(base: Links, orig: Labels, t: Coord, done: set<Coord>, links: Links, labels: Labels)
  {
    WellFormed(links, labels) && LabelsFlow(links, labels) && Symmetric(links) &&
    Joins(links, base, t, done) && t in orig && labels.Keys == orig.Keys &&
    (forall d :: d in orig ==> orig[d] <= labels[d]) &&
    labels[t] == orig[t] + Gathered(orig, done) &&
    (forall d {:trigger Reachable(links, t, d)} :: d in orig && !Reachable(links, t, d) ==> labels[d] == orig[d])
  }

  /** A new game: every cell of the board free, unlabelled and unlinked, and no winner. */
  function Initial(size: nat): GameState
  {
    GameState(map c | c in Board(size) :: None, map c | c in Board(size) :: {}, map c | c in Board(size) :: {}, None)
  }

  /** A game whose cells all cover the board, free, unlabelled and unlinked, is a new game. */
  lemma InitialState(size: nat, owner: map<Coord, Option<Name>>, connected: Labels, links: Links)
    requires owner.Keys == connected.Keys == links.Keys == Board(size)
    requires forall c :: c in owner ==> owner[c] == None && connected[c] == {} && links[c] == {}
    ensures GameState(owner, connected, links, None) == Initial(size)
  {
  }

  /** A new game is consistent, under either layout. */
  lemma InitialConsistent(layout: Layout, size: nat)
    ensures var s := Initial(size); ConsistentState(layout, size, s.owner, s.connected, s.links, s.winner)
  {
  }

  class Game {
    const size: nat
    /** The neighbour rule moves link along; the program's get_neighbours is AsWritten. */
    const layout: Layout
    /** Cell.player: the owner of each cell, None while it is free. */
    var owner: map<Coord, Option<Name>>
    /** Cell._connected: the edge labels each cell is joined to. */
    var connected: Labels
    /** Cell._neighbours: the linked same-owner neighbours of each cell. */
    var links: Links
    /** The player to move next, and the other one. */
    var player1: Name
    var player2: Name
    var winner: Option<Name>

    /**
     * The invariant every game reached from the constructor keeps; see
     * ConsistentState.
     */
    ghost predicate Consistent()
      reads this`owner, this`connected, this`links, this`winner
    {
      ConsistentState(layout, size, owner, connected, links, winner)
    }

    /** The state of the game as a value. */
    ghost function State(): GameState
      reads this`owner, this`connected, this`links, this`winner
    {
      GameState(owner, connected, links, winner)
    }

    /** A group of linked cells shares one label set. */
    lemma LinkedCellsShareLabels(a: Coord, b: Coord)
      requires Consistent() && a in connected && Reachable(links, a, b)
      ensures b in connected && connected[b] == connected[a]
    {
      ConsistentSymmetric(layout, size, owner, connected, links, winner);
      ChainShares(links, connected, a, b);
    }

    /**
     * The nested loops of Game.__init__: every cell of the rhombus, row by
     * row, free, unlabelled and unlinked.
     */
    static method NewCells(size: nat) returns (cells: map<Coord, Option<Name>>, labels: Labels, linked: Links)
      ensures GameState(cells, labels, linked, None) == Initial(size)
    {
      cells, labels, linked := map[], map[], map[];
      var i := 0;
      while i < 2 * size
        invariant 0 <= i <= 2 * size
        invariant cells.Keys == labels.Keys == linked.Keys
        invariant forall c :: c in cells <==> OnBoard(size, c) && c.0 < i
        invariant forall c :: c in cells ==> cells[c] == None && labels[c] == {} && linked[c] == {}
      {
        var m := if i < size then i + 1 else 2 * size - i - 1;
        var j := 0;
        while j < m
          invariant 0 <= j <= m
          invariant cells.Keys == labels.Keys == linked.Keys
          invariant forall c :: c in cells <==> OnBoard(size, c) && (c.0 < i || (c.0 == i && c.1 < j))
          invariant forall c :: c in cells ==> cells[c] == None && labels[c] == {} && linked[c] == {}
        {
          cells, labels, linked := cells[(i, j) := None], labels[(i, j) := {}], linked[(i, j) := {}];
          j := j + 1;
        }
        i := i + 1;
      }
      InitialState(size, cells, labels, linked);
    }

    /**
     * Game(size, player1, player2): a new game of the given size, with
     * player1 to move. Moves link along the given layout, get_neighbours'
     * unless told otherwise.
     */
    constructor (size: nat, player1: Name := "Player1", player2: Name := "Player2", layout: Layout := AsWritten)
      ensures this.size == size && this.layout == layout && this.player1 == player1 && this.player2 == player2
      ensures State() == Initial(size)
      ensures Consistent()
    {
      var cells, labels, linked := NewCells(size);
      this.size, this.layout := size, layout;
      this.player1, this.player2 := player1, player2;
      owner, connected, links := cells, labels, linked;
      winner := None;
      InitialConsistent(layout, size);
    }

    /** deepcopy(game): a new game with the same state. */
    constructor Copy(other: Game)
      ensures size == other.size && layout == other.layout && owner == other.owner && connected == other.connected && links == other.links
      ensures player1 == other.player1 && player2 == other.player2 && winner == other.winner
    {
      size, layout := other.size, other.layout;
      owner, connected, links := other.owner, other.connected, other.links;
      player1, player2, winner := other.player1, other.player2, other.winner;
    }

    /** The cells not yet labelled with s. */
    static ghost function LackingIn(labels: Labels, s: Side): set<Coord>
    {
      set d | d in labels && s !in labels[d]
    }

    /** Every cell of work holds s and is reachable from c. */
    static ghost predicate Pending(graph: Links, labels: Labels, c: Coord, s: Side, work: set<Coord>)
    {
      forall v :: v in work ==> v in labels && s in labels[v] && Reachable(graph, c, v)
    }

    /** The flood of s from c reaches n, linked from w: n gains s and joins the worklist if it lacked s. */
    static method Spread(graph: Links, start: Labels, c: Coord, s: Side, w: Coord, n: Coord,
                         labels: Labels, work: set<Coord>, ghost lacking: set<Coord>)
      returns (labels': Labels, work': set<Coord>, ghost lacking': set<Coord>)
      requires n in labels && Reachable(graph, c, w) && w in graph && n in graph[w]
      requires GrownFrom(graph, start, labels, c, s) && Pending(graph, labels, c, s, work)
      requires FlowsOutside(graph, labels, s, work + {w})
      requires forall d :: d in labels ==> (d in lacking <==> s !in labels[d])
      ensures labels'.Keys == labels.Keys && s in labels'[n]
      ensures forall d :: d in labels && s in labels[d] ==> s in labels'[d]
      ensures GrownFrom(graph, start, labels', c, s) && Pending(graph, labels', c, s, work')
      ensures FlowsOutside(graph, labels', s, work' + {w})
      ensures forall d :: d in labels' ==> (d in lacking' <==> s !in labels'[d])
      ensures |lacking'| + |work'| <= |lacking| + |work|
    {
      labels', work', lacking' := labels, work, lacking;
      if s !in labels[n] {
        ReachableAppend(graph, c, w, n);
        GrowFlood(graph, start, labels, c, s, n);
        FlowsOutsideGrow(graph, labels, s, work + {w}, n);
        labels' := labels[n := labels[n] + {s}];
        work' := work + {n};
        lacking' := lacking - {n};
      }
    }

    /**
     * One visit of the flood of s from c: every cell linked from w that
     * lacks s gains it and joins the worklist.
     */
    static method VisitLinks(graph: Links, start: Labels, c: Coord, s: Side, w: Coord,
                             labels: Labels, work: set<Coord>, ghost lacking: set<Coord>)
      returns (labels': Labels, work': set<Coord>, ghost lacking': set<Coord>)
      requires WellFormed(graph, labels) && w in labels && s in labels[w] && Reachable(graph, c, w)
      requires GrownFrom(graph, start, labels, c, s) && Pending(graph, labels, c, s, work)
      requires FlowsOutside(graph, labels, s, work + {w})
      requires forall d :: d in labels ==> (d in lacking <==> s !in labels[d])
      ensures labels'.Keys == labels.Keys && forall d :: d in labels && s in labels[d] ==> s in labels'[d]
      ensures GrownFrom(graph, start, labels', c, s) && Pending(graph, labels', c, s, work')
      ensures FlowsOutside(graph, labels', s, work')
      ensures forall d :: d in labels' ==> (d in lacking' <==> s !in labels'[d])
      ensures |lacking'| + |work'| <= |lacking| + |work|
    {
      labels', work', lacking' := labels, work, lacking;
      var pending := graph[w];
      while pending != {}
        invariant pending <= graph[w]
        invariant labels'.Keys == labels.Keys && forall d :: d in labels && s in labels[d] ==> s in labels'[d]
        invariant GrownFrom(graph, start, labels', c, s) && Pending(graph, labels', c, s, work')
        invariant forall b :: b in graph[w] && b !in pending ==> s in labels'[b]
        invariant FlowsOutside(graph, labels', s, work' + {w})
        invariant forall d :: d in labels' ==> (d in lacking' <==> s !in labels'[d])
        invariant |lacking'| + |work'| <= |lacking| + |work|
        decreases pending
      {
        var n :| n in pending;
        pending := pending - {n};
        labels', work', lacking' := Spread(graph, start, c, s, w, n, labels', work', lacking');
      }
    }

    /**
     * Cell.update_side(s) on cell c: s is added to c and then, following
     * links, to every cell that does not hold it yet. The recursion of the
     * original is an explicit worklist here; a cell is visited only while it
     * lacks s, which is what bounds the walk.
     */
    method UpdateSide(c: Coord, s: Side)
      requires WellFormed(links, connected) && c in connected && SideFlowsExceptInto(links, connected, s, c)
      modifies this`connected
      ensures connected == Flooded(links, old(connected), c, s)
      ensures SideFlows(links, connected, s)
    {
      if s in connected[c] {
        FloodIdempotent(links, connected, c, s);
        FloodRestoresFlow(links, connected, c, s);
        return;
      }
      var graph, start := links, connected;
      var labels := start[c := start[c] + {s}];
      ghost var lacking := LackingIn(start, s) - {c};
      ReachableSelf(graph, c);
      var work := {c};
      while work != {}
        invariant labels.Keys == graph.Keys && c in labels && s in labels[c]
        invariant GrownFrom(graph, start, labels, c, s)
        invariant Pending(graph, labels, c, s, work)
        invariant FlowsOutside(graph, labels, s, work)
        invariant forall d :: d in labels ==> (d in lacking <==> s !in labels[d])
        decreases |lacking| + |work|
      {
        var w :| w in work;
        work := work - {w};
        labels, work, lacking := VisitLinks(graph, start, c, s, w, labels, work, lacking);
      }
      FloodComplete(graph, start, labels, c, s);
      connected := labels;
    }

    /** Label s flows along every link, or still waits in todo to be pushed into b. */
    static ghost predicate FlowsBut(links: Links, labels: Labels, s: Side, todo: set<Side>, b: Coord)
    {
      if s in todo then SideFlowsExceptInto(links, labels, s, b) else SideFlows(links, labels, s)
    }

    /**
     * The loop of Cell.add_link: every label of ls is pushed into b in turn,
     * each by update_side.
     */
    method PushSides(b: Coord, ls: set<Side>)
      requires WellFormed(links, connected) && b in links
      requires FlowsBut(links, connected, Zero, ls, b) && FlowsBut(links, connected, Equals, ls, b)
      modifies this`connected
      ensures connected == Pushed(links, old(connected), b, ls)
      ensures WellFormed(links, connected) && LabelsFlow(links, connected)
    {
      ghost var before := connected;
      PushNothing(links, before, b);
      var todo := ls;
      assert ls - todo == {};
      while todo != {}
        invariant WellFormed(links, connected) && todo <= ls
        invariant connected == Pushed(links, before, b, ls - todo)
        invariant FlowsBut(links, connected, Zero, todo, b) && FlowsBut(links, connected, Equals, todo, b)
        decreases todo
      {
        var s :| s in todo;
        ghost var prev, done := connected, ls - todo;
        var t := if s == Zero then Equals else Zero;
        FloodKeepsFlow(links, prev, b, s, t, b);
        PushOneMore(links, before, b, done, s);
        todo := todo - {s};
        assert ls - todo == done + {s};
        UpdateSide(b, s);
      }
      assert ls - todo == ls;
    }

    /**
     * Cell.add_link: a links to b and pushes each of its labels into b, and
     * from b along b's links. A cell that already has more than five links
     * refuses (the "Too much neighbours" exception), and nothing changes.
     */
    method AddLink(a: Coord, b: Coord) returns (ok: bool)
      requires WellFormed(links, connected) && a in links && b in links && LabelsFlow(links, connected)
      modifies this`links, this`connected
      ensures ok <==> |old(links[a])| <= 5
      ensures !ok ==> links == old(links) && connected == old(connected)
      ensures ok ==> links == old(links)[a := old(links[a]) + {b}]
      ensures ok ==> connected == Linked(links, old(connected), a, b)
      ensures WellFormed(links, connected) && LabelsFlow(links, connected)
    {
      if |links[a]| > 5 {
        return false;
      }
      links := links[a := links[a] + {b}];
      NewLinkFlows(old(links), connected, a, b, Zero);
      NewLinkFlows(old(links), connected, a, b, Equals);
      PushSides(b, connected[a]);
      return true;
    }

    /** update_side(s) on a cell without links: that cell alone gains s. */
    method Mark(t: Coord, s: Side)
      requires WellFormed(links, connected) && t in links && links[t] == {} && LabelsFlow(links, connected)
      modifies this`connected
      ensures connected == old(connected)[t := old(connected)[t] + {s}]
      ensures LabelsFlow(links, connected)
    {
      FloodUnlinked(links, connected, t, s);
      FloodKeepsFlow(links, connected, t, s, if s == Zero then Equals else Zero, t);
      assert SideFlowsExceptInto(links, connected, s, t);
      UpdateSide(t, s);
    }

    /** The seeding of make_step on the freshly claimed, still unlinked cell t. */
    method Seed(t: Coord, stroke: Stroke)
      requires WellFormed(links, connected) && t in links && links[t] == {} && LabelsFlow(links, connected)
      modifies this`connected
      ensures connected == old(connected)[t := old(connected)[t] + Seeds(size, t, stroke)]
      ensures LabelsFlow(links, connected)
    {
      var (x, y) := t;
      match stroke {
        case Back =>
          if x < size && x == y {
            Mark(t, Equals);
          }
          if x >= size - 1 && y == 0 {
            Mark(t, Zero);
          }
          assert connected[t] == old(connected)[t] + Seeds(size, t, stroke);
        case Forward =>
          if x < size && y == 0 {
            Mark(t, Zero);
          }
          if x >= size - 1 && y == 2 * size - 2 - x {
            Mark(t, Equals);
          }
          assert connected[t] == old(connected)[t] + Seeds(size, t, stroke);
        case Other =>
          assert old(connected)[t] + Seeds(size, t, stroke) == connected[t];
      }
    }

    /**
     * cell.add_link(neighbour) then neighbour.add_link(cell), for cells t
     * and n with room for one more link each: t gains the labels n held
     * before the move, cells still unreachable from t keep those of orig,
     * and no label is lost.
     */
    method LinkPair(t: Coord, n: Coord, ghost orig: Labels)
      requires WellFormed(links, connected) && LabelsFlow(links, connected) && Symmetric(links)
      requires t in links && n in links && n != t && |links[t]| <= 5 && |links[n]| <= 5
      requires orig.Keys == connected.Keys && forall d :: d in orig ==> orig[d] <= connected[d]
      requires forall d :: d in orig && !Reachable(links, t, d) ==> connected[d] == orig[d]
      modifies this`links, this`connected
      ensures links == old(links)[t := old(links[t]) + {n}][n := old(links[n]) + {t}]
      ensures connected.Keys == orig.Keys && connected[t] == old(connected[t]) + orig[n]
      ensures forall d :: d in orig ==> orig[d] <= connected[d]
      ensures forall d :: d in orig && !Reachable(links, t, d) ==> connected[d] == orig[d]
      ensures WellFormed(links, connected) && LabelsFlow(links, connected) && Symmetric(links)
    {
      ghost var k0, l0 := links, connected;
      var ok := AddLink(t, n);
      ghost var k1, l1 := links, connected;
      ok := AddLink(n, t);
      SymmetricJoin(k0, t, n);
      MergeTarget(k0, l0, orig, t, n, k1, l1, links, connected);
      MergeUntouched(k0, l0, orig, t, n, k1, l1, links, connected);
    }

    /**
     * One round of the linking loop of make_step: with t already joined to
     * the mates in done, linking t and n joins it to done + {n} too.
     */
    method LinkMate(t: Coord, n: Coord, ghost base: Links, ghost orig: Labels, ghost done: set<Coord>)
      requires JoinedUp(base, orig, t, done, links, connected)
      requires t in base && n in base && n != t && n !in done && base[t] == {} && |done| <= 5 && |base[n]| <= 5
      modifies this`links, this`connected
      ensures JoinedUp(base, orig, t, done + {n}, links, connected)
    {
      JoinOneMore(links, base, t, done, n);
      GatheredAdd(orig, done, n);
      UnionAssociates(orig[t], Gathered(orig, done), orig[n]);
      LinkPair(t, n, orig);
    }

    /**
     * One neighbour n of the linking loop of make_step, taken out of the
     * neighbours ns still to visit: if the mover owns n too, t and n are
     * linked both ways. own is the ownership of the cells, nbrs are the
     * neighbours of t and mates those the mover owns.
     */
    method VisitNeighbour(t: Coord, n: Coord, own: map<Coord, Option<Name>>, mover: Name,
                          ghost base: Links, ghost orig: Labels,
                          ghost nbrs: set<Coord>, ghost mates: set<Coord>, ghost ns: set<Coord>)
      requires t in base && t !in nbrs && base[t] == {} && |nbrs| <= 6
      requires forall a :: a in nbrs ==> a in own && a in base && |base[a]| <= 5 && (a in mates <==> own[a] == Some(mover))
      requires mates <= nbrs && n in ns && ns <= nbrs
      requires JoinedUp(base, orig, t, mates - ns, links, connected)
      modifies this`links, this`connected
      ensures JoinedUp(base, orig, t, mates - (ns - {n}), links, connected)
    {
      ghost var done := mates - ns;
      VisitOne(mates, ns, n);
      if own[n] == Some(mover) {
        SmallerByOne(done, nbrs, n);
        LinkMate(t, n, base, orig, done);
      }
    }

    /**
     * The loop over the neighbours nbrs of t in make_step, with t already
     * claimed by mover: afterwards t is joined to every mate.
     */
    method LinkAll(t: Coord, nbrs: set<Coord>, own: map<Coord, Option<Name>>, mover: Name,
                   ghost base: Links, ghost orig: Labels, ghost mates: set<Coord>)
      requires t in base && t !in nbrs && base[t] == {} && |nbrs| <= 6
      requires forall a :: a in nbrs ==> a in own && a in base && |base[a]| <= 5 && (a in mates <==> own[a] == Some(mover))
      requires mates <= nbrs && JoinedUp(base, orig, t, {}, links, connected)
      modifies this`links, this`connected
      ensures JoinedUp(base, orig, t, mates, links, connected)
    {
      var ns := nbrs;
      assert mates - ns == {};
      while ns != {}
        invariant ns <= nbrs && JoinedUp(base, orig, t, mates - ns, links, connected)
        decreases ns
      {
        var n :| n in ns;
        VisitNeighbour(t, n, own, mover, base, orig, nbrs, mates, ns);
        ns := ns - {n};
      }
      AllVisited(mates, ns);
    }

    /**
     * The linking loop of make_step: the cell t claimed by mover is linked
     * both ways, by two add_link calls, to each neighbour mover also owns.
     */
    method LinkMates(t: Coord, mover: Name)
      requires ReadyToLink(layout, size, owner, links, connected, t)
      modifies this`links, this`connected
      ensures JoinedUp(old(links), old(connected), t, Mates(layout, size, owner, t, mover), links, connected)
    {
      ghost var mates := Mates(layout, size, owner, t, mover);
      var own := owner;
      var nbrs := NeighboursIn(layout, size, t);
      LinkingStarts(layout, size, own, links, connected, t, mover);
      LinkAll(t, nbrs, own, mover, links, connected, mates);
    }

    /**
     * The seeding and the linking loop of make_step on the copied game:
     * the stroke seeds the edge labels of the free cell t, and t is linked
     * both ways to the neighbouring cells mover owns.
     */
    method SeedAndLink(t: Coord, mover: Name, stroke: Stroke)
      requires Consistent() && t in owner && owner[t].None?
      modifies this`connected, this`links
      ensures JoinedUp(old(links), old(connected)[t := old(connected)[t] + Seeds(size, t, stroke)], t,
                       Mates(layout, size, owner, t, mover), links, connected)
    {
      ghost var connected0 := connected;
      FreeCellReady(layout, size, owner, connected0, links, winner, t, connected);
      Seed(t, stroke);
      FreeCellReady(layout, size, owner, connected0, links, winner, t, connected);
      LinkMates(t, mover);
    }

    /**
     * The rest of make_step on the copied game: the player to move takes
     * t, wins if t now joins both edges and nobody has won yet, and the
     * turn passes to the other player.
     */
    method Settle(t: Coord)
      requires t in connected
      modifies this`owner, this`winner, this`player1, this`player2
      ensures owner == old(owner)[t := Some(old(player1))]
      ensures winner == if SidesConnected(connected[t]) && old(winner).None? then Some(old(player1)) else old(winner)
      ensures player1 == old(player2) && player2 == old(player1)
    {
      owner := owner[t := Some(player1)];
      if SidesConnected(connected[t]) && winner.None? {
        winner := Some(player1);
      }
      player1, player2 := player2, player1;
    }

    /**
     * The body of make_step on the copied game: the player to move plays
     * stroke on the free cell t, and the turn passes.
     */
    method Move(t: Coord, stroke: Stroke)
      requires Consistent() && t in owner && owner[t].None?
      modifies this`owner, this`connected, this`links, this`winner, this`player1, this`player2
      ensures State() == Played(layout, size, old(State()), t, old(player1), stroke)
      ensures player1 == old(player2) && player2 == old(player1)
      ensures Consistent()
    {
      ghost var owner0, connected0, links0, winner0 := owner, connected, links, winner;
      var mover := player1;
      SeedAndLink(t, mover, stroke);
      Settle(t);
      MoveFacts(layout, size, owner0, connected0, links0, winner0, t, mover, stroke, links, connected, winner);
    }

    /**
     * Game.make_step(x, y, side). On an occupied cell the same game comes
     * back; otherwise a copy on which the player to move has played (x, y)
     * and the players have swapped turns.
     */
    method MakeStep(x: int, y: int, stroke: Stroke) returns (g: Game)
      requires Consistent() && (x, y) in owner
      ensures owner[(x, y)].Some? ==> g == this
      ensures owner[(x, y)].None? ==>
        fresh(g) && g.size == size && g.layout == layout && g.player1 == player2 && g.player2 == player1 &&
        g.State() == Played(layout, size, State(), (x, y), player1, stroke)
      ensures g.Consistent()
    {
      if owner[(x, y)].Some? {
        return this;
      }
      g := new Game.Copy(this);
      g.Move((x, y), stroke);
    }
  }
}