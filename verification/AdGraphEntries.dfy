/**
 * Exactly when every node of the graph of kits/adint/src/domain/ad-graph.ts can be reached: every node but
 * a publisher must be entered by an edge that no earlier edge with the same key has shut out.
 */
module AdGraphEntries {
  import opened Base
  import opened AdGraph

  // ---- Reachable means entered ----

  ghost predicate Entered(g: Graph, id: string) {
    exists e :: e in g.edges && e.target == id
  }

  lemma Extend(g: Graph, e: Edge)
    requires Sound(g) && e in g.edges && Reachable(g, e.source)
    ensures Reachable(g, e.target)
  {
    var ids :| Path(g, ids) && g.nodes[ids[0]] == Publisher && ids[|ids| - 1] == e.source;
    assert Linked(g, e);
    var longer := ids + [e.target];
    forall i | 0 <= i < |longer| - 1 ensures Edge(longer[i], longer[i + 1]) in g.edges {
      assert i < |ids| - 1 ==> Edge(ids[i], ids[i + 1]) in g.edges;
      assert i == |ids| - 1 ==> Edge(longer[i], longer[i + 1]) == e;
    }
    assert Path(g, longer) && longer[0] == ids[0] && longer[|longer| - 1] == e.target;
  }

  /** Climbing down the edges ends at a publisher. */
  lemma {:induction false} EnteredIsReachable(g: Graph, id: string)
    requires Sound(g) && id in g.nodes
    requires forall n | n in g.nodes && g.nodes[n] != Publisher :: Entered(g, n)
    ensures Reachable(g, id)
    decreases Layer(g.nodes[id])
  {
    if g.nodes[id] == Publisher {
      assert Path(g, [id]) && [id][|[id]| - 1] == id;
    } else {
      var e :| e in g.edges && e.target == id;
      assert Linked(g, e);
      EnteredIsReachable(g, e.source);
      Extend(g, e);
    }
  }

  lemma ReachableIsEntered(g: Graph, id: string)
    requires id in g.nodes && g.nodes[id] != Publisher && Reachable(g, id)
    ensures Entered(g, id)
  {
    var ids :| Path(g, ids) && g.nodes[ids[0]] == Publisher && ids[|ids| - 1] == id;
    var n := |ids| - 2;
    assert n >= 0 && Edge(ids[n], ids[n + 1]) in g.edges;
  }

  // ---- Which edges survive ----

  function StepSeq(chain: seq<Node>): seq<Edge> {
    var n := |chain| - 1;
    if n <= 0 then [] else StepSeq(chain[..n]) + [Step(chain, n - 1)]
  }

  predicate Fits(g: Graph, row: Row, limit: int, collapse: bool) {
    |g.nodes| + NewCount(Candidates(row, collapse), g.nodes) <= limit
  }

  /** The rows the cap let in, in order. */
  function Admitted(rows: seq<Row>, limit: int, collapse: bool): seq<Row> {
    if rows == [] then []
    else
      var n := |rows| - 1;
      var before, g := Admitted(rows[..n], limit, collapse), Build(rows[..n], limit, collapse);
      before + if Fits(g, rows[n], limit, collapse) then [rows[n]] else []
  }

  /** Every edge asked for, in order and with repetitions. */
  function Asked(rows: seq<Row>, collapse: bool): seq<Edge> {
    if rows == [] then [] else Asked(rows[..|rows| - 1], collapse) + StepSeq(Chain(rows[|rows| - 1], collapse))
  }

  /** The i-th edge is the first with its key. */
  predicate FirstOfKey(edges: seq<Edge>, i: nat) {
    i < |edges| && forall j | 0 <= j < i :: Key(edges[j]) != Key(edges[i])
  }

  ghost predicate Survives(edges: seq<Edge>, e: Edge) {
    exists i: nat :: FirstOfKey(edges, i) && edges[i] == e
  }

  /** The graph's edges and keys are those of the edges asked for so far. */
  ghost predicate HoldsFirst(g: Graph, asked: seq<Edge>) {
    && (forall e :: e in g.edges <==> Survives(asked, e))
    && (forall k :: k in g.keys <==> exists i :: 0 <= i < |asked| && Key(asked[i]) == k)
  }

  lemma SurvivesSnoc(asked: seq<Edge>, e: Edge, other: Edge)
    ensures Survives(asked + [e], other) <==>
              Survives(asked, other) || (other == e && forall j | 0 <= j < |asked| :: Key(asked[j]) != Key(e))
  {
    var longer := asked + [e];
    if Survives(asked, other) {
      var i: nat :| FirstOfKey(asked, i) && asked[i] == other;
      assert FirstOfKey(longer, i) && longer[i] == other;
    }
    if other == e && forall j | 0 <= j < |asked| :: Key(asked[j]) != Key(e) {
      assert FirstOfKey(longer, |asked|) && longer[|asked|] == e;
    }
    if Survives(longer, other) {
      var i: nat :| FirstOfKey(longer, i) && longer[i] == other;
      if i < |asked| {
        assert forall j | 0 <= j < i :: longer[j] == asked[j];
        assert FirstOfKey(asked, i) && asked[i] == other;
      } else {
        assert forall j | 0 <= j < |asked| :: longer[j] == asked[j];
      }
    }
  }

  lemma LinkHoldsFirst(g: Graph, asked: seq<Edge>, e: Edge)
    requires HoldsFirst(g, asked)
    ensures HoldsFirst(Link(g, e), asked + [e])
  {
    var h := Link(g, e);
    hide Key;
    forall other ensures other in h.edges <==> Survives(asked + [e], other) {
      SurvivesSnoc(asked, e, other);
      hide Survives;
    }
    forall k ensures k in h.keys <==> exists i :: 0 <= i < |asked + [e]| && Key((asked + [e])[i]) == k {
      if k in g.keys {
        var i :| 0 <= i < |asked| && Key(asked[i]) == k;
        assert (asked + [e])[i] == asked[i];
      }
      assert (asked + [e])[|asked|] == e;
    }
  }

  lemma {:induction false} ChainHoldsFirst(g: Graph, asked: seq<Edge>, chain: seq<Node>)
    requires HoldsFirst(g, asked)
    ensures HoldsFirst(AddChain(g, chain), asked + StepSeq(chain))
  {
    if |chain| <= 1 {
      assert asked + StepSeq(chain) == asked;
      if |chain| == 1 {
        assert AddChain(g, chain) == Put(AddChain(g, chain[..0]), chain[0]);
      }
    } else {
      var n := |chain| - 1;
      ChainHoldsFirst(g, asked, chain[..n]);
      var before := Put(AddChain(g, chain[..n]), chain[n]);
      hide Survives;
      assert HoldsFirst(before, asked + StepSeq(chain[..n]));
      hide HoldsFirst;
      LinkHoldsFirst(before, asked + StepSeq(chain[..n]), Step(chain, n - 1));
      assert asked + StepSeq(chain) == (asked + StepSeq(chain[..n])) + [Step(chain, n - 1)];
    }
  }

  lemma AdmitHoldsFirst(g: Graph, before: seq<Row>, row: Row, limit: int, collapse: bool)
    requires HoldsFirst(g, Asked(before, collapse))
    ensures HoldsFirst(Admit(g, row, limit, collapse),
                       Asked(before + if Fits(g, row, limit, collapse) then [row] else [], collapse))
  {
    var admitted := before + if Fits(g, row, limit, collapse) then [row] else [];
    if Fits(g, row, limit, collapse) {
      assert admitted[..|admitted| - 1] == before && admitted[|admitted| - 1] == row;
      hide HoldsFirst, AddChain, Chain, StepSeq;
      ChainHoldsFirst(g, Asked(before, collapse), Chain(row, collapse));
    } else {
      assert admitted == before;
      hide Survives, Asked;
    }
  }

  /** Under any cap, exactly the edges survive that are first with their key among those of the admitted rows. */
  lemma {:induction false} BuildHoldsFirst(rows: seq<Row>, limit: int, collapse: bool)
    ensures HoldsFirst(Build(rows, limit, collapse), Asked(Admitted(rows, limit, collapse), collapse))
  {
    if rows != [] {
      var n := |rows| - 1;
      BuildHoldsFirst(rows[..n], limit, collapse);
      hide Asked, HoldsFirst, Fits, Admit;
      var g, before := Build(rows[..n], limit, collapse), Admitted(rows[..n], limit, collapse);
      AdmitHoldsFirst(g, before, rows[n], limit, collapse);
    }
  }

  // ---- The exact condition ----

  /** Some edge into the node is asked for before every other edge with its key. */
  ghost predicate HasEntry(asked: seq<Edge>, id: string) {
    exists i: nat :: FirstOfKey(asked, i) && asked[i].target == id
  }

  /**
   * For all rows and every cap: every node can be reached from a publisher exactly when each node that is
   * not one has an entry among the edges of the admitted rows.
   */
  lemma AllReachableExactly(rows: seq<Row>, limit: int, collapse: bool)
    ensures
      var g, asked := Build(rows, limit, collapse), Asked(Admitted(rows, limit, collapse), collapse);
      (forall id | id in g.nodes :: Reachable(g, id)) <==>
      (forall id | id in g.nodes && g.nodes[id] != Publisher :: HasEntry(asked, id))
  {
    var g, asked := Build(rows, limit, collapse), Asked(Admitted(rows, limit, collapse), collapse);
    BuildSound(rows, limit, collapse);
    BuildHoldsFirst(rows, limit, collapse);
    hide Build, Asked, Admitted, Sound, Reachable;
    forall id ensures Entered(g, id) <==> HasEntry(asked, id) {
      EntryIs(g, asked, id);
    }
    hide Entered, HasEntry, HoldsFirst;
    if forall id | id in g.nodes :: Reachable(g, id) {
      forall id | id in g.nodes && g.nodes[id] != Publisher ensures HasEntry(asked, id) {
        ReachableIsEntered(g, id);
      }
    }
    if forall id | id in g.nodes && g.nodes[id] != Publisher :: HasEntry(asked, id) {
      forall id | id in g.nodes ensures Reachable(g, id) {
        EnteredIsReachable(g, id);
      }
    }
  }

  lemma EntryIs(g: Graph, asked: seq<Edge>, id: string)
    requires HoldsFirst(g, asked)
    ensures Entered(g, id) <==> HasEntry(asked, id)
  {
    if Entered(g, id) {
      var e :| e in g.edges && e.target == id;
      var i: nat :| FirstOfKey(asked, i) && asked[i] == e;
    }
    if HasEntry(asked, id) {
      var i: nat :| FirstOfKey(asked, i) && asked[i].target == id;
      assert Survives(asked, asked[i]);
    }
  }

  // ---- Without a cap ----

  lemma FitsIfUntruncated(g: Graph, row: Row, limit: int, collapse: bool)
    requires Sound(g) && !Admit(g, row, limit, collapse).truncated
    ensures Fits(g, row, limit, collapse) && !g.truncated
  {
    AdmitSound(g, row, limit, collapse);
    hide AddChain, Sound, Chain, Candidates, Steps, IdSet;
  }

  lemma {:induction false} AllAdmitted(rows: seq<Row>, limit: int, collapse: bool)
    requires !Build(rows, limit, collapse).truncated
    ensures Admitted(rows, limit, collapse) == rows
  {
    hide Admit, Sound, Fits;
    if rows != [] {
      var n := |rows| - 1;
      BuildSound(rows[..n], limit, collapse);
      FitsIfUntruncated(Build(rows[..n], limit, collapse), rows[n], limit, collapse);
      AllAdmitted(rows[..n], limit, collapse);
      assert rows == rows[..n] + [rows[n]];
    }
  }

  /** Some row has a node under the id, which is not a publisher. */
  ghost predicate InSomeRow(rows: seq<Row>, collapse: bool, id: string) {
    exists row, n :: row in rows && n in Chain(row, collapse) && n.id == id && n.kind != Publisher
  }

  lemma IdOfNode(chain: seq<Node>, n: Node)
    requires n in chain
    ensures n.id in IdSet(chain)
  {
    IdSetIds(chain);
    var i :| 0 <= i < |chain| && chain[i] == n;
    assert Ids(chain)[i] == n.id;
  }

  /** The nodes that are not publishers are those of the rows. */
  lemma NodesOfRows(rows: seq<Row>, limit: int, collapse: bool, id: string)
    requires !Build(rows, limit, collapse).truncated
    ensures id in Build(rows, limit, collapse).nodes && Build(rows, limit, collapse).nodes[id] != Publisher <==>
            InSomeRow(rows, collapse, id)
  {
    var g := Build(rows, limit, collapse);
    BuildSound(rows, limit, collapse);
    BuildTraced(rows, limit, collapse);
    assert forall k | k in g.nodes :: HasKind(k, g.nodes[k]);
    hide Build, Chain, IdSet, Sound, Wanted, Prefix;
    if id in g.nodes && g.nodes[id] != Publisher {
      RowOfId(rows, collapse, id);
      var row :| row in rows && id in IdSet(Chain(row, collapse));
      NodeOfId(Chain(row, collapse), id);
      var i :| 0 <= i < |Chain(row, collapse)| && Chain(row, collapse)[i].id == id;
      ChainClimbs(row, collapse);
      KindUnique(id, g.nodes[id], Chain(row, collapse)[i].kind);
      assert Chain(row, collapse)[i] in Chain(row, collapse);
    }
    if InSomeRow(rows, collapse, id) {
      var row, n :| row in rows && n in Chain(row, collapse) && n.id == id && n.kind != Publisher;
      RowsIncluded(rows, collapse, row);
      IdOfNode(Chain(row, collapse), n);
      ChainClimbs(row, collapse);
      KindUnique(id, g.nodes[id], n.kind);
    }
  }

  /**
   * Of an untruncated graph, on the rows alone: every node can be reached exactly when each node of a row that
   * is not a publisher has an entry among the edges the rows ask for.
   */
  lemma UntruncatedReachableExactly(rows: seq<Row>, limit: int, collapse: bool)
    requires !Build(rows, limit, collapse).truncated
    ensures var g := Build(rows, limit, collapse);
      (forall id | id in g.nodes :: Reachable(g, id)) <==>
      (forall id | InSomeRow(rows, collapse, id) :: HasEntry(Asked(rows, collapse), id))
  {
    var g := Build(rows, limit, collapse);
    AllReachableExactly(rows, limit, collapse);
    AllAdmitted(rows, limit, collapse);
    hide Build, Admitted, Asked, Reachable, HasEntry, InSomeRow;
    forall id ensures id in g.nodes && g.nodes[id] != Publisher <==> InSomeRow(rows, collapse, id) {
      NodesOfRows(rows, limit, collapse, id);
    }
  }
}
