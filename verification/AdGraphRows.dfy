/**
 * What a row puts into the ad graph, said field by field: which nodes under which ids, and which of them are
 * linked.
 */
module AdGraphRows {
  import opened Base
  import opened AdGraph
  import opened AdGraphEntries

  /** The layers from the publisher up. */
  const KINDS := [Publisher, Page, Slot, Advertiser, Campaign, Creative, Brand]

  predicate Given(o: Option<string>, prefix: string, id: string) {
    o.Some? && o.value != "" && id == prefix + o.value
  }

  /** The row has a field of this kind, and this is the id of its node. */
  predicate Field(row: Row, collapse: bool, kind: Kind, id: string) {
    match kind
    case Publisher => id == "publisher:" + row.publisherDomain
    case Page => !collapse && id == "page:" + row.publisherDomain + " " + row.pageUrl
    case Slot => !collapse && id == "slot:" + row.observationId
    case Advertiser => Given(row.advertiserId, "advertiser:", id)
    case Campaign => Given(row.campaignId, "campaign:", id)
    case Creative => Given(row.creativeHash, "creative:", id)
    case Brand => Given(row.brandId, "brand:", id) && row.creativeHash.Some? && row.creativeHash.value != ""
  }

  /** The ids counted against the cap: a brand counts even without a creative. */
  ghost predicate Counted(row: Row, collapse: bool, id: string) {
    (exists kind :: Field(row, collapse, kind, id)) || Given(row.brandId, "brand:", id)
  }

  lemma AppendHas(chain: seq<Node>, kind: Kind, o: Option<string>, n: Node)
    ensures n in Append(chain, kind, o) <==> n in chain || (n.kind == kind && Given(o, Prefix(kind), n.id))
  {
    if Truthy(o) {
      assert Append(chain, kind, o)[|chain|] == Made(kind, o.value);
    }
  }

  lemma StemHas(row: Row, collapse: bool, n: Node)
    ensures n in Stem(row, collapse) <==>
            (n.kind.Publisher? || n.kind.Page? || n.kind.Slot?) && Field(row, collapse, n.kind, n.id)
  {
    assert "page:" + (row.publisherDomain + " " + row.pageUrl) == "page:" + row.publisherDomain + " " + row.pageUrl;
  }

  /** The chain of a row is made of its fields, all of them and nothing else; likewise the counted nodes. */
  lemma ChainIsFields(row: Row, collapse: bool, n: Node)
    ensures n in Chain(row, collapse) <==> Field(row, collapse, n.kind, n.id)
    ensures n in Candidates(row, collapse) <==>
            Field(row, collapse, n.kind, n.id) || (n.kind == Brand && Given(row.brandId, "brand:", n.id))
  {
    var stem := Stem(row, collapse);
    var a := Append(stem, Advertiser, row.advertiserId);
    var c := Append(a, Campaign, row.campaignId);
    StemHas(row, collapse, n);
    AppendHas(stem, Advertiser, row.advertiserId, n);
    AppendHas(a, Campaign, row.campaignId, n);
    AppendHas(c, Creative, row.creativeHash, n);
    AppendHas(Body(row, collapse), Brand, row.brandId, n);
    hide Append, Stem;
  }

  lemma IdInChain(chain: seq<Node>, id: string)
    ensures id in IdSet(chain) <==> exists n :: n in chain && n.id == id
  {
    if id in IdSet(chain) {
      NodeOfId(chain, id);
      var i :| 0 <= i < |chain| && chain[i].id == id;
      assert chain[i] in chain;
    }
    if n :| n in chain && n.id == id {
      IdOfNode(chain, n);
    }
  }

  // ---- What is in the graph ----

  /** The graph holds exactly the chains of the rows, up to shared keys. */
  ghost predicate Holds(g: Graph, rows: seq<Row>, collapse: bool) {
    && g.nodes.Keys == AllIds(rows, collapse)
    && (forall e | e in g.edges :: e in Wanted(rows, collapse))
    && (forall e | e in Wanted(rows, collapse) :: Key(e) in g.keys)
  }

  lemma HoldsMore(g: Graph, h: Graph, rows: seq<Row>, row: Row, collapse: bool)
    requires Holds(g, rows, collapse) && Grown(g, h, Chain(row, collapse))
    ensures Holds(h, rows + [row], collapse)
  {
    assert (rows + [row])[..|rows|] == rows;
    hide Chain, IdSet, Steps, Key;
  }

  lemma AdmitHolds(g: Graph, rows: seq<Row>, row: Row, limit: int, collapse: bool)
    requires Sound(g) && Holds(g, rows, collapse)
    ensures Holds(Admit(g, row, limit, collapse), rows + if Fits(g, row, limit, collapse) then [row] else [], collapse)
  {
    ChainClimbs(row, collapse);
    hide Chain, Candidates, AddChain, Climbs, Sound;
    if Fits(g, row, limit, collapse) {
      AddChainSound(g, Chain(row, collapse));
      hide Holds, Grown;
      HoldsMore(g, AddChain(g, Chain(row, collapse)), rows, row, collapse);
    } else {
      assert rows + [] == rows;
    }
  }

  lemma {:induction false} BuildHolds(rows: seq<Row>, limit: int, collapse: bool)
    ensures Holds(Build(rows, limit, collapse), Admitted(rows, limit, collapse), collapse)
  {
    if rows != [] {
      var n := |rows| - 1;
      BuildHolds(rows[..n], limit, collapse);
      BuildSound(rows[..n], limit, collapse);
      hide Holds, Sound, Fits, Admit;
      var g, before := Build(rows[..n], limit, collapse), Admitted(rows[..n], limit, collapse);
      AdmitHolds(g, before, rows[n], limit, collapse);
    }
  }

  /**
   * For all rows and every cap: the nodes are exactly the fields of the rows let in, each under its own id and
   * kind.
   */
  lemma NodesAreFields(rows: seq<Row>, limit: int, collapse: bool, id: string, kind: Kind)
    ensures var g := Build(rows, limit, collapse);
      id in g.nodes && g.nodes[id] == kind <==>
        exists row :: row in Admitted(rows, limit, collapse) && Field(row, collapse, kind, id)
  {
    var g, admitted := Build(rows, limit, collapse), Admitted(rows, limit, collapse);
    BuildHolds(rows, limit, collapse);
    BuildSound(rows, limit, collapse);
    assert forall k | k in g.nodes :: HasKind(k, g.nodes[k]);
    hide Build, Admitted, Chain, IdSet, Sound, Field, Wanted, HasKind;
    if id in g.nodes && g.nodes[id] == kind {
      RowOfId(admitted, collapse, id);
      var row :| row in admitted && id in IdSet(Chain(row, collapse));
      IdInChain(Chain(row, collapse), id);
      var n :| n in Chain(row, collapse) && n.id == id;
      ChainIsFields(row, collapse, n);
      NodeKind(row, collapse, n);
      KindUnique(id, kind, n.kind);
    }
    if row :| row in admitted && Field(row, collapse, kind, id) {
      var n := Node(id, kind);
      ChainIsFields(row, collapse, n);
      RowsIncluded(admitted, collapse, row);
      IdOfNode(Chain(row, collapse), n);
      NodeKind(row, collapse, n);
      KindUnique(id, kind, g.nodes[id]);
    }
  }

  lemma NodeKind(row: Row, collapse: bool, n: Node)
    requires n in Chain(row, collapse)
    ensures HasKind(n.id, n.kind)
  {
    ChainClimbs(row, collapse);
    hide Chain, HasKind;
  }

  // ---- Which fields are linked ----

  /** The two are fields of the row, and it has none between them. */
  ghost predicate Neighbours(row: Row, collapse: bool, i: nat, j: nat, e: Edge) {
    && i < j < |KINDS|
    && Field(row, collapse, KINDS[i], e.source) && Field(row, collapse, KINDS[j], e.target)
    && forall m, id | i < m < j :: !Field(row, collapse, KINDS[m], id)
  }

  ghost predicate Linking(row: Row, collapse: bool, e: Edge) {
    exists i: nat, j: nat :: Neighbours(row, collapse, i, j, e)
  }

  lemma KindsInOrder(k: Kind)
    ensures Layer(k) < |KINDS| && KINDS[Layer(k)] == k
  {
  }

  /** The edges a row asks for link exactly its neighbouring fields, upwards. */
  lemma StepsAreNeighbours(row: Row, collapse: bool, e: Edge)
    ensures e in Steps(Chain(row, collapse)) <==> Linking(row, collapse, e)
  {
    var chain := Chain(row, collapse);
    ChainClimbs(row, collapse);
    StepsAre(chain);
    hide Chain, Steps, Field;
    if e in Steps(chain) {
      var i :| 0 <= i < |chain| - 1 && Step(chain, i) == e;
      StepLinks(row, collapse, i);
    }
    if Linking(row, collapse, e) {
      var i: nat, j: nat :| Neighbours(row, collapse, i, j, e);
      NeighboursStep(row, collapse, i, j, e);
    }
  }

  lemma StepLinks(row: Row, collapse: bool, i: nat)
    requires i + 1 < |Chain(row, collapse)| && Climbs(Chain(row, collapse))
    ensures Linking(row, collapse, Step(Chain(row, collapse), i))
  {
    var chain := Chain(row, collapse);
    var a, b := chain[i], chain[i + 1];
    KindsInOrder(a.kind);
    KindsInOrder(b.kind);
    ChainIsFields(row, collapse, a);
    ChainIsFields(row, collapse, b);
    assert Layer(a.kind) < Layer(chain[i + 1].kind);
    hide Chain, Field, Prefix, Layer, KINDS;
    forall m, id | Layer(a.kind) < m < Layer(b.kind) ensures !Field(row, collapse, KINDS[m], id) {
      if Field(row, collapse, KINDS[m], id) {
        ChainIsFields(row, collapse, Node(id, KINDS[m]));
        KindAt(m);
        NothingBetween(chain, i, Node(id, KINDS[m]));
      }
    }
    assert Neighbours(row, collapse, Layer(a.kind), Layer(b.kind), Step(chain, i));
  }

  lemma KindAt(m: nat)
    requires m < |KINDS|
    ensures Layer(KINDS[m]) == m
  {
  }

  lemma NothingBetween(chain: seq<Node>, i: nat, n: Node)
    requires Climbs(chain) && i + 1 < |chain| && n in chain
    ensures !(Layer(chain[i].kind) < Layer(n.kind) < Layer(chain[i + 1].kind))
  {
    var k :| 0 <= k < |chain| && chain[k] == n;
    if k < i {
      Climbing(chain, k, i);
    } else if k > i + 1 {
      Climbing(chain, i + 1, k);
    }
  }

  lemma NeighboursStep(row: Row, collapse: bool, i: nat, j: nat, e: Edge)
    requires Neighbours(row, collapse, i, j, e) && Climbs(Chain(row, collapse))
    ensures e in Steps(Chain(row, collapse))
  {
    var chain := Chain(row, collapse);
    var a, b := Node(e.source, KINDS[i]), Node(e.target, KINDS[j]);
    ChainIsFields(row, collapse, a);
    ChainIsFields(row, collapse, b);
    KindAt(i);
    KindAt(j);
    StepsAre(chain);
    hide Chain, Field, Steps, KINDS, Prefix;
    var x :| 0 <= x < |chain| && chain[x] == a;
    var y :| 0 <= y < |chain| && chain[y] == b;
    if y < x {
      Climbing(chain, y, x);
    }
    if x + 1 < y {
      var n := chain[x + 1];
      Climbing(chain, x, x + 1);
      Climbing(chain, x + 1, y);
      ChainIsFields(row, collapse, n);
      KindsInOrder(n.kind);
      assert false;
    }
    assert Step(chain, x) == e;
  }

  /**
   * For all rows and every cap: an edge of the graph links neighbouring fields of a row let in, and of any two
   * neighbouring fields of such a row an edge with their key is there.
   */
  lemma EdgesLinkNeighbours(rows: seq<Row>, limit: int, collapse: bool, e: Edge)
    ensures var g, admitted := Build(rows, limit, collapse), Admitted(rows, limit, collapse);
      && (e in g.edges ==> exists row :: row in admitted && Linking(row, collapse, e))
      && ((exists row :: row in admitted && Linking(row, collapse, e)) ==> exists f :: f in g.edges && Key(f) == Key(e))
  {
    var g, admitted := Build(rows, limit, collapse), Admitted(rows, limit, collapse);
    BuildHolds(rows, limit, collapse);
    BuildSound(rows, limit, collapse);
    hide Build, Admitted, Chain, Steps, Linking, Key, Wanted, AllIds;
    if e in g.edges {
      WantedBy(admitted, collapse, e);
      var row :| row in admitted && e in Steps(Chain(row, collapse));
      StepsAreNeighbours(row, collapse, e);
    }
    if row :| row in admitted && Linking(row, collapse, e) {
      StepsAreNeighbours(row, collapse, e);
      RowsIncluded(admitted, collapse, row);
      assert Key(e) in g.keys;
    }
  }

  // ---- Which rows are let in ----

  /** A row is let in exactly when the nodes already there and the ids it counts fit under the cap together. */
  lemma FitsExactly(g: Graph, row: Row, limit: int, collapse: bool, ids: set<string>)
    requires forall id :: id in ids <==> Counted(row, collapse, id)
    ensures Fits(g, row, limit, collapse) <==> |g.nodes.Keys + ids| <= limit
  {
    var candidates := Candidates(row, collapse);
    ChainClimbs(row, collapse);
    ClimbingIds(candidates);
    NewCountExact(candidates, g.nodes);
    hide Candidates, Climbs, NoIdTwice, NewCount, Field, IdSet;
    forall id ensures id in IdSet(candidates) <==> id in ids {
      CountedIsCandidate(row, collapse, id);
    }
    assert IdSet(candidates) == ids;
  }

  lemma CountedIsCandidate(row: Row, collapse: bool, id: string)
    ensures id in IdSet(Candidates(row, collapse)) <==> Counted(row, collapse, id)
  {
    IdInChain(Candidates(row, collapse), id);
    hide Candidates, IdSet, Field;
    if n :| n in Candidates(row, collapse) && n.id == id {
      ChainIsFields(row, collapse, n);
    }
    if kind :| Field(row, collapse, kind, id) {
      ChainIsFields(row, collapse, Node(id, kind));
    }
    if Given(row.brandId, "brand:", id) {
      ChainIsFields(row, collapse, Node(id, Brand));
    }
  }

  /** Without a cap that bites, every row is there whole. */
  lemma EveryRowIsThere(rows: seq<Row>, limit: int, collapse: bool, row: Row, kind: Kind, id: string)
    requires !Build(rows, limit, collapse).truncated && row in rows && Field(row, collapse, kind, id)
    ensures id in Build(rows, limit, collapse).nodes && Build(rows, limit, collapse).nodes[id] == kind
  {
    AllAdmitted(rows, limit, collapse);
    hide Build, Admitted, Field;
    NodesAreFields(rows, limit, collapse, id, kind);
  }

  lemma AddChainKeepsMark(g: Graph, chain: seq<Node>)
    requires Sound(g) && Climbs(chain)
    ensures AddChain(g, chain).truncated == g.truncated
  {
    AddChainSound(g, chain);
    hide AddChain, Sound, Climbs, Steps, IdSet;
  }

  /** The graph is marked truncated exactly when some row was not let in. */
  lemma {:induction false} TruncatedExactly(rows: seq<Row>, limit: int, collapse: bool)
    ensures Build(rows, limit, collapse).truncated <==> |Admitted(rows, limit, collapse)| < |rows|
    ensures |Admitted(rows, limit, collapse)| <= |rows|
  {
    if rows != [] {
      var n := |rows| - 1;
      TruncatedExactly(rows[..n], limit, collapse);
      BuildSound(rows[..n], limit, collapse);
      ChainClimbs(rows[n], collapse);
      AddChainKeepsMark(Build(rows[..n], limit, collapse), Chain(rows[n], collapse));
      hide Sound, Climbs, Chain, Candidates, AddChain;
    }
  }
}
