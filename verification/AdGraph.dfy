/**
 * The capped, layered ad graph of kits/adint/src/domain/ad-graph.ts: nodes under string ids, edges
 * deduplicated by the string `source target`, built row by row under a node cap.
 */
module AdGraph {
  import opened Base

  datatype Kind = Publisher | Page | Slot | Advertiser | Campaign | Creative | Brand

  function Layer(kind: Kind): nat {
    match kind
    case Publisher => 0
    case Page => 1
    case Slot => 2
    case Advertiser => 3
    case Campaign => 4
    case Creative => 5
    case Brand => 6
  }

  function Prefix(kind: Kind): string {
    match kind
    case Publisher => "publisher:"
    case Page => "page:"
    case Slot => "slot:"
    case Advertiser => "advertiser:"
    case Campaign => "campaign:"
    case Creative => "creative:"
    case Brand => "brand:"
  }

  datatype Row = Row(publisherDomain: string, isStroeer: bool, pageUrl: string, observationId: string, isEmpty: bool,
                     advertiserId: Option<string>, campaignId: Option<string>,
                     creativeHash: Option<string>, brandId: Option<string>)

  datatype Node = Node(id: string, kind: Kind)

  datatype Edge = Edge(source: string, target: string)

  datatype Graph = Graph(nodes: map<string, Kind>, edges: seq<Edge>, keys: set<string>, truncated: bool)

  const EMPTY := Graph(map[], [], {}, false)

  function Made(kind: Kind, text: string): Node {
    Node(Prefix(kind) + text, kind)
  }

  /** Null and the empty string are both falsy. */
  predicate Truthy(o: Option<string>) {
    o.Some? && o.value != ""
  }

  function Append(chain: seq<Node>, kind: Kind, o: Option<string>): seq<Node> {
    if Truthy(o) then chain + [Made(kind, o.value)] else chain
  }

  /** The nodes of a row from publisher to slot; pages and slots may be collapsed. */
  function Stem(row: Row, collapse: bool): seq<Node> {
    var p := [Made(Publisher, row.publisherDomain)];
    if collapse then p
    else p + [Made(Page, row.publisherDomain + " " + row.pageUrl)] + [Made(Slot, row.observationId)]
  }

  function Body(row: Row, collapse: bool): seq<Node> {
    Append(Append(Append(Stem(row, collapse), Advertiser, row.advertiserId), Campaign, row.campaignId), Creative,
        row.creativeHash)
  }

  /** The nodes of a row from publisher to brand; a brand needs a creative. */
  function Chain(row: Row, collapse: bool): seq<Node> {
    if Truthy(row.creativeHash) then Append(Body(row, collapse), Brand, row.brandId) else Body(row, collapse)
  }

  function Ids(chain: seq<Node>): (ids: seq<string>)
    ensures |ids| == |chain| && forall i | 0 <= i < |chain| :: ids[i] == chain[i].id
  {
    if chain == [] then [] else Ids(chain[..|chain| - 1]) + [chain[|chain| - 1].id]
  }

  /** The nodes counted against the cap: a brand counts even without a creative. */
  function Candidates(row: Row, collapse: bool): seq<Node> {
    Append(Body(row, collapse), Brand, row.brandId)
  }

  function NewCount(candidates: seq<Node>, nodes: map<string, Kind>): nat {
    if candidates == [] then 0
    else
      var n := |candidates| - 1;
      NewCount(candidates[..n], nodes) + if candidates[n].id in nodes then 0 else 1
  }

  function Key(e: Edge): string {
    e.source + " " + e.target
  }

  function Put(g: Graph, n: Node): Graph {
    if n.id in g.nodes then g else g.(nodes := g.nodes[n.id := n.kind])
  }

  function Link(g: Graph, e: Edge): Graph {
    if Key(e) in g.keys then g else g.(keys := g.keys + {Key(e)}, edges := g.edges + [e])
  }

  /** Put the last node of a chain and link it to the one before. */
  function AddLast(g: Graph, chain: seq<Node>): Graph
    requires chain != []
  {
    var n := |chain| - 1;
    if n == 0 then Put(g, chain[n]) else Link(Put(g, chain[n]), Edge(chain[n - 1].id, chain[n].id))
  }

  function AddChain(g: Graph, chain: seq<Node>): Graph {
    if chain == [] then g else AddLast(AddChain(g, chain[..|chain| - 1]), chain)
  }

  function Admit(g: Graph, row: Row, limit: int, collapse: bool): Graph {
    if |g.nodes| + NewCount(Candidates(row, collapse), g.nodes) > limit then g.(truncated := true)
    else AddChain(g, Chain(row, collapse))
  }

  function Build(rows: seq<Row>, limit: int, collapse: bool): Graph {
    if rows == [] then EMPTY
    else Admit(Build(rows[..|rows| - 1], limit, collapse), rows[|rows| - 1], limit, collapse)
  }

  // ---- Ids, layers and chains ----

  predicate HasKind(id: string, kind: Kind) {
    Prefix(kind) <= id
  }

  lemma KindUnique(id: string, j: Kind, k: Kind)
    requires HasKind(id, j) && HasKind(id, k)
    ensures j == k
  {
    assert id[0] == Prefix(j)[0] == Prefix(k)[0];
    assert id[1] == Prefix(j)[1] == Prefix(k)[1];
  }

  /** A chain starts at a publisher and climbs strictly through the layers. */
  predicate Climbs(chain: seq<Node>) {
    && chain != [] && chain[0].kind == Publisher
    && (forall i | 0 <= i < |chain| :: HasKind(chain[i].id, chain[i].kind))
    && (forall i | 0 <= i < |chain| - 1 :: Layer(chain[i].kind) < Layer(chain[i + 1].kind))
  }

  lemma AppendClimbs(chain: seq<Node>, kind: Kind, o: Option<string>)
    requires Climbs(chain) && Layer(chain[|chain| - 1].kind) < Layer(kind)
    ensures Climbs(Append(chain, kind, o))
    ensures var a := Append(chain, kind, o); Layer(a[|a| - 1].kind) <= Layer(kind)
  {
    hide Prefix, Layer;
  }

  lemma BodyClimbs(row: Row, collapse: bool)
    ensures var body := Body(row, collapse); Climbs(body) && Layer(body[|body| - 1].kind) <= 5
  {
    hide Prefix, Append;
    var s := Stem(row, collapse);
    assert Climbs(s) && Layer(s[|s| - 1].kind) <= 2;
    hide Climbs, Stem;
    AppendClimbs(s, Advertiser, row.advertiserId);
    var a := Append(s, Advertiser, row.advertiserId);
    AppendClimbs(a, Campaign, row.campaignId);
    AppendClimbs(Append(a, Campaign, row.campaignId), Creative, row.creativeHash);
  }

  lemma ChainClimbs(row: Row, collapse: bool)
    ensures Climbs(Chain(row, collapse)) && Climbs(Candidates(row, collapse))
  {
    BodyClimbs(row, collapse);
    hide Climbs, Body, Append;
    AppendClimbs(Body(row, collapse), Brand, row.brandId);
  }

  // ---- What holds for every input ----

  ghost predicate Linked(g: Graph, e: Edge) {
    e.source in g.nodes && e.target in g.nodes && Layer(g.nodes[e.source]) < Layer(g.nodes[e.target])
  }

  /** No duplicate edges, every edge between two present nodes and strictly upwards, kinds as the ids say. */
  ghost predicate Sound(g: Graph) {
    && (forall i, j | 0 <= i < j < |g.edges| :: Key(g.edges[i]) != Key(g.edges[j]))
    && (forall e | e in g.edges :: Linked(g, e))
    && (forall id | id in g.nodes :: HasKind(id, g.nodes[id]))
    && (forall k | k in g.keys :: exists e :: e in g.edges && Key(e) == k)
    && (forall e | e in g.edges :: Key(e) in g.keys)
  }

  lemma PutSound(g: Graph, n: Node)
    requires Sound(g) && HasKind(n.id, n.kind)
    ensures Sound(Put(g, n)) && n.id in Put(g, n).nodes && Put(g, n).nodes[n.id] == n.kind
    ensures Put(g, n).nodes.Keys == g.nodes.Keys + {n.id} && Put(g, n) == g.(nodes := Put(g, n).nodes)
    ensures forall id | id in g.nodes :: Put(g, n).nodes[id] == g.nodes[id]
  {
    if n.id in g.nodes {
      KindUnique(n.id, n.kind, g.nodes[n.id]);
    }
    forall e | e in g.edges ensures Linked(Put(g, n), e) {
      assert Linked(g, e);
    }
  }

  lemma LinkSound(g: Graph, e: Edge)
    requires Sound(g) && Linked(g, e)
    ensures Sound(Link(g, e)) && Link(g, e).nodes == g.nodes
    ensures forall f | f in g.edges :: f in Link(g, e).edges
    ensures forall f | f in Link(g, e).edges :: f in g.edges || f == e
    ensures Key(e) in Link(g, e).keys && g.keys <= Link(g, e).keys && Link(g, e).truncated == g.truncated
  {
    var h := Link(g, e);
    forall f | f in h.edges ensures Linked(h, f) {
      assert f in g.edges ==> Linked(g, f);
    }
    hide Linked, HasKind;
    if Key(e) !in g.keys {
      assert e in h.edges;
      forall k | k in h.keys ensures exists f :: f in h.edges && Key(f) == k {
        if k != Key(e) {
          var f :| f in g.edges && Key(f) == k;
          assert f in h.edges;
        }
      }
    }
  }

  function Step(chain: seq<Node>, i: nat): Edge
    requires i + 1 < |chain|
  {
    Edge(chain[i].id, chain[i + 1].id)
  }

  /** The edges a chain asks for. */
  function Steps(chain: seq<Node>): set<Edge> {
    var n := |chain| - 1;
    if n <= 0 then {} else Steps(chain[..n]) + {Step(chain, n - 1)}
  }

  function IdSet(chain: seq<Node>): set<string> {
    if chain == [] then {} else IdSet(chain[..|chain| - 1]) + {chain[|chain| - 1].id}
  }

  /** Nothing is lost or changed; the new ids and edges are the chain's, and every edge asked for has its key. */
  ghost predicate Grown(g: Graph, h: Graph, chain: seq<Node>) {
    && (forall id | id in g.nodes :: id in h.nodes && h.nodes[id] == g.nodes[id])
    && h.nodes.Keys == g.nodes.Keys + IdSet(chain)
    && (forall e | e in g.edges :: e in h.edges)
    && (forall e | e in h.edges :: e in g.edges || e in Steps(chain))
    && (forall e | e in Steps(chain) :: Key(e) in h.keys)
    && g.keys <= h.keys
    && h.truncated == g.truncated
  }

  lemma ClimbsInit(chain: seq<Node>)
    requires Climbs(chain)
    ensures |chain| > 1 ==> Climbs(chain[..|chain| - 1])
    ensures |chain| > 1 ==> Layer(chain[|chain| - 2].kind) < Layer(chain[|chain| - 1].kind)
    ensures HasKind(chain[|chain| - 1].id, chain[|chain| - 1].kind)
  {
  }

  lemma GrowLast(g: Graph, h: Graph, chain: seq<Node>)
    requires chain != [] && Grown(g, h, chain[..|chain| - 1])
    requires |chain| > 1 ==> chain[|chain| - 2].id in h.nodes
    ensures Grown(g, AddLast(h, chain), chain)
  {
    var n := |chain| - 1;
    var put, after := Put(h, chain[n]), AddLast(h, chain);
    assert after.nodes == put.nodes && put.nodes.Keys == h.nodes.Keys + {chain[n].id};
    assert forall e | e in h.edges :: e in after.edges;
    assert h.keys <= after.keys;
    if n > 0 {
      assert Key(Step(chain, n - 1)) in after.keys;
    }
  }

  lemma LastSound(h: Graph, chain: seq<Node>)
    requires Sound(h) && chain != []
    requires var n := chain[|chain| - 1]; HasKind(n.id, n.kind)
    requires |chain| > 1 ==>
               var p := chain[|chain| - 2];
                   p.id in h.nodes && h.nodes[p.id] == p.kind
                   && Layer(p.kind) < Layer(chain[|chain| - 1].kind)
    ensures Sound(AddLast(h, chain))
    ensures var n := chain[|chain| - 1]; n.id in AddLast(h, chain).nodes && AddLast(h, chain).nodes[n.id] == n.kind
  {
    var n := |chain| - 1;
    PutSound(h, chain[n]);
    if n > 0 {
      LinkSound(Put(h, chain[n]), Step(chain, n - 1));
    }
  }

  lemma {:induction false} AddChainSound(g: Graph, chain: seq<Node>)
    requires Sound(g) && (chain == [] || Climbs(chain))
    ensures Sound(AddChain(g, chain)) && Grown(g, AddChain(g, chain), chain)
    ensures chain != [] ==>
              var h, n := AddChain(g, chain), chain[|chain| - 1]; n.id in h.nodes && h.nodes[n.id] == n.kind
  {
    if chain != [] {
      var n := |chain| - 1;
      ClimbsInit(chain);
      hide Climbs;
      AddChainSound(g, chain[..n]);
      var h := AddChain(g, chain[..n]);
      hide Sound, Grown, AddLast;
      LastSound(h, chain);
      GrowLast(g, h, chain);
    } else {
      assert g.nodes.Keys == g.nodes.Keys + IdSet(chain);
    }
  }

  // ---- The cap ----

  lemma {:induction false} SubsetSize(a: set<string>, b: set<string>)
    requires a <= b
    ensures |a| <= |b|
  {
    if a != {} {
      var x :| x in a;
      SubsetSize(a - {x}, b - {x});
    }
  }

  /** Different layers, different ids: the last id of a climbing chain is new to it. */
  lemma LastIsNew(chain: seq<Node>)
    requires Climbs(chain)
    ensures chain[|chain| - 1].id !in IdSet(chain[..|chain| - 1])
  {
    var last := chain[|chain| - 1];
    if last.id in IdSet(chain[..|chain| - 1]) {
      NodeOfId(chain[..|chain| - 1], last.id);
      var i :| 0 <= i < |chain| - 1 && chain[i].id == last.id;
      KindUnique(last.id, last.kind, chain[i].kind);
      Climbing(chain, i, |chain| - 1);
      assert false;
    }
  }

  lemma {:induction false} Climbing(chain: seq<Node>, i: nat, j: nat)
    requires Climbs(chain) && i < j < |chain|
    ensures Layer(chain[i].kind) < Layer(chain[j].kind)
  {
    assert Layer(chain[j - 1].kind) < Layer(chain[j - 1 + 1].kind);
    if i < j - 1 {
      Climbing(chain, i, j - 1);
    }
  }

  lemma {:induction false} NodeOfId(chain: seq<Node>, id: string)
    requires id in IdSet(chain)
    ensures exists i :: 0 <= i < |chain| && chain[i].id == id
  {
    var n := |chain| - 1;
    if chain[n].id != id {
      NodeOfId(chain[..n], id);
      var i :| 0 <= i < n && chain[..n][i].id == id;
      assert chain[i].id == id;
    }
  }

  predicate NoIdTwice(chain: seq<Node>) {
    chain == [] || (chain[|chain| - 1].id !in IdSet(chain[..|chain| - 1]) && NoIdTwice(chain[..|chain| - 1]))
  }

  lemma {:induction false} ClimbingIds(chain: seq<Node>)
    requires Climbs(chain)
    ensures NoIdTwice(chain)
  {
    LastIsNew(chain);
    ClimbsInit(chain);
    hide Climbs;
    if |chain| > 1 {
      ClimbingIds(chain[..|chain| - 1]);
    }
  }

  lemma CountStep(present: set<string>, front: set<string>, id: string)
    requires id !in front
    ensures |present + (front + {id})| == |present + front| + if id in present then 0 else 1
  {
    assert present + (front + {id}) == (present + front) + {id};
    assert id in present ==> (present + front) + {id} == present + front;
  }

  /** The count taken before a row is exactly how many nodes it would add. */
  lemma {:induction false} NewCountExact(candidates: seq<Node>, nodes: map<string, Kind>)
    requires NoIdTwice(candidates)
    ensures |nodes.Keys + IdSet(candidates)| == |nodes.Keys| + NewCount(candidates, nodes)
  {
    if candidates == [] {
      assert nodes.Keys + {} == nodes.Keys;
    } else {
      var n := |candidates| - 1;
      NewCountExact(candidates[..n], nodes);
      CountStep(nodes.Keys, IdSet(candidates[..n]), candidates[n].id);
    }
  }

  lemma ChainCounted(row: Row, collapse: bool)
    ensures IdSet(Chain(row, collapse)) <= IdSet(Candidates(row, collapse))
  {
    var body, candidates := Body(row, collapse), Candidates(row, collapse);
    hide Body;
    if candidates != body {
      assert candidates[..|candidates| - 1] == body;
    }
  }

  /** A row is skipped exactly when its counted nodes do not fit under the cap with those already there. */
  lemma SkippedExactly(g: Graph, row: Row, limit: int, collapse: bool)
    ensures Admit(g, row, limit, collapse) ==
            if |g.nodes.Keys + IdSet(Candidates(row, collapse))| > limit then g.(truncated := true)
            else AddChain(g, Chain(row, collapse))
  {
    ChainClimbs(row, collapse);
    ClimbingIds(Candidates(row, collapse));
    NewCountExact(Candidates(row, collapse), g.nodes);
  }

  lemma FitsUnderCap(g: Graph, h: Graph, row: Row, limit: int, collapse: bool)
    requires Grown(g, h, Chain(row, collapse)) && |g.nodes.Keys + IdSet(Candidates(row, collapse))| <= limit
    ensures |h.nodes| <= limit
  {
    ChainCounted(row, collapse);
    hide Chain, Candidates, IdSet;
    SubsetSize(h.nodes.Keys, g.nodes.Keys + IdSet(Candidates(row, collapse)));
  }

  /** What admitting one row does: nothing but the mark, or its whole chain within the cap. */
  lemma AdmitSound(g: Graph, row: Row, limit: int, collapse: bool)
    requires Sound(g)
    ensures var h := Admit(g, row, limit, collapse);
      && Sound(h)
      && (h == g.(truncated := true) || (Grown(g, h, Chain(row, collapse)) && |h.nodes| <= limit))
  {
    SkippedExactly(g, row, limit, collapse);
    ChainClimbs(row, collapse);
    hide Chain, Candidates, Climbs, Admit, IdSet, AddChain;
    if |g.nodes.Keys + IdSet(Candidates(row, collapse))| <= limit {
      AddChainSound(g, Chain(row, collapse));
      hide Sound, Grown;
      FitsUnderCap(g, Admit(g, row, limit, collapse), row, limit, collapse);
    }
  }

  /** For any rows and any cap: at most `limit` nodes, and a sound graph. */
  lemma {:induction false} BuildSound(rows: seq<Row>, limit: int, collapse: bool)
    ensures Sound(Build(rows, limit, collapse))
    ensures |Build(rows, limit, collapse).nodes| <= if limit < 0 then 0 else limit
  {
    if rows != [] {
      var n := |rows| - 1;
      BuildSound(rows[..n], limit, collapse);
      hide Sound, Admit, Grown;
      AdmitSound(Build(rows[..n], limit, collapse), rows[n], limit, collapse);
    }
  }

  // ---- Paths ----

  /** Every edge some row asks for. */
  function Wanted(rows: seq<Row>, collapse: bool): set<Edge> {
    if rows == [] then {} else Wanted(rows[..|rows| - 1], collapse) + Steps(Chain(rows[|rows| - 1], collapse))
  }

  ghost predicate DistinctKeys(wanted: set<Edge>) {
    forall e, f | e in wanted && f in wanted && Key(e) == Key(f) :: e == f
  }

  /** No two different edges of the rows share a deduplication key. */
  ghost predicate NoCollisions(rows: seq<Row>, collapse: bool) {
    DistinctKeys(Wanted(rows, collapse))
  }

  ghost predicate Path(g: Graph, ids: seq<string>) {
    && ids != [] && (forall i | 0 <= i < |ids| :: ids[i] in g.nodes)
    && (forall i | 0 <= i < |ids| - 1 :: Edge(ids[i], ids[i + 1]) in g.edges)
  }

  ghost predicate Reachable(g: Graph, id: string) {
    exists ids :: Path(g, ids) && g.nodes[ids[0]] == Publisher && ids[|ids| - 1] == id
  }

  lemma {:induction false} StepsAre(chain: seq<Node>)
    ensures forall i | 0 <= i < |chain| - 1 :: Step(chain, i) in Steps(chain)
    ensures forall e | e in Steps(chain) :: exists i :: 0 <= i < |chain| - 1 && Step(chain, i) == e
  {
    var n := |chain| - 1;
    if n > 0 {
      StepsAre(chain[..n]);
      assert forall i | 0 <= i < n - 1 :: Step(chain[..n], i) == Step(chain, i);
    }
  }

  lemma {:induction false} IdSetIds(chain: seq<Node>)
    ensures IdSet(chain) == set id | id in Ids(chain)
  {
    if chain != [] {
      IdSetIds(chain[..|chain| - 1]);
    }
  }

  /** A chain is a path when its nodes and its edges are there. */
  lemma ChainPath(g: Graph, chain: seq<Node>)
    requires chain != []
    ensures Path(g, Ids(chain)) <==> IdSet(chain) <= g.nodes.Keys && Steps(chain) <= (set e | e in g.edges)
  {
    IdSetIds(chain);
    StepsAre(chain);
    assert forall i | 0 <= i < |chain| - 1 :: Step(chain, i) == Edge(Ids(chain)[i], Ids(chain)[i + 1]);
    if Path(g, Ids(chain)) {
      forall e | e in Steps(chain) ensures e in g.edges {
        var i :| 0 <= i < |chain| - 1 && Step(chain, i) == e;
      }
    }
  }

  function AllIds(rows: seq<Row>, collapse: bool): set<string> {
    if rows == [] then {} else AllIds(rows[..|rows| - 1], collapse) + IdSet(Chain(rows[|rows| - 1], collapse))
  }

  /** Only nodes and edges some row asked for; untruncated, all the nodes and a key for every edge. */
  ghost predicate Traced(g: Graph, ids: set<string>, wanted: set<Edge>) {
    && g.nodes.Keys <= ids
    && (forall e | e in g.edges :: e in wanted)
    && (!g.truncated ==> ids <= g.nodes.Keys && forall e | e in wanted :: Key(e) in g.keys)
  }

  lemma TraceOne(g: Graph, h: Graph, chain: seq<Node>, ids: set<string>, wanted: set<Edge>)
    requires Traced(g, ids, wanted) && (h == g.(truncated := true) || Grown(g, h, chain))
    ensures Traced(h, ids + IdSet(chain), wanted + Steps(chain))
  {
  }

  lemma {:induction false} BuildTraced(rows: seq<Row>, limit: int, collapse: bool)
    ensures Traced(Build(rows, limit, collapse), AllIds(rows, collapse), Wanted(rows, collapse))
  {
    if rows != [] {
      var n := |rows| - 1;
      BuildTraced(rows[..n], limit, collapse);
      BuildSound(rows[..n], limit, collapse);
      var before := Build(rows[..n], limit, collapse);
      hide Sound, Admit, Chain, Traced, Grown;
      AdmitSound(before, rows[n], limit, collapse);
      TraceOne(before, Build(rows, limit, collapse), Chain(rows[n], collapse), AllIds(rows[..n], collapse),
          Wanted(rows[..n], collapse));
    }
  }

  lemma {:induction false} RowsIncluded(rows: seq<Row>, collapse: bool, row: Row)
    requires row in rows
    ensures IdSet(Chain(row, collapse)) <= AllIds(rows, collapse)
        && Steps(Chain(row, collapse)) <= Wanted(rows, collapse)
  {
    hide Chain;
    var n := |rows| - 1;
    if row != rows[n] {
      assert row in rows[..n];
      RowsIncluded(rows[..n], collapse, row);
    }
  }

  lemma {:induction false} RowOfId(rows: seq<Row>, collapse: bool, id: string)
    requires id in AllIds(rows, collapse)
    ensures exists row :: row in rows && id in IdSet(Chain(row, collapse))
  {
    hide Chain, IdSet;
    var n := |rows| - 1;
    if id in IdSet(Chain(rows[n], collapse)) {
      assert rows[n] in rows;
    } else {
      RowOfId(rows[..n], collapse, id);
      var row :| row in rows[..n] && id in IdSet(Chain(row, collapse));
      assert row in rows;
    }
  }

  lemma {:induction false} WantedBy(rows: seq<Row>, collapse: bool, e: Edge)
    requires e in Wanted(rows, collapse)
    ensures exists row :: row in rows && e in Steps(Chain(row, collapse))
  {
    hide Chain, Steps;
    var n := |rows| - 1;
    if e in Steps(Chain(rows[n], collapse)) {
      assert rows[n] in rows;
    } else {
      WantedBy(rows[..n], collapse, e);
      var row :| row in rows[..n] && e in Steps(Chain(row, collapse));
      assert row in rows;
    }
  }

  /** A chain whose nodes and edge keys are in the graph is a path, when no two wanted edges share a key. */
  lemma KeyedPath(g: Graph, ids: set<string>, wanted: set<Edge>, chain: seq<Node>)
    requires Sound(g) && Traced(g, ids, wanted) && DistinctKeys(wanted) && chain != []
    requires IdSet(chain) <= g.nodes.Keys && Steps(chain) <= wanted && forall e | e in Steps(chain) :: Key(e) in g.keys
    ensures Path(g, Ids(chain))
  {
    ChainPath(g, chain);
    hide Path, Ids, IdSet;
    forall e | e in Steps(chain) ensures e in g.edges {
      var f :| f in g.edges && Key(f) == Key(e);
    }
  }

  lemma RowIsPath(rows: seq<Row>, limit: int, collapse: bool, row: Row)
    requires !Build(rows, limit, collapse).truncated && NoCollisions(rows, collapse) && row in rows
    ensures Path(Build(rows, limit, collapse), Ids(Chain(row, collapse)))
  {
    BuildSound(rows, limit, collapse);
    BuildTraced(rows, limit, collapse);
    ChainClimbs(row, collapse);
    RowsIncluded(rows, collapse, row);
    hide Build, Chain, Path, Sound, Steps, Wanted, AllIds;
    KeyedPath(Build(rows, limit, collapse), AllIds(rows, collapse), Wanted(rows, collapse), Chain(row, collapse));
  }

  lemma AllPresent(g: Graph, rows: seq<Row>, collapse: bool)
    requires Sound(g) && forall row | row in rows :: Path(g, Ids(Chain(row, collapse)))
    ensures NoCollisions(rows, collapse)
  {
    hide Chain, Path, Sound, Steps, Wanted;
    forall e | e in Wanted(rows, collapse) ensures e in g.edges {
      WantedBy(rows, collapse, e);
      var row :| row in rows && e in Steps(Chain(row, collapse));
      ChainClimbs(row, collapse);
      ChainPath(g, Chain(row, collapse));
    }
    AllThere(g, Wanted(rows, collapse));
  }

  lemma AllThere(g: Graph, wanted: set<Edge>)
    requires Sound(g) && forall e | e in wanted :: e in g.edges
    ensures DistinctKeys(wanted)
  {
    hide Linked, HasKind, Key;
  }

  /** An untruncated graph has every row's chain as a path exactly when no two edges of the rows share a key. */
  lemma ChainsArePaths(rows: seq<Row>, limit: int, collapse: bool)
    requires !Build(rows, limit, collapse).truncated
    ensures (forall row | row in rows :: Path(Build(rows, limit, collapse), Ids(Chain(row, collapse)))) <==>
        NoCollisions(rows, collapse)
  {
    var g := Build(rows, limit, collapse);
    hide Path, Chain, NoCollisions;
    if NoCollisions(rows, collapse) {
      forall row | row in rows ensures Path(g, Ids(Chain(row, collapse))) {
        RowIsPath(rows, limit, collapse, row);
      }
    }
    if forall row | row in rows :: Path(g, Ids(Chain(row, collapse))) {
      BuildSound(rows, limit, collapse);
      AllPresent(g, rows, collapse);
    }
  }

  // ---- Reachability ----

  lemma ReachableGrows(g: Graph, h: Graph, chain: seq<Node>, id: string)
    requires Grown(g, h, chain) && Reachable(g, id)
    ensures Reachable(h, id)
  {
    var ids :| Path(g, ids) && g.nodes[ids[0]] == Publisher && ids[|ids| - 1] == id;
    assert Path(h, ids);
  }

  lemma PathPrefix(g: Graph, ids: seq<string>, id: string)
    requires Path(g, ids) && g.nodes[ids[0]] == Publisher && id in ids
    ensures Reachable(g, id)
  {
    var i :| 0 <= i < |ids| && ids[i] == id;
    var prefix := ids[..i + 1];
    assert Path(g, prefix) && prefix[0] == ids[0] && prefix[|prefix| - 1] == id;
  }

  lemma PublisherFirst(g: Graph, chain: seq<Node>)
    requires Sound(g) && Climbs(chain) && Path(g, Ids(chain))
    ensures g.nodes[Ids(chain)[0]] == Publisher
  {
    KindUnique(chain[0].id, Publisher, g.nodes[chain[0].id]);
  }

  /** One admitted row keeps every node reachable. */
  lemma AdmitReachable(g: Graph, h: Graph, chain: seq<Node>, ids: set<string>, wanted: set<Edge>, id: string)
    requires Sound(h) && Traced(h, ids, wanted) && DistinctKeys(wanted) && Steps(chain) <= wanted
    requires Climbs(chain) && Grown(g, h, chain) && id in h.nodes
    requires id in g.nodes ==> Reachable(g, id)
    ensures Reachable(h, id)
  {
    if id in g.nodes {
      ReachableGrows(g, h, chain, id);
    } else {
      KeyedPath(h, ids, wanted, chain);
      IdSetIds(chain);
      PublisherFirst(h, chain);
      PathPrefix(h, Ids(chain), id);
    }
  }

  /** Whatever the cap drops, every node can be reached from a publisher, when no two edges share a key. */
  lemma {:induction false} EveryNodeReachable(rows: seq<Row>, limit: int, collapse: bool, id: string)
    requires NoCollisions(rows, collapse) && id in Build(rows, limit, collapse).nodes
    ensures Reachable(Build(rows, limit, collapse), id)
  {
    hide Admit, Chain, Candidates, IdSet, Climbs, Sound, Traced, Steps, Key, Reachable, Path;
    var n := |rows| - 1;
    var g, h, chain := Build(rows[..n], limit, collapse), Build(rows, limit, collapse), Chain(rows[n], collapse);
    if id in g.nodes {
      EveryNodeReachable(rows[..n], limit, collapse, id);
    }
    ChainClimbs(rows[n], collapse);
    BuildSound(rows[..n], limit, collapse);
    AdmitSound(g, rows[n], limit, collapse);
    if h == g.(truncated := true) {
      Marked(g, id);
    } else {
      BuildSound(rows, limit, collapse);
      BuildTraced(rows, limit, collapse);
      hide Grown;
      AdmitReachable(g, h, chain, AllIds(rows, collapse), Wanted(rows, collapse), id);
    }
  }

  lemma Marked(g: Graph, id: string)
    requires id in g.nodes && Reachable(g, id)
    ensures Reachable(g.(truncated := true), id)
  {
    var ids :| Path(g, ids) && g.nodes[ids[0]] == Publisher && ids[|ids| - 1] == id;
    assert Path(g.(truncated := true), ids);
  }
}
