/**
 * Reach and statistics of kits/adint/src/domain/ad-graph.ts: on how many publishers each buyer was seen,
 * over all rows and not only those the cap let in.
 */
module AdReach {
  import opened Base
  import opened AdGraph
  import opened AdGraphRows

  datatype Reach = Reach(publishers: set<string>, stroeer: bool)

  const UNSEEN := Reach({}, false)

  predicate Buyer(kind: Kind) {
    kind.Advertiser? || kind.Campaign? || kind.Creative? || kind.Brand?
  }

  /** The buyer ids a row carries; its brand counts even without a creative. */
  function BuyerIds(row: Row): seq<string> {
    Ids(Append(Append(Append(Append([], Advertiser, row.advertiserId), Campaign, row.campaignId),
                      Creative, row.creativeHash), Brand, row.brandId))
  }

  function Note(reach: map<string, Reach>, id: string, row: Row): map<string, Reach> {
    var entry := if id in reach then reach[id] else UNSEEN;
    reach[id := Reach(entry.publishers + {row.publisherDomain}, entry.stroeer || row.isStroeer)]
  }

  function NoteAll(reach: map<string, Reach>, ids: seq<string>, row: Row): map<string, Reach> {
    if ids == [] then reach else Note(NoteAll(reach, ids[..|ids| - 1], row), ids[|ids| - 1], row)
  }

  function ReachMap(rows: seq<Row>): map<string, Reach> {
    if rows == [] then map[] else NoteAll(ReachMap(rows[..|rows| - 1]), BuyerIds(rows[|rows| - 1]), rows[|rows| - 1])
  }

  // ---- What a reach is, whatever the order of the rows ----

  /** The row names the buyer; a brand counts even without a creative. */
  predicate Carries(row: Row, id: string) {
    || Given(row.advertiserId, "advertiser:", id) || Given(row.campaignId, "campaign:", id)
    || Given(row.creativeHash, "creative:", id) || Given(row.brandId, "brand:", id)
  }

  lemma AppendIds(chain: seq<Node>, kind: Kind, o: Option<string>, id: string)
    ensures id in Ids(Append(chain, kind, o)) <==> id in Ids(chain) || Given(o, Prefix(kind), id)
  {
    if Truthy(o) {
      assert Append(chain, kind, o)[..|chain|] == chain;
    }
  }

  lemma BuyerIdsAre(row: Row, id: string)
    ensures id in BuyerIds(row) <==> Carries(row, id)
  {
    var a := Append([], Advertiser, row.advertiserId);
    var c := Append(a, Campaign, row.campaignId);
    AppendIds([], Advertiser, row.advertiserId, id);
    AppendIds(a, Campaign, row.campaignId, id);
    AppendIds(c, Creative, row.creativeHash, id);
    AppendIds(Append(c, Creative, row.creativeHash), Brand, row.brandId, id);
    hide Append, Ids;
  }

  function Carriers(rows: seq<Row>, id: string): set<Row> {
    set row | row in rows && Carries(row, id)
  }

  function Domains(rows: set<Row>): set<string> {
    set row | row in rows :: row.publisherDomain
  }

  predicate OnStroeer(rows: set<Row>) {
    exists row :: row in rows && row.isStroeer
  }

  /** Reach counts each publisher once over the rows that carry the id. */
  ghost predicate Reached(carriers: set<Row>, reach: map<string, Reach>, id: string) {
    if carriers == {} then id !in reach
    else id in reach && reach[id].publishers == Domains(carriers) && (reach[id].stroeer <==> OnStroeer(carriers))
  }

  lemma {:induction false} NoteAllEffect(reach: map<string, Reach>, ids: seq<string>, row: Row, id: string)
    ensures var after := NoteAll(reach, ids, row);
      && (id in after <==> id in reach || id in ids)
      && (id in after ==>
            var entry := if id in reach then reach[id] else UNSEEN;
            after[id] == if id in ids then Reach(entry.publishers + {row.publisherDomain}, entry.stroeer
                || row.isStroeer) else entry)
  {
    if ids != [] {
      var n := |ids| - 1;
      NoteAllEffect(reach, ids[..n], row, id);
      assert ids == ids[..n] + [ids[n]];
    }
  }

  lemma OneMoreCarrier(carriers: set<Row>, row: Row)
    ensures Domains(carriers + {row}) == Domains(carriers) + {row.publisherDomain}
    ensures OnStroeer(carriers + {row}) <==> OnStroeer(carriers) || row.isStroeer
  {
    assert row in carriers + {row};
    assert forall r | r in carriers :: r in carriers + {row};
  }

  lemma NoteReached(carriers: set<Row>, reach: map<string, Reach>, row: Row, id: string)
    requires Reached(carriers, reach, id)
    ensures Reached(if Carries(row, id) then carriers + {row} else carriers, NoteAll(reach, BuyerIds(row), row), id)
  {
    BuyerIdsAre(row, id);
    hide BuyerIds, NoteAll, Carries;
    NoteAllEffect(reach, BuyerIds(row), row, id);
    OneMoreCarrier(carriers, row);
    assert row in carriers + {row};
    assert Domains({}) == {} && !OnStroeer({});
  }

  lemma CarriersSnoc(rows: seq<Row>, row: Row, id: string)
    ensures Carriers(rows + [row], id) == if Carries(row, id) then Carriers(rows, id) + {row} else Carriers(rows, id)
  {
    hide Carries;
  }

  lemma CountsRow(rows: seq<Row>, row: Row, reach: map<string, Reach>, id: string)
    requires Reached(Carriers(rows, id), reach, id)
    ensures Reached(Carriers(rows + [row], id), NoteAll(reach, BuyerIds(row), row), id)
  {
    hide BuyerIds, Reached, Carriers, NoteAll, Carries;
    NoteReached(Carriers(rows, id), reach, row, id);
    CarriersSnoc(rows, row, id);
  }

  lemma NoRowsNoReach(id: string)
    ensures Reached(Carriers([], id), ReachMap([]), id)
  {
    assert Carriers([], id) == {};
  }

  /** Reach counts every row that carries the id, whatever the cap dropped. */
  lemma {:induction false} ReachCounts(rows: seq<Row>, id: string)
    ensures Reached(Carriers(rows, id), ReachMap(rows), id)
  {
    hide BuyerIds, Reached, Carriers, NoteAll;
    if rows == [] {
      NoRowsNoReach(id);
    } else {
      var n := |rows| - 1;
      ReachCounts(rows[..n], id);
      CountsRow(rows[..n], rows[n], ReachMap(rows[..n]), id);
      assert rows == rows[..n] + [rows[n]];
    }
  }

  /** Reach does not depend on the order of the rows. */
  lemma SameRowsSameReach(rows: seq<Row>, other: seq<Row>)
    requires forall row :: row in rows <==> row in other
    ensures ReachMap(rows) == ReachMap(other)
  {
    hide BuyerIds, ReachMap;
    forall id ensures id in ReachMap(rows) <==> id in ReachMap(other)
              ensures id in ReachMap(rows) ==> ReachMap(rows)[id] == ReachMap(other)[id] {
      ReachCounts(rows, id);
      ReachCounts(other, id);
      assert Carriers(rows, id) == Carriers(other, id);
    }
  }

  // ---- The emitted view ----

  datatype ViewNode = ViewNode(kind: Kind, reach: Option<nat>, notOnStroeer: bool)

  datatype Stats = Stats(publishers: nat, pages: nat, slots: nat, filledSlots: nat, emptySlots: nat, fillRate: real,
                         advertisers: nat, campaigns: nat, creatives: nat, creativesWithBrand: nat,
                         crossPublisher: nat, notOnStroeer: nat)

  datatype View = View(nodes: map<string, ViewNode>, edges: seq<Edge>, stats: Stats, truncated: bool)

  predicate Shown(kind: Kind) {
    kind.Creative? || kind.Brand?
  }

  function Emit(id: string, kind: Kind, reach: map<string, Reach>): ViewNode {
    if id in reach then
      ViewNode(kind, if Buyer(kind) then Some(|reach[id].publishers|) else None,
               Shown(kind) && |reach[id].publishers| >= 1 && !reach[id].stroeer)
    else ViewNode(kind, None, false)
  }

  function Starting(nodes: map<string, Kind>, prefix: string): set<string> {
    set id | id in nodes && prefix <= id
  }

  function BuyerReaches(nodes: map<string, Kind>, reach: map<string, Reach>): set<string> {
    set id | id in reach && id in nodes && (Prefix(Creative) <= id || Prefix(Brand) <= id)
  }

  function CountRows(rows: seq<Row>, empty: bool): nat {
    if rows == [] then 0 else CountRows(rows[..|rows| - 1], empty) + if rows[|rows| - 1].isEmpty == empty then 1 else 0
  }

  /** The creatives that some row shows with a brand. */
  function BrandedHashes(rows: seq<Row>): set<string> {
    set row | row in rows && Truthy(row.creativeHash) && Truthy(row.brandId) :: row.creativeHash.value
  }

  function ComputeStats(rows: seq<Row>, nodes: map<string, Kind>, reach: map<string, Reach>): Stats {
    var buyers, filled := BuyerReaches(nodes, reach), CountRows(rows, false);
    Stats(|Starting(nodes, Prefix(Publisher))|, |Starting(nodes, Prefix(Page))|,
          |rows|, filled, CountRows(rows, true), if rows == [] then 0.0 else filled as real / |rows| as real,
          |Starting(nodes, Prefix(Advertiser))|, |Starting(nodes, Prefix(Campaign))|,
          |Starting(nodes, Prefix(Creative))|, |BrandedHashes(rows)|,
          |set id | id in buyers && |reach[id].publishers| >= 2|,
          |set id | id in buyers && |reach[id].publishers| >= 1 && !reach[id].stroeer|)
  }

  function ViewOf(rows: seq<Row>, g: Graph, reach: map<string, Reach>): View {
    View(map id | id in g.nodes :: Emit(id, g.nodes[id], reach), g.edges, ComputeStats(rows, g.nodes, reach),
        g.truncated)
  }

  function AdGraphView(rows: seq<Row>, limit: int, collapse: bool): View {
    ViewOf(rows, Build(rows, limit, collapse), ReachMap(rows))
  }

  lemma KindIsPrefix(g: Graph, kind: Kind)
    requires Sound(g)
    ensures Starting(g.nodes, Prefix(kind)) == set id | id in g.nodes && g.nodes[id] == kind
  {
    forall id | id in g.nodes && HasKind(id, kind) ensures g.nodes[id] == kind {
      KindUnique(id, kind, g.nodes[id]);
    }
  }

  lemma {:induction false} RowsSplit(rows: seq<Row>)
    ensures CountRows(rows, false) + CountRows(rows, true) == |rows|
  {
    if rows != [] {
      RowsSplit(rows[..|rows| - 1]);
    }
  }

  /** The view shows the graph: its nodes and kinds, its edges in order, and whether rows were left out. */
  lemma ViewShowsGraph(rows: seq<Row>, limit: int, collapse: bool)
    ensures var v, g := AdGraphView(rows, limit, collapse), Build(rows, limit, collapse);
      && v.nodes.Keys == g.nodes.Keys && (forall id | id in g.nodes :: v.nodes[id].kind == g.nodes[id])
      && v.edges == g.edges && v.truncated == g.truncated
  {
    hide Build, ReachMap, ComputeStats;
  }

  lemma ShownByPrefix(g: Graph, id: string)
    requires Sound(g) && id in g.nodes
    ensures Prefix(Creative) <= id || Prefix(Brand) <= id <==> g.nodes[id].Creative? || g.nodes[id].Brand?
  {
    assert HasKind(id, g.nodes[id]);
    if HasKind(id, Creative) {
      KindUnique(id, Creative, g.nodes[id]);
    }
    if HasKind(id, Brand) {
      KindUnique(id, Brand, g.nodes[id]);
    }
  }

  /** The buyers counted for the headlines are the creatives and brands of the graph. */
  lemma HeadlineBuyers(g: Graph, reach: map<string, Reach>)
    requires Sound(g)
    ensures BuyerReaches(g.nodes, reach) ==
            set id | id in g.nodes && id in reach && (g.nodes[id].Creative? || g.nodes[id].Brand?)
  {
    forall id | id in g.nodes
      ensures Prefix(Creative) <= id || Prefix(Brand) <= id <==> g.nodes[id].Creative? || g.nodes[id].Brand?
    {
      ShownByPrefix(g, id);
    }
    hide Sound;
  }

  /** One headline number counts the creatives and brands emitted that are not on Stroeer. */
  lemma FlaggedCounted(rows: seq<Row>, g: Graph, reach: map<string, Reach>)
    requires Sound(g)
    ensures var v := ViewOf(rows, g, reach);
      v.stats.notOnStroeer == |set id | id in v.nodes && v.nodes[id].notOnStroeer|
  {
    HeadlineBuyers(g, reach);
    hide Sound, Starting, CountRows, BrandedHashes;
    var v, buyers := ViewOf(rows, g, reach), BuyerReaches(g.nodes, reach);
    hide BuyerReaches;
    assert (set id | id in buyers && |reach[id].publishers| >= 1 && !reach[id].stroeer)
        == set id | id in v.nodes && v.nodes[id].notOnStroeer;
  }

  /** The other counts those emitted with a reach of two publishers or more. */
  lemma CrossCounted(rows: seq<Row>, g: Graph, reach: map<string, Reach>)
    requires Sound(g)
    ensures var v := ViewOf(rows, g, reach);
      v.stats.crossPublisher ==
        |set id | id in v.nodes && (v.nodes[id].kind.Creative? || v.nodes[id].kind.Brand?)
            && v.nodes[id].reach.Some? && v.nodes[id].reach.value >= 2|
  {
    HeadlineBuyers(g, reach);
    hide Sound, Starting, CountRows, BrandedHashes;
    var v, buyers := ViewOf(rows, g, reach), BuyerReaches(g.nodes, reach);
    hide BuyerReaches;
    assert (set id | id in buyers && |reach[id].publishers| >= 2)
        == set id | id in v.nodes && (v.nodes[id].kind.Creative? || v.nodes[id].kind.Brand?)
               && v.nodes[id].reach.Some? && v.nodes[id].reach.value >= 2;
  }

  /** The other numbers count the nodes of a kind. */
  lemma StatsCountNodes(rows: seq<Row>, g: Graph, reach: map<string, Reach>)
    requires Sound(g)
    ensures var stats := ViewOf(rows, g, reach).stats;
      && stats.publishers == |set id | id in g.nodes && g.nodes[id] == Publisher|
      && stats.pages == |set id | id in g.nodes && g.nodes[id] == Page|
      && stats.advertisers == |set id | id in g.nodes && g.nodes[id] == Advertiser|
      && stats.campaigns == |set id | id in g.nodes && g.nodes[id] == Campaign|
      && stats.creatives == |set id | id in g.nodes && g.nodes[id] == Creative|
  {
    KindIsPrefix(g, Publisher);
    KindIsPrefix(g, Page);
    KindIsPrefix(g, Advertiser);
    KindIsPrefix(g, Campaign);
    KindIsPrefix(g, Creative);
  }

  lemma {:induction false} FilledCounted(rows: seq<Row>)
    ensures CountRows(rows, false) == |set i | 0 <= i < |rows| && !rows[i].isEmpty|
  {
    if rows != [] {
      var n := |rows| - 1;
      FilledCounted(rows[..n]);
      var before := set i | 0 <= i < n && !rows[..n][i].isEmpty;
      var all := set i | 0 <= i < |rows| && !rows[i].isEmpty;
      assert all == if rows[n].isEmpty then before else before + {n};
    }
  }

  /** Every slot is filled or empty, and the fill rate is the filled share of them. */
  lemma FillRateIsShare(rows: seq<Row>, g: Graph, reach: map<string, Reach>)
    ensures var stats := ViewOf(rows, g, reach).stats;
      && stats.slots == |rows| == stats.filledSlots + stats.emptySlots
      && stats.filledSlots == |set i | 0 <= i < |rows| && !rows[i].isEmpty|
      && stats.fillRate * stats.slots as real == stats.filledSlots as real && 0.0 <= stats.fillRate <= 1.0
      && (stats.fillRate == 1.0 <==> rows != [] && stats.emptySlots == 0)
  {
    RowsSplit(rows);
    FilledCounted(rows);
    if rows != [] {
      ShareBounds(CountRows(rows, false), |rows|);
    }
  }

  lemma ShareBounds(part: nat, whole: nat)
    requires part <= whole && whole > 0
    ensures var share := part as real / whole as real;
      share * whole as real == part as real && 0.0 <= share <= 1.0 && (share == 1.0 <==> part == whole)
  {
  }

  // ---- Creatives with a brand ----

  /** The creatives from which some row asks for an edge to a brand. */
  function BrandSources(edges: set<Edge>): set<string> {
    set e | e in edges && HasKind(e.target, Brand) :: e.source
  }

  lemma {:induction false} PrefixedSize(texts: set<string>, prefix: string)
    ensures |set t | t in texts :: prefix + t| == |texts|
  {
    if texts != {} {
      var t :| t in texts;
      PrefixedSize(texts - {t}, prefix);
      var rest := set u | u in texts - {t} :: prefix + u;
      assert forall u | u in texts - {t} :: (prefix + u)[|prefix|..] == u && (prefix + t)[|prefix|..] == t;
      assert (set u | u in texts :: prefix + u) == rest + {prefix + t};
    }
  }

  lemma BrandedChain(row: Row, collapse: bool)
    ensures Truthy(row.creativeHash) && Truthy(row.brandId) ==>
              Edge(Prefix(Creative) + row.creativeHash.value, Prefix(Brand) + row.brandId.value)
                in Steps(Chain(row, collapse))
  {
    var body, chain := Body(row, collapse), Chain(row, collapse);
    assert Truthy(row.creativeHash) ==> body[|body| - 1] == Made(Creative, row.creativeHash.value);
    StepsAre(chain);
    hide Body, Stem, Steps;
    if Truthy(row.creativeHash) && Truthy(row.brandId) {
      assert Step(chain, |body| - 1) ==
             Edge(Prefix(Creative) + row.creativeHash.value, Prefix(Brand) + row.brandId.value);
    }
  }

  /** A brand comes last, right after the creative it needs. */
  lemma BrandAfterCreative(row: Row, collapse: bool, i: nat)
    requires i + 1 < |Chain(row, collapse)| && Chain(row, collapse)[i + 1].kind == Brand
    ensures Truthy(row.creativeHash) && Truthy(row.brandId)
    ensures Chain(row, collapse)[i] == Made(Creative, row.creativeHash.value)
    ensures Chain(row, collapse)[i + 1] == Made(Brand, row.brandId.value)
  {
    var body, chain := Body(row, collapse), Chain(row, collapse);
    BodyClimbs(row, collapse);
    assert Truthy(row.creativeHash) ==> body[|body| - 1] == Made(Creative, row.creativeHash.value);
    hide Body, Prefix, Climbs;
    if i + 1 < |body| {
      NoBrandIn(body, i + 1);
      assert false;
    }
  }

  /** In the chain of a row only the edge from the creative leads to a brand. */
  lemma BrandStep(row: Row, collapse: bool, e: Edge)
    requires e in Steps(Chain(row, collapse)) && HasKind(e.target, Brand)
    ensures Truthy(row.creativeHash) && Truthy(row.brandId)
    ensures e == Edge(Prefix(Creative) + row.creativeHash.value, Prefix(Brand) + row.brandId.value)
  {
    var chain := Chain(row, collapse);
    ChainClimbs(row, collapse);
    StepsAre(chain);
    hide Chain, Steps, Prefix;
    var i :| 0 <= i < |chain| - 1 && Step(chain, i) == e;
    KindUnique(e.target, Brand, chain[i + 1].kind);
    BrandAfterCreative(row, collapse, i);
  }

  lemma {:induction false} NoBrandIn(chain: seq<Node>, i: nat)
    requires Climbs(chain) && i < |chain| && Layer(chain[|chain| - 1].kind) <= 5
    ensures chain[i].kind != Brand
  {
    if i < |chain| - 1 {
      Climbing(chain, i, |chain| - 1);
    }
  }

  /** For all rows and every cap: the creatives counted are those from which some row asks for an edge to a brand. */
  lemma BrandedCreatives(rows: seq<Row>, g: Graph, reach: map<string, Reach>, collapse: bool)
    ensures ViewOf(rows, g, reach).stats.creativesWithBrand == |BrandSources(Wanted(rows, collapse))|
  {
    PrefixedSize(BrandedHashes(rows), Prefix(Creative));
    var ids := set t | t in BrandedHashes(rows) :: Prefix(Creative) + t;
    hide Chain, Steps, Wanted;
    forall id | id in BrandSources(Wanted(rows, collapse)) ensures id in ids {
      var e :| e in Wanted(rows, collapse) && HasKind(e.target, Brand) && e.source == id;
      WantedBy(rows, collapse, e);
      var row :| row in rows && e in Steps(Chain(row, collapse));
      BrandStep(row, collapse, e);
      assert row.creativeHash.value in BrandedHashes(rows);
    }
    forall id | id in ids ensures id in BrandSources(Wanted(rows, collapse)) {
      var t :| t in BrandedHashes(rows) && Prefix(Creative) + t == id;
      var row :| row in rows && Truthy(row.creativeHash) && Truthy(row.brandId) && row.creativeHash.value == t;
      var e := Edge(id, Prefix(Brand) + row.brandId.value);
      BrandedChain(row, collapse);
      RowsIncluded(rows, collapse, row);
    }
    assert BrandSources(Wanted(rows, collapse)) == ids;
  }

  // ---- Every buyer node has its reach ----

  lemma ChainCovered(row: Row, collapse: bool, n: Node)
    requires n in Chain(row, collapse) && Buyer(n.kind)
    ensures Carries(row, n.id)
  {
    ChainIsFields(row, collapse, n);
    hide Chain;
  }

  lemma BuyerIsCarried(rows: seq<Row>, limit: int, collapse: bool, id: string)
    requires id in Build(rows, limit, collapse).nodes && Buyer(Build(rows, limit, collapse).nodes[id])
    ensures Carriers(rows, id) != {}
  {
    BuildTraced(rows, limit, collapse);
    BuildSound(rows, limit, collapse);
    RowOfId(rows, collapse, id);
    var kind := Build(rows, limit, collapse).nodes[id];
    assert HasKind(id, kind);
    hide Chain, BuyerIds, Build, IdSet, Sound, Traced;
    var row :| row in rows && id in IdSet(Chain(row, collapse));
    NodeOfId(Chain(row, collapse), id);
    var i :| 0 <= i < |Chain(row, collapse)| && Chain(row, collapse)[i].id == id;
    var n := Chain(row, collapse)[i];
    ChainClimbs(row, collapse);
    KindUnique(id, kind, n.kind);
    ChainCovered(row, collapse, n);
    assert row in Carriers(rows, id);
  }

  /**
   * Each buyer node shows the number of distinct publishers over all rows that carry it, at least one;
   * a creative or brand is flagged exactly when none of those rows is on Stroeer. Other nodes show neither.
   */
  lemma NodesShowReach(rows: seq<Row>, limit: int, collapse: bool, id: string)
    requires id in Build(rows, limit, collapse).nodes
    ensures var n, carriers := AdGraphView(rows, limit, collapse).nodes[id], Carriers(rows, id);
      && n.kind == Build(rows, limit, collapse).nodes[id]
      && var buyer := n.kind.Advertiser? || n.kind.Campaign? || n.kind.Creative? || n.kind.Brand?;
      && n.reach == (if buyer then Some(|Domains(carriers)|) else None)
      && (buyer ==> |Domains(carriers)| >= 1)
      && (n.notOnStroeer <==> (n.kind.Creative? || n.kind.Brand?) && !OnStroeer(carriers))
  {
    ReachCounts(rows, id);
    var carriers := Carriers(rows, id);
    if Buyer(Build(rows, limit, collapse).nodes[id]) {
      BuyerIsCarried(rows, limit, collapse, id);
      hide Carriers, Build;
      var row :| row in carriers;
      assert row.publisherDomain in Domains(carriers);
    }
  }
}
