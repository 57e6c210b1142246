/** The builder loop of kits/adint/src/domain/ad-graph.ts, over maps, sets and lists it changes in place. */
module AdGraphObjects {
  import opened Base
  import opened AdGraph
  import opened AdReach

  class Builder {
    var nodes: map<string, Kind>
    var edgeKeys: set<string>
    var edges: seq<Edge>
    var truncated: bool

    constructor ()
      ensures State() == EMPTY
    {
      nodes, edgeKeys, edges, truncated := map[], {}, [], false;
    }

    ghost function State(): Graph
      reads this
    {
      Graph(nodes, edges, edgeKeys, truncated)
    }

    /** The first node under an id stays. */
    method PutNode(n: Node)
      modifies this
      ensures State() == Put(old(State()), n)
    {
      if n.id !in nodes {
        nodes := nodes[n.id := n.kind];
      }
    }

    method LinkNodes(source: string, target: string)
      modifies this
      ensures State() == Link(old(State()), Edge(source, target))
    {
      var key := source + " " + target;
      if key in edgeKeys {
        return;
      }
      edgeKeys := edgeKeys + {key};
      edges := edges + [Edge(source, target)];
    }

    /** Put a node and link it below the tail of the chain so far. */
    method Extend(ghost g: Graph, ghost chain: seq<Node>, tail: string, n: Node)
      requires chain != [] && chain[|chain| - 1].id == tail && State() == AddChain(g, chain)
      modifies this
      ensures State() == AddChain(g, chain + [n])
    {
      PutNode(n);
      LinkNodes(tail, n.id);
      assert (chain + [n])[..|chain|] == chain;
    }

    /** Extend the chain when the row has such a node. */
    method ExtendIf(ghost g: Graph, ghost chain: seq<Node>, tail: string, kind: Kind, o: Option<string>)
      returns (last: string, ghost longer: seq<Node>)
      requires chain != [] && chain[|chain| - 1].id == tail && State() == AddChain(g, chain)
      modifies this
      ensures longer == Append(chain, kind, o) && longer[|longer| - 1].id == last && State() == AddChain(g, longer)
    {
      last, longer := tail, chain;
      if Truthy(o) {
        var n := Made(kind, o.value);
        Extend(g, chain, tail, n);
        last, longer := n.id, chain + [n];
      }
    }

    method AddRow(row: Row, limit: int, collapse: bool)
      modifies this
      ensures State() == Admit(old(State()), row, limit, collapse)
    {
      if |nodes| + NewCount(Candidates(row, collapse), nodes) > limit {
        truncated := true;
        return;
      }
      ghost var g := State();
      var n := Made(Publisher, row.publisherDomain);
      PutNode(n);
      var tail := n.id;
      ghost var chain := [n];
      assert chain[..0] == [];
      if !collapse {
        n := Made(Page, row.publisherDomain + " " + row.pageUrl);
        Extend(g, chain, tail, n);
        chain := chain + [n];
        tail := n.id;
        n := Made(Slot, row.observationId);
        Extend(g, chain, tail, n);
        chain := chain + [n];
        tail := n.id;
      }
      hide Append, Candidates, AddChain, Made;
      tail, chain := ExtendIf(g, chain, tail, Advertiser, row.advertiserId);
      tail, chain := ExtendIf(g, chain, tail, Campaign, row.campaignId);
      tail, chain := ExtendIf(g, chain, tail, Creative, row.creativeHash);
      if Truthy(row.creativeHash) {
        tail, chain := ExtendIf(g, chain, tail, Brand, row.brandId);
      }
      assert chain == Chain(row, collapse);
    }
  }

  /** Count the row's publisher for one of its buyers, if it has it. */
  method AddReach(reach: map<string, Reach>, kind: Kind, o: Option<string>, row: Row,
                  ghost before: map<string, Reach>, ghost chain: seq<Node>) returns (after: map<string, Reach>)
    requires reach == NoteAll(before, Ids(chain), row)
    ensures after == NoteAll(before, Ids(Append(chain, kind, o)), row)
  {
    after := reach;
    if Truthy(o) {
      var n := Made(kind, o.value);
      after := Note(reach, n.id, row);
      assert (chain + [n])[..|chain|] == chain;
      assert Ids(chain + [n]) == Ids(chain) + [n.id];
      assert (Ids(chain) + [n.id])[..|Ids(chain)|] == Ids(chain);
    }
  }

  method ComputeReach(rows: seq<Row>) returns (reach: map<string, Reach>)
    ensures reach == ReachMap(rows)
  {
    hide Append, NoteAll;
    reach := map[];
    for i := 0 to |rows|
      invariant reach == ReachMap(rows[..i])
    {
      ghost var before := reach;
      var row := rows[i];
      NothingNoted(before, row);
      reach := AddReach(reach, Advertiser, row.advertiserId, row, before, []);
      ghost var a := Append([], Advertiser, row.advertiserId);
      reach := AddReach(reach, Campaign, row.campaignId, row, before, a);
      ghost var c := Append(a, Campaign, row.campaignId);
      reach := AddReach(reach, Creative, row.creativeHash, row, before, c);
      reach := AddReach(reach, Brand, row.brandId, row, before, Append(c, Creative, row.creativeHash));
      assert rows[..i + 1][..i] == rows[..i];
    }
    assert rows[..|rows|] == rows;
  }

  lemma NothingNoted(reach: map<string, Reach>, row: Row)
    ensures NoteAll(reach, Ids([]), row) == reach
  {
  }

  method BuildAdGraph(rows: seq<Row>, limit: int, collapse: bool) returns (view: View)
    ensures view == AdGraphView(rows, limit, collapse)
    ensures |view.nodes| <= if limit < 0 then 0 else limit
  {
    var builder := new Builder();
    for i := 0 to |rows|
      invariant builder.State() == Build(rows[..i], limit, collapse)
    {
      builder.AddRow(rows[i], limit, collapse);
      assert rows[..i + 1][..i] == rows[..i];
    }
    assert rows[..|rows|] == rows;
    var reach := ComputeReach(rows);
    view := ViewOf(rows, Graph(builder.nodes, builder.edges, builder.edgeKeys, builder.truncated), reach);
    BuildSound(rows, limit, collapse);
    assert view.nodes.Keys == builder.nodes.Keys;
  }
}
