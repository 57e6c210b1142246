/**
 * When the deduplication key `source target` of kits/adint/src/domain/ad-graph.ts can confuse two edges,
 * and when it cannot.
 */
module AdGraphKeys {
  import opened Base
  import opened AdGraph

  predicate Spaceless(s: string) {
    ' ' !in s
  }

  /** The page address and the brand may hold spaces; whatever else can be the source of an edge may not. */
  predicate PlainRow(row: Row) {
    && Spaceless(row.publisherDomain) && Spaceless(row.observationId)
    && (row.advertiserId.Some? ==> Spaceless(row.advertiserId.value))
    && (row.campaignId.Some? ==> Spaceless(row.campaignId.value))
    && (row.creativeHash.Some? ==> Spaceless(row.creativeHash.value))
  }

  predicate PageId(id: string) {
    |id| >= 2 && id[0] == 'p' && id[1] == 'a'
  }

  /** A page's edge is told apart by its last space, any other by its first. */
  predicate PlainEdge(e: Edge) {
    if PageId(e.source) then Spaceless(e.target) else Spaceless(e.source)
  }

  /** A spaceless prefix ends before any space. */
  lemma EndsBefore(k: string, t: string, at: nat)
    requires t <= k && Spaceless(t) && at < |k| && k[at] == ' '
    ensures |t| <= at
  {
    assert forall i | 0 <= i < |t| :: k[i] == t[i] && t[i] != ' ';
  }

  /** A spaceless suffix starts after any space. */
  lemma StartsAfter(k: string, y: string, at: nat)
    requires |y| <= |k| && k[|k| - |y|..] == y && Spaceless(y) && at < |k| && k[at] == ' '
    ensures at < |k| - |y|
  {
    assert forall i | 0 <= i < |y| :: k[|k| - |y| + i] == y[i] && y[i] != ' ';
    assert forall i | |k| - |y| <= i < |k| :: k[i] == y[i - (|k| - |y|)];
  }

  lemma SplitFirst(s: string, x: string, t: string, y: string)
    requires s + " " + x == t + " " + y && Spaceless(s) && Spaceless(t)
    ensures s == t && x == y
  {
    var k := s + " " + x;
    assert k[|s|] == ' ' && k[|t|] == ' ';
    EndsBefore(k, t, |s|);
    EndsBefore(k, s, |t|);
    assert s == k[..|s|] == t;
    assert x == k[|s| + 1..] == y;
  }

  lemma SplitLast(s: string, x: string, t: string, y: string)
    requires s + " " + x == t + " " + y && Spaceless(x) && Spaceless(y)
    ensures s == t && x == y
  {
    var k := s + " " + x;
    assert k[|s|] == ' ' && k[|t|] == ' ';
    assert k[|k| - |x|..] == x && k[|k| - |y|..] == y;
    StartsAfter(k, y, |s|);
    StartsAfter(k, x, |t|);
    assert s == k[..|s|] == t;
  }

  lemma PlainKeys(e: Edge, f: Edge)
    requires PlainEdge(e) && PlainEdge(f) && Key(e) == Key(f)
    ensures e == f
  {
    PageKey(e);
    PageKey(f);
    if PageId(e.source) {
      SplitLast(e.source, e.target, f.source, f.target);
    } else {
      SplitFirst(e.source, e.target, f.source, f.target);
    }
  }

  /** The first two characters of a key say whether its source is a page. */
  lemma PageKey(e: Edge)
    requires PlainEdge(e)
    ensures PageId(Key(e)) <==> PageId(e.source)
  {
    if |e.source| >= 2 {
      assert Key(e)[0] == e.source[0] && Key(e)[1] == e.source[1];
    } else {
      assert Key(e)[|e.source|] == ' ';
    }
  }

  /** All edges of the chain are plain, and it ends in a node that can be the source of another. */
  predicate PlainChain(chain: seq<Node>) {
    && chain != [] && !PageId(chain[|chain| - 1].id) && Spaceless(chain[|chain| - 1].id)
    && PlainSteps(chain)
  }

  predicate PlainSteps(chain: seq<Node>) {
    forall i | 0 <= i < |chain| - 1 :: PlainEdge(Step(chain, i))
  }

  lemma AppendPlain(chain: seq<Node>, kind: Kind, o: Option<string>)
    requires PlainChain(chain) && kind != Page && (o.Some? ==> Spaceless(o.value))
    ensures PlainChain(Append(chain, kind, o))
  {
    var a := Append(chain, kind, o);
    if Truthy(o) {
      NoPage(kind, o.value);
      assert forall i | 0 <= i < |chain| - 1 :: Step(a, i) == Step(chain, i);
    }
  }

  lemma NoPage(kind: Kind, text: string)
    ensures PageId(Made(kind, text).id) <==> kind == Page
    ensures Spaceless(text) ==> Spaceless(Made(kind, text).id)
  {
    var id := Made(kind, text).id;
    assert id[0] == Prefix(kind)[0] && id[1] == Prefix(kind)[1];
    assert forall i | 0 <= i < |id| ::
             id[i] == if i < |Prefix(kind)| then Prefix(kind)[i] else text[i - |Prefix(kind)|];
  }

  lemma PlainStart(row: Row)
    requires PlainRow(row)
    ensures PlainChain([Made(Publisher, row.publisherDomain)])
    ensures PlainChain([Made(Publisher, row.publisherDomain)] + [Made(Page, row.publisherDomain + " " + row.pageUrl)]
                       + [Made(Slot, row.observationId)])
  {
    var a, b, c := Made(Publisher, row.publisherDomain), Made(Page, row.publisherDomain + " " + row.pageUrl),
        Made(Slot, row.observationId);
    NoPage(Publisher, row.publisherDomain);
    NoPage(Page, row.publisherDomain + " " + row.pageUrl);
    NoPage(Slot, row.observationId);
    hide Made;
    var chain := [a] + [b] + [c];
    assert chain == [a, b, c];
    assert Step(chain, 0) == Edge(a.id, b.id) && Step(chain, 1) == Edge(b.id, c.id);
  }

  lemma PlainBrand(chain: seq<Node>, o: Option<string>)
    requires PlainChain(chain)
    ensures PlainSteps(chain) && PlainSteps(Append(chain, Brand, o))
  {
    var a := Append(chain, Brand, o);
    if Truthy(o) {
      assert forall i | 0 <= i < |chain| - 1 :: Step(a, i) == Step(chain, i);
      assert Step(a, |chain| - 1) == Edge(chain[|chain| - 1].id, a[|chain|].id);
    }
  }

  lemma PlainRowSteps(row: Row, collapse: bool)
    requires PlainRow(row)
    ensures PlainSteps(Chain(row, collapse))
  {
    var s := Stem(row, collapse);
    PlainStart(row);
    assert PlainChain(s);
    hide Made, PlainChain, PlainSteps, Append;
    AppendPlain(s, Advertiser, row.advertiserId);
    var a := Append(s, Advertiser, row.advertiserId);
    AppendPlain(a, Campaign, row.campaignId);
    var m := Append(a, Campaign, row.campaignId);
    AppendPlain(m, Creative, row.creativeHash);
    var c := Append(m, Creative, row.creativeHash);
    PlainBrand(c, row.brandId);
  }

  /** Rows whose edge sources hold no spaces never collide. */
  lemma PlainRowsDoNotCollide(rows: seq<Row>, collapse: bool)
    requires forall row | row in rows :: PlainRow(row)
    ensures NoCollisions(rows, collapse)
  {
    hide Chain, Key, PlainEdge, PlainRow;
    forall e | e in Wanted(rows, collapse) ensures PlainEdge(e) {
      WantedBy(rows, collapse, e);
      var row :| row in rows && e in Steps(Chain(row, collapse));
      PlainRowSteps(row, collapse);
      StepsAre(Chain(row, collapse));
    }
    forall e, f | e in Wanted(rows, collapse) && f in Wanted(rows, collapse) && Key(e) == Key(f) ensures e == f {
      PlainKeys(e, f);
    }
  }

  function AdvertiserRow(domain: string, advertiser: string): Row {
    Row(domain, false, "/", "slot", false, Some(advertiser), None, None, None)
  }

  /** Two rows of different advertisers on different publishers whose one edge each has the same key. */
  function Losing(d: string, x: string, y: string): seq<Row> {
    [AdvertiserRow(d, x + " " + Made(Advertiser, y).id), AdvertiserRow(d + " " + Made(Advertiser, x).id, y)]
  }

  lemma PairAdded(g: Graph, p: Node, a: Node)
    requires p.id !in g.nodes && a.id !in g.nodes && p.id != a.id
    ensures AddChain(g, [p, a]) == Link(g.(nodes := g.nodes[p.id := p.kind][a.id := a.kind]), Edge(p.id, a.id))
    ensures NewCount([p, a], g.nodes) == 2
  {
    assert [p, a][..1] == [p] && [p][..0] == [];
    assert AddChain(g, [p]) == Put(g, p);
    assert NewCount([p], g.nodes) == 1;
  }

  lemma PairChain(domain: string, advertiser: string)
    requires advertiser != ""
    ensures var row := AdvertiserRow(domain, advertiser);
      Chain(row, true) == Candidates(row, true) == [Made(Publisher, domain), Made(Advertiser, advertiser)]
  {
  }

  lemma PathEndsElsewhere(g: Graph, ids: seq<string>, id: string)
    requires Path(g, ids) && g.nodes[ids[0]] == Publisher
    requires id in g.nodes && g.nodes[id] != Publisher && forall e | e in g.edges :: e.target != id
    ensures ids[|ids| - 1] != id
  {
    var n := |ids| - 1;
    if n > 0 {
      assert Edge(ids[n - 1], ids[n - 1 + 1]) in g.edges;
    }
  }

  lemma NothingEnters(g: Graph, id: string)
    requires id in g.nodes && g.nodes[id] != Publisher && forall e | e in g.edges :: e.target != id
    ensures !Reachable(g, id)
  {
    forall ids | Path(g, ids) && g.nodes[ids[0]] == Publisher ensures ids[|ids| - 1] != id {
      PathEndsElsewhere(g, ids, id);
    }
  }

  lemma PairAdmitted(g: Graph, row: Row, p: Node, a: Node)
    requires Chain(row, true) == Candidates(row, true) == [p, a] && |g.nodes| <= 2
    requires p.id !in g.nodes && a.id !in g.nodes && p.id != a.id
    ensures Admit(g, row, 10, true) == Link(g.(nodes := g.nodes[p.id := p.kind][a.id := a.kind]), Edge(p.id, a.id))
  {
    PairAdded(g, p, a);
  }

  lemma FirstPair(r: Row, p: Node, a: Node)
    requires Chain(r, true) == Candidates(r, true) == [p, a] && p.id != a.id
    ensures Build([r], 10, true) == Graph(map[p.id := p.kind, a.id := a.kind], [Edge(p.id, a.id)], {Key(Edge(p.id,
        a.id))}, false)
  {
    PairAdmitted(EMPTY, r, p, a);
    hide Chain, Candidates, Key, Admit;
    assert [r][..0] == [];
    assert Build([r], 10, true) == Admit(EMPTY, r, 10, true);
  }

  lemma PairsCollide(r: Row, t: Row, p: Node, a: Node, q: Node, b: Node)
    requires Chain(r, true) == Candidates(r, true) == [p, a] && Chain(t, true) == Candidates(t, true) == [q, b]
    requires p.id != a.id && q.id != b.id && q.id != p.id && q.id != a.id && b.id != p.id && b.id != a.id
    requires Key(Edge(p.id, a.id)) == Key(Edge(q.id, b.id))
    ensures var g := Build([r, t], 10, true);
      !g.truncated && b.id in g.nodes && g.nodes[b.id] == b.kind && g.edges == [Edge(p.id, a.id)]
  {
    FirstPair(r, p, a);
    var first := Build([r], 10, true);
    assert first.nodes.Keys == {p.id, a.id};
    PairAdmitted(first, t, q, b);
    hide Chain, Candidates, Key, Admit;
    assert Build([r, t], 10, true) == Admit(first, t, 10, true) by {
      assert [r, t][..1] == [r] && [r, t][1] == t;
    }
  }

  /** The two rows' ids: four different ones, whose two edges share a key. */
  lemma LosingIds(d: string, x: string, y: string)
    ensures var p, a := Made(Publisher, d), Made(Advertiser, x + " " + Made(Advertiser, y).id);
      var q, b := Made(Publisher, d + " " + Made(Advertiser, x).id), Made(Advertiser, y);
      && p.id != a.id && q.id != b.id && q.id != p.id && q.id != a.id && b.id != p.id && b.id != a.id
      && Key(Edge(p.id, a.id)) == Key(Edge(q.id, b.id))
  {
    var p, a := Made(Publisher, d), Made(Advertiser, x + " " + Made(Advertiser, y).id);
    var q, b := Made(Publisher, d + " " + Made(Advertiser, x).id), Made(Advertiser, y);
    assert p.id[0] == q.id[0] == 'p' && a.id[0] == b.id[0] == 'a';
    assert |q.id| > |p.id| && |a.id| > |b.id|;
    var v := Prefix(Advertiser);
    assert Key(Edge(p.id, a.id)) == p.id + " " + (v + (x + " " + b.id)) == (p.id + " " + (v + x)) + " " + b.id;
    assert q.id == p.id + " " + (v + x);
  }

  /** With spaces a second row can lose its edge to the first: a node no publisher leads to. */
  lemma SpaceCutsOffANode(d: string, x: string, y: string)
    requires y != ""
    ensures var g := Build(Losing(d, x, y), 10, true);
      !g.truncated && Made(Advertiser, y).id in g.nodes && !Reachable(g, Made(Advertiser, y).id)
  {
    var a, q, b := Made(Advertiser, x + " " + Made(Advertiser, y).id), Made(Publisher, d + " " + Made(Advertiser,
        x).id), Made(Advertiser, y);
    LosingIds(d, x, y);
    PairChain(d, x + " " + b.id);
    PairChain(d + " " + Made(Advertiser, x).id, y);
    hide Chain, Candidates, Reachable, Key, Build;
    var rows := Losing(d, x, y);
    PairsCollide(rows[0], rows[1], Made(Publisher, d), a, q, b);
    assert b.kind == Advertiser && a.id != b.id;
    hide Made;
    NothingEnters(Build(rows, 10, true), b.id);
  }
}
