/**
 * The metadata guard of packages/sdk/src/telemetry.ts: a depth-first search for a forbidden key over
 * an object graph that may be shared and cyclic, with one `seen` set updated along the way.
 */
module ContentGuard {

  type Id = nat

  /** Array elements have index keys, other properties have names. */
  datatype Key = Index(i: nat) | Name(name: string)

  datatype Value = Scalar | Ref(id: Id)

  /** An object; an array has `items` besides its named properties. */
  datatype Node = Node(isArray: bool, items: seq<Value>, props: seq<(string, Value)>)

  type Graph = map<Id, Node>

  const CONTENT_FIELDS := {
    "prompt", "completion", "audio", "transcript", "toolPayload", "toolArgs", "toolArguments", "toolResult",
        "toolOutput"
  }

  /** `Object.entries`. */
  function Entries(n: Node): seq<(Key, Value)> {
    (if n.isArray then seq(|n.items|, i requires 0 <= i < |n.items| => (Index(i), n.items[i])) else [])
    + seq(|n.props|, i requires 0 <= i < |n.props| => (Name(n.props[i].0), n.props[i].1))
  }

  predicate Forbidden(k: Key) {
    k.Name? && k.name in CONTENT_FIELDS
  }

  /** The object has a content field; the index keys of an array are none. */
  predicate HasForbiddenKey(g: Graph, o: Id) {
    o in g && exists i | 0 <= i < |g[o].props| :: g[o].props[i].0 in CONTENT_FIELDS
  }

  /** One object holds the other, under a name or as an array's item. */
  predicate Points(g: Graph, a: Id, b: Id) {
    && a in g
    && ((exists i | 0 <= i < |g[a].props| :: g[a].props[i].1 == Ref(b))
        || (g[a].isArray && exists i | 0 <= i < |g[a].items| :: g[a].items[i] == Ref(b)))
  }

  /** No reference leaves the graph. */
  ghost predicate Closed(g: Graph) {
    forall o, b | Points(g, o, b) :: b in g
  }

  /** An entry is a named property or an item, and every one of those is an entry. */
  lemma EntryIs(g: Graph, a: Id, i: nat)
    requires a in g && i < |Entries(g[a])|
    ensures Entries(g[a])[i].1.Ref? ==> Points(g, a, Entries(g[a])[i].1.id)
    ensures Forbidden(Entries(g[a])[i].0) ==> HasForbiddenKey(g, a)
  {
    var items := if g[a].isArray then |g[a].items| else 0;
    if i >= items {
      assert Entries(g[a])[i] == (Name(g[a].props[i - items].0), g[a].props[i - items].1);
    } else {
      assert Entries(g[a])[i] == (Index(i), g[a].items[i]);
    }
  }

  lemma PointsByEntry(g: Graph, a: Id, b: Id)
    requires Points(g, a, b)
    ensures exists i :: 0 <= i < |Entries(g[a])| && Entries(g[a])[i].1 == Ref(b)
  {
    var items := if g[a].isArray then |g[a].items| else 0;
    if i :| 0 <= i < |g[a].props| && g[a].props[i].1 == Ref(b) {
      assert Entries(g[a])[items + i] == (Name(g[a].props[i].0), g[a].props[i].1);
    } else {
      var i :| 0 <= i < |g[a].items| && g[a].items[i] == Ref(b);
      assert Entries(g[a])[i] == (Index(i), g[a].items[i]);
    }
  }

  lemma ForbiddenByEntry(g: Graph, a: Id)
    requires HasForbiddenKey(g, a)
    ensures exists i :: 0 <= i < |Entries(g[a])| && Forbidden(Entries(g[a])[i].0)
  {
    var items := if g[a].isArray then |g[a].items| else 0;
    var i :| 0 <= i < |g[a].props| && g[a].props[i].0 in CONTENT_FIELDS;
    assert Entries(g[a])[items + i] == (Name(g[a].props[i].0), g[a].props[i].1);
  }

  /** An object all of whose entries were gone through without a find has been searched. */
  lemma EntriesSearched(g: Graph, a: Id, seen: set<Id>)
    requires a in g
    requires forall i | 0 <= i < |Entries(g[a])| ::
        !Forbidden(Entries(g[a])[i].0) && (Entries(g[a])[i].1.Ref? ==> Entries(g[a])[i].1.id in seen)
    ensures Searched(g, a, seen)
  {
    if HasForbiddenKey(g, a) {
      ForbiddenByEntry(g, a);
    }
    forall b | Points(g, a, b) ensures b in seen {
      PointsByEntry(g, a, b);
    }
  }

  predicate IsPath(g: Graph, path: seq<Id>) {
    path != [] && forall i | 0 <= i < |path| - 1 :: Points(g, path[i], path[i + 1])
  }

  ghost predicate Reaches(g: Graph, a: Id, b: Id) {
    exists path: seq<Id> :: IsPath(g, path) && path[0] == a && path[|path| - 1] == b
  }

  /** What the guard is for: somewhere below the value sits a content field. */
  ghost predicate CarriesContent(g: Graph, v: Value) {
    v.Ref? && exists o :: Reaches(g, v.id, o) && HasForbiddenKey(g, o)
  }

  lemma OwnKey(g: Graph, a: Id)
    requires HasForbiddenKey(g, a)
    ensures CarriesContent(g, Ref(a))
  {
    assert IsPath(g, [a]);
    assert Reaches(g, a, a);
  }

  lemma PathFrom(g: Graph, a: Id, path: seq<Id>)
    requires IsPath(g, path) && Points(g, a, path[0])
    ensures IsPath(g, [a] + path)
  {
    hide Points;
    var longer := [a] + path;
    forall i | 0 <= i < |longer| - 1 ensures Points(g, longer[i], longer[i + 1]) {
      assert i > 0 ==> longer[i] == path[i - 1];
    }
  }

  lemma Inherited(g: Graph, a: Id, b: Id)
    requires Points(g, a, b) && CarriesContent(g, Ref(b))
    ensures CarriesContent(g, Ref(a))
  {
    var o :| Reaches(g, b, o) && HasForbiddenKey(g, o);
    var path :| IsPath(g, path) && path[0] == b && path[|path| - 1] == o;
    PathFrom(g, a, path);
    hide Points, HasForbiddenKey, IsPath;
    assert ([a] + path)[|path|] == o;
    assert Reaches(g, a, o);
  }

  /** The object was searched without a find, and everything it points to has been seen. */
  ghost predicate Searched(g: Graph, o: Id, seen: set<Id>) {
    !HasForbiddenKey(g, o) && forall b | Points(g, o, b) :: b in seen
  }

  /** If every object of a set was searched and leads back into the set, no content lies below the set. */
  lemma {:induction false} PathStays(g: Graph, path: seq<Id>, seen: set<Id>)
    requires IsPath(g, path) && path[0] in seen && forall o | o in seen :: Searched(g, o, seen)
    ensures path[|path| - 1] in seen
    decreases |path|
  {
    if |path| > 1 {
      assert Points(g, path[0], path[1]);
      assert forall i | 0 <= i < |path| - 2 :: Points(g, path[1..][i], path[1..][i + 1]) <== Points(g, path[i + 1],
          path[i + 2]);
      PathStays(g, path[1..], seen);
    }
  }

  /** Searching on keeps what was searched. */
  lemma SearchedOn(g: Graph, base: set<Id>, seen: set<Id>, more: set<Id>)
    requires seen <= more
    requires forall o | o in seen - base :: Searched(g, o, seen)
    requires forall o | o in more - seen :: Searched(g, o, more)
    ensures forall o | o in more - base :: Searched(g, o, more)
  {
    forall o | o in more - base ensures Searched(g, o, more) {
      if o in seen {
        assert o in seen - base && Searched(g, o, seen);
      } else {
        assert o in more - seen;
      }
    }
  }

  class SeenSet {
    var ids: set<Id>

    constructor ()
      ensures ids == {}
    {
      ids := {};
    }
  }

  method ContainsContentField(g: Graph, v: Value, seen: SeenSet) returns (found: bool)
    requires Closed(g) && seen.ids <= g.Keys && (v.Ref? ==> v.id in g)
    modifies seen
    ensures old(seen.ids) <= seen.ids <= g.Keys && (v.Ref? ==> v.id in seen.ids)
    ensures found ==> CarriesContent(g, v)
    ensures !found ==> forall o | o in seen.ids - old(seen.ids) :: Searched(g, o, seen.ids)
    decreases g.Keys - seen.ids, 0
  {
    if v.Scalar? {
      return false;
    }
    if v.id in seen.ids {
      return false;
    }
    seen.ids := seen.ids + {v.id};
    var entries := Entries(g[v.id]);
    var e := 0;
    while e < |entries|
      invariant e <= |entries|
      invariant old(seen.ids) + {v.id} <= seen.ids <= g.Keys
      invariant forall i | 0 <= i < e :: !Forbidden(entries[i].0) && (entries[i].1.Ref? ==> entries[i].1.id in seen.ids)
      invariant forall o | o in seen.ids - (old(seen.ids) + {v.id}) :: Searched(g, o, seen.ids)
    {
      var (key, nested) := entries[e];
      EntryIs(g, v.id, e);
      if Forbidden(key) {
        OwnKey(g, v.id);
        return true;
      }
      if nested.Ref? {
        assert Points(g, v.id, nested.id);
        ghost var before := seen.ids;
        var inside := ContainsContentField(g, nested, seen);
        if inside {
          Inherited(g, v.id, nested.id);
          return true;
        }
        SearchedOn(g, old(seen.ids) + {v.id}, before, seen.ids);
        if g[nested.id].isArray {
          before := seen.ids;
          var inItems := AnyItem(g, nested.id, seen);
          if inItems {
            Inherited(g, v.id, nested.id);
            return true;
          }
          SearchedOn(g, old(seen.ids) + {v.id}, before, seen.ids);
        }
      }
      e := e + 1;
    }
    EntriesSearched(g, v.id, seen.ids);
    found := false;
  }

  /** `nested.some(...)`: the second visit of an array's elements. */
  method AnyItem(g: Graph, a: Id, seen: SeenSet) returns (found: bool)
    requires Closed(g) && seen.ids <= g.Keys && a in g && a in seen.ids && g[a].isArray
    modifies seen
    ensures old(seen.ids) <= seen.ids <= g.Keys
    ensures found ==> CarriesContent(g, Ref(a))
    ensures !found ==> forall o | o in seen.ids - old(seen.ids) :: Searched(g, o, seen.ids)
    decreases g.Keys - seen.ids, 1
  {
    var i := 0;
    while i < |g[a].items|
      invariant i <= |g[a].items|
      invariant old(seen.ids) <= seen.ids <= g.Keys
      invariant forall o | o in seen.ids - old(seen.ids) :: Searched(g, o, seen.ids)
    {
      var item := g[a].items[i];
      assert item.Ref? ==> Points(g, a, item.id);
      ghost var before := seen.ids;
      var inItem := ContainsContentField(g, item, seen);
      if inItem {
        assert Points(g, a, item.id);
        Inherited(g, a, item.id);
        return true;
      }
      SearchedOn(g, old(seen.ids), before, seen.ids);
      i := i + 1;
    }
    found := false;
  }

  /** The guard's call with an empty `seen`: a find, exactly when some reachable object has a content field. */
  method HasContent(g: Graph, root: Value) returns (found: bool)
    requires Closed(g) && (root.Ref? ==> root.id in g)
    ensures found <==> CarriesContent(g, root)
  {
    var seen := new SeenSet();
    found := ContainsContentField(g, root, seen);
    if !found && CarriesContent(g, root) {
      var o :| Reaches(g, root.id, o) && HasForbiddenKey(g, o);
      var path :| IsPath(g, path) && path[0] == root.id && path[|path| - 1] == o;
      PathStays(g, path, seen.ids);
      assert false;
    }
  }
}
