/** Collecting and deleting the part of the graph that a set of sessions owns.

    Nodes shared between graphs are concepts: a traversal takes them in when it reaches
    them and does not go on through them.
 */
module GraphTraversal {
  import opened Chunking

  type Id = string
  type Rid = string

  datatype Node = Node(workspace: string, concept: bool)
  datatype Edge = Edge(src: Id, dst: Id)
  datatype Graph = Graph(nodes: map<Id, Node>, edges: map<Rid, Edge>)

  // ---------------------------------------------------------------- paths

  predicate Leaves(g: Graph, ws: string, r: Rid, a: Id) {
    r in g.edges && g.edges[r].src == a && g.edges[r].dst in g.nodes && g.nodes[g.edges[r].dst].workspace == ws
  }

  ghost predicate Linked(g: Graph, ws: string, a: Id, b: Id) {
    exists r :: Leaves(g, ws, r, a) && g.edges[r].dst == b
  }

  predicate Concept(g: Graph, n: Id) { n in g.nodes && g.nodes[n].concept }

  /** A walk along relationships inside the workspace, from a seed. */
  ghost predicate Path(g: Graph, ws: string, seeds: set<Id>, p: seq<Id>) {
    p != [] && p[0] in seeds && forall i :: 0 < i < |p| ==> Linked(g, ws, p[i - 1], p[i])
  }

  /** No concept from the second node on, up to but not including position `end`. */
  predicate NoConcept(g: Graph, p: seq<Id>, end: nat) {
    forall i :: 0 < i < |p| && i < end ==> !Concept(g, p[i])
  }

  ghost predicate OwnedVia(g: Graph, ws: string, seeds: set<Id>, p: seq<Id>, n: Id) {
    Path(g, ws, seeds, p) && p[|p| - 1] == n && NoConcept(g, p, |p|)
  }

  ghost predicate ReachedVia(g: Graph, ws: string, seeds: set<Id>, p: seq<Id>, n: Id) {
    Path(g, ws, seeds, p) && p[|p| - 1] == n && NoConcept(g, p, |p| - 1)
  }

  ghost predicate Owned(g: Graph, ws: string, seeds: set<Id>, n: Id) {
    exists p :: OwnedVia(g, ws, seeds, p, n)
  }

  /** Some path leads here with no concept strictly between its ends. */
  ghost predicate Reached(g: Graph, ws: string, seeds: set<Id>, n: Id) {
    exists p :: ReachedVia(g, ws, seeds, p, n)
  }

  lemma SeedIsOwned(g: Graph, ws: string, seeds: set<Id>, n: Id)
    requires n in seeds
    ensures Owned(g, ws, seeds, n)
  {
    assert OwnedVia(g, ws, seeds, [n], n);
  }

  lemma OneMoreHop(g: Graph, ws: string, seeds: set<Id>, a: Id, b: Id)
    requires Owned(g, ws, seeds, a) && Linked(g, ws, a, b)
    ensures Reached(g, ws, seeds, b)
    ensures !Concept(g, b) ==> Owned(g, ws, seeds, b)
  {
    var p :| OwnedVia(g, ws, seeds, p, a);
    var q := p + [b];
    forall i | 0 < i < |q| ensures Linked(g, ws, q[i - 1], q[i]) {
      if i < |p| {
        assert q[i - 1] == p[i - 1] && q[i] == p[i];
      }
    }
    assert ReachedVia(g, ws, seeds, q, b);
    if !Concept(g, b) {
      assert OwnedVia(g, ws, seeds, q, b);
    }
  }

  lemma OwnedIsReached(g: Graph, ws: string, seeds: set<Id>, n: Id)
    requires Owned(g, ws, seeds, n)
    ensures Reached(g, ws, seeds, n)
  {
    var p :| OwnedVia(g, ws, seeds, p, n);
    assert ReachedVia(g, ws, seeds, p, n);
  }

  // ---------------------------------------------------------------- what the loop keeps

  /** Everything collected so far has a path to it. */
  ghost predicate Sound(g: Graph, ws: string, seeds: set<Id>, owned: set<Id>, concepts: set<Id>) {
    && owned !! concepts && seeds <= owned
    && (forall n :: n in owned ==> Owned(g, ws, seeds, n))
    && (forall n :: n in concepts ==> Reached(g, ws, seeds, n) && Concept(g, n))
  }

  /** A relationship has been followed: it is counted and its end is taken in, as an owned
      node unless it is a concept. */
  predicate Followed(g: Graph, owned: set<Id>, concepts: set<Id>, edges: set<Rid>, r: Rid) {
    && r in edges && r in g.edges
    && (g.edges[r].dst in owned || (g.edges[r].dst in concepts && Concept(g, g.edges[r].dst)))
  }

  /** Every relationship out of an expanded node has been followed. */
  ghost predicate Closed(g: Graph, ws: string, expanded: set<Id>, owned: set<Id>, concepts: set<Id>, edges: set<Rid>) {
    forall r, a :: a in expanded && Leaves(g, ws, r, a) ==> Followed(g, owned, concepts, edges, r)
  }

  /** Only relationships out of owned nodes are counted. */
  predicate EdgesFrom(g: Graph, ws: string, owned: set<Id>, edges: set<Rid>) {
    forall r :: r in edges ==> r in g.edges && g.edges[r].src in owned && Leaves(g, ws, r, g.edges[r].src)
  }

  /** When everything owned is expanded, a path without interior concept stays inside. */
  lemma {:induction false} PathStaysInside(g: Graph, ws: string, seeds: set<Id>, owned: set<Id>, concepts: set<Id>,
                                           edges: set<Rid>, p: seq<Id>, end: nat)
    requires Sound(g, ws, seeds, owned, concepts) && Closed(g, ws, owned, owned, concepts, edges)
    requires Path(g, ws, seeds, p) && NoConcept(g, p, |p| - 1) && end < |p|
    ensures p[end] in owned + concepts
    ensures end == 0 || !Concept(g, p[end]) ==> p[end] in owned
    decreases end
  {
    if end == 0 {
    } else {
      PathStaysInside(g, ws, seeds, owned, concepts, edges, p, end - 1);
      assert Linked(g, ws, p[end - 1], p[end]);
      var r :| Leaves(g, ws, r, p[end - 1]) && g.edges[r].dst == p[end];
      assert Followed(g, owned, concepts, edges, r);
    }
  }

  lemma CollectedExactly(g: Graph, ws: string, seeds: set<Id>, owned: set<Id>, concepts: set<Id>, edges: set<Rid>)
    requires Sound(g, ws, seeds, owned, concepts) && Closed(g, ws, owned, owned, concepts, edges)
    requires EdgesFrom(g, ws, owned, edges)
    ensures forall n :: n in owned <==> Owned(g, ws, seeds, n)
    ensures forall n :: n in owned + concepts <==> Reached(g, ws, seeds, n)
    ensures forall r :: r in edges <==> r in g.edges && g.edges[r].src in owned && Leaves(g, ws, r, g.edges[r].src)
  {
    forall n | Owned(g, ws, seeds, n) ensures n in owned {
      var p :| OwnedVia(g, ws, seeds, p, n);
      PathStaysInside(g, ws, seeds, owned, concepts, edges, p, |p| - 1);
    }
    forall n | Reached(g, ws, seeds, n) ensures n in owned + concepts {
      var p :| ReachedVia(g, ws, seeds, p, n);
      PathStaysInside(g, ws, seeds, owned, concepts, edges, p, |p| - 1);
    }
    forall n | n in owned ensures Reached(g, ws, seeds, n) {
      OwnedIsReached(g, ws, seeds, n);
    }
    forall r | r in g.edges && g.edges[r].src in owned && Leaves(g, ws, r, g.edges[r].src) ensures r in edges {
      assert Followed(g, owned, concepts, edges, r);
    }
  }

  // ---------------------------------------------------------------- the traversal

  /** One hop: the relationships that leave a frontier node for the workspace, in some order. */
  method Hop(g: Graph, ws: string, frontier: seq<Id>) returns (rows: seq<Rid>)
    ensures forall r :: r in g.edges && g.edges[r].src in frontier && Leaves(g, ws, r, g.edges[r].src) ==> r in rows
    ensures forall i :: 0 <= i < |rows| ==>
              rows[i] in g.edges && g.edges[rows[i]].src in frontier && Leaves(g, ws, rows[i], g.edges[rows[i]].src)
    ensures forall i, j :: 0 <= i < j < |rows| ==> rows[i] != rows[j]
  {
    rows := [];
    var left := g.edges.Keys;
    while left != {}
      invariant left <= g.edges.Keys
      invariant forall r :: r in rows <==>
                  r in g.edges && r !in left && g.edges[r].src in frontier && Leaves(g, ws, r, g.edges[r].src)
      invariant forall i, j :: 0 <= i < j < |rows| ==> rows[i] != rows[j]
      decreases |left|
    {
      var r :| r in left;
      left := left - {r};
      if g.edges[r].src in frontier && Leaves(g, ws, r, g.edges[r].src) {
        rows := rows + [r];
      }
    }
  }

  function SetOf(s: seq<Id>): set<Id> { set n | n in s }

  predicate Distinct(s: seq<Id>) { forall i, j :: 0 <= i < j < |s| ==> s[i] != s[j] }

  lemma SoundHop(g: Graph, ws: string, seeds: set<Id>, owned: set<Id>, concepts: set<Id>, r: Rid)
    requires Sound(g, ws, seeds, owned, concepts) && r in g.edges && g.edges[r].src in owned
    requires Leaves(g, ws, r, g.edges[r].src)
    ensures Reached(g, ws, seeds, g.edges[r].dst)
    ensures !Concept(g, g.edges[r].dst) ==> Owned(g, ws, seeds, g.edges[r].dst)
  {
    assert Linked(g, ws, g.edges[r].src, g.edges[r].dst);
    OneMoreHop(g, ws, seeds, g.edges[r].src, g.edges[r].dst);
  }

  /** What a hop has taken in so far; `next` are the newly owned nodes, in order. */
  datatype Intake = Intake(owned: set<Id>, concepts: set<Id>, edges: set<Rid>, next: seq<Id>)

  ghost predicate IntakeOk(g: Graph, ws: string, seeds: set<Id>, owned0: set<Id>, t: Intake) {
    && Sound(g, ws, seeds, t.owned, t.concepts) && EdgesFrom(g, ws, t.owned, t.edges) && t.owned <= g.nodes.Keys
    && t.owned == owned0 + SetOf(t.next) && owned0 !! SetOf(t.next) && Distinct(t.next)
  }

  predicate Grows(t: Intake, u: Intake) {
    t.owned <= u.owned && t.concepts <= u.concepts && t.edges <= u.edges
  }

  lemma NewConceptOk(g: Graph, ws: string, seeds: set<Id>, owned0: set<Id>, t: Intake, r: Rid)
    requires IntakeOk(g, ws, seeds, owned0, t) && r in g.edges && g.edges[r].src in t.owned
    requires Leaves(g, ws, r, g.edges[r].src) && g.edges[r].dst !in t.owned && Concept(g, g.edges[r].dst)
    ensures IntakeOk(g, ws, seeds, owned0, t.(concepts := t.concepts + {g.edges[r].dst}, edges := t.edges + {r}))
  {
    SoundHop(g, ws, seeds, t.owned, t.concepts, r);
  }

  lemma NewOwnedOk(g: Graph, ws: string, seeds: set<Id>, owned0: set<Id>, t: Intake, r: Rid)
    requires IntakeOk(g, ws, seeds, owned0, t) && r in g.edges && g.edges[r].src in t.owned
    requires Leaves(g, ws, r, g.edges[r].src) && !Concept(g, g.edges[r].dst)
    requires g.edges[r].dst !in t.owned && g.edges[r].dst !in t.concepts
    ensures var b := g.edges[r].dst;
            IntakeOk(g, ws, seeds, owned0, t.(owned := t.owned + {b}, edges := t.edges + {r}, next := t.next + [b]))
  {
    var b := g.edges[r].dst;
    SoundHop(g, ws, seeds, t.owned, t.concepts, r);
    NextGrows(owned0, t.owned, t.next, b);
  }

  lemma NextGrows(owned0: set<Id>, owned: set<Id>, next: seq<Id>, b: Id)
    requires owned == owned0 + SetOf(next) && owned0 !! SetOf(next) && Distinct(next) && b !in owned
    ensures owned + {b} == owned0 + SetOf(next + [b]) && owned0 !! SetOf(next + [b]) && Distinct(next + [b])
  {
    assert SetOf(next + [b]) == SetOf(next) + {b};
    assert b !in SetOf(next);
  }

  /** Take in the end of one row. */
  method Take(g: Graph, ws: string, ghost seeds: set<Id>, ghost owned0: set<Id>, t: Intake, r: Rid) returns (u: Intake)
    requires IntakeOk(g, ws, seeds, owned0, t)
    requires r in g.edges && g.edges[r].src in t.owned && Leaves(g, ws, r, g.edges[r].src)
    ensures IntakeOk(g, ws, seeds, owned0, u) && Grows(t, u) && Followed(g, u.owned, u.concepts, u.edges, r)
  {
    var b := g.edges[r].dst;
    u := t.(edges := t.edges + {r});
    if b !in t.owned && b !in t.concepts {
      if g.nodes[b].concept {
        NewConceptOk(g, ws, seeds, owned0, t, r);
        u := u.(concepts := u.concepts + {b});
      } else {
        NewOwnedOk(g, ws, seeds, owned0, t, r);
        u := u.(owned := u.owned + {b}, next := u.next + [b]);
      }
    }
  }

  /** Take in the ends of the rows of one hop. */
  method Absorb(g: Graph, ws: string, ghost seeds: set<Id>, rows: seq<Rid>, t: Intake) returns (u: Intake)
    requires IntakeOk(g, ws, seeds, t.owned, t) && t.next == []
    requires forall i :: 0 <= i < |rows| ==>
               rows[i] in g.edges && g.edges[rows[i]].src in t.owned && Leaves(g, ws, rows[i], g.edges[rows[i]].src)
    ensures IntakeOk(g, ws, seeds, t.owned, u) && Grows(t, u)
    ensures forall i :: 0 <= i < |rows| ==> Followed(g, u.owned, u.concepts, u.edges, rows[i])
  {
    u := t;
    for i := 0 to |rows|
      invariant IntakeOk(g, ws, seeds, t.owned, u) && Grows(t, u)
      invariant forall k :: 0 <= k < i ==> Followed(g, u.owned, u.concepts, u.edges, rows[k])
    {
      u := Take(g, ws, seeds, t.owned, u, rows[i]);
    }
  }

  /** The frontier search. `order` lists the nodes in the order they are expanded: every
      owned node is expanded, and none twice. */
  method CollectGraphNodeIds(g: Graph, ws: string, seeds: seq<Id>)
    returns (owned: set<Id>, concepts: set<Id>, edgeCount: nat, ghost edges: set<Rid>, ghost order: seq<Id>)
    requires Distinct(seeds) && SetOf(seeds) <= g.nodes.Keys
    ensures forall n :: n in owned <==> Owned(g, ws, SetOf(seeds), n)
    ensures forall n :: n in owned + concepts <==> Reached(g, ws, SetOf(seeds), n)
    ensures owned !! concepts && (forall n :: n in concepts ==> Concept(g, n)) && owned <= g.nodes.Keys
    ensures edgeCount == |edges|
    ensures forall r :: r in edges <==> r in g.edges && g.edges[r].src in owned && Leaves(g, ws, r, g.edges[r].src)
    ensures Distinct(order) && SetOf(order) == owned
  {
    var start := SetOf(seeds);
    owned, concepts, edges, order := start, {}, {}, [];
    var counted: set<Rid> := {};
    var frontier := seeds;
    forall n | n in start ensures Owned(g, ws, start, n) {
      SeedIsOwned(g, ws, start, n);
    }
    while frontier != []
      invariant Sound(g, ws, start, owned, concepts) && EdgesFrom(g, ws, owned, counted) && owned <= g.nodes.Keys
      invariant Closed(g, ws, SetOf(order), owned, concepts, counted)
      invariant Distinct(order + frontier) && SetOf(order + frontier) == owned
      decreases g.nodes.Keys - owned, |frontier|
    {
      var rows := Hop(g, ws, frontier);
      var t := Absorb(g, ws, start, rows, Intake(owned, concepts, counted, []));
      HopCloses(g, ws, order, frontier, owned, concepts, counted, t.owned, t.concepts, t.edges, rows);
      order := order + frontier;
      Appended(order, t.next);
      assert t.next != [] ==> t.next[0] in SetOf(t.next);
      owned, concepts, counted, frontier := t.owned, t.concepts, t.edges, t.next;
    }
    assert order + frontier == order;
    CollectedExactly(g, ws, start, owned, concepts, counted);
    edges, edgeCount := counted, |counted|;
  }

  lemma HopCloses(g: Graph, ws: string, order: seq<Id>, frontier: seq<Id>, owned: set<Id>, concepts: set<Id>,
                  edges: set<Rid>, owned': set<Id>, concepts': set<Id>, edges': set<Rid>, rows: seq<Rid>)
    requires Closed(g, ws, SetOf(order), owned, concepts, edges)
    requires owned <= owned' && concepts <= concepts' && edges <= edges'
    requires forall r :: r in g.edges && g.edges[r].src in frontier && Leaves(g, ws, r, g.edges[r].src) ==> r in rows
    requires forall i :: 0 <= i < |rows| ==> Followed(g, owned', concepts', edges', rows[i])
    ensures Closed(g, ws, SetOf(order + frontier), owned', concepts', edges')
  {
    forall r, a | a in SetOf(order + frontier) && Leaves(g, ws, r, a) ensures Followed(g, owned', concepts', edges', r) {
      if a in SetOf(order) {
        assert Followed(g, owned, concepts, edges, r);
      } else {
        assert a in frontier && r in rows;
      }
    }
  }

  lemma Appended(order: seq<Id>, next: seq<Id>)
    requires Distinct(order) && Distinct(next) && SetOf(order) !! SetOf(next)
    ensures Distinct(order + next) && SetOf(order + next) == SetOf(order) + SetOf(next)
  {
    forall i, j | 0 <= i < j < |order + next| ensures (order + next)[i] != (order + next)[j] {
      if i < |order| <= j {
        assert order[i] in SetOf(order) && next[j - |order|] in SetOf(next);
      }
    }
  }

  // ---------------------------------------------------------------- deletion

  /** Delete nodes together with every relationship at them. */
  function Detach(g: Graph, gone: set<Id>): Graph {
    Graph(g.nodes - gone, map r | r in g.edges && !Incident(g, gone, r) :: g.edges[r])
  }

  predicate Incident(g: Graph, gone: set<Id>, r: Rid) {
    r in g.edges && (g.edges[r].src in gone || g.edges[r].dst in gone)
  }

  function IncidentEdges(g: Graph, gone: set<Id>): set<Rid> { set r | r in g.edges && Incident(g, gone, r) }

  lemma DetachTwice(g: Graph, a: set<Id>, b: set<Id>)
    ensures Detach(Detach(g, a), b) == Detach(g, a + b)
  {
  }

  /** The relationships that go are exactly those counted before the deletion. */
  lemma DetachCount(g: Graph, gone: set<Id>)
    ensures |Detach(g, gone).edges| == |g.edges| - |IncidentEdges(g, gone)|
  {
    assert Detach(g, gone).edges.Keys == g.edges.Keys - IncidentEdges(g, gone);
    assert IncidentEdges(g, gone) <= g.edges.Keys;
    assert |g.edges.Keys - IncidentEdges(g, gone)| == |g.edges.Keys| - |IncidentEdges(g, gone)|;
  }

  method ListOf(s: set<Id>) returns (list: seq<Id>)
    ensures SetOf(list) == s && Distinct(list)
  {
    list := [];
    var left := s;
    while left != {}
      invariant left <= s && SetOf(list) == s - left && Distinct(list)
      decreases |left|
    {
      var n :| n in left;
      assert n !in SetOf(list);
      assert SetOf(list + [n]) == SetOf(list) + {n};
      list, left := list + [n], left - {n};
    }
  }

  /** Delete in batches; the batches together delete the whole list. */
  method DeleteBatches(g: Graph, ids: seq<Id>, size: Id -> nat, max: Limits) returns (g': Graph)
    ensures g' == Detach(g, SetOf(ids))
  {
    var batches := Chunks(ids, size, max);
    g' := g;
    ghost var done: seq<Id> := [];
    assert Detach(g, {}) == g;
    for i := 0 to |batches|
      invariant g' == Detach(g, SetOf(done)) && done + Flatten(batches[i..]) == ids
    {
      assert batches[i..][1..] == batches[i + 1..];
      DetachTwice(g, SetOf(done), SetOf(batches[i]));
      assert SetOf(done + batches[i]) == SetOf(done) + SetOf(batches[i]);
      g' := Detach(g', SetOf(batches[i]));
      done := done + batches[i];
    }
    assert done == ids;
  }

  /** Only a seed can be a concept and yet owned. */
  lemma OwnedConceptIsSeed(g: Graph, ws: string, seeds: set<Id>, n: Id)
    requires Owned(g, ws, seeds, n) && Concept(g, n)
    ensures n in seeds
  {
    var p :| OwnedVia(g, ws, seeds, p, n);
  }

  datatype Deleted = Deleted(nodes: nat, relationships: nat)

  /** Deletes exactly the owned nodes and the relationships at them, reports their numbers,
      and passes its own two checks. Every concept that is not itself a seed survives. */
  method DeleteSessionGraph(g: Graph, ws: string, seeds: seq<Id>, size: Id -> nat, max: Limits)
    returns (g': Graph, report: Deleted, verified: bool)
    requires Distinct(seeds) && SetOf(seeds) <= g.nodes.Keys
    ensures forall n :: n in g'.nodes <==> n in g.nodes && !Owned(g, ws, SetOf(seeds), n)
    ensures forall n :: n in g'.nodes ==> g'.nodes[n] == g.nodes[n]
    ensures forall r :: r in g'.edges <==>
              && r in g.edges && !Owned(g, ws, SetOf(seeds), g.edges[r].src)
              && !Owned(g, ws, SetOf(seeds), g.edges[r].dst)
    ensures forall n :: Concept(g, n) && n !in seeds ==> n in g'.nodes
    ensures report.nodes == |g.nodes| - |g'.nodes| && report.relationships == |g.edges| - |g'.edges|
    ensures verified
  {
    var owned, concepts, _, _, _ := CollectGraphNodeIds(g, ws, seeds);
    if owned == {} {
      return g, Deleted(0, 0), true;
    }
    var relationships := |IncidentEdges(g, owned)|;
    var ids := ListOf(owned);
    g' := DeleteBatches(g, ids, size, max);
    DetachCount(g, owned);
    assert g'.nodes.Keys == g.nodes.Keys - owned;
    assert |g.nodes.Keys - owned| == |g.nodes.Keys| - |owned|;
    forall n | Concept(g, n) && n !in seeds ensures n in g'.nodes {
      if n in owned { OwnedConceptIsSeed(g, ws, SetOf(seeds), n); }
    }
    verified := owned !! g'.nodes.Keys && concepts <= g'.nodes.Keys;
    report := Deleted(|owned|, relationships);
  }
}
