/** What a failed flush and a retry make of writes that were buffered in between.

    The failed attempt restores what it took under whatever was buffered since, whole entry
    by whole entry. So the retry writes, for each node and each pair of ends, the later entry
    alone. This says exactly when the database nevertheless ends as if nothing had failed.
 */
module GraphRestore {
  import opened Options
  import opened GraphFlush

  // ---------------------------------------------------------------- properties of a merged node

  predicate Filled(data: Props, key: string) { key in data && data[key] != "" }

  /** What a row writes whatever is there. */
  function Sets(w: Writer, e: Entry, q: string): Option<Value> {
    if q == "workspace" then Some(w.workspace)
    else if q in e.data && q !in HELD_OUT then Some(e.data[q])
    else None
  }

  /** What a session row fills in where nothing is there. */
  function Fills(e: Entry, q: string): Option<Value> {
    if !IsSession(e) then None
    else if q == "working_dir" && Filled(e.data, "working_dir") then Some(e.data["working_dir"])
    else if q == "status" && Filled(e.data, "status_if_absent") then Some(e.data["status_if_absent"])
    else None
  }

  function PropAfter(w: Writer, e: Entry, q: string, was: Option<Value>): Option<Value> {
    if Sets(w, e, q).Some? then Sets(w, e, q) else if was.Some? then was else Fills(e, q)
  }

  function NodeBase(w: Writer, id: Id, was: Option<Props>): Props {
    if was.Some? then was.value else NewNode(w, id)
  }

  lemma MergedProperty(w: Writer, id: Id, was: Option<Props>, e: Entry, q: string)
    ensures Get(MergedNode(w, id, was, e), q) == PropAfter(w, e, q, Get(NodeBase(w, id, was), q))
  {
  }

  lemma SameProps(a: Props, b: Props)
    ensures a == b <==> forall q :: Get(a, q) == Get(b, q)
  {
    if forall q :: Get(a, q) == Get(b, q) {
      forall q ensures (q in a <==> q in b) && (q in a ==> a[q] == b[q]) { assert Get(a, q) == Get(b, q); }
    }
  }

  /** A property does not miss the earlier write: the later one sets it itself, or the
      earlier one left it as it was, or nothing was there and the later one fills in the
      same value. */
  predicate Unmissed(w: Writer, taken: Entry, later: Entry, q: string, was: Option<Value>) {
    || Sets(w, later, q).Some?
    || PropAfter(w, taken, q, was) == was
    || (was.None? && Fills(later, q) == PropAfter(w, taken, q, was))
  }

  lemma UnmissedIff(w: Writer, taken: Entry, later: Entry, q: string, was: Option<Value>)
    ensures PropAfter(w, later, q, was) == PropAfter(w, later, q, PropAfter(w, taken, q, was)) <==>
            Unmissed(w, taken, later, q, was)
  {
  }

  /** A node written from the later entry alone is the node written from both in turn. */
  ghost predicate NodeUnmissed(w: Writer, id: Id, was: Option<Props>, taken: Entry, later: Entry) {
    forall q :: Unmissed(w, taken, later, q, Get(NodeBase(w, id, was), q))
  }

  lemma NodeUnmissedIff(w: Writer, id: Id, was: Option<Props>, taken: Entry, later: Entry)
    ensures MergedNode(w, id, was, later) == MergedNode(w, id, Some(MergedNode(w, id, was, taken)), later) <==>
            NodeUnmissed(w, id, was, taken, later)
  {
    var alone, both := MergedNode(w, id, was, later), MergedNode(w, id, Some(MergedNode(w, id, was, taken)), later);
    SameProps(alone, both);
    forall q ensures Get(alone, q) == Get(both, q) <==> Unmissed(w, taken, later, q, Get(NodeBase(w, id, was), q)) {
      MergedProperty(w, id, was, later, q);
      MergedProperty(w, id, was, taken, q);
      MergedProperty(w, id, Some(MergedNode(w, id, was, taken)), later, q);
      UnmissedIff(w, taken, later, q, Get(NodeBase(w, id, was), q));
    }
  }

  // ---------------------------------------------------------------- properties of a merged relationship

  function EdgeSets(w: Writer, ends: Pair, data: Props, q: string): Option<Value> {
    if q == "dst_id" then Some(ends.dst)
    else if q == "src_id" then Some(ends.src)
    else if q == "workspace" then Some(w.workspace)
    else if q in data && q != "type" && q != "created_by" then Some(data[q])
    else None
  }

  function EdgeBase(w: Writer, was: Option<Props>): Props {
    if was.Some? then was.value else map["created_by" := w.createdBy]
  }

  function EdgePropAfter(w: Writer, ends: Pair, data: Props, q: string, was: Option<Value>): Option<Value> {
    if EdgeSets(w, ends, data, q).Some? then EdgeSets(w, ends, data, q) else was
  }

  lemma MergedEdgeProperty(w: Writer, k: EdgeKey, was: Option<Props>, data: Props, q: string)
    ensures Get(MergedEdge(w, k, was, data), q) == EdgePropAfter(w, k.ends, data, q, Get(EdgeBase(w, was), q))
  {
  }

  /** Every property of the earlier write is set by the later one, or was there already. */
  ghost predicate EdgeUnmissed(w: Writer, k: EdgeKey, was: Option<Props>, taken: Props, later: Props) {
    forall q :: EdgeSets(w, k.ends, later, q).Some? || EdgeSets(w, k.ends, taken, q).None?
                || EdgeSets(w, k.ends, taken, q) == Get(EdgeBase(w, was), q)
  }

  lemma EdgeUnmissedIff(w: Writer, k: EdgeKey, was: Option<Props>, taken: Props, later: Props)
    ensures MergedEdge(w, k, was, later) == MergedEdge(w, k, Some(MergedEdge(w, k, was, taken)), later) <==>
            EdgeUnmissed(w, k, was, taken, later)
  {
    var alone, both := MergedEdge(w, k, was, later), MergedEdge(w, k, Some(MergedEdge(w, k, was, taken)), later);
    SameProps(alone, both);
    forall q ensures Get(alone, q) == Get(both, q) <==>
                     EdgeSets(w, k.ends, later, q).Some? || EdgeSets(w, k.ends, taken, q).None?
                     || EdgeSets(w, k.ends, taken, q) == Get(EdgeBase(w, was), q)
    {
      MergedEdgeProperty(w, k, was, later, q);
      MergedEdgeProperty(w, k, was, taken, q);
      MergedEdgeProperty(w, k, Some(MergedEdge(w, k, was, taken)), later, q);
    }
  }

  /** The relationship was there with every property the write sets. */
  ghost predicate EdgeThere(w: Writer, k: EdgeKey, was: Option<Props>, taken: Props) {
    was.Some? && forall q :: EdgeSets(w, k.ends, taken, q).None? || EdgeSets(w, k.ends, taken, q) == Get(was.value, q)
  }

  lemma EdgeThereIff(w: Writer, k: EdgeKey, was: Option<Props>, taken: Props)
    ensures was == Some(MergedEdge(w, k, was, taken)) <==> EdgeThere(w, k, was, taken)
  {
    if was.Some? {
      var merged := MergedEdge(w, k, was, taken);
      SameProps(was.value, merged);
      forall q ensures Get(was.value, q) == Get(merged, q) <==>
                       EdgeSets(w, k.ends, taken, q).None? || EdgeSets(w, k.ends, taken, q) == Get(was.value, q)
      {
        MergedEdgeProperty(w, k, was, taken, q);
      }
    }
  }

  lemma JoinedProperty(w: Writer, ends: Pair, first: Props, second: Props, q: string, was: Option<Value>)
    ensures EdgePropAfter(w, ends, first + second, q, was) ==
            EdgePropAfter(w, ends, second, q, EdgePropAfter(w, ends, first, q, was))
  {
  }

  lemma BufferedLikeWritten(w: Writer, k: EdgeKey, was: Option<Props>, first: Props, second: Props)
    ensures MergedEdge(w, k, was, first + second) == MergedEdge(w, k, Some(MergedEdge(w, k, was, first)), second)
  {
    var once, twice := MergedEdge(w, k, was, first + second), MergedEdge(w, k, was, first);
    var both := MergedEdge(w, k, Some(twice), second);
    SameProps(once, both);
    forall q ensures Get(once, q) == Get(both, q) {
      MergedEdgeProperty(w, k, was, first + second, q);
      MergedEdgeProperty(w, k, was, first, q);
      MergedEdgeProperty(w, k, Some(twice), second, q);
      JoinedProperty(w, k.ends, first, second, q, Get(EdgeBase(w, was), q));
    }
  }

  // ---------------------------------------------------------------- tables, key by key

  function Placeholder(w: Writer, id: Id): Props { map["node_id" := id, "workspace" := w.workspace] }

  /** One node after some node rows, with a bare node where only a relationship needs it. */
  function Written(w: Writer, id: Id, was: Option<Props>, rows: map<Id, Entry>, ids: set<Id>): Option<Props> {
    if id in rows then Some(MergedNode(w, id, was, rows[id]))
    else if was.Some? then was
    else if id in ids then Some(Placeholder(w, id)) else None
  }

  lemma NodeAt(w: Writer, nodes: map<Id, Props>, rows: map<Id, Entry>, ids: set<Id>, id: Id)
    ensures Get(NodeTable(w, nodes, rows, ids), id) == Written(w, id, Get(nodes, id), rows, ids)
  {
  }

  predicate HasRow(buffer: map<Pair, Props>, k: EdgeKey) { k.ends in buffer && Kind(buffer[k.ends]) == k.kind }

  lemma RowsOf(buffer: map<Pair, Props>, k: EdgeKey)
    ensures k in EdgeRows(buffer) <==> HasRow(buffer, k)
    ensures HasRow(buffer, k) ==> EdgeRows(buffer)[k] == buffer[k.ends]
  {
    if HasRow(buffer, k) {
      assert EdgeKey(k.ends, Kind(buffer[k.ends])) == k;
    }
  }

  function Related(w: Writer, k: EdgeKey, was: Option<Props>, buffer: map<Pair, Props>): Option<Props> {
    if HasRow(buffer, k) then Some(MergedEdge(w, k, was, buffer[k.ends])) else was
  }

  lemma EdgeAt(w: Writer, edges: map<EdgeKey, Props>, buffer: map<Pair, Props>, k: EdgeKey)
    ensures Get(Apply(EdgeRow(w), edges, EdgeRows(buffer)), k) == Related(w, k, Get(edges, k), buffer)
  {
    RowsOf(buffer, k);
  }

  lemma JoinedRow(w: Writer, k: EdgeKey, was: Option<Props>, buffer: map<Pair, Props>, ends: Pair, data: Props)
    requires ends in buffer ==> Kind(data) == Kind(buffer[ends])
    ensures Related(w, k, was, buffer[ends := (if ends in buffer then buffer[ends] else map[]) + data]) ==
            Related(w, k, Related(w, k, was, buffer), map[ends := data])
  {
    if k.ends == ends {
      if ends in buffer {
        BufferedLikeWritten(w, k, was, buffer[ends], data);
      } else {
        assert map[] + data == data;
      }
    }
  }

  lemma SameTable<K(!new), V(!new)>(a: map<K, V>, b: map<K, V>)
    ensures a == b <==> forall k :: Get(a, k) == Get(b, k)
  {
    if forall k :: Get(a, k) == Get(b, k) {
      forall k ensures (k in a <==> k in b) && (k in a ==> a[k] == b[k]) { assert Get(a, k) == Get(b, k); }
    }
  }

  /** Buffering a second piece of a relationship of the same type, and flushing, leaves what
      flushing both pieces one after the other would have left. */
  lemma BufferedLikeFlushed(w: Writer, edges: map<EdgeKey, Props>, buffer: map<Pair, Props>, ends: Pair, data: Props)
    requires ends in buffer ==> Kind(data) == Kind(buffer[ends])
    ensures Apply(EdgeRow(w), edges, EdgeRows(buffer[ends := (if ends in buffer then buffer[ends] else map[]) + data])) ==
            Apply(EdgeRow(w), Apply(EdgeRow(w), edges, EdgeRows(buffer)), EdgeRows(map[ends := data]))
  {
    var first := if ends in buffer then buffer[ends] else map[];
    var joined := buffer[ends := first + data];
    var flushed := Apply(EdgeRow(w), edges, EdgeRows(buffer));
    var once, twice := Apply(EdgeRow(w), edges, EdgeRows(joined)), Apply(EdgeRow(w), flushed, EdgeRows(map[ends := data]));
    SameTable(once, twice);
    forall k ensures Get(once, k) == Get(twice, k) {
      EdgeAt(w, edges, joined, k);
      EdgeAt(w, edges, buffer, k);
      EdgeAt(w, flushed, map[ends := data], k);
      JoinedRow(w, k, Get(edges, k), buffer, ends, data);
    }
  }

  function EndsOf(buffer: map<Pair, Props>): set<Id> {
    (set e | e in buffer :: e.src) + (set e | e in buffer :: e.dst)
  }

  lemma EndpointsOfRows(buffer: map<Pair, Props>)
    ensures Endpoints(EdgeRows(buffer).Keys) == EndsOf(buffer)
  {
    var keys := EdgeRows(buffer).Keys;
    forall id | id in EndsOf(buffer) ensures id in Endpoints(keys) {
      var e :| e in buffer && (e.src == id || e.dst == id);
      RowsOf(buffer, EdgeKey(e, Kind(buffer[e])));
      assert EdgeKey(e, Kind(buffer[e])) in keys;
    }
    forall id | id in Endpoints(keys) ensures id in EndsOf(buffer) {
      var k :| k in keys && (k.ends.src == id || k.ends.dst == id);
      RowsOf(buffer, k);
    }
  }

  lemma EndsOfBoth(a: map<Pair, Props>, b: map<Pair, Props>)
    ensures EndsOf(a + b) == EndsOf(a) + EndsOf(b)
  {
    forall id | id in EndsOf(a) + EndsOf(b) ensures id in EndsOf(a + b) {
      var e :| (e in a || e in b) && (e.src == id || e.dst == id);
      assert e in a + b;
    }
  }

  // ---------------------------------------------------------------- failure, newer writes, retry

  /** A flush of `nodes` and `edges` stops at `reached`; `newNodes` and `newEdges` are
      buffered meanwhile; the buffers are restored, and flushed. */
  ghost function Retried(w: Writer, db: Db, nodes: map<Id, Entry>, edges: map<Pair, Props>, reached: Attempt,
                         newNodes: map<Id, Entry>, newEdges: map<Pair, Props>): Db {
    Flushed(w, After(w, db, nodes, EdgeRows(edges), reached), nodes + newNodes, EdgeRows(edges + newEdges))
  }

  /** The same without a failure. */
  ghost function Clean(w: Writer, db: Db, nodes: map<Id, Entry>, edges: map<Pair, Props>,
                       newNodes: map<Id, Entry>, newEdges: map<Pair, Props>): Db {
    Flushed(w, Flushed(w, db, nodes, EdgeRows(edges)), newNodes, EdgeRows(newEdges))
  }

  /** The ends whose relationship rows the failed attempt had written. */
  ghost function EndsReached(edges: map<Pair, Props>, reached: Attempt): set<Id> {
    Endpoints(Only(EdgeRows(edges), reached.edges).Keys)
  }

  /** A node misses nothing: it was not written again; or its earlier row had been written,
      or is not missed; or, if only the later row exists, it does not hide that the earlier
      flush would first have made a bare node, as an end of a relationship. */
  ghost predicate NodeKept(w: Writer, db: Db, nodes: map<Id, Entry>, edges: map<Pair, Props>, reached: Attempt,
                           newNodes: map<Id, Entry>, id: Id) {
    id in newNodes ==>
      if id in nodes then id in reached.nodes || NodeUnmissed(w, id, Get(db.nodes, id), nodes[id], newNodes[id])
      else id in db.nodes || id !in EndsOf(edges) || id in EndsReached(edges, reached)
  }

  lemma NoEndsReached(edges: map<Pair, Props>, reached: Attempt)
    requires reached.edges == {}
    ensures EndsReached(edges, reached) == {}
  {
    assert Only(EdgeRows(edges), reached.edges).Keys == {};
  }

  /** The node after the retry, and without a failure. */
  ghost function NodeRetried(w: Writer, db: Db, nodes: map<Id, Entry>, edges: map<Pair, Props>, reached: Attempt,
                             newNodes: map<Id, Entry>, newEdges: map<Pair, Props>, id: Id): Option<Props> {
    Written(w, id, Written(w, id, Get(db.nodes, id), Only(nodes, reached.nodes), EndsReached(edges, reached)),
            nodes + newNodes, EndsOf(edges) + EndsOf(newEdges))
  }

  ghost function NodeClean(w: Writer, db: Db, nodes: map<Id, Entry>, edges: map<Pair, Props>,
                           newNodes: map<Id, Entry>, newEdges: map<Pair, Props>, id: Id): Option<Props> {
    Written(w, id, Written(w, id, Get(db.nodes, id), nodes, EndsOf(edges)), newNodes, EndsOf(newEdges))
  }

  lemma NodeAfterFailure(w: Writer, db: Db, nodes: map<Id, Entry>, edges: map<Pair, Props>, reached: Attempt, id: Id)
    ensures Get(After(w, db, nodes, EdgeRows(edges), reached).nodes, id) ==
            Written(w, id, Get(db.nodes, id), Only(nodes, reached.nodes), EndsReached(edges, reached))
  {
    NodeAt(w, db.nodes, Only(nodes, reached.nodes), EndsReached(edges, reached), id);
  }

  lemma NodeAfterRetry(w: Writer, failed: Db, nodes: map<Id, Entry>, edges: map<Pair, Props>,
                       newNodes: map<Id, Entry>, newEdges: map<Pair, Props>, id: Id)
    ensures Get(Flushed(w, failed, nodes + newNodes, EdgeRows(edges + newEdges)).nodes, id) ==
            Written(w, id, Get(failed.nodes, id), nodes + newNodes, EndsOf(edges) + EndsOf(newEdges))
  {
    EndpointsOfRows(edges + newEdges);
    EndsOfBoth(edges, newEdges);
    NodeAt(w, failed.nodes, nodes + newNodes, EndsOf(edges + newEdges), id);
  }

  lemma NodeAfterFlush(w: Writer, db: Db, nodes: map<Id, Entry>, edges: map<Pair, Props>, id: Id)
    ensures Get(Flushed(w, db, nodes, EdgeRows(edges)).nodes, id) ==
            Written(w, id, Get(db.nodes, id), nodes, EndsOf(edges))
  {
    EndpointsOfRows(edges);
    NodeAt(w, db.nodes, nodes, EndsOf(edges), id);
  }

  /** Whether a node was merged onto a bare one shows in who created it. */
  lemma BareNodeShows(w: Writer, id: Id, e: Entry)
    ensures MergedNode(w, id, Some(Placeholder(w, id)), e) != MergedNode(w, id, None, e)
  {
    MergedProperty(w, id, Some(Placeholder(w, id)), e, "created_by");
    MergedProperty(w, id, None, e, "created_by");
  }

  lemma ReachedEndsAreEnds(edges: map<Pair, Props>, reached: Attempt)
    ensures EndsReached(edges, reached) <= EndsOf(edges)
  {
    EndpointsOfRows(edges);
    EndpointsSum(Only(EdgeRows(edges), reached.edges).Keys, EdgeRows(edges).Keys);
    assert Only(EdgeRows(edges), reached.edges).Keys + EdgeRows(edges).Keys == EdgeRows(edges).Keys;
  }

  /** The two outcomes for one node, from what was there: `some` of `nodes` and `someEnds` of
      `ends` had been written when the first attempt failed. */
  lemma NodeKeptAt(w: Writer, id: Id, was: Option<Props>, nodes: map<Id, Entry>, some: set<Id>, newNodes: map<Id, Entry>,
                   ends: set<Id>, someEnds: set<Id>, newEnds: set<Id>)
    requires someEnds <= ends && (id in nodes && id !in some ==> someEnds == {})
    ensures Written(w, id, Written(w, id, was, Only(nodes, some), someEnds), nodes + newNodes, ends + newEnds) ==
            Written(w, id, Written(w, id, was, nodes, ends), newNodes, newEnds) <==>
            (id in newNodes ==>
               if id in nodes then id in some || NodeUnmissed(w, id, was, nodes[id], newNodes[id])
               else was.Some? || id !in ends || id in someEnds)
  {
    if id in newNodes {
      if id in nodes {
        NodeUnmissedIff(w, id, was, nodes[id], newNodes[id]);
      } else {
        BareNodeShows(w, id, newNodes[id]);
      }
    } else if id in nodes {
      NodeRowIdempotent(w, id, was, nodes[id]);
    }
  }

  lemma NodeKeptIff(w: Writer, db: Db, nodes: map<Id, Entry>, edges: map<Pair, Props>, reached: Attempt,
                    newNodes: map<Id, Entry>, newEdges: map<Pair, Props>, id: Id)
    requires Ordered(nodes, reached)
    ensures NodeRetried(w, db, nodes, edges, reached, newNodes, newEdges, id) ==
            NodeClean(w, db, nodes, edges, newNodes, newEdges, id) <==>
            NodeKept(w, db, nodes, edges, reached, newNodes, id)
  {
    ReachedEndsAreEnds(edges, reached);
    if reached.edges == {} { NoEndsReached(edges, reached); }
    NodeKeptAt(w, id, Get(db.nodes, id), nodes, reached.nodes, newNodes, EndsOf(edges), EndsReached(edges, reached), EndsOf(newEdges));
  }

  lemma NodesKeptIff(w: Writer, db: Db, nodes: map<Id, Entry>, edges: map<Pair, Props>, reached: Attempt,
                     newNodes: map<Id, Entry>, newEdges: map<Pair, Props>, retried: map<Id, Props>, clean: map<Id, Props>)
    requires Ordered(nodes, reached)
    requires forall id :: Get(retried, id) ==
               NodeRetried(w, db, nodes, edges, reached, newNodes, newEdges, id)
    requires forall id :: Get(clean, id) ==
               NodeClean(w, db, nodes, edges, newNodes, newEdges, id)
    ensures retried == clean <==> forall id :: NodeKept(w, db, nodes, edges, reached, newNodes, id)
  {
    SameTable(retried, clean);
    forall id ensures Get(retried, id) == Get(clean, id) <==> NodeKept(w, db, nodes, edges, reached, newNodes, id) {
      NodeKeptIff(w, db, nodes, edges, reached, newNodes, newEdges, id);
    }
  }

  /** A relationship misses nothing: its ends were not written again; or its earlier row had
      been written, or is not missed, or was there before if the type has changed since. */
  ghost predicate EdgeKept(w: Writer, db: Db, edges: map<Pair, Props>, reached: Attempt, newEdges: map<Pair, Props>,
                           k: EdgeKey) {
    HasRow(edges, k) && k.ends in newEdges ==>
      || k in reached.edges
      || (if HasRow(newEdges, k) then EdgeUnmissed(w, k, Get(db.edges, k), edges[k.ends], newEdges[k.ends])
          else EdgeThere(w, k, Get(db.edges, k), edges[k.ends]))
  }

  lemma EdgeRowIdempotent(w: Writer, k: EdgeKey, was: Option<Props>, data: Props)
    ensures MergedEdge(w, k, Some(MergedEdge(w, k, was, data)), data) == MergedEdge(w, k, was, data)
  {
    RowsAreIdempotent(w);
    assert EdgeRow(w)(k, Some(EdgeRow(w)(k, was, data)), data) == EdgeRow(w)(k, was, data);
  }

  /** The relationship after the retry, and without a failure. */
  function EdgeRetried(w: Writer, db: Db, edges: map<Pair, Props>, reached: Attempt, newEdges: map<Pair, Props>,
                       k: EdgeKey): Option<Props> {
    var was := Get(db.edges, k);
    Related(w, k, if k in reached.edges then Related(w, k, was, edges) else was, edges + newEdges)
  }

  function EdgeClean(w: Writer, db: Db, edges: map<Pair, Props>, newEdges: map<Pair, Props>, k: EdgeKey): Option<Props> {
    Related(w, k, Related(w, k, Get(db.edges, k), edges), newEdges)
  }

  lemma EdgeAfterFailure(w: Writer, db: Db, nodes: map<Id, Entry>, edges: map<Pair, Props>, reached: Attempt, k: EdgeKey)
    ensures Get(After(w, db, nodes, EdgeRows(edges), reached).edges, k) ==
            if k in reached.edges then Related(w, k, Get(db.edges, k), edges) else Get(db.edges, k)
  {
    RowsOf(edges, k);
  }

  lemma EdgeKeptIff(w: Writer, db: Db, edges: map<Pair, Props>, reached: Attempt, newEdges: map<Pair, Props>, k: EdgeKey)
    ensures EdgeRetried(w, db, edges, reached, newEdges, k) ==
            EdgeClean(w, db, edges, newEdges, k) <==>
            EdgeKept(w, db, edges, reached, newEdges, k)
  {
    if HasRow(edges, k) {
      if k.ends !in newEdges {
        EdgeRowIdempotent(w, k, Get(db.edges, k), edges[k.ends]);
      } else if HasRow(newEdges, k) {
        EdgeUnmissedIff(w, k, Get(db.edges, k), edges[k.ends], newEdges[k.ends]);
      } else {
        EdgeThereIff(w, k, Get(db.edges, k), edges[k.ends]);
      }
    }
  }

  lemma EdgesKeptIff(w: Writer, db: Db, edges: map<Pair, Props>, reached: Attempt, newEdges: map<Pair, Props>,
                     retried: map<EdgeKey, Props>, clean: map<EdgeKey, Props>)
    requires forall k :: Get(retried, k) ==
               EdgeRetried(w, db, edges, reached, newEdges, k)
    requires forall k :: Get(clean, k) == EdgeClean(w, db, edges, newEdges, k)
    ensures retried == clean <==> forall k :: EdgeKept(w, db, edges, reached, newEdges, k)
  {
    SameTable(retried, clean);
    forall k ensures Get(retried, k) == Get(clean, k) <==> EdgeKept(w, db, edges, reached, newEdges, k) {
      EdgeKeptIff(w, db, edges, reached, newEdges, k);
    }
  }

  lemma RetriedTables(w: Writer, db: Db, nodes: map<Id, Entry>, edges: map<Pair, Props>, reached: Attempt,
                      newNodes: map<Id, Entry>, newEdges: map<Pair, Props>, retried: Db)
    requires retried == Retried(w, db, nodes, edges, reached, newNodes, newEdges)
    ensures forall id :: Get(retried.nodes, id) == NodeRetried(w, db, nodes, edges, reached, newNodes, newEdges, id)
    ensures forall k :: Get(retried.edges, k) == EdgeRetried(w, db, edges, reached, newEdges, k)
  {
    forall id ensures Get(retried.nodes, id) == NodeRetried(w, db, nodes, edges, reached, newNodes, newEdges, id) {
      NodeAfterFailure(w, db, nodes, edges, reached, id);
      NodeAfterRetry(w, After(w, db, nodes, EdgeRows(edges), reached), nodes, edges, newNodes, newEdges, id);
    }
    forall k ensures Get(retried.edges, k) == EdgeRetried(w, db, edges, reached, newEdges, k) {
      EdgeAfterFailure(w, db, nodes, edges, reached, k);
      EdgeAt(w, After(w, db, nodes, EdgeRows(edges), reached).edges, edges + newEdges, k);
    }
  }

  lemma CleanTables(w: Writer, db: Db, nodes: map<Id, Entry>, edges: map<Pair, Props>,
                    newNodes: map<Id, Entry>, newEdges: map<Pair, Props>, clean: Db)
    requires clean == Clean(w, db, nodes, edges, newNodes, newEdges)
    ensures forall id :: Get(clean.nodes, id) == NodeClean(w, db, nodes, edges, newNodes, newEdges, id)
    ensures forall k :: Get(clean.edges, k) == EdgeClean(w, db, edges, newEdges, k)
  {
    forall id ensures Get(clean.nodes, id) == NodeClean(w, db, nodes, edges, newNodes, newEdges, id) {
      NodeAfterFlush(w, db, nodes, edges, id);
      NodeAfterFlush(w, Flushed(w, db, nodes, EdgeRows(edges)), newNodes, newEdges, id);
    }
    forall k ensures Get(clean.edges, k) == EdgeClean(w, db, edges, newEdges, k) {
      EdgeAt(w, db.edges, edges, k);
      EdgeAt(w, Flushed(w, db, nodes, EdgeRows(edges)).edges, newEdges, k);
    }
  }

  /** Wherever the first attempt stopped: the database after the retry is the one that no
      failure would have left, if and only if no node and no relationship misses its earlier
      row. */
  lemma RetryIsCleanIff(w: Writer, db: Db, nodes: map<Id, Entry>, edges: map<Pair, Props>, reached: Attempt,
                        newNodes: map<Id, Entry>, newEdges: map<Pair, Props>)
    requires Ordered(nodes, reached)
    ensures Retried(w, db, nodes, edges, reached, newNodes, newEdges) == Clean(w, db, nodes, edges, newNodes, newEdges) <==>
            && (forall id :: NodeKept(w, db, nodes, edges, reached, newNodes, id))
            && (forall k :: EdgeKept(w, db, edges, reached, newEdges, k))
  {
    var retried, clean := Retried(w, db, nodes, edges, reached, newNodes, newEdges), Clean(w, db, nodes, edges, newNodes, newEdges);
    RetriedTables(w, db, nodes, edges, reached, newNodes, newEdges, retried);
    CleanTables(w, db, nodes, edges, newNodes, newEdges, clean);
    NodesKeptIff(w, db, nodes, edges, reached, newNodes, newEdges, retried.nodes, clean.nodes);
    EdgesKeptIff(w, db, edges, reached, newEdges, retried.edges, clean.edges);
  }

  // ---------------------------------------------------------------- counterexamples

  const NOTHING := Attempt({}, {})

  /** The first attempt fails before it writes anything, and a second piece of the node that
      is about something else is buffered. */
  lemma RetryCanLoseAProperty(w: Writer, db: Db)
    requires "n" !in db.nodes
    ensures var taken, later := map["n" := Entry([], map["tool" := "bash"])], map["n" := Entry([], map["ended" := "yes"])];
            Retried(w, db, taken, map[], NOTHING, later, map[]) != Clean(w, db, taken, map[], later, map[])
  {
    var first, second := Entry([], map["tool" := "bash"]), Entry([], map["ended" := "yes"]);
    var taken, later := map["n" := first], map["n" := second];
    assert !Unmissed(w, first, second, "tool", Get(NodeBase(w, "n", Get(db.nodes, "n")), "tool"));
    assert !NodeKept(w, db, taken, map[], NOTHING, later, "n");
    RetryIsCleanIff(w, db, taken, map[], NOTHING, later, map[]);
  }

  /** So it is with the directory of a new session, unless the later row fills in the same. */
  lemma RetryCanLoseTheWorkingDir(w: Writer, db: Db, id: Id, taken: Entry, later: Entry)
    requires id !in db.nodes && IsSession(taken) && Filled(taken.data, "working_dir")
    requires Fills(later, "working_dir") != Fills(taken, "working_dir")
    ensures Retried(w, db, map[id := taken], map[], NOTHING, map[id := later], map[]) !=
            Clean(w, db, map[id := taken], map[], map[id := later], map[])
  {
    assert !Unmissed(w, taken, later, "working_dir", Get(NodeBase(w, id, Get(db.nodes, id)), "working_dir"));
    assert !NodeKept(w, db, map[id := taken], map[], NOTHING, map[id := later], id);
    RetryIsCleanIff(w, db, map[id := taken], map[], NOTHING, map[id := later], map[]);
  }

  /** A whole relationship is lost when the pair is buffered anew with another type. */
  lemma RetryCanLoseARelationship(w: Writer, db: Db)
    requires EdgeKey(Pair("a", "b"), "CALLS") !in db.edges
    ensures var taken, later := map[Pair("a", "b") := map["type" := "CALLS"]], map[Pair("a", "b") := map["type" := "USES"]];
            Retried(w, db, map[], taken, NOTHING, map[], later) != Clean(w, db, map[], taken, map[], later)
  {
    var taken, later := map[Pair("a", "b") := map["type" := "CALLS"]], map[Pair("a", "b") := map["type" := "USES"]];
    assert !EdgeKept(w, db, taken, NOTHING, later, EdgeKey(Pair("a", "b"), "CALLS"));
    RetryIsCleanIff(w, db, map[], taken, NOTHING, map[], later);
  }
}
