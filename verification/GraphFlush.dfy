/** The graph store's write buffers, and a flush that may fail between any two chunks.

    A flush takes the buffers, writes the rows chunk by chunk, each chunk in a transaction
    of its own, and on failure puts what it took back under whatever was buffered since.
    The database is modelled as the properties of its nodes and relationships.
 */
module GraphFlush {
  import opened Chunking
  import opened Options

  type Id = string
  type Value = string
  type Props = map<string, Value>

  /** A buffered node: its labels, each once, and its data. */
  datatype Entry = Entry(labels: seq<string>, data: Props)

  datatype Pair = Pair(src: Id, dst: Id)
  datatype EdgeKey = EdgeKey(ends: Pair, kind: string)
  datatype Db = Db(nodes: map<Id, Props>, edges: map<EdgeKey, Props>)

  /** Who writes, and for which workspace. */
  datatype Writer = Writer(workspace: Value, createdBy: Value)

  const DEFAULT_EDGE := "RELATED"
  const HELD_OUT := {"created_by", "working_dir", "status_if_absent"}

  // ---------------------------------------------------------------- one row

  predicate IsSession(e: Entry) { "Session" in e.labels }

  function BuildProps(w: Writer, data: Props): Props { (data - HELD_OUT)["workspace" := w.workspace] }

  /** Fill a property only where it is missing; an empty value fills nothing. */
  function Coalesce(p: Props, key: string, data: Props, from: string): Props {
    if key !in p && from in data && data[from] != "" then p[key := data[from]] else p
  }

  function NewNode(w: Writer, id: Id): Props {
    map["node_id" := id, "workspace" := w.workspace, "created_by" := w.createdBy]
  }

  /** What the merge of one node row leaves, from what was there. */
  function MergedNode(w: Writer, id: Id, was: Option<Props>, e: Entry): Props {
    var base := (if was.Some? then was.value else NewNode(w, id)) + BuildProps(w, e.data);
    if IsSession(e) then Coalesce(Coalesce(base, "working_dir", e.data, "working_dir"), "status", e.data, "status_if_absent")
    else base
  }

  /** Writing a node row twice is writing it once. */
  lemma NodeRowIdempotent(w: Writer, id: Id, was: Option<Props>, e: Entry)
    ensures MergedNode(w, id, Some(MergedNode(w, id, was, e)), e) == MergedNode(w, id, was, e)
  {
    var p := MergedNode(w, id, was, e);
    var built := BuildProps(w, e.data);
    forall k | k in built ensures k in p && p[k] == built[k] {
    }
    assert p + built == p;
  }

  function Kind(data: Props): string { if "type" in data then data["type"] else DEFAULT_EDGE }

  function EdgeProps(w: Writer, ends: Pair, data: Props): Props {
    (data - {"type", "created_by"})["workspace" := w.workspace]["src_id" := ends.src]["dst_id" := ends.dst]
  }

  function MergedEdge(w: Writer, key: EdgeKey, was: Option<Props>, data: Props): Props {
    (if was.Some? then was.value else map["created_by" := w.createdBy]) + EdgeProps(w, key.ends, data)
  }

  // ---------------------------------------------------------------- rows on a table

  function Get<K, V>(m: map<K, V>, k: K): Option<V> { if k in m then Some(m[k]) else None }

  /** Merge a set of rows into a table, each at its own key. */
  function Apply<K, R, V>(f: (K, Option<V>, R) -> V, m: map<K, V>, rows: map<K, R>): map<K, V> {
    map k | k in m.Keys + rows.Keys :: if k in rows then f(k, Get(m, k), rows[k]) else m[k]
  }

  function Only<K, V>(m: map<K, V>, keys: set<K>): map<K, V> { map k | k in m && k in keys :: m[k] }

  ghost predicate Idempotent<K(!new), R(!new), V(!new)>(f: (K, Option<V>, R) -> V) {
    forall k, was, r :: f(k, Some(f(k, was, r)), r) == f(k, was, r)
  }

  /** Rows written in two goes, even with some written twice, come to the rows written once. */
  lemma ApplyInTwoParts<K(!new), R(!new), V(!new)>(f: (K, Option<V>, R) -> V, m: map<K, V>, rows: map<K, R>, a: set<K>, b: set<K>)
    requires Idempotent(f)
    ensures Apply(f, Apply(f, m, Only(rows, a)), Only(rows, b)) == Apply(f, m, Only(rows, a + b))
  {
    var first := Apply(f, m, Only(rows, a));
    var left, right := Apply(f, first, Only(rows, b)), Apply(f, m, Only(rows, a + b));
    assert left.Keys == right.Keys;
    forall k | k in left ensures left[k] == right[k] {
      if k in Only(rows, a) && k in Only(rows, b) {
        assert first[k] == f(k, Get(m, k), rows[k]);
      }
    }
  }

  lemma ApplyNothing<K(!new), R(!new), V(!new)>(f: (K, Option<V>, R) -> V, m: map<K, V>)
    ensures Apply(f, m, map[]) == m
  {
  }

  function NodeRow(w: Writer): (Id, Option<Props>, Entry) -> Props { (id, was, e) => MergedNode(w, id, was, e) }

  function EdgeRow(w: Writer): (EdgeKey, Option<Props>, Props) -> Props { (k, was, data) => MergedEdge(w, k, was, data) }

  lemma RowsAreIdempotent(w: Writer)
    ensures Idempotent(NodeRow(w)) && Idempotent(EdgeRow(w))
  {
    forall id, was, e ensures NodeRow(w)(id, Some(NodeRow(w)(id, was, e)), e) == NodeRow(w)(id, was, e) {
      NodeRowIdempotent(w, id, was, e);
    }
    forall k, was, data ensures EdgeRow(w)(k, Some(EdgeRow(w)(k, was, data)), data) == EdgeRow(w)(k, was, data) {
      var p := MergedEdge(w, k, was, data);
      assert p + EdgeProps(w, k.ends, data) == p;
    }
  }

  // ---------------------------------------------------------------- a whole snapshot

  /** The relationship rows by what identifies a relationship in the database. */
  function EdgeRows(buffer: map<Pair, Props>): map<EdgeKey, Props> {
    map e | e in buffer :: EdgeKey(e, Kind(buffer[e])) := buffer[e]
  }

  function Endpoints(keys: set<EdgeKey>): set<Id> {
    (set k | k in keys :: k.ends.src) + (set k | k in keys :: k.ends.dst)
  }

  /** A relationship row creates bare nodes for ends that are not there yet. */
  function WithPlaceholders(w: Writer, nodes: map<Id, Props>, ids: set<Id>): map<Id, Props> {
    map id | id in nodes.Keys + ids :: if id in nodes then nodes[id] else map["node_id" := id, "workspace" := w.workspace]
  }

  /** The database after writing all node rows and then all relationship rows. */
  function Flushed(w: Writer, db: Db, nodes: map<Id, Entry>, edges: map<EdgeKey, Props>): Db {
    Db(NodeTable(w, db.nodes, nodes, Endpoints(edges.Keys)), Apply(EdgeRow(w), db.edges, edges))
  }

  // ---------------------------------------------------------------- what a flush never replaces

  /** Properties that are set once: who created a node, and where a session works. */
  const PROVENANCE := {"created_by", "working_dir"}

  lemma RowKeepsProvenance(w: Writer, id: Id, was: Props, e: Entry, q: string)
    requires q in was && (q in PROVENANCE || (q == "status" && "status" !in e.data))
    ensures Get(MergedNode(w, id, Some(was), e), q) == Some(was[q])
  {
  }

  datatype Snapshot = Snapshot(writer: Writer, nodes: map<Id, Entry>, edges: map<EdgeKey, Props>)

  function AllFlushed(db: Db, flushes: seq<Snapshot>): Db
    decreases |flushes|
  {
    if flushes == [] then db
    else AllFlushed(Flushed(flushes[0].writer, db, flushes[0].nodes, flushes[0].edges), flushes[1..])
  }

  /** No row for the node carries a status of its own. */
  predicate NoStatusCarried(flushes: seq<Snapshot>, id: Id) {
    forall i :: 0 <= i < |flushes| && id in flushes[i].nodes ==> "status" !in flushes[i].nodes[id].data
  }

  /** No sequence of flushes, by whatever writers, re-attributes a node or a session, and a
      status once set is replaced only by one that some row carries. */
  lemma {:induction false} ProvenanceIsFinal(db: Db, flushes: seq<Snapshot>, id: Id, q: string)
    requires q in PROVENANCE || (q == "status" && NoStatusCarried(flushes, id))
    requires id in db.nodes && q in db.nodes[id]
    ensures id in AllFlushed(db, flushes).nodes && Get(AllFlushed(db, flushes).nodes[id], q) == Some(db.nodes[id][q])
    decreases |flushes|
  {
    if flushes == [] {
    } else {
      var f := flushes[0];
      var next := Flushed(f.writer, db, f.nodes, f.edges);
      if id in f.nodes {
        RowKeepsProvenance(f.writer, id, db.nodes[id], f.nodes[id], q);
      }
      assert Get(next.nodes[id], q) == Some(db.nodes[id][q]);
      ProvenanceIsFinal(next, flushes[1..], id, q);
    }
  }

  // ---------------------------------------------------------------- attempts

  /** How far one attempt got: relationship rows only after all node rows. */
  datatype Attempt = Attempt(nodes: set<Id>, edges: set<EdgeKey>)

  predicate Ordered(snapshot: map<Id, Entry>, a: Attempt) { a.edges == {} || snapshot.Keys <= a.nodes }

  function Both(a: Attempt, b: Attempt): Attempt { Attempt(a.nodes + b.nodes, a.edges + b.edges) }

  function After(w: Writer, db: Db, nodes: map<Id, Entry>, edges: map<EdgeKey, Props>, a: Attempt): Db {
    Flushed(w, db, Only(nodes, a.nodes), Only(edges, a.edges))
  }

  lemma PlaceholdersTwice(w: Writer, nodes: map<Id, Props>, a: set<Id>, b: set<Id>)
    ensures WithPlaceholders(w, WithPlaceholders(w, nodes, a), b) == WithPlaceholders(w, nodes, a + b)
    ensures WithPlaceholders(w, nodes, {}) == nodes
  {
  }

  lemma EndpointsUnion(rows: map<EdgeKey, Props>, a: set<EdgeKey>, b: set<EdgeKey>)
    ensures Endpoints(Only(rows, a).Keys) + Endpoints(Only(rows, b).Keys) == Endpoints(Only(rows, a + b).Keys)
  {
    assert Only(rows, a + b).Keys == Only(rows, a).Keys + Only(rows, b).Keys;
    EndpointsSum(Only(rows, a).Keys, Only(rows, b).Keys);
  }

  lemma EndpointsSum(a: set<EdgeKey>, b: set<EdgeKey>)
    ensures Endpoints(a) + Endpoints(b) == Endpoints(a + b)
  {
    forall id | id in Endpoints(a + b) ensures id in Endpoints(a) + Endpoints(b) {
      var k :| k in a + b && (k.ends.src == id || k.ends.dst == id);
    }
  }

  /** Once every node row is in, writing node rows again changes nothing, placeholders or not. */
  lemma NodeRowsSettled(w: Writer, nodes: map<Id, Props>, rows: map<Id, Entry>, ids: set<Id>, again: set<Id>)
    ensures var full := WithPlaceholders(w, Apply(NodeRow(w), nodes, rows), ids);
            Apply(NodeRow(w), full, Only(rows, again)) == full
  {
    var full := WithPlaceholders(w, Apply(NodeRow(w), nodes, rows), ids);
    forall id | id in rows ensures NodeRow(w)(id, Get(full, id), rows[id]) == full[id] {
      NodeRowIdempotent(w, id, Get(nodes, id), rows[id]);
    }
  }

  /** The node table after some node rows, with placeholders for the ends of relationships. */
  function NodeTable(w: Writer, nodes: map<Id, Props>, rows: map<Id, Entry>, ids: set<Id>): map<Id, Props> {
    WithPlaceholders(w, Apply(NodeRow(w), nodes, rows), ids)
  }

  lemma NodePhaseTwice(w: Writer, nodes: map<Id, Props>, rows: map<Id, Entry>, a: set<Id>, b: set<Id>, ids: set<Id>)
    ensures NodeTable(w, NodeTable(w, nodes, Only(rows, a), {}), Only(rows, b), ids) == NodeTable(w, nodes, Only(rows, a + b), ids)
  {
    RowsAreIdempotent(w);
    ApplyInTwoParts(NodeRow(w), nodes, rows, a, b);
    PlaceholdersTwice(w, Apply(NodeRow(w), nodes, Only(rows, a)), {}, {});
  }

  lemma EdgePhaseTwice(w: Writer, nodes: map<Id, Props>, rows: map<Id, Entry>, b: set<Id>, ids: set<Id>, more: set<Id>)
    ensures NodeTable(w, NodeTable(w, nodes, rows, ids), Only(rows, b), more) == NodeTable(w, nodes, rows, ids + more)
  {
    NodeRowsSettled(w, nodes, rows, ids, b);
    PlaceholdersTwice(w, Apply(NodeRow(w), nodes, rows), ids, more);
  }

  lemma NodesAddUp(w: Writer, db: Db, nodes: map<Id, Entry>, edges: map<EdgeKey, Props>, a: Attempt, b: Attempt)
    requires Ordered(nodes, a) && Ordered(nodes, b)
    ensures After(w, After(w, db, nodes, edges, a), nodes, edges, b).nodes == After(w, db, nodes, edges, Both(a, b)).nodes
  {
    var ea, eb := Endpoints(Only(edges, a.edges).Keys), Endpoints(Only(edges, b.edges).Keys);
    EndpointsUnion(edges, a.edges, b.edges);
    if a.edges == {} {
      assert ea == {} by { assert Only(edges, a.edges).Keys == {}; }
      assert ea + eb == eb;
      NodePhaseTwice(w, db.nodes, nodes, a.nodes, b.nodes, eb);
    } else {
      assert Only(nodes, a.nodes) == nodes && Only(nodes, a.nodes + b.nodes) == nodes;
      EdgePhaseTwice(w, db.nodes, nodes, b.nodes, ea, eb);
    }
  }

  /** Two attempts one after the other come to what one attempt at both would have written. */
  lemma AttemptsAddUp(w: Writer, db: Db, nodes: map<Id, Entry>, edges: map<EdgeKey, Props>, a: Attempt, b: Attempt)
    requires Ordered(nodes, a) && Ordered(nodes, b)
    ensures After(w, After(w, db, nodes, edges, a), nodes, edges, b) == After(w, db, nodes, edges, Both(a, b))
    ensures Ordered(nodes, Both(a, b))
  {
    NodesAddUp(w, db, nodes, edges, a, b);
    RowsAreIdempotent(w);
    ApplyInTwoParts(EdgeRow(w), db.edges, edges, a.edges, b.edges);
  }

  function AllAttempts(w: Writer, db: Db, nodes: map<Id, Entry>, edges: map<EdgeKey, Props>, tries: seq<Attempt>): Db
    decreases |tries|
  {
    if tries == [] then db
    else AllAttempts(w, After(w, db, nodes, edges, tries[0]), nodes, edges, tries[1..])
  }

  lemma NothingFlushed(w: Writer, db: Db)
    ensures Flushed(w, db, map[], map[]) == db
  {
    ApplyNothing(NodeRow(w), db.nodes);
    ApplyNothing(EdgeRow(w), db.edges);
    assert Endpoints({}) == {};
    PlaceholdersTwice(w, db.nodes, {}, {});
  }

  lemma NothingAttempted(w: Writer, db: Db, nodes: map<Id, Entry>, edges: map<EdgeKey, Props>)
    ensures After(w, db, nodes, edges, Attempt({}, {})) == db
  {
    assert Only(nodes, {}) == map[] && Only(edges, {}) == map[];
    NothingFlushed(w, db);
  }

  lemma {:induction false} AttemptsSum(w: Writer, db: Db, nodes: map<Id, Entry>, edges: map<EdgeKey, Props>,
                                       tries: seq<Attempt>) returns (sum: Attempt)
    requires forall i :: 0 <= i < |tries| ==> Ordered(nodes, tries[i])
    ensures Ordered(nodes, sum) && AllAttempts(w, db, nodes, edges, tries) == After(w, db, nodes, edges, sum)
    decreases |tries|
  {
    if tries == [] {
      sum := Attempt({}, {});
      NothingAttempted(w, db, nodes, edges);
    } else {
      var rest := AttemptsSum(w, After(w, db, nodes, edges, tries[0]), nodes, edges, tries[1..]);
      AttemptsAddUp(w, db, nodes, edges, tries[0], rest);
      sum := Both(tries[0], rest);
    }
  }

  lemma EverythingAttempted(w: Writer, db: Db, nodes: map<Id, Entry>, edges: map<EdgeKey, Props>, a: Attempt)
    requires nodes.Keys <= a.nodes && edges.Keys <= a.edges
    ensures After(w, db, nodes, edges, a) == Flushed(w, db, nodes, edges)
  {
    assert Only(nodes, a.nodes) == nodes && Only(edges, a.edges) == edges;
  }

  /** However often a flush fails, and wherever, if nothing else is buffered meanwhile then
      the attempt that succeeds leaves the database as one clean flush would have. */
  lemma FailuresThenSuccess(w: Writer, db: Db, nodes: map<Id, Entry>, edges: map<EdgeKey, Props>, tries: seq<Attempt>)
    requires forall i :: 0 <= i < |tries| ==> Ordered(nodes, tries[i])
    ensures Flushed(w, AllAttempts(w, db, nodes, edges, tries), nodes, edges) == Flushed(w, db, nodes, edges)
  {
    var sum := AttemptsSum(w, db, nodes, edges, tries);
    var last := Attempt(nodes.Keys, edges.Keys);
    AttemptsAddUp(w, db, nodes, edges, sum, last);
    EverythingAttempted(w, db, nodes, edges, Both(sum, last));
    EverythingAttempted(w, AllAttempts(w, db, nodes, edges, tries), nodes, edges, last);
  }

  /** With all node rows in, an attempt at all of them and some relationships writes what an
      attempt at those relationships alone writes. */
  lemma EdgesAlone(w: Writer, before: Db, nodes: map<Id, Entry>, edges: map<EdgeKey, Props>, a: Attempt, part: Attempt)
    requires a.nodes == nodes.Keys && part.nodes == nodes.Keys
    ensures var db := After(w, before, nodes, edges, a);
            After(w, db, nodes, edges, part) == Flushed(w, db, map[], Only(edges, part.edges))
  {
    var db := After(w, before, nodes, edges, a);
    assert Only(nodes, nodes.Keys) == nodes;
    NodeRowsSettled(w, before.nodes, nodes, Endpoints(Only(edges, a.edges).Keys), nodes.Keys);
    ApplyNothing(NodeRow(w), db.nodes);
  }

  // ---------------------------------------------------------------- the store

  type Patch = string

  /** The labels with those of `more` that are not there yet, in order. */
  function AddLabels(labels: seq<string>, more: seq<string>): seq<string>
    decreases more
  {
    if more == [] then labels
    else AddLabels(if more[0] in labels then labels else labels + [more[0]], more[1..])
  }

  predicate Distinct(labels: seq<string>) { forall i, j :: 0 <= i < j < |labels| ==> labels[i] != labels[j] }

  /** Every label of either list is there, the earlier ones in their places, and none twice. */
  lemma {:induction false} LabelsAddUp(labels: seq<string>, more: seq<string>)
    ensures labels <= AddLabels(labels, more)
    ensures forall x :: x in AddLabels(labels, more) <==> x in labels || x in more
    ensures Distinct(labels) ==> Distinct(AddLabels(labels, more))
    decreases more
  {
    if more == [] {
    } else {
      assert more == [more[0]] + more[1..];
      LabelsAddUp(if more[0] in labels then labels else labels + [more[0]], more[1..]);
    }
  }

  method CombineLabels(labels: seq<string>, more: seq<string>) returns (all: seq<string>)
    ensures all == AddLabels(labels, more)
  {
    all := labels;
    for i := 0 to |more|
      invariant AddLabels(all, more[i..]) == AddLabels(labels, more)
    {
      assert more[i..][1..] == more[i + 1..];
      if more[i] !in all {
        all := all + [more[i]];
      }
    }
  }

  function Elements<K>(list: seq<K>): set<K> { set k | k in list }

  lemma ElementsConcat<K>(a: seq<K>, b: seq<K>)
    ensures Elements(a + b) == Elements(a) + Elements(b)
  {
  }

  method Listing<K(==)>(keys: set<K>) returns (list: seq<K>)
    ensures Elements(list) == keys
  {
    list := [];
    var left := keys;
    while left != {}
      invariant left <= keys && Elements(list) == keys - left
      decreases |left|
    {
      var k :| k in left;
      ElementsConcat(list, [k]);
      list, left := list + [k], left - {k};
    }
  }

  class Neo4jGraphStore {
    const writer: Writer
    const max: Limits
    var nodeBuffer: map<Id, Entry>
    var edgeBuffer: map<Pair, Props>
    var labelPatches: seq<Patch>
    var db: Db

    constructor (writer: Writer, max: Limits, db: Db)
      ensures nodeBuffer == map[] && edgeBuffer == map[] && labelPatches == []
      ensures this.db == db && this.writer == writer && this.max == max
    {
      this.writer, this.max, this.db := writer, max, db;
      nodeBuffer, edgeBuffer, labelPatches := map[], map[], [];
    }

    /** Later data wins, no label is lost, moved or listed twice, and no other node changes. */
    method UpsertNode(id: Id, e: Entry)
      modifies this`nodeBuffer
      ensures nodeBuffer.Keys == old(nodeBuffer).Keys + {id}
      ensures forall j :: j in old(nodeBuffer) && j != id ==> nodeBuffer[j] == old(nodeBuffer)[j]
      ensures var was := if id in old(nodeBuffer) then old(nodeBuffer)[id] else Entry([], map[]);
              && nodeBuffer[id].data == was.data + e.data && was.labels <= nodeBuffer[id].labels
              && (forall x :: x in nodeBuffer[id].labels <==> x in was.labels || x in e.labels)
              && (Distinct(was.labels) ==> Distinct(nodeBuffer[id].labels))
    {
      var existing := if id in nodeBuffer then nodeBuffer[id] else Entry([], map[]);
      var labels := CombineLabels(existing.labels, e.labels);
      LabelsAddUp(existing.labels, e.labels);
      nodeBuffer := nodeBuffer[id := Entry(labels, existing.data + e.data)];
    }

    method UpsertEdge(ends: Pair, data: Props)
      modifies this`edgeBuffer
      ensures edgeBuffer == old(edgeBuffer)[ends := (if ends in old(edgeBuffer) then old(edgeBuffer)[ends] else map[]) + data]
    {
      if ends !in edgeBuffer {
        edgeBuffer := edgeBuffer[ends := map[]];
      }
      edgeBuffer := edgeBuffer[ends := edgeBuffer[ends] + data];
    }

    /** Write node rows in chunks; stop at the first failure. A failing transaction may or
        may not have been committed. */
    method WriteNodes(nodes: map<Id, Entry>, ghost edges: map<EdgeKey, Props>, size: Id -> nat)
      returns (ok: bool, ghost reached: Attempt)
      modifies this`db
      ensures Ordered(nodes, reached) && db == After(writer, old(db), nodes, edges, reached)
      ensures ok ==> reached == Attempt(nodes.Keys, {})
    {
      var rows := Listing(nodes.Keys);
      var chunks := Chunks(rows, size, max);
      NothingAttempted(writer, db, nodes, edges);
      var done: seq<Id> := [];
      reached := Attempt({}, {});
      for i := 0 to |chunks|
        invariant db == After(writer, old(db), nodes, edges, reached)
        invariant reached == Attempt(Elements(done), {}) && done + Flatten(chunks[i..]) == rows
      {
        if * {
          return false, reached;
        }
        assert chunks[i..][1..] == chunks[i + 1..];
        ghost var part := Attempt(Elements(chunks[i]), {});
        AttemptsAddUp(writer, old(db), nodes, edges, reached, part);
        assert Only(edges, {}) == map[];
        db := Flushed(writer, db, Only(nodes, Elements(chunks[i])), map[]);
        ElementsConcat(done, chunks[i]);
        reached := Both(reached, part);
        done := done + chunks[i];
        if * {
          return false, reached;
        }
      }
      assert done == rows;
      return true, reached;
    }

    /** Write relationship rows in chunks, all node rows being in. */
    method WriteEdges(ghost nodes: map<Id, Entry>, edges: map<EdgeKey, Props>, size: EdgeKey -> nat, ghost before: Db)
      returns (ok: bool, ghost reached: Attempt)
      requires db == After(writer, before, nodes, edges, Attempt(nodes.Keys, {}))
      modifies this`db
      ensures Ordered(nodes, reached) && db == After(writer, before, nodes, edges, reached)
      ensures ok ==> reached == Attempt(nodes.Keys, edges.Keys)
    {
      var rows := Listing(edges.Keys);
      var chunks := Chunks(rows, size, max);
      var done: seq<EdgeKey> := [];
      reached := Attempt(nodes.Keys, {});
      for i := 0 to |chunks|
        invariant db == After(writer, before, nodes, edges, reached)
        invariant reached == Attempt(nodes.Keys, Elements(done)) && done + Flatten(chunks[i..]) == rows
      {
        if * {
          return false, reached;
        }
        assert chunks[i..][1..] == chunks[i + 1..];
        ghost var part := Attempt(nodes.Keys, Elements(chunks[i]));
        AttemptsAddUp(writer, before, nodes, edges, reached, part);
        EdgesAlone(writer, before, nodes, edges, reached, part);
        db := Flushed(writer, db, map[], Only(edges, Elements(chunks[i])));
        ElementsConcat(done, chunks[i]);
        reached := Both(reached, part);
        done := done + chunks[i];
        if * {
          return false, reached;
        }
      }
      assert done == rows;
      return true, reached;
    }

    /** The flush. `newNodes`, `newEdges` and `newPatches` are what other coroutines buffer
        while it waits for the database; it looks at the live buffers only before its first
        write and after its last, so they may be taken as arriving at once. */
    method Flush(newNodes: map<Id, Entry>, newEdges: map<Pair, Props>, newPatches: seq<Patch>,
                 nodeSize: Id -> nat, patchSize: Patch -> nat, edgeSize: EdgeKey -> nat)
      returns (ok: bool, ghost reached: Attempt)
      modifies this
      ensures Ordered(old(nodeBuffer), reached)
      ensures db == After(writer, old(db), old(nodeBuffer), EdgeRows(old(edgeBuffer)), reached)
      ensures ok ==> db == Flushed(writer, old(db), old(nodeBuffer), EdgeRows(old(edgeBuffer)))
      ensures ok ==> nodeBuffer == newNodes && edgeBuffer == newEdges && labelPatches == newPatches
      ensures !ok ==> nodeBuffer == old(nodeBuffer) + newNodes && edgeBuffer == old(edgeBuffer) + newEdges
      ensures !ok ==> labelPatches == old(labelPatches) + newPatches
    {
      var nodes, edges, patches := nodeBuffer, edgeBuffer, labelPatches;
      var rows := EdgeRows(edges);
      nodeBuffer, edgeBuffer, labelPatches := newNodes, newEdges, newPatches;
      ok, reached := WriteNodes(nodes, rows, nodeSize);
      if ok {
        ok := WritePatches(patches, patchSize);
      }
      if ok {
        ok, reached := WriteEdges(nodes, rows, edgeSize, old(db));
      }
      if ok {
        EverythingAttempted(writer, old(db), nodes, rows, reached);
      } else {
        nodeBuffer := nodes + nodeBuffer;
        edgeBuffer := edges + edgeBuffer;
        labelPatches := patches + labelPatches;
      }
    }

    /** Label patches change labels only, which the database model does not hold. */
    method WritePatches(patches: seq<Patch>, size: Patch -> nat) returns (ok: bool)
      ensures patches == [] ==> ok
    {
      var chunks := Chunks(patches, size, max);
      FirstChunk(size, max, patches, chunks);
      for i := 0 to |chunks| {
        if * {
          return false;
        }
      }
      return true;
    }
  }
}
