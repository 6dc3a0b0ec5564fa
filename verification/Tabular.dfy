/** Loading tables as a property graph, nodes first and then edges (src/structured/ingestion/tabular.py). */
module Tabular {
  import opened Text

  datatype Value = Null | Str(text: string) | Num(n: int)

  type Row = map<string, Value>
  type Props = map<string, Value>

  datatype ForeignKey = ForeignKey(column: string, table: string)

  datatype Table = Table(name: string, nodeLabel: string, primaryKey: Option<string>, foreignKeys: seq<ForeignKey>)

  /** Where rows come from; reading a table again gives the same rows. */
  datatype Source = Source(rows: Table -> seq<Row>, tag: string, rel: (string, string) -> string)

  /** A keyed node is known by its label and key value. */
  datatype NodeId = NodeId(nodeLabel: string, key: Value)

  datatype Edge = Edge(src: NodeId, rel: string, dst: NodeId)

  /** Keyed nodes, nodes created without identity, and edges. */
  datatype Graph = Graph(nodes: map<NodeId, Props>, loose: multiset<(string, Props)>, edges: set<Edge>)

  /** The three Cypher statements the loader sends, each with `UNWIND $rows`. */
  datatype Statement =
    | MergeNode(nodeLabel: string, key: string, tag: string)
    | CreateNode(nodeLabel: string, tag: string)
    | MergeEdge(srcLabel: string, rel: string, dstLabel: string)

  /** One element of `$rows`. */
  datatype Param = NodeRow(row: Row) | Pair(src: Value, dst: Value)

  function Cell(r: Row, column: string): Value {
    if column in r then r[column] else Null
  }

  /** `SET n += row`: null removes a property, anything else overwrites it. */
  function SetAll(p: Props, r: Row): Props {
    map c | c in p.Keys + r.Keys && (c in r ==> r[c] != Null) :: if c in r then r[c] else p[c]
  }

  /** What one row does to the properties of its node. */
  function Update(p: Props, r: Row, tag: string): Props {
    SetAll(p, r)["_source" := Str(tag)]
  }

  /** What a statement does with one parameter. */
  function ApplyOne(s: Statement, g: Graph, p: Param): Graph {
    match (s, p)
    case (MergeNode(nodeLabel, key, tag), NodeRow(r)) =>
      var id := NodeId(nodeLabel, Cell(r, key));
      var props := if id in g.nodes then g.nodes[id] else map[key := Cell(r, key)];
      g.(nodes := g.nodes[id := Update(props, r, tag)])
    case (CreateNode(nodeLabel, tag), NodeRow(r)) =>
      g.(loose := g.loose + multiset{(nodeLabel, Update(map[], r, tag))})
    case (MergeEdge(srcLabel, rel, dstLabel), Pair(src, dst)) =>
      var a, b := NodeId(srcLabel, src), NodeId(dstLabel, dst);
      if a in g.nodes && b in g.nodes then g.(edges := g.edges + {Edge(a, rel, b)}) else g
    case _ => g
  }

  function ApplyAll(s: Statement, g: Graph, ps: seq<Param>): Graph {
    if ps == [] then g else ApplyOne(s, ApplyAll(s, g, ps[..|ps| - 1]), ps[|ps| - 1])
  }

  lemma {:induction false} ApplyAllAppend(s: Statement, g: Graph, a: seq<Param>, b: seq<Param>)
    ensures ApplyAll(s, g, a + b) == ApplyAll(s, ApplyAll(s, g, a), b)
  {
    if b == [] {
      assert a + b == a;
    } else {
      assert (a + b)[..|a + b| - 1] == a + b[..|b| - 1];
      ApplyAllAppend(s, g, a, b[..|b| - 1]);
    }
  }

  // ---- what the loader sends ---------------------------------------------------------------------------------------

  function NodeStatement(t: Table, tag: string): Statement {
    if t.primaryKey.Some? then MergeNode(t.nodeLabel, t.primaryKey.value, tag) else CreateNode(t.nodeLabel, tag)
  }

  function NodeParams(rows: seq<Row>): seq<Param> {
    if rows == [] then [] else NodeParams(rows[..|rows| - 1]) + [NodeRow(rows[|rows| - 1])]
  }

  predicate Blank(v: Value) {
    v == Null || v == Str("")
  }

  /** The pairs of one foreign key: rows whose cell is not blank. */
  function Pairs(rows: seq<Row>, key: string, column: string): seq<Param> {
    if rows == [] then []
    else
      var r := rows[|rows| - 1];
      Pairs(rows[..|rows| - 1], key, column) +
      if Blank(Cell(r, column)) then [] else [Pair(Cell(r, key), Cell(r, column))]
  }

  /** The first table of that name. */
  function Target(tables: seq<Table>, name: string): Option<Table> {
    if tables == [] then None else if tables[0].name == name then Some(tables[0]) else Target(tables[1..], name)
  }

  function LoadNodes(g: Graph, tables: seq<Table>, src: Source): Graph {
    if tables == [] then g
    else
      var t := tables[|tables| - 1];
      ApplyAll(NodeStatement(t, src.tag), LoadNodes(g, tables[..|tables| - 1], src), NodeParams(src.rows(t)))
  }

  /** One foreign key: skipped unless both ends are keyed tables of the schema. */
  function LoadKey(g: Graph, all: seq<Table>, t: Table, fk: ForeignKey, src: Source): Graph {
    var target := Target(all, fk.table);
    if target.None? || target.value.primaryKey.None? || t.primaryKey.None? then g
    else ApplyAll(MergeEdge(t.nodeLabel, src.rel(fk.column, target.value.nodeLabel), target.value.nodeLabel), g,
                  Pairs(src.rows(t), t.primaryKey.value, fk.column))
  }

  function LoadKeys(g: Graph, all: seq<Table>, t: Table, fks: seq<ForeignKey>, src: Source): Graph {
    if fks == [] then g
    else LoadKey(LoadKeys(g, all, t, fks[..|fks| - 1], src), all, t, fks[|fks| - 1], src)
  }

  function LoadEdges(g: Graph, all: seq<Table>, tables: seq<Table>, src: Source): Graph {
    if tables == [] then g
    else
      var t := tables[|tables| - 1];
      LoadKeys(LoadEdges(g, all, tables[..|tables| - 1], src), all, t, t.foreignKeys, src)
  }

  /** `load_schema` as a function of the graph. */
  function Load(g: Graph, tables: seq<Table>, src: Source): Graph {
    LoadEdges(LoadNodes(g, tables, src), tables, tables, src)
  }

  // ---- the code ----------------------------------------------------------------------------------------------------

  function Concat(batches: seq<seq<Param>>): seq<Param> {
    if batches == [] then [] else Concat(batches[..|batches| - 1]) + batches[|batches| - 1]
  }

  /** Full batches in order, with at most a shorter one at the end. */
  ghost predicate Batched(batches: seq<seq<Param>>, size: nat) {
    && (forall i | 0 <= i < |batches| :: 0 < |batches[i]| <= size)
    && (forall i | 0 <= i < |batches| - 1 :: |batches[i]| == size)
  }

  predicate LacksKey(s: Statement, p: Param) {
    s.MergeNode? && p.NodeRow? && Cell(p.row, s.key) == Null
  }

  /** The database refuses a whole statement if it merges on null anywhere. */
  predicate Rejected(s: Statement, ps: seq<Param>) {
    exists i :: 0 <= i < |ps| && LacksKey(s, ps[i])
  }

  /** The rows written before the first refused batch, or all of them. */
  function Accepted(s: Statement, rows: seq<Param>, size: nat): seq<Param>
    requires size >= 1
    decreases |rows|
  {
    var n := if |rows| <= size then |rows| else size;
    if rows == [] || Rejected(s, rows[..n]) then [] else rows[..n] + Accepted(s, rows[n..], size)
  }

  /** A database session: the graph, and the batches it took. */
  class Session {
    var graph: Graph
    var sent: seq<(Statement, seq<Param>)>

    constructor (graph: Graph)
      ensures this.graph == graph && sent == []
    {
      this.graph, sent := graph, [];
    }

    /** One statement; false is the driver's exception, which leaves the graph alone. */
    method Run(s: Statement, rows: seq<Param>) returns (ok: bool)
      modifies this
      ensures ok <==> !Rejected(s, rows)
      ensures graph == if ok then ApplyAll(s, old(graph), rows) else old(graph)
      ensures sent == if ok then old(sent) + [(s, rows)] else old(sent)
    {
      ok := !Rejected(s, rows);
      if ok {
        graph, sent := ApplyAll(s, graph, rows), sent + [(s, rows)];
      }
    }
  }

  /** The session took exactly these batches, which are `written` cut up, full but for the last; and wrote those rows.
      */
  ghost predicate Took(session: Session, s: Statement, g: Graph, written: seq<Param>,
                       before: seq<(Statement, seq<Param>)>, batches: seq<seq<Param>>, size: nat)
    reads session
  {
    && session.graph == ApplyAll(s, g, written) && session.sent == before + Labelled(s, batches)
    && Concat(batches) == written && Batched(batches, size)
  }

  /** What a write comes to: all rows, or those of the batches before the one that lacks a key. */
  ghost predicate Wrote(session: Session, s: Statement, g: Graph, rows: seq<Param>,
                        before: seq<(Statement, seq<Param>)>, batches: seq<seq<Param>>, size: nat, ok: bool)
    requires size >= 1
    reads session
  {
    (ok <==> !Rejected(s, rows))
      && Took(session, s, g, if ok then rows else Accepted(s, rows, size), before, batches, size)
  }

  /** `_write`, for any batch size in place of the program's 5000: the batches it sends concatenate to the row stream,
      whose length it returns; so the batch size does not show in the graph. A row without its key stops it, with the
      batches before that row's own written. */
  method Write(session: Session, s: Statement, rows: seq<Param>, size: nat)
    returns (ok: bool, total: nat, ghost batches: seq<seq<Param>>)
    requires size >= 1
    modifies session
    ensures Wrote(session, s, old(session.graph), rows, old(session.sent), batches, size, ok)
    ensures ok ==> total == |rows|
  {
    var batch := [];
    ok, total, batches := true, 0, [];
    ghost var g, before := session.graph, session.sent;
    SentNothing(session, s, g, rows, size, before);
    NonePending(rows, 0);
    hide Sent, Wrote, Pending;
    for n := 0 to |rows|
      invariant ok && |batch| < size && total + |batch| == n && Pending(rows, total, batch)
      invariant Sent(session, s, g, rows, size, before, batches, total)
    {
      PendingMore(rows, total, batch);
      batch := batch + [rows[n]];
      if |batch| >= size {
        ok := SendBatch(session, s, batch, size, g, rows, batches, total, before);
        if !ok {
          return;
        }
        total := total + |batch|;
        batches := batches + [batch];
        batch := [];
        NonePending(rows, total);
      }
    }
    if batch != [] {
      ok := SendBatch(session, s, batch, size, g, rows, batches, total, before);
      if !ok {
        return;
      }
      total := total + |batch|;
      batches := batches + [batch];
    } else {
      SentAll(session, s, g, rows, size, before, batches);
    }
  }

  /** The batch being filled is what follows the rows already sent. */
  ghost predicate Pending(rows: seq<Param>, done: nat, batch: seq<Param>) {
    done + |batch| <= |rows| && batch == rows[done..done + |batch|]
  }

  lemma PendingMore(rows: seq<Param>, done: nat, batch: seq<Param>)
    requires Pending(rows, done, batch) && done + |batch| < |rows|
    ensures Pending(rows, done, batch + [rows[done + |batch|]])
  {
  }

  lemma NonePending(rows: seq<Param>, done: nat)
    requires done <= |rows|
    ensures Pending(rows, done, [])
  {
  }

  /** One batch of `_write`. */
  method SendBatch(session: Session, s: Statement, batch: seq<Param>, ghost size: nat, ghost g: Graph,
                   ghost rows: seq<Param>, ghost batches: seq<seq<Param>>, ghost done: nat,
                   ghost before: seq<(Statement, seq<Param>)>)
    returns (ok: bool)
    requires size >= 1 && Sent(session, s, g, rows, size, before, batches, done)
    requires batch != [] && Pending(rows, done, batch)
             && (|batch| == size || (|batch| < size && done + |batch| == |rows|))
    modifies session
    ensures ok && |batch| == size ==> Sent(session, s, g, rows, size, before, batches + [batch], done + |batch|)
    ensures ok && done + |batch| == |rows| ==> Wrote(session, s, g, rows, before, batches + [batch], size, true)
    ensures !ok ==> Wrote(session, s, g, rows, before, batches, size, false)
  {
    hide ApplyAll, Labelled, Batched, Concat, Rejected, Accepted;
    SendNext(s, g, rows, size, batches, done, batch, before);
    ok := session.Run(s, batch);
    assert rows[..|rows|] == rows;
  }

  /** So far the session took the first `done` rows, in full batches, and refused none. */
  ghost predicate Sent(session: Session, s: Statement, g: Graph, rows: seq<Param>, size: nat,
                       before: seq<(Statement, seq<Param>)>, batches: seq<seq<Param>>, done: nat)
    requires size >= 1
    reads session
  {
    && done <= |rows| && !Rejected(s, rows[..done]) && Took(session, s, g, rows[..done], before, batches, size)
    && (forall i | 0 <= i < |batches| :: |batches[i]| == size)
    && Accepted(s, rows, size) == rows[..done] + Accepted(s, rows[done..], size)
  }

  lemma SentNothing(session: Session, s: Statement, g: Graph, rows: seq<Param>, size: nat,
                    before: seq<(Statement, seq<Param>)>)
    requires size >= 1 && session.graph == g && session.sent == before
    ensures Sent(session, s, g, rows, size, before, [], 0)
  {
    hide Accepted;
    assert rows[..0] == [] && rows[0..] == rows;
    assert [] + Accepted(s, rows, size) == Accepted(s, rows, size);
    assert before + Labelled(s, []) == before;
  }

  lemma SentAll(session: Session, s: Statement, g: Graph, rows: seq<Param>, size: nat,
                before: seq<(Statement, seq<Param>)>, batches: seq<seq<Param>>)
    requires size >= 1 && Sent(session, s, g, rows, size, before, batches, |rows|)
    ensures Wrote(session, s, g, rows, before, batches, size, true)
  {
    assert rows[..|rows|] == rows;
  }

  /** Sending one more batch: the next full one, or the rest. */
  lemma SendNext(s: Statement, g: Graph, rows: seq<Param>, size: nat, batches: seq<seq<Param>>, done: nat,
                 batch: seq<Param>, before: seq<(Statement, seq<Param>)>)
    requires size >= 1 && done <= |rows| && !Rejected(s, rows[..done]) && Concat(batches) == rows[..done]
    requires forall i | 0 <= i < |batches| :: |batches[i]| == size
    requires Accepted(s, rows, size) == rows[..done] + Accepted(s, rows[done..], size)
    requires batch != [] && done + |batch| <= |rows| && batch == rows[done..done + |batch|]
    requires |batch| == size || (|batch| < size && done + |batch| == |rows|)
    ensures var next, more := done + |batch|, batches + [batch];
            && Batched(more, size) && Concat(more) == rows[..next]
            && ApplyAll(s, g, rows[..next]) == ApplyAll(s, ApplyAll(s, g, rows[..done]), batch)
            && before + Labelled(s, more) == before + Labelled(s, batches) + [(s, batch)]
            && (if Rejected(s, batch) then Rejected(s, rows) && Accepted(s, rows, size) == rows[..done]
                else !Rejected(s, rows[..next]) &&
                     Accepted(s, rows, size) == rows[..next] + Accepted(s, rows[next..], size))
  {
    hide ApplyAll, Labelled, Rejected, Accepted, Concat;
    assert rows[..done + |batch|] == rows[..done] + batch;
    Flush(s, g, batches, batch, before);
    NextBatch(s, rows, rows[..done], batch, size);
  }

  lemma NothingRejected(s: Statement)
    ensures !Rejected(s, [])
  {
  }

  lemma RejectedAppend(s: Statement, a: seq<Param>, b: seq<Param>)
    ensures Rejected(s, a + b) <==> Rejected(s, a) || Rejected(s, b)
  {
    var c := a + b;
    if Rejected(s, a) {
      var i :| 0 <= i < |a| && LacksKey(s, a[i]);
      assert c[i] == a[i];
    }
    if Rejected(s, b) {
      var i :| 0 <= i < |b| && LacksKey(s, b[i]);
      assert c[|a| + i] == b[i];
    }
  }

  /** One more batch of a row stream: a full one, or the rest. */
  lemma NextBatch(s: Statement, rows: seq<Param>, done: seq<Param>, batch: seq<Param>, size: nat)
    requires size >= 1 && batch != [] && done + batch <= rows && !Rejected(s, done)
    requires |batch| == size || (|batch| < size && done + batch == rows)
    requires Accepted(s, rows, size) == done + Accepted(s, rows[|done|..], size)
    ensures Rejected(s, batch) ==> Rejected(s, rows) && Accepted(s, rows, size) == done
    ensures !Rejected(s, batch) ==> !Rejected(s, done + batch)
    ensures !Rejected(s, batch) ==>
              Accepted(s, rows, size) == (done + batch) + Accepted(s, rows[|done + batch|..], size)
  {
    hide Rejected, Accepted;
    var tail := rows[|done + batch|..];
    assert rows == done + (batch + tail) == (done + batch) + tail && rows[|done|..] == batch + tail;
    RejectedAppend(s, done, batch);
    RejectedAppend(s, done + batch, tail);
    AcceptedStep(s, batch, tail, size);
    assert done + (batch + Accepted(s, tail, size)) == (done + batch) + Accepted(s, tail, size);
    assert done + [] == done;
  }

  lemma AcceptedStep(s: Statement, batch: seq<Param>, tail: seq<Param>, size: nat)
    requires size >= 1 && batch != [] && (|batch| == size || (|batch| < size && tail == []))
    ensures Accepted(s, batch + tail, size) == if Rejected(s, batch) then [] else batch + Accepted(s, tail, size)
  {
    hide Rejected;
    var rest := batch + tail;
    assert rest[..|batch|] == batch && rest[|batch|..] == tail;
  }

  /** The batches as the session records them. */
  function Labelled(s: Statement, batches: seq<seq<Param>>): seq<(Statement, seq<Param>)> {
    if batches == [] then [] else Labelled(s, batches[..|batches| - 1]) + [(s, batches[|batches| - 1])]
  }

  /** Sending one more batch. */
  lemma Flush(s: Statement, g: Graph, batches: seq<seq<Param>>, batch: seq<Param>, before: seq<(Statement, seq<Param>)>)
    ensures Concat(batches + [batch]) == Concat(batches) + batch
    ensures ApplyAll(s, g, Concat(batches + [batch])) == ApplyAll(s, ApplyAll(s, g, Concat(batches)), batch)
    ensures before + Labelled(s, batches + [batch]) == before + Labelled(s, batches) + [(s, batch)]
  {
    assert (batches + [batch])[..|batches|] == batches;
    ApplyAllAppend(s, g, Concat(batches), batch);
  }

  lemma {:induction false} NodeParamsLength(rows: seq<Row>)
    ensures |NodeParams(rows)| == |rows|
  {
    if rows != [] {
      NodeParamsLength(rows[..|rows| - 1]);
    }
  }

  /** `load_schema`: all nodes, then all edges, with a row count per table; or, when a row of a keyed table lacks its
      key, an exception after the nodes before that row's batch, and before any edge. */
  method LoadSchema(session: Session, tables: seq<Table>, src: Source, size: nat)
    returns (counts: Option<map<string, nat>>)
    requires size >= 1
    modifies session
    ensures counts.Some? <==> KeysPresent(tables, src)
    ensures counts.Some? ==>
              session.graph == Load(old(session.graph), tables, src) && counts.value == Counts(tables, src)
    ensures counts.None? ==>
              session.graph == NodesUntil(old(session.graph), tables, src, size).0
                && session.graph.edges == old(session.graph).edges
  {
    hide LoadNodes, NodesUntil, KeysPresent, LoadKeys, Counts;
    UntilRejected(session.graph, tables, src, size);
    counts := WriteNodes(session, tables, src, size);
    if counts.None? {
      return;
    }
    ghost var g := session.graph;
    for n := 0 to |tables|
      invariant session.graph == LoadEdges(g, tables, tables[..n], src)
    {
      assert tables[..n + 1][..n] == tables[..n];
      LinkTable(session, tables, tables[n], src, size);
    }
    assert tables[..|tables|] == tables;
  }

  /** The node writes up to a refused one, and whether none was. */
  function NodesUntil(g: Graph, tables: seq<Table>, src: Source, size: nat): (Graph, bool)
    requires size >= 1
  {
    if tables == [] then (g, true)
    else
      var t, (h, ok) := tables[|tables| - 1], NodesUntil(g, tables[..|tables| - 1], src, size);
      var s, ps := NodeStatement(t, src.tag), NodeParams(src.rows(t));
      if !ok then (h, false)
        else (ApplyAll(s, h, if Rejected(s, ps) then Accepted(s, ps, size) else ps), !Rejected(s, ps))
  }

  predicate RowsHaveKeys(t: Table, rows: seq<Row>) {
    t.primaryKey.Some? ==> forall r | r in rows :: Cell(r, t.primaryKey.value) != Null
  }

  lemma {:induction false} RejectedRows(t: Table, tag: string, rows: seq<Row>)
    ensures Rejected(NodeStatement(t, tag), NodeParams(rows)) <==> !RowsHaveKeys(t, rows)
  {
    hide Rejected;
    var s := NodeStatement(t, tag);
    if rows == [] {
      NothingRejected(s);
    } else {
      var init, r := rows[..|rows| - 1], rows[|rows| - 1];
      assert rows == init + [r];
      RejectedRows(t, tag, init);
      RejectedAppend(s, NodeParams(init), [NodeRow(r)]);
      RejectedOne(s, NodeRow(r));
    }
  }

  lemma RejectedOne(s: Statement, p: Param)
    ensures Rejected(s, [p]) <==> LacksKey(s, p)
  {
    assert [p][0] == p;
  }

  lemma {:induction false} NodesKeepEdges(s: Statement, g: Graph, ps: seq<Param>)
    requires !s.MergeEdge?
    ensures ApplyAll(s, g, ps).edges == g.edges
  {
    if ps != [] {
      NodesKeepEdges(s, g, ps[..|ps| - 1]);
    }
  }

  /** Every keyed row has its key exactly when no node write is refused; edges are not touched either way. */
  lemma {:induction false} UntilRejected(g: Graph, tables: seq<Table>, src: Source, size: nat)
    requires size >= 1
    ensures NodesUntil(g, tables, src, size).1 <==> KeysPresent(tables, src)
    ensures NodesUntil(g, tables, src, size).1 ==> NodesUntil(g, tables, src, size).0 == LoadNodes(g, tables, src)
    ensures NodesUntil(g, tables, src, size).0.edges == g.edges
  {
    hide ApplyAll, Rejected, Accepted, NodeParams;
    if tables != [] {
      var init, t := tables[..|tables| - 1], tables[|tables| - 1];
      assert tables == init + [t];
      UntilRejected(g, init, src, size);
      RejectedRows(t, src.tag, src.rows(t));
      var s, ps := NodeStatement(t, src.tag), NodeParams(src.rows(t));
      NodesKeepEdges(s, NodesUntil(g, init, src, size).0, if Rejected(s, ps) then Accepted(s, ps, size) else ps);
    }
  }

  /** The rows of a keyed table all have their key. */
  ghost predicate KeysPresent(tables: seq<Table>, src: Source) {
    forall t | t in tables :: RowsHaveKeys(t, src.rows(t))
  }

  /** The returned row counts: by table name, a later table of the same name replacing an earlier one. */
  function Counts(tables: seq<Table>, src: Source): map<string, nat> {
    if tables == [] then map[]
    else Counts(tables[..|tables| - 1], src)[tables[|tables| - 1].name := |src.rows(tables[|tables| - 1])|]
  }

  method WriteNodes(session: Session, tables: seq<Table>, src: Source, size: nat)
    returns (counts: Option<map<string, nat>>)
    requires size >= 1
    modifies session
    ensures (session.graph, counts.Some?) == NodesUntil(old(session.graph), tables, src, size)
    ensures counts.Some? ==> counts.value == Counts(tables, src)
  {
    var written := map[];
    ghost var g := session.graph;
    hide ApplyAll, NodeStatement, Rejected, Accepted, NodeParams, NodesUntil, Counts, Labelled, Batched, Concat;
    NoTables(g, src, size);
    for n := 0 to |tables|
      invariant (session.graph, true) == NodesUntil(g, tables[..n], src, size)
      invariant written == Counts(tables[..n], src)
    {
      NextTable(g, tables, src, size, n);
      NodeParamsLength(src.rows(tables[n]));
      var ok, total, _ := Write(session, NodeStatement(tables[n], src.tag), NodeParams(src.rows(tables[n])), size);
      if !ok {
        UntilStays(g, tables, src, size, n + 1);
        return None;
      }
      written := written[tables[n].name := total];
    }
    assert tables[..|tables|] == tables;
    counts := Some(written);
  }

  lemma NoTables(g: Graph, src: Source, size: nat)
    requires size >= 1
    ensures NodesUntil(g, [], src, size) == (g, true) && Counts([], src) == map[]
  {
  }

  lemma NextTable(g: Graph, tables: seq<Table>, src: Source, size: nat, n: nat)
    requires size >= 1 && n < |tables|
    ensures var s, ps := NodeStatement(tables[n], src.tag), NodeParams(src.rows(tables[n]));
            var (h, ok) := NodesUntil(g, tables[..n], src, size);
            ok ==> NodesUntil(g, tables[..n + 1], src, size) ==
                   (ApplyAll(s, h, if Rejected(s, ps) then Accepted(s, ps, size) else ps), !Rejected(s, ps))
    ensures Counts(tables[..n + 1], src) == Counts(tables[..n], src)[tables[n].name := |src.rows(tables[n])|]
  {
    hide ApplyAll, NodeStatement, Rejected, Accepted, NodeParams;
    assert tables[..n + 1][..n] == tables[..n];
  }

  /** Once a write was refused, no later table is written. */
  lemma {:induction false} UntilStays(g: Graph, tables: seq<Table>, src: Source, size: nat, n: nat)
    requires size >= 1 && n <= |tables| && !NodesUntil(g, tables[..n], src, size).1
    ensures NodesUntil(g, tables, src, size) == NodesUntil(g, tables[..n], src, size)
  {
    if n == |tables| {
      assert tables[..n] == tables;
    } else {
      assert tables[..|tables| - 1][..n] == tables[..n];
      UntilStays(g, tables[..|tables| - 1], src, size, n);
    }
  }

  method LinkTable(session: Session, all: seq<Table>, t: Table, src: Source, size: nat)
    requires size >= 1
    modifies session
    ensures session.graph == LoadKeys(old(session.graph), all, t, t.foreignKeys, src)
  {
    ghost var g := session.graph;
    var fks := t.foreignKeys;
    hide ApplyAll, Pairs;
    for n := 0 to |fks|
      invariant session.graph == LoadKeys(g, all, t, fks[..n], src)
    {
      assert fks[..n + 1][..n] == fks[..n];
      var target := Target(all, fks[n].table);
      if target.None? || target.value.primaryKey.None? || t.primaryKey.None? {
        continue;
      }
      var statement := MergeEdge(t.nodeLabel, src.rel(fks[n].column, target.value.nodeLabel), target.value.nodeLabel);
      var _, _, _ := Write(session, statement, Pairs(src.rows(t), t.primaryKey.value, fks[n].column), size);
    }
    assert fks[..|fks|] == fks;
  }

  // ---- nodes, point by point ---------------------------------------------------------------------------------------

  /** Tables that share a label agree on its key, so that the label and the key value identify a node. */
  ghost predicate KeyedAlike(tables: seq<Table>) {
    forall s, t | s in tables && t in tables && s.nodeLabel == t.nodeLabel :: s.primaryKey == t.primaryKey
  }

  lemma AlikeInit(tables: seq<Table>)
    requires KeyedAlike(tables) && tables != []
    ensures KeyedAlike(tables[..|tables| - 1])
  {
    assert forall t | t in tables[..|tables| - 1] :: t in tables;
  }

  /** The key of a label, if some keyed table has that label. */
  function KeyOf(tables: seq<Table>, nodeLabel: string): Option<string> {
    if tables == [] then None
    else
      var t := tables[|tables| - 1];
      if t.nodeLabel == nodeLabel && t.primaryKey.Some? then t.primaryKey else KeyOf(tables[..|tables| - 1], nodeLabel)
  }

  /** All rows of the keyed tables with a label, in the order they are written. */
  function RowsFor(tables: seq<Table>, src: Source, nodeLabel: string): seq<Row> {
    if tables == [] then []
    else
      var t := tables[|tables| - 1];
      RowsFor(tables[..|tables| - 1], src, nodeLabel) +
      if t.nodeLabel == nodeLabel && t.primaryKey.Some? then src.rows(t) else []
  }

  lemma {:induction false} KeyOfIs(tables: seq<Table>, src: Source, nodeLabel: string)
    ensures KeyOf(tables, nodeLabel).Some? ==>
              exists t :: t in tables && t.nodeLabel == nodeLabel && t.primaryKey == KeyOf(tables, nodeLabel)
    ensures KeyOf(tables, nodeLabel).None? ==> RowsFor(tables, src, nodeLabel) == []
    ensures forall t | t in tables && t.nodeLabel == nodeLabel && t.primaryKey.Some? :: KeyOf(tables, nodeLabel).Some?
    ensures forall t, r | t in tables && t.nodeLabel == nodeLabel && t.primaryKey.Some? && r in src.rows(t) ::
              r in RowsFor(tables, src, nodeLabel)
  {
    if tables != [] {
      assert tables == tables[..|tables| - 1] + [tables[|tables| - 1]];
      KeyOfIs(tables[..|tables| - 1], src, nodeLabel);
    }
  }

  function At(g: Graph, id: NodeId): Option<Props> {
    if id in g.nodes then Some(g.nodes[id]) else None
  }

  /** What the rows with key `k` make of a node, row by row. */
  function NodeAfter(x: Option<Props>, key: string, tag: string, rows: seq<Row>, k: Value): Option<Props> {
    if rows == [] then x
    else
      var y, r := NodeAfter(x, key, tag, rows[..|rows| - 1], k), rows[|rows| - 1];
      if Cell(r, key) == k then Some(Update(if y.Some? then y.value else map[key := k], r, tag)) else y
  }

  lemma {:induction false} NodeAfterAppend(x: Option<Props>, key: string, tag: string, a: seq<Row>, b: seq<Row>,
                                           k: Value)
    ensures NodeAfter(x, key, tag, a + b, k) == NodeAfter(NodeAfter(x, key, tag, a, k), key, tag, b, k)
  {
    if b == [] {
      assert a + b == a;
    } else {
      assert (a + b)[..|a + b| - 1] == a + b[..|b| - 1];
      NodeAfterAppend(x, key, tag, a, b[..|b| - 1], k);
    }
  }

  /** Created nodes, counted. */
  function Created(nodeLabel: string, tag: string, rows: seq<Row>): multiset<(string, Props)> {
    if rows == [] then multiset{}
    else Created(nodeLabel, tag, rows[..|rows| - 1]) + multiset{(nodeLabel, Update(map[], rows[|rows| - 1], tag))}
  }

  function CreatedBy(t: Table, src: Source): multiset<(string, Props)> {
    if t.primaryKey.Some? then multiset{} else Created(t.nodeLabel, src.tag, src.rows(t))
  }

  function TableAt(t: Table, x: Option<Props>, id: NodeId, src: Source): Option<Props> {
    if t.primaryKey.Some? && t.nodeLabel == id.nodeLabel
    then NodeAfter(x, t.primaryKey.value, src.tag, src.rows(t), id.key) else x
  }

  lemma {:induction false} MergeAt(g: Graph, nodeLabel: string, key: string, tag: string, rows: seq<Row>, id: NodeId)
    ensures var g' := ApplyAll(MergeNode(nodeLabel, key, tag), g, NodeParams(rows));
            && At(g', id) == (if id.nodeLabel == nodeLabel then NodeAfter(At(g, id), key, tag, rows, id.key)
                              else At(g, id))
            && g'.loose == g.loose && g'.edges == g.edges
  {
    if rows != [] {
      var ps := NodeParams(rows);
      assert ps[..|ps| - 1] == NodeParams(rows[..|rows| - 1]);
      MergeAt(g, nodeLabel, key, tag, rows[..|rows| - 1], id);
    }
  }

  lemma {:induction false} CreateAt(g: Graph, nodeLabel: string, tag: string, rows: seq<Row>)
    ensures ApplyAll(CreateNode(nodeLabel, tag), g, NodeParams(rows)) ==
            g.(loose := g.loose + Created(nodeLabel, tag, rows))
  {
    if rows != [] {
      var ps := NodeParams(rows);
      assert ps[..|ps| - 1] == NodeParams(rows[..|rows| - 1]);
      CreateAt(g, nodeLabel, tag, rows[..|rows| - 1]);
    }
  }

  lemma TableLoaded(g: Graph, t: Table, src: Source, id: NodeId)
    ensures var g' := ApplyAll(NodeStatement(t, src.tag), g, NodeParams(src.rows(t)));
            At(g', id) == TableAt(t, At(g, id), id, src) && g'.loose == g.loose + CreatedBy(t, src)
              && g'.edges == g.edges
  {
    if t.primaryKey.Some? {
      MergeAt(g, t.nodeLabel, t.primaryKey.value, src.tag, src.rows(t), id);
    } else {
      CreateAt(g, t.nodeLabel, src.tag, src.rows(t));
    }
  }

  function AllCreated(tables: seq<Table>, src: Source): multiset<(string, Props)> {
    if tables == [] then multiset{}
    else AllCreated(tables[..|tables| - 1], src) + CreatedBy(tables[|tables| - 1], src)
  }

  /** What the rows of all tables with a node's label make of it. */
  function LabelAt(tables: seq<Table>, x: Option<Props>, id: NodeId, src: Source): Option<Props> {
    match KeyOf(tables, id.nodeLabel)
    case None => x
    case Some(key) => NodeAfter(x, key, src.tag, RowsFor(tables, src, id.nodeLabel), id.key)
  }

  lemma LabelSnoc(tables: seq<Table>, x: Option<Props>, id: NodeId, src: Source)
    requires KeyedAlike(tables) && tables != []
    ensures LabelAt(tables, x, id, src) ==
            TableAt(tables[|tables| - 1], LabelAt(tables[..|tables| - 1], x, id, src), id, src)
  {
    hide NodeAfter, KeyedAlike;
    var init, t := tables[..|tables| - 1], tables[|tables| - 1];
    KeyOfIs(init, src, id.nodeLabel);
    if t.primaryKey.Some? && t.nodeLabel == id.nodeLabel {
      SameKey(tables, t, id.nodeLabel);
      NodeAfterAppend(x, t.primaryKey.value, src.tag, RowsFor(init, src, id.nodeLabel), src.rows(t), id.key);
      NodeAfterNone(x, t.primaryKey.value, src.tag, id.key);
    } else {
      assert RowsFor(tables, src, id.nodeLabel) == RowsFor(init, src, id.nodeLabel);
    }
  }

  lemma NodeAfterNone(x: Option<Props>, key: string, tag: string, k: Value)
    ensures NodeAfter(x, key, tag, [], k) == x
  {
  }

  lemma SameKey(tables: seq<Table>, t: Table, nodeLabel: string)
    requires KeyedAlike(tables) && tables != [] && t == tables[|tables| - 1] && t.nodeLabel == nodeLabel
    ensures KeyOf(tables[..|tables| - 1], nodeLabel).Some? ==> KeyOf(tables[..|tables| - 1], nodeLabel) == t.primaryKey
  {
    KeyOfIs(tables[..|tables| - 1], Source(_ => [], "", (_, _) => ""), nodeLabel);
    assert forall s | s in tables[..|tables| - 1] :: s in tables;
  }

  /** After all node writes, a node is what the rows of the tables with its label make of it. */
  lemma {:induction false} NodesAt(g: Graph, tables: seq<Table>, src: Source, id: NodeId)
    requires KeyedAlike(tables)
    ensures var g' := LoadNodes(g, tables, src);
            At(g', id) == LabelAt(tables, At(g, id), id, src) && g'.loose == g.loose + AllCreated(tables, src)
              && g'.edges == g.edges
  {
    hide KeyedAlike, LabelAt, TableAt;
    if tables == [] {
      LabelNone(At(g, id), id, src);
    } else {
      var init, t := tables[..|tables| - 1], tables[|tables| - 1];
      AlikeInit(tables);
      NodesAt(g, init, src, id);
      TableLoaded(LoadNodes(g, init, src), t, src, id);
      LabelSnoc(tables, At(g, id), id, src);
    }
  }

  lemma LabelNone(x: Option<Props>, id: NodeId, src: Source)
    ensures LabelAt([], x, id, src) == x
  {
  }

  // ---- edges -------------------------------------------------------------------------------------------------------

  /** The edge a row gives through a foreign key whose target is `target`. */
  function RowEdge(t: Table, fk: ForeignKey, target: Table, r: Row, src: Source): Edge
    requires t.primaryKey.Some?
  {
    Edge(NodeId(t.nodeLabel, Cell(r, t.primaryKey.value)), src.rel(fk.column, target.nodeLabel),
         NodeId(target.nodeLabel, Cell(r, fk.column)))
  }

  /** Does this row of `t` ask for edge `e` through `fk`: both tables keyed, cell not blank, target node present? */
  predicate AsksFor(nodes: map<NodeId, Props>, all: seq<Table>, t: Table, fk: ForeignKey, src: Source, r: Row,
                    e: Edge) {
    var target := Target(all, fk.table);
    && target.Some? && target.value.primaryKey.Some? && t.primaryKey.Some?
    && !Blank(Cell(r, fk.column))
    && e == RowEdge(t, fk, target.value, r, src)
    && e.dst in nodes
  }

  ghost predicate AsksAmong(nodes: map<NodeId, Props>, all: seq<Table>, t: Table, fk: ForeignKey, src: Source,
                            rows: seq<Row>, e: Edge) {
    e.src in nodes && exists r :: r in rows && AsksFor(nodes, all, t, fk, src, r, e)
  }

  ghost predicate AsksThrough(nodes: map<NodeId, Props>, all: seq<Table>, t: Table, fk: ForeignKey, src: Source,
                              e: Edge) {
    AsksAmong(nodes, all, t, fk, src, src.rows(t), e)
  }

  lemma AsksSnoc(nodes: map<NodeId, Props>, all: seq<Table>, t: Table, fk: ForeignKey, src: Source, rows: seq<Row>,
                 r: Row, e: Edge)
    ensures AsksAmong(nodes, all, t, fk, src, rows + [r], e) <==>
            AsksAmong(nodes, all, t, fk, src, rows, e) || (e.src in nodes && AsksFor(nodes, all, t, fk, src, r, e))
  {
    assert r in rows + [r];
  }

  lemma PairLinked(g: Graph, all: seq<Table>, t: Table, fk: ForeignKey, src: Source, r: Row, e: Edge)
    requires Target(all, fk.table).Some? && Target(all, fk.table).value.primaryKey.Some? && t.primaryKey.Some?
    requires !Blank(Cell(r, fk.column))
    ensures var target := Target(all, fk.table).value;
            var g' := ApplyOne(MergeEdge(t.nodeLabel, src.rel(fk.column, target.nodeLabel), target.nodeLabel), g,
                               Pair(Cell(r, t.primaryKey.value), Cell(r, fk.column)));
            && g'.nodes == g.nodes && g'.loose == g.loose
            && (e in g'.edges <==> e in g.edges || (e.src in g.nodes && AsksFor(g.nodes, all, t, fk, src, r, e)))
  {
  }

  lemma {:induction false} PairsLinked(g: Graph, all: seq<Table>, t: Table, fk: ForeignKey, src: Source,
                                       rows: seq<Row>, e: Edge)
    requires Target(all, fk.table).Some? && Target(all, fk.table).value.primaryKey.Some? && t.primaryKey.Some?
    ensures var target := Target(all, fk.table).value;
            var g' := ApplyAll(MergeEdge(t.nodeLabel, src.rel(fk.column, target.nodeLabel), target.nodeLabel), g,
                               Pairs(rows, t.primaryKey.value, fk.column));
            && g'.nodes == g.nodes && g'.loose == g.loose
            && (e in g'.edges <==>
                  e in g.edges || AsksAmong(g.nodes, all, t, fk, src, rows, e))
  {
    if rows != [] {
      var init, r := rows[..|rows| - 1], rows[|rows| - 1];
      assert rows == init + [r];
      PairsLinked(g, all, t, fk, src, init, e);
      AsksSnoc(g.nodes, all, t, fk, src, init, r, e);
      var target := Target(all, fk.table).value;
      var s := MergeEdge(t.nodeLabel, src.rel(fk.column, target.nodeLabel), target.nodeLabel);
      var ps := Pairs(rows, t.primaryKey.value, fk.column);
      if !Blank(Cell(r, fk.column)) {
        PairLinked(ApplyAll(s, g, Pairs(init, t.primaryKey.value, fk.column)), all, t, fk, src, r, e);
        assert ps[..|ps| - 1] == Pairs(init, t.primaryKey.value, fk.column);
      } else {
        assert ps == Pairs(init, t.primaryKey.value, fk.column);
      }
    }
  }

  lemma KeyLinked(g: Graph, all: seq<Table>, t: Table, fk: ForeignKey, src: Source, e: Edge)
    ensures var g' := LoadKey(g, all, t, fk, src);
            && g'.nodes == g.nodes && g'.loose == g.loose
            && (e in g'.edges <==> e in g.edges || AsksThrough(g.nodes, all, t, fk, src, e))
  {
    var target := Target(all, fk.table);
    if target.Some? && target.value.primaryKey.Some? && t.primaryKey.Some? {
      PairsLinked(g, all, t, fk, src, src.rows(t), e);
    }
  }

  lemma {:induction false} KeysLinked(g: Graph, all: seq<Table>, t: Table, fks: seq<ForeignKey>, src: Source, e: Edge)
    ensures var g' := LoadKeys(g, all, t, fks, src);
            && g'.nodes == g.nodes && g'.loose == g.loose
            && (e in g'.edges <==> e in g.edges || exists fk :: fk in fks && AsksThrough(g.nodes, all, t, fk, src, e))
  {
    if fks != [] {
      var init, fk := fks[..|fks| - 1], fks[|fks| - 1];
      assert fks == init + [fk];
      KeysLinked(g, all, t, init, src, e);
      KeyLinked(LoadKeys(g, all, t, init, src), all, t, fk, src, e);
    }
  }

  ghost predicate AskedBy(nodes: map<NodeId, Props>, all: seq<Table>, t: Table, src: Source, e: Edge) {
    exists fk :: fk in t.foreignKeys && AsksThrough(nodes, all, t, fk, src, e)
  }

  ghost predicate AskedAmong(nodes: map<NodeId, Props>, all: seq<Table>, tables: seq<Table>, src: Source, e: Edge) {
    exists t :: t in tables && AskedBy(nodes, all, t, src, e)
  }

  lemma {:induction false} EdgesLinked(g: Graph, all: seq<Table>, tables: seq<Table>, src: Source, e: Edge)
    ensures var g' := LoadEdges(g, all, tables, src);
            && g'.nodes == g.nodes && g'.loose == g.loose
            && (e in g'.edges <==> e in g.edges || AskedAmong(g.nodes, all, tables, src, e))
  {
    if tables != [] {
      var init, t := tables[..|tables| - 1], tables[|tables| - 1];
      assert tables == init + [t];
      EdgesLinked(g, all, init, src, e);
      assert AskedAmong(g.nodes, all, tables, src, e) <==>
        AskedAmong(g.nodes, all, init, src, e) || AskedBy(g.nodes, all, t, src, e);
      KeysLinked(LoadEdges(g, all, init, src), all, t, t.foreignKeys, src, e);
    }
  }

  // ---- the loaded graph --------------------------------------------------------------------------------------------

  lemma {:induction false} LoadedRow(x: Option<Props>, key: string, tag: string, rows: seq<Row>, r: Row)
    requires r in rows
    ensures NodeAfter(x, key, tag, rows, Cell(r, key)).Some?
  {
    var init := rows[..|rows| - 1];
    assert rows == init + [rows[|rows| - 1]];
    if r in init {
      LoadedRow(x, key, tag, init, r);
    }
  }

  lemma RowWritten(g: Graph, tables: seq<Table>, src: Source, t: Table, r: Row)
    requires KeyedAlike(tables) && t in tables && t.primaryKey.Some? && r in src.rows(t)
    ensures NodeId(t.nodeLabel, Cell(r, t.primaryKey.value)) in LoadNodes(g, tables, src).nodes
  {
    var id := NodeId(t.nodeLabel, Cell(r, t.primaryKey.value));
    NodesAt(g, tables, src, id);
    KeyOfIs(tables, src, t.nodeLabel);
    assert KeyOf(tables, t.nodeLabel) == t.primaryKey;
    LoadedRow(At(g, id), t.primaryKey.value, src.tag, RowsFor(tables, src, t.nodeLabel), r);
  }

  /** The new edges are exactly the non-blank foreign-key cells between keyed tables whose target node exists once all
      nodes are written; the source end always does. */
  lemma NewEdgesExact(g: Graph, tables: seq<Table>, src: Source, e: Edge)
    requires KeyedAlike(tables)
    ensures e in Load(g, tables, src).edges <==>
            e in g.edges ||
            exists t, fk, r :: t in tables && fk in t.foreignKeys && r in src.rows(t) &&
              AsksFor(LoadNodes(g, tables, src).nodes, tables, t, fk, src, r, e)
  {
    hide KeyedAlike, LoadNodes;
    var g' := LoadNodes(g, tables, src);
    NodesAt(g, tables, src, e.src);
    EdgesLinked(g', tables, tables, src, e);
    forall t, fk, r | t in tables && fk in t.foreignKeys && r in src.rows(t)
      && AsksFor(g'.nodes, tables, t, fk, src, r, e)
      ensures AskedBy(g'.nodes, tables, t, src, e)
    {
      RowWritten(g, tables, src, t, r);
      assert AsksThrough(g'.nodes, tables, t, fk, src, e);
    }
  }

  lemma MapsEqual(m: map<NodeId, Props>, n: map<NodeId, Props>)
    requires forall id :: id in m <==> id in n
    requires forall id | id in m :: m[id] == n[id]
    ensures m == n
  {
    assert m.Keys == n.Keys;
  }

  // ---- idempotence -------------------------------------------------------------------------------------------------

  function Prop(p: Props, c: string): Option<Value> {
    if c in p then Some(p[c]) else None
  }

  /** What the rows with key `k` last wrote to a property: nothing, or a value, or its removal. */
  function LastWrite(key: string, tag: string, rows: seq<Row>, k: Value, c: string): Option<Option<Value>> {
    if rows == [] then None
    else
      var r := rows[|rows| - 1];
      if Cell(r, key) != k then LastWrite(key, tag, rows[..|rows| - 1], k, c)
      else if c == "_source" then Some(Some(Str(tag)))
      else if c in r then Some(if r[c] == Null then None else Some(r[c]))
      else LastWrite(key, tag, rows[..|rows| - 1], k, c)
  }

  /** A node that is loaded starts from what it was, or from its key alone. */
  function Start(x: Option<Props>, key: string, k: Value): Props {
    if x.Some? then x.value else map[key := k]
  }

  /** Last write wins, property by property; a node appears exactly when it existed or some row has its key. */
  lemma {:induction false} LastWriteWins(x: Option<Props>, key: string, tag: string, rows: seq<Row>, k: Value,
                                         c: string)
    ensures var y := NodeAfter(x, key, tag, rows, k);
            && (y.Some? <==> x.Some? || exists r :: r in rows && Cell(r, key) == k)
            && (y.Some? ==> Prop(y.value, c) == match LastWrite(key, tag, rows, k, c)
                                                case None => Prop(Start(x, key, k), c)
                                                case Some(v) => v)
  {
    if rows != [] {
      var init := rows[..|rows| - 1];
      assert rows == init + [rows[|rows| - 1]];
      LastWriteWins(x, key, tag, init, k, c);
      if Cell(rows[|rows| - 1], key) == k && NodeAfter(x, key, tag, init, k).None? {
        NoRowNoWrite(key, tag, init, k, c);
      }
    }
  }

  lemma {:induction false} NoRowNoWrite(key: string, tag: string, rows: seq<Row>, k: Value, c: string)
    requires forall r | r in rows :: Cell(r, key) != k
    ensures LastWrite(key, tag, rows, k, c) == None
  {
    if rows != [] {
      assert rows == rows[..|rows| - 1] + [rows[|rows| - 1]];
      NoRowNoWrite(key, tag, rows[..|rows| - 1], k, c);
    }
  }

  lemma NodeAfterIdempotent(x: Option<Props>, key: string, tag: string, rows: seq<Row>, k: Value)
    ensures var y := NodeAfter(x, key, tag, rows, k); NodeAfter(y, key, tag, rows, k) == y
  {
    var y := NodeAfter(x, key, tag, rows, k);
    var z := NodeAfter(y, key, tag, rows, k);
    LastWriteWins(x, key, tag, rows, k, "");
    LastWriteWins(y, key, tag, rows, k, "");
    if y.Some? {
      forall c
        ensures Prop(z.value, c) == Prop(y.value, c)
      {
        LastWriteWins(x, key, tag, rows, k, c);
        LastWriteWins(y, key, tag, rows, k, c);
      }
      PropsEqual(y.value, z.value);
    }
  }

  lemma PropsEqual(p: Props, q: Props)
    requires forall c :: Prop(p, c) == Prop(q, c)
    ensures p == q
  {
    assert forall c :: (c in p <==> Prop(p, c).Some?) && (c in q <==> Prop(q, c).Some?);
    assert p.Keys == q.Keys;
    assert forall c | c in p :: Prop(p, c) == Some(p[c]) && Prop(q, c) == Some(q[c]);
  }

  lemma LabelIdempotent(tables: seq<Table>, x: Option<Props>, id: NodeId, src: Source)
    ensures var y := LabelAt(tables, x, id, src); LabelAt(tables, y, id, src) == y
  {
    var key := KeyOf(tables, id.nodeLabel);
    if key.Some? {
      NodeAfterIdempotent(x, key.value, src.tag, RowsFor(tables, src, id.nodeLabel), id.key);
    }
  }

  lemma NodesReloaded(g: Graph, h: Graph, tables: seq<Table>, src: Source)
    requires KeyedAlike(tables) && h.nodes == LoadNodes(g, tables, src).nodes
    ensures LoadNodes(h, tables, src).nodes == h.nodes
  {
    hide KeyedAlike, LoadNodes, LabelAt;
    var h' := LoadNodes(h, tables, src);
    forall id
      ensures At(h', id) == At(h, id)
    {
      NodesAt(g, tables, src, id);
      NodesAt(h, tables, src, id);
      assert At(h, id) == At(LoadNodes(g, tables, src), id);
      LabelIdempotent(tables, At(g, id), id, src);
    }
    forall id
      ensures (id in h'.nodes <==> id in h.nodes) && (id in h'.nodes ==> h'.nodes[id] == h.nodes[id])
    {
      assert At(h', id) == At(h, id);
    }
    MapsEqual(h'.nodes, h.nodes);
  }

  /** Loading a second time changes nothing but the nodes without identity, which are created once more. */
  lemma LoadTwice(g: Graph, tables: seq<Table>, src: Source)
    requires KeyedAlike(tables)
    ensures var once := Load(g, tables, src);
            Load(once, tables, src) == once.(loose := once.loose + AllCreated(tables, src))
  {
    var once := Load(g, tables, src);
    var g1, g2 := LoadNodes(g, tables, src), LoadNodes(once, tables, src);
    var twice := Load(once, tables, src);
    var some := Edge(NodeId("", Null), "", NodeId("", Null));
    EdgesLinked(g1, tables, tables, src, some);
    EdgesLinked(g2, tables, tables, src, some);
    NodesReloaded(g, once, tables, src);
    NodesAt(once, tables, src, some.src);
    forall e
      ensures e in twice.edges <==> e in once.edges
    {
      EdgesLinked(g1, tables, tables, src, e);
      EdgesLinked(g2, tables, tables, src, e);
    }
    assert twice.edges == once.edges;
  }

  lemma {:induction false} CreatedCount(nodeLabel: string, tag: string, rows: seq<Row>)
    ensures |Created(nodeLabel, tag, rows)| == |rows|
  {
    if rows != [] {
      CreatedCount(nodeLabel, tag, rows[..|rows| - 1]);
    }
  }

  lemma {:induction false} NothingCreated(tables: seq<Table>, src: Source)
    ensures AllCreated(tables, src) == multiset{} <==> forall t | t in tables && t.primaryKey.None? :: src.rows(t) == []
  {
    if tables != [] {
      var init, t := tables[..|tables| - 1], tables[|tables| - 1];
      assert tables == init + [t];
      NothingCreated(init, src);
      CreatedCount(t.nodeLabel, src.tag, src.rows(t));
      assert |AllCreated(tables, src)| == |AllCreated(init, src)| + |CreatedBy(t, src)|;
    }
  }

  /** Loading is idempotent, from any starting graph, exactly when every table with rows has a key. */
  lemma IdempotentIffKeyed(g: Graph, tables: seq<Table>, src: Source)
    requires KeyedAlike(tables)
    ensures Load(Load(g, tables, src), tables, src) == Load(g, tables, src) <==>
            forall t | t in tables && t.primaryKey.None? :: src.rows(t) == []
  {
    LoadTwice(g, tables, src);
    NothingCreated(tables, src);
    var l, c := Load(g, tables, src).loose, AllCreated(tables, src);
    assert |l + c| == |l| + |c|;
  }

  lemma {:induction false} RowsForIs(tables: seq<Table>, src: Source, nodeLabel: string, r: Row)
    ensures r in RowsFor(tables, src, nodeLabel) <==>
            exists t :: t in tables && t.nodeLabel == nodeLabel && t.primaryKey.Some? && r in src.rows(t)
  {
    if tables != [] {
      assert tables == tables[..|tables| - 1] + [tables[|tables| - 1]];
      RowsForIs(tables[..|tables| - 1], src, nodeLabel, r);
    }
  }

  /** Does some row of a keyed table write this node? */
  ghost predicate RowNames(tables: seq<Table>, src: Source, id: NodeId, t: Table, r: Row) {
    && t in tables && t.nodeLabel == id.nodeLabel && r in src.rows(t)
    && t.primaryKey.Some?
    && (if t.primaryKey.value in r then r[t.primaryKey.value] == id.key else id.key == Null)
  }

  /** The keyed nodes after a load: the old ones, and those that a row of a keyed table names. */
  lemma NodesAre(g: Graph, tables: seq<Table>, src: Source, id: NodeId)
    requires KeyedAlike(tables)
    ensures id in LoadNodes(g, tables, src).nodes <==>
            id in g.nodes || exists t, r :: RowNames(tables, src, id, t, r)
  {
    NodesAt(g, tables, src, id);
    KeyOfIs(tables, src, id.nodeLabel);
    var key, rows := KeyOf(tables, id.nodeLabel), RowsFor(tables, src, id.nodeLabel);
    if key.Some? {
      LastWriteWins(At(g, id), key.value, src.tag, rows, id.key, "");
      var s :| s in tables && s.nodeLabel == id.nodeLabel && s.primaryKey == key;
      assert forall t | t in tables && t.nodeLabel == id.nodeLabel :: t.primaryKey == key;
      hide KeyedAlike, LoadNodes, RowsFor, KeyOf;
      if r: Row :| r in rows && Cell(r, key.value) == id.key {
        RowsForIs(tables, src, id.nodeLabel, r);
        var t :| t in tables && t.nodeLabel == id.nodeLabel && t.primaryKey.Some? && r in src.rows(t);
        assert RowNames(tables, src, id, t, r);
      }
      if t, r :| RowNames(tables, src, id, t, r) {
        RowsForIs(tables, src, id.nodeLabel, r);
        assert r in rows && Cell(r, key.value) == id.key;
      }
    }
  }

  /** The first table listed under a name. */
  ghost predicate FirstNamed(tables: seq<Table>, u: Table, name: string) {
    exists i :: 0 <= i < |tables| && tables[i] == u && u.name == name && forall j | 0 <= j < i :: tables[j].name != name
  }

  /** Is this the edge that row `r` of `t` gives through `fk`, with `u` at the far end? A cell that holds 0 gives one;
      one that is missing, null or the empty text does not. */
  ghost predicate Gives(t: Table, fk: ForeignKey, r: Row, u: Table, src: Source, e: Edge) {
    && t.primaryKey.Some? && u.primaryKey.Some?
    && fk.column in r && r[fk.column] != Null && r[fk.column] != Str("")
    && e.src == NodeId(t.nodeLabel, if t.primaryKey.value in r then r[t.primaryKey.value] else Null)
    && e.rel == src.rel(fk.column, u.nodeLabel)
    && e.dst == NodeId(u.nodeLabel, r[fk.column])
  }

  lemma {:induction false} TargetIsFirst(tables: seq<Table>, name: string, u: Table)
    ensures Target(tables, name) == Some(u) <==> FirstNamed(tables, u, name)
  {
    if tables != [] {
      TargetIsFirst(tables[1..], name, u);
      if tables[0].name == name {
        assert FirstNamed(tables, tables[0], name);
      } else {
        ShiftFirst(tables, u, name);
      }
    }
  }

  lemma ShiftFirst(tables: seq<Table>, u: Table, name: string)
    requires tables != [] && tables[0].name != name
    ensures FirstNamed(tables[1..], u, name) <==> FirstNamed(tables, u, name)
  {
    if FirstNamed(tables[1..], u, name) {
      var i :| 0 <= i < |tables| - 1 && tables[1..][i] == u && u.name == name
               && forall j | 0 <= j < i :: tables[1..][j].name != name;
      forall j | 0 <= j < i + 1
        ensures tables[j].name != name
      {
        assert j > 0 ==> tables[1..][j - 1] == tables[j];
      }
      assert tables[i + 1] == u;
    }
    if FirstNamed(tables, u, name) {
      var i :| 0 <= i < |tables| && tables[i] == u && u.name == name
               && forall j | 0 <= j < i :: tables[j].name != name;
      assert forall j | 0 <= j < i - 1 :: tables[1..][j] == tables[j + 1];
      assert tables[1..][i - 1] == u;
    }
  }

  lemma AsksIsGives(nodes: map<NodeId, Props>, all: seq<Table>, t: Table, fk: ForeignKey, src: Source, r: Row, e: Edge)
    ensures AsksFor(nodes, all, t, fk, src, r, e) <==>
            e.dst in nodes && exists u :: FirstNamed(all, u, fk.table) && Gives(t, fk, r, u, src, e)
  {
    forall u: Table
      ensures Target(all, fk.table) == Some(u) <==> FirstNamed(all, u, fk.table)
    {
      TargetIsFirst(all, fk.table, u);
    }
    hide FirstNamed, Target;
  }

  ghost predicate SomeRowGives(tables: seq<Table>, src: Source, e: Edge) {
    exists t, fk, r, u ::
      && t in tables && fk in t.foreignKeys && r in src.rows(t)
      && FirstNamed(tables, u, fk.table) && Gives(t, fk, r, u, src, e)
  }

  lemma SomeRowAsks(nodes: map<NodeId, Props>, tables: seq<Table>, src: Source, e: Edge)
    ensures (exists t, fk, r :: t in tables && fk in t.foreignKeys && r in src.rows(t) &&
               AsksFor(nodes, tables, t, fk, src, r, e)) <==>
            e.dst in nodes && SomeRowGives(tables, src, e)
  {
    hide AsksFor, FirstNamed, Gives;
    if t, fk, r :| t in tables && fk in t.foreignKeys && r in src.rows(t) && AsksFor(nodes, tables, t, fk, src, r, e) {
      AsksIsGives(nodes, tables, t, fk, src, r, e);
    }
    if e.dst in nodes && SomeRowGives(tables, src, e) {
      var t, fk, r, u :| t in tables && fk in t.foreignKeys && r in src.rows(t) && FirstNamed(tables, u, fk.table)
                         && Gives(t, fk, r, u, src, e);
      AsksIsGives(nodes, tables, t, fk, src, r, e);
    }
  }

  /** The edges after a load, from the tables and rows alone. */
  lemma EdgesAre(g: Graph, tables: seq<Table>, src: Source, e: Edge)
    requires KeyedAlike(tables)
    ensures e in Load(g, tables, src).edges <==>
            || e in g.edges
            || (SomeRowGives(tables, src, e)
                && (e.dst in g.nodes || exists t, r :: RowNames(tables, src, e.dst, t, r)))
  {
    hide Load, LoadNodes, AsksFor, SomeRowGives, RowNames, KeyedAlike;
    NewEdgesExact(g, tables, src, e);
    NodesAre(g, tables, src, e.dst);
    SomeRowAsks(LoadNodes(g, tables, src).nodes, tables, src, e);
  }

  // ---- the order of the tables -------------------------------------------------------------------------------------

  /** Labels are computed from names. */
  ghost predicate LabelsFromNames(tables: seq<Table>) {
    forall s, t | s in tables && t in tables && s.name == t.name :: s.nodeLabel == t.nodeLabel
  }

  /** No table shares the label of a keyed one. Tables without a key may share theirs: their rows are created one by
      one. */
  ghost predicate SoleKeyed(tables: seq<Table>) {
    forall s, t | s in tables && t in tables && s.nodeLabel == t.nodeLabel && s.primaryKey.Some? :: s == t
  }

  function Without(q: seq<Table>, i: nat): seq<Table>
    requires i < |q|
  {
    q[..i] + q[i + 1..]
  }

  lemma WithoutInit(q: seq<Table>, i: nat)
    requires i < |q| - 1
    ensures var w := Without(q, i); w != [] && w[|w| - 1] == q[|q| - 1] && w[..|w| - 1] == Without(q[..|q| - 1], i)
  {
  }

  lemma WithoutCounts(q: seq<Table>, i: nat)
    requires i < |q|
    ensures multiset(q) == multiset(Without(q, i)) + multiset{q[i]}
    ensures forall t | t in Without(q, i) :: t in q
  {
    assert q == q[..i] + [q[i]] + q[i + 1..];
  }

  /** The last table of one listing, found in another. */
  lemma LastFound(a: seq<Table>, b: seq<Table>) returns (i: nat)
    requires a != [] && multiset(a) == multiset(b)
    ensures i < |b| && b[i] == a[|a| - 1] && multiset(Without(b, i)) == multiset(a[..|a| - 1])
  {
    var t := a[|a| - 1];
    assert a == a[..|a| - 1] + [t];
    assert t in multiset(b);
    i :| 0 <= i < |b| && b[i] == t;
    WithoutCounts(b, i);
    CancelOne(multiset(a[..|a| - 1]), multiset(Without(b, i)), t);
  }

  lemma CancelOne(x: multiset<Table>, y: multiset<Table>, t: Table)
    requires x + multiset{t} == y + multiset{t}
    ensures x == y
  {
    assert x == (x + multiset{t}) - multiset{t} && y == (y + multiset{t}) - multiset{t};
  }

  lemma SameMembers(a: seq<Table>, b: seq<Table>)
    requires multiset(a) == multiset(b)
    ensures forall t :: t in a <==> t in b
  {
    assert forall t :: (t in a <==> t in multiset(a)) && (t in b <==> t in multiset(b));
  }

  /** The rows a table writes to keyed nodes of a label. */
  function Share(t: Table, src: Source, nodeLabel: string): seq<Row> {
    if t.nodeLabel == nodeLabel && t.primaryKey.Some? then src.rows(t) else []
  }

  lemma RowsSnoc(q: seq<Table>, src: Source, nodeLabel: string)
    requires q != []
    ensures RowsFor(q, src, nodeLabel) == RowsFor(q[..|q| - 1], src, nodeLabel) + Share(q[|q| - 1], src, nodeLabel)
  {
  }

  lemma {:induction false} RowsWithout(q: seq<Table>, i: nat, src: Source, nodeLabel: string)
    requires i < |q| && SoleKeyed(q)
    ensures RowsFor(q, src, nodeLabel) == RowsFor(Without(q, i), src, nodeLabel) + Share(q[i], src, nodeLabel)
  {
    var init, t := q[..|q| - 1], q[|q| - 1];
    RowsSnoc(q, src, nodeLabel);
    if i == |q| - 1 {
      assert Without(q, i) == init;
    } else {
      WithoutInit(q, i);
      assert forall s | s in init :: s in q;
      RowsWithout(init, i, src, nodeLabel);
      RowsSnoc(Without(q, i), src, nodeLabel);
      SharesCommute(q, init[i], t, src, nodeLabel);
      Reassociate(RowsFor(Without(init, i), src, nodeLabel), Share(init[i], src, nodeLabel), Share(t, src, nodeLabel));
      hide SoleKeyed, RowsFor, Share, Without;
    }
  }

  lemma SharesCommute(q: seq<Table>, s: Table, t: Table, src: Source, nodeLabel: string)
    requires SoleKeyed(q) && s in q && t in q
    ensures Share(s, src, nodeLabel) + Share(t, src, nodeLabel) == Share(t, src, nodeLabel) + Share(s, src, nodeLabel)
  {
    assert s == t || Share(s, src, nodeLabel) == [] || Share(t, src, nodeLabel) == [];
  }

  lemma Reassociate(x: seq<Row>, y: seq<Row>, z: seq<Row>)
    requires y + z == z + y
    ensures (x + y) + z == (x + z) + y
  {
    assert (x + y) + z == x + (y + z) && (x + z) + y == x + (z + y);
  }

  lemma {:induction false} CreatedWithout(q: seq<Table>, i: nat, src: Source)
    requires i < |q|
    ensures AllCreated(q, src) == AllCreated(Without(q, i), src) + CreatedBy(q[i], src)
  {
    var init := q[..|q| - 1];
    if i == |q| - 1 {
      assert Without(q, i) == init;
    } else {
      WithoutInit(q, i);
      CreatedWithout(init, i, src);
      hide CreatedBy, Without;
    }
  }

  /** What is written to the nodes of a label, and what is created, is the same whatever the order of the tables. */
  lemma {:induction false} RowsPermuted(a: seq<Table>, b: seq<Table>, src: Source, nodeLabel: string)
    requires SoleKeyed(a) && multiset(a) == multiset(b)
    ensures RowsFor(a, src, nodeLabel) == RowsFor(b, src, nodeLabel)
    decreases |a|
  {
    if a == [] {
      assert |multiset(b)| == 0;
    } else {
      var i := LastFound(a, b);
      var init := a[..|a| - 1];
      SameMembers(a, b);
      assert forall t | t in init :: t in a;
      RowsPermuted(init, Without(b, i), src, nodeLabel);
      RowsWithout(b, i, src, nodeLabel);
      RowsSnoc(a, src, nodeLabel);
    }
  }

  lemma {:induction false} CreatedPermuted(a: seq<Table>, b: seq<Table>, src: Source)
    requires multiset(a) == multiset(b)
    ensures AllCreated(a, src) == AllCreated(b, src)
    decreases |a|
  {
    if a == [] {
      assert |multiset(b)| == 0;
    } else {
      var i := LastFound(a, b);
      CreatedPermuted(a[..|a| - 1], Without(b, i), src);
      CreatedWithout(b, i, src);
    }
  }

  lemma KeyPermuted(a: seq<Table>, b: seq<Table>, nodeLabel: string)
    requires SoleKeyed(a) && multiset(a) == multiset(b)
    ensures KeyOf(a, nodeLabel) == KeyOf(b, nodeLabel)
  {
    SameMembers(a, b);
    var src := Source(_ => [], "", (_, _) => "");
    KeyOfIs(a, src, nodeLabel);
    KeyOfIs(b, src, nodeLabel);
  }

  lemma SolesAreAlike(tables: seq<Table>)
    requires SoleKeyed(tables)
    ensures KeyedAlike(tables)
  {
    forall s, t | s in tables && t in tables && s.nodeLabel == t.nodeLabel
      ensures s.primaryKey == t.primaryKey
    {
      assert s.primaryKey.Some? || t.primaryKey.Some? ==> s == t;
    }
  }

  lemma NodesPermuted(g: Graph, a: seq<Table>, b: seq<Table>, src: Source)
    requires SoleKeyed(a) && multiset(a) == multiset(b)
    ensures LoadNodes(g, a, src) == LoadNodes(g, b, src)
  {
    SameMembers(a, b);
    SolesAreAlike(a);
    SolesAreAlike(b);
    var ga, gb := LoadNodes(g, a, src), LoadNodes(g, b, src);
    hide SoleKeyed, KeyedAlike, LoadNodes;
    forall id
      ensures (id in ga.nodes <==> id in gb.nodes) && (id in ga.nodes ==> ga.nodes[id] == gb.nodes[id])
    {
      NodesAt(g, a, src, id);
      NodesAt(g, b, src, id);
      KeyPermuted(a, b, id.nodeLabel);
      RowsPermuted(a, b, src, id.nodeLabel);
      assert At(ga, id) == At(gb, id);
    }
    MapsEqual(ga.nodes, gb.nodes);
    CreatedPermuted(a, b, src);
    NodesAt(g, a, src, NodeId("", Null));
    NodesAt(g, b, src, NodeId("", Null));
  }

  lemma {:induction false} TargetIs(tables: seq<Table>, name: string)
    ensures Target(tables, name).None? <==> forall t | t in tables :: t.name != name
    ensures Target(tables, name).Some? ==>
              Target(tables, name).value in tables && Target(tables, name).value.name == name
  {
    if tables != [] {
      assert tables == [tables[0]] + tables[1..];
      TargetIs(tables[1..], name);
    }
  }

  /** A foreign key finds the same target in either listing, or one without a key in both. */
  lemma TargetPermuted(a: seq<Table>, b: seq<Table>, name: string)
    requires SoleKeyed(a) && LabelsFromNames(a) && multiset(a) == multiset(b)
    ensures var s, t := Target(a, name), Target(b, name);
            s == t || (s.Some? && t.Some? && s.value.primaryKey.None? && t.value.primaryKey.None?)
  {
    SameMembers(a, b);
    TargetIs(a, name);
    TargetIs(b, name);
  }

  lemma AskedPermuted(nodes: map<NodeId, Props>, a: seq<Table>, b: seq<Table>, src: Source, e: Edge)
    requires SoleKeyed(a) && LabelsFromNames(a) && multiset(a) == multiset(b)
    ensures AskedAmong(nodes, a, a, src, e) <==> AskedAmong(nodes, b, b, src, e)
  {
    SameMembers(a, b);
    forall t: Table
      ensures AskedBy(nodes, a, t, src, e) <==> AskedBy(nodes, b, t, src, e)
    {
      forall fk: ForeignKey
        ensures AsksThrough(nodes, a, t, fk, src, e) <==> AsksThrough(nodes, b, t, fk, src, e)
      {
        TargetPermuted(a, b, fk.table);
        assert forall r :: AsksFor(nodes, a, t, fk, src, r, e) <==> AsksFor(nodes, b, t, fk, src, r, e);
      }
    }
  }

  /** Where no table shares the label of a keyed one, the order in which the tables are listed does not show. */
  lemma OrderIrrelevant(g: Graph, a: seq<Table>, b: seq<Table>, src: Source)
    requires SoleKeyed(a) && LabelsFromNames(a) && multiset(a) == multiset(b)
    ensures Load(g, a, src) == Load(g, b, src)
  {
    NodesPermuted(g, a, b, src);
    var g' := LoadNodes(g, a, src);
    var ga, gb := LoadEdges(g', a, a, src), LoadEdges(g', b, b, src);
    hide SoleKeyed, LabelsFromNames, AskedAmong, LoadNodes, LoadEdges;
    forall e
      ensures e in ga.edges <==> e in gb.edges
    {
      EdgesLinked(g', a, a, src, e);
      EdgesLinked(g', b, b, src, e);
      AskedPermuted(g'.nodes, a, b, src, e);
    }
    EdgesLinked(g', a, a, src, Edge(NodeId("", Null), "", NodeId("", Null)));
    EdgesLinked(g', b, b, src, Edge(NodeId("", Null), "", NodeId("", Null)));
    assert ga.edges == gb.edges;
  }

  /** The table listed last has the last word on what its one row writes. */
  lemma LastListed(g: Graph, init: seq<Table>, t: Table, src: Source, r: Row, c: string)
    requires KeyedAlike(init + [t]) && t.primaryKey.Some? && src.rows(t) == [r]
    requires c in r && r[c] != Null && c != "_source"
    ensures var x := At(Load(g, init + [t], src), NodeId(t.nodeLabel, Cell(r, t.primaryKey.value)));
            x.Some? && Prop(x.value, c) == Some(r[c])
  {
    var q, key := init + [t], t.primaryKey.value;
    var id := NodeId(t.nodeLabel, Cell(r, key));
    hide LoadNodes, LoadEdges, NodeAfter, KeyedAlike;
    NodesAt(g, q, src, id);
    EdgesLinked(LoadNodes(g, q, src), q, q, src, Edge(id, "", id));
    assert q[..|q| - 1] == init;
    var rows := RowsFor(init, src, t.nodeLabel) + [r];
    assert RowsFor(q, src, t.nodeLabel) == rows && KeyOf(q, t.nodeLabel) == Some(key);
    assert rows[|rows| - 1] == r && r in rows;
    LastWriteWins(At(g, id), key, src.tag, rows, id.key, c);
  }

  const EMPTY := Graph(map[], multiset{}, {})

  /** Two tables with one row each, for the same node, that differ in one further column; nothing in the others. */
  function Conflict(s: Table, t: Table, key: string): Source {
    var other := key + "x";
    Source((x: Table) => if x == s then [map[key := Num(1), other := Num(1)]]
                         else if x == t then [map[key := Num(1), other := Num(2)]]
                         else [],
           "tag", (column, target) => "HAS")
  }

  /** Moving one table to the end. */
  lemma MovedLast(a: seq<Table>, t: Table) returns (init: seq<Table>)
    requires t in a
    ensures multiset(init + [t]) == multiset(a) && forall x :: x in init + [t] <==> x in a
  {
    var i :| 0 <= i < |a| && a[i] == t;
    init := Without(a, i);
    WithoutCounts(a, i);
    SameMembers(init + [t], a);
  }

  /** Two tables of one keyed label can be made to conflict, and then some order shows. */
  lemma OrderShows(a: seq<Table>, s: Table, t: Table) returns (src: Source, b: seq<Table>)
    requires KeyedAlike(a) && s in a && t in a && s.nodeLabel == t.nodeLabel && s.primaryKey.Some? && s != t
    ensures multiset(b) == multiset(a) && Load(EMPTY, a, src) != Load(EMPTY, b, src)
  {
    var key := s.primaryKey.value;
    src := Conflict(s, t, key);
    var us := MovedLast(a, s);
    var ut := MovedLast(a, t);
    var c := key + "x";
    assert c != key && c[|c| - 1] == 'x' && "_source"[6] == 'e';
    assert c != "_source";
    LastListed(EMPTY, us, s, src, map[key := Num(1), c := Num(1)], c);
    LastListed(EMPTY, ut, t, src, map[key := Num(1), c := Num(2)], c);
    b := if Load(EMPTY, a, src) != Load(EMPTY, us + [s], src) then us + [s] else ut + [t];
  }

  /** The loaded graph is independent of the order of the tables, for every starting graph, every source and every other
      listing, if and only if no table shares the label of a keyed one. */
  lemma OrderIrrelevantIff(a: seq<Table>)
    requires KeyedAlike(a) && LabelsFromNames(a)
    ensures (forall g, src, b | multiset(b) == multiset(a) :: Load(g, a, src) == Load(g, b, src)) <==> SoleKeyed(a)
  {
    hide Load, KeyedAlike, LabelsFromNames;
    if SoleKeyed(a) {
      forall g, src, b | multiset(b) == multiset(a)
        ensures Load(g, a, src) == Load(g, b, src)
      {
        OrderIrrelevant(g, a, b, src);
      }
    } else {
      var s, t :| s in a && t in a && s.nodeLabel == t.nodeLabel && s.primaryKey.Some? && s != t;
      var src, b := OrderShows(a, s, t);
    }
  }

  /** Every table has one row, with the same key and the table's name. */
  function NamesSource(): Source {
    Source((t: Table) => [map["id" := Num(1), "name" := Str(t.name)]], "names", (column, target) => "HAS")
  }

  /** Two keyed tables of one label whose order shows: the later one wins a property that both write. */
  lemma SharedLabelOrderShows()
    ensures var a, b := Table("order", "Order", Some("id"), []), Table("orders", "Order", Some("id"), []);
            && KeyedAlike([a, b]) && multiset([a, b]) == multiset([b, a])
            && Load(EMPTY, [a, b], NamesSource()) != Load(EMPTY, [b, a], NamesSource())
  {
    hide Load, At;
    var a, b := Table("order", "Order", Some("id"), []), Table("orders", "Order", Some("id"), []);
    assert [a] + [b] == [a, b] && [b] + [a] == [b, a];
    LastListed(EMPTY, [a], b, NamesSource(), map["id" := Num(1), "name" := Str(b.name)], "name");
    LastListed(EMPTY, [b], a, NamesSource(), map["id" := Num(1), "name" := Str(a.name)], "name");
    assert a.name != b.name;
  }
}
