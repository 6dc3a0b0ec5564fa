/** The query orchestrator: it forwards an agent stream, absorbs its `done`, and emits it last, enriched
    (src/interface/streaming/query_stream.py). */
module QueryStream {
  import opened Modes
  import opened Streaming
  import opened Text

  /** What the two retrievals of a hybrid question, and everything computed from them, turn out to be. */
  datatype HybridView = HybridView(
    doc: DocView,
    data: DataView)

  /** A routed question: the tool it runs, and the oracles the orchestrator consults. */
  datatype Query = Query(
    tool: string,
    modeLocked: bool,
    structuredDenied: bool,
    documentFallback: Option<(string, seq<Chunk>)>,
    deniedAnswer: string,
    hybrid: HybridView)

  function HybridDoc(w: World, v: DocView): (seq<Event>, string) {
    if v.structuralMode then ([], v.fastAnswer)
    else if v.chunks == [] then ([], "")
    else ([Status("synthesis", Hybrid)] + Tokens(Hybrid, v.deltas), w.fixMisrouted(Strip(Join(v.deltas))))
  }

  function HybridData(v: DataView): (seq<Event>, string) {
    if v.fast then ([], v.fastAnswer)
    else if v.chunks == [] || Find(v.chunks, {"error"}).Some? then ([], "")
    else ([Status("synthesis", Hybrid)] + Tokens(Hybrid, v.deltas), Strip(Join(v.deltas)))
  }

  /** The events of `iter_hybrid_stream`. */
  function HybridStream(w: World, v: HybridView): seq<Event> {
    var (docEvents, docAnswer) := HybridDoc(w, v.doc);
    var (dataEvents, dataAnswer) := HybridData(v.data);
    ([Status("retrieval", Hybrid)] + (if v.data.viz then [Presentation(Some(Hybrid))] else []) +
     docEvents + dataEvents) +
    [Done(Hybrid, HybridAnswer(docAnswer, dataAnswer), v.doc.chunks)]
  }

  /** `iter_hybrid_stream`, driven to its end: chart, then the document half, then the data half. */
  method IterHybridStream(w: World, v: HybridView) returns (out: seq<Event>)
    ensures out == HybridStream(w, v)
  {
    hide Strip;
    out := [Status("retrieval", Hybrid)];
    if v.data.viz {
      out := out + [Presentation(Some(Hybrid))];
    }
    var docAnswer, dataAnswer := "", "";
    if v.doc.structuralMode {
      docAnswer := v.doc.fastAnswer;
    } else if v.doc.chunks != [] {
      out := out + [Status("synthesis", Hybrid)];
      var tokens, text := StreamDeltas(Hybrid, v.doc.deltas);
      out := out + tokens;
      docAnswer := w.fixMisrouted(Strip(text));
    }
    ghost var head := [Status("retrieval", Hybrid)] + (if v.data.viz then [Presentation(Some(Hybrid))] else []);
    assert out == head + HybridDoc(w, v.doc).0;
    if v.data.fast {
      dataAnswer := v.data.fastAnswer;
    } else if v.data.chunks != [] && Find(v.data.chunks, {"error"}).None? {
      out := out + [Status("synthesis", Hybrid)];
      var tokens, text := StreamDeltas(Hybrid, v.data.deltas);
      out := out + tokens;
      dataAnswer := Strip(text);
    }
    assert out == head + HybridDoc(w, v.doc).0 + HybridData(v.data).0;
    out := out + [Done(Hybrid, HybridAnswer(docAnswer, dataAnswer), v.doc.chunks)];
  }

  /** The stream a tool runs; an unknown tool runs the document stream. */
  function AgentStream(w: World, q: Query): seq<Event> {
    if q.tool == "query_data" then DataStream(w, 0, q.modeLocked)
    else if q.tool == "query_hybrid" then HybridStream(w, q.hybrid)
    else DocStream(w, 0, false)
  }

  predicate Denied(q: Query) {
    q.tool == "query_data" && q.structuredDenied
  }

  /** The answer of a query refused before any stream starts. */
  function DenialEvent(q: Query): Event {
    match q.documentFallback
    case Some((answer, sources)) => Done(Unstructured, answer, sources)
    case None => Done(Structured, q.deniedAnswer, [])
  }

  /** Segments that only one agent speaks in, without reroutes and without an end. */
  ghost predicate SpokenBy(s: seq<Event>, agent: Agent) {
    forall i | 0 <= i < |s| :: !s[i].Done? && !s[i].Error? && !s[i].Reroute? && (s[i].Token? ==> s[i].agent == agent)
  }

  lemma {:induction false} SpokenByKeepsCharge(s: seq<Event>, agent: Agent)
    requires SpokenBy(s, agent)
    ensures InCharge(s, agent) == agent && Reroutes(s) == 0
  {
    if s != [] {
      assert forall i | 0 <= i < |s[1..]| :: s[1..][i] == s[i + 1];
      SpokenByKeepsCharge(s[1..], agent);
    }
  }

  /** The hybrid stream, under every oracle, is a complete run in which every token is the hybrid agent's. */
  lemma HybridComplete(w: World, v: HybridView)
    ensures Complete(w, HybridStream(w, v), Hybrid) && Reroutes(HybridStream(w, v)) == 0
  {
    var s := HybridStream(w, v);
    var body, end := s[..|s| - 1], [Final(s)];
    TokensFacts(Hybrid, v.doc.deltas, Hybrid);
    TokensFacts(Hybrid, v.data.deltas, Hybrid);
    SegmentsSpokenBy(w, v);
    assert body == HybridBody(w, v) && s == body + end;
    SpokenByKeepsCharge(body, Hybrid);
    Measures(body, end, Hybrid);
  }

  function HybridBody(w: World, v: HybridView): seq<Event> {
    [Status("retrieval", Hybrid)] + (if v.data.viz then [Presentation(Some(Hybrid))] else []) +
    HybridDoc(w, v.doc).0 + HybridData(v.data).0
  }

  lemma SegmentsSpokenBy(w: World, v: HybridView)
    ensures SpokenBy(HybridBody(w, v), Hybrid)
  {
    DocSegment(w, v.doc);
    DataSegment(v.data);
    var head := [Status("retrieval", Hybrid)] + (if v.data.viz then [Presentation(Some(Hybrid))] else []);
    SpokenByAppend(head, HybridDoc(w, v.doc).0, Hybrid);
    SpokenByAppend(head + HybridDoc(w, v.doc).0, HybridData(v.data).0, Hybrid);
  }

  /** The text streamed for one half. */
  function DocSpoken(v: DocView): string {
    if v.structuralMode || v.chunks == [] then "" else Join(v.deltas)
  }

  function DataSpoken(v: DataView): string {
    if v.fast || v.chunks == [] || Find(v.chunks, {"error"}).Some? then "" else Join(v.deltas)
  }

  lemma DocSpeaks(w: World, v: DocView)
    ensures Spoken(HybridDoc(w, v).0) == DocSpoken(v)
  {
    if !v.structuralMode && v.chunks != [] {
      TokensFacts(Hybrid, v.deltas, Hybrid);
      Measures([Status("synthesis", Hybrid)], Tokens(Hybrid, v.deltas), Hybrid);
      SilentSaysNothing([Status("synthesis", Hybrid)]);
    }
  }

  lemma DataSpeaks(v: DataView)
    ensures Spoken(HybridData(v).0) == DataSpoken(v)
  {
    if !v.fast && v.chunks != [] && Find(v.chunks, {"error"}).None? {
      TokensFacts(Hybrid, v.deltas, Hybrid);
      Measures([Status("synthesis", Hybrid)], Tokens(Hybrid, v.deltas), Hybrid);
      SilentSaysNothing([Status("synthesis", Hybrid)]);
    }
  }

  function HybridAnswer(docAnswer: string, dataAnswer: string): string {
    "### From Documents:\n" + docAnswer + "\n\n### From Data:\n" + dataAnswer
  }

  /** The tokens of a hybrid run are those of its document half and then of its data half, and each half of the answer
      is what that half streamed, or its ready answer. */
  lemma HybridSpells(w: World, v: HybridView)
    ensures var s := HybridStream(w, v);
            && Spoken(s) == DocSpoken(v.doc) + DataSpoken(v.data)
            && s != [] && Final(s).Done?
            && var documents := if v.doc.structuralMode then v.doc.fastAnswer
                                else if v.doc.chunks == [] then "" else w.fixMisrouted(Strip(Join(v.doc.deltas)));
               var data := if v.data.fast then v.data.fastAnswer else Strip(DataSpoken(v.data));
               Final(s).answer == "### From Documents:\n" + documents + "\n\n### From Data:\n" + data &&
               Final(s).sources == v.doc.chunks
  {
    hide Strip;
    var s := HybridStream(w, v);
    var head := [Status("retrieval", Hybrid)] + (if v.data.viz then [Presentation(Some(Hybrid))] else []);
    var docs, data, end := HybridDoc(w, v.doc).0, HybridData(v.data).0, [Final(s)];
    DocSpeaks(w, v.doc);
    DataSpeaks(v.data);
    SilentSaysNothing(head);
    HalvesSpoken(head, docs, data, end);
    assert s == (head + docs) + data + end;
    StripNothing();
  }

  lemma StripNothing()
    ensures Strip("") == ""
  {
  }

  lemma HalvesSpoken(head: seq<Event>, docs: seq<Event>, data: seq<Event>, end: seq<Event>)
    requires Spoken(head) == "" && |end| == 1 && end[0].Done?
    ensures Spoken((head + docs) + data + end) == Spoken(docs) + Spoken(data)
  {
    Measures(head, docs, Hybrid);
    Measures(head + docs, data, Hybrid);
    Measures((head + docs) + data, end, Hybrid);
    assert Spoken(end) == "";
    assert "" + Spoken(docs) == Spoken(docs);
    assert Spoken(docs) + Spoken(data) + "" == Spoken(docs) + Spoken(data);
  }

  lemma SpokenByAppend(a: seq<Event>, b: seq<Event>, agent: Agent)
    requires SpokenBy(a, agent) && SpokenBy(b, agent)
    ensures SpokenBy(a + b, agent)
  {
  }

  lemma DocSegment(w: World, v: DocView)
    ensures SpokenBy(HybridDoc(w, v).0, Hybrid)
  {
    TokensFacts(Hybrid, v.deltas, Hybrid);
  }

  lemma DataSegment(v: DataView)
    ensures SpokenBy(HybridData(v).0, Hybrid)
  {
    TokensFacts(Hybrid, v.deltas, Hybrid);
  }

  /** Whatever tool runs and whatever the oracles say, the agent stream is a complete run with at most two reroutes. */
  lemma AgentStreamComplete(w: World, q: Query)
    ensures Complete(w, AgentStream(w, q), AgentOf(q.tool)) && Reroutes(AgentStream(w, q)) <= 2
  {
    DataStreamComplete(w, 0, q.modeLocked);
    DocStreamComplete(w, 0, false);
    HybridComplete(w, q.hybrid);
  }

  /** What the forwarding loop lets through. */
  function WithoutDone(stream: seq<Event>): seq<Event> {
    if stream == [] then []
    else WithoutDone(stream[..|stream| - 1]) + if Final(stream).Done? then [] else [Final(stream)]
  }

  /** What the forwarding loop keeps back. */
  function LastDone(stream: seq<Event>): Option<Event> {
    if stream == [] then None
    else if Final(stream).Done? then Some(Final(stream))
    else LastDone(stream[..|stream| - 1])
  }

  /** The end of the query stream: the absorbed payload, saved as a turn, or an error. */
  function Conclude(finalPayload: Option<Event>): (seq<Event>, seq<Event>) {
    match finalPayload
    case None => ([Error("Stream ended without a done event.")], [])
    case Some(done) => ([done], [done])
  }

  /** The forwarding loop: everything but `done` passes through, and the latest `done` is kept back. */
  method Forward(stream: seq<Event>) returns (out: seq<Event>, finalPayload: Option<Event>)
    ensures out == WithoutDone(stream) && finalPayload == LastDone(stream)
  {
    out, finalPayload := [], None;
    for n := 0 to |stream|
      invariant out == WithoutDone(stream[..n]) && finalPayload == LastDone(stream[..n])
    {
      assert stream[..n + 1][..n] == stream[..n];
      if stream[n].Done? {
        finalPayload := Some(stream[n]);
      } else {
        out := out + [stream[n]];
      }
    }
    assert stream[..|stream|] == stream;
  }

  lemma {:induction false} WithoutDoneNone(stream: seq<Event>)
    requires forall i | 0 <= i < |stream| :: !stream[i].Done?
    ensures WithoutDone(stream) == stream
  {
    if stream != [] {
      WithoutDoneNone(stream[..|stream| - 1]);
    }
  }

  /** Absorbing the `done` of a complete run and emitting it last rebuilds the run: nothing is lost, repeated or
      reordered. */
  lemma ForwardingRebuilds(w: World, stream: seq<Event>, entry: Agent)
    requires Complete(w, stream, entry)
    ensures WithoutDone(stream) + Conclude(LastDone(stream)).0 == stream
    ensures stream != [] && Conclude(LastDone(stream)).1 == [Final(stream)]
  {
    hide Spells, InCharge;
    var init := stream[..|stream| - 1];
    assert forall i | 0 <= i < |init| :: init[i] == stream[i];
    WithoutDoneNone(init);
    assert WithoutDone(stream) == init;
  }

  /** The events of a query, and the payloads it persists as turns. */
  function QueryEvents(w: World, q: Query): seq<Event> {
    [Routing, Routed(q.tool)] + if Denied(q) then [DenialEvent(q)] else AgentStream(w, q)
  }

  /** `iter_query_stream` without exceptions, with the payloads it saved as turns. */
  method IterQueryStream(w: World, q: Query) returns (out: seq<Event>, saved: seq<Event>)
    ensures out == QueryEvents(w, q)
    ensures saved == [Final(out)]
  {
    hide Complete, DataStream, DocStream, HybridStream, Conclude, LastDone, WithoutDone;
    out := [Routing, Routed(q.tool)];
    if Denied(q) {
      var final := DenialEvent(q);
      return out + [final], [final];
    }
    var stream;
    if q.tool == "query_data" {
      stream := IterStructuredStream(w, 0, q.modeLocked);
    } else if q.tool == "query_hybrid" {
      stream := IterHybridStream(w, q.hybrid);
    } else {
      stream := IterDocumentStream(w, 0, false);
    }
    AgentStreamComplete(w, q);
    ForwardingRebuilds(w, stream, AgentOf(q.tool));
    var forwarded, finalPayload := Forward(stream);
    var (ending, turns) := Conclude(finalPayload);
    assert out + forwarded + ending == out + (forwarded + ending);
    out := out + forwarded + ending;
    saved := turns;
  }

  lemma DenialComplete(w: World, q: Query)
    ensures Complete(w, [DenialEvent(q)], DenialEvent(q).agent) && Reroutes([DenialEvent(q)]) == 0
  {
    SingleComplete(w, DenialEvent(q).agent, DenialEvent(q).answer, DenialEvent(q).sources);
  }

  lemma HeadKeepsCharge(tool: string, entry: Agent)
    ensures InCharge([Routing, Routed(tool)], entry) == entry && Reroutes([Routing, Routed(tool)]) == 0
  {
    Measures([Routing], [Routed(tool)], entry);
    assert [Routing, Routed(tool)] == [Routing] + [Routed(tool)];
  }

  /** Every query stream, under every oracle, is a complete run: one `done`, last, and no error event; its tokens are
      all the final agent's and spell its answer, and come after at most two reroutes. */
  lemma QueryStreamComplete(w: World, q: Query)
    ensures Complete(w, QueryEvents(w, q), if Denied(q) then DenialEvent(q).agent else AgentOf(q.tool))
    ensures Reroutes(QueryEvents(w, q)) <= 2
  {
    hide AgentStream, Complete, InCharge;
    var head := [Routing, Routed(q.tool)];
    var rest := if Denied(q) then [DenialEvent(q)] else AgentStream(w, q);
    var entry := if Denied(q) then DenialEvent(q).agent else AgentOf(q.tool);
    AgentStreamComplete(w, q);
    DenialComplete(w, q);
    HeadKeepsCharge(q.tool, entry);
    Prepend(w, head, rest, entry);
  }

  // ---- which source answers ----------------------------------------------------------------------------------------

  /** Does the other source answer? What decides is the guard of the one branch that leaves: the denial's document
      fallback, the structured stream's fallback, or the document guard's redirect. */
  predicate Strays(w: World, q: Query) {
    if Denied(q) then q.documentFallback.Some?
    else if q.tool == "query_data" then FallsBack(w, 0, q.modeLocked)
    else q.tool != "query_hybrid" && LeavesDocuments(w, 0, false)
  }

  function Other(agent: Agent): Agent {
    match agent case Structured => Unstructured case Unstructured => Structured case Hybrid => Hybrid
  }

  /** Which agent answers a query stream. */
  lemma QueryAgent(w: World, q: Query)
    ensures var s := QueryEvents(w, q);
            s != [] && Final(s).Done?
              && Final(s).agent == if Strays(w, q) then Other(AgentOf(q.tool)) else AgentOf(q.tool)
  {
    hide DataStream, DocStream, HybridStream, FallsBack, LeavesDocuments, Complete;
    var rest := if Denied(q) then [DenialEvent(q)] else AgentStream(w, q);
    DataStreamAgent(w, 0, q.modeLocked);
    DocStreamAgent(w, 0, false);
    HybridComplete(w, q.hybrid);
    UnreroutedAgent(w, HybridStream(w, q.hybrid), Hybrid);
    FinalOf([Routing, Routed(q.tool)], rest);
  }

  /** A query as the program poses it: the mode always forces a tool, and so always locks. */
  function Posed(q: Query, mode: Option<string>): Query {
    q.(tool := ResolveMode(mode), modeLocked := true)
  }

  /** The streaming path keeps the requested source exactly when no denied structured question finds a document fallback
      and no document stream is redirected without being handed back. */
  lemma StreamKeepsModeIff(w: World, q: Query, mode: Option<string>)
    ensures var p := Posed(q, mode);
            && QueryEvents(w, p) != [] && Final(QueryEvents(w, p)).Done?
            && (Final(QueryEvents(w, p)).agent == AgentOf(p.tool) <==>
                  match AgentOf(p.tool)
                  case Structured => !(q.structuredDenied && q.documentFallback.Some?)
                  case Unstructured => !LeavesDocuments(w, 0, false)
                  case Hybrid => true)
  {
    hide QueryEvents, LeavesDocuments;
    QueryAgent(w, Posed(q, mode));
  }

  /** A structured query as the program poses it never reroutes. */
  lemma PosedDataNeverReroutes(w: World, q: Query, mode: Option<string>)
    requires Posed(q, mode).tool == "query_data"
    ensures Reroutes(QueryEvents(w, Posed(q, mode))) == 0
  {
    hide DataStream, Complete, InCharge, AgentOf;
    var p := Posed(q, mode);
    var head, rest := [Routing, Routed(p.tool)], if Denied(p) then [DenialEvent(p)] else AgentStream(w, p);
    DataStreamComplete(w, 0, true);
    DenialComplete(w, p);
    HeadKeepsCharge(p.tool, Structured);
    ReroutesAppend(head, rest);
  }

  /** Documents hold nothing and the guard redirects; the structured agent has a ready answer. */
  function MisroutedWorld(): World {
    var row := Chunk("row", "42");
    World(n => DocView([], Autofix, false, "", false, []),
          n => DataView([row], false, false, false, true, "42", false, []), false, s => s)
  }

  /** Asked for documents, answered from structured data; and asked for structured data, answered from documents. */
  lemma StreamCanLeaveMode(q: Query)
    ensures var s := QueryEvents(MisroutedWorld(), Posed(q, None));
            s != [] && Final(s).Done? && Final(s).agent == Structured && AgentOf(Posed(q, None).tool) == Unstructured
    ensures var denied := q.(structuredDenied := true,
                             documentFallback := Some(("from a document", [Chunk("page", "")])));
            var s := QueryEvents(MisroutedWorld(), Posed(denied, Some("structured")));
            s != [] && Final(s).Done? && Final(s).agent == Unstructured
              && AgentOf(Posed(denied, Some("structured")).tool) == Structured
  {
    hide QueryEvents, ResolveMode;
    var w := MisroutedWorld();
    var denied := q.(structuredDenied := true, documentFallback := Some(("from a document", [Chunk("page", "")])));
    ModeNames();
    QueryAgent(w, Posed(q, None));
    QueryAgent(w, Posed(denied, Some("structured")));
  }
}
