/** The two agent streams that reroute to each other (src/unstructured/streaming.py, src/structured/streaming.py). */
module Streaming {
  import opened Modes
  import opened Text

  datatype Chunk = Chunk(id: string, text: string)

  datatype Event =
    | Routing
    | Routed(tool: string)
    | Status(phase: string, agent: Agent)
    | Retrieved(agent: Agent, chunks: nat)
    | Reroute(target: Agent, reason: string)
    | Presentation(section: Option<Agent>)
    | Token(agent: Agent, delta: string)
    | Done(agent: Agent, answer: string, sources: seq<Chunk>)
    | Error(message: string)

  /** The verdict of `document_agent_structured_guard`. */
  datatype Guard = NoGuard | Autofix | Hint(answer: string)

  /** What one document retrieval, and everything computed from it, turns out to be. */
  datatype DocView = DocView(
    chunks: seq<Chunk>,
    guard: Guard,
    structuralMode: bool,
    fastAnswer: string,
    fastBlocks: bool,
    deltas: seq<string>)

  /** What one structured retrieval, and everything computed from it, turns out to be. */
  datatype DataView = DataView(
    chunks: seq<Chunk>,
    needsClarification: bool,
    lowConfidence: bool,
    viz: bool,
    fast: bool,
    fastAnswer: string,
    fastBlocks: bool,
    deltas: seq<string>)

  /** The oracles of a run. A retrieval may answer differently at each depth of rerouting. */
  datatype World = World(
    doc: nat -> DocView,
    data: nat -> DataView,
    countQuestion: bool,
    fixMisrouted: string -> string)

  /** The first chunk whose id is among `ids`. */
  function Find(chunks: seq<Chunk>, ids: set<string>): Option<Chunk> {
    if chunks == [] then None else if chunks[0].id in ids then Some(chunks[0]) else Find(chunks[1..], ids)
  }

  const MARKERS := {"underspecified", "graph_count", "graph_outline"}

  function OrText(text: string, other: string): string {
    if text != "" then text else other
  }

  function Join(parts: seq<string>): string {
    if parts == [] then "" else Join(parts[..|parts| - 1]) + parts[|parts| - 1]
  }

  function Tokens(agent: Agent, deltas: seq<string>): seq<Event> {
    if deltas == [] then [] else Tokens(agent, deltas[..|deltas| - 1]) + [Token(agent, deltas[|deltas| - 1])]
  }

  function FallbackWanted(w: World, depth: nat): Option<string> {
    var v := w.data(depth);
    if v.needsClarification then None
    else if v.chunks == [] then if w.countQuestion then None else Some("structured_no_results")
    else if Find(v.chunks, {"access_denied"}).Some? || Find(v.chunks, {"error"}).Some? then None
    else if v.lowConfidence then Some("structured_low_confidence")
    else None
  }

  /** How many events the peek consumes when it commits to a document stream that would yield `items`. */
  function Peek(items: seq<Event>, n: nat): (r: Option<nat>)
    requires n <= |items|
    ensures r.Some? ==> n < r.value <= |items|
    decreases |items| - n
  {
    if n == |items| then None
    else match items[n]
      case Retrieved(_, chunks) => if chunks == 0 then None else Some(n + 1)
      case Done(agent, _, sources) => if agent == Unstructured && sources != [] then Some(n + 1) else None
      case _ => Peek(items, n + 1)
  }

  /** The events of `iter_document_stream`. */
  function DocStream(w: World, depth: nat, skipGuard: bool): seq<Event>
    decreases if skipGuard then 0 else 2
  {
    var v := w.doc(depth);
    DocHead(v) +
    if v.chunks == [] && !skipGuard && v.guard == Autofix
    then [Reroute(Structured, "misroute_autofix")] + DataStream(w, depth + 1, false)
    else DocAnswer(w, v, skipGuard)
  }

  function DocHead(v: DocView): seq<Event> {
    [Status("retrieval", Unstructured), Retrieved(Unstructured, |v.chunks|)]
  }

  /** The document stream's one-event answers: nothing found, a marker chunk, or a denial. */
  function DocNotice(v: DocView, skipGuard: bool): (r: Option<Event>)
    ensures r.Some? ==> r.value.Done? && r.value.agent == Unstructured
  {
    var marker, denied := Find(v.chunks, MARKERS), Find(v.chunks, {"access_denied"});
    if v.chunks == [] then
      if !skipGuard && v.guard.Hint? then Some(Done(Unstructured, v.guard.answer, []))
      else Some(Done(Unstructured, "I could not find relevant information in the ingested documents.", []))
    else if marker.Some? then Some(Done(Unstructured, Strip(marker.value.text), v.chunks))
    else if denied.Some? then
      Some(Done(Unstructured, Strip(OrText(denied.value.text, "Access denied for document data.")), []))
    else None
  }

  /** What the document stream says for itself after retrieval. */
  function DocAnswer(w: World, v: DocView, skipGuard: bool): seq<Event> {
    match DocNotice(v, skipGuard) case Some(done) => [done] case None => DocRendered(w, v)
  }

  /** A document answer with content: a structural answer as it is, or streamed synthesis. */
  function DocRendered(w: World, v: DocView): seq<Event> {
    if v.structuralMode then
      (if v.fastBlocks then [Presentation(None)] else []) + [Done(Unstructured, v.fastAnswer, v.chunks)]
    else
      [Status("synthesis", Unstructured)] +
      Synthesis(Unstructured, v.deltas, w.fixMisrouted(Strip(Join(v.deltas))), v.chunks)
  }

  /** The events of `iter_structured_stream`. */
  function DataStream(w: World, depth: nat, modeLocked: bool): seq<Event>
    decreases 1
  {
    var want := FallbackWanted(w, depth);
    var items := DocStream(w, depth + 1, true);
    DataHead(w.data(depth)) +
    if !modeLocked && want.Some? && Peek(items, 0).Some?
    then [Reroute(Unstructured, want.value)] + items[..Peek(items, 0).value] + items[Peek(items, 0).value..]
    else OwnAnswer(w.data(depth))
  }

  function DataHead(v: DataView): seq<Event> {
    [Status("retrieval", Structured), Retrieved(Structured, |v.chunks|)]
  }

  function FailureText(error: string): string {
    "I couldn't run that query successfully.\n\n" + error + "\n\nTry rephrasing the question or narrowing the filter."
  }

  /** The structured stream's one-event answers: a clarification, nothing found, a denial, or a failed query. */
  function DataNotice(v: DataView): (r: Option<Event>)
    ensures r.Some? ==> r.value.Done? && r.value.agent == Structured
  {
    var denied, error := Find(v.chunks, {"access_denied"}), Find(v.chunks, {"error"});
    if v.needsClarification then
      Some(Done(Structured, if v.chunks != [] then Strip(v.chunks[0].text)
                            else "I need one clarification before I can answer that.", v.chunks))
    else if v.chunks == [] then
      Some(Done(Structured, "No matching records were found in the business database for that query.", []))
    else if denied.Some? then
      Some(Done(Structured, Strip(OrText(denied.value.text, "Access denied for structured data.")), []))
    else if error.Some? then
      Some(Done(Structured, FailureText(OrText(error.value.text, "The database query failed.")), v.chunks))
    else None
  }

  /** What the structured stream says for itself after retrieval. */
  function OwnAnswer(v: DataView): seq<Event> {
    match DataNotice(v) case Some(done) => [done] case None => Rendered(v)
  }

  /** A structured answer with content: chart first, then a ready answer or streamed synthesis. */
  function Rendered(v: DataView): seq<Event> {
    (if v.viz then [Presentation(Some(Structured))] else []) +
    if v.fast then
      (if v.fastBlocks && !v.viz then [Presentation(Some(Structured))] else []) +
      [Done(Structured, v.fastAnswer, v.chunks)]
    else
      [Status("synthesis", Structured)] +
      Synthesis(Structured, v.deltas, Strip(Join(v.deltas)), v.chunks)
  }

  function Synthesis(agent: Agent, deltas: seq<string>, answer: string, sources: seq<Chunk>): seq<Event> {
    Tokens(agent, deltas) + [Done(agent, answer, sources)]
  }

  // ---- the grammar of a run -------------------------------------------------------------------------------------

  function Final(s: seq<Event>): Event
    requires s != []
  {
    s[|s| - 1]
  }

  function Reroutes(s: seq<Event>): nat {
    if s == [] then 0 else (if s[0].Reroute? then 1 else 0) + Reroutes(s[1..])
  }

  /** The agent in charge after `s`: the target of the last reroute, or the agent the run entered with. */
  function InCharge(s: seq<Event>, entry: Agent): Agent {
    if s == [] then entry else InCharge(s[1..], if s[0].Reroute? then s[0].target else entry)
  }

  /** The text streamed as tokens. */
  function Spoken(s: seq<Event>): string {
    if s == [] then "" else (if s[0].Token? then s[0].delta else "") + Spoken(s[1..])
  }

  /** Nothing final and nothing spoken: what may come before a reroute. */
  ghost predicate Silent(s: seq<Event>) {
    forall i | 0 <= i < |s| :: !s[i].Done? && !s[i].Error? && !s[i].Token?
  }

  /** One `done`, last, from the agent in charge; every token is that agent's, and no token precedes a reroute. */
  ghost predicate Shape(s: seq<Event>, entry: Agent) {
    && s != []
    && Final(s).Done?
    && (forall i | 0 <= i < |s| - 1 :: !s[i].Done? && !s[i].Error?)
    && Final(s).agent == InCharge(s, entry)
    && (forall i | 0 <= i < |s| && s[i].Token? :: s[i].agent == Final(s).agent)
    && (forall i, j | 0 <= i < j < |s| && s[i].Token? :: !s[j].Reroute?)
  }

  /** What was streamed spells the final answer, up to the clean-up the answering agent applies. */
  ghost predicate Spells(w: World, s: seq<Event>, entry: Agent)
    requires Shape(s, entry)
  {
    Spoken(s) != "" && entry != Hybrid ==>
      Final(s).answer == if Final(s).agent == Structured then Strip(Spoken(s)) else w.fixMisrouted(Strip(Spoken(s)))
  }

  /** A complete run. */
  ghost predicate Complete(w: World, s: seq<Event>, entry: Agent) {
    Shape(s, entry) && Spells(w, s, entry)
  }

  lemma {:induction false} ReroutesAppend(a: seq<Event>, b: seq<Event>)
    ensures Reroutes(a + b) == Reroutes(a) + Reroutes(b)
  {
    if a == [] {
      assert a + b == b;
    } else {
      assert (a + b)[1..] == a[1..] + b;
      ReroutesAppend(a[1..], b);
    }
  }

  lemma {:induction false} InChargeAppend(a: seq<Event>, b: seq<Event>, entry: Agent)
    ensures InCharge(a + b, entry) == InCharge(b, InCharge(a, entry))
  {
    if a == [] {
      assert a + b == b;
    } else {
      assert (a + b)[1..] == a[1..] + b;
      InChargeAppend(a[1..], b, if a[0].Reroute? then a[0].target else entry);
    }
  }

  lemma {:induction false} SpokenAppend(a: seq<Event>, b: seq<Event>)
    ensures Spoken(a + b) == Spoken(a) + Spoken(b)
  {
    if a == [] {
      assert a + b == b;
      assert "" + Spoken(b) == Spoken(b);
    } else {
      assert (a + b)[1..] == a[1..] + b;
      SpokenAppend(a[1..], b);
      var head := if a[0].Token? then a[0].delta else "";
      assert head + (Spoken(a[1..]) + Spoken(b)) == (head + Spoken(a[1..])) + Spoken(b);
    }
  }

  lemma Measures(a: seq<Event>, b: seq<Event>, entry: Agent)
    ensures Reroutes(a + b) == Reroutes(a) + Reroutes(b)
    ensures InCharge(a + b, entry) == InCharge(b, InCharge(a, entry))
    ensures Spoken(a + b) == Spoken(a) + Spoken(b)
  {
    ReroutesAppend(a, b);
    InChargeAppend(a, b, entry);
    SpokenAppend(a, b);
  }

  lemma {:induction false} SilentSaysNothing(a: seq<Event>)
    requires Silent(a)
    ensures Spoken(a) == ""
  {
    if a != [] {
      assert forall i | 0 <= i < |a[1..]| :: a[1..][i] == a[i + 1];
      SilentSaysNothing(a[1..]);
    }
  }

  lemma PrependTokens(a: seq<Event>, s: seq<Event>)
    requires Silent(a) && s != [] && Final(s).Done?
    requires forall i | 0 <= i < |s| - 1 :: !s[i].Done? && !s[i].Error?
    requires forall i | 0 <= i < |s| && s[i].Token? :: s[i].agent == Final(s).agent
    ensures Final(a + s) == Final(s)
    ensures forall i | 0 <= i < |a + s| - 1 :: !(a + s)[i].Done? && !(a + s)[i].Error?
    ensures forall i | 0 <= i < |a + s| && (a + s)[i].Token? :: (a + s)[i].agent == Final(s).agent
  {
    assert forall i | 0 <= i < |a + s| :: (a + s)[i] == if i < |a| then a[i] else s[i - |a|];
  }

  lemma PrependQuiet(a: seq<Event>, s: seq<Event>)
    requires Silent(a) && forall i, j | 0 <= i < j < |s| && s[i].Token? :: !s[j].Reroute?
    ensures forall i, j | 0 <= i < j < |a + s| && (a + s)[i].Token? :: !(a + s)[j].Reroute?
  {
    assert forall i | 0 <= i < |a + s| :: (a + s)[i] == if i < |a| then a[i] else s[i - |a|];
  }

  lemma PrependShape(a: seq<Event>, s: seq<Event>, entry: Agent)
    requires Silent(a) && Shape(s, InCharge(a, entry))
    ensures Shape(a + s, entry) && Final(a + s) == Final(s)
  {
    InChargeAppend(a, s, entry);
    PrependTokens(a, s);
    PrependQuiet(a, s);
  }

  /** A silent prefix in front of a complete run is a complete run. */
  lemma Prepend(w: World, a: seq<Event>, s: seq<Event>, entry: Agent)
    requires Silent(a) && Complete(w, s, InCharge(a, entry)) && (entry == Hybrid <==> InCharge(a, entry) == Hybrid)
    ensures Complete(w, a + s, entry)
    ensures Reroutes(a + s) == Reroutes(a) + Reroutes(s)
  {
    PrependShape(a, s, entry);
    Measures(a, s, entry);
    SilentSaysNothing(a);
    assert Spoken(a + s) == Spoken(s);
  }

  lemma {:induction false} TokensFacts(agent: Agent, deltas: seq<string>, entry: Agent)
    ensures forall i | 0 <= i < |Tokens(agent, deltas)| ::
            Tokens(agent, deltas)[i].Token? && Tokens(agent, deltas)[i].agent == agent
    ensures Spoken(Tokens(agent, deltas)) == Join(deltas)
    ensures InCharge(Tokens(agent, deltas), entry) == entry && Reroutes(Tokens(agent, deltas)) == 0
  {
    if deltas != [] {
      var init, last := deltas[..|deltas| - 1], Token(agent, deltas[|deltas| - 1]);
      TokensFacts(agent, init, entry);
      Measures(Tokens(agent, init), [last], entry);
    }
  }

  lemma TokensThenDone(t: seq<Event>, d: Event)
    requires d.Done? && forall i | 0 <= i < |t| :: t[i].Token? && t[i].agent == d.agent
    requires InCharge(t + [d], d.agent) == d.agent
    ensures Shape(t + [d], d.agent)
  {
    hide InCharge;
    assert forall i | 0 <= i < |t + [d]| :: (t + [d])[i] == if i < |t| then t[i] else d;
  }

  /** Tokens followed by the answer they spell are a complete run. */
  lemma SynthesisComplete(w: World, agent: Agent, deltas: seq<string>, answer: string, sources: seq<Chunk>)
    requires answer == if agent == Structured then Strip(Join(deltas)) else w.fixMisrouted(Strip(Join(deltas)))
    ensures Complete(w, Synthesis(agent, deltas, answer, sources), agent)
    ensures Reroutes(Synthesis(agent, deltas, answer, sources)) == 0
  {
    var t, d := Tokens(agent, deltas), Done(agent, answer, sources);
    TokensFacts(agent, deltas, agent);
    Measures(t, [d], agent);
    DoneFacts(d, agent);
    hide Tokens, Shape, InCharge, Reroutes, Spoken, Strip, Join;
    assert Spoken(t + [d]) == Join(deltas);
    TokensThenDone(t, d);
    assert Final(t + [d]) == d;
  }

  lemma DoneFacts(d: Event, entry: Agent)
    requires d.Done?
    ensures Spoken([d]) == "" && InCharge([d], entry) == entry && Reroutes([d]) == 0
  {
  }

  lemma SingleComplete(w: World, agent: Agent, answer: string, sources: seq<Chunk>)
    ensures Complete(w, [Done(agent, answer, sources)], agent)
    ensures Reroutes([Done(agent, answer, sources)]) == 0
  {
  }

  /** A status or presentation event in front of a complete run without reroutes. */
  lemma PrependOne(w: World, e: Event, s: seq<Event>, entry: Agent)
    requires e.Status? || e.Presentation? || e.Retrieved?
    requires Complete(w, s, entry)
    ensures Complete(w, [e] + s, entry) && Reroutes([e] + s) == Reroutes(s)
  {
    assert [e][1..] == [];
    assert InCharge([e], entry) == entry;
    Prepend(w, [e], s, entry);
  }

  lemma RenderedComplete(w: World, v: DataView)
    ensures Complete(w, Rendered(v), Structured) && Reroutes(Rendered(v)) == 0
  {
    hide Complete;
    var show := Presentation(Some(Structured));
    if v.fast {
      var d := [Done(Structured, v.fastAnswer, v.chunks)];
      SingleComplete(w, Structured, v.fastAnswer, v.chunks);
      PrependOne(w, show, d, Structured);
      assert Rendered(v) == if v.viz || v.fastBlocks then [show] + d else d;
    } else {
      var tail := Synthesis(Structured, v.deltas, Strip(Join(v.deltas)), v.chunks);
      SynthesisComplete(w, Structured, v.deltas, Strip(Join(v.deltas)), v.chunks);
      PrependOne(w, Status("synthesis", Structured), tail, Structured);
      var rest := [Status("synthesis", Structured)] + tail;
      PrependOne(w, show, rest, Structured);
      assert Rendered(v) == if v.viz then [show] + rest else rest;
    }
  }

  lemma OwnAnswerComplete(w: World, v: DataView)
    ensures Complete(w, OwnAnswer(v), Structured) && Reroutes(OwnAnswer(v)) == 0
  {
    hide Complete, DataNotice, Rendered;
    match DataNotice(v)
    case Some(done) => SingleComplete(w, Structured, done.answer, done.sources);
    case None => RenderedComplete(w, v);
  }

  lemma DocRenderedComplete(w: World, v: DocView)
    ensures Complete(w, DocRendered(w, v), Unstructured) && Reroutes(DocRendered(w, v)) == 0
  {
    if v.structuralMode {
      var d := [Done(Unstructured, v.fastAnswer, v.chunks)];
      SingleComplete(w, Unstructured, v.fastAnswer, v.chunks);
      PrependOne(w, Presentation(None), d, Unstructured);
      assert DocRendered(w, v) == if v.fastBlocks then [Presentation(None)] + d else d;
    } else {
      var answer := w.fixMisrouted(Strip(Join(v.deltas)));
      SynthesisComplete(w, Unstructured, v.deltas, answer, v.chunks);
      PrependOne(w, Status("synthesis", Unstructured), Synthesis(Unstructured, v.deltas, answer, v.chunks),
                 Unstructured);
    }
  }

  lemma DocAnswerComplete(w: World, v: DocView, skipGuard: bool)
    ensures Complete(w, DocAnswer(w, v, skipGuard), Unstructured) && Reroutes(DocAnswer(w, v, skipGuard)) == 0
  {
    hide Complete, DocNotice, DocRendered;
    match DocNotice(v, skipGuard)
    case Some(done) => SingleComplete(w, Unstructured, done.answer, done.sources);
    case None => DocRenderedComplete(w, v);
  }

  lemma DocHeadFacts(v: DocView)
    ensures Silent(DocHead(v)) && InCharge(DocHead(v), Unstructured) == Unstructured && Reroutes(DocHead(v)) == 0
  {
    Measures([Status("retrieval", Unstructured)], [Retrieved(Unstructured, |v.chunks|)], Unstructured);
  }

  lemma DataHeadFacts(v: DataView)
    ensures Silent(DataHead(v)) && InCharge(DataHead(v), Structured) == Structured && Reroutes(DataHead(v)) == 0
  {
    Measures([Status("retrieval", Structured)], [Retrieved(Structured, |v.chunks|)], Structured);
  }

  /** The events that settle a peek, and those of them that commit it. */
  predicate Settles(e: Event) {
    e.Retrieved? || e.Done?
  }

  predicate Commits(e: Event) {
    if e.Retrieved? then e.chunks > 0 else e.Done? && e.agent == Unstructured && e.sources != []
  }

  /** Of any stream the peek consumes everything up to the first event that settles it, and commits if that one does. */
  lemma {:induction false} PeekSettles(items: seq<Event>, n: nat, k: nat)
    requires n <= k <= |items| && (k < |items| ==> Settles(items[k])) && forall j | n <= j < k :: !Settles(items[j])
    ensures Peek(items, n) == if k < |items| && Commits(items[k]) then Some(k + 1) else None
    decreases k - n
  {
    if n < k {
      PeekSettles(items, n + 1, k);
    }
  }

  /** The peek commits exactly when the document retrieval found something, having consumed only its two status events.
      */
  lemma PeekOutcome(w: World, depth: nat)
    ensures Peek(DocStream(w, depth, true), 0) == if w.doc(depth).chunks == [] then None else Some(2)
  {
    var items := DocStream(w, depth, true);
    assert items[0] == Status("retrieval", Unstructured) && items[1] == Retrieved(Unstructured, |w.doc(depth).chunks|);
    assert Peek(items, 0) == Peek(items, 1);
  }

  /** Does the structured stream hand over to documents? A caller can tell from the lock and two retrievals. */
  predicate FallsBack(w: World, depth: nat, modeLocked: bool) {
    !modeLocked && FallbackWanted(w, depth).Some? && w.doc(depth + 1).chunks != []
  }

  /** Does the document stream end with the structured agent? Only when its guard redirects, and the stream it redirects
      to does not hand back. */
  predicate LeavesDocuments(w: World, depth: nat, skipGuard: bool) {
    !skipGuard && w.doc(depth).chunks == [] && w.doc(depth).guard == Autofix && !FallsBack(w, depth + 1, false)
  }

  /** A committed fallback emits the document stream in full; a rejected one leaves the stream a locked caller gets. */
  lemma FallbackOutcome(w: World, depth: nat)
    ensures DataStream(w, depth, true) == DataHead(w.data(depth)) + OwnAnswer(w.data(depth))
    ensures DataStream(w, depth, false) ==
            if FallsBack(w, depth, false)
            then DataHead(w.data(depth)) +
              ([Reroute(Unstructured, FallbackWanted(w, depth).value)] + DocStream(w, depth + 1, true))
            else DataStream(w, depth, true)
  {
    PeekOutcome(w, depth + 1);
    var items := DocStream(w, depth + 1, true);
    assert items[..2] + items[2..] == items;
    if FallsBack(w, depth, false) {
      var r := [Reroute(Unstructured, FallbackWanted(w, depth).value)];
      assert r + items[..2] + items[2..] == r + items;
    }
  }

  /** Every run of the document stream, under every oracle, is complete, with at most two reroutes. */
  lemma DocStreamComplete(w: World, depth: nat, skipGuard: bool)
    ensures Complete(w, DocStream(w, depth, skipGuard), Unstructured)
    ensures Reroutes(DocStream(w, depth, skipGuard)) <= if skipGuard then 0 else 2
    decreases if skipGuard then 0 else 2
  {
    var v := w.doc(depth);
    DocHeadFacts(v);
    if v.chunks == [] && !skipGuard && v.guard == Autofix {
      DataStreamComplete(w, depth + 1, false);
      var rest := DataStream(w, depth + 1, false);
      RerouteTo(w, DocHead(v), Unstructured, Structured, "misroute_autofix", rest);
    } else {
      DocAnswerComplete(w, v, skipGuard);
      Prepend(w, DocHead(v), DocAnswer(w, v, skipGuard), Unstructured);
    }
  }

  /** Every run of the structured stream, under every oracle, is complete, with at most one reroute, and none when
      locked. */
  lemma DataStreamComplete(w: World, depth: nat, modeLocked: bool)
    ensures Complete(w, DataStream(w, depth, modeLocked), Structured)
    ensures Reroutes(DataStream(w, depth, modeLocked)) <= if modeLocked then 0 else 1
    decreases 1
  {
    var v := w.data(depth);
    FallbackOutcome(w, depth);
    DataHeadFacts(v);
    if FallsBack(w, depth, modeLocked) {
      DocStreamComplete(w, depth + 1, true);
      RerouteTo(w, DataHead(v), Structured, Unstructured, FallbackWanted(w, depth).value,
                DocStream(w, depth + 1, true));
    } else {
      OwnAnswerComplete(w, v);
      Prepend(w, DataHead(v), OwnAnswer(v), Structured);
    }
  }

  lemma RerouteTo(w: World, head: seq<Event>, entry: Agent, target: Agent, reason: string, rest: seq<Event>)
    requires Silent(head) && Reroutes(head) == 0 && Complete(w, rest, target) && entry != Hybrid && target != Hybrid
    ensures Complete(w, head + ([Reroute(target, reason)] + rest), entry)
    ensures Reroutes(head + ([Reroute(target, reason)] + rest)) == 1 + Reroutes(rest)
  {
    var r := [Reroute(target, reason)];
    RerouteSegment(head, entry, target, reason);
    hide Complete, InCharge, Reroutes, Silent;
    assert head + (r + rest) == (head + r) + rest;
    Prepend(w, head + r, rest, entry);
  }

  /** A silent head and a reroute are silent, and put the target in charge. */
  lemma RerouteSegment(head: seq<Event>, entry: Agent, target: Agent, reason: string)
    requires Silent(head)
    ensures var s := head + [Reroute(target, reason)];
            Silent(s) && InCharge(s, entry) == target && Reroutes(s) == Reroutes(head) + 1
  {
    var r := [Reroute(target, reason)];
    InChargeAppend(head, r, entry);
    ReroutesAppend(head, r);
    RerouteAlone(target, reason, InCharge(head, entry));
    hide InCharge, Reroutes;
  }

  lemma RerouteAlone(target: Agent, reason: string, entry: Agent)
    ensures InCharge([Reroute(target, reason)], entry) == target && Reroutes([Reroute(target, reason)]) == 1
  {
    assert [Reroute(target, reason)][1..] == [];
  }

  lemma FinalOf(a: seq<Event>, s: seq<Event>)
    requires s != []
    ensures Final(a + s) == Final(s)
  {
  }

  /** A run that no longer reroutes is answered by whoever is in charge. */
  lemma UnreroutedAgent(w: World, s: seq<Event>, agent: Agent)
    requires Complete(w, s, agent) && Reroutes(s) == 0
    ensures s != [] && Final(s).Done? && Final(s).agent == agent
  {
    NoReroutes(s, agent);
  }

  lemma {:induction false} NoReroutes(s: seq<Event>, entry: Agent)
    requires Reroutes(s) == 0
    ensures InCharge(s, entry) == entry
  {
    if s != [] {
      NoReroutes(s[1..], entry);
    }
  }

  /** Which agent answers a structured stream: the document agent exactly when it falls back, so never when locked. */
  lemma DataStreamAgent(w: World, depth: nat, modeLocked: bool)
    ensures var s := DataStream(w, depth, modeLocked);
            s != [] && Final(s).Done?
              && Final(s).agent == if FallsBack(w, depth, modeLocked) then Unstructured else Structured
  {
    FallbackOutcome(w, depth);
    hide DataStream, DocStream, Complete, OwnAnswer, Peek;
    if FallsBack(w, depth, modeLocked) {
      DocStreamComplete(w, depth + 1, true);
      UnreroutedAgent(w, DocStream(w, depth + 1, true), Unstructured);
      var r, rest := [Reroute(Unstructured, FallbackWanted(w, depth).value)], DocStream(w, depth + 1, true);
      FinalOf(r, rest);
      FinalOf(DataHead(w.data(depth)), r + rest);
    } else {
      OwnAnswerComplete(w, w.data(depth));
      UnreroutedAgent(w, OwnAnswer(w.data(depth)), Structured);
      FinalOf(DataHead(w.data(depth)), OwnAnswer(w.data(depth)));
    }
  }

  /** A denied access among the chunks, and no marker chunk, which would be answered first. */
  predicate DeniedDocuments(v: DocView) {
    Find(v.chunks, MARKERS).None? && Find(v.chunks, {"access_denied"}).Some?
  }

  lemma RenderedSources(w: World, v: DocView)
    ensures var s := DocRendered(w, v); s != [] && Final(s).Done? && Final(s).sources == v.chunks
  {
  }

  /** A committed fallback ends without sources exactly when it found a denied access and no marker chunk, however much
      else it found; and then the denial is the answer. */
  lemma DeniedFallbackCommits(w: World, depth: nat)
    requires FallsBack(w, depth, false)
    ensures var v, s := w.doc(depth + 1), DataStream(w, depth, false);
            && s != [] && Final(s).Done? && Final(s).agent == Unstructured
            && (Final(s).sources == [] <==> DeniedDocuments(v))
            && (DeniedDocuments(v) ==>
                  Final(s).answer ==
                  Strip(OrText(Find(v.chunks, {"access_denied"}).value.text, "Access denied for document data.")))
  {
    FallbackOutcome(w, depth);
    hide DataStream, OwnAnswer, Peek, Strip, OrText, FallbackWanted, DocRendered, Find;
    var v, r := w.doc(depth + 1), [Reroute(Unstructured, FallbackWanted(w, depth).value)];
    RenderedSources(w, v);
    DataStreamAgent(w, depth, false);
    FinalOf(DocHead(v), DocAnswer(w, v, true));
    FinalOf(r, DocStream(w, depth + 1, true));
    FinalOf(DataHead(w.data(depth)), r + DocStream(w, depth + 1, true));
  }

  /** Nothing structured; in the documents one real passage beside a denied access. */
  function HalfDeniedWorld(): World {
    var chunks := [Chunk("page", "text"), Chunk("access_denied", "No access.")];
    World(n => DocView(chunks, NoGuard, false, "", false, ["text"]),
          n => DataView([], false, false, false, false, "", false, []), false, s => s)
  }

  /** There the stream leaves the structured data and answers with the denial. */
  lemma DeniedFallbackExample()
    ensures var s := DataStream(HalfDeniedWorld(), 0, false);
            s != [] && Final(s).Done? && Final(s).agent == Unstructured && Final(s).sources == []
  {
    hide DataStream;
    var w := HalfDeniedWorld();
    var v := w.doc(1);
    assert FallsBack(w, 0, false);
    assert v.chunks[1..][1..] == [];
    DeniedFallbackCommits(w, 0);
  }

  /** A locked structured stream answers for itself. */
  lemma LockedStaysStructured(w: World, depth: nat)
    ensures Complete(w, DataStream(w, depth, true), Structured)
            && InCharge(DataStream(w, depth, true), Structured) == Structured
  {
    DataStreamComplete(w, depth, true);
    NoReroutes(DataStream(w, depth, true), Structured);
  }

  /** Which agent answers a document stream: the structured agent exactly when the guard redirects and nothing hands
      back. */
  lemma DocStreamAgent(w: World, depth: nat, skipGuard: bool)
    ensures var s := DocStream(w, depth, skipGuard);
            s != [] && Final(s).Done?
              && Final(s).agent == if LeavesDocuments(w, depth, skipGuard) then Structured else Unstructured
  {
    hide DataStream, Complete, DocAnswer, FallsBack;
    var v := w.doc(depth);
    if v.chunks == [] && !skipGuard && v.guard == Autofix {
      DataStreamAgent(w, depth + 1, false);
      var r, rest := [Reroute(Structured, "misroute_autofix")], DataStream(w, depth + 1, false);
      FinalOf(r, rest);
      FinalOf(DocHead(v), r + rest);
    } else {
      DocAnswerComplete(w, v, skipGuard);
      UnreroutedAgent(w, DocAnswer(w, v, skipGuard), Unstructured);
      FinalOf(DocHead(v), DocAnswer(w, v, skipGuard));
    }
  }

  // ---- the same on the retrieved chunks themselves -----------------------------------------------------------------

  ghost predicate HasId(chunks: seq<Chunk>, id: string) {
    exists c :: c in chunks && c.id == id
  }

  /** `Find` gives the first chunk with one of the ids, and nothing exactly when there is none. */
  lemma {:induction false} FindFirst(chunks: seq<Chunk>, ids: set<string>)
    ensures Find(chunks, ids).None? <==> forall c | c in chunks :: c.id !in ids
    ensures Find(chunks, ids).Some? ==>
              exists i :: 0 <= i < |chunks| && Find(chunks, ids).value == chunks[i] && chunks[i].id in ids &&
                forall j | 0 <= j < i :: chunks[j].id !in ids
  {
    if chunks != [] {
      assert chunks == [chunks[0]] + chunks[1..];
      FindFirst(chunks[1..], ids);
      if chunks[0].id in ids {
        assert Find(chunks, ids).value == chunks[0];
      } else if Find(chunks[1..], ids).Some? {
        var i :| 0 <= i < |chunks[1..]| && Find(chunks[1..], ids).value == chunks[1..][i] && chunks[1..][i].id in ids &&
                 forall j | 0 <= j < i :: chunks[1..][j].id !in ids;
        assert chunks[i + 1] == chunks[1..][i];
        assert forall j | 0 < j < i + 1 :: chunks[j] == chunks[1..][j - 1];
      }
    }
  }

  lemma FindId(chunks: seq<Chunk>, id: string)
    ensures Find(chunks, {id}).Some? <==> HasId(chunks, id)
  {
    FindFirst(chunks, {id});
    if HasId(chunks, id) {
      var c :| c in chunks && c.id == id;
      assert c.id in {id};
    }
  }

  lemma WantedWhen(w: World, depth: nat, modeLocked: bool)
    ensures var v, d := w.data(depth), w.doc(depth + 1);
            FallsBack(w, depth, modeLocked) <==>
              && !modeLocked && !v.needsClarification && d.chunks != []
              && (|| (v.chunks == [] && !w.countQuestion)
                  || (v.chunks != [] && !HasId(v.chunks, "access_denied") && !HasId(v.chunks, "error")
                      && v.lowConfidence))
    ensures var v := w.data(depth);
            FallsBack(w, depth, modeLocked) ==>
              FallbackWanted(w, depth) ==
              Some(if v.chunks == [] then "structured_no_results" else "structured_low_confidence")
  {
    FindId(w.data(depth).chunks, "access_denied");
    FindId(w.data(depth).chunks, "error");
    hide Find, HasId;
  }

  /** When the structured stream hands over to documents, said of the lock and the two retrievals; and what it then
      says. */
  lemma FallsBackWhen(w: World, depth: nat, modeLocked: bool)
    ensures var v, d, s := w.data(depth), w.doc(depth + 1), DataStream(w, depth, modeLocked);
            && |s| >= 3 && Final(s).Done?
            && s[0] == Status("retrieval", Structured) && s[1] == Retrieved(Structured, |v.chunks|)
            && (Final(s).agent == Unstructured <==>
                  && !modeLocked && !v.needsClarification && d.chunks != []
                  && (|| (v.chunks == [] && !w.countQuestion)
                      || (v.chunks != [] && !HasId(v.chunks, "access_denied") && !HasId(v.chunks, "error") &&
                          v.lowConfidence)))
            && (Final(s).agent == Unstructured ==>
                  s[2] == Reroute(Unstructured, if v.chunks == [] then "structured_no_results"
                                  else "structured_low_confidence"))
            && (Final(s).agent == Unstructured ==> s[3..] == DocStream(w, depth + 1, true))
            && (Final(s).agent != Unstructured ==>
                  Final(s).agent == Structured && !s[2].Reroute? && s[2..] == OwnAnswer(v))
  {
    WantedWhen(w, depth, modeLocked);
    DataStreamAgent(w, depth, modeLocked);
    FallbackOutcome(w, depth);
    OwnAnswerStarts(w.data(depth));
    hide DataStream, DocStream, OwnAnswer, FallbackWanted, FallsBack, HasId;
    if FallsBack(w, depth, modeLocked) {
      assert DataStream(w, depth, false)[2] == Reroute(Unstructured, FallbackWanted(w, depth).value);
    } else {
      assert DataStream(w, depth, modeLocked) == DataHead(w.data(depth)) + OwnAnswer(w.data(depth));
    }
  }

  lemma OwnAnswerStarts(v: DataView)
    ensures OwnAnswer(v) != [] && !OwnAnswer(v)[0].Reroute?
  {
    hide DataNotice;
  }

  lemma DocStreamStarts(w: World, depth: nat, skipGuard: bool)
    ensures var v, s := w.doc(depth), DocStream(w, depth, skipGuard);
            && |s| >= 3 && s[0] == Status("retrieval", Unstructured) && s[1] == Retrieved(Unstructured, |v.chunks|)
            && (s[2] == Reroute(Structured, "misroute_autofix") <==> v.chunks == [] && !skipGuard && v.guard == Autofix)
            && (if s[2] == Reroute(Structured, "misroute_autofix") then s[3..] == DataStream(w, depth + 1, false)
                else s[2..] == DocAnswer(w, v, skipGuard))
  {
    DocAnswerStarts(w, w.doc(depth), skipGuard);
    hide DataStream, DocAnswer;
  }

  /** When a document stream hands over to structured data, said the same way: retrieval found nothing, the guard
      redirects, and the structured stream does not hand back. */
  lemma LeavesDocumentsWhen(w: World, depth: nat, skipGuard: bool)
    ensures var v, d, back := w.doc(depth), w.data(depth + 1), w.doc(depth + 2);
            var s := DocStream(w, depth, skipGuard);
            && |s| >= 3 && Final(s).Done?
            && s[0] == Status("retrieval", Unstructured) && s[1] == Retrieved(Unstructured, |v.chunks|)
            && (s[2] == Reroute(Structured, "misroute_autofix") <==> v.chunks == [] && !skipGuard && v.guard == Autofix)
            && (Final(s).agent == Structured <==>
                  && v.chunks == [] && !skipGuard && v.guard == Autofix
                  && (|| d.needsClarification || back.chunks == []
                      || (if d.chunks == [] then w.countQuestion
                          else HasId(d.chunks, "access_denied") || HasId(d.chunks, "error") || !d.lowConfidence)))
            && (Final(s).agent != Structured ==> Final(s).agent == Unstructured)
            && (if s[2] == Reroute(Structured, "misroute_autofix") then s[3..] == DataStream(w, depth + 1, false)
                else s[2..] == DocAnswer(w, v, skipGuard))
  {
    hide DocStream, FallsBack, HasId;
    DocStreamStarts(w, depth, skipGuard);
    DocStreamAgent(w, depth, skipGuard);
    WantedWhen(w, depth + 1, false);
  }

  lemma DocAnswerStarts(w: World, v: DocView, skipGuard: bool)
    ensures DocAnswer(w, v, skipGuard) != [] && !DocAnswer(w, v, skipGuard)[0].Reroute?
  {
    hide DocNotice;
  }

  /** The first chunk with one of the ids. */
  ghost predicate IsFirst(chunks: seq<Chunk>, ids: set<string>, c: Chunk) {
    exists i :: 0 <= i < |chunks| && chunks[i] == c && c.id in ids && forall j | 0 <= j < i :: chunks[j].id !in ids
  }

  lemma {:induction false} TokensAre(agent: Agent, deltas: seq<string>)
    ensures |Tokens(agent, deltas)| == |deltas|
    ensures forall i | 0 <= i < |deltas| :: Tokens(agent, deltas)[i] == Token(agent, deltas[i])
  {
    if deltas != [] {
      TokensAre(agent, deltas[..|deltas| - 1]);
    }
  }

  lemma {:induction false} JoinAppend(a: seq<string>, b: seq<string>)
    ensures Join(a + b) == Join(a) + Join(b)
  {
    if b == [] {
      assert a + b == a;
      assert Join(a) + "" == Join(a);
    } else {
      assert (a + b)[..|a + b| - 1] == a + b[..|b| - 1];
      JoinAppend(a, b[..|b| - 1]);
      var x, y, z := Join(a), Join(b[..|b| - 1]), b[|b| - 1];
      assert (x + y) + z == x + (y + z);
    }
  }

  lemma JoinOne(x: string)
    ensures Join([x]) == x
  {
    assert [x][..0] == [] && "" + x == x;
  }

  /** What the structured stream answers for itself, case by case on the retrieved chunks. */
  lemma OwnAnswerIs(v: DataView)
    ensures var s := OwnAnswer(v);
            && (v.needsClarification && v.chunks != [] ==> s == [Done(Structured, Strip(v.chunks[0].text), v.chunks)])
            && (v.needsClarification && v.chunks == [] ==>
                  s == [Done(Structured, "I need one clarification before I can answer that.", [])])
            && (!v.needsClarification && v.chunks == [] ==>
                  s == [Done(Structured, "No matching records were found in the business database for that query.",
                             [])])
  {
    hide Rendered, FailureText, Strip, OrText;
  }

  /** A denied access is answered before a failed query. */
  lemma OwnRefusalIs(v: DataView, c: Chunk)
    requires !v.needsClarification
    ensures IsFirst(v.chunks, {"access_denied"}, c) ==>
              OwnAnswer(v) ==
              [Done(Structured, Strip(if c.text != "" then c.text else "Access denied for structured data."), [])]
    ensures !HasId(v.chunks, "access_denied") && IsFirst(v.chunks, {"error"}, c) ==>
              OwnAnswer(v) ==
              [Done(Structured, "I couldn't run that query successfully.\n\n" +
                                (if c.text != "" then c.text else "The database query failed.") +
                                "\n\nTry rephrasing the question or narrowing the filter.", v.chunks)]
  {
    FirstIsFound(v.chunks, {"access_denied"}, c);
    FirstIsFound(v.chunks, {"error"}, c);
    FindId(v.chunks, "access_denied");
    hide Rendered, Strip, Find, IsFirst, HasId;
  }

  lemma {:induction false} FirstIsFound(chunks: seq<Chunk>, ids: set<string>, c: Chunk)
    ensures IsFirst(chunks, ids, c) ==> chunks != [] && Find(chunks, ids) == Some(c)
  {
    FindFirst(chunks, ids);
    if IsFirst(chunks, ids, c) {
      var i :| 0 <= i < |chunks| && chunks[i] == c && c.id in ids && forall j | 0 <= j < i :: chunks[j].id !in ids;
      assert chunks[i] in chunks;
      var k :| 0 <= k < |chunks| && Find(chunks, ids).value == chunks[k] && chunks[k].id in ids &&
               forall j | 0 <= j < k :: chunks[j].id !in ids;
      assert i == k;
    }
  }

  /** With content, a ready answer is given as it is; otherwise the streamed text, stripped, is the answer. */
  lemma OwnContentIs(v: DataView)
    requires !v.needsClarification && v.chunks != [] && !HasId(v.chunks, "access_denied") && !HasId(v.chunks, "error")
    ensures var s := OwnAnswer(v);
            && s != [] && Final(s) == Done(Structured, if v.fast then v.fastAnswer else Strip(Join(v.deltas)), v.chunks)
            && ((exists e :: e in s && e.Presentation?) <==> v.viz || (v.fast && v.fastBlocks))
            && Spoken(s) == if v.fast then "" else Join(v.deltas)
  {
    FindId(v.chunks, "access_denied");
    FindId(v.chunks, "error");
    hide Strip, Find, FailureText;
    RenderedIs(v);
  }

  lemma RenderedIs(v: DataView)
    ensures var s := Rendered(v);
            && s != [] && Final(s) == Done(Structured, if v.fast then v.fastAnswer else Strip(Join(v.deltas)), v.chunks)
            && ((exists e :: e in s && e.Presentation?) <==> v.viz || (v.fast && v.fastBlocks))
            && Spoken(s) == if v.fast then "" else Join(v.deltas)
  {
    hide Strip, Join, Tokens, Content;
    var answer := if v.fast then v.fastAnswer else Strip(Join(v.deltas));
    ContentIs(Structured, Some(Structured), v.viz || (v.fast && v.fastBlocks), !v.fast, v.deltas, answer, v.chunks);
    assert Rendered(v) ==
           Content(Structured, Some(Structured), v.viz || (v.fast && v.fastBlocks), !v.fast, v.deltas, answer,
                   v.chunks) by {
      RenderedShape(v, answer);
    }
  }

  lemma RenderedShape(v: DataView, answer: string)
    requires answer == if v.fast then v.fastAnswer else Strip(Join(v.deltas))
    ensures Rendered(v) ==
            Content(Structured, Some(Structured), v.viz || (v.fast && v.fastBlocks), !v.fast, v.deltas, answer,
                    v.chunks)
  {
    hide Strip, Join, Tokens;
  }

  /** An answer with content: a presentation or not, the streamed synthesis or not, the end. */
  function Content(agent: Agent, section: Option<Agent>, shown: bool, streamed: bool, deltas: seq<string>,
                   answer: string, sources: seq<Chunk>): seq<Event>
  {
    (if shown then [Presentation(section)] else []) +
    (if streamed then [Status("synthesis", agent)] + Tokens(agent, deltas) else []) +
    [Done(agent, answer, sources)]
  }

  lemma ContentIs(agent: Agent, section: Option<Agent>, shown: bool, streamed: bool, deltas: seq<string>,
                  answer: string, sources: seq<Chunk>)
    ensures var s := Content(agent, section, shown, streamed, deltas, answer, sources);
            && s != [] && Final(s) == Done(agent, answer, sources)
            && ((exists e :: e in s && e.Presentation?) <==> shown)
            && Spoken(s) == if streamed then Join(deltas) else ""
  {
    var show, done := if shown then [Presentation(section)] else [], [Done(agent, answer, sources)];
    var said := if streamed then [Status("synthesis", agent)] + Tokens(agent, deltas) else [];
    TokensFacts(agent, deltas, agent);
    hide Join, Tokens;
    SilentSaysNothing([Status("synthesis", agent)]);
    SpokenAppend([Status("synthesis", agent)], Tokens(agent, deltas));
    SilentSaysNothing(show);
    DoneFacts(done[0], agent);
    hide Spoken;
    SaidBetween(show, said, done);
    ShownOnce(show, said, done);
    assert "" + Join(deltas) == Join(deltas);
    assert Spoken([]) == "" by {
      SilentSaysNothing([]);
    }
  }

  lemma SaidBetween(show: seq<Event>, said: seq<Event>, done: seq<Event>)
    requires Spoken(show) == "" && Spoken(done) == ""
    ensures Spoken(show + said + done) == Spoken(said)
  {
    SpokenAppend(show, said);
    SpokenAppend(show + said, done);
    assert "" + Spoken(said) == Spoken(said) && Spoken(said) + "" == Spoken(said);
  }

  lemma ShownOnce(show: seq<Event>, said: seq<Event>, done: seq<Event>)
    requires forall e | e in show :: e.Presentation?
    requires (forall e | e in said :: !e.Presentation?) && (forall e | e in done :: !e.Presentation?)
    ensures (exists e :: e in show + said + done && e.Presentation?) <==> show != []
  {
    if show != [] {
      assert show[0] in show + said + done;
    }
  }

  /** What the document stream answers for itself, case by case: nothing found, a marker chunk, a denial, or content. */
  lemma DocAnswerIs(w: World, v: DocView, skipGuard: bool, c: Chunk)
    ensures v.chunks == [] && !skipGuard && v.guard.Hint? ==>
              DocAnswer(w, v, skipGuard) == [Done(Unstructured, v.guard.answer, [])]
    ensures v.chunks == [] && (skipGuard || !v.guard.Hint?) ==>
              DocAnswer(w, v, skipGuard) ==
              [Done(Unstructured, "I could not find relevant information in the ingested documents.", [])]
    ensures IsFirst(v.chunks, {"underspecified", "graph_count", "graph_outline"}, c) ==>
              DocAnswer(w, v, skipGuard) == [Done(Unstructured, Strip(c.text), v.chunks)]
    ensures (forall d | d in v.chunks :: d.id !in {"underspecified", "graph_count", "graph_outline"}) &&
            IsFirst(v.chunks, {"access_denied"}, c) ==>
              DocAnswer(w, v, skipGuard) ==
              [Done(Unstructured, Strip(if c.text != "" then c.text else "Access denied for document data."), [])]
  {
    FindFirst(v.chunks, MARKERS);
    FirstIsFound(v.chunks, MARKERS, c);
    FirstIsFound(v.chunks, {"access_denied"}, c);
    hide Strip, Find, IsFirst, DocRendered;
  }

  lemma DocContentIs(w: World, v: DocView, skipGuard: bool)
    requires v.chunks != []
    requires forall d | d in v.chunks :: d.id !in {"underspecified", "graph_count", "graph_outline", "access_denied"}
    ensures var s := DocAnswer(w, v, skipGuard);
            var answer := if v.structuralMode then v.fastAnswer else w.fixMisrouted(Strip(Join(v.deltas)));
            && s != [] && Final(s) == Done(Unstructured, answer, v.chunks)
            && ((exists e :: e in s && e.Presentation?) <==> v.structuralMode && v.fastBlocks)
            && Spoken(s) == if v.structuralMode then "" else Join(v.deltas)
  {
    FindFirst(v.chunks, MARKERS);
    FindFirst(v.chunks, {"access_denied"});
    hide Strip, Join, Tokens, Content, Find;
    var answer := if v.structuralMode then v.fastAnswer else w.fixMisrouted(Strip(Join(v.deltas)));
    var shown := v.structuralMode && v.fastBlocks;
    ContentIs(Unstructured, None, shown, !v.structuralMode, v.deltas, answer, v.chunks);
    DocRenderedShape(w, v, answer);
  }

  lemma DocRenderedShape(w: World, v: DocView, answer: string)
    requires answer == if v.structuralMode then v.fastAnswer else w.fixMisrouted(Strip(Join(v.deltas)))
    ensures DocRendered(w, v) ==
            Content(Unstructured, None, v.structuralMode && v.fastBlocks, !v.structuralMode, v.deltas, answer, v.chunks)
  {
    hide Strip, Join, Tokens;
  }

  // ---- the generators -------------------------------------------------------------------------------------------

  /** A suspended generator: the events it yields when driven, and how many it has yielded. */
  class Generator {
    const items: seq<Event>
    var pos: nat

    ghost predicate Valid()
      reads this
    {
      pos <= |items|
    }

    constructor (items: seq<Event>)
      ensures this.items == items && pos == 0 && Valid()
    {
      this.items, pos := items, 0;
    }

    method Next() returns (e: Option<Event>)
      requires Valid()
      modifies this
      ensures Valid()
      ensures if old(pos) < |items| then e == Some(items[old(pos)]) && pos == old(pos) + 1
              else e == None && pos == old(pos)
    {
      if pos < |items| {
        e, pos := Some(items[pos]), pos + 1;
      } else {
        e := None;
      }
    }
  }

  /** `_try_document_fallback_stream`: the consumed prefix with the rest of the generator, or nothing. */
  method TryDocumentFallback(w: World, depth: nat) returns (r: Option<(seq<Event>, Generator)>)
    ensures r.Some? <==> Peek(DocStream(w, depth + 1, true), 0).Some?
    ensures r.Some? ==> var (buffered, gen) := r.value;
              && fresh(gen) && gen.Valid() && gen.items == DocStream(w, depth + 1, true)
              && Some(gen.pos) == Peek(gen.items, 0) && buffered == gen.items[..gen.pos]
  {
    hide DocStream;
    var gen := new Generator(DocStream(w, depth + 1, true));
    var buffered := [];
    while true
      invariant gen.Valid() && buffered == gen.items[..gen.pos]
      invariant Peek(gen.items, gen.pos) == Peek(gen.items, 0)
      decreases |gen.items| - gen.pos
    {
      var line := gen.Next();
      if line.None? {
        return None;
      }
      buffered := buffered + [line.value];
      if line.value.Retrieved? {
        if line.value.chunks == 0 {
          return None;
        }
        return Some((buffered, gen));
      }
      if line.value.Done? {
        if line.value.agent == Unstructured && line.value.sources != [] {
          return Some((buffered, gen));
        }
        return None;
      }
    }
  }

  /** The token loop: each delta is kept and yielded as it arrives. */
  method StreamDeltas(agent: Agent, deltas: seq<string>) returns (out: seq<Event>, text: string)
    ensures out == Tokens(agent, deltas) && text == Join(deltas)
  {
    out, text := [], "";
    for n := 0 to |deltas|
      invariant out == Tokens(agent, deltas[..n]) && text == Join(deltas[..n])
    {
      assert deltas[..n + 1][..n] == deltas[..n];
      text := text + deltas[n];
      out := out + [Token(agent, deltas[n])];
    }
    assert deltas[..|deltas|] == deltas;
  }

  /** `iter_document_stream`, driven to its end. */
  method IterDocumentStream(w: World, depth: nat, skipGuard: bool) returns (out: seq<Event>)
    ensures out == DocStream(w, depth, skipGuard)
    decreases if skipGuard then 0 else 2
  {
    out := [Status("retrieval", Unstructured)];
    var v := w.doc(depth);
    out := out + [Retrieved(Unstructured, |v.chunks|)];
    assert out == DocHead(v);
    if v.chunks == [] && !skipGuard && v.guard == Autofix {
      out := out + [Reroute(Structured, "misroute_autofix")];
      var rest := IterStructuredStream(w, depth + 1, false);
      out := out + rest;
      assert out == DocHead(v) + ([Reroute(Structured, "misroute_autofix")] + rest);
      return;
    }
    var own := AnswerFromDocuments(w, v, skipGuard);
    out := out + own;
  }

  method AnswerFromDocuments(w: World, v: DocView, skipGuard: bool) returns (out: seq<Event>)
    ensures out == DocAnswer(w, v, skipGuard)
  {
    hide Strip, OrText, DocRendered;
    if v.chunks == [] {
      if !skipGuard && v.guard.Hint? {
        return [Done(Unstructured, v.guard.answer, [])];
      }
      return [Done(Unstructured, "I could not find relevant information in the ingested documents.", [])];
    }
    var marker := Find(v.chunks, MARKERS);
    if marker.Some? {
      return [Done(Unstructured, Strip(marker.value.text), v.chunks)];
    }
    var denied := Find(v.chunks, {"access_denied"});
    if denied.Some? {
      return [Done(Unstructured, Strip(OrText(denied.value.text, "Access denied for document data.")), [])];
    }
    out := RenderDocument(w, v);
  }

  method RenderDocument(w: World, v: DocView) returns (out: seq<Event>)
    ensures out == DocRendered(w, v)
  {
    out := [];
    if v.structuralMode {
      if v.fastBlocks {
        out := out + [Presentation(None)];
      }
      out := out + [Done(Unstructured, v.fastAnswer, v.chunks)];
    } else {
      out := out + [Status("synthesis", Unstructured)];
      var tokens, text := StreamDeltas(Unstructured, v.deltas);
      out := out + tokens + [Done(Unstructured, w.fixMisrouted(Strip(text)), v.chunks)];
      assert out == [Status("synthesis", Unstructured)] +
                    Synthesis(Unstructured, v.deltas, w.fixMisrouted(Strip(text)), v.chunks);
    }
  }

  /** `iter_structured_stream`, driven to its end. */
  method IterStructuredStream(w: World, depth: nat, modeLocked: bool) returns (out: seq<Event>)
    ensures out == DataStream(w, depth, modeLocked)
    decreases 1
  {
    hide OwnAnswer, DocStream, Peek;
    var v := w.data(depth);
    out := [Status("retrieval", Structured)];
    out := out + [Retrieved(Structured, |v.chunks|)];
    assert out == DataHead(v);
    if !v.needsClarification {
      if v.chunks == [] {
        if !modeLocked && !w.countQuestion {
          var rerouted := Switch(w, depth, "structured_no_results");
          if rerouted.Some? {
            return out + rerouted.value;
          }
        }
      } else if Find(v.chunks, {"access_denied"}).None? && Find(v.chunks, {"error"}).None? {
        if v.lowConfidence && !modeLocked {
          var rerouted := Switch(w, depth, "structured_low_confidence");
          if rerouted.Some? {
            return out + rerouted.value;
          }
        }
      }
    }
    var own := AnswerFromData(v);
    out := out + own;
  }

  /** Commit to the document stream if the peek allows it: announce the reroute, replay what was peeked, drain the rest.
      */
  method Switch(w: World, depth: nat, reason: string) returns (r: Option<seq<Event>>)
    ensures r == (var items := DocStream(w, depth + 1, true);
                  if Peek(items, 0).None? then None
                  else Some([Reroute(Unstructured, reason)] + items[..Peek(items, 0).value] +
                            items[Peek(items, 0).value..]))
  {
    hide DocStream;
    var fallback := TryDocumentFallback(w, depth);
    if fallback.None? {
      return None;
    }
    var (buffered, rest) := fallback.value;
    var out := [Reroute(Unstructured, reason)] + buffered;
    ghost var start := rest.pos;
    while rest.pos < |rest.items|
      invariant rest.Valid() && start <= rest.pos
      invariant out == [Reroute(Unstructured, reason)] + buffered + rest.items[start..rest.pos]
      decreases |rest.items| - rest.pos
    {
      var line := rest.Next();
      out := out + [line.value];
    }
    assert rest.items[start..|rest.items|] == rest.items[start..];
    r := Some(out);
  }

  method AnswerFromData(v: DataView) returns (out: seq<Event>)
    ensures out == OwnAnswer(v)
  {
    hide FailureText, Strip, OrText, Rendered;
    if v.needsClarification {
      var answer := if v.chunks != [] then Strip(v.chunks[0].text)
        else "I need one clarification before I can answer that.";
      return [Done(Structured, answer, v.chunks)];
    }
    if v.chunks == [] {
      return [Done(Structured, "No matching records were found in the business database for that query.", [])];
    }
    var denied := Find(v.chunks, {"access_denied"});
    if denied.Some? {
      return [Done(Structured, Strip(OrText(denied.value.text, "Access denied for structured data.")), [])];
    }
    var error := Find(v.chunks, {"error"});
    if error.Some? {
      return [Done(Structured, FailureText(OrText(error.value.text, "The database query failed.")), v.chunks)];
    }
    out := RenderData(v);
  }

  method RenderData(v: DataView) returns (out: seq<Event>)
    ensures out == Rendered(v)
  {
    out := [];
    if v.viz {
      out := out + [Presentation(Some(Structured))];
    }
    if v.fast {
      if v.fastBlocks && !v.viz {
        out := out + [Presentation(Some(Structured))];
      }
      return out + [Done(Structured, v.fastAnswer, v.chunks)];
    }
    ghost var shown := out;
    out := out + [Status("synthesis", Structured)];
    var tokens, text := StreamDeltas(Structured, v.deltas);
    out := out + tokens + [Done(Structured, Strip(text), v.chunks)];
    assert out == shown + ([Status("synthesis", Structured)] + Synthesis(Structured, v.deltas, Strip(text), v.chunks));
  }
}
