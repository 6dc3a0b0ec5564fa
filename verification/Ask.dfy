/** One question from mode to answer, and the boundary between the two sources (src/interface/router.py,
    src/interface/routing.py, src/interface/handlers/, src/shared/feedback/resolver.py). */
module Ask {
  import opened Modes
  import opened Text

  /** Who produced a piece of an answer. `Mixed` is the hybrid agent, `System` a fixed message. */
  datatype Producer = Documents | Data | Mixed | System

  datatype Content = Content(producer: Producer, text: string)

  datatype Result = Result(
    answer: Content,
    sources: seq<Content>,
    agent: Agent,
    autofix: bool,
    lowConfidence: bool,
    routeTool: string,
    routeMethod: string)

  /** An audit record: access refused, or a question answered. */
  datatype Audit =
    | Refused(action: string, reason: string)
    | Answered(action: string, routeTool: string, agent: Agent, lowConfidence: bool)

  /** A saved turn: the question and what was answered. */
  type Turn = (string, Result)

  // ---- the agents and the other oracles ----------------------------------------------------------------------------

  /** A document retrieval: `empty` when it found nothing or was denied. */
  datatype DocRun = DocRun(answer: string, sources: seq<string>, empty: bool, lowConfidence: bool)

  /** A structured retrieval: `denied` when access was refused inside it. */
  datatype DataRun = DataRun(answer: string, sources: seq<string>, denied: bool, lowConfidence: bool)

  /** Who calls an oracle. No caller makes the same call twice while answering one question, so no answer is repeated.
      */
  datatype Caller = InSearch | InData | InHybrid | InFallback | InGuard

  datatype World = World(
    doc: (Caller, string) -> DocRun,
    data: (Caller, string) -> DataRun,
    followUp: (Caller, string) -> string,
    structuredQuestion: string -> bool,
    documentCue: string -> bool,
    userId: Option<string>,
    canQueryStructured: bool,
    looksDenied: Result -> bool,
    hasMarkerSource: seq<Content> -> bool,
    fastRoute: string -> bool,
    baselineTool: string -> string)

  function Tag(producer: Producer, texts: seq<string>): (r: seq<Content>)
    ensures forall c | c in r :: c.producer == producer
  {
    seq(|texts|, i requires 0 <= i < |texts| => Content(producer, texts[i]))
  }

  /** Who is asking, as a handler names an absent user. */
  function UserName(w: World): string {
    match w.userId case Some(id) => id case None => "unknown"
  }

  const PUBLIC_USER := "public_001"

  /** Who is asking, as `ask` names an absent user: by the default public context. */
  function ContextUser(w: World): string {
    match w.userId case Some(id) => id case None => PUBLIC_USER
  }

  function MisrouteText(user: string): string {
    "This question looks like a structured graph or analytics query, not a document search. Your account (" + user +
    ") does not have permission to query the structured graph. Use a role with structured access, or rephrase as a " +
    "document question (PDF, section, policy)."
  }

  function DeniedText(user: string): string {
    "This question requires the structured knowledge graph (analytics, entities, relationships). Your account (" +
    user +
    ") does not have permission to query that data. Use a role with structured graph access."
  }

  const NOT_IN_DATA :=
    "That could not be answered from the structured data. It was not answered from your documents either, because " +
    "\"Structured data\" was the selected source -- switch to Documents to search those instead."

  const NOT_IN_DOCUMENTS :=
    "That could not be answered from your documents. \"Documents\" was the selected source, so the structured data " +
    "was not searched -- switch to Structured data to query it."

  function BoundaryText(wanted: Agent): string {
    if wanted == Structured then NOT_IN_DATA else NOT_IN_DOCUMENTS
  }

  /** What the document agent hands its caller: no label yet, only the marker that the structured agent answered. */
  datatype DocReply = DocReply(answer: Content, sources: seq<Content>, autofix: bool, lowConfidence: bool)

  /** `is_misrouted_structured_question`, asked only once retrieval came up empty. */
  predicate Guarded(w: World, caller: Caller, question: string, skipGuard: bool) {
    w.doc(caller, question).empty && !skipGuard && w.structuredQuestion(question) && !w.documentCue(question)
  }

  /** The guard redirects only for a named user with structured access. */
  predicate Redirects(w: World, caller: Caller, question: string, skipGuard: bool) {
    Guarded(w, caller, question, skipGuard) && w.userId.Some? && w.canQueryStructured
  }

  /** The document agent. When it finds nothing and the question looks structured, its guard answers instead: from the
      structured agent if access allows, otherwise with a fixed hint. */
  function DocumentAgent(w: World, caller: Caller, question: string, skipGuard: bool): DocReply {
    var v := w.doc(caller, question);
    if Redirects(w, caller, question, skipGuard) then
      var fixed := w.data(InGuard, question);
      DocReply(Content(Data, Strip(fixed.answer)), Tag(Data, fixed.sources), true, fixed.lowConfidence)
    else if Guarded(w, caller, question, skipGuard) then
      DocReply(Content(System, MisrouteText(UserName(w))), Tag(Documents, v.sources), false, false)
    else DocReply(Content(Documents, v.answer), Tag(Documents, v.sources), false, v.lowConfidence)
  }

  /** What the guard records: a refusal, exactly when it may not redirect. */
  function GuardRecords(w: World, caller: Caller, question: string, skipGuard: bool): seq<Audit> {
    if Guarded(w, caller, question, skipGuard) && !Redirects(w, caller, question, skipGuard)
    then [Refused(question, "misrouted_no_access")] else []
  }

  /** `try_document_fallback`: only content that is there, unmarked and confident. */
  function DocumentFallback(w: World, question: string): Option<DocReply> {
    var r := DocumentAgent(w, InFallback, question, true);
    if r.sources == [] || w.hasMarkerSource(r.sources) || r.lowConfidence then None else Some(r)
  }

  // ---- the handlers ------------------------------------------------------------------------------------------------

  /** `search_documents`: the marker decides which agent is reported. */
  function SearchDocuments(w: World, question: string): Result {
    var d := DocumentAgent(w, InSearch, w.followUp(InSearch, question), false);
    Result(d.answer, d.sources, if d.autofix then Structured else Unstructured, d.autofix, d.lowConfidence, "", "")
  }

  /** `query_data`: always reported as structured; a weak answer is replaced from documents unless the mode is locked.
      */
  function QueryData(w: World, question: string, modeLocked: bool): Result {
    var q := w.followUp(InData, question);
    var v := w.data(InData, q);
    var own := Result(Content(Data, v.answer), Tag(Data, v.sources), Structured, false, v.lowConfidence, "", "");
    if v.lowConfidence && !v.denied && !modeLocked then
      match DocumentFallback(w, q)
      case Some(f) => Result(f.answer, f.sources, Structured, false, false, "", "")
      case None => own
    else own
  }

  /** `query_hybrid`. */
  function QueryHybrid(w: World, question: string): Result {
    var d, s := DocumentAgent(w, InHybrid, question, false), w.data(InHybrid, question);
    Result(Content(Mixed, "### From Documents:\n" + d.answer.text + "\n\n### From Data:\n" + s.answer), d.sources,
           Hybrid, false, false, "", "")
  }

  /** A handler table; `ask` runs the three above, under the mode lock. */
  datatype Handlers = Handlers(documents: string -> Result, data: string -> Result, hybrid: string -> Result)

  function RealHandlers(w: World, modeLocked: bool): Handlers {
    Handlers(q => SearchDocuments(w, q), q => QueryData(w, q, modeLocked), q => QueryHybrid(w, q))
  }

  // ---- routing -----------------------------------------------------------------------------------------------------

  /** `resolve_query_tool`: a forced tool wins outright. */
  function ResolveTool(w: World, question: string, forced: string): string {
    if forced != "" then forced else w.baselineTool(question)
  }

  /** `make_structured_access_denied_result`. */
  function AccessDenied(user: string): Result {
    Result(Content(System, DeniedText(user)), [], Structured, false, false, "query_data", "structured_access_denied")
  }

  function Handle(h: Handlers, tool: string, question: string): Result {
    if tool == "query_data" then h.data(question)
    else if tool == "query_hybrid" then h.hybrid(question)
    else h.documents(question)
  }

  /** A structured answer that looks denied, to a question that does not look structured, is retried on documents. */
  predicate Retried(w: World, h: Handlers, question: string, tool: string) {
    tool == "query_data" && w.looksDenied(h.data(question)) && !w.structuredQuestion(question)
  }

  /** `run_via_mcp_tool`. */
  function RunTool(w: World, h: Handlers, question: string, tool: string): Result {
    var result := Handle(h, tool, question);
    if Retried(w, h, question, tool) then
      h.documents(question).(routeTool := "search_documents", routeMethod := "fallback_structured_denied")
    else if tool == "query_data" && w.looksDenied(result) then AccessDenied(UserName(w))
    else if tool == "search_documents" && result.autofix then
      result.(routeTool := "query_data", routeMethod := "misroute_autofix")
    else result.(routeTool := tool, routeMethod := if w.fastRoute(question) then "fast" else "llm_mcp")
  }

  /** The turns `run_via_mcp_tool` leaves saved: one a handler, and none from the hybrid one. */
  function RunTurns(w: World, h: Handlers, question: string, tool: string): seq<Turn> {
    if tool == "query_hybrid" then []
    else [(question, Handle(h, tool, question))] +
         if Retried(w, h, question, tool) then [(question, h.documents(question))] else []
  }

  /** The refusals the guard records meanwhile. */
  function RunRecords(w: World, h: Handlers, question: string, tool: string): seq<Audit> {
    if tool == "query_hybrid" then GuardRecords(w, InHybrid, question, false)
    else if tool == "query_data" && !Retried(w, h, question, tool) then []
    else GuardRecords(w, InSearch, w.followUp(InSearch, question), false)
  }

  /** `enforce_mode`: an answer from any other agent is replaced by a message, and its sources dropped. */
  function EnforceMode(r: Result, forced: string): Result {
    if forced == "" || r.agent == AgentOf(forced) then r
    else r.(answer := Content(System, BoundaryText(AgentOf(forced))), agent := AgentOf(forced), sources := [],
            lowConfidence := true)
  }

  /** Structured data was asked for, and access is refused before anything runs. */
  predicate RefusedOutright(w: World, question: string, tool: string) {
    tool == "query_data" && w.structuredQuestion(question) && !w.canQueryStructured
  }

  /** `ask` over any handler table. */
  function AskWith(w: World, h: Handlers, question: string, mode: Option<string>): Result {
    var forced := ResolveMode(mode);
    var tool := ResolveTool(w, question, forced);
    if RefusedOutright(w, question, tool) then
      match (if forced != "" then None else DocumentFallback(w, question))
      case Some(f) => Result(f.answer, f.sources, Unstructured, false, false, "query_data",
                             "structured_denied_document_fallback")
      case None => AccessDenied(ContextUser(w))
    else EnforceMode(RunTool(w, h, question, tool), forced)
  }

  /** Everything `ask` records. */
  function AskRecords(w: World, h: Handlers, question: string, mode: Option<string>): seq<Audit> {
    var tool, r := ResolveMode(mode), AskWith(w, h, question, mode);
    if RefusedOutright(w, question, tool) then [Refused(question, "rbac_denied")]
    else RunRecords(w, h, question, tool) + [Answered(question, r.routeTool, r.agent, r.lowConfidence)]
  }

  /** Every turn `ask` leaves saved. */
  function AskTurns(w: World, h: Handlers, question: string, mode: Option<string>): seq<Turn> {
    var tool := ResolveMode(mode);
    if RefusedOutright(w, question, tool) then [(question, AccessDenied(ContextUser(w)))]
    else RunTurns(w, h, question, tool)
  }

  // ---- the boundary ------------------------------------------------------------------------------------------------

  /** Nothing in this answer was produced by the agent of the other source. */
  ghost predicate OnlyFrom(r: Result, source: Producer) {
    && (r.answer.producer == source || r.answer.producer == System)
    && (forall c | c in r.sources :: c.producer == source || c.producer == System)
  }

  /** A result labelled with a single-source agent holds nothing of the other source. */
  ghost predicate Truthful(r: Result) {
    (r.agent == Structured ==> OnlyFrom(r, Data)) && (r.agent == Unstructured ==> OnlyFrom(r, Documents))
  }

  ghost predicate TruthfulHandlers(h: Handlers) {
    forall q :: Truthful(h.documents(q)) && Truthful(h.data(q)) && Truthful(h.hybrid(q))
  }

  /** The label of a document answer is that of the agent that produced it: structured exactly when the guard
      redirected. */
  lemma MarkerDecidesLabel(w: World, question: string)
    ensures var r := SearchDocuments(w, question);
            && (r.agent == Structured <==> Redirects(w, InSearch, w.followUp(InSearch, question), false))
            && (r.agent == Structured <==> r.autofix) && (r.agent == Unstructured <==> !r.autofix)
            && (r.agent == Structured <==> r.answer.producer == Data)
            && Truthful(r)
  {
    hide MisrouteText, Strip;
  }

  /** For every mode string and any handlers at all, the answer is labelled with the agent of the requested mode. */
  lemma AskKeepsMode(w: World, h: Handlers, question: string, mode: Option<string>)
    ensures AskWith(w, h, question, mode).agent == AgentOf(ResolveMode(mode))
  {
  }

  lemma RunToolTruthful(w: World, h: Handlers, question: string, tool: string)
    requires TruthfulHandlers(h)
    ensures Truthful(RunTool(w, h, question, tool))
  {
    assert Truthful(h.documents(question)) && Truthful(h.data(question)) && Truthful(h.hybrid(question));
    TruthAboutContent(h.documents(question));
    TruthAboutContent(h.data(question));
    TruthAboutContent(h.hybrid(question));
  }

  /** Truthfulness is about the content and its label, not about the routing metadata. */
  lemma TruthAboutContent(r: Result)
    ensures forall t, m :: Truthful(r.(routeTool := t, routeMethod := m)) == Truthful(r)
  {
  }

  /** With truthful handlers, an answer in a single-source mode holds nothing of the other source. */
  lemma AskKeepsSource(w: World, h: Handlers, question: string, mode: Option<string>)
    requires TruthfulHandlers(h)
    ensures var r := AskWith(w, h, question, mode);
            && (AgentOf(ResolveMode(mode)) == Structured ==> OnlyFrom(r, Data))
            && (AgentOf(ResolveMode(mode)) == Unstructured ==> OnlyFrom(r, Documents))
  {
    hide RunTool, BoundaryText, DeniedText, DocumentAgent, Truthful, Lower, Strip;
    RunToolTruthful(w, h, question, ResolveTool(w, question, ResolveMode(mode)));
  }

  lemma LockedDataTruthful(w: World, question: string)
    ensures Truthful(QueryData(w, question, true))
  {
  }

  lemma HybridTruthful(w: World, question: string)
    ensures Truthful(QueryHybrid(w, question))
  {
  }

  /** The handlers `ask` runs are truthful because the mode is locked. */
  lemma LockedHandlersTruthful(w: World)
    ensures TruthfulHandlers(RealHandlers(w, true))
  {
    var h := RealHandlers(w, true);
    forall q
      ensures Truthful(h.documents(q)) && Truthful(h.data(q)) && Truthful(h.hybrid(q))
    {
      hide DocumentAgent, Truthful;
      MarkerDecidesLabel(w, q);
      LockedDataTruthful(w, q);
      HybridTruthful(w, q);
    }
  }

  /** The lock is what makes them so: unlocked, they are truthful exactly when no weak structured answer finds a
      document fallback. */
  lemma UnlockedTruthfulIff(w: World)
    ensures TruthfulHandlers(RealHandlers(w, false)) <==>
            forall q :: var v := w.data(InData, w.followUp(InData, q));
                        v.lowConfidence && !v.denied ==> DocumentFallback(w, w.followUp(InData, q)) == None
  {
    var h := RealHandlers(w, false);
    forall q
      ensures Truthful(h.documents(q)) && Truthful(h.hybrid(q))
      ensures Truthful(h.data(q)) <==>
              var v := w.data(InData, w.followUp(InData, q));
              v.lowConfidence && !v.denied ==> DocumentFallback(w, w.followUp(InData, q)) == None
    {
      hide DocumentAgent, Truthful, DocumentFallback;
      MarkerDecidesLabel(w, q);
      HybridTruthful(w, q);
      UnlockedDataTruthful(w, q);
    }
  }

  lemma UnlockedDataTruthful(w: World, question: string)
    ensures Truthful(QueryData(w, question, false)) <==>
            var v := w.data(InData, w.followUp(InData, question));
            v.lowConfidence && !v.denied ==> DocumentFallback(w, w.followUp(InData, question)) == None
  {
    var f := DocumentFallback(w, w.followUp(InData, question));
    if f.Some? {
      assert f.value.answer.producer == Documents;
    }
  }

  /** The whole of `ask` as it runs: for every mode, question and oracle, the label is the requested agent's and in a
      single-source mode neither the answer nor any source comes from the other one. */
  lemma AskIsolated(w: World, question: string, mode: Option<string>)
    ensures var r := AskWith(w, RealHandlers(w, true), question, mode);
            && r.agent == AgentOf(ResolveMode(mode))
            && (r.agent == Structured ==> OnlyFrom(r, Data))
            && (r.agent == Unstructured ==> OnlyFrom(r, Documents))
  {
    hide AskWith, RealHandlers, OnlyFrom;
    LockedHandlersTruthful(w);
    AskKeepsMode(w, RealHandlers(w, true), question, mode);
    AskKeepsSource(w, RealHandlers(w, true), question, mode);
  }

  // ---- what the answer says ----------------------------------------------------------------------------------------

  ghost predicate Says(r: Result, producer: Producer, text: string, sources: seq<string>) {
    && r.answer == Content(producer, text) && |r.sources| == |sources|
    && forall i | 0 <= i < |sources| :: r.sources[i] == Content(producer, sources[i])
  }

  ghost predicate SaysAlone(r: Result, text: string) {
    r.answer == Content(System, text) && r.sources == []
  }

  /** The metadata of a question answered by the tool it was meant for. */
  ghost predicate Direct(w: World, question: string, r: Result, tool: string) {
    r.routeTool == tool && r.routeMethod == if w.fastRoute(question) then "fast" else "llm_mcp"
  }

  lemma TagSays(r: Result, producer: Producer, text: string, sources: seq<string>)
    requires r.answer == Content(producer, text) && r.sources == Tag(producer, sources)
    ensures Says(r, producer, text, sources)
  {
  }

  /** Asked of the documents: the retrieval's own answer and sources, for the followed-up question, unless it found
      nothing and the question looks structured; then the hint that names the user, or for a user with structured
      access, whose question was redirected, the boundary message. */
  lemma DocumentAnswer(w: World, question: string, mode: Option<string>)
    requires ResolveMode(mode) == "search_documents"
    ensures var q := w.followUp(InSearch, question);
            var v, r := w.doc(InSearch, q), AskWith(w, RealHandlers(w, true), question, mode);
            if !v.empty || !w.structuredQuestion(q) || w.documentCue(q) then
              && Says(r, Documents, v.answer, v.sources) && r.lowConfidence == v.lowConfidence
              && Direct(w, question, r, "search_documents")
            else if w.userId.Some? && w.canQueryStructured then
              && SaysAlone(r, NOT_IN_DOCUMENTS) && r.lowConfidence
              && r.routeTool == "query_data" && r.routeMethod == "misroute_autofix"
            else
              && r.answer == Content(System, MisrouteText(if w.userId.Some? then w.userId.value else "unknown"))
              && !r.lowConfidence && Direct(w, question, r, "search_documents")
  {
    hide Strip, Lower, MisrouteText, DeniedText, Tag, Says;
    var q := w.followUp(InSearch, question);
    var v, r := w.doc(InSearch, q), AskWith(w, RealHandlers(w, true), question, mode);
    if !v.empty || !w.structuredQuestion(q) || w.documentCue(q) {
      TagSays(r, Documents, v.answer, v.sources);
    }
  }

  /** Does the data run's answer, as the handler packs it, look like a denial? */
  ghost predicate DeniedLook(w: World, question: string) {
    var v := w.data(InData, w.followUp(InData, question));
    w.looksDenied(Result(Content(Data, v.answer), Tag(Data, v.sources), Structured, false, v.lowConfidence, "", ""))
  }

  /** Asked of the structured data: refused outright without access to a question that looks structured. Otherwise the
      data run's own answer and sources, for the followed-up question, unless it looks denied. */
  lemma DataAnswer(w: World, question: string, mode: Option<string>)
    requires ResolveMode(mode) == "query_data"
    ensures var v, r := w.data(InData, w.followUp(InData, question)), AskWith(w, RealHandlers(w, true), question, mode);
            if w.structuredQuestion(question) && !w.canQueryStructured then
              && SaysAlone(r, DeniedText(if w.userId.Some? then w.userId.value else "public_001"))
              && r.routeTool == "query_data" && r.routeMethod == "structured_access_denied" && !r.lowConfidence
            else !DeniedLook(w, question) ==>
                   && Says(r, Data, v.answer, v.sources) && r.lowConfidence == v.lowConfidence
                   && Direct(w, question, r, "query_data")
  {
    hide Strip, Lower, MisrouteText, BoundaryText, DeniedText, Tag, Says, DocumentAgent, DocumentFallback;
    var v, r := w.data(InData, w.followUp(InData, question)), AskWith(w, RealHandlers(w, true), question, mode);
    var own := Result(Content(Data, v.answer), Tag(Data, v.sources), Structured, false, v.lowConfidence, "", "");
    if !(w.structuredQuestion(question) && !w.canQueryStructured) && !w.looksDenied(own) {
      TagSays(r, Data, v.answer, v.sources);
    }
  }

  /** What replaces an answer that looks denied. */
  ghost predicate AfterDenial(w: World, question: string, r: Result) {
    var q := w.followUp(InSearch, question);
    var redirected := w.doc(InSearch, q).empty && w.structuredQuestion(q) && !w.documentCue(q) &&
                      w.userId.Some? && w.canQueryStructured;
    if w.structuredQuestion(question) then
      && SaysAlone(r, DeniedText(if w.userId.Some? then w.userId.value else "unknown"))
      && r.routeTool == "query_data" && r.routeMethod == "structured_access_denied"
    else
      && r.routeTool == "search_documents" && r.routeMethod == "fallback_structured_denied"
      && if redirected then Says(r, Data, Strip(w.data(InGuard, q).answer), w.data(InGuard, q).sources)
         else SaysAlone(r, NOT_IN_DATA) && r.lowConfidence
  }

  /** An answer that looks denied is replaced by the refusal exactly when the question looks structured. Otherwise
      documents are tried, and so the boundary message is the answer, except that their guard may redirect back to
      structured data. */
  lemma DeniedLookAnswer(w: World, question: string, mode: Option<string>)
    requires ResolveMode(mode) == "query_data" && !(w.structuredQuestion(question) && !w.canQueryStructured)
    requires DeniedLook(w, question)
    ensures AfterDenial(w, question, AskWith(w, RealHandlers(w, true), question, mode))
  {
    hide Strip, Lower, MisrouteText, DeniedText, Tag, Says;
    var q, r := w.followUp(InSearch, question), AskWith(w, RealHandlers(w, true), question, mode);
    if !w.structuredQuestion(question) && r.answer.producer == Data {
      TagSays(r, Data, Strip(w.data(InGuard, q).answer), w.data(InGuard, q).sources);
    }
  }

  /** Asked of both: each half under its own heading, the document half being the retrieval's answer, or what its guard
      puts in its place; the sources are those of the document half. */
  lemma HybridAnswer(w: World, question: string, mode: Option<string>)
    requires ResolveMode(mode) == "query_hybrid"
    ensures var v, r := w.doc(InHybrid, question), AskWith(w, RealHandlers(w, true), question, mode);
            var guarded := v.empty && w.structuredQuestion(question) && !w.documentCue(question);
            var redirected := guarded && w.userId.Some? && w.canQueryStructured;
            var documents := if redirected then Strip(w.data(InGuard, question).answer)
                             else if guarded then MisrouteText(if w.userId.Some? then w.userId.value else "unknown")
                             else v.answer;
            && r.answer == Content(Mixed, "### From Documents:\n" + documents + "\n\n### From Data:\n" +
                                          w.data(InHybrid, question).answer)
            && r.agent == Hybrid && !r.lowConfidence && Direct(w, question, r, "query_hybrid")
            && r.sources ==
               if redirected then Tag(Data, w.data(InGuard, question).sources) else Tag(Documents, v.sources)
  {
    hide Strip, Lower, MisrouteText, BoundaryText, DeniedText, Tag;
  }

  /** Without the lock, a weak structured answer that was not denied is replaced by a document answer with sources, none
      of them a marker, that is not itself weak; the guard has no part in it. */
  lemma UnlockedAnswer(w: World, question: string)
    ensures var q, r := w.followUp(InData, question), RealHandlers(w, false).data(question);
            var v, d := w.data(InData, q), w.doc(InFallback, q);
            && r.agent == Structured
            && if v.lowConfidence && !v.denied && d.sources != [] && !w.hasMarkerSource(Tag(Documents, d.sources)) &&
                  !d.lowConfidence
               then Says(r, Documents, d.answer, d.sources) && !r.autofix && !r.lowConfidence
               else Says(r, Data, v.answer, v.sources) && r.lowConfidence == v.lowConfidence
  {
    hide Strip, MisrouteText;
  }

  // ---- what a question leaves behind -------------------------------------------------------------------------------

  /** Did the guard refuse while this question was answered? */
  predicate GuardRefused(w: World, h: Handlers, question: string, tool: string) {
    var caller := if tool == "query_hybrid" then InHybrid else InSearch;
    var asked := if tool == "query_hybrid" then question else w.followUp(InSearch, question);
    && (tool == "query_data" ==> Retried(w, h, question, tool))
    && Guarded(w, caller, asked, false) && (w.userId.None? || !w.canQueryStructured)
  }

  /** The audit trail of one question: a refusal alone when access is refused outright; otherwise the answer's record
      comes last and names the requested agent, after a refusal of the guard exactly when the guard refused. */
  lemma AskAudited(w: World, h: Handlers, question: string, mode: Option<string>)
    ensures var tool, r, a := ResolveMode(mode), AskWith(w, h, question, mode), AskRecords(w, h, question, mode);
            && (RefusedOutright(w, question, tool) <==> a == [Refused(question, "rbac_denied")])
            && (!RefusedOutright(w, question, tool) ==>
                  && |a| == (if GuardRefused(w, h, question, tool) then 2 else 1)
                  && a[|a| - 1] == Answered(question, r.routeTool, AgentOf(tool), r.lowConfidence)
                  && (|a| == 2 ==>
                        var asked := if tool == "query_hybrid" then question else w.followUp(InSearch, question);
                        a[0] == Refused(asked, "misrouted_no_access")))
  {
    hide RunTool, BoundaryText, DeniedText;
    AskKeepsMode(w, h, question, mode);
    var a := AskRecords(w, h, question, mode);
    assert a != [] && (a[|a| - 1].Refused? ==> a == [a[0]]);
  }

  /** In document mode the saved turn is the answer before enforcement: it holds nothing of the structured data exactly
      when the guard did not redirect, and then it is also what the caller got. */
  lemma DocumentTurnCleanIff(w: World, question: string, mode: Option<string>)
    requires ResolveMode(mode) == "search_documents"
    ensures var h, q := RealHandlers(w, true), w.followUp(InSearch, question);
            var t, r := AskTurns(w, h, question, mode), AskWith(w, h, question, mode);
            && |t| == 1 && t[0].0 == question
            && (OnlyFrom(t[0].1, Documents) <==> !Redirects(w, InSearch, q, false))
            && ((t[0].1.answer == r.answer && t[0].1.sources == r.sources) <==> !Redirects(w, InSearch, q, false))
  {
    hide BoundaryText, DeniedText, DocumentAgent, SearchDocuments, Redirects, Lower, Strip, QueryData, QueryHybrid;
    MarkerDecidesLabel(w, question);
  }

  /** How many turns a question leaves, and under what. */
  ghost predicate SavedUnder(w: World, question: string, tool: string, turns: seq<Turn>) {
    && |turns| == (if tool == "query_hybrid" then 0
                   else if tool == "query_data" && !w.structuredQuestion(question) && DeniedLook(w, question) then 2
                   else 1)
    && forall i | 0 <= i < |turns| :: turns[i].0 == question
  }

  /** The saved turns, all under the question itself: none in hybrid mode, one otherwise, and a second, the one document
      mode would save, when a denied look is retried on documents. */
  lemma TurnsAre(w: World, question: string, mode: Option<string>)
    ensures var turns := AskTurns(w, RealHandlers(w, true), question, mode);
            && SavedUnder(w, question, ResolveMode(mode), turns)
            && (|turns| == 2 ==> AskTurns(w, RealHandlers(w, true), question, None) == turns[1..])
  {
    hide Strip, Lower, ResolveMode, MisrouteText, BoundaryText, DeniedText, Tag, DocumentAgent, DocumentFallback,
      SearchDocuments, QueryHybrid;
    ModeNames();
  }

  /** The first turn of structured mode: the refusal, or the data run's own answer, whatever the caller is told. */
  lemma DataTurn(w: World, question: string, mode: Option<string>)
    requires ResolveMode(mode) == "query_data"
    ensures var v := w.data(InData, w.followUp(InData, question));
            var t := AskTurns(w, RealHandlers(w, true), question, mode);
            && t != []
            && if w.structuredQuestion(question) && !w.canQueryStructured
               then SaysAlone(t[0].1, DeniedText(if w.userId.Some? then w.userId.value else "public_001"))
               else Says(t[0].1, Data, v.answer, v.sources) && t[0].1.agent == Structured
  {
    hide Strip, Lower, ResolveMode, MisrouteText, BoundaryText, DeniedText, Tag, Says, DocumentAgent, DocumentFallback,
      SearchDocuments, QueryHybrid;
    var t, v := AskTurns(w, RealHandlers(w, true), question, mode), w.data(InData, w.followUp(InData, question));
    if !(w.structuredQuestion(question) && !w.canQueryStructured) {
      TagSays(t[0].1, Data, v.answer, v.sources);
    }
  }

  // ---- at inputs ---------------------------------------------------------------------------------------------------

  /** A question that looks structured, on which document retrieval finds nothing. */
  function MisroutedWorld(allowed: bool): World {
    World((c, q) => DocRun("", [], true, false), (c, q) => DataRun("42", ["row"], false, false), (c, q) => q,
          q => true, q => false, Some("analyst"), allowed, r => false, s => false, q => false, q => "search_documents")
  }

  /** Without structured access, one question leaves two audit records. */
  lemma TwoRecordsExample()
    ensures var w := MisroutedWorld(false);
            AskRecords(w, RealHandlers(w, true), "orders", None) ==
            [Refused("orders", "misrouted_no_access"), Answered("orders", "search_documents", Unstructured, false)]
  {
    hide Strip, Lower, MisrouteText, BoundaryText, DeniedText, ResolveMode;
    ModeNames();
  }

  /** With it, the saved turn of a document question holds structured data. */
  lemma ForeignTurnExample()
    ensures var w := MisroutedWorld(true);
            var t := AskTurns(w, RealHandlers(w, true), "orders", None);
            |t| == 1 && t[0].1.answer.producer == Data
  {
    hide Strip, Lower, MisrouteText, DeniedText, ResolveMode;
    ModeNames();
  }

  /** A weak structured answer, and a confident document. */
  function WeakWorld(): World {
    World((c, q) => DocRun("from a document", ["page"], false, false), (c, q) => DataRun("weak", [], false, true),
          (c, q) => q, q => true, q => false, Some("analyst"), true, r => false, s => false, q => false,
          q => "query_data")
  }

  /** Unlocked, a document answer is labelled as structured. */
  lemma UnlockedExample()
    ensures var r := QueryData(WeakWorld(), "orders", false); r.agent == Structured && r.answer.producer == Documents
  {
    hide MisrouteText, DeniedText, Strip;
    assert |Tag(Documents, ["page"])| == 1;
  }

  // ---- the code ----------------------------------------------------------------------------------------------------

  /** The state a request works on: the mode-lock context variable, the saved turns and the audit log. */
  class Router {
    var modeLocked: bool
    var turns: seq<Turn>
    var audit: seq<Audit>

    constructor ()
      ensures !modeLocked && turns == [] && audit == []
    {
      modeLocked, turns, audit := false, [], [];
    }

    /** The document agent with its guard, which records a refusal when it may not redirect. */
    method RunDocumentAgent(w: World, caller: Caller, question: string, skipGuard: bool) returns (d: DocReply)
      modifies this`audit
      ensures d == DocumentAgent(w, caller, question, skipGuard)
      ensures audit == old(audit) + GuardRecords(w, caller, question, skipGuard)
    {
      hide MisrouteText, Strip, Tag;
      var v := w.doc(caller, question);
      d := DocReply(Content(Documents, v.answer), Tag(Documents, v.sources), false, v.lowConfidence);
      if v.empty && !skipGuard && w.structuredQuestion(question) && !w.documentCue(question) {
        if w.userId.Some? && w.canQueryStructured {
          var fixed := w.data(InGuard, question);
          return DocReply(Content(Data, Strip(fixed.answer)), Tag(Data, fixed.sources), true, fixed.lowConfidence);
        }
        audit := audit + [Refused(question, "misrouted_no_access")];
        d := d.(answer := Content(System, MisrouteText(UserName(w))), lowConfidence := false);
      }
    }

    /** `search_documents`: reads the marker, labels the answer, saves the turn. */
    method SearchDocumentsHandler(w: World, question: string) returns (r: Result)
      modifies this`turns, this`audit
      ensures r == SearchDocuments(w, question)
      ensures r.agent == Structured <==> Redirects(w, InSearch, w.followUp(InSearch, question), false)
      ensures r.agent == Structured ==> OnlyFrom(r, Data)
      ensures r.agent != Structured ==> r.agent == Unstructured && OnlyFrom(r, Documents)
      ensures turns == old(turns) + [(question, r)]
      ensures audit == old(audit) + GuardRecords(w, InSearch, w.followUp(InSearch, question), false)
    {
      hide DocumentAgent, Redirects, GuardRecords, OnlyFrom;
      MarkerDecidesLabel(w, question);
      var d := RunDocumentAgent(w, InSearch, w.followUp(InSearch, question), false);
      var agent := if d.autofix then Structured else Unstructured;
      r := Result(d.answer, d.sources, agent, d.autofix, d.lowConfidence, "", "");
      turns := turns + [(question, r)];
    }

    method QueryDataHandler(w: World, question: string) returns (r: Result)
      modifies this`turns
      ensures r == QueryData(w, question, modeLocked) && turns == old(turns) + [(question, r)]
    {
      var q := w.followUp(InData, question);
      var v := w.data(InData, q);
      r := Result(Content(Data, v.answer), Tag(Data, v.sources), Structured, false, v.lowConfidence, "", "");
      if v.lowConfidence && !v.denied && !modeLocked {
        var fallback := DocumentFallback(w, q);
        if fallback.Some? {
          r := Result(fallback.value.answer, fallback.value.sources, Structured, false, false, "", "");
        }
      }
      turns := turns + [(question, r)];
    }

    method QueryHybridHandler(w: World, question: string) returns (r: Result)
      modifies this`audit
      ensures r == QueryHybrid(w, question)
      ensures audit == old(audit) + GuardRecords(w, InHybrid, question, false)
    {
      var d := RunDocumentAgent(w, InHybrid, question, false);
      var s := w.data(InHybrid, question);
      r := Result(Content(Mixed, "### From Documents:\n" + d.answer.text + "\n\n### From Data:\n" + s.answer),
                  d.sources, Hybrid, false, false, "", "");
    }

    method RunViaMcpTool(w: World, question: string, tool: string) returns (r: Result)
      modifies this`turns, this`audit
      ensures r == RunTool(w, RealHandlers(w, modeLocked), question, tool)
      ensures turns == old(turns) + RunTurns(w, RealHandlers(w, modeLocked), question, tool)
      ensures audit == old(audit) + RunRecords(w, RealHandlers(w, modeLocked), question, tool)
    {
      hide SearchDocuments, QueryData, QueryHybrid, OnlyFrom, GuardRecords, Redirects, DeniedText, DocumentAgent;
      if tool == "query_data" {
        r := QueryDataHandler(w, question);
      } else if tool == "query_hybrid" {
        r := QueryHybridHandler(w, question);
      } else {
        r := SearchDocumentsHandler(w, question);
      }
      var routeTool, routeMethod := tool, if w.fastRoute(question) then "fast" else "llm_mcp";
      if tool == "query_data" && w.looksDenied(r) {
        if w.structuredQuestion(question) {
          return AccessDenied(UserName(w));
        }
        r := SearchDocumentsHandler(w, question);
        routeTool, routeMethod := "search_documents", "fallback_structured_denied";
      } else if tool == "search_documents" && r.autofix {
        routeTool, routeMethod := "query_data", "misroute_autofix";
      }
      r := r.(routeTool := routeTool, routeMethod := routeMethod);
    }

    /** `ask`: locks the mode, then answers. A mode always forces a tool, so the document fallback of a denial, open
        only to unforced questions, is never taken. */
    method Ask(w: World, question: string, mode: Option<string>) returns (r: Result)
      modifies this
      ensures modeLocked
      ensures r == AskWith(w, RealHandlers(w, true), question, mode)
      ensures audit == old(audit) + AskRecords(w, RealHandlers(w, true), question, mode)
      ensures turns == old(turns) + AskTurns(w, RealHandlers(w, true), question, mode)
    {
      hide RunTool, RunTurns, RunRecords, RealHandlers, DeniedText, BoundaryText, Lower, Strip, DocumentFallback;
      var forced := ResolveMode(mode);
      modeLocked := true;
      var tool := ResolveTool(w, question, forced);
      if tool == "query_data" && w.structuredQuestion(question) && !w.canQueryStructured {
        audit := audit + [Refused(question, "rbac_denied")];
        r := AccessDenied(ContextUser(w));
        turns := turns + [(question, r)];
        return;
      }
      r := RunViaMcpTool(w, question, tool);
      r := EnforceMode(r, forced);
      audit := audit + [Answered(question, r.routeTool, r.agent, r.lowConfidence)];
    }
  }
}
