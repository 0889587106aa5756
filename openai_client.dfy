/**
 * The model call of server/src/openaiClient.ts: prompt assembly from the
 * session (`buildMessages`), the request settings, the aggregation of the
 * streamed reply with its fallback, and the deliverable-marker check. The
 * model itself is an oracle: its stream of events (or its failure) is a
 * parameter.
 */
module OpenAiClient {
  import opened Wrappers
  import opened Strings
  import opened Json
  import opened Types
  import opened SessionStore

  datatype MessageRole = SystemRole | UserRole | AssistantRole

  /** One entry of the `messages` array sent to the model. */
  datatype Message = Message(role: MessageRole, content: string)

  /**
   * What the call reads from its environment: whether OpenAI is configured
   * (env.ts), the vector store id, the system prompt text (prompt.ts) and
   * `JSON.stringify`, taken as an abstract serialisation of the memory.
   */
  datatype Config = Config(
    openaiEnabled: bool,
    vectorStoreId: string,
    systemPrompt: string,
    serialize: Object -> string)

  const SummaryHeader: string := "Résumé de session (mémoire compacte) :\n"
  const MemoryHeader: string := "Mémoire structurée (JSON) : "
  const DisabledNotice: string :=
    "L'API OpenAI est désactivée : vérifiez la configuration des variables OPENAI_API_KEY et VECTOR_STORE_ID."
  /** The marker whose presence flags the final deliverable. */
  const MarkdownMarker: string := "```markdown"

  function TurnMessage(t: Turn): Message {
    Message(if t.role == User then UserRole else AssistantRole, t.content)
  }

  function TurnMessages(turns: seq<Turn>): (r: seq<Message>)
    ensures |r| == |turns|
    ensures forall i :: 0 <= i < |turns| ==> r[i] == TurnMessage(turns[i])
  {
    if turns == [] then [] else TurnMessages(turns[..|turns| - 1]) + [TurnMessage(turns[|turns| - 1])]
  }

  /** The system messages put before the ledger: the prompt, then the summary and the memory when present. */
  function HeaderMessages(cfg: Config, s: Session): (r: seq<Message>)
    ensures 1 <= |r| <= 3 && r[0] == Message(SystemRole, cfg.systemPrompt)
    ensures forall k :: 0 <= k < |r| ==> r[k].role == SystemRole
  {
    [Message(SystemRole, cfg.systemPrompt)]
    + (if s.summary != "" then [Message(SystemRole, SummaryHeader + s.summary)] else [])
    + (if |s.memory| > 0 then [Message(SystemRole, MemoryHeader + cfg.serialize(s.memory))] else [])
  }

  /** The context `buildMessages` sends for session `s` and a new user message. */
  function ContextMessages(cfg: Config, s: Session, userMessage: string): seq<Message> {
    HeaderMessages(cfg, s) + TurnMessages(s.recentTurns) + [Message(UserRole, userMessage)]
  }

  /**
   * The context starts with the system prompt and ends with the user message;
   * the summary message is there exactly when the summary is non-empty, the
   * memory message exactly when the memory has a key; the ledger follows them
   * in order, and no later message is a system message.
   */
  lemma ContextMessagesShape(cfg: Config, s: Session, userMessage: string)
    ensures var ms := ContextMessages(cfg, s, userMessage);
      var h := |HeaderMessages(cfg, s)|;
      && h == 1 + (if s.summary != "" then 1 else 0) + (if |s.memory| > 0 then 1 else 0)
      && |ms| == h + |s.recentTurns| + 1
      && ms[0] == Message(SystemRole, cfg.systemPrompt)
      && ms[|ms| - 1] == Message(UserRole, userMessage)
      && (forall i :: 0 <= i < h ==> ms[i].role == SystemRole)
      && (forall i :: h <= i < |ms| ==> ms[i].role != SystemRole)
      && (s.summary != "" ==> ms[1] == Message(SystemRole, SummaryHeader + s.summary))
      && (|s.memory| > 0 ==> ms[h - 1] == Message(SystemRole, MemoryHeader + cfg.serialize(s.memory)))
      && (forall i :: 0 <= i < |s.recentTurns| ==> ms[h + i] == TurnMessage(s.recentTurns[i]))
  {
    var hs := HeaderMessages(cfg, s);
    var ts := TurnMessages(s.recentTurns);
    var ms := ContextMessages(cfg, s, userMessage);
    assert ms == hs + ts + [Message(UserRole, userMessage)];
    forall i | 0 <= i < |s.recentTurns| ensures ms[|hs| + i] == TurnMessage(s.recentTurns[i]) {
      assert ms[|hs| + i] == ts[i];
    }
    forall i | |hs| <= i < |ms| ensures ms[i].role != SystemRole {
      if i < |hs| + |ts| {
        assert ms[i] == ts[i - |hs|];
      }
    }
  }

  /** The loop of `buildMessages` that pushes each message in turn. */
  method AssembleMessages(cfg: Config, s: Session, userMessage: string) returns (messages: seq<Message>)
    ensures messages == ContextMessages(cfg, s, userMessage)
  {
    messages := [Message(SystemRole, cfg.systemPrompt)];
    if s.summary != "" {
      messages := messages + [Message(SystemRole, SummaryHeader + s.summary)];
    }
    if |s.memory| > 0 {
      messages := messages + [Message(SystemRole, MemoryHeader + cfg.serialize(s.memory))];
    }
    ghost var header := messages;
    var i := 0;
    while i < |s.recentTurns|
      invariant 0 <= i <= |s.recentTurns|
      invariant messages == header + TurnMessages(s.recentTurns[..i])
    {
      assert s.recentTurns[..i + 1][..i] == s.recentTurns[..i];
      messages := messages + [TurnMessage(s.recentTurns[i])];
      i := i + 1;
    }
    assert s.recentTurns[..i] == s.recentTurns;
    messages := messages + [Message(UserRole, userMessage)];
  }

  /**
   * `buildMessages(session, userMessage)`: the context is built from the
   * session as it was, and only then is the user turn appended to the ledger,
   * so the context never holds the current message twice.
   */
  method BuildMessages(store: Store, id: string, cfg: Config, userMessage: string) returns (messages: seq<Message>)
    requires store.Valid() && id in store.sessions
    modifies store
    ensures store.Valid()
    ensures messages == ContextMessages(cfg, old(store.sessions)[id], userMessage)
    ensures store.sessions == old(store.sessions)[id := AppendedTurn(old(store.sessions)[id], User, userMessage)]
  {
    messages := AssembleMessages(cfg, store.sessions[id], userMessage);
    store.AppendTurn(id, User, userMessage);
  }

  /** The request `callOpenAi` sends. */
  datatype Request = Request(
    model: string,
    reasoningEffort: string,
    stream: bool,
    parallelToolCalls: bool,
    toolChoice: string,
    messages: seq<Message>,
    tools: seq<string>,
    vectorStoreIds: seq<string>,
    verbosity: Option<string>,
    maxOutputTokens: Option<nat>)

  /**
   * The settings of every request: `gpt-5-mini`, streaming, the vector store
   * when one is configured; a final-override call asks for high verbosity and
   * at most 20000 output tokens, any other call sets neither.
   */
  predicate RequestSettings(req: Request, vectorStoreId: string, finalOverride: bool) {
    && req.model == "gpt-5-mini" && req.stream
    && req.vectorStoreIds == (if vectorStoreId != "" then [vectorStoreId] else [])
    && (finalOverride ==> req.verbosity == Some("high") && req.maxOutputTokens == Some(20000))
    && (!finalOverride ==> req.verbosity.None? && req.maxOutputTokens.None?)
  }

  /** The request for `messages`, with the settings `RequestSettings` states. */
  method BuildRequest(messages: seq<Message>, vectorStoreId: string, finalOverride: bool) returns (req: Request)
    ensures req.messages == messages && req.model == "gpt-5-mini" && req.stream
    ensures req.vectorStoreIds == if vectorStoreId != "" then [vectorStoreId] else []
    ensures finalOverride ==> req.verbosity == Some("high") && req.maxOutputTokens == Some(20000)
    ensures !finalOverride ==> req.verbosity.None? && req.maxOutputTokens.None?
    ensures RequestSettings(req, vectorStoreId, finalOverride)
  {
    req := Request("gpt-5-mini", "high", true, true, "auto", messages, ["file_search", "web_search"],
                   if vectorStoreId != "" then [vectorStoreId] else [], None, None);
    if finalOverride {
      req := req.(verbosity := Some("high"), maxOutputTokens := Some(20000));
    }
  }

  /** An event of the model's stream; only text deltas carry reply text. */
  datatype StreamEvent = OutputTextDelta(delta: string) | OtherEvent

  /** What `finalResponse()` exposes: the optional `output_text` array. */
  datatype FinalResponse = FinalResponse(outputText: Option<seq<string>>)

  /** The oracle's answer: a stream and its final response, or a thrown error. */
  datatype Reply = Streamed(events: seq<StreamEvent>, final: FinalResponse) | Failed

  /** `parts.join('')`. */
  function Concat(parts: seq<string>): string {
    if parts == [] then "" else Concat(parts[..|parts| - 1]) + parts[|parts| - 1]
  }

  /** The delta payloads of the text-delta events, in arrival order. */
  function TextDeltas(events: seq<StreamEvent>): seq<string> {
    if events == [] then []
    else
      var last := events[|events| - 1];
      TextDeltas(events[..|events| - 1]) + (if last.OutputTextDelta? then [last.delta] else [])
  }

  lemma {:induction false} ConcatAppend(a: seq<string>, b: seq<string>)
    decreases |b|
    ensures Concat(a + b) == Concat(a) + Concat(b)
  {
    if b != [] {
      var n := |b| - 1;
      assert (a + b)[..|a + b| - 1] == a + b[..n];
      assert (a + b)[|a + b| - 1] == b[n];
      ConcatAppend(a, b[..n]);
      calc {
        Concat(a + b);
        Concat(a + b[..n]) + b[n];
        Concat(a) + Concat(b[..n]) + b[n];
        Concat(a) + (Concat(b[..n]) + b[n]);
        Concat(a) + Concat(b);
      }
    } else {
      assert a + b == a;
    }
  }

  lemma {:induction false} TextDeltasAppend(a: seq<StreamEvent>, b: seq<StreamEvent>)
    decreases |b|
    ensures TextDeltas(a + b) == TextDeltas(a) + TextDeltas(b)
  {
    if b != [] {
      var n := |b| - 1;
      assert (a + b)[..|a + b| - 1] == a + b[..n];
      assert (a + b)[|a + b| - 1] == b[n];
      TextDeltasAppend(a, b[..n]);
      var tail := if b[n].OutputTextDelta? then [b[n].delta] else [];
      calc {
        TextDeltas(a + b);
        TextDeltas(a + b[..n]) + tail;
        TextDeltas(a) + TextDeltas(b[..n]) + tail;
        TextDeltas(a) + (TextDeltas(b[..n]) + tail);
        TextDeltas(a) + TextDeltas(b);
      }
    } else {
      assert a + b == a;
    }
  }

  /** Every part is the empty string. */
  predicate AllEmpty(parts: seq<string>) {
    forall i :: 0 <= i < |parts| ==> parts[i] == ""
  }

  /** A concatenation is empty exactly when every part is. */
  lemma {:induction false} ConcatEmptyIff(parts: seq<string>)
    ensures Concat(parts) == "" <==> AllEmpty(parts)
  {
    if parts != [] {
      var n := |parts| - 1;
      var init := parts[..n];
      ConcatEmptyIff(init);
      assert Concat(parts) == Concat(init) + parts[n];
      assert AllEmpty(parts) <==> AllEmpty(init) && parts[n] == "";
    }
  }

  /** The fallback fires when streaming produced no text and `output_text` is a non-empty array. */
  predicate FallbackApplies(events: seq<StreamEvent>, final: FinalResponse) {
    Concat(TextDeltas(events)) == "" && final.outputText.Some? && |final.outputText.value| > 0
  }

  /** The reply text `callOpenAi` returns for a completed stream. */
  function AggregatedText(events: seq<StreamEvent>, final: FinalResponse): string {
    if FallbackApplies(events, final) then Concat(final.outputText.value) else Concat(TextDeltas(events))
  }

  /**
   * The streamed text of two consecutive runs of events is the text of the
   * first followed by the text of the second: deltas are kept in arrival order.
   */
  lemma StreamTextInArrivalOrder(a: seq<StreamEvent>, b: seq<StreamEvent>)
    ensures Concat(TextDeltas(a + b)) == Concat(TextDeltas(a)) + Concat(TextDeltas(b))
  {
    TextDeltasAppend(a, b);
    ConcatAppend(TextDeltas(a), TextDeltas(b));
  }

  /**
   * The fallback replaces the streamed text exactly when no text delta carried
   * a character and the final response has a non-empty `output_text`.
   */
  lemma FallbackIff(events: seq<StreamEvent>, final: FinalResponse)
    ensures FallbackApplies(events, final) <==>
      AllEmpty(TextDeltas(events)) && final.outputText.Some? && |final.outputText.value| > 0
    ensures !FallbackApplies(events, final) ==> AggregatedText(events, final) == Concat(TextDeltas(events))
    ensures FallbackApplies(events, final) ==> AggregatedText(events, final) == Concat(final.outputText.value)
  {
    ConcatEmptyIff(TextDeltas(events));
  }

  /** The event callback and the fallback of `callOpenAi`. */
  method Aggregate(events: seq<StreamEvent>, final: FinalResponse) returns (aggregated: string)
    ensures aggregated == AggregatedText(events, final)
  {
    aggregated := "";
    var i := 0;
    while i < |events|
      invariant 0 <= i <= |events|
      invariant aggregated == Concat(TextDeltas(events[..i]))
    {
      var e := events[i];
      assert events[..i + 1][..i] == events[..i];
      ghost var ds := TextDeltas(events[..i]);
      if e.OutputTextDelta? {
        assert TextDeltas(events[..i + 1]) == ds + [e.delta];
        assert (ds + [e.delta])[..|ds|] == ds;
        assert Concat(ds + [e.delta]) == Concat(ds) + e.delta;
      } else {
        assert TextDeltas(events[..i + 1]) == ds;
      }
      if e.OutputTextDelta? {
        aggregated := aggregated + e.delta;
      }
      i := i + 1;
    }
    assert events[..i] == events;
    if aggregated == "" && final.outputText.Some? && |final.outputText.value| > 0 {
      aggregated := Concat(final.outputText.value);
    }
  }

  /** The result of a completed call. */
  datatype CallResult = CallResult(content: string, finalMarkdownPresent: bool)

  /** How the call ends: with a result (and the request sent, if any), or by throwing. */
  datatype CallOutcome = Returned(result: CallResult, sent: Option<Request>) | Threw(attempted: Request)

  /** The session after the call: the turns it appends, and nothing else. */
  function SessionAfterCall(s: Session, cfg: Config, userMessage: string, reply: Reply): Session {
    if !cfg.openaiEnabled then AppendedTurn(s, Assistant, DisabledNotice)
    else
      var afterUser := AppendedTurn(s, User, userMessage);
      if reply.Failed? then afterUser
      else AppendedTurn(afterUser, Assistant, AggregatedText(reply.events, reply.final))
  }

  /** The call touches only the ledger and the summary. */
  lemma CallKeepsSession(s: Session, cfg: Config, userMessage: string, reply: Reply)
    ensures var r := SessionAfterCall(s, cfg, userMessage, reply);
      && r == s.(recentTurns := r.recentTurns, summary := r.summary)
      && (SessionValid(s) ==> SessionValid(r))
  {
  }

  /**
   * An enabled call that returns leaves the ledger as the last five of the old
   * ledger, the user turn and the assistant turn with the returned text; a
   * disabled call appends only the notice; a failed call only the user turn.
   * Phase, memory, id and version never change.
   */
  lemma CallLedger(s: Session, cfg: Config, userMessage: string, reply: Reply)
    requires SessionValid(s)
    ensures var r := SessionAfterCall(s, cfg, userMessage, reply);
      && SessionValid(r)
      && r.phase == s.phase && r.memory == s.memory && r.id == s.id && r.promptVersion == s.promptVersion
      && (!cfg.openaiEnabled ==>
            r.recentTurns == LastN(s.recentTurns + [Turn(Assistant, DisabledNotice)], MaxRecentTurns))
      && (cfg.openaiEnabled && reply.Failed? ==>
            r.recentTurns == LastN(s.recentTurns + [Turn(User, userMessage)], MaxRecentTurns))
      && (cfg.openaiEnabled && reply.Streamed? ==>
            r.recentTurns == LastN(s.recentTurns + [Turn(User, userMessage),
                                   Turn(Assistant, AggregatedText(reply.events, reply.final))], MaxRecentTurns))
  {
    if cfg.openaiEnabled && reply.Streamed? {
      var u := Turn(User, userMessage);
      var a := Turn(Assistant, AggregatedText(reply.events, reply.final));
      var once := LedgerPush(s.recentTurns, u);
      assert once == LastN(s.recentTurns + [u], MaxRecentTurns);
      LastNOfLastN(s.recentTurns + [u], [a], MaxRecentTurns);
      assert s.recentTurns + [u] + [a] == s.recentTurns + [u, a];
    }
  }

  /** `callOpenAi({session, userMessage, finalOverride})` on the session stored under `id`. */
  method CallOpenAi(store: Store, id: string, cfg: Config, userMessage: string, finalOverride: bool, reply: Reply)
    returns (outcome: CallOutcome)
    requires store.Valid() && id in store.sessions
    modifies store
    ensures store.Valid()
    ensures store.sessions == old(store.sessions)[id := SessionAfterCall(old(store.sessions)[id], cfg, userMessage, reply)]
    ensures !cfg.openaiEnabled ==> outcome == Returned(CallResult(DisabledNotice, false), None)
    ensures cfg.openaiEnabled ==>
      var req := if outcome.Returned? then outcome.sent else Some(outcome.attempted);
      && req.Some?
      && req.value.messages == ContextMessages(cfg, old(store.sessions)[id], userMessage)
      && RequestSettings(req.value, cfg.vectorStoreId, finalOverride)
    ensures cfg.openaiEnabled ==> (outcome.Threw? <==> reply.Failed?)
    ensures cfg.openaiEnabled && reply.Streamed? ==>
      var content := AggregatedText(reply.events, reply.final);
      outcome.Returned? && outcome.result == CallResult(content, Includes(content, MarkdownMarker))
  {
    if !cfg.openaiEnabled {
      store.AppendTurn(id, Assistant, DisabledNotice);
      return Returned(CallResult(DisabledNotice, false), None);
    }
    var messages := BuildMessages(store, id, cfg, userMessage);
    var request := BuildRequest(messages, cfg.vectorStoreId, finalOverride);
    if reply.Failed? {
      return Threw(request);
    }
    var aggregated := Aggregate(reply.events, reply.final);
    store.AppendTurn(id, Assistant, aggregated);
    outcome := Returned(CallResult(aggregated, Includes(aggregated, MarkdownMarker)), Some(request));
  }
}
