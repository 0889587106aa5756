/**
 * The request handlers of server/src/index.ts as a state machine over the
 * session registry: the configuration guard (503), the request schema (400),
 * the session lookup (404) and the version check (409), then memory merge,
 * phase hint, model call and phase inference from the reply.
 */
module Server {
  import opened Wrappers
  import opened Strings
  import opened Json
  import opened Types
  import opened SessionStore
  import opened OpenAiClient

  /**
   * `detectPhase(markdown)`: a case-insensitive scan for phase markers, in
   * the priority order final, sections, plan, collecte.
   */
  function DetectPhase(markdown: string): Option<Phase> {
    var normalized := AsciiLower(markdown);
    if Includes(normalized, "phase finale") || Includes(normalized, "phase final") then Some(Final)
    else if Includes(normalized, "phase sections") || Includes(normalized, "phase section") then Some(Sections)
    else if Includes(normalized, "phase plan") then Some(Plan)
    else if Includes(normalized, "phase collecte") then Some(Collecte)
    else None
  }

  /**
   * `final` is inferred exactly when the lower-cased text contains
   * `phase final` (which covers `phase finale`), whatever else it mentions;
   * otherwise `sections` exactly when it contains `phase section`; then `plan`,
   * then `collecte`; with no marker nothing is inferred.
   */
  lemma DetectPhasePriority(markdown: string)
    ensures var n := AsciiLower(markdown);
      var fin, sec := Includes(n, "phase final"), Includes(n, "phase section");
      var pla, col := Includes(n, "phase plan"), Includes(n, "phase collecte");
      && (DetectPhase(markdown) == Some(Final) <==> fin)
      && (DetectPhase(markdown) == Some(Sections) <==> !fin && sec)
      && (DetectPhase(markdown) == Some(Plan) <==> !fin && !sec && pla)
      && (DetectPhase(markdown) == Some(Collecte) <==> !fin && !sec && !pla && col)
      && (DetectPhase(markdown).None? <==> !fin && !sec && !pla && !col)
  {
    var n := AsciiLower(markdown);
    if Includes(n, "phase finale") {
      IncludesPrefix(n, "phase finale", "phase final");
    }
    if Includes(n, "phase sections") {
      IncludesPrefix(n, "phase sections", "phase section");
    }
  }

  /** The literal marker matches whatever the case of the reply text. */
  lemma DetectPhaseIgnoresCase(a: string, b: string)
    requires AsciiLower(a) == AsciiLower(b)
    ensures DetectPhase(a) == DetectPhase(b)
  {
  }

  /** The fields of a start request that pass `startSchema`. */
  datatype StartBody = StartBody(
    promptVersion: string,
    userMessage: string,
    memoryDelta: Option<Json>,
    phaseHint: Option<Phase>)

  /** `z.enum(['collecte', 'plan', 'sections', 'final'])`. */
  function ParsePhase(v: Json): (r: Option<Phase>)
    ensures r.Some? <==> v in {JStr("collecte"), JStr("plan"), JStr("sections"), JStr("final")}
    ensures r.Some? ==> v == JStr(PhaseName(r.value))
  {
    match v
    case JStr(s) =>
      if s == "collecte" then Some(Collecte)
      else if s == "plan" then Some(Plan)
      else if s == "sections" then Some(Sections)
      else if s == "final" then Some(Final)
      else None
    case _ => None
  }

  /** Every phase name parses back to its phase. */
  lemma ParsePhaseName(p: Phase)
    ensures ParsePhase(JStr(PhaseName(p))) == Some(p)
  {
  }

  predicate HasString(m: Object, key: string, minLength: nat) {
    key in m && m[key].JStr? && |m[key].s| >= minLength
  }

  function OptionalField(m: Object, key: string): Option<Json> {
    if key in m then Some(m[key]) else None
  }

  /**
   * `startSchema.parse(body)`: an object with a string `promptVersion`, a
   * non-empty string `userMessage`, any `memoryDelta`, and a `phaseHint` that,
   * when present, is one of the four phases. `None` is a schema violation.
   */
  function ParseStart(body: Json): (r: Option<StartBody>)
    ensures r.Some? <==>
      body.JObj? && HasString(body.fields, "promptVersion", 0) && HasString(body.fields, "userMessage", 1)
      && ("phaseHint" in body.fields ==> ParsePhase(body.fields["phaseHint"]).Some?)
    ensures r.Some? ==> r.value.promptVersion == body.fields["promptVersion"].s
    ensures r.Some? ==> r.value.userMessage == body.fields["userMessage"].s && |r.value.userMessage| >= 1
    ensures r.Some? ==> r.value.memoryDelta == OptionalField(body.fields, "memoryDelta")
    ensures r.Some? ==>
      r.value.phaseHint == (if "phaseHint" in body.fields then ParsePhase(body.fields["phaseHint"]) else None)
    ensures r.Some? && r.value.phaseHint.None? ==> "phaseHint" !in body.fields
  {
    if !body.JObj? then None
    else
      var m := body.fields;
      if !HasString(m, "promptVersion", 0) || !HasString(m, "userMessage", 1) then None
      else if "phaseHint" in m && ParsePhase(m["phaseHint"]).None? then None
      else
        Some(StartBody(m["promptVersion"].s, m["userMessage"].s, OptionalField(m, "memoryDelta"),
                       if "phaseHint" in m then ParsePhase(m["phaseHint"]) else None))
  }

  /** `continueSchema.parse(body)`: the start schema plus a `sessionId` of at least 8 characters. */
  function ParseContinue(body: Json): (r: Option<(string, StartBody)>)
    ensures r.Some? <==> ParseStart(body).Some? && HasString(body.fields, "sessionId", 8)
    ensures r.Some? ==> r.value.0 == body.fields["sessionId"].s && |r.value.0| >= 8
    ensures r.Some? ==> r.value.1 == ParseStart(body).value
  {
    match ParseStart(body)
    case None => None
    case Some(b) => if HasString(body.fields, "sessionId", 8) then Some((body.fields["sessionId"].s, b)) else None
  }

  /** The errors `handleError` maps to a status. */
  datatype ServerError = EnvMissing | SchemaInvalid | Internal

  datatype HttpResponse = Ok(envelope: Envelope) | ErrorResponse(status: nat, message: string)

  /** `handleError`: missing configuration is 503, a schema violation 400, anything else 500. */
  function HandleError(e: ServerError): (r: HttpResponse)
    ensures r.ErrorResponse?
    ensures r.status == 503 <==> e == EnvMissing
    ensures r.status == 400 <==> e == SchemaInvalid
    ensures r.status == 500 <==> e == Internal
  {
    match e
    case EnvMissing => ErrorResponse(503, "Configuration manquante : définissez OPENAI_API_KEY et VECTOR_STORE_ID.")
    case SchemaInvalid => ErrorResponse(400, "Requête invalide")
    case Internal => ErrorResponse(500, "Erreur interne du serveur")
  }

  const StartVersionMismatch: HttpResponse := ErrorResponse(409, "Version du prompt incompatible. Lancez /start à nouveau.")
  const UnknownSession: HttpResponse := ErrorResponse(404, "Session inconnue. Relancez /start.")
  const StaleVersion: HttpResponse := ErrorResponse(409, "Version du prompt obsolète. Démarrez une nouvelle session.")

  /** The phase a start or continue turn ends in: the inferred one, or the one the hint left. */
  function PhaseAfterReply(content: string, current: Phase): Phase {
    if DetectPhase(content).Some? then DetectPhase(content).value else current
  }

  /** A continue or final request whose memory delta can be merged into its session. */
  predicate ContinueDeltaFits(sessions: map<string, Session>, body: Json) {
    match ParseContinue(body)
    case None => true
    case Some((id, b)) => id in sessions ==> DeltaFits(sessions[id].memory, b.memoryDelta)
  }

  /** The session after the merge and hint steps that precede the model call. */
  function Prepared(s: Session, b: StartBody, phase: Option<Phase>): (r: Session)
    requires DeltaFits(s.memory, b.memoryDelta)
    ensures r.phase == if phase.Some? then phase.value else s.phase
    ensures r == s.(memory := r.memory, phase := r.phase)
  {
    WithPhase(WithMemory(s, b.memoryDelta), phase)
  }

  /**
   * The steps of a start or continue turn once every check passed: merge the
   * delta, apply the hint, call the model, then keep the inferred phase (or
   * the hinted one). Gives the new session and the response.
   */
  function AnsweredTurn(s: Session, b: StartBody, cfg: Config, reply: Reply): (Session, HttpResponse)
    requires cfg.openaiEnabled && DeltaFits(s.memory, b.memoryDelta)
  {
    var prepared := Prepared(s, b, b.phaseHint);
    var called := SessionAfterCall(prepared, cfg, b.userMessage, reply);
    if reply.Failed? then (called, HandleError(Internal))
    else
      var content := AggregatedText(reply.events, reply.final);
      var phase := PhaseAfterReply(content, prepared.phase);
      (called.(phase := phase),
       Ok(Envelope(s.id, s.promptVersion, phase, content, prepared.memory, Includes(content, MarkdownMarker), "ask_user")))
  }

  /** The steps of a final turn once every check passed: the session is put in `final` around the call. */
  function AnsweredFinal(s: Session, b: StartBody, cfg: Config, reply: Reply): (Session, HttpResponse)
    requires cfg.openaiEnabled && DeltaFits(s.memory, b.memoryDelta)
  {
    var prepared := Prepared(s, b, Some(Final));
    var called := SessionAfterCall(prepared, cfg, b.userMessage, reply);
    if reply.Failed? then (called, HandleError(Internal))
    else
      var content := AggregatedText(reply.events, reply.final);
      (called.(phase := Final),
       Ok(Envelope(s.id, s.promptVersion, Final, content, prepared.memory, Includes(content, MarkdownMarker),
                   "persist_and_render")))
  }

  /**
   * A start or continue turn ends in the phase inferred from the reply, or in
   * the phase the hint left when the reply names none; the envelope carries
   * that same phase, the session's memory and `ask_user`. A failed model call
   * answers 500 and keeps the hinted phase.
   */
  lemma AnsweredTurnPhase(s: Session, b: StartBody, cfg: Config, reply: Reply)
    requires cfg.openaiEnabled && DeltaFits(s.memory, b.memoryDelta)
    ensures var (after, resp) := AnsweredTurn(s, b, cfg, reply);
      var hinted := if b.phaseHint.Some? then b.phaseHint.value else s.phase;
      && after.id == s.id && after.promptVersion == s.promptVersion
      && after.memory == WithMemory(s, b.memoryDelta).memory
      && (reply.Failed? ==> resp == HandleError(Internal) && after.phase == hinted)
      && (reply.Streamed? ==>
            var detected := DetectPhase(AggregatedText(reply.events, reply.final));
            && resp.Ok?
            && resp.envelope.phase == after.phase
            && resp.envelope.memorySnapshot == after.memory
            && resp.envelope.sessionId == s.id
            && resp.envelope.nextAction == "ask_user"
            && after.phase == (if detected.Some? then detected.value else hinted))
  {
    CallKeepsSession(Prepared(s, b, b.phaseHint), cfg, b.userMessage, reply);
  }

  /** A final turn always leaves the session in `final` and answers `final` and `persist_and_render`, whatever the hint or reply. */
  lemma AnsweredFinalPhase(s: Session, b: StartBody, cfg: Config, reply: Reply)
    requires cfg.openaiEnabled && DeltaFits(s.memory, b.memoryDelta)
    ensures var (after, resp) := AnsweredFinal(s, b, cfg, reply);
      && after.phase == Final
      && after.memory == WithMemory(s, b.memoryDelta).memory
      && (reply.Failed? ==> resp == HandleError(Internal))
      && (reply.Streamed? ==>
            && resp.Ok? && resp.envelope.phase == Final && resp.envelope.nextAction == "persist_and_render"
            && resp.envelope.finalMarkdownPresent == Includes(resp.envelope.assistantMarkdown, MarkdownMarker))
  {
    CallKeepsSession(Prepared(s, b, Some(Final)), cfg, b.userMessage, reply);
  }

  /**
   * The request a turn sends to the model: the context built from the session
   * after the merge and the hint, with the settings of a final-override call
   * exactly when `finalOverride` holds.
   */
  predicate TurnRequest(sent: Option<Request>, cfg: Config, s: Session, b: StartBody, phase: Option<Phase>, finalOverride: bool) {
    && DeltaFits(s.memory, b.memoryDelta)
    && sent.Some?
    && sent.value.messages == ContextMessages(cfg, Prepared(s, b, phase), b.userMessage)
    && RequestSettings(sent.value, cfg.vectorStoreId, finalOverride)
  }

  /** Writing a key twice keeps only the second value. */
  lemma MapUpdateTwice<K, V>(m: map<K, V>, k: K, a: V, b: V)
    ensures m[k := a][k := b] == m[k := b]
  {
  }

  /** Runs the steps of `AnsweredTurn` on the stored session. */
  method AnswerTurn(store: Store, id: string, cfg: Config, b: StartBody, reply: Reply)
    returns (resp: HttpResponse, sent: Option<Request>)
    requires store.Valid() && id in store.sessions
    requires cfg.openaiEnabled && DeltaFits(store.sessions[id].memory, b.memoryDelta)
    modifies store
    ensures store.Valid()
    ensures var (after, r) := AnsweredTurn(old(store.sessions)[id], b, cfg, reply);
      store.sessions == old(store.sessions)[id := after] && resp == r
    ensures TurnRequest(sent, cfg, old(store.sessions)[id], b, b.phaseHint, false)
  {
    ghost var s := store.sessions[id];
    ghost var m0 := store.sessions;
    store.MergeMemory(id, b.memoryDelta);
    store.UpdatePhase(id, b.phaseHint);
    ghost var prepared := store.sessions[id];
    assert prepared == Prepared(s, b, b.phaseHint);
    MapUpdateTwice(m0, id, WithMemory(s, b.memoryDelta), prepared);
    var outcome := CallOpenAi(store, id, cfg, b.userMessage, false, reply);
    sent := if outcome.Returned? then outcome.sent else Some(outcome.attempted);
    ghost var called := SessionAfterCall(prepared, cfg, b.userMessage, reply);
    MapUpdateTwice(m0, id, prepared, called);
    assert store.sessions == m0[id := called];
    CallKeepsSession(prepared, cfg, b.userMessage, reply);
    if outcome.Threw? {
      return HandleError(Internal), sent;
    }
    var result := outcome.result;
    var detected := DetectPhase(result.content);
    var phase := if detected.Some? then detected.value else store.sessions[id].phase;
    store.UpdatePhase(id, Some(phase));
    MapUpdateTwice(m0, id, called, called.(phase := phase));
    assert store.sessions == m0[id := called.(phase := phase)];
    resp := Ok(Envelope(id, store.sessions[id].promptVersion, phase, result.content, store.sessions[id].memory,
                        result.finalMarkdownPresent, "ask_user"));
  }

  /** Runs the steps of `AnsweredFinal` on the stored session. */
  method AnswerFinal(store: Store, id: string, cfg: Config, b: StartBody, reply: Reply)
    returns (resp: HttpResponse, sent: Option<Request>)
    requires store.Valid() && id in store.sessions
    requires cfg.openaiEnabled && DeltaFits(store.sessions[id].memory, b.memoryDelta)
    modifies store
    ensures store.Valid()
    ensures var (after, r) := AnsweredFinal(old(store.sessions)[id], b, cfg, reply);
      store.sessions == old(store.sessions)[id := after] && resp == r
    ensures TurnRequest(sent, cfg, old(store.sessions)[id], b, Some(Final), true)
  {
    ghost var s := store.sessions[id];
    ghost var m0 := store.sessions;
    store.MergeMemory(id, b.memoryDelta);
    store.UpdatePhase(id, Some(Final));
    ghost var prepared := store.sessions[id];
    assert prepared == Prepared(s, b, Some(Final));
    MapUpdateTwice(m0, id, WithMemory(s, b.memoryDelta), prepared);
    var outcome := CallOpenAi(store, id, cfg, b.userMessage, true, reply);
    sent := if outcome.Returned? then outcome.sent else Some(outcome.attempted);
    ghost var called := SessionAfterCall(prepared, cfg, b.userMessage, reply);
    MapUpdateTwice(m0, id, prepared, called);
    assert store.sessions == m0[id := called];
    CallKeepsSession(prepared, cfg, b.userMessage, reply);
    if outcome.Threw? {
      return HandleError(Internal), sent;
    }
    store.UpdatePhase(id, Some(Final));
    MapUpdateTwice(m0, id, called, called.(phase := Final));
    assert store.sessions == m0[id := called.(phase := Final)];
    var result := outcome.result;
    resp := Ok(Envelope(id, store.sessions[id].promptVersion, Final, result.content, store.sessions[id].memory,
                        result.finalMarkdownPresent, "persist_and_render"));
  }

  /** A fresh session takes any delta. */
  lemma MergeIntoEmptyFits(s: Session, delta: Option<Json>)
    requires s.memory == map[]
    ensures DeltaFits(s.memory, delta)
  {
    if delta.Some? && Truthy(delta.value) {
      MergeableIntoEmpty(SourceView(delta.value));
    }
  }

  /**
   * `POST /api/start`; `freshId` is the id `createSession` draws. Every
   * refusal happens before a session is created.
   */
  method Start(store: Store, cfg: Config, body: Json, freshId: string, reply: Reply)
    returns (resp: HttpResponse, sent: Option<Request>)
    requires store.Valid() && freshId !in store.sessions
    modifies store
    ensures store.Valid()
    ensures !cfg.openaiEnabled ==> resp == HandleError(EnvMissing) && store.sessions == old(store.sessions)
    ensures cfg.openaiEnabled && ParseStart(body).None? ==>
      resp == HandleError(SchemaInvalid) && store.sessions == old(store.sessions)
    ensures cfg.openaiEnabled && ParseStart(body).Some? && ParseStart(body).value.promptVersion != PromptVersion ==>
      resp == StartVersionMismatch && store.sessions == old(store.sessions)
    ensures cfg.openaiEnabled && ParseStart(body).Some? && ParseStart(body).value.promptVersion == PromptVersion ==>
      var b := ParseStart(body).value;
      var s := NewSession(freshId, Collecte, b.promptVersion);
      && DeltaFits(s.memory, b.memoryDelta)
      && TurnRequest(sent, cfg, s, b, b.phaseHint, false)
      && var (after, r) := AnsweredTurn(s, b, cfg, reply);
      store.sessions == old(store.sessions)[freshId := after] && resp == r
    ensures sent.Some? <==> cfg.openaiEnabled && ParseStart(body).Some? && ParseStart(body).value.promptVersion == PromptVersion
  {
    if !cfg.openaiEnabled {
      return HandleError(EnvMissing), None;
    }
    var parsed := ParseStart(body);
    if parsed.None? {
      return HandleError(SchemaInvalid), None;
    }
    var b := parsed.value;
    if b.promptVersion != PromptVersion {
      return StartVersionMismatch, None;
    }
    ghost var m0 := store.sessions;
    var session := store.CreateSession(freshId, Some(Collecte), Some(b.promptVersion));
    assert session == NewSession(freshId, Collecte, b.promptVersion);
    MergeIntoEmptyFits(session, b.memoryDelta);
    resp, sent := AnswerTurn(store, freshId, cfg, b, reply);
    ghost var after := AnsweredTurn(session, b, cfg, reply).0;
    MapUpdateTwice(m0, freshId, session, after);
  }

  /** `POST /api/continue`: 404 and 409 are answered before the session is touched. */
  method Continue(store: Store, cfg: Config, body: Json, reply: Reply)
    returns (resp: HttpResponse, sent: Option<Request>)
    requires store.Valid() && ContinueDeltaFits(store.sessions, body)
    modifies store
    ensures store.Valid()
    ensures !cfg.openaiEnabled ==> resp == HandleError(EnvMissing) && store.sessions == old(store.sessions)
    ensures cfg.openaiEnabled && ParseContinue(body).None? ==>
      resp == HandleError(SchemaInvalid) && store.sessions == old(store.sessions)
    ensures cfg.openaiEnabled && ParseContinue(body).Some? && ParseContinue(body).value.0 !in old(store.sessions) ==>
      resp == UnknownSession && store.sessions == old(store.sessions)
    ensures cfg.openaiEnabled && ParseContinue(body).Some? && ParseContinue(body).value.0 in old(store.sessions) ==>
      var (id, b) := ParseContinue(body).value;
      var s := old(store.sessions)[id];
      && (b.promptVersion != s.promptVersion ==> resp == StaleVersion && store.sessions == old(store.sessions))
      && (b.promptVersion == s.promptVersion ==>
            && TurnRequest(sent, cfg, s, b, b.phaseHint, false)
            && var (after, r) := AnsweredTurn(s, b, cfg, reply);
            store.sessions == old(store.sessions)[id := after] && resp == r)
    ensures sent.Some? <==>
      cfg.openaiEnabled && ParseContinue(body).Some? && ParseContinue(body).value.0 in old(store.sessions)
      && ParseContinue(body).value.1.promptVersion == old(store.sessions)[ParseContinue(body).value.0].promptVersion
  {
    if !cfg.openaiEnabled {
      return HandleError(EnvMissing), None;
    }
    var parsed := ParseContinue(body);
    if parsed.None? {
      return HandleError(SchemaInvalid), None;
    }
    var (id, b) := parsed.value;
    var found := store.GetSession(id);
    if found.None? {
      return UnknownSession, None;
    }
    if b.promptVersion != found.value.promptVersion {
      return StaleVersion, None;
    }
    resp, sent := AnswerTurn(store, id, cfg, b, reply);
  }

  /** `POST /api/final`: the same checks as continue, then a final turn. */
  method Finalize(store: Store, cfg: Config, body: Json, reply: Reply)
    returns (resp: HttpResponse, sent: Option<Request>)
    requires store.Valid() && ContinueDeltaFits(store.sessions, body)
    modifies store
    ensures store.Valid()
    ensures !cfg.openaiEnabled ==> resp == HandleError(EnvMissing) && store.sessions == old(store.sessions)
    ensures cfg.openaiEnabled && ParseContinue(body).None? ==>
      resp == HandleError(SchemaInvalid) && store.sessions == old(store.sessions)
    ensures cfg.openaiEnabled && ParseContinue(body).Some? && ParseContinue(body).value.0 !in old(store.sessions) ==>
      resp == UnknownSession && store.sessions == old(store.sessions)
    ensures cfg.openaiEnabled && ParseContinue(body).Some? && ParseContinue(body).value.0 in old(store.sessions) ==>
      var (id, b) := ParseContinue(body).value;
      var s := old(store.sessions)[id];
      && (b.promptVersion != s.promptVersion ==> resp == StaleVersion && store.sessions == old(store.sessions))
      && (b.promptVersion == s.promptVersion ==>
            && TurnRequest(sent, cfg, s, b, Some(Final), true)
            && var (after, r) := AnsweredFinal(s, b, cfg, reply);
            store.sessions == old(store.sessions)[id := after] && resp == r)
    ensures sent.Some? <==>
      cfg.openaiEnabled && ParseContinue(body).Some? && ParseContinue(body).value.0 in old(store.sessions)
      && ParseContinue(body).value.1.promptVersion == old(store.sessions)[ParseContinue(body).value.0].promptVersion
  {
    if !cfg.openaiEnabled {
      return HandleError(EnvMissing), None;
    }
    var parsed := ParseContinue(body);
    if parsed.None? {
      return HandleError(SchemaInvalid), None;
    }
    var (id, b) := parsed.value;
    var found := store.GetSession(id);
    if found.None? {
      return UnknownSession, None;
    }
    if b.promptVersion != found.value.promptVersion {
      return StaleVersion, None;
    }
    resp, sent := AnswerFinal(store, id, cfg, b, reply);
  }
}
