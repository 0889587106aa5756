/**
 * The pure helpers of client/src/App.tsx and the parts of `handleSubmit`
 * that decide what is sent and what is kept: the default thematic list, the
 * memory delta built from the checkboxes, the fence extraction on the
 * reply, the endpoint choice and the submit guard. Fresh ids are
 * parameters.
 */
module ClientApp {
  import opened Wrappers
  import opened Strings
  import opened Json
  import opened Types
  import opened SessionStore
  import opened OpenAiClient
  import opened Server
  import opened ClientTypes
  import opened ThematicSelector

  // ---------------------------------------------------------------------------
  // Default thematics
  // ---------------------------------------------------------------------------

  datatype DefaultSub = DefaultSub(id: string, caption: string, checked: bool)
  datatype DefaultThematic = DefaultThematic(caption: string, checked: bool, subthemes: seq<DefaultSub>)

  const SatisfactionClient: DefaultThematic := DefaultThematic("Satisfaction client", true, [
    DefaultSub("accueil", "Accueil & relation", true),
    DefaultSub("delais", "Délais & réactivité", true),
    DefaultSub("digital", "Parcours digital", false)])

  const NotorieteImage: DefaultThematic := DefaultThematic("Notoriété & image", false, [
    DefaultSub("spontanee", "Notoriété spontanée", false),
    DefaultSub("assist", "Image perçue", false)])

  const OffrePrix: DefaultThematic := DefaultThematic("Offre & prix", false, [
    DefaultSub("prix", "Sensibilité prix", false),
    DefaultSub("innov", "Nouvelles offres", false)])

  /** `DEFAULT_THEMATICS`. */
  const DefaultCatalogue: seq<DefaultThematic> := [SatisfactionClient, NotorieteImage, OffrePrix]

  function DefaultSubthemes(d: DefaultThematic): (r: seq<SubThematic>)
    ensures |r| == |d.subthemes|
    ensures forall j :: 0 <= j < |r| ==>
      r[j] == SubThematic(d.caption + "-" + d.subthemes[j].id, d.subthemes[j].caption, d.subthemes[j].checked, None)
  {
    seq(|d.subthemes|, j requires 0 <= j < |d.subthemes| =>
      SubThematic(d.caption + "-" + d.subthemes[j].id, d.subthemes[j].caption, d.subthemes[j].checked, None))
  }

  /**
   * `createDefaultThematics()`, with `ids` the ids `makeId()` draws for the
   * thematics. Sub-theme ids are derived from the thematic label and the
   * catalogue id; labels and `checked` flags are copied.
   */
  function CreateDefaultThematics(ids: seq<string>): (r: seq<Thematic>)
    requires |ids| == |DefaultCatalogue|
    ensures |r| == |DefaultCatalogue|
    ensures forall i :: 0 <= i < |r| ==>
      && r[i].id == ids[i] && r[i].caption == DefaultCatalogue[i].caption
      && r[i].checked == DefaultCatalogue[i].checked && r[i].custom.None?
      && r[i].subthemes == DefaultSubthemes(DefaultCatalogue[i])
  {
    seq(|ids|, i requires 0 <= i < |ids| =>
      Thematic(ids[i], DefaultCatalogue[i].caption, DefaultCatalogue[i].checked, None,
               DefaultSubthemes(DefaultCatalogue[i])))
  }

  /** Joining a common prefix keeps distinct suffixes distinct. */
  lemma PrefixInjective(p: string, x: string, y: string)
    requires x != y
    ensures p + x != p + y
  {
    assert (p + x)[|p|..] == x;
    assert (p + y)[|p|..] == y;
  }

  /** A catalogue entry whose labels are tidy and whose sub-theme ids are distinct. */
  predicate CatalogueEntryTidy(d: DefaultThematic) {
    && TidyCaption(d.caption)
    && (forall a, b :: 0 <= a < b < |d.subthemes| ==> d.subthemes[a].id != d.subthemes[b].id)
    && (forall a :: 0 <= a < |d.subthemes| ==> TidyCaption(d.subthemes[a].caption))
  }

  lemma SatisfactionClientTidy()
    ensures CatalogueEntryTidy(SatisfactionClient)
  {
    var subs := SatisfactionClient.subthemes;
    assert subs[0].id[0] != subs[2].id[0];
    assert TidyCaption(SatisfactionClient.caption);
  }

  lemma NotorieteImageTidy()
    ensures CatalogueEntryTidy(NotorieteImage)
  {
  }

  lemma OffrePrixTidy()
    ensures CatalogueEntryTidy(OffrePrix)
  {
  }

  /** Every catalogue entry has tidy labels and distinct sub-theme ids. */
  lemma CatalogueTidy()
    ensures forall i :: 0 <= i < |DefaultCatalogue| ==> CatalogueEntryTidy(DefaultCatalogue[i])
  {
    SatisfactionClientTidy();
    NotorieteImageTidy();
    OffrePrixTidy();
  }

  /** Deriving sub-theme ids from the thematic label keeps them distinct. */
  lemma DefaultSubsWellFormed(d: DefaultThematic)
    requires CatalogueEntryTidy(d)
    ensures SubsWellFormed(DefaultSubthemes(d))
  {
    var subs := DefaultSubthemes(d);
    forall a, b | 0 <= a < b < |subs| ensures subs[a].id != subs[b].id {
      PrefixInjective(d.caption + "-", d.subthemes[a].id, d.subthemes[b].id);
    }
  }

  /**
   * With distinct thematic ids the default list is well formed: the derived
   * sub-theme ids are distinct within each thematic, and all labels are tidy.
   */
  lemma DefaultsWellFormed(ids: seq<string>)
    requires |ids| == |DefaultCatalogue|
    requires forall i, j :: 0 <= i < j < |ids| ==> ids[i] != ids[j]
    ensures WellFormed(CreateDefaultThematics(ids))
  {
    var r := CreateDefaultThematics(ids);
    CatalogueTidy();
    forall i | 0 <= i < |r| ensures TidyCaption(r[i].caption) && SubsWellFormed(r[i].subthemes) {
      DefaultSubsWellFormed(DefaultCatalogue[i]);
    }
  }

  // ---------------------------------------------------------------------------
  // Memory delta
  // ---------------------------------------------------------------------------

  /** An entry of `collecte.thematiques[*].sous_thematiques`. */
  datatype WireSub = WireSub(caption: string, checked: bool, custom: Option<bool>)

  /** An entry of `collecte.thematiques`. */
  datatype WireThematic = WireThematic(caption: string, checked: bool, custom: Option<bool>, sousThematiques: seq<WireSub>)

  /** The typed object `buildMemoryDelta` writes for a sub-theme list: ids dropped, order kept. */
  function WireSubs(subs: seq<SubThematic>): (r: seq<WireSub>)
    ensures |r| == |subs|
    ensures forall j :: 0 <= j < |subs| ==>
      r[j].caption == subs[j].caption && r[j].checked == subs[j].checked && r[j].custom == subs[j].custom
  {
    seq(|subs|, j requires 0 <= j < |subs| => WireSub(subs[j].caption, subs[j].checked, subs[j].custom))
  }

  /** The typed `collecte.thematiques` list `buildMemoryDelta` writes. */
  function WireThematics(ts: seq<Thematic>): (r: seq<WireThematic>)
    ensures |r| == |ts|
    ensures forall i :: 0 <= i < |ts| ==>
      && r[i].caption == ts[i].caption && r[i].checked == ts[i].checked && r[i].custom == ts[i].custom
      && r[i].sousThematiques == WireSubs(ts[i].subthemes)
  {
    seq(|ts|, i requires 0 <= i < |ts| =>
      WireThematic(ts[i].caption, ts[i].checked, ts[i].custom, WireSubs(ts[i].subthemes)))
  }

  /** `custom: undefined` disappears when the body is serialised. */
  function CustomField(custom: Option<bool>): Object {
    if custom.Some? then map["custom" := JBool(custom.value)] else map[]
  }

  function SubJson(w: WireSub): Json {
    JObj(map["label" := JStr(w.caption), "checked" := JBool(w.checked)] + CustomField(w.custom))
  }

  function SubsJson(ws: seq<WireSub>): (r: seq<Json>)
    ensures |r| == |ws| && forall j :: 0 <= j < |ws| ==> r[j] == SubJson(ws[j])
  {
    seq(|ws|, j requires 0 <= j < |ws| => SubJson(ws[j]))
  }

  function ThematicJson(w: WireThematic): Json {
    JObj(map["label" := JStr(w.caption), "checked" := JBool(w.checked),
             "sous_thematiques" := JArr(SubsJson(w.sousThematiques))]
         + CustomField(w.custom))
  }

  function ThematicsJson(ws: seq<WireThematic>): (r: seq<Json>)
    ensures |r| == |ws| && forall i :: 0 <= i < |ws| ==> r[i] == ThematicJson(ws[i])
  {
    seq(|ws|, i requires 0 <= i < |ws| => ThematicJson(ws[i]))
  }

  /** `buildMemoryDelta(thematics)` as the server receives it. */
  function BuildMemoryDelta(ts: seq<Thematic>): (r: Object)
    ensures r.Keys == {"collecte"} && r["collecte"].JObj? && r["collecte"].fields.Keys == {"thematiques"}
  {
    map["collecte" := JObj(map["thematiques" := JArr(ThematicsJson(WireThematics(ts)))])]
  }

  /** Reads a `custom` flag back: absent, or a boolean. */
  function ReadCustom(f: Object): Option<Option<bool>> {
    if "custom" !in f then Some(None)
    else if f["custom"].JBool? then Some(Some(f["custom"].b))
    else None
  }

  function ReadSub(j: Json): Option<WireSub> {
    if j.JObj? && "label" in j.fields && j.fields["label"].JStr? && "checked" in j.fields
       && j.fields["checked"].JBool? && ReadCustom(j.fields).Some?
    then Some(WireSub(j.fields["label"].s, j.fields["checked"].b, ReadCustom(j.fields).value))
    else None
  }

  function ReadSubs(xs: seq<Json>): Option<seq<WireSub>> {
    if xs == [] then Some([])
    else match (ReadSub(xs[0]), ReadSubs(xs[1..]))
      case (Some(w), Some(ws)) => Some([w] + ws)
      case _ => None
  }

  function ReadThematic(j: Json): Option<WireThematic> {
    if j.JObj? && "label" in j.fields && j.fields["label"].JStr? && "checked" in j.fields
       && j.fields["checked"].JBool? && ReadCustom(j.fields).Some?
       && "sous_thematiques" in j.fields && j.fields["sous_thematiques"].JArr?
       && ReadSubs(j.fields["sous_thematiques"].items).Some?
    then Some(WireThematic(j.fields["label"].s, j.fields["checked"].b, ReadCustom(j.fields).value,
                           ReadSubs(j.fields["sous_thematiques"].items).value))
    else None
  }

  function ReadThematics(xs: seq<Json>): Option<seq<WireThematic>> {
    if xs == [] then Some([])
    else match (ReadThematic(xs[0]), ReadThematics(xs[1..]))
      case (Some(w), Some(ws)) => Some([w] + ws)
      case _ => None
  }

  /**
   * The `collecte.thematiques` list a memory object holds, in the shape of
   * `MemorySnapshot`; `None` when it is missing or has another shape.
   */
  function ReadCollecte(memory: Object): Option<seq<WireThematic>> {
    if "collecte" in memory && memory["collecte"].JObj? && "thematiques" in memory["collecte"].fields
       && memory["collecte"].fields["thematiques"].JArr?
    then ReadThematics(memory["collecte"].fields["thematiques"].items)
    else None
  }

  lemma ReadCustomField(custom: Option<bool>, base: Object)
    requires "custom" !in base
    ensures ReadCustom(base + CustomField(custom)) == Some(custom)
  {
  }

  lemma {:induction false} ReadSubsRoundTrip(ws: seq<WireSub>)
    ensures ReadSubs(SubsJson(ws)) == Some(ws)
  {
    var xs := SubsJson(ws);
    if ws != [] {
      ReadCustomField(ws[0].custom, map["label" := JStr(ws[0].caption), "checked" := JBool(ws[0].checked)]);
      assert ReadSub(xs[0]) == Some(ws[0]);
      assert xs[1..] == SubsJson(ws[1..]);
      ReadSubsRoundTrip(ws[1..]);
      assert [ws[0]] + ws[1..] == ws;
    }
  }

  lemma {:induction false} ReadThematicsRoundTrip(ws: seq<WireThematic>)
    ensures ReadThematics(ThematicsJson(ws)) == Some(ws)
  {
    var xs := ThematicsJson(ws);
    if ws != [] {
      var w := ws[0];
      ReadCustomField(w.custom, map["label" := JStr(w.caption), "checked" := JBool(w.checked),
        "sous_thematiques" := JArr(SubsJson(w.sousThematiques))]);
      ReadSubsRoundTrip(w.sousThematiques);
      assert ReadThematic(xs[0]) == Some(w);
      assert xs[1..] == ThematicsJson(ws[1..]);
      ReadThematicsRoundTrip(ws[1..]);
      assert [w] + ws[1..] == ws;
    }
  }

  /**
   * The delta round-trips: reading `collecte.thematiques` back from it gives
   * the thematic list with ids dropped, same length and order, labels, flags
   * and `custom` copied, sub-themes likewise.
   */
  lemma DeltaRoundTrip(ts: seq<Thematic>)
    ensures ReadCollecte(BuildMemoryDelta(ts)) == Some(WireThematics(ts))
  {
    ReadThematicsRoundTrip(WireThematics(ts));
  }

  /** Ids never reach the server: lists that differ only in ids give the same delta. */
  lemma DeltaIgnoresIds(a: seq<Thematic>, b: seq<Thematic>)
    requires |a| == |b|
    requires forall i :: 0 <= i < |a| ==>
      && a[i].caption == b[i].caption && a[i].checked == b[i].checked && a[i].custom == b[i].custom
      && |a[i].subthemes| == |b[i].subthemes|
      && forall j :: 0 <= j < |a[i].subthemes| ==>
           a[i].subthemes[j] == b[i].subthemes[j].(id := a[i].subthemes[j].id)
    ensures BuildMemoryDelta(a) == BuildMemoryDelta(b)
  {
    forall i | 0 <= i < |a| ensures WireThematics(a)[i] == WireThematics(b)[i] {
      assert WireSubs(a[i].subthemes) == WireSubs(b[i].subthemes);
    }
    assert WireThematics(a) == WireThematics(b);
  }

  /**
   * Sending the delta replaces the stored theme list: after the server's
   * `deepMerge`, `collecte.thematiques` reads back as exactly the list the
   * client sent (arrays replace, they do not merge), and every other memory
   * key and every other `collecte` key is kept.
   */
  lemma MergedDeltaReplacesThematics(memory: Object, ts: seq<Thematic>)
    requires "collecte" in memory ==> !memory["collecte"].JArr?
    ensures DeltaFits(memory, Some(JObj(BuildMemoryDelta(ts))))
    ensures var m := DeepMerge(memory, BuildMemoryDelta(ts));
      && ReadCollecte(m) == Some(WireThematics(ts))
      && (forall k :: k in memory && k != "collecte" ==> k in m && m[k] == memory[k])
      && (forall k :: k in SubTarget(memory, "collecte") && k != "thematiques" ==>
            k in m["collecte"].fields && m["collecte"].fields[k] == SubTarget(memory, "collecte")[k])
  {
    var d := BuildMemoryDelta(ts);
    var inner := d["collecte"].fields;
    assert Mergeable(SubTarget(memory, "collecte"), inner) by {
      assert forall k :: k in inner ==> !inner[k].JObj?;
    }
    assert Mergeable(memory, d);
    assert SourceView(JObj(d)) == d;
    var m := DeepMerge(memory, d);
    assert m["collecte"] == JObj(DeepMerge(SubTarget(memory, "collecte"), inner));
    DeltaRoundTrip(ts);
  }

  // ---------------------------------------------------------------------------
  // Fence extraction
  // ---------------------------------------------------------------------------

  const FenceOpen: string := "```markdown"
  const FenceClose: string := "```"

  /** A case-insensitive opening fence starts at `i`. */
  predicate OpensAt(content: string, i: nat) {
    MatchesAt(AsciiLower(content), FenceOpen, i)
  }

  /** A closing fence starts at `k`. */
  predicate ClosesAt(content: string, k: nat) {
    MatchesAt(content, FenceClose, k)
  }

  /** Where the fenced body starts: after the opening fence and one optional newline. */
  function BodyStart(content: string, i: nat): (j: nat)
    requires i + |FenceOpen| <= |content|
    ensures i + |FenceOpen| <= j <= |content|
  {
    var e := i + |FenceOpen|;
    if e < |content| && content[e] == '\n' then e + 1 else e
  }

  /** The regular expression finds a match: an opening fence with a closing fence somewhere after it. */
  ghost predicate HasFence(content: string) {
    exists i: nat, k: nat :: OpensAt(content, i) && i + |FenceOpen| <= k && ClosesAt(content, k)
  }

  /**
   * The match `/```markdown\n?([\s\S]*?)```/i` selects: the first opening
   * fence `i`, the start `j` of its body and the nearest closing fence `k`
   * at or after `j`.
   */
  function FenceMatch(content: string): (r: Option<(nat, nat, nat)>)
    ensures r.Some? ==>
      var (i, j, k) := r.value;
      && OpensAt(content, i) && (forall i' :: 0 <= i' < i ==> !OpensAt(content, i'))
      && i + |FenceOpen| <= |content| && j == BodyStart(content, i)
      && j <= k && ClosesAt(content, k)
      && (forall k' :: j <= k' < k ==> !ClosesAt(content, k'))
  {
    match IndexOf(AsciiLower(content), FenceOpen, 0)
    case None => None
    case Some(i) =>
      var j := BodyStart(content, i);
      match IndexOf(content, FenceClose, j)
      case None => None
      case Some(k) => Some((i, j, k))
  }

  /** A closing fence never starts on a newline. */
  lemma CloseStartsWithBacktick(content: string, k: nat)
    requires ClosesAt(content, k)
    ensures k < |content| && content[k] == '`'
  {
    assert content[k] == content[k..k + |FenceClose|][0];
  }

  /** Any opening fence followed by a closing one makes the search succeed. */
  lemma FenceFoundFromWitness(content: string, i: nat, k: nat)
    requires OpensAt(content, i) && i + |FenceOpen| <= k && ClosesAt(content, k)
    ensures FenceMatch(content).Some?
  {
    var o := IndexOf(AsciiLower(content), FenceOpen, 0);
    assert o.Some?;
    var i0 := o.value;
    assert i0 <= i;
    var j0 := BodyStart(content, i0);
    CloseStartsWithBacktick(content, k);
    assert j0 <= k;
    assert IndexOf(content, FenceClose, j0).Some?;
  }

  /**
   * The search finds a fence exactly when some opening fence is followed by
   * a closing one: looking only after the first opening loses nothing,
   * because the optional newline can never be where a closing fence starts.
   */
  lemma FenceFoundIff(content: string)
    ensures FenceMatch(content).Some? <==> HasFence(content)
  {
    if HasFence(content) {
      var i: nat, k: nat :| OpensAt(content, i) && i + |FenceOpen| <= k && ClosesAt(content, k);
      FenceFoundFromWitness(content, i, k);
    }
    if FenceMatch(content).Some? {
      var (i, j, k) := FenceMatch(content).value;
      assert OpensAt(content, i) && i + |FenceOpen| <= k && ClosesAt(content, k);
    }
  }

  /**
   * `extractMarkdownFence(content)`: the trimmed body of the first fence, or
   * `None` (`null`) when there is none.
   */
  function ExtractMarkdownFence(content: string): (r: Option<string>)
    ensures r.Some? <==> HasFence(content)
    ensures r.Some? ==> Trim(r.value) == r.value
    ensures FenceMatch(content).Some? ==>
      var m := FenceMatch(content).value;
      r == Some(Trim(content[m.1..m.2]))
  {
    FenceFoundIff(content);
    match FenceMatch(content)
    case None => None
    case Some(m) =>
      var body := content[m.1..m.2];
      TrimIdempotent(body);
      Some(Trim(body))
  }

  /**
   * The server's flag (a case-sensitive `includes` of the opening marker)
   * implies the case-insensitive opening the client looks for; the client
   * still finds nothing when no closing fence follows.
   */
  lemma MarkerImpliesOpening(content: string)
    requires Includes(content, MarkdownMarker)
    ensures exists i: nat :: OpensAt(content, i)
  {
    var i := IndexOf(content, MarkdownMarker, 0).value;
    var lower := AsciiLower(content);
    assert lower[i..i + |FenceOpen|] == FenceOpen by {
      forall k | 0 <= k < |FenceOpen| ensures lower[i + k] == FenceOpen[k] {
        assert content[i + k] == content[i..i + |FenceOpen|][k];
      }
    }
    assert OpensAt(content, i);
  }

  /** A reply that carries the flag but never closes its fence. */
  lemma UnclosedFenceExample()
    ensures Includes("```markdown", MarkdownMarker)
    ensures ExtractMarkdownFence("```markdown").None?
  {
    var c := "```markdown";
    assert MatchesAt(c, MarkdownMarker, 0);
    assert AsciiLower(c) == c;
    assert MatchesAt(AsciiLower(c), FenceOpen, 0);
    assert BodyStart(c, 0) == |c|;
    assert IndexOf(c, FenceClose, |c|).None?;
  }

  // ---------------------------------------------------------------------------
  // handleSubmit
  // ---------------------------------------------------------------------------

  /** The three endpoints of client/src/lib/api.ts. */
  datatype Endpoint = StartEndpoint | ContinueEndpoint | FinalEndpoint

  /**
   * The endpoint `handleSubmit` calls: start while there is no session id
   * (`null`, or the falsy empty string), final when the phase is `final`,
   * continue otherwise.
   */
  function ChooseEndpoint(sessionId: Option<string>, phase: Phase): (e: Endpoint)
    ensures e == StartEndpoint <==> sessionId.None? || sessionId.value == ""
    ensures e == FinalEndpoint <==> sessionId.Some? && sessionId.value != "" && phase == Final
    ensures e == ContinueEndpoint <==> sessionId.Some? && sessionId.value != "" && phase != Final
  {
    if sessionId.Some? && sessionId.value != "" then
      if phase == Final then FinalEndpoint else ContinueEndpoint
    else StartEndpoint
  }

  /**
   * The submit guard: nothing is sent while a send is in progress or when
   * the input is blank; otherwise the trimmed input is sent.
   */
  function SubmitText(input: string, isSending: bool): (r: Option<string>)
    ensures r.None? <==> isSending || AllSpace(input)
    ensures r.Some? ==> r.value == Trim(input)
  {
    TrimEmptyIff(input);
    var text := Trim(input);
    if text == "" || isSending then None else Some(text)
  }

  /** What is sent is never blank and already trimmed: it meets `userMessage: z.string().min(1)`. */
  lemma SubmittedTextIsTidy(input: string, isSending: bool)
    requires SubmitText(input, isSending).Some?
    ensures var text := SubmitText(input, isSending).value;
      |text| >= 1 && Trim(text) == text && !AllSpace(text)
  {
    TrimEmptyIff(input);
    TrimIdempotent(input);
    TrimEmptyIff(Trim(input));
  }

  /** The prompt version client/src/lib/api.ts adds to every body. */
  const ClientPromptVersion: string := "qmpie_v3_2025-09-30"

  /** The start body: `payload` with the prompt version added. */
  function StartPayload(text: string, delta: Object, phase: Phase): Json {
    JObj(map["userMessage" := JStr(text), "memoryDelta" := JObj(delta), "phaseHint" := JStr(PhaseName(phase)),
             "promptVersion" := JStr(ClientPromptVersion)])
  }

  /** The continue and final body: `payload` with the session id and the prompt version added. */
  function ContinuePayload(sessionId: string, text: string, delta: Object, phase: Phase): Json {
    JObj(map["userMessage" := JStr(text), "memoryDelta" := JObj(delta), "phaseHint" := JStr(PhaseName(phase)),
             "sessionId" := JStr(sessionId), "promptVersion" := JStr(ClientPromptVersion)])
  }

  /**
   * A body the client sends passes the server's start schema and version
   * check: the message, the delta and the hint arrive as built.
   */
  lemma StartPayloadAccepted(input: string, isSending: bool, ts: seq<Thematic>, phase: Phase)
    requires SubmitText(input, isSending).Some?
    ensures var text := SubmitText(input, isSending).value;
      var parsed := ParseStart(StartPayload(text, BuildMemoryDelta(ts), phase));
      && parsed == Some(StartBody(PromptVersion, text, Some(JObj(BuildMemoryDelta(ts))), Some(phase)))
  {
    SubmittedTextIsTidy(input, isSending);
  }

  /** With a session id of at least eight characters, continue and final bodies pass the continue schema. */
  lemma ContinuePayloadAccepted(sessionId: string, input: string, isSending: bool, ts: seq<Thematic>, phase: Phase)
    requires |sessionId| >= 8 && SubmitText(input, isSending).Some?
    ensures var text := SubmitText(input, isSending).value;
      ParseContinue(ContinuePayload(sessionId, text, BuildMemoryDelta(ts), phase))
        == Some((sessionId, StartBody(PromptVersion, text, Some(JObj(BuildMemoryDelta(ts))), Some(phase))))
  {
    SubmittedTextIsTidy(input, isSending);
  }

  /** The part of the page state a reply updates. */
  datatype ClientState = ClientState(sessionId: Option<string>, phase: Phase, finalMarkdown: string)

  /**
   * The final markdown after a reply: replaced by the extracted fence body
   * only when the reply is flagged and the extraction is truthy (a non-empty
   * string); kept otherwise.
   */
  function NextFinalMarkdown(current: string, env: Envelope): (r: string)
    ensures var x := ExtractMarkdownFence(env.assistantMarkdown);
      && (env.finalMarkdownPresent && x.Some? && x.value != "" ==> r == x.value)
      && (!(env.finalMarkdownPresent && x.Some? && x.value != "") ==> r == current)
  {
    if env.finalMarkdownPresent then
      match ExtractMarkdownFence(env.assistantMarkdown)
      case Some(x) => if x != "" then x else current
      case None => current
    else current
  }

  /** The state after a successful reply: the session id and phase are taken from the envelope. */
  function AfterEnvelope(st: ClientState, env: Envelope): (r: ClientState)
    ensures r.sessionId == Some(env.sessionId) && r.phase == env.phase
    ensures r.finalMarkdown == NextFinalMarkdown(st.finalMarkdown, env)
  {
    ClientState(Some(env.sessionId), env.phase, NextFinalMarkdown(st.finalMarkdown, env))
  }

  /**
   * Once the server answers a final turn, every further submit goes to the
   * final endpoint again; an answered start or continue turn sends the next
   * submit to final exactly when the reply moved the session to `final`.
   */
  lemma NextEndpointAfterReply(st: ClientState, s: Session, b: StartBody, cfg: Config, reply: Reply)
    requires cfg.openaiEnabled && DeltaFits(s.memory, b.memoryDelta) && s.id != ""
    ensures var resp := AnsweredFinal(s, b, cfg, reply).1;
      resp.Ok? ==> var next := AfterEnvelope(st, resp.envelope); ChooseEndpoint(next.sessionId, next.phase) == FinalEndpoint
    ensures var (after, resp) := AnsweredTurn(s, b, cfg, reply);
      resp.Ok? ==> var next := AfterEnvelope(st, resp.envelope);
        (ChooseEndpoint(next.sessionId, next.phase) == FinalEndpoint <==> after.phase == Final)
  {
    AnsweredFinalPhase(s, b, cfg, reply);
    AnsweredTurnPhase(s, b, cfg, reply);
  }
}
