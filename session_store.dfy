/**
 * The session registry and the per-session updates of
 * server/src/sessionStore.ts: phase update, memory merge and the turn ledger
 * (a window of the last five turns plus a rolling summary of at most 4000
 * characters).
 */
module SessionStore {
  import opened Wrappers
  import opened Strings
  import opened Json
  import opened Types

  /** `PROMPT_VERSION` of server/src/prompt.ts. */
  const PromptVersion: string := "qmpie_v3_2025-09-30"

  const MaxRecentTurns: nat := 5
  const MaxSummaryLength: nat := 4000

  function Min(a: nat, b: nat): nat {
    if a <= b then a else b
  }

  /** A fresh session: the given phase, empty memory, summary and ledger, not disabled. */
  function NewSession(id: string, phase: Phase, promptVersion: string): (r: Session)
    ensures SessionValid(r) && RegistryValid(map[id := r])
  {
    Session(id, promptVersion, phase, map[], "", [], false)
  }

  /** `updatePhase(session, phase)`: sets the phase when one is given, otherwise nothing. */
  function WithPhase(s: Session, phase: Option<Phase>): (r: Session)
    ensures phase.None? ==> r == s
    ensures phase.Some? ==> r.phase == phase.value && r == s.(phase := r.phase)
  {
    if phase.Some? then s.(phase := phase.value) else s
  }

  /** The delta can be merged into `memory` without meeting the array-target case. */
  predicate DeltaFits(memory: Object, delta: Option<Json>) {
    delta.Some? && Truthy(delta.value) ==> Mergeable(memory, SourceView(delta.value))
  }

  /**
   * `mergeMemory(session, delta)`: a missing or falsy delta changes nothing;
   * otherwise the memory becomes `deepMerge(memory, delta)` and no other field
   * changes.
   */
  function WithMemory(s: Session, delta: Option<Json>): (r: Session)
    requires DeltaFits(s.memory, delta)
    ensures (delta.None? || !Truthy(delta.value)) ==> r == s
    ensures delta.Some? && delta.value.JObj? ==> r.memory == DeepMerge(s.memory, delta.value.fields)
    ensures delta.Some? && Truthy(delta.value) ==> r.memory == DeepMerge(s.memory, SourceView(delta.value))
    ensures r == s.(memory := r.memory)
  {
    if delta.Some? && Truthy(delta.value) then s.(memory := DeepMerge(s.memory, SourceView(delta.value)))
    else s
  }

  function RolePrefix(role: Role): string {
    match role
    case User => "Utilisateur"
    case Assistant => "Assistant"
  }

  /** The last `Min(n, |xs|)` elements of `xs`. */
  function LastN<T>(xs: seq<T>, n: nat): (r: seq<T>)
    ensures |r| == Min(n, |xs|)
  {
    xs[|xs| - Min(n, |xs|)..]
  }

  /**
   * The ledger after pushing `t` and, when it then holds more than five
   * turns, shifting the oldest one out. On a ledger that holds at most five
   * turns, this is the last five turns of the old ledger followed by `t`.
   */
  function LedgerPush(turns: seq<Turn>, t: Turn): (r: seq<Turn>)
    ensures |turns| <= MaxRecentTurns ==> |r| <= MaxRecentTurns
    ensures |turns| <= MaxRecentTurns ==> r == LastN(turns + [t], MaxRecentTurns)
    ensures r != [] && r[|r| - 1] == t
  {
    var pushed := turns + [t];
    if |pushed| > MaxRecentTurns then pushed[1..] else pushed
  }

  /** The text `appendTurn` adds to the summary before trimming and cutting. */
  function Snippet(role: Role, content: string): string {
    RolePrefix(role) + ": " + content
  }

  /**
   * The summary after `appendTurn`: the trimmed old summary, a newline and the
   * snippet, cut to its last 4000 characters.
   */
  function SummaryAfter(summary: string, role: Role, content: string): (r: string)
    ensures |r| <= MaxSummaryLength
    ensures var full := Trim(summary + "\n" + Snippet(role, content));
      |r| == Min(MaxSummaryLength, |full|) && r == full[|full| - |r|..]
  {
    TakeLast(Trim(summary + "\n" + Snippet(role, content)), MaxSummaryLength)
  }

  /** `appendTurn(session, role, content)`: ledger push and summary update, nothing else. */
  function AppendedTurn(s: Session, role: Role, content: string): (r: Session)
    ensures SessionValid(s) ==> SessionValid(r)
  {
    s.(recentTurns := LedgerPush(s.recentTurns, Turn(role, content)),
       summary := SummaryAfter(s.summary, role, content))
  }

  /** The bounds `appendTurn` keeps. */
  predicate SessionValid(s: Session) {
    |s.recentTurns| <= MaxRecentTurns && |s.summary| <= MaxSummaryLength
  }

  /** Every session is stored under its own id and keeps the ledger bounds. */
  predicate RegistryValid(m: map<string, Session>) {
    forall id :: id in m ==> m[id].id == id && SessionValid(m[id])
  }

  lemma RegistryUpdate(m: map<string, Session>, id: string, s: Session)
    requires RegistryValid(m) && s.id == id && SessionValid(s)
    ensures RegistryValid(m[id := s])
  {
  }

  /** The ledger after pushing every turn of `ts`, in order. */
  function LedgerPushAll(turns: seq<Turn>, ts: seq<Turn>): seq<Turn>
    decreases |ts|
  {
    if ts == [] then turns else LedgerPushAll(LedgerPush(turns, ts[0]), ts[1..])
  }

  lemma {:induction false} LastNOfLastN<T>(xs: seq<T>, ys: seq<T>, n: nat)
    ensures LastN(LastN(xs, n) + ys, n) == LastN(xs + ys, n)
  {
    var a := LastN(xs, n);
    var l, r := LastN(a + ys, n), LastN(xs + ys, n);
    forall k | 0 <= k < |l| ensures l[k] == r[k] {
      var i := |a + ys| - |l| + k;
      var j := |xs + ys| - |r| + k;
      if i < |a| {
        assert l[k] == a[i] == xs[|xs| - |a| + i];
      } else {
        assert l[k] == ys[i - |a|];
      }
    }
  }

  /** When the appended part alone has `n` elements, the last `n` come from it. */
  lemma {:induction false} LastNOfLongSuffix<T>(xs: seq<T>, ys: seq<T>, n: nat)
    requires |ys| >= n
    ensures LastN(xs + ys, n) == ys[|ys| - n..]
  {
    var all := xs + ys;
    var l := LastN(all, n);
    forall k | 0 <= k < n ensures l[k] == ys[|ys| - n + k] {
      assert l[k] == all[|all| - n + k];
    }
  }

  /** One push followed by the remaining turns keeps the last five of all of them. */
  lemma {:induction false} PushThenRest<T>(xs: seq<T>, ys: seq<T>)
    requires ys != []
    ensures LastN(LastN(xs + [ys[0]], MaxRecentTurns) + ys[1..], MaxRecentTurns) == LastN(xs + ys, MaxRecentTurns)
  {
    LastNOfLastN(xs + [ys[0]], ys[1..], MaxRecentTurns);
    assert xs + [ys[0]] + ys[1..] == xs + ys;
  }

  /**
   * However many turns are appended, the ledger is the last five of the old
   * ledger followed by every appended turn: strict first-in-first-out.
   */
  lemma {:induction false} LedgerKeepsLastFive(turns: seq<Turn>, ts: seq<Turn>)
    requires |turns| <= MaxRecentTurns
    decreases |ts|
    ensures LedgerPushAll(turns, ts) == LastN(turns + ts, MaxRecentTurns)
  {
    if ts != [] {
      var next := LedgerPush(turns, ts[0]);
      LedgerKeepsLastFive(next, ts[1..]);
      PushThenRest(turns, ts);
    }
  }

  /** After more than five appends the ledger holds exactly the last five appended turns. */
  lemma {:induction false} LedgerAfterManyAppends(turns: seq<Turn>, ts: seq<Turn>)
    requires |turns| <= MaxRecentTurns && |ts| >= MaxRecentTurns
    ensures LedgerPushAll(turns, ts) == ts[|ts| - MaxRecentTurns..]
  {
    LedgerKeepsLastFive(turns, ts);
    LastNOfLongSuffix(turns, ts, MaxRecentTurns);
  }

  /**
   * The registry: the module-level `sessions` map of server/src/sessionStore.ts.
   * Sessions are values here; callers refer to a session by its id.
   */
  class Store {
    var sessions: map<string, Session>

    ghost predicate Valid()
      reads this
    {
      RegistryValid(sessions)
    }

    constructor ()
      ensures Valid() && sessions == map[]
    {
      sessions := map[];
    }

    /**
     * `createSession(phase = 'collecte', promptVersion = PROMPT_VERSION)`. The
     * id `uuid()` generates is the parameter `id`, assumed fresh.
     */
    method CreateSession(id: string, phase: Option<Phase>, promptVersion: Option<string>) returns (s: Session)
      requires Valid() && id !in sessions
      modifies this
      ensures Valid()
      ensures s == NewSession(id, if phase.Some? then phase.value else Collecte,
                              if promptVersion.Some? then promptVersion.value else PromptVersion)
      ensures sessions == old(sessions)[id := s]
      ensures GetSession(id) == Some(s)
    {
      var p := if phase.Some? then phase.value else Collecte;
      var v := if promptVersion.Some? then promptVersion.value else PromptVersion;
      s := Session(id, v, p, map[], "", [], false);
      sessions := sessions[id := s];
    }

    /** `getSession(id)`: the stored session, or nothing for an unknown id. */
    function GetSession(id: string): (r: Option<Session>)
      reads this
      ensures r.Some? <==> id in sessions
      ensures r.Some? ==> r.value == sessions[id]
    {
      if id in sessions then Some(sessions[id]) else None
    }

    method UpdatePhase(id: string, phase: Option<Phase>)
      requires Valid() && id in sessions
      modifies this
      ensures Valid()
      ensures sessions == old(sessions)[id := WithPhase(old(sessions)[id], phase)]
    {
      if phase.Some? {
        var s := sessions[id];
        sessions := sessions[id := s.(phase := phase.value)];
      }
    }

    method MergeMemory(id: string, delta: Option<Json>)
      requires Valid() && id in sessions && DeltaFits(sessions[id].memory, delta)
      modifies this
      ensures Valid()
      ensures sessions == old(sessions)[id := WithMemory(old(sessions)[id], delta)]
    {
      if delta.None? || !Truthy(delta.value) {
        return;
      }
      var s := sessions[id];
      sessions := sessions[id := s.(memory := DeepMerge(s.memory, SourceView(delta.value)))];
    }

    /** `appendTurn`: push then shift the ledger, then rebuild the summary. */
    method AppendTurn(id: string, role: Role, content: string)
      requires Valid() && id in sessions
      modifies this
      ensures Valid()
      ensures sessions == old(sessions)[id := AppendedTurn(old(sessions)[id], role, content)]
    {
      var s := sessions[id];
      var turns := s.recentTurns + [Turn(role, content)];
      if |turns| > MaxRecentTurns {
        turns := turns[1..];
      }
      assert turns == LedgerPush(s.recentTurns, Turn(role, content));
      var snippet := RolePrefix(role) + ": " + content;
      var summary := TakeLast(Trim(s.summary + "\n" + snippet), MaxSummaryLength);
      assert summary == SummaryAfter(s.summary, role, content);
      var s' := s.(recentTurns := turns, summary := summary);
      assert s' == AppendedTurn(s, role, content);
      RegistryUpdate(sessions, id, s');
      sessions := sessions[id := s'];
    }

    /** `resetSession(id)`: forgets that session and no other. */
    method ResetSession(id: string)
      requires Valid()
      modifies this
      ensures Valid()
      ensures sessions == old(sessions) - {id}
      ensures GetSession(id).None?
      ensures forall other :: other != id ==> GetSession(other) == old(GetSession(other))
    {
      sessions := sessions - {id};
    }
  }
}
