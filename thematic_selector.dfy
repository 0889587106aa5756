/**
 * The list operations of client/src/components/ThematicSelector.tsx. Each
 * handler computes the next thematic list it passes to `onChange`; an early
 * `return` (no `onChange`) is the unchanged list. The id `makeId()` draws is
 * the parameter `newId`.
 */
module ThematicSelector {
  import opened Wrappers
  import opened Strings
  import opened ClientTypes

  /** `toggleThematic(id)`: flip `checked` on the thematics whose id is `id`. */
  function ToggleThematic(ts: seq<Thematic>, id: string): (r: seq<Thematic>)
    ensures |r| == |ts|
    ensures forall i :: 0 <= i < |ts| && ts[i].id != id ==> r[i] == ts[i]
    ensures forall i :: 0 <= i < |ts| && ts[i].id == id ==> r[i] == ts[i].(checked := !ts[i].checked)
  {
    seq(|ts|, i requires 0 <= i < |ts| => if ts[i].id == id then ts[i].(checked := !ts[i].checked) else ts[i])
  }

  /** Flip `checked` on the sub-themes whose id is `subId`. */
  function ToggleIn(subs: seq<SubThematic>, subId: string): (r: seq<SubThematic>)
    ensures |r| == |subs|
    ensures forall j :: 0 <= j < |subs| && subs[j].id != subId ==> r[j] == subs[j]
    ensures forall j :: 0 <= j < |subs| && subs[j].id == subId ==> r[j] == subs[j].(checked := !subs[j].checked)
  {
    seq(|subs|, j requires 0 <= j < |subs| =>
      if subs[j].id == subId then subs[j].(checked := !subs[j].checked) else subs[j])
  }

  /**
   * `toggleSubtheme(thematicId, subId)`: inside the thematics whose id is
   * `thematicId`, flip the sub-themes whose id is `subId`.
   */
  function ToggleSubtheme(ts: seq<Thematic>, thematicId: string, subId: string): (r: seq<Thematic>)
    ensures |r| == |ts|
    ensures forall i :: 0 <= i < |ts| && ts[i].id != thematicId ==> r[i] == ts[i]
    ensures forall i :: 0 <= i < |ts| && ts[i].id == thematicId ==>
      r[i] == ts[i].(subthemes := ToggleIn(ts[i].subthemes, subId))
  {
    seq(|ts|, i requires 0 <= i < |ts| =>
      if ts[i].id != thematicId then ts[i] else ts[i].(subthemes := ToggleIn(ts[i].subthemes, subId)))
  }

  /** `handleAddThematic()` with `input` in the text box. */
  function AddThematic(ts: seq<Thematic>, input: string, newId: string): (r: seq<Thematic>)
    ensures AllSpace(input) ==> r == ts
    ensures !AllSpace(input) ==>
      && |r| == |ts| + 1 && r[..|ts|] == ts
      && r[|ts|] == Thematic(newId, Trim(input), true, Some(true), [])
  {
    TrimEmptyIff(input);
    var trimmed := Trim(input);
    if trimmed == "" then ts
    else ts + [Thematic(newId, trimmed, true, Some(true), [])]
  }

  /** The draft typed for a thematic, `newSubthemeByThematic[id] || ''`. */
  function Draft(drafts: map<string, string>, thematicId: string): string {
    if thematicId in drafts then drafts[thematicId] else ""
  }

  /**
   * `handleAddSubtheme(thematic)`: gives the next thematic list and the next
   * draft map. With a blank draft nothing changes; otherwise every thematic
   * with the given id gains one sub-theme at the end and its draft is cleared.
   */
  function AddSubtheme(ts: seq<Thematic>, thematicId: string, drafts: map<string, string>, newId: string)
    : (r: (seq<Thematic>, map<string, string>))
    ensures AllSpace(Draft(drafts, thematicId)) ==> r == (ts, drafts)
    ensures !AllSpace(Draft(drafts, thematicId)) ==>
      var sub := SubThematic(newId, Trim(Draft(drafts, thematicId)), true, Some(true));
      && |r.0| == |ts|
      && (forall i :: 0 <= i < |ts| && ts[i].id != thematicId ==> r.0[i] == ts[i])
      && (forall i :: 0 <= i < |ts| && ts[i].id == thematicId ==>
            r.0[i] == ts[i].(subthemes := ts[i].subthemes + [sub]))
      && r.1 == drafts[thematicId := ""]
  {
    var draft := Draft(drafts, thematicId);
    TrimEmptyIff(draft);
    var trimmed := Trim(draft);
    if trimmed == "" then (ts, drafts)
    else
      var sub := SubThematic(newId, trimmed, true, Some(true));
      (seq(|ts|, i requires 0 <= i < |ts| =>
         if ts[i].id == thematicId then ts[i].(subthemes := ts[i].subthemes + [sub]) else ts[i]),
       drafts[thematicId := ""])
  }

  /** Labels as the UI shows them: non-empty, and neither starting nor ending with whitespace. */
  predicate TidyCaption(caption: string) {
    caption != [] && !IsSpace(caption[0]) && !IsSpace(caption[|caption| - 1])
  }

  /**
   * The list invariant the handlers keep: thematic ids are distinct (React
   * keys and toggling rely on it), sub-theme ids are distinct within a
   * thematic, and every caption is tidy.
   */
  predicate WellFormed(ts: seq<Thematic>) {
    && (forall i, j :: 0 <= i < j < |ts| ==> ts[i].id != ts[j].id)
    && (forall i :: 0 <= i < |ts| ==> TidyCaption(ts[i].caption) && SubsWellFormed(ts[i].subthemes))
  }

  predicate SubsWellFormed(subs: seq<SubThematic>) {
    && (forall i, j :: 0 <= i < j < |subs| ==> subs[i].id != subs[j].id)
    && (forall i :: 0 <= i < |subs| ==> TidyCaption(subs[i].caption))
  }

  /** Toggling the same thematic twice gives back the original list. */
  lemma ToggleThematicTwice(ts: seq<Thematic>, id: string)
    ensures ToggleThematic(ToggleThematic(ts, id), id) == ts
  {
    var once := ToggleThematic(ts, id);
    var twice := ToggleThematic(once, id);
    forall i | 0 <= i < |ts| ensures twice[i] == ts[i] {
      assert once[i].id == ts[i].id;
    }
  }

  /** Toggles on different thematics do not interfere: their order does not matter. */
  lemma ToggleThematicCommutes(ts: seq<Thematic>, a: string, b: string)
    ensures ToggleThematic(ToggleThematic(ts, a), b) == ToggleThematic(ToggleThematic(ts, b), a)
  {
    var ab := ToggleThematic(ToggleThematic(ts, a), b);
    var ba := ToggleThematic(ToggleThematic(ts, b), a);
    forall i | 0 <= i < |ts| ensures ab[i] == ba[i] {
      assert ToggleThematic(ts, a)[i].id == ts[i].id;
      assert ToggleThematic(ts, b)[i].id == ts[i].id;
    }
  }

  lemma ToggleInTwice(subs: seq<SubThematic>, subId: string)
    ensures ToggleIn(ToggleIn(subs, subId), subId) == subs
  {
    var once := ToggleIn(subs, subId);
    var twice := ToggleIn(once, subId);
    forall j | 0 <= j < |subs| ensures twice[j] == subs[j] {
      assert once[j].id == subs[j].id;
    }
  }

  /** Toggling the same sub-theme twice gives back the original list. */
  lemma ToggleSubthemeTwice(ts: seq<Thematic>, thematicId: string, subId: string)
    ensures ToggleSubtheme(ToggleSubtheme(ts, thematicId, subId), thematicId, subId) == ts
  {
    var once := ToggleSubtheme(ts, thematicId, subId);
    var twice := ToggleSubtheme(once, thematicId, subId);
    forall i | 0 <= i < |ts| ensures twice[i] == ts[i] {
      assert once[i].id == ts[i].id;
      if ts[i].id == thematicId {
        ToggleInTwice(ts[i].subthemes, subId);
      }
    }
  }

  /**
   * A sub-theme toggle changes one `checked` flag in one place: ids, labels,
   * `custom`, thematic flags and every other sub-theme are as before.
   */
  lemma ToggleSubthemeLocal(ts: seq<Thematic>, thematicId: string, subId: string, i: nat, j: nat)
    requires i < |ts| && j < |ts[i].subthemes|
    ensures var r := ToggleSubtheme(ts, thematicId, subId);
      && r[i].id == ts[i].id && r[i].caption == ts[i].caption && r[i].checked == ts[i].checked
      && r[i].custom == ts[i].custom && |r[i].subthemes| == |ts[i].subthemes|
      && var (s, t) := (ts[i].subthemes[j], r[i].subthemes[j]);
      && t == s.(checked := t.checked)
      && (t.checked != s.checked <==> ts[i].id == thematicId && s.id == subId)
  {
  }

  /** Toggling a thematic keeps the list invariant. */
  lemma ToggleThematicKeepsWellFormed(ts: seq<Thematic>, id: string)
    requires WellFormed(ts)
    ensures WellFormed(ToggleThematic(ts, id))
  {
    var r := ToggleThematic(ts, id);
    forall i | 0 <= i < |ts| ensures r[i].id == ts[i].id && r[i].caption == ts[i].caption && r[i].subthemes == ts[i].subthemes {
    }
  }

  /** Toggling a sub-theme keeps the list invariant. */
  lemma ToggleSubthemeKeepsWellFormed(ts: seq<Thematic>, thematicId: string, subId: string)
    requires WellFormed(ts)
    ensures WellFormed(ToggleSubtheme(ts, thematicId, subId))
  {
    var r := ToggleSubtheme(ts, thematicId, subId);
    forall i | 0 <= i < |ts| ensures r[i].id == ts[i].id && TidyCaption(r[i].caption) && SubsWellFormed(r[i].subthemes) {
      var subs := ts[i].subthemes;
      var out := ToggleIn(subs, subId);
      forall j | 0 <= j < |subs| ensures out[j].id == subs[j].id && out[j].caption == subs[j].caption {
      }
    }
  }

  /** Appending a tidy thematic under an unused id keeps the invariant. */
  lemma AppendKeepsWellFormed(ts: seq<Thematic>, t: Thematic)
    requires WellFormed(ts) && TidyCaption(t.caption) && SubsWellFormed(t.subthemes)
    requires forall i :: 0 <= i < |ts| ==> ts[i].id != t.id
    ensures WellFormed(ts + [t])
  {
    var r := ts + [t];
    forall i, j | 0 <= i < j < |r| ensures r[i].id != r[j].id {
      if j < |ts| {
        assert r[i] == ts[i] && r[j] == ts[j];
      } else {
        assert r[i] == ts[i] && r[j] == t;
      }
    }
    forall i | 0 <= i < |r| ensures TidyCaption(r[i].caption) && SubsWellFormed(r[i].subthemes) {
      if i < |ts| {
        assert r[i] == ts[i];
      }
    }
  }

  /** Adding a thematic under an unused id keeps the invariant. */
  lemma AddThematicKeepsWellFormed(ts: seq<Thematic>, input: string, newId: string)
    requires WellFormed(ts)
    requires forall i :: 0 <= i < |ts| ==> ts[i].id != newId
    ensures WellFormed(AddThematic(ts, input, newId))
  {
    TrimEmptyIff(input);
    if !AllSpace(input) {
      var t := Thematic(newId, Trim(input), true, Some(true), []);
      assert TidyCaption(t.caption);
      AppendKeepsWellFormed(ts, t);
    }
  }

  /** Adding a sub-theme under an id unused in that thematic keeps the invariant. */
  lemma AddSubthemeKeepsWellFormed(ts: seq<Thematic>, thematicId: string, drafts: map<string, string>, newId: string)
    requires WellFormed(ts)
    requires forall i, j :: 0 <= i < |ts| && ts[i].id == thematicId && 0 <= j < |ts[i].subthemes| ==>
      ts[i].subthemes[j].id != newId
    ensures WellFormed(AddSubtheme(ts, thematicId, drafts, newId).0)
  {
    var draft := Draft(drafts, thematicId);
    TrimEmptyIff(draft);
    if !AllSpace(draft) {
      var r := AddSubtheme(ts, thematicId, drafts, newId).0;
      var sub := SubThematic(newId, Trim(draft), true, Some(true));
      forall i | 0 <= i < |ts| ensures r[i].id == ts[i].id && TidyCaption(r[i].caption) && SubsWellFormed(r[i].subthemes) {
        if ts[i].id == thematicId {
          var subs := ts[i].subthemes + [sub];
          assert r[i].subthemes == subs;
          assert forall j :: 0 <= j < |ts[i].subthemes| ==> subs[j] == ts[i].subthemes[j];
        }
      }
    }
  }
}
