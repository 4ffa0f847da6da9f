/** The decisions embedded in the condition-editing sheet
    (Views/DetectConditionSheet.swift): the risk label shown on a card, when
    Save is enabled, the risk stepper's range, which form a navigation route
    opens, and how the buttons reach the view model. Layout is not modelled. */
module ConditionSheet {
  import opened Base
  import opened Conditions
  import opened ConditionViewModel

  /** The label a condition card shows for its risk rate. */
  function RateLabel(rate: int): (text: string)
    ensures text in {"Critical", "High", "Medium", "Low"}
  {
    if rate >= 4 then "Critical"
    else if rate == 3 then "High"
    else if rate == 2 then "Medium"
    else "Low"
  }

  /** The stepper's bounds, `1...4`. */
  const MinRate: int := 1
  const MaxRate: int := 4

  /** A rate forced into the stepper's range. */
  function ClampRate(rate: int): (r: int)
    ensures MinRate <= r <= MaxRate
    ensures MinRate <= rate <= MaxRate ==> r == rate
  {
    if rate < MinRate then MinRate else if rate > MaxRate then MaxRate else rate
  }

  /** The rank a label stands for: the reverse reading of `RateLabel`. */
  function LabelRank(caption: string): (rank: int)
    ensures MinRate <= rank <= MaxRate
  {
    if caption == "Critical" then 4
    else if caption == "High" then 3
    else if caption == "Medium" then 2
    else 1
  }

  /** A label depends only on the clamped rate, and reading it back gives
      that rate: within the stepper's range the four rates get four
      distinct labels, and every rate outside it shares the label of the
      nearest bound. */
  lemma RateLabelRoundTrip(rate: int)
    ensures LabelRank(RateLabel(rate)) == ClampRate(rate)
    ensures RateLabel(rate) == RateLabel(ClampRate(rate))
  {
  }

  /** The stepper's `+` button; SwiftUI keeps the value within `1...4`. */
  function StepUp(rate: int): (r: int)
    ensures MinRate <= r <= MaxRate
    ensures MinRate <= rate < MaxRate ==> r == rate + 1
    ensures rate >= MaxRate ==> r == MaxRate
  {
    ClampRate(rate + 1)
  }

  /** The stepper's `-` button. */
  function StepDown(rate: int): (r: int)
    ensures MinRate <= r <= MaxRate
    ensures MinRate < rate <= MaxRate ==> r == rate - 1
    ensures rate <= MinRate ==> r == MinRate
  {
    ClampRate(rate - 1)
  }

  /** Foundation's `.whitespacesAndNewlines`: Unicode general category Z,
      the controls U+0009 to U+000D, and U+0085. */
  predicate IsWhitespaceOrNewline(c: char)
  {
    || ('\U{0009}' <= c <= '\U{000D}')
    || c == ' ' || c == '\U{0085}' || c == '\U{00A0}' || c == '\U{1680}'
    || ('\U{2000}' <= c <= '\U{200A}')
    || c == '\U{2028}' || c == '\U{2029}' || c == '\U{202F}' || c == '\U{205F}' || c == '\U{3000}'
  }

  /** Every character of `s` is whitespace. */
  predicate AllWhitespace(s: string)
  {
    forall i :: 0 <= i < |s| ==> IsWhitespaceOrNewline(s[i])
  }

  /** A whitespace character in front of a whitespace run. */
  lemma WhitespacePrefixGrows(s: string, k: nat)
    requires 0 < k <= |s| && IsWhitespaceOrNewline(s[0]) && AllWhitespace(s[1..][..k - 1])
    ensures AllWhitespace(s[..k])
  {
    forall i | 0 <= i < k ensures IsWhitespaceOrNewline(s[..k][i]) {
      if i > 0 {
        assert s[..k][i] == s[1..][..k - 1][i - 1];
      }
    }
  }

  /** A whitespace character after a whitespace run. */
  lemma WhitespaceSuffixGrows(s: string, k: nat)
    requires k < |s| && IsWhitespaceOrNewline(s[|s| - 1]) && AllWhitespace(s[..|s| - 1][k..])
    ensures AllWhitespace(s[k..])
  {
    forall i | 0 <= i < |s| - k ensures IsWhitespaceOrNewline(s[k..][i]) {
      if i < |s| - 1 - k {
        assert s[k..][i] == s[..|s| - 1][k..][i];
      }
    }
  }

  /** `s` without its leading whitespace: a suffix of `s` that is empty or
      starts with a non-whitespace character, preceded only by whitespace. */
  function TrimLeading(s: string): (r: string)
    ensures |r| <= |s| && r == s[|s| - |r|..]
    ensures AllWhitespace(s[..|s| - |r|])
    ensures r != [] ==> !IsWhitespaceOrNewline(r[0])
    decreases |s|
  {
    if s != [] && IsWhitespaceOrNewline(s[0]) then
      var r := TrimLeading(s[1..]);
      WhitespacePrefixGrows(s, |s| - |r|);
      r
    else s
  }

  /** `s` without its trailing whitespace: a prefix of `s` that is empty or
      ends with a non-whitespace character, followed only by whitespace. */
  function TrimTrailing(s: string): (r: string)
    ensures |r| <= |s| && r == s[..|r|]
    ensures AllWhitespace(s[|r|..])
    ensures r != [] ==> !IsWhitespaceOrNewline(r[|r| - 1])
    decreases |s|
  {
    if s != [] && IsWhitespaceOrNewline(s[|s| - 1]) then
      var r := TrimTrailing(s[..|s| - 1]);
      WhitespaceSuffixGrows(s, |r|);
      r
    else s
  }

  /** `trimmingCharacters(in: .whitespacesAndNewlines)`: empty exactly
      for a blank text, and otherwise starting and ending with a character
      that is neither whitespace nor a newline. */
  function Trim(s: string): (r: string)
    ensures r == [] <==> AllWhitespace(s)
    ensures r != [] ==> !IsWhitespaceOrNewline(r[0]) && !IsWhitespaceOrNewline(r[|r| - 1])
  {
    var lead := TrimLeading(s);
    var r := TrimTrailing(lead);
    if r == [] then
      assert lead == [] by {
        assert AllWhitespace(lead[0..]);
      }
      assert s[..|s|] == s;
      r
    else
      assert r[0] == lead[0];
      r
  }

  /** The Save button's `.disabled(...)` condition: Save is disabled
      exactly when the description is nothing but whitespace and newlines
      (in particular when it is empty). */
  function SaveDisabled(description: string): (disabled: bool)
    ensures disabled <==> AllWhitespace(description)
  {
    |Trim(description)| == 0
  }

  /** The draft the Add route starts from:
      `DetectCondition(type: .fall, description: "", rate: 3)`. */
  function AddDraft(freshId: Uuid): (d: DetectCondition)
    ensures d.id == freshId && d.kind == Fall && d.rate == 3 && d.description == ""
  {
    NewCondition(freshId, Fall, "", 3)
  }

  /** A fresh Add draft starts with Save disabled. */
  lemma AddDraftStartsUnsavable(freshId: Uuid)
    ensures SaveDisabled(AddDraft(freshId).description)
  {
  }

  /** The sheet's navigation routes. */
  datatype Route = Add | Edit(id: Uuid)

  /** What a route shows: a form over a draft, or the "not found" text. */
  datatype Destination = Form(draft: DetectCondition) | NotFound

  /** `navigationDestination(for: Route.self)`: Add opens a fresh draft;
      Edit opens the first condition with the route's id. */
  function DestinationOf(conditions: seq<DetectCondition>, route: Route, freshId: Uuid): (d: Destination)
    ensures route.Add? ==> d == Form(AddDraft(freshId))
    ensures route.Edit? ==> (d.Form? <==> HasId(conditions, route.id))
    ensures route.Edit? && d.Form? ==>
              exists i: nat :: IsFirstWithId(conditions, route.id, i) && d.draft == conditions[i]
  {
    match route
    case Add => Form(AddDraft(freshId))
    case Edit(id) =>
      match FirstIndexOf(conditions, id)
      case Some(i) =>
        assert IsFirstWithId(conditions, id, i);
        Form(conditions[i])
      case None => NotFound
  }

  /** What the form's pickers, text field and stepper can change: the
      type, the description and the rate, never the id. */
  function EditDraft(d: DetectCondition, kind: DetectConditionType, description: string, rate: int): (e: DetectCondition)
    ensures e.id == d.id && e.name == d.name && e.durationSec == d.durationSec
    ensures e.kind == kind && e.description == description && e.rate == rate
  {
    d.(kind := kind, description := description, rate := rate)
  }

  /** Saving an edited draft replaces the condition it was opened from, in
      place; the list keeps its length. */
  lemma SaveFromEditReplacesInPlace(conditions: seq<DetectCondition>, id: Uuid, freshId: Uuid,
                                    kind: DetectConditionType, description: string, rate: int)
    requires DestinationOf(conditions, Edit(id), freshId).Form?
    ensures var e := EditDraft(DestinationOf(conditions, Edit(id), freshId).draft, kind, description, rate);
            |Upsert(conditions, e)| == |conditions| &&
            exists i: nat :: IsFirstWithId(conditions, id, i) && Upsert(conditions, e)[i] == e
  {
    var d := DestinationOf(conditions, Edit(id), freshId);
    var i: nat :| IsFirstWithId(conditions, id, i) && d.draft == conditions[i];
    var e := EditDraft(d.draft, kind, description, rate);
    UpsertReplacesFirstMatch(conditions, e, i);
  }

  /** Saving a draft from the Add route, whose fresh id is not in the list,
      appends it. */
  lemma SaveFromAddAppends(conditions: seq<DetectCondition>, freshId: Uuid,
                           kind: DetectConditionType, description: string, rate: int)
    requires !HasId(conditions, freshId)
    ensures var e := EditDraft(AddDraft(freshId), kind, description, rate);
            Upsert(conditions, e) == conditions + [e]
  {
    UpsertAppendsNew(conditions, EditDraft(AddDraft(freshId), kind, description, rate));
  }

  /** The form's Save button (both routes): while the description is blank
      the button is disabled and nothing happens; otherwise the draft is
      inserted. */
  method PressSave(vm: DetectConditionViewModel, draft: DetectCondition) returns (saved: bool)
    modifies vm
    ensures saved <==> !SaveDisabled(draft.description)
    ensures saved ==> vm.conditions == Upsert(old(vm.conditions), draft)
    ensures !saved ==> vm.conditions == old(vm.conditions)
  {
    saved := !SaveDisabled(draft.description);
    if saved {
      vm.Insert(draft);
    }
  }

  /** A card's delete button removes every condition with that card's id. */
  method PressDelete(vm: DetectConditionViewModel, card: DetectCondition)
    modifies vm
    ensures vm.conditions == RemoveAllWithId(old(vm.conditions), card.id)
  {
    vm.DeleteId(card.id);
  }
}
