/**
 * The offset advisor's deterministic parts (src/agents/offset_advisor.py): the reading of the
 * reply into offset records, and the lines it writes into its prompt for budget changes and
 * funding constraints. The LLM call is replaced by its reply; `None` stands for an exception
 * raised anywhere before parsing.
 */
module OffsetAdvisor {
  import opened Wrappers
  import opened Text
  import opened DataModels
  import opened ReplySections

  /** One offset recommendation, with the dictionary keys of the source as fields. */
  datatype OffsetRecord = OffsetRecord(category: string, offsetAmount: string, rationale: string, impact: string, implementation: string)

  /** The record of one section: kept iff the category and at least one other field are non-empty. */
  function OffsetOf(section: string): (r: Option<OffsetRecord>)
    ensures r.Some? ==> r.value.category != "" && Stripped(r.value.category)
    ensures r.Some? ==> r.value.offsetAmount != "" || r.value.rationale != "" || r.value.impact != "" || r.value.implementation != ""
  {
    var category := ExtractField(section, "Category");
    if category == "" then None
    else
      var amount := ExtractField(section, "Offset Amount");
      var rationale := ExtractField(section, "Rationale");
      var impact := ExtractField(section, "Impact");
      var implementation := ExtractField(section, "Implementation");
      if amount != "" || rationale != "" || impact != "" || implementation != "" then
        Some(OffsetRecord(category, amount, rationale, impact, implementation))
      else None
  }

  /** The labels of the template the prompt asks for, in order. */
  const OffsetTags: seq<string> := ["Category", "Offset Amount", "Rationale", "Impact", "Implementation"]

  function OffsetValues(r: OffsetRecord): seq<string> {
    [r.category, r.offsetAmount, r.rationale, r.impact, r.implementation]
  }

  /** A record written out in the prompt's template, leaving out empty fields. */
  function RenderOffset(r: OffsetRecord): string {
    Render(Filled(OffsetTags, OffsetValues(r)))
  }

  lemma OffsetTagsDistinctive()
    ensures DistinctiveTags(OffsetTags)
  {
    OffsetTagsPlain();
    OffsetTagsNoSuffix();
  }

  lemma OffsetTagsPlain()
    ensures forall i :: 0 <= i < |OffsetTags| ==> PlainText(OffsetTags[i])
  {
    var t := OffsetTags;
    assert PlainText("Category");
    assert PlainText("Offset Amount");
    assert PlainText("Rationale");
    assert PlainText("Impact");
    assert PlainText("Implementation");
    forall i | 0 <= i < |t|
      ensures PlainText(t[i])
    {
      assert i == 0 || i == 1 || i == 2 || i == 3 || i == 4;
    }
  }

  lemma OffsetTagsNoSuffix()
    ensures forall i, j :: 0 <= i < |OffsetTags| && 0 <= j < |OffsetTags| && i != j ==> !EndsWith(OffsetTags[i], OffsetTags[j])
  {
    var t := OffsetTags;
    assert t[0][7] == 'y' && t[1][12] == 't' && t[2][8] == 'e' && t[3][5] == 't' && t[4][13] == 'n';
    assert t[1][11] == 'n' && t[3][4] == 'c';
    NotSuffixAt(t[0], t[1], 1);
    NotSuffixAt(t[0], t[2], 1);
    NotSuffixAt(t[0], t[3], 1);
    NotSuffixAt(t[0], t[4], 1);
    NotSuffixAt(t[1], t[2], 1);
    NotSuffixAt(t[1], t[3], 2);
    NotSuffixAt(t[1], t[4], 1);
    NotSuffixAt(t[2], t[3], 1);
    NotSuffixAt(t[2], t[4], 1);
    NotSuffixAt(t[3], t[4], 1);
  }

  /**
   * The parser inverts the template: a record with a category, some other field, and plain
   * stripped values is read back from its rendering unchanged.
   */
  lemma OffsetRoundTrip(r: OffsetRecord)
    requires r.category != "" && (r.offsetAmount != "" || r.rationale != "" || r.impact != "" || r.implementation != "")
    requires ReadableValues(OffsetValues(r))
    ensures OffsetOf(RenderOffset(r)) == Some(r)
  {
    OffsetTagsDistinctive();
    var tags, values := OffsetTags, OffsetValues(r);
    ReadFilled(tags, values, 0);
    ReadFilled(tags, values, 1);
    ReadFilled(tags, values, 2);
    ReadFilled(tags, values, 3);
    ReadFilled(tags, values, 4);
  }

  /** The reply cut at every blank-line separator (`split('\n\n')`). */
  function Sections(reply: string): seq<string> {
    Split(reply, "\n\n")
  }

  /** The sections join back to the reply and none of them holds a blank-line separator. */
  lemma SectionsSpec(reply: string)
    ensures |Sections(reply)| >= 1
    ensures Join(Sections(reply), "\n\n") == reply
    ensures forall k :: 0 <= k < |Sections(reply)| ==> !Contains(Sections(reply)[k], "\n\n")
  {
    SplitSpec(reply, "\n\n");
  }

  /** The records `get_offset_recommendations` returns; an exception (no reply) gives none. */
  function Offsets(reply: Option<string>): seq<OffsetRecord> {
    match reply
    case None => []
    case Some(text) => Collect(Sections(text), OffsetOf)
  }

  /**
   * At most one record per section, each the record of some non-blank section, with a
   * non-empty stripped category and some other non-empty field.
   */
  lemma OffsetsWellFormed(text: string, j: nat)
    requires j < |Offsets(Some(text))|
    ensures |Offsets(Some(text))| <= |Sections(text)|
    ensures
      var r := Offsets(Some(text))[j];
      && r.category != "" && (r.offsetAmount != "" || r.rationale != "" || r.impact != "" || r.implementation != "")
      && exists i :: 0 <= i < |Sections(text)| && Strip(Sections(text)[i]) != "" && OffsetOf(Sections(text)[i]) == Some(r)
  {
    CollectFromSections(Sections(text), OffsetOf, j);
  }

  /**
   * Paragraphs are read independently: the records of two replies joined by a blank line are
   * the records of each, in order (when the first does not end in a newline).
   */
  lemma OffsetsOfJoinedReplies(a: string, b: string)
    requires a == "" || a[|a| - 1] != '\n'
    ensures Offsets(Some(a + "\n\n" + b)) == Offsets(Some(a)) + Offsets(Some(b))
  {
    var sa := Sections(a);
    var sb := Sections(b);
    SplitParagraphs(a, b);
    CollectConcat(sa, sb, OffsetOf);
  }

  /** `get_offset_recommendations` after the LLM call: the section loop over the reply. */
  method GetOffsetRecommendations(reply: Option<string>) returns (recs: seq<OffsetRecord>)
    ensures recs == Offsets(reply)
  {
    if reply.None? {
      return [];
    }
    recs := ParseSections(Sections(reply.value), OffsetOf);
  }

  // ---------------------------------------------------------------------------------------
  // Prompt lines

  /** The percentage written for a change: by sign when the old amount is 0, the relative change otherwise. */
  function ChangePercent(oldAmount: real, delta: real): real {
    if oldAmount == 0.0 then (if delta > 0.0 then 100.0 else if delta < 0.0 then -100.0 else 0.0)
    else delta / oldAmount * 100.0
  }

  /** The prompt's percentage is the delta record's own `percentage_change`, whatever the new amount. */
  lemma ChangePercentAgrees(d: BudgetDelta)
    ensures ChangePercent(d.oldAmount, d.delta) == PercentageChange(d)
  {
  }

  /** One line of `_format_budget_changes` before money formatting: category, delta and percentage. */
  datatype ChangeLine = ChangeLine(category: string, delta: real, percentage: real)

  /** `_format_budget_changes`: one line per delta, in order. */
  method FormatBudgetChanges(deltas: seq<BudgetDelta>) returns (lines: seq<ChangeLine>)
    ensures |lines| == |deltas|
    ensures forall i :: 0 <= i < |deltas| ==>
      lines[i] == ChangeLine(deltas[i].category, deltas[i].delta, PercentageChange(deltas[i]))
  {
    lines := [];
    for i := 0 to |deltas|
      invariant |lines| == i
      invariant forall k :: 0 <= k < i ==>
        lines[k] == ChangeLine(deltas[k].category, deltas[k].delta, PercentageChange(deltas[k]))
    {
      var d := deltas[i];
      var pct := ChangePercent(d.oldAmount, d.delta);
      ChangePercentAgrees(d);
      lines := lines + [ChangeLine(d.category, d.delta, pct)];
    }
  }

  /** A funding-constraint entry as the advisor holds it: category, locked flag and note. */
  datatype ConstraintEntry = ConstraintEntry(category: string, locked: bool, note: string)

  /** The status word of a constraint. */
  function Status(locked: bool): (w: string)
    ensures w == "Locked" <==> locked
    ensures w == "Flexible" <==> !locked
  {
    if locked then "Locked" else "Flexible"
  }

  function ConstraintLine(c: ConstraintEntry): string {
    "- " + c.category + ": " + Status(c.locked) + " - " + c.note
  }

  /** `_format_funding_constraints`: one line per entry, in order, joined by newlines. */
  method FormatFundingConstraints(entries: seq<ConstraintEntry>) returns (text: string)
    ensures exists lines: seq<string> ::
      && |lines| == |entries|
      && (forall i :: 0 <= i < |entries| ==> lines[i] == ConstraintLine(entries[i]))
      && text == Join(lines, "\n")
  {
    var lines: seq<string> := [];
    for i := 0 to |entries|
      invariant |lines| == i
      invariant forall k :: 0 <= k < i ==> lines[k] == ConstraintLine(entries[k])
    {
      var c := entries[i];
      var status := if c.locked then "Locked" else "Flexible";
      lines := lines + ["- " + c.category + ": " + status + " - " + c.note];
    }
    text := Join(lines, "\n");
  }
}
