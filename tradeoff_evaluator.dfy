/**
 * The trade-off evaluator's deterministic parts (src/agents/tradeoff_evaluator.py): the reading
 * of the reply into trade-off records and the percentage written for each budget change. The
 * LLM call is replaced by its reply; `None` stands for an exception raised before parsing.
 */
module TradeoffEvaluator {
  import opened Wrappers
  import opened Text
  import opened DataModels
  import opened ReplySections

  /** One trade-off, with the dictionary keys of the source as fields. */
  datatype TradeoffRecord = TradeoffRecord(category: string, tradeoff: string, impact: string, riskLevel: string, mitigation: string)

  /**
   * The record of one section: kept iff the category and at least one other field are
   * non-empty. The risk level is whatever text follows its label; it is not checked against
   * High, Medium or Low.
   */
  function TradeoffOf(section: string): (r: Option<TradeoffRecord>)
    ensures r.Some? ==> r.value.category != "" && Stripped(r.value.category)
    ensures r.Some? ==> r.value.tradeoff != "" || r.value.impact != "" || r.value.riskLevel != "" || r.value.mitigation != ""
  {
    var category := ExtractField(section, "Category");
    if category == "" then None
    else
      var tradeoff := ExtractField(section, "Trade-off");
      var impact := ExtractField(section, "Impact");
      var riskLevel := ExtractField(section, "Risk Level");
      var mitigation := ExtractField(section, "Mitigation");
      if tradeoff != "" || impact != "" || riskLevel != "" || mitigation != "" then
        Some(TradeoffRecord(category, tradeoff, impact, riskLevel, mitigation))
      else None
  }

  /** The labels of the template the prompt asks for, in order. */
  const TradeoffTags: seq<string> := ["Category", "Trade-off", "Impact", "Risk Level", "Mitigation"]

  function TradeoffValues(r: TradeoffRecord): seq<string> {
    [r.category, r.tradeoff, r.impact, r.riskLevel, r.mitigation]
  }

  /** A record written out in the prompt's template, leaving out empty fields. */
  function RenderTradeoff(r: TradeoffRecord): string {
    Render(Filled(TradeoffTags, TradeoffValues(r)))
  }

  lemma TradeoffTagsDistinctive()
    ensures DistinctiveTags(TradeoffTags)
  {
    TradeoffTagsPlain();
    TradeoffTagsNoSuffix();
  }

  lemma TradeoffTagsPlain()
    ensures forall i :: 0 <= i < |TradeoffTags| ==> PlainText(TradeoffTags[i])
  {
    var t := TradeoffTags;
    assert PlainText("Category");
    assert PlainText("Trade-off");
    assert PlainText("Impact");
    assert PlainText("Risk Level");
    assert PlainText("Mitigation");
    forall i | 0 <= i < |t|
      ensures PlainText(t[i])
    {
      assert i == 0 || i == 1 || i == 2 || i == 3 || i == 4;
    }
  }

  lemma TradeoffTagsNoSuffix()
    ensures forall i, j :: 0 <= i < |TradeoffTags| && 0 <= j < |TradeoffTags| && i != j ==> !EndsWith(TradeoffTags[i], TradeoffTags[j])
  {
    var t := TradeoffTags;
    assert t[0][7] == 'y' && t[1][8] == 'f' && t[2][5] == 't' && t[3][9] == 'l' && t[4][9] == 'n';
    NotSuffixAt(t[0], t[1], 1);
    NotSuffixAt(t[0], t[2], 1);
    NotSuffixAt(t[0], t[3], 1);
    NotSuffixAt(t[0], t[4], 1);
    NotSuffixAt(t[1], t[2], 1);
    NotSuffixAt(t[1], t[3], 1);
    NotSuffixAt(t[1], t[4], 1);
    NotSuffixAt(t[2], t[3], 1);
    NotSuffixAt(t[2], t[4], 1);
    NotSuffixAt(t[3], t[4], 1);
  }

  /**
   * The parser inverts the template: a record with a category, some other field, and plain
   * stripped values is read back from its rendering unchanged, whatever its risk level says.
   */
  lemma TradeoffRoundTrip(r: TradeoffRecord)
    requires r.category != "" && (r.tradeoff != "" || r.impact != "" || r.riskLevel != "" || r.mitigation != "")
    requires ReadableValues(TradeoffValues(r))
    ensures TradeoffOf(RenderTradeoff(r)) == Some(r)
  {
    TradeoffTagsDistinctive();
    var tags, values := TradeoffTags, TradeoffValues(r);
    ReadFilled(tags, values, 0);
    ReadFilled(tags, values, 1);
    ReadFilled(tags, values, 2);
    ReadFilled(tags, values, 3);
    ReadFilled(tags, values, 4);
  }

  /** The reply cut at every blank-line separator (`split('\n\n')`). */
  function Sections(reply: string): seq<string> {
    Split(reply, "\n\n")
  }

  /** The records `evaluate_tradeoffs` returns; an exception (no reply) gives none. */
  function Tradeoffs(reply: Option<string>): seq<TradeoffRecord> {
    match reply
    case None => []
    case Some(text) => Collect(Sections(text), TradeoffOf)
  }

  /**
   * At most one record per section, each the record of some non-blank section, with a
   * non-empty stripped category and some other non-empty field.
   */
  lemma TradeoffsWellFormed(text: string, j: nat)
    requires j < |Tradeoffs(Some(text))|
    ensures |Tradeoffs(Some(text))| <= |Sections(text)|
    ensures
      var r := Tradeoffs(Some(text))[j];
      && r.category != "" && (r.tradeoff != "" || r.impact != "" || r.riskLevel != "" || r.mitigation != "")
      && exists i :: 0 <= i < |Sections(text)| && Strip(Sections(text)[i]) != "" && TradeoffOf(Sections(text)[i]) == Some(r)
  {
    CollectFromSections(Sections(text), TradeoffOf, j);
  }

  /**
   * Paragraphs are read independently: the records of two replies joined by a blank line are
   * the records of each, in order (when the first does not end in a newline).
   */
  lemma TradeoffsOfJoinedReplies(a: string, b: string)
    requires a == "" || a[|a| - 1] != '\n'
    ensures Tradeoffs(Some(a + "\n\n" + b)) == Tradeoffs(Some(a)) + Tradeoffs(Some(b))
  {
    SplitParagraphs(a, b);
    CollectConcat(Sections(a), Sections(b), TradeoffOf);
  }

  /** `evaluate_tradeoffs` after the LLM call: the section loop over the reply. */
  method EvaluateTradeoffs(reply: Option<string>) returns (recs: seq<TradeoffRecord>)
    ensures recs == Tradeoffs(reply)
  {
    if reply.None? {
      return [];
    }
    recs := ParseSections(Sections(reply.value), TradeoffOf);
  }

  // ---------------------------------------------------------------------------------------
  // Prompt lines

  /** The percentage written for a change: by sign when the old amount is 0, the relative change otherwise. */
  function ChangePercent(change: BudgetDelta): real {
    if change.oldAmount == 0.0 then (if change.delta > 0.0 then 100.0 else if change.delta < 0.0 then -100.0 else 0.0)
    else change.delta / change.oldAmount * 100.0
  }

  /** The prompt's percentage is the delta record's own `percentage_change`. */
  lemma ChangePercentAgrees(change: BudgetDelta)
    ensures ChangePercent(change) == PercentageChange(change)
  {
  }

  /** One line of `_format_budget_changes` before money formatting: category, delta and percentage. */
  datatype ChangeLine = ChangeLine(category: string, delta: real, percentage: real)

  /** `_format_budget_changes`: one line per change, in order. */
  method FormatBudgetChanges(changes: seq<BudgetDelta>) returns (lines: seq<ChangeLine>)
    ensures |lines| == |changes|
    ensures forall i :: 0 <= i < |changes| ==>
      lines[i] == ChangeLine(changes[i].category, changes[i].delta, PercentageChange(changes[i]))
  {
    lines := [];
    for i := 0 to |changes|
      invariant |lines| == i
      invariant forall k :: 0 <= k < i ==>
        lines[k] == ChangeLine(changes[k].category, changes[k].delta, PercentageChange(changes[k]))
    {
      var change := changes[i];
      ChangePercentAgrees(change);
      lines := lines + [ChangeLine(change.category, change.delta, ChangePercent(change))];
    }
  }
}
