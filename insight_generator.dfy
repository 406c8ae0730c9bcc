/**
 * The reply parser of the insight agent (src/agents/insight_generator.py): a JSON reply is
 * taken as it is, anything else is cut into `Category:` sections, and the parsed items are
 * then turned into `Insight` records. The LLM call is replaced by its reply, and `json.loads`
 * by a parameter.
 */
module InsightGenerator {
  import opened Wrappers
  import opened Text
  import opened DataModels
  import opened ReplySections

  /** An element of a parsed reply: a JSON object (string values) or any other JSON value. */
  datatype Item = Object(fields: map<string, string>) | NonObject

  /** What `json.loads` makes of a reply: a list, an object, another JSON value, or a decode error. */
  datatype JsonValue = JsonList(items: seq<Item>) | JsonObject(fields: map<string, string>) | JsonOther | NotJson

  /** The record of one section: a non-empty category and at least one other non-empty field. */
  function InsightOf(section: string): (r: Option<Insight>)
    ensures r.Some? ==> r.value.category != "" && (r.value.insight != "" || r.value.impact != "" || r.value.recommendation != "")
    ensures r.Some? ==> Stripped(r.value.category)
  {
    var category := ExtractField(section, "Category");
    if category == "" then None
    else
      var insight := ExtractField(section, "Insight");
      var impact := ExtractField(section, "Impact");
      var recommendation := ExtractField(section, "Recommendation");
      if insight != "" || impact != "" || recommendation != "" then
        Some(Insight(category, insight, impact, recommendation))
      else None
  }

  /** The labels of the template the prompt asks for, in order. */
  const InsightTags: seq<string> := ["Category", "Insight", "Impact", "Recommendation"]

  function InsightValues(r: Insight): seq<string> {
    [r.category, r.insight, r.impact, r.recommendation]
  }

  /** A record written out in the prompt's template, leaving out empty fields. */
  function RenderInsight(r: Insight): string {
    Render(Filled(InsightTags, InsightValues(r)))
  }

  lemma InsightTagsDistinctive()
    ensures DistinctiveTags(InsightTags)
  {
    InsightTagsPlain();
    InsightTagsNoSuffix();
  }

  lemma InsightTagsPlain()
    ensures forall i :: 0 <= i < |InsightTags| ==> PlainText(InsightTags[i])
  {
    var t := InsightTags;
    assert PlainText("Category");
    assert PlainText("Insight");
    assert PlainText("Impact");
    assert PlainText("Recommendation");
    forall i | 0 <= i < |t|
      ensures PlainText(t[i])
    {
      assert i == 0 || i == 1 || i == 2 || i == 3;
    }
  }

  lemma InsightTagsNoSuffix()
    ensures forall i, j :: 0 <= i < |InsightTags| && 0 <= j < |InsightTags| && i != j ==> !EndsWith(InsightTags[i], InsightTags[j])
  {
    var t := InsightTags;
    assert t[0][7] == 'y' && t[1][6] == 't' && t[2][5] == 't' && t[3][13] == 'n';
    assert t[1][5] == 'h' && t[2][4] == 'c';
    NotSuffixAt(t[0], t[1], 1);
    NotSuffixAt(t[0], t[2], 1);
    NotSuffixAt(t[0], t[3], 1);
    NotSuffixAt(t[1], t[2], 2);
    NotSuffixAt(t[1], t[3], 1);
    NotSuffixAt(t[2], t[3], 1);
  }

  /**
   * The section parser inverts the template: a record with a category, some other field, and
   * plain stripped values is read back from its rendering unchanged.
   */
  lemma InsightRoundTrip(r: Insight)
    requires r.category != "" && (r.insight != "" || r.impact != "" || r.recommendation != "")
    requires ReadableValues(InsightValues(r))
    ensures InsightOf(RenderInsight(r)) == Some(r)
  {
    InsightTagsDistinctive();
    var tags, values := InsightTags, InsightValues(r);
    ReadFilled(tags, values, 0);
    ReadFilled(tags, values, 1);
    ReadFilled(tags, values, 2);
    ReadFilled(tags, values, 3);
  }

  /** The dictionary the text path appends for a record. */
  function AsItem(r: Insight): Item {
    Object(map["category" := r.category, "insight" := r.insight, "impact" := r.impact, "recommendation" := r.recommendation])
  }

  function AsItems(rs: seq<Insight>): (items: seq<Item>)
    ensures |items| == |rs|
  {
    if rs == [] then [] else AsItems(rs[..|rs| - 1]) + [AsItem(rs[|rs| - 1])]
  }

  /** The reply cut before every newline that starts a `Category:` line (`re.split(r'\n(?=Category:)')`). */
  function Sections(output: string): seq<string> {
    SplitBefore(output, "Category:")
  }

  /** The sections join back to the reply, and every section after the first is a `Category:` section. */
  lemma SectionsSpec(output: string)
    ensures |Sections(output)| >= 1
    ensures Join(Sections(output), "\n") == output
    ensures forall k :: 0 < k < |Sections(output)| ==> StartsWith(Sections(output)[k], "Category:")
  {
    SplitBeforeSpec(output, "Category:");
  }

  /** The records of the text path: one per `Category:` section at most, in reply order. */
  function TextRecords(output: string): seq<Insight> {
    Collect(Sections(output), InsightOf)
  }

  /** `_parse_llm_output`: a JSON list is returned as is, a JSON object as a one-element list, anything else goes through the text path. */
  function ParsedItems(output: string, loads: string -> JsonValue): seq<Item> {
    match loads(output)
    case JsonList(items) => items
    case JsonObject(fields) => [Object(fields)]
    case _ => AsItems(TextRecords(output))
  }

  /**
   * What the text path promises: at most one record per section, every record the record of
   * some non-blank section, with a non-empty stripped category and some other non-empty field.
   */
  lemma TextRecordsWellFormed(output: string, j: nat)
    requires j < |TextRecords(output)|
    ensures |TextRecords(output)| <= |Sections(output)|
    ensures
      var r := TextRecords(output)[j];
      && r.category != "" && Strip(r.category) == r.category
      && (r.insight != "" || r.impact != "" || r.recommendation != "")
      && exists i :: 0 <= i < |Sections(output)| && InsightOf(Sections(output)[i]) == Some(r)
  {
    var sections := Sections(output);
    CollectFromSections(sections, InsightOf, j);
    StripOfStripped(TextRecords(output)[j].category);
  }

  lemma {:induction false} StripOfStripped(s: string)
    requires s != "" && !IsSpace(s[0]) && !IsSpace(s[|s| - 1])
    ensures Strip(s) == s
  {
    assert TrimStart(s) == s;
    assert TrimEnd(s) == s;
  }

  /** The reply parser's loop: tries JSON first, then appends one dictionary per record-bearing section. */
  method ParseLlmOutput(output: string, loads: string -> JsonValue) returns (items: seq<Item>)
    ensures items == ParsedItems(output, loads)
  {
    var parsed := loads(output);
    if parsed.JsonList? {
      return parsed.items;
    } else if parsed.JsonObject? {
      return [Object(parsed.fields)];
    }
    var sections := Sections(output);
    items := [];
    for i := 0 to |sections|
      invariant items == AsItems(Collect(sections[..i], InsightOf))
    {
      assert sections[..i + 1] == sections[..i] + [sections[i]];
      CollectStep(sections[..i], sections[i], InsightOf);
      if Strip(sections[i]) == "" {
        continue;
      }
      match InsightOf(sections[i]) {
        case None =>
        case Some(r) =>
          ghost var done := Collect(sections[..i], InsightOf);
          assert (done + [r])[..|done|] == done;
          items := items + [AsItem(r)];
      }
    }
    assert sections[..|sections|] == sections;
    assert items == AsItems(TextRecords(output));
  }

  // ---------------------------------------------------------------------------------------
  // Conversion to Insight records (generate_insights)

  /** `Insight(category=d['category'], ...)`, or None when the item is not an object or misses a key. */
  function InsightFromItem(it: Item): Option<Insight> {
    match it
    case NonObject => None
    case Object(f) =>
      if "category" in f && "insight" in f && "impact" in f && "recommendation" in f then
        Some(Insight(f["category"], f["insight"], f["impact"], f["recommendation"]))
      else None
  }

  /** The conversion loop of `generate_insights`: keeps the convertible items, in order, and drops the rest. */
  function ToInsights(items: seq<Item>): (r: seq<Insight>)
    ensures |r| <= |items|
  {
    if items == [] then []
    else
      var init := ToInsights(items[..|items| - 1]);
      match InsightFromItem(items[|items| - 1])
      case None => init
      case Some(x) => init + [x]
  }

  /** Every insight comes from an item, and an item lacking any of the four keys yields none. */
  lemma {:induction false} ToInsightsFromItems(items: seq<Item>, j: nat)
    requires j < |ToInsights(items)|
    ensures exists i :: 0 <= i < |items| && InsightFromItem(items[i]) == Some(ToInsights(items)[j])
  {
    var init := items[..|items| - 1];
    if j < |ToInsights(init)| {
      ToInsightsFromItems(init, j);
      var i :| 0 <= i < |init| && InsightFromItem(init[i]) == Some(ToInsights(init)[j]);
      assert items[i] == init[i];
    }
  }

  /** An item that is not an object, or lacks a key, is dropped without affecting the others. */
  lemma DroppedItem(items: seq<Item>, it: Item)
    requires it.NonObject? || !("category" in it.fields && "insight" in it.fields && "impact" in it.fields && "recommendation" in it.fields)
    ensures ToInsights(items + [it]) == ToInsights(items)
  {
    assert (items + [it])[..|items|] == items;
  }

  /** The dictionary the text path builds converts back to its record. */
  lemma ItemRoundTrip(r: Insight)
    ensures InsightFromItem(AsItem(r)) == Some(r)
  {
    assert "category"[0] == 'c' && "insight"[1] == 'n' && "impact"[1] == 'm' && "recommendation"[0] == 'r';
    var f := AsItem(r).fields;
    assert f["category"] == r.category;
    assert f["insight"] == r.insight;
    assert f["impact"] == r.impact;
    assert f["recommendation"] == r.recommendation;
  }

  /** No record of the text path is lost in conversion. */
  lemma {:induction false} ToInsightsOfAsItems(rs: seq<Insight>)
    ensures ToInsights(AsItems(rs)) == rs
  {
    if rs != [] {
      var init := rs[..|rs| - 1];
      assert AsItems(rs)[..|rs| - 1] == AsItems(init);
      ToInsightsOfAsItems(init);
      ItemRoundTrip(rs[|rs| - 1]);
    }
  }

  /** The conversion loop of `generate_insights`. */
  method ConvertItems(items: seq<Item>) returns (insights: seq<Insight>)
    ensures insights == ToInsights(items)
  {
    insights := [];
    for i := 0 to |items|
      invariant insights == ToInsights(items[..i])
    {
      assert items[..i + 1][..i] == items[..i];
      match InsightFromItem(items[i]) {
        case None =>
        case Some(x) => insights := insights + [x];
      }
    }
    assert items[..|items|] == items;
  }

  /** The insights `generate_insights` returns for a reply. */
  function GenerateInsights(output: string, loads: string -> JsonValue): seq<Insight> {
    ToInsights(ParsedItems(output, loads))
  }

  /** A reply that is not a JSON list or object yields exactly the text-path records. */
  lemma TextReplyInsights(output: string, loads: string -> JsonValue)
    requires loads(output).JsonOther? || loads(output).NotJson?
    ensures GenerateInsights(output, loads) == TextRecords(output)
  {
    ToInsightsOfAsItems(TextRecords(output));
  }
}
