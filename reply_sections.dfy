/**
 * The template reader shared by the three agents' reply parsers: a labelled field
 * (`Label: value`) is read with `re.search(r'Label:\s*(.+?)(?=\n|$)', section)` and stripped,
 * and each parser turns the sections of a reply into at most one record each.
 */
module ReplySections {
  import opened Wrappers
  import opened Text

  /**
   * The stripped value of the first `tag:` in `section`, or "" when there is none.
   *
   * The regular expression skips all whitespace after the colon (newlines included) and then
   * takes the rest of that line. When only whitespace follows the colon the match is either
   * absent or all whitespace, and in both cases the parsers see "". Whether the search runs
   * with DOTALL or not makes no difference to the stripped value, because the lazy `.+?`
   * stops at the first newline in either mode.
   */
  function ExtractField(section: string, tag: string): (r: string)
    ensures Stripped(r)
    ensures '\n' !in r
    ensures !Contains(section, tag + ":") ==> r == ""
  {
    match IndexOf(section, tag + ":")
    case None => ""
    case Some(k) => ValueAfter(section[k + |tag| + 1..])
  }

  /** The first non-blank line of `rest`, without its surrounding whitespace (the `\s*(.+?)` part, stripped). */
  function ValueAfter(rest: string): (r: string)
    ensures Stripped(r)
    ensures '\n' !in r
  {
    var line := TakeLine(TrimStart(rest));
    var r := TrimEnd(line);
    assert r != "" ==> r[0] == line[0];
    r
  }

  lemma {:induction false} TrimStartSkipsGap(gap: string, x: string)
    requires forall i :: 0 <= i < |gap| ==> IsSpace(gap[i])
    requires x != [] && !IsSpace(x[0])
    ensures TrimStart(gap + x) == x
  {
    if gap == [] {
      assert gap + x == x;
    } else {
      assert (gap + x)[1..] == gap[1..] + x;
      TrimStartSkipsGap(gap[1..], x);
    }
  }

  lemma {:induction false} TakeLineStopsAtNewline(v: string, post: string)
    requires '\n' !in v
    requires post == "" || post[0] == '\n'
    ensures TakeLine(v + post) == v
  {
    if v != [] {
      assert (v + post)[1..] == v[1..] + post;
      TakeLineStopsAtNewline(v[1..], post);
    } else {
      assert v + post == post;
    }
  }

  /**
   * A template line `Label: value` is read back as `value`, provided no earlier `tag:` occurs
   * and the value is a stripped, non-empty single line. The gap after the colon may be any
   * whitespace, newlines included: a blank value does not stop the reader, which then reads
   * the next non-blank line.
   */
  lemma ExtractFieldReadsLine(pre: string, tag: string, gap: string, v: string, post: string)
    requires forall k: nat :: k < |pre| ==> !OccursAt(pre + tag + ":" + gap + v + post, tag + ":", k)
    requires forall i :: 0 <= i < |gap| ==> IsSpace(gap[i])
    requires v != "" && !IsSpace(v[0]) && !IsSpace(v[|v| - 1]) && '\n' !in v
    requires post == "" || post[0] == '\n'
    ensures ExtractField(pre + tag + ":" + gap + v + post, tag) == v
  {
    var s := pre + tag + ":" + gap + v + post;
    var rest := gap + (v + post);
    assert s == pre + (tag + ":") + rest;
    FirstOccurrenceAt(pre, tag + ":", rest);
    ValueAfterGap(gap, v, post);
  }

  /** After the colon: the gap is skipped and the value read up to the newline. */
  lemma ValueAfterGap(gap: string, v: string, post: string)
    requires forall i :: 0 <= i < |gap| ==> IsSpace(gap[i])
    requires v != "" && !IsSpace(v[0]) && !IsSpace(v[|v| - 1]) && '\n' !in v
    requires post == "" || post[0] == '\n'
    ensures ValueAfter(gap + (v + post)) == v
  {
    TrimStartSkipsGap(gap, v + post);
    TakeLineStopsAtNewline(v, post);
    assert TrimEnd(v) == v;
  }

  lemma FirstOccurrenceAt(pre: string, pat: string, rest: string)
    requires forall k: nat :: k < |pre| ==> !OccursAt(pre + pat + rest, pat, k)
    ensures IndexOf(pre + pat + rest, pat) == Some(|pre|)
    ensures (pre + pat + rest)[|pre| + |pat|..] == rest
  {
    var s := pre + pat + rest;
    assert s[|pre|..|pre| + |pat|] == pat;
    assert OccursAt(s, pat, |pre|);
  }

  /** A blank value does not stop the reader: it reads on to the next non-blank line. */
  lemma BlankValueReadsNextLine()
    ensures ExtractField("Impact:\nHigh", "Impact") == "High"
  {
    assert "Impact:\nHigh" == "" + "Impact" + ":" + "\n" + "High" + "";
    ExtractFieldReadsLine("", "Impact", "\n", "High", "");
  }

  // ---------------------------------------------------------------------------------------
  // The template the prompts ask for, and reading it back

  /** Text that can stand in a template line: no colon and no newline. */
  predicate PlainText(s: string) {
    ':' !in s && '\n' !in s
  }

  predicate EndsWith(s: string, suffix: string) {
    |suffix| <= |s| && s[|s| - |suffix|..] == suffix
  }

  /** A filled-in template: one `Tag: value` line per field, each ending in a newline. */
  function Render(lines: seq<(string, string)>): string {
    if lines == [] then ""
    else Render(lines[..|lines| - 1]) + lines[|lines| - 1].0 + ": " + lines[|lines| - 1].1 + "\n"
  }

  /** The value of the first line with the given tag, or "" when no line has it. */
  function Lookup(lines: seq<(string, string)>, tag: string): string {
    if lines == [] then ""
    else if lines[0].0 == tag then lines[0].1
    else Lookup(lines[1..], tag)
  }

  /** Template lines that can be read back: plain tags and non-empty, stripped, plain values. */
  predicate ReadableLines(lines: seq<(string, string)>) {
    forall i :: 0 <= i < |lines| ==>
      PlainText(lines[i].0) && PlainText(lines[i].1) && lines[i].1 != "" && Stripped(lines[i].1)
  }

  lemma {:induction false} RenderConcat(a: seq<(string, string)>, b: seq<(string, string)>)
    ensures Render(a + b) == Render(a) + Render(b)
  {
    if b == [] {
      assert a + b == a;
    } else {
      assert (a + b)[..|a + b| - 1] == a + b[..|b| - 1];
      RenderConcat(a, b[..|b| - 1]);
    }
  }

  lemma RenderEndsInNewline(lines: seq<(string, string)>)
    requires lines != []
    ensures |Render(lines)| > 0 && Render(lines)[|Render(lines)| - 1] == '\n'
  {
  }

  /** An occurrence of `tag:` is the tag followed by a colon. */
  lemma TagOccurrence(s: string, tag: string, k: nat)
    ensures OccursAt(s, tag + ":", k) ==> s[k..k + |tag|] == tag && s[k + |tag|] == ':'
  {
    if OccursAt(s, tag + ":", k) {
      assert s[k..k + |tag|] == s[k..k + |tag| + 1][..|tag|];
    }
  }

  /**
   * In rendered lines, an occurrence of `tag:` must end at the colon of a line whose tag ends
   * with `tag`; so when no line's tag does, no occurrence has its colon inside the lines.
   */
  lemma {:induction false} NoTagColonInside(lines: seq<(string, string)>, tag: string, x: string, k: nat)
    requires ReadableLines(lines) && PlainText(tag)
    requires forall i :: 0 <= i < |lines| ==> !EndsWith(lines[i].0, tag)
    requires k + |tag| < |Render(lines)|
    ensures !OccursAt(Render(lines) + x, tag + ":", k)
  {
    var init := lines[..|lines| - 1];
    var t := lines[|lines| - 1].0;
    var v := lines[|lines| - 1].1;
    var pre := Render(init);
    var line := t + ": " + v + "\n";
    assert Render(lines) == pre + line;
    assert Render(lines) + x == pre + (line + x);
    if k + |tag| < |pre| {
      assert ReadableLines(init);
      NoTagColonInside(init, tag, line + x, k);
    } else {
      if init != [] {
        RenderEndsInNewline(init);
      }
      NoTagColonInLine(pre, t, v, x, tag, k);
    }
  }

  /** The same for an occurrence whose colon falls in the last line. */
  lemma NoTagColonInLine(pre: string, t: string, v: string, x: string, tag: string, k: nat)
    requires pre == "" || pre[|pre| - 1] == '\n'
    requires PlainText(t) && PlainText(v) && PlainText(tag) && !EndsWith(t, tag)
    requires |pre| <= k + |tag| < |pre| + |t + ": " + v + "\n"|
    ensures !OccursAt(pre + (t + ": " + v + "\n" + x), tag + ":", k)
  {
    var line := t + ": " + v + "\n";
    var s := pre + (line + x);
    var p := k + |tag|;
    TagOccurrence(s, tag, k);
    assert s[p] == line[p - |pre|];
    if p != |pre| + |t| {
      assert forall i :: 0 <= i < |line| && i != |t| ==> line[i] != ':';
      assert s[p] != ':';
    } else if |tag| <= |t| {
      assert s[k..p] == t[|t| - |tag|..];
      assert s[k..p] != tag;
    } else {
      assert s[|pre| - 1] == '\n';
      assert s[k..p][|pre| - 1 - k] == '\n';
      assert s[k..p] != tag;
    }
  }

  /**
   * Reading a rendered template: the value of a tag is the value of its first line, or "" when
   * no line carries it, as long as no other tag ends with the one read.
   */
  lemma {:induction false} ReadRendered(lines: seq<(string, string)>, tag: string)
    requires ReadableLines(lines) && PlainText(tag)
    requires forall i :: 0 <= i < |lines| ==> lines[i].0 == tag || !EndsWith(lines[i].0, tag)
    ensures ExtractField(Render(lines), tag) == Lookup(lines, tag)
  {
    if j :| 0 <= j < |lines| && lines[j].0 == tag && forall i :: 0 <= i < j ==> lines[i].0 != tag {
      ReadFirstTagged(lines, tag, j);
    } else {
      NoLineTagged(lines, tag);
      forall k: nat | k <= |Render(lines)|
        ensures !OccursAt(Render(lines), tag + ":", k)
      {
        if k + |tag| < |Render(lines)| {
          NoTagColonInside(lines, tag, "", k);
          assert Render(lines) + "" == Render(lines);
        }
      }
    }
  }

  /** When no line carries the tag, the lookup gives "" and no line's tag ends with it. */
  lemma {:induction false} NoLineTagged(lines: seq<(string, string)>, tag: string)
    requires forall i :: 0 <= i < |lines| ==> lines[i].0 == tag || !EndsWith(lines[i].0, tag)
    requires !exists j :: 0 <= j < |lines| && lines[j].0 == tag && forall i :: 0 <= i < j ==> lines[i].0 != tag
    ensures forall i :: 0 <= i < |lines| ==> lines[i].0 != tag && !EndsWith(lines[i].0, tag)
    ensures Lookup(lines, tag) == ""
  {
    forall i | 0 <= i < |lines|
      ensures lines[i].0 != tag
    {
      if lines[i].0 == tag {
        FirstTagged(lines, tag, i);
      }
    }
    LookupAbsent(lines, tag);
  }

  lemma {:induction false} FirstTagged(lines: seq<(string, string)>, tag: string, i: nat)
    requires i < |lines| && lines[i].0 == tag
    ensures exists j :: 0 <= j <= i && lines[j].0 == tag && forall m :: 0 <= m < j ==> lines[m].0 != tag
    decreases i
  {
    if exists m :: 0 <= m < i && lines[m].0 == tag {
      var m :| 0 <= m < i && lines[m].0 == tag;
      FirstTagged(lines, tag, m);
    }
  }

  lemma {:induction false} LookupAbsent(lines: seq<(string, string)>, tag: string)
    requires forall i :: 0 <= i < |lines| ==> lines[i].0 != tag
    ensures Lookup(lines, tag) == ""
  {
    if lines != [] {
      LookupAbsent(lines[1..], tag);
    }
  }

  lemma {:induction false} LookupFirst(lines: seq<(string, string)>, tag: string, j: nat)
    requires j < |lines| && lines[j].0 == tag && forall i :: 0 <= i < j ==> lines[i].0 != tag
    ensures Lookup(lines, tag) == lines[j].1
  {
    if j > 0 {
      LookupFirst(lines[1..], tag, j - 1);
    }
  }

  lemma NoTagBefore(before: seq<(string, string)>, tag: string, gap: string, v: string, post: string)
    requires ReadableLines(before) && PlainText(tag)
    requires forall i :: 0 <= i < |before| ==> !EndsWith(before[i].0, tag)
    ensures forall k: nat :: k < |Render(before)| ==> !OccursAt(Render(before) + tag + ":" + gap + v + post, tag + ":", k)
  {
    var pre := Render(before);
    var s := pre + tag + ":" + gap + v + post;
    forall k: nat | k < |pre|
      ensures !OccursAt(s, tag + ":", k)
    {
      if k + |tag| < |pre| {
        NoTagColonInside(before, tag, tag + ":" + gap + v + post, k);
        assert s == pre + (tag + ":" + gap + v + post);
      } else {
        TagOccurrence(s, tag, k);
        assert s[k + |tag|] == tag[k + |tag| - |pre|];
      }
    }
  }

  lemma {:induction false} ReadFirstTagged(lines: seq<(string, string)>, tag: string, j: nat)
    requires ReadableLines(lines) && PlainText(tag)
    requires forall i :: 0 <= i < |lines| ==> lines[i].0 == tag || !EndsWith(lines[i].0, tag)
    requires j < |lines| && lines[j].0 == tag && forall i :: 0 <= i < j ==> lines[i].0 != tag
    ensures ExtractField(Render(lines), tag) == Lookup(lines, tag)
  {
    LookupFirst(lines, tag, j);
    var before := lines[..j];
    var after := lines[j + 1..];
    var v := lines[j].1;
    assert lines == before + [lines[j]] + after;
    RenderConcat(before + [lines[j]], after);
    RenderConcat(before, [lines[j]]);
    assert Render([lines[j]]) == tag + ": " + v + "\n" by {
      assert [lines[j]][..0] == [];
    }
    var pre := Render(before);
    var post := "\n" + Render(after);
    assert Render(lines) == pre + tag + ":" + " " + v + post;
    assert ReadableLines(before);
    NoTagBefore(before, tag, " ", v, post);
    ExtractFieldReadsLine(pre, tag, " ", v, post);
  }

  /** The template of a record: one line per non-empty field, in tag order; empty fields are left out. */
  function Filled(tags: seq<string>, values: seq<string>): (lines: seq<(string, string)>)
    requires |tags| == |values|
    ensures forall m :: 0 <= m < |lines| ==> exists i :: 0 <= i < |tags| && lines[m] == (tags[i], values[i]) && values[i] != ""
  {
    if tags == [] then []
    else
      var rest := Filled(tags[1..], values[1..]);
      assert forall m :: 0 <= m < |rest| ==> exists i :: 0 <= i < |tags| && rest[m] == (tags[i], values[i]) && values[i] != "" by {
        forall m | 0 <= m < |rest|
          ensures exists i :: 0 <= i < |tags| && rest[m] == (tags[i], values[i]) && values[i] != ""
        {
          var i :| 0 <= i < |tags[1..]| && rest[m] == (tags[1..][i], values[1..][i]) && values[1..][i] != "";
          assert rest[m] == (tags[i + 1], values[i + 1]);
        }
      }
      (if values[0] == "" then [] else [(tags[0], values[0])]) + rest
  }

  /** Tags none of which ends with another (so in particular all different), each plain text. */
  predicate DistinctiveTags(tags: seq<string>) {
    && (forall i :: 0 <= i < |tags| ==> PlainText(tags[i]))
    && (forall i, j :: 0 <= i < |tags| && 0 <= j < |tags| && i != j ==> !EndsWith(tags[i], tags[j]))
  }

  /** Two tags that differ `d` characters from the end cannot end with one another. */
  lemma NotSuffixAt(a: string, b: string, d: nat)
    requires 1 <= d <= |a| && d <= |b| && a[|a| - d] != b[|b| - d]
    ensures !EndsWith(a, b) && !EndsWith(b, a)
  {
    if |b| <= |a| {
      assert a[|a| - |b|..][|b| - d] != b[|b| - d];
    }
    if |a| <= |b| {
      assert b[|b| - |a|..][|a| - d] != a[|a| - d];
    }
  }

  /** Field values a template can carry: empty, or plain stripped text. */
  predicate ReadableValues(values: seq<string>) {
    forall i :: 0 <= i < |values| ==> values[i] == "" || (PlainText(values[i]) && Stripped(values[i]))
  }

  lemma {:induction false} LookupFilled(tags: seq<string>, values: seq<string>, i: nat)
    requires |tags| == |values| && i < |tags| && DistinctiveTags(tags)
    ensures Lookup(Filled(tags, values), tags[i]) == values[i]
  {
    var head := if values[0] == "" then [] else [(tags[0], values[0])];
    var rest := Filled(tags[1..], values[1..]);
    assert DistinctiveTags(tags[1..]) by {
      forall a, b | 0 <= a < |tags[1..]| && 0 <= b < |tags[1..]| && a != b
        ensures !EndsWith(tags[1..][a], tags[1..][b])
      {
        assert tags[1..][a] == tags[a + 1] && tags[1..][b] == tags[b + 1];
      }
    }
    assert Filled(tags, values) == head + rest;
    if i == 0 {
      forall m | 0 <= m < |rest|
        ensures rest[m].0 != tags[0]
      {
        var j :| 0 <= j < |tags[1..]| && rest[m] == (tags[1..][j], values[1..][j]) && values[1..][j] != "";
        assert tags[1..][j] == tags[j + 1];
        assert EndsWith(tags[0], tags[0]);
      }
      if values[0] == "" {
        assert head + rest == rest;
        LookupAbsent(rest, tags[0]);
      }
    } else {
      assert tags[0] != tags[i] by {
        assert EndsWith(tags[i], tags[i]);
      }
      LookupFilled(tags[1..], values[1..], i - 1);
      assert tags[1..][i - 1] == tags[i];
      if values[0] == "" {
        assert head + rest == rest;
      } else {
        assert (head + rest)[1..] == rest;
      }
    }
  }

  /**
   * Reading back a filled-in template gives every field, the empty ones as "", provided the
   * tags are distinctive and the values plain.
   */
  lemma ReadFilled(tags: seq<string>, values: seq<string>, i: nat)
    requires |tags| == |values| && i < |tags| && DistinctiveTags(tags) && ReadableValues(values)
    ensures ExtractField(Render(Filled(tags, values)), tags[i]) == values[i]
  {
    var lines := Filled(tags, values);
    forall m | 0 <= m < |lines|
      ensures PlainText(lines[m].0) && PlainText(lines[m].1) && lines[m].1 != "" && Stripped(lines[m].1)
      ensures lines[m].0 == tags[i] || !EndsWith(lines[m].0, tags[i])
    {
      var j :| 0 <= j < |tags| && lines[m] == (tags[j], values[j]) && values[j] != "";
    }
    ReadRendered(lines, tags[i]);
    LookupFilled(tags, values, i);
  }

  /**
   * The records of a list of sections, in section order: whitespace-only sections are skipped,
   * and every other section contributes the record `parse` gives it, if any.
   */
  function Collect<R>(sections: seq<string>, parse: string -> Option<R>): (rs: seq<R>)
    ensures |rs| <= |sections|
  {
    if sections == [] then []
    else
      var init := Collect(sections[..|sections| - 1], parse);
      var s := sections[|sections| - 1];
      if Strip(s) == "" then init
      else
        match parse(s)
        case None => init
        case Some(r) => init + [r]
  }

  /** Sections are read independently and in order: the records of a concatenation are the concatenated records. */
  lemma {:induction false} CollectConcat<R>(a: seq<string>, b: seq<string>, parse: string -> Option<R>)
    ensures Collect(a + b, parse) == Collect(a, parse) + Collect(b, parse)
  {
    if b == [] {
      assert a + b == a;
    } else {
      var init, s := b[..|b| - 1], b[|b| - 1];
      assert a + b == (a + init) + [s];
      assert b == init + [s];
      CollectStep(a + init, s, parse);
      CollectStep(init, s, parse);
      CollectConcat(a, init, parse);
    }
  }

  /** Every record is the record of some non-blank section. */
  lemma {:induction false} CollectFromSections<R>(sections: seq<string>, parse: string -> Option<R>, j: nat)
    requires j < |Collect(sections, parse)|
    ensures exists i :: 0 <= i < |sections| && Strip(sections[i]) != "" && parse(sections[i]) == Some(Collect(sections, parse)[j])
  {
    var init := sections[..|sections| - 1];
    var s := sections[|sections| - 1];
    if j < |Collect(init, parse)| {
      CollectFromSections(init, parse, j);
      var i :| 0 <= i < |init| && Strip(init[i]) != "" && parse(init[i]) == Some(Collect(init, parse)[j]);
      assert sections[i] == init[i];
    } else {
      assert Strip(s) != "" && parse(s) == Some(Collect(sections, parse)[j]);
    }
  }

  /** Reading one more section appends its record, if it is non-blank and has one. */
  lemma CollectStep<R>(sections: seq<string>, s: string, parse: string -> Option<R>)
    ensures Collect(sections + [s], parse) ==
      if Strip(s) != "" && parse(s).Some? then Collect(sections, parse) + [parse(s).value] else Collect(sections, parse)
  {
    assert (sections + [s])[..|sections|] == sections;
  }

  /**
   * The section loop the agents share: skip whitespace-only sections, and append the record of
   * each other section that has one.
   */
  method ParseSections<R>(sections: seq<string>, parse: string -> Option<R>) returns (rs: seq<R>)
    ensures rs == Collect(sections, parse)
  {
    rs := [];
    for i := 0 to |sections|
      invariant rs == Collect(sections[..i], parse)
    {
      var section := sections[i];
      assert sections[..i + 1] == sections[..i] + [section];
      CollectStep(sections[..i], section, parse);
      if Strip(section) == "" {
        continue;
      }
      match parse(section) {
        case None =>
        case Some(r) => rs := rs + [r];
      }
    }
    assert sections[..|sections|] == sections;
  }
}
