/**
 * String helpers used by the parsers and validators: whitespace stripping as `str.strip`
 * does it, substring search, `str.join`, `str.split` and ASCII lower-casing.
 */
module Text {
  import opened Wrappers

  /**
   * The ASCII characters that `str.strip()` removes and the class `\s` matches: space, tab,
   * newline, carriage return, vertical tab, form feed and the four separators 0x1C-0x1F.
   */
  predicate IsSpace(c: char) {
    c == ' ' || c == '\t' || c == '\n' || c == '\r' || c == '\U{000B}' || c == '\U{000C}'
    || ('\U{001C}' <= c <= '\U{001F}')
  }

  /** No whitespace at either end: what `str.strip()` leaves. */
  predicate Stripped(s: string) {
    s == "" || (!IsSpace(s[0]) && !IsSpace(s[|s| - 1]))
  }

  /** True when `pat` occurs in `s` starting at index `k`. */
  predicate OccursAt(s: string, pat: string, k: nat) {
    k + |pat| <= |s| && s[k..k + |pat|] == pat
  }

  predicate StartsWith(s: string, prefix: string) {
    OccursAt(s, prefix, 0)
  }

  /** True when `pat` occurs anywhere in `s`. */
  predicate Contains(s: string, pat: string) {
    exists k: nat | k <= |s| :: OccursAt(s, pat, k)
  }

  /** The first index at or after `from` where `pat` occurs in `s` (`str.find` with a start). */
  function IndexFrom(s: string, pat: string, from: nat): Option<nat>
    requires from <= |s|
    decreases |s| - from
  {
    if OccursAt(s, pat, from) then Some(from)
    else if from == |s| then None
    else IndexFrom(s, pat, from + 1)
  }

  /** The index found is an occurrence, and the first one at or after `from`; None means there is none. */
  lemma {:induction false} IndexFromSpec(s: string, pat: string, from: nat)
    requires from <= |s|
    decreases |s| - from
    ensures var r := IndexFrom(s, pat, from);
      && (r.Some? ==> from <= r.value && OccursAt(s, pat, r.value))
      && (r.Some? ==> forall k: nat :: from <= k < r.value ==> !OccursAt(s, pat, k))
      && (r.None? ==> forall k: nat :: from <= k <= |s| ==> !OccursAt(s, pat, k))
  {
    if !OccursAt(s, pat, from) && from < |s| {
      IndexFromSpec(s, pat, from + 1);
    }
  }

  /** The first index where `pat` occurs in `s`, or None. */
  function IndexOf(s: string, pat: string): (r: Option<nat>)
    ensures r.Some? ==> OccursAt(s, pat, r.value)
    ensures r.Some? ==> forall k: nat :: k < r.value ==> !OccursAt(s, pat, k)
    ensures r.None? <==> !Contains(s, pat)
  {
    IndexFromSpec(s, pat, 0);
    IndexFrom(s, pat, 0)
  }

  /** `s.lstrip()`: drops leading whitespace. */
  function TrimStart(s: string): (r: string)
    ensures |r| <= |s| && r == s[|s| - |r|..]
    ensures r == "" || !IsSpace(r[0])
    ensures forall k :: 0 <= k < |s| - |r| ==> IsSpace(s[k])
  {
    if |s| > 0 && IsSpace(s[0]) then TrimStart(s[1..]) else s
  }

  /** `s.rstrip()`: drops trailing whitespace. */
  function TrimEnd(s: string): (r: string)
    ensures |r| <= |s| && r == s[..|r|]
    ensures r == "" || !IsSpace(r[|r| - 1])
    ensures forall k :: |r| <= k < |s| ==> IsSpace(s[k])
  {
    if |s| > 0 && IsSpace(s[|s| - 1]) then TrimEnd(s[..|s| - 1]) else s
  }

  /** `s.strip()`. */
  function Strip(s: string): (r: string)
    ensures r == "" || (!IsSpace(r[0]) && !IsSpace(r[|r| - 1]))
    ensures r == "" <==> forall k :: 0 <= k < |s| ==> IsSpace(s[k])
  {
    var t := TrimStart(s);
    var u := TrimEnd(t);
    assert u != "" ==> u[0] == t[0];
    u
  }

  /** The text of `s` up to (not including) its first newline. */
  function TakeLine(s: string): (r: string)
    ensures |r| <= |s| && r == s[..|r|]
    ensures '\n' !in r
    ensures |r| < |s| ==> s[|r|] == '\n'
  {
    if s == [] || s[0] == '\n' then []
    else
      var rest := TakeLine(s[1..]);
      assert [s[0]] + rest == s[..|rest| + 1];
      [s[0]] + rest
  }

  /** `sep.join(parts)`. */
  function Join(parts: seq<string>, sep: string): string {
    if |parts| == 0 then ""
    else if |parts| == 1 then parts[0]
    else parts[0] + sep + Join(parts[1..], sep)
  }

  /** A piece that does not contain `pat` contains no occurrence of it in any prefix either. */
  lemma {:induction false} NoOccurrenceInPrefix(s: string, pat: string, i: nat)
    requires |pat| > 0 && i <= |s|
    requires forall k: nat :: k < i ==> !OccursAt(s, pat, k)
    ensures !Contains(s[..i], pat)
  {
    forall k: nat | k <= i && OccursAt(s[..i], pat, k)
      ensures false
    {
      assert s[..i][k..k + |pat|] == s[k..k + |pat|];
      assert k < i && OccursAt(s, pat, k);
    }
  }

  /** Joining a piece in front of a non-empty list puts one separator between them. */
  lemma JoinCons(p: string, rest: seq<string>, sep: string)
    requires |rest| >= 1
    ensures Join([p] + rest, sep) == p + sep + Join(rest, sep)
  {
    assert ([p] + rest)[1..] == rest;
  }

  /** Cutting `s` around an occurrence of `pat` at `i` and gluing it back gives `s`. */
  lemma CutAt(s: string, pat: string, i: nat)
    requires OccursAt(s, pat, i)
    ensures s == s[..i] + pat + s[i + |pat|..]
  {
  }

  /**
   * `s.split(sep)`: the pieces between the non-overlapping occurrences of `sep`, scanned left
   * to right.
   */
  function Split(s: string, sep: string): (parts: seq<string>)
    requires |sep| > 0
    decreases |s|
    ensures |parts| >= 1
  {
    match IndexOf(s, sep)
    case None => [s]
    case Some(i) => [s[..i]] + Split(s[i + |sep|..], sep)
  }

  /** Joining the pieces with `sep` gives `s` back, and no piece contains `sep`. */
  lemma {:induction false} SplitSpec(s: string, sep: string)
    requires |sep| > 0
    decreases |s|
    ensures Join(Split(s, sep), sep) == s
    ensures forall k :: 0 <= k < |Split(s, sep)| ==> !Contains(Split(s, sep)[k], sep)
  {
    match IndexOf(s, sep)
    case None =>
    case Some(i) =>
      NoOccurrenceInPrefix(s, sep, i);
      var rest := s[i + |sep|..];
      SplitSpec(rest, sep);
      CutAt(s, sep, i);
      JoinCons(s[..i], Split(rest, sep), sep);
      assert Split(s, sep) == [s[..i]] + Split(rest, sep);
  }

  /** An occurrence with none before it is the first one. */
  lemma IndexOfAt(s: string, pat: string, k: nat)
    requires OccursAt(s, pat, k)
    requires forall j: nat :: j < k ==> !OccursAt(s, pat, j)
    ensures IndexOf(s, pat) == Some(k)
  {
    assert k <= |s|;
  }

  /** `split` cuts at the first occurrence of the separator and goes on with the rest. */
  lemma SplitFirst(s: string, sep: string, i: nat)
    requires |sep| > 0 && IndexOf(s, sep) == Some(i)
    ensures Split(s, sep) == [s[..i]] + Split(s[i + |sep|..], sep)
  {
  }

  /** Text without a blank-line separator, not ending in a newline, is cut exactly where the separator is appended. */
  lemma NoSeparatorBefore(a: string, b: string)
    requires !Contains(a, "\n\n")
    requires a == "" || a[|a| - 1] != '\n'
    ensures IndexOf(a + "\n\n" + b, "\n\n") == Some(|a|)
  {
    var s := a + "\n\n" + b;
    forall k: nat | k < |a|
      ensures !OccursAt(s, "\n\n", k)
    {
      if k + 2 <= |a| {
        assert s[k..k + 2] == a[k..k + 2];
        assert !OccursAt(a, "\n\n", k);
      } else {
        assert k == |a| - 1;
        assert s[k] == a[|a| - 1];
        assert s[k..k + 2][0] == s[k];
      }
    }
    assert s[|a|..|a| + 2] == "\n\n";
    IndexOfAt(s, "\n\n", |a|);
  }

  /** The first separator of `a` is also the first separator of `a + "\n\n" + b`. */
  lemma FirstSeparatorKept(a: string, b: string, i: nat)
    requires IndexOf(a, "\n\n") == Some(i)
    ensures IndexOf(a + "\n\n" + b, "\n\n") == Some(i)
  {
    var s := a + "\n\n" + b;
    forall k: nat | k <= i
      ensures OccursAt(s, "\n\n", k) <==> OccursAt(a, "\n\n", k)
    {
      assert s[k..k + 2] == a[k..k + 2];
    }
    IndexOfAt(s, "\n\n", i);
  }

  /** A text without a separator is its own single piece, followed by the pieces of what comes after it. */
  lemma SplitParagraphsBase(a: string, b: string)
    requires !Contains(a, "\n\n")
    requires a == "" || a[|a| - 1] != '\n'
    ensures Split(a + "\n\n" + b, "\n\n") == [a] + Split(b, "\n\n")
  {
    var s := a + "\n\n" + b;
    NoSeparatorBefore(a, b);
    SplitFirst(s, "\n\n", |a|);
    assert s[|a| + 2..] == b;
    assert s[..|a|] == a;
  }

  /** The first piece of `a` is the first piece of the joined text, and the rest of `a` carries on. */
  lemma SplitParagraphsStep(a: string, b: string, i: nat)
    requires IndexOf(a, "\n\n") == Some(i)
    ensures Split(a + "\n\n" + b, "\n\n") == [a[..i]] + Split(a[i + 2..] + "\n\n" + b, "\n\n")
    ensures Split(a, "\n\n") == [a[..i]] + Split(a[i + 2..], "\n\n")
  {
    var s := a + "\n\n" + b;
    FirstSeparatorKept(a, b, i);
    SplitFirst(s, "\n\n", i);
    SplitFirst(a, "\n\n", i);
    assert s[i + 2..] == a[i + 2..] + "\n\n" + b;
    assert s[..i] == a[..i];
  }

  /**
   * Splitting at blank lines distributes over a blank-line join, as long as the first text
   * does not end in a newline (which would move the cut one character left).
   */
  lemma {:induction false} SplitParagraphs(a: string, b: string)
    requires a == "" || a[|a| - 1] != '\n'
    decreases |a|
    ensures Split(a + "\n\n" + b, "\n\n") == Split(a, "\n\n") + Split(b, "\n\n")
  {
    match IndexOf(a, "\n\n")
    case None =>
      SplitParagraphsBase(a, b);
    case Some(i) =>
      var tail := a[i + 2..];
      SplitParagraphsStep(a, b, i);
      assert tail == "" || tail[|tail| - 1] == a[|a| - 1];
      SplitParagraphs(tail, b);
      ConsAssoc(a[..i], Split(tail, "\n\n"), Split(b, "\n\n"));
  }

  lemma ConsAssoc<T>(x: T, p: seq<T>, q: seq<T>)
    ensures [x] + (p + q) == ([x] + p) + q
  {
  }

  /** The cut `SplitBefore` makes at a newline that precedes `marker`. */
  lemma CutBefore(s: string, marker: string, i: nat)
    requires '\n' !in marker
    requires OccursAt(s, "\n" + marker, i)
    ensures s == s[..i] + "\n" + s[i + 1..]
    ensures StartsWith(s[i + 1..], marker)
    ensures StartsWith(s, marker) ==> StartsWith(s[..i], marker)
  {
    var tail := s[i + 1..];
    assert s[i..i + 1 + |marker|] == "\n" + marker;
    assert s[i] == '\n';
    assert tail[..|marker|] == s[i..i + 1 + |marker|][1..];
    if StartsWith(s, marker) {
      assert forall j :: 0 <= j < |marker| ==> s[j] == marker[j] && s[j] != '\n';
      assert s[..i][..|marker|] == s[..|marker|];
    }
  }

  /**
   * `re.split(r'\n(?=' + marker + ')', s)`: cuts `s` at every newline that is immediately
   * followed by `marker`, dropping that newline and keeping the marker in the next piece.
   */
  function SplitBefore(s: string, marker: string): (parts: seq<string>)
    requires '\n' !in marker
    decreases |s|
    ensures |parts| >= 1
  {
    match IndexOf(s, "\n" + marker)
    case None => [s]
    case Some(i) => [s[..i]] + SplitBefore(s[i + 1..], marker)
  }

  /**
   * The pieces join back to `s` with newlines; every piece after the first starts with the
   * marker (and so does the first when `s` does); no piece holds a newline followed by it.
   */
  lemma {:induction false} SplitBeforeSpec(s: string, marker: string)
    requires '\n' !in marker
    decreases |s|
    ensures var parts := SplitBefore(s, marker);
      && (StartsWith(s, marker) ==> StartsWith(parts[0], marker))
      && Join(parts, "\n") == s
      && (forall k :: 0 < k < |parts| ==> StartsWith(parts[k], marker))
      && (forall k :: 0 <= k < |parts| ==> !Contains(parts[k], "\n" + marker))
  {
    match IndexOf(s, "\n" + marker)
    case None =>
    case Some(i) =>
      NoOccurrenceInPrefix(s, "\n" + marker, i);
      CutBefore(s, marker, i);
      var tail := s[i + 1..];
      SplitBeforeSpec(tail, marker);
      var rest := SplitBefore(tail, marker);
      JoinCons(s[..i], rest, "\n");
      assert SplitBefore(s, marker) == [s[..i]] + rest;
  }

  /** ASCII lower-casing of one character. */
  function LowerChar(c: char): char {
    if 'A' <= c <= 'Z' then (c as int - 'A' as int + 'a' as int) as char else c
  }

  /** `s.lower()` on ASCII letters. */
  function ToLower(s: string): (r: string)
    ensures |r| == |s|
    ensures forall k :: 0 <= k < |s| ==> r[k] == LowerChar(s[k])
  {
    if s == [] then [] else [LowerChar(s[0])] + ToLower(s[1..])
  }

  /** Lower-casing twice is lower-casing once. */
  lemma ToLowerIdempotent(s: string)
    ensures ToLower(ToLower(s)) == ToLower(s)
  {
  }

  /** A string whose characters are already lower-case is its own lower-casing. */
  lemma ToLowerFixed(s: string)
    requires forall k :: 0 <= k < |s| ==> !('A' <= s[k] <= 'Z')
    ensures ToLower(s) == s
  {
  }
}
