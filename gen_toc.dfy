/**
 * The table-of-contents generator (the two `gen_toc.rb` scripts).
 *
 * Every line of a Markdown file is handled on its own: it is kept when it
 * starts with `#` and contains none of the forbidden words; it then becomes a
 * list item `<indent>* [<title>](#<anchor>)`. The two scripts differ only in
 * the forbidden words and the indent unit, which are parameters here.
 * Strings are sequences of characters; case folding covers the ASCII and
 * Latin-1 letters, and whitespace is ASCII.
 */
module Toc {

  /** Forbidden words of the root script. */
  const DeveloperGuideForbidden: seq<string> :=
    ["Table of contents", "define", "pragma", "Inhaltsverzeichnis", "TODO"]

  /** Forbidden words of the final-report script: the root list plus `###` and `####`. */
  const ReportForbidden: seq<string> := DeveloperGuideForbidden + ["###", "####"]

  /** Indent units: two spaces (root script) and four spaces (final-report script). */
  const DeveloperGuideIndent: string := "  "
  const ReportIndent: string := "    "

  // ---------------------------------------------------------------------------
  // Character and string helpers

  /** Ruby's whitespace for `strip`: NUL, tab, line feed, vertical tab, form feed, carriage return, space. */
  predicate IsSpace(c: char) {
    c == ' ' || 9 <= c as int <= 13 || c as int == 0
  }

  /**
   * An upper-case letter that `downcase` folds here: `A`-`Z` and the Latin-1
   * capitals `À`-`Þ` except the multiplication sign, such as `Ä`, `Ö`, `Ü`.
   */
  predicate IsUpper(c: char) {
    'A' <= c <= 'Z' || ('\U{00C0}' <= c <= '\U{00DE}' && c != '\U{00D7}')
  }

  /** `w` occurs in `s` as a case-sensitive substring (`line =~ /w/` for the words used here). */
  predicate Contains(s: string, w: string) {
    exists i | 0 <= i <= |s| - |w| :: OccursAt(s, w, i)
  }

  /** `w` occurs in `s` starting at position i. */
  predicate OccursAt(s: string, w: string, i: int) {
    0 <= i <= |s| - |w| && s[i..i + |w|] == w
  }

  /** The line contains some forbidden word. */
  predicate HasForbidden(line: string, words: seq<string>) {
    exists k | 0 <= k < |words| :: Contains(line, words[k])
  }

  /** `line.start_with?("#")` */
  predicate StartsWithHash(line: string) {
    |line| > 0 && line[0] == '#'
  }

  /** `line.count(c)` */
  function Count(s: string, c: char): (n: nat)
    ensures n <= |s|
  {
    if s == [] then 0 else Count(s[..|s| - 1], c) + (if s[|s| - 1] == c then 1 else 0)
  }

  /** `s.gsub(c, "")`: every occurrence of c deleted. */
  function Delete(s: string, c: char): (r: string)
    ensures c !in r
    ensures forall x | x in r :: x in s
    ensures |r| == |s| - Count(s, c)
  {
    if s == [] then []
    else Delete(s[..|s| - 1], c) + (if s[|s| - 1] == c then [] else [s[|s| - 1]])
  }

  /** `s.gsub(a, b)` for single characters a and b. */
  function Replace(s: string, a: char, b: char): (r: string)
    ensures |r| == |s|
    ensures forall i | 0 <= i < |s| :: r[i] == if s[i] == a then b else s[i]
  {
    if s == [] then []
    else Replace(s[..|s| - 1], a, b) + [if s[|s| - 1] == a then b else s[|s| - 1]]
  }

  /** Each capital maps to its small letter, 32 code points further on in both ranges. */
  function ToLower(c: char): (d: char)
    ensures !IsUpper(d)
    ensures !IsUpper(c) ==> d == c
    ensures IsUpper(c) ==> d as int == c as int + 32
  {
    if IsUpper(c) then (c as int + 32) as char else c
  }

  /** The umlauts of German headings are folded, as `downcase` does. */
  lemma UmlautsFolded()
    ensures ToLower('\U{00C4}') == '\U{00E4}' && ToLower('\U{00D6}') == '\U{00F6}' && ToLower('\U{00DC}') == '\U{00FC}'
    ensures ToLower('\U{00DF}') == '\U{00DF}'
  {
  }

  /** `s.downcase`, for the ASCII and Latin-1 letters. */
  function Downcase(s: string): (r: string)
    ensures |r| == |s|
    ensures forall i | 0 <= i < |s| :: r[i] == ToLower(s[i])
  {
    if s == [] then [] else Downcase(s[..|s| - 1]) + [ToLower(s[|s| - 1])]
  }

  function StripLeading(s: string): (r: string)
    ensures |r| <= |s| && r == s[|s| - |r|..]
    ensures forall x | x in r :: x in s
    ensures r != [] ==> !IsSpace(r[0])
    ensures forall i | 0 <= i < |s| - |r| :: IsSpace(s[i])
  {
    if s != [] && IsSpace(s[0]) then StripLeading(s[1..]) else s
  }

  function StripTrailing(s: string): (r: string)
    ensures |r| <= |s| && r == s[..|r|]
    ensures forall x | x in r :: x in s
    ensures r != [] ==> !IsSpace(r[|r| - 1])
    ensures forall i | |r| <= i < |s| :: IsSpace(s[i])
  {
    if s != [] && IsSpace(s[|s| - 1]) then StripTrailing(s[..|s| - 1]) else s
  }

  /** `s.strip` */
  function Strip(s: string): (r: string) {
    StripTrailing(StripLeading(s))
  }

  /** `s * n` for a string s and a count n. */
  function Repeat(s: string, n: nat): (r: string)
    ensures |r| == |s| * n
  {
    if n == 0 then [] else Repeat(s, n - 1) + s
  }

  // ---------------------------------------------------------------------------
  // The per-line transformation

  /** The line is a heading that appears in the table of contents. */
  predicate Keep(line: string, words: seq<string>) {
    StartsWithHash(line) && !HasForbidden(line, words)
  }

  /** `title = line.gsub("#", "").strip` */
  function Title(line: string): string {
    Strip(Delete(line, '#'))
  }

  /** `href = title.gsub(" ", "-").gsub(":", "").downcase` */
  function Anchor(title: string): string {
    Downcase(Delete(Replace(title, ' ', '-'), ':'))
  }

  /** Number of indent units: `line.count("#") - 1`, never negative for a heading. */
  function Depth(line: string): (d: nat)
    requires StartsWithHash(line)
  {
    CountAtLeastOne(line);
    Count(line, '#') - 1
  }

  /** The list item emitted for a kept line. */
  function Entry(line: string, indent: string): string
    requires StartsWithHash(line)
  {
    var title := Title(line);
    Repeat(indent, Depth(line)) + "* [" + title + "](#" + Anchor(title) + ")"
  }

  /** Output of one input line: one entry, or nothing. */
  function LineOutput(line: string, words: seq<string>, indent: string): (r: seq<string>)
    ensures |r| <= 1
  {
    if Keep(line, words) then [Entry(line, indent)] else []
  }

  /** The whole table of contents: the outputs of the lines, in input order. */
  function TocOf(lines: seq<string>, words: seq<string>, indent: string): seq<string> {
    if lines == [] then []
    else TocOf(lines[..|lines| - 1], words, indent) + LineOutput(lines[|lines| - 1], words, indent)
  }

  /** The `puts` of both scripts: the entry of a heading line, indented by its depth. */
  method FormatEntry(line: string, indent: string) returns (entry: string)
    requires StartsWithHash(line)
    ensures entry == Entry(line, indent)
  {
    CountAtLeastOne(line);
    var title := Title(line);
    var href := Anchor(title);
    entry := Repeat(indent, Count(line, '#') - 1) + "* [" + title + "](#" + href + ")";
  }

  /**
   * The loop of both scripts: each line is skipped (`next`) or its entry is
   * written (`puts`); the written lines are returned in order.
   */
  method GenerateToc(lines: seq<string>, words: seq<string>, indent: string) returns (out: seq<string>)
    ensures out == TocOf(lines, words, indent)
  {
    out := [];
    for i := 0 to |lines|
      invariant out == TocOf(lines[..i], words, indent)
    {
      var line := lines[i];
      TocSnoc(lines, i, words, indent);
      if !StartsWithHash(line) || HasForbidden(line, words) {
        continue;
      }
      var entry := FormatEntry(line, indent);
      out := out + [entry];
    }
    assert lines[..|lines|] == lines;
  }

  // ---------------------------------------------------------------------------
  // Properties

  lemma {:induction false} CountAtLeastOne(line: string)
    requires StartsWithHash(line)
    ensures Count(line, '#') >= 1
  {
    if |line| > 1 {
      CountAtLeastOne(line[..|line| - 1]);
    }
  }

  /** A line that does not start with `#` produces nothing. */
  lemma NonHeadingDropped(line: string, words: seq<string>, indent: string)
    requires !StartsWithHash(line)
    ensures LineOutput(line, words, indent) == []
  {
  }

  /** A line with a forbidden word produces nothing; e.g. `#define FOO`, or any `undefined`. */
  lemma ForbiddenDropped(line: string, words: seq<string>, indent: string, k: nat)
    requires k < |words| && Contains(line, words[k])
    ensures LineOutput(line, words, indent) == []
  {
  }

  /** The emitted title has no `#` and no surrounding whitespace. */
  lemma TitleClean(line: string)
    ensures '#' !in Title(line)
    ensures Title(line) != [] ==> !IsSpace(Title(line)[0]) && !IsSpace(Title(line)[|Title(line)| - 1])
  {
    var d := Delete(line, '#');
    var l := StripLeading(d);
    var t := StripTrailing(l);
    assert Title(line) == t;
    assert '#' !in d;
    assert '#' !in l;
    assert '#' !in t;
    if t != [] {
      assert t == l[..|t|] && l != [];
      assert t[0] == l[0] && !IsSpace(l[0]);
      assert !IsSpace(t[|t| - 1]);
    }
  }

  /** The anchor has no spaces, no colons and no upper-case letters. */
  lemma AnchorClean(title: string)
    ensures ' ' !in Anchor(title) && ':' !in Anchor(title)
    ensures forall c | c in Anchor(title) :: !IsUpper(c)
  {
    var r := Replace(title, ' ', '-');
    var d := Delete(r, ':');
    var a := Downcase(d);
    assert ' ' !in r;
    assert ' ' !in d;
    forall i | 0 <= i < |a|
      ensures a[i] != ' ' && a[i] != ':'
    {
      assert a[i] == ToLower(d[i]);
      assert d[i] in d;
    }
  }

  lemma {:induction false} DeleteAbsent(s: string, c: char)
    requires c !in s
    ensures Delete(s, c) == s
  {
    if s != [] {
      DeleteAbsent(s[..|s| - 1], c);
    }
  }

  lemma {:induction false} DeleteAppend(s: string, t: string, c: char)
    ensures Delete(s + t, c) == Delete(s, c) + Delete(t, c)
    decreases |t|
  {
    if t == [] {
      assert s + t == s;
    } else {
      assert (s + t)[..|s + t| - 1] == s + t[..|t| - 1];
      DeleteAppend(s, t[..|t| - 1], c);
    }
  }

  lemma ReplaceAbsent(s: string, a: char, b: char)
    requires a !in s
    ensures Replace(s, a, b) == s
  {
  }

  lemma DowncaseLower(s: string)
    requires forall c | c in s :: !IsUpper(c)
    ensures Downcase(s) == s
  {
  }

  /** Deriving the anchor again from an anchor leaves it unchanged. */
  lemma AnchorIdempotent(title: string)
    ensures Anchor(Anchor(title)) == Anchor(title)
  {
    var a := Anchor(title);
    AnchorClean(title);
    ReplaceAbsent(a, ' ', '-');
    DeleteAbsent(a, ':');
    DowncaseLower(a);
  }

  /** Every emitted line is indent + `* [` + title + `](#` + anchor + `)`, with (number of `#` - 1) indent units. */
  lemma EntryShape(line: string, words: seq<string>, indent: string)
    requires Keep(line, words)
    ensures Count(line, '#') >= 1
    ensures LineOutput(line, words, indent) ==
      [Repeat(indent, Count(line, '#') - 1) + "* [" + Title(line) + "](#" + Anchor(Title(line)) + ")"]
  {
    CountAtLeastOne(line);
  }

  /** The table of contents of concatenated inputs is the concatenation: output keeps input order. */
  lemma {:induction false} TocAppend(a: seq<string>, b: seq<string>, words: seq<string>, indent: string)
    ensures TocOf(a + b, words, indent) == TocOf(a, words, indent) + TocOf(b, words, indent)
    decreases |b|
  {
    if b == [] {
      assert a + b == a;
    } else {
      var b', x := b[..|b| - 1], b[|b| - 1];
      assert (a + b)[..|a + b| - 1] == a + b';
      assert (a + b)[|a + b| - 1] == x;
      TocAppend(a, b', words, indent);
      calc {
        TocOf(a + b, words, indent);
        TocOf(a + b', words, indent) + LineOutput(x, words, indent);
        TocOf(a, words, indent) + TocOf(b', words, indent) + LineOutput(x, words, indent);
        TocOf(a, words, indent) + TocOf(b, words, indent);
      }
    }
  }

  /** The table of contents of one more line is the old one plus that line's output. */
  lemma TocSnoc(lines: seq<string>, i: nat, words: seq<string>, indent: string)
    requires i < |lines|
    ensures TocOf(lines[..i + 1], words, indent) == TocOf(lines[..i], words, indent) + LineOutput(lines[i], words, indent)
  {
    assert lines[..i + 1][..i] == lines[..i];
  }

  /** At most one output line per input line. */
  lemma {:induction false} TocLength(lines: seq<string>, words: seq<string>, indent: string)
    ensures |TocOf(lines, words, indent)| <= |lines|
  {
    if lines != [] {
      TocLength(lines[..|lines| - 1], words, indent);
    }
  }

  /** Every output line is the entry of some kept input line. */
  lemma {:induction false} TocFromKeptLines(lines: seq<string>, words: seq<string>, indent: string, k: nat)
    requires k < |TocOf(lines, words, indent)|
    ensures exists j | 0 <= j < |lines| :: Keep(lines[j], words) && TocOf(lines, words, indent)[k] == Entry(lines[j], indent)
  {
    assert lines != [];
    var init := lines[..|lines| - 1];
    var last := lines[|lines| - 1];
    var toc, out := TocOf(init, words, indent), LineOutput(last, words, indent);
    assert TocOf(lines, words, indent) == toc + out;
    if k < |toc| {
      assert TocOf(lines, words, indent)[k] == toc[k];
      TocFromKeptLines(init, words, indent, k);
      var j :| 0 <= j < |init| && Keep(init[j], words) && toc[k] == Entry(init[j], indent);
      assert lines[j] == init[j];
    } else {
      assert out != [] && TocOf(lines, words, indent)[k] == out[0];
      assert Keep(last, words) && out[0] == Entry(last, indent);
      assert lines[|lines| - 1] == last;
    }
  }

  /** Every kept line contributes its entry. */
  lemma {:induction false} TocContainsKept(lines: seq<string>, words: seq<string>, indent: string, j: nat)
    requires j < |lines| && Keep(lines[j], words)
    ensures Entry(lines[j], indent) in TocOf(lines, words, indent)
  {
    var init := lines[..|lines| - 1];
    if j < |init| {
      TocContainsKept(init, words, indent, j);
      assert init[j] == lines[j];
    }
  }

  /** The `####` entry of the report list adds nothing: every line with `####` has `###`. */
  lemma FourHashesSubsumed(line: string)
    requires Contains(line, "####")
    ensures Contains(line, "###")
  {
    var i :| 0 <= i <= |line| - 4 && OccursAt(line, "####", i);
    assert line[i..i + 4] == "####";
    assert line[i..i + 3] == line[i..i + 4][..3];
    assert line[i..i + 3] == "###";
    assert OccursAt(line, "###", i);
  }

  /** Under the report list, a line with `###` produces nothing. */
  lemma ReportDropsDeepHeadings(line: string)
    requires Contains(line, "###")
    ensures LineOutput(line, ReportForbidden, ReportIndent) == []
  {
    assert ReportForbidden[5] == "###";
  }

  /** `# Usage` becomes `* [Usage](#usage)` in the root script. */
  lemma UsageExample()
    ensures Keep("# Usage", DeveloperGuideForbidden)
    ensures LineOutput("# Usage", DeveloperGuideForbidden, DeveloperGuideIndent) == ["* [Usage](#usage)"]
  {
    var name := "Usage";
    assert name == ['U', 's', 'a', 'g', 'e'];
    assert "# " + name == "# Usage";
    HeadingEntry(name, DeveloperGuideIndent);
    UsageKept();
    UsageDowncase();
    UsageEntryText();
  }

  lemma UsageEntryText()
    ensures "* [" + "Usage" + "](#" + "usage" + ")" == "* [Usage](#usage)"
  {
  }

  /**
   * A level-1 heading `# name`, for a single word without `#` or `:`, gives
   * an unindented entry whose title is the word and whose anchor is the word
   * in lower case.
   */
  lemma HeadingEntry(name: string, indent: string)
    requires name != [] && forall c | c in name :: !IsSpace(c) && c != '#' && c != ':'
    ensures StartsWithHash("# " + name)
    ensures Entry("# " + name, indent) == "* [" + name + "](#" + Downcase(name) + ")"
  {
    var line := "# " + name;
    HeadingDepth(name);
    HeadingTitle(name);
    assert ' ' !in name && ':' !in name;
    ReplaceAbsent(name, ' ', '-');
    DeleteAbsent(name, ':');
    assert Anchor(name) == Downcase(name);
    assert Repeat(indent, 0) == [];
    assert Entry(line, indent) == Repeat(indent, Depth(line)) + "* [" + Title(line) + "](#" + Anchor(Title(line)) + ")";
    assert [] + "* [" == "* [";
  }

  /** A line `# name` with no further `#` has depth 0. */
  lemma HeadingDepth(name: string)
    requires '#' !in name
    ensures StartsWithHash("# " + name) && Depth("# " + name) == 0
  {
    var line, rest := "# " + name, " " + name;
    assert line == "#" + rest;
    assert '#' !in rest;
    CountAppend("#", rest, '#');
    assert "#"[..0] == [];
    CountAbsent(rest, '#');
  }

  /** The title of `# name` is name, when name has no `#` and no whitespace at either end. */
  lemma HeadingTitle(name: string)
    requires name != [] && '#' !in name && !IsSpace(name[0]) && !IsSpace(name[|name| - 1])
    ensures Title("# " + name) == name
  {
    var line, rest := "# " + name, " " + name;
    assert line == "#" + rest;
    assert '#' !in rest;
    DeleteAppend("#", rest, '#');
    DeleteHash();
    DeleteAbsent(rest, '#');
    assert Delete(line, '#') == rest;
    assert rest[1..] == name && IsSpace(rest[0]);
    assert StripLeading(name) == name;
    assert StripLeading(rest) == name;
    assert StripTrailing(name) == name;
  }

  lemma DeleteHash()
    ensures Delete("#", '#') == []
  {
    assert "#"[..0] == [];
  }

  lemma UsageKept()
    ensures !HasForbidden("# Usage", DeveloperGuideForbidden)
  {
    forall k | 0 <= k < 5 ensures !Contains("# Usage", DeveloperGuideForbidden[k]) {
      NotContained("# Usage", DeveloperGuideForbidden[k], k);
    }
  }

  lemma UsageDowncase()
    ensures Downcase("Usage") == "usage"
  {
    var d := Downcase("Usage");
    assert |d| == 5;
    assert d[0] == ToLower('U') == 'u';
    assert d[1] == 's' && d[2] == 'a' && d[3] == 'g' && d[4] == 'e';
  }

  lemma {:induction false} CountAppend(s: string, t: string, c: char)
    ensures Count(s + t, c) == Count(s, c) + Count(t, c)
    decreases |t|
  {
    if t == [] {
      assert s + t == s;
    } else {
      assert (s + t)[..|s + t| - 1] == s + t[..|t| - 1];
      CountAppend(s, t[..|t| - 1], c);
    }
  }

  lemma {:induction false} CountAbsent(s: string, c: char)
    requires c !in s
    ensures Count(s, c) == 0
  {
    if s != [] {
      CountAbsent(s[..|s| - 1], c);
    }
  }

  lemma NotContained(line: string, w: string, k: nat)
    requires line == "# Usage" && k < 5 && w == DeveloperGuideForbidden[k]
    ensures !Contains(line, w)
  {
    if k != 4 && k != 1 && k != 2 {
      assert |w| > |line|;
    } else {
      forall i | 0 <= i <= |line| - |w| ensures !OccursAt(line, w, i) {
        assert line[i] != w[0];
      }
    }
  }
}
