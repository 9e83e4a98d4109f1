/**
 * The server's Markdown-to-HTML converter: a fixed pipeline of regular-expression
 * rewrites applied one after the other to the model's reply. Each rewrite is
 * modelled as a function on strings with the matching rules of JavaScript's
 * `String.prototype.replace` for that expression.
 */
module Markdown {
  import opened Wrappers
  import opened Text

  predicate StartsWith(s: string, p: string) {
    |p| <= |s| && s[..|p|] == p
  }

  /** The index of the first line terminator of `s`, or `|s|`: where a multiline `$` first matches. */
  function LineEnd(s: string): (i: nat)
    ensures i <= |s|
    ensures i < |s| ==> IsLineTerminator(s[i])
    ensures forall k | 0 <= k < i :: !IsLineTerminator(s[k])
  {
    if s == [] || IsLineTerminator(s[0]) then 0 else 1 + LineEnd(s[1..])
  }

  /** One line rewritten by `/^MARKER(.*$)/` with replacement OPEN + `$1` + CLOSE. */
  function RewriteLine(line: string, marker: string, open: string, close: string): string {
    if StartsWith(line, marker) then open + line[|marker|..] + close else line
  }

  /**
   * `s.replace(/^MARKER(.*$)/gim, OPEN + '$1' + CLOSE)`: in multiline mode `^` matches at the
   * start of every line and `.*$` runs to the line's end, so every line that begins with
   * the marker loses it and is wrapped; line terminators are kept.
   */
  function RewriteLines(s: string, marker: string, open: string, close: string): string
    decreases |s|
  {
    var i := LineEnd(s);
    var line := RewriteLine(s[..i], marker, open, close);
    if i == |s| then line else line + [s[i]] + RewriteLines(s[i + 1..], marker, open, close)
  }

  /**
   * Where a lazy `(.*?)DELIM` that starts matching at `i` stops: the first occurrence of
   * the delimiter at or after `i` not preceded by a line terminator (`.` matches none).
   */
  function FindClose(s: string, i: nat, delim: string): (r: Option<nat>)
    requires |delim| > 0
    ensures r.Some? ==> i <= r.value && OccursAt(s, delim, r.value)
    ensures r.Some? ==> forall k | i <= k < r.value :: !IsLineTerminator(s[k]) && !OccursAt(s, delim, k)
    ensures r.None? ==> forall q | i <= q && OccursAt(s, delim, q) :: exists k :: i <= k < q && IsLineTerminator(s[k])
    decreases |s| - i
  {
    if OccursAt(s, delim, i) then Some(i)
    else if i >= |s| || IsLineTerminator(s[i]) then None
    else FindClose(s, i + 1, delim)
  }

  /**
   * `s.replace(/DELIM(.*?)DELIM/g, OPEN + '$1' + CLOSE)`: scanning left to right, an opening
   * delimiter with a closing one later on the same line is rewritten together with the
   * text between them; an opening delimiter without one is left as it is.
   */
  function Emphasis(s: string, delim: string, open: string, close: string): string
    requires |delim| > 0
    decreases |s|
  {
    if |s| == 0 then s
    else if StartsWith(s, delim) then
      match FindClose(s, |delim|, delim)
      case Some(q) => open + s[|delim|..q] + close + Emphasis(s[q + |delim|..], delim, open, close)
      case None => [s[0]] + Emphasis(s[1..], delim, open, close)
    else [s[0]] + Emphasis(s[1..], delim, open, close)
  }

  /** The first occurrence of `pat` at or after `from`. */
  function FirstOccurrence(s: string, pat: string, from: nat): (r: Option<nat>)
    ensures r.Some? ==> from <= r.value && OccursAt(s, pat, r.value)
    ensures r.Some? ==> forall k | from <= k < r.value :: !OccursAt(s, pat, k)
    ensures r.None? ==> forall k | from <= k :: !OccursAt(s, pat, k)
    decreases |s| - from
  {
    if from + |pat| > |s| then None
    else if OccursAt(s, pat, from) then Some(from)
    else FirstOccurrence(s, pat, from + 1)
  }

  /** The last occurrence of `pat` at or after `from`. */
  function LastOccurrence(s: string, pat: string, from: nat): (r: Option<nat>)
    ensures r.Some? ==> from <= r.value && OccursAt(s, pat, r.value)
    ensures r.Some? ==> forall k | r.value < k :: !OccursAt(s, pat, k)
    ensures r.None? ==> forall k | from <= k :: !OccursAt(s, pat, k)
    decreases |s|
  {
    if from + |pat| > |s| then None
    else if OccursAt(s, pat, |s| - |pat|) then Some(|s| - |pat|)
    else
      var r := LastOccurrence(s[..|s| - 1], pat, from);
      assert forall k | 0 <= k && k + |pat| <= |s| - 1 :: OccursAt(s[..|s| - 1], pat, k) == OccursAt(s, pat, k) by {
        forall k | 0 <= k && k + |pat| <= |s| - 1 ensures OccursAt(s[..|s| - 1], pat, k) == OccursAt(s, pat, k) {
          assert s[..|s| - 1][k..k + |pat|] == s[k..k + |pat|];
        }
      }
      r
  }

  /**
   * `s.replace(/(<li>.*<\/li>)/s, '<ul>$1</ul>')`, which is neither global nor multiline but
   * dot-all: one `<ul>` opens before the first `<li>` and one `</ul>` closes after the last
   * `</li>` that follows it, whatever lies in between.
   */
  function WrapList(s: string): (r: string)
    ensures r == s || exists p, q :: && OccursAt(s, "<li>", p) && (forall k | 0 <= k < p :: !OccursAt(s, "<li>", k))
                                     && p + 4 <= q && OccursAt(s, "</li>", q) && (forall k | q < k :: !OccursAt(s, "</li>", k))
                                     && r == s[..p] + "<ul>" + s[p..q + 5] + "</ul>" + s[q + 5..]
    ensures r == s ==> forall p, q | OccursAt(s, "<li>", p) && p + 4 <= q :: !OccursAt(s, "</li>", q)
  {
    match FirstOccurrence(s, "<li>", 0)
    case None => s
    case Some(p) =>
      match LastOccurrence(s, "</li>", p + 4)
      case None =>
        assert forall p', q | OccursAt(s, "<li>", p') && p' + 4 <= q :: !OccursAt(s, "</li>", q) by {
          forall p', q | OccursAt(s, "<li>", p') && p' + 4 <= q ensures !OccursAt(s, "</li>", q) {
            assert p <= p';
          }
        }
        s
      case Some(q) =>
        var r := s[..p] + "<ul>" + s[p..q + 5] + "</ul>" + s[q + 5..];
        assert r != s by { assert |r| == |s| + 9; }
        r
  }

  /** `s.replace(/<\/h([1-6])><\/p>/g, '</h$1>')`: a paragraph close right after a heading close is dropped. */
  function CloseHeadings(s: string): string
    decreases |s|
  {
    if |s| < 9 then s
    else if s[..3] == "</h" && '1' <= s[3] <= '6' && s[4..9] == "></p>" then s[..5] + CloseHeadings(s[9..])
    else [s[0]] + CloseHeadings(s[1..])
  }

  /** The three heading rewrites, level 3 first, so that `### ` is never read as `# `. */
  function Headings(s: string): string {
    var h3 := RewriteLines(s, "### ", "<h3>", "</h3>");
    var h2 := RewriteLines(h3, "## ", "<h2>", "</h2>");
    RewriteLines(h2, "# ", "<h1>", "</h1>")
  }

  /** Bold, then italic, so that `**` is never read as two single stars. */
  function Emphases(s: string): string {
    var bold := Emphasis(s, "**", "<strong>", "</strong>");
    Emphasis(bold, "*", "<em>", "</em>")
  }

  /** `markdownToHTML`: the whole pipeline, in the order the source applies it. */
  function MarkdownToHtml(markdown: string): string {
    var emphasised := Emphases(Headings(markdown));
    var listed := WrapList(RewriteLines(emphasised, "- ", "<li>", "</li>"));
    var paragraphs := "<p>" + ReplaceAll(listed, "\n\n", "</p><p>") + "</p>";
    var c1 := ReplaceAll(paragraphs, "<p><h", "<h");
    var c2 := CloseHeadings(c1);
    var c3 := ReplaceAll(c2, "<p><ul>", "<ul>");
    ReplaceAll(c3, "</ul></p>", "</ul>")
  }

  // ---------------------------------------------------------------------------
  // No blank line survives the conversion

  /** `s` holds no two consecutive newlines: no blank line separates two blocks. */
  predicate NoBlankLine(s: string) {
    forall i | 0 <= i < |s| - 1 :: !(s[i] == '\n' && s[i + 1] == '\n')
  }

  lemma NoBlankLineConcat(a: string, b: string)
    requires NoBlankLine(a) && NoBlankLine(b)
    requires a == [] || b == [] || a[|a| - 1] != '\n' || b[0] != '\n'
    ensures NoBlankLine(a + b)
  {
    forall i | 0 <= i < |a + b| - 1 ensures !((a + b)[i] == '\n' && (a + b)[i + 1] == '\n') {
      if i + 1 < |a| {
        assert (a + b)[i] == a[i] && (a + b)[i + 1] == a[i + 1];
      } else if i >= |a| {
        assert (a + b)[i] == b[i - |a|] && (a + b)[i + 1] == b[i + 1 - |a|];
      }
    }
  }

  lemma NoBlankLineSuffix(s: string, k: nat)
    requires NoBlankLine(s) && k <= |s|
    ensures NoBlankLine(s[k..])
  {
    forall i | 0 <= i < |s[k..]| - 1 ensures !(s[k..][i] == '\n' && s[k..][i + 1] == '\n') {
      assert s[k..][i] == s[k + i] && s[k..][i + 1] == s[k + i + 1];
    }
  }

  /** A replacement result starts with the input's first character or the replacement's. */
  lemma ReplaceAllHead(s: string, pat: string, rep: string)
    requires |pat| > 0 && |rep| > 0 && s != []
    ensures ReplaceAll(s, pat, rep) != []
    ensures ReplaceAll(s, pat, rep)[0] == s[0] || ReplaceAll(s, pat, rep)[0] == rep[0]
  {
  }

  /** Replacing every double newline by a paragraph boundary leaves no double newline behind. */
  lemma {:induction false} ParagraphBreaksRemoveBlankLines(s: string)
    ensures NoBlankLine(ReplaceAll(s, "\n\n", "</p><p>"))
    decreases |s|
  {
    var rep := "</p><p>";
    if |s| < 2 {
    } else if s[..2] == "\n\n" {
      ParagraphBreaksRemoveBlankLines(s[2..]);
      NoBlankLineConcat(rep, ReplaceAll(s[2..], "\n\n", rep));
    } else {
      ParagraphBreaksRemoveBlankLines(s[1..]);
      ReplaceAllHead(s[1..], "\n\n", rep);
      assert s[0] == '\n' ==> s[1] != '\n' by {
        assert s[..2] == [s[0], s[1]];
      }
      NoBlankLineConcat([s[0]], ReplaceAll(s[1..], "\n\n", rep));
    }
  }

  /** A replacement whose text neither starts nor ends with a newline creates no blank line. */
  lemma {:induction false} ReplaceAllKeepsNoBlankLine(s: string, pat: string, rep: string)
    requires |pat| > 0 && |rep| > 0 && rep[0] != '\n' && rep[|rep| - 1] != '\n' && NoBlankLine(rep)
    requires NoBlankLine(s)
    ensures NoBlankLine(ReplaceAll(s, pat, rep))
    decreases |s|
  {
    if |s| < |pat| {
    } else if s[..|pat|] == pat {
      NoBlankLineSuffix(s, |pat|);
      ReplaceAllKeepsNoBlankLine(s[|pat|..], pat, rep);
      NoBlankLineConcat(rep, ReplaceAll(s[|pat|..], pat, rep));
    } else {
      NoBlankLineSuffix(s, 1);
      ReplaceAllKeepsNoBlankLine(s[1..], pat, rep);
      if |s| > 1 {
        ReplaceAllHead(s[1..], pat, rep);
      }
      NoBlankLineConcat([s[0]], ReplaceAll(s[1..], pat, rep));
    }
  }

  /** Dropping a paragraph close after a heading close keeps the first character. */
  lemma CloseHeadingsHead(s: string)
    requires s != []
    ensures CloseHeadings(s) != [] && CloseHeadings(s)[0] == s[0]
  {
  }

  lemma {:induction false} CloseHeadingsKeepsNoBlankLine(s: string)
    requires NoBlankLine(s)
    ensures NoBlankLine(CloseHeadings(s))
    decreases |s|
  {
    if |s| < 9 {
    } else if s[..3] == "</h" && '1' <= s[3] <= '6' && s[4..9] == "></p>" {
      NoBlankLineSuffix(s, 9);
      CloseHeadingsKeepsNoBlankLine(s[9..]);
      assert s[..5][4] == '>';
      NoBlankLineConcat(s[..5], CloseHeadings(s[9..]));
    } else {
      NoBlankLineSuffix(s, 1);
      CloseHeadingsKeepsNoBlankLine(s[1..]);
      CloseHeadingsHead(s[1..]);
      NoBlankLineConcat([s[0]], CloseHeadings(s[1..]));
    }
  }

  /** Wrapping in a paragraph after turning blank lines into breaks leaves no blank line. */
  lemma WrappedHasNoBlankLine(listed: string)
    ensures NoBlankLine("<p>" + ReplaceAll(listed, "\n\n", "</p><p>") + "</p>")
  {
    var body := ReplaceAll(listed, "\n\n", "</p><p>");
    ParagraphBreaksRemoveBlankLines(listed);
    NoBlankLineConcat("<p>", body);
    NoBlankLineConcat("<p>" + body, "</p>");
  }

  /** The clean-up rewrites after the paragraph wrap never make a blank line. */
  lemma CleanupsKeepNoBlankLine(paragraphs: string)
    requires NoBlankLine(paragraphs)
    ensures NoBlankLine(ReplaceAll(ReplaceAll(CloseHeadings(ReplaceAll(paragraphs, "<p><h", "<h")), "<p><ul>", "<ul>"), "</ul></p>", "</ul>"))
  {
    ReplaceAllKeepsNoBlankLine(paragraphs, "<p><h", "<h");
    var c1 := ReplaceAll(paragraphs, "<p><h", "<h");
    CloseHeadingsKeepsNoBlankLine(c1);
    var c2 := CloseHeadings(c1);
    ReplaceAllKeepsNoBlankLine(c2, "<p><ul>", "<ul>");
    var c3 := ReplaceAll(c2, "<p><ul>", "<ul>");
    ReplaceAllKeepsNoBlankLine(c3, "</ul></p>", "</ul>");
  }

  /** Whatever the reply, the HTML holds no blank line: every one became a paragraph boundary. */
  lemma OutputHasNoBlankLine(markdown: string)
    ensures NoBlankLine(MarkdownToHtml(markdown))
  {
    var listed := WrapList(RewriteLines(Emphases(Headings(markdown)), "- ", "<li>", "</li>"));
    WrappedHasNoBlankLine(listed);
    CleanupsKeepNoBlankLine("<p>" + ReplaceAll(listed, "\n\n", "</p><p>") + "</p>");
  }

  // ---------------------------------------------------------------------------
  // Text without markup becomes one paragraph

  /** No character that any rewrite of the pipeline looks for, and no blank line. */
  predicate PlainText(s: string) {
    && (forall i | 0 <= i < |s| :: s[i] != '#' && s[i] != '*' && s[i] != '-' && s[i] != '<')
    && NoBlankLine(s)
  }

  /** A line rewrite leaves text alone when no character of it can begin the marker. */
  lemma {:induction false} RewriteLinesUnchanged(s: string, marker: string, open: string, close: string)
    requires |marker| > 0 && marker[0] !in s
    ensures RewriteLines(s, marker, open, close) == s
    decreases |s|
  {
    var i := LineEnd(s);
    if |marker| <= i {
      assert s[..i][..|marker|][0] == s[0];
    }
    assert RewriteLine(s[..i], marker, open, close) == s[..i];
    if i < |s| {
      assert marker[0] !in s[i + 1..];
      RewriteLinesUnchanged(s[i + 1..], marker, open, close);
      assert s == s[..i] + [s[i]] + s[i + 1..];
    }
  }

  /** An emphasis rewrite leaves text alone when its delimiter never occurs. */
  lemma {:induction false} EmphasisUnchanged(s: string, delim: string, open: string, close: string)
    requires |delim| > 0
    requires forall i | 0 <= i < |s| :: !OccursAt(s, delim, i)
    ensures Emphasis(s, delim, open, close) == s
    decreases |s|
  {
    if s != [] {
      assert !OccursAt(s, delim, 0);
      forall i | 0 <= i < |s[1..]| ensures !OccursAt(s[1..], delim, i) {
        assert !OccursAt(s, delim, i + 1);
        if i + |delim| <= |s[1..]| {
          assert s[1..][i..i + |delim|] == s[i + 1..i + 1 + |delim|];
        }
      }
      EmphasisUnchanged(s[1..], delim, open, close);
      assert s == [s[0]] + s[1..];
    }
  }

  /** A pattern whose first character is absent from `s` never occurs in it. */
  lemma AbsentHead(s: string, pat: string)
    requires |pat| > 0 && pat[0] !in s
    ensures forall i | 0 <= i < |s| :: !OccursAt(s, pat, i)
  {
    forall i | 0 <= i < |s| ensures !OccursAt(s, pat, i) {
      if i + |pat| <= |s| {
        assert s[i..i + |pat|][0] == s[i];
      }
    }
  }

  /** The paragraph wrapper of `s` where `s` has no `<`: it holds `<` only at its two tags. */
  lemma WrappedTags(s: string, k: nat)
    requires '<' !in s && k < |"<p>" + s + "</p>"|
    ensures ("<p>" + s + "</p>")[k] == '<' ==> k == 0 || k == |s| + 3
  {
    var w := "<p>" + s + "</p>";
    if 3 <= k < |s| + 3 {
      assert w[k] == s[k - 3];
    }
  }

  /** A cleanup pattern that does not match at the front of the wrapper leaves it unchanged. */
  lemma WrappedUntouched(s: string, pat: string, rep: string)
    requires '<' !in s && |pat| >= 5 && pat[0] == '<'
    requires !OccursAt("<p>" + s + "</p>", pat, 0)
    ensures ReplaceAll("<p>" + s + "</p>", pat, rep) == "<p>" + s + "</p>"
  {
    var w := "<p>" + s + "</p>";
    var t := "<p>" + s;
    forall i | 0 <= i < |t| ensures !OccursAt(t + "</p>", pat, i) {
      assert t + "</p>" == w;
      if 0 < i && i + |pat| <= |w| {
        WrappedTags(s, i);
        assert w[i..i + |pat|][0] == w[i];
      }
    }
    assert t + "</p>" == w;
    ReplaceAllKeeps(t, "</p>", pat, rep);
  }

  /** Dropping a first character keeps a pattern absent. */
  lemma AbsentInTail(s: string, pat: string)
    requires s != [] && forall i | 0 <= i < |s| :: !OccursAt(s, pat, i)
    ensures forall i | 0 <= i < |s[1..]| :: !OccursAt(s[1..], pat, i)
  {
    forall i | 0 <= i < |s[1..]| ensures !OccursAt(s[1..], pat, i) {
      assert !OccursAt(s, pat, i + 1);
      if i + |pat| <= |s[1..]| {
        assert s[1..][i..i + |pat|] == s[i + 1..i + 1 + |pat|];
      }
    }
  }

  /** Without any `</h` there is no heading close to rewrite. */
  lemma {:induction false} CloseHeadingsUnchanged(s: string)
    requires forall i | 0 <= i < |s| :: !OccursAt(s, "</h", i)
    ensures CloseHeadings(s) == s
    decreases |s|
  {
    if |s| >= 9 {
      assert !OccursAt(s, "</h", 0);
      AbsentInTail(s, "</h");
      CloseHeadingsUnchanged(s[1..]);
      assert s == [s[0]] + s[1..];
    }
  }

  /** Without `#` no heading rewrite applies. */
  lemma HeadingsUnchanged(s: string)
    requires '#' !in s
    ensures Headings(s) == s
  {
    RewriteLinesUnchanged(s, "### ", "<h3>", "</h3>");
    RewriteLinesUnchanged(s, "## ", "<h2>", "</h2>");
    RewriteLinesUnchanged(s, "# ", "<h1>", "</h1>");
  }

  /** Without `*` no emphasis rewrite applies. */
  lemma EmphasesUnchanged(s: string)
    requires '*' !in s
    ensures Emphases(s) == s
  {
    AbsentHead(s, "**");
    EmphasisUnchanged(s, "**", "<strong>", "</strong>");
    AbsentHead(s, "*");
    EmphasisUnchanged(s, "*", "<em>", "</em>");
  }

  /** Without `-` and `<` no list item is made and no list is wrapped. */
  lemma ListsUnchanged(s: string)
    requires '-' !in s && '<' !in s
    ensures WrapList(RewriteLines(s, "- ", "<li>", "</li>")) == s
  {
    RewriteLinesUnchanged(s, "- ", "<li>", "</li>");
    AbsentHead(s, "<li>");
    assert FirstOccurrence(s, "<li>", 0).None?;
  }

  /** Without a blank line there is no paragraph break to insert. */
  lemma ParagraphBreaksUnchanged(s: string)
    requires NoBlankLine(s)
    ensures ReplaceAll(s, "\n\n", "</p><p>") == s
  {
    forall i | 0 <= i < |s| ensures !OccursAt(s, "\n\n", i) {
      if i + 2 <= |s| {
        assert s[i..i + 2] == [s[i], s[i + 1]];
      }
    }
    ReplaceAllAbsent(s, "\n\n", "</p><p>");
  }

  /** The block-level rewrites before the paragraph wrap leave plain text unchanged. */
  lemma PlainTextBeforeWrap(s: string)
    requires PlainText(s)
    ensures ReplaceAll(WrapList(RewriteLines(Emphases(Headings(s)), "- ", "<li>", "</li>")), "\n\n", "</p><p>") == s
  {
    HeadingsUnchanged(s);
    EmphasesUnchanged(s);
    ListsUnchanged(s);
    ParagraphBreaksUnchanged(s);
  }

  /** The paragraph wrapper of text without `<` holds no heading close. */
  lemma WrappedNoHeadingClose(s: string)
    requires '<' !in s
    ensures forall i | 0 <= i < |"<p>" + s + "</p>"| :: !OccursAt("<p>" + s + "</p>", "</h", i)
  {
    var w := "<p>" + s + "</p>";
    assert w[..3] == "<p>";
    assert w[|s| + 3..] == "</p>";
    forall i | 0 <= i < |w| ensures !OccursAt(w, "</h", i) {
      if i + 3 <= |w| {
        WrappedTags(s, i);
        assert w[i..i + 3][0] == w[i];
        if i == 0 {
          assert w[i..i + 3][1] == w[..3][1] == 'p';
        } else if i == |s| + 3 {
          assert w[i..i + 3][2] == w[|s| + 3..][2] == 'p';
        }
      }
    }
  }

  /** The clean-up rewrites after the paragraph wrap leave a wrapped plain text unchanged. */
  lemma PlainTextCleanups(s: string)
    requires '<' !in s
    ensures var w := "<p>" + s + "</p>";
            ReplaceAll(ReplaceAll(CloseHeadings(ReplaceAll(w, "<p><h", "<h")), "<p><ul>", "<ul>"), "</ul></p>", "</ul>") == w
  {
    var w := "<p>" + s + "</p>";
    assert w[..3] == "<p>";
    if s == [] {
      assert w == "<p></p>";
    } else {
      assert w[3] == s[0];
    }
    assert !OccursAt(w, "<p><h", 0) by {
      if |w| >= 5 {
        assert w[0..5][3] == w[3] && w[0..5][4] == w[4];
      }
    }
    WrappedUntouched(s, "<p><h", "<h");
    WrappedNoHeadingClose(s);
    CloseHeadingsUnchanged(w);
    assert !OccursAt(w, "<p><ul>", 0) by {
      if |w| >= 7 {
        assert w[0..7][3] == w[3] && w[0..7][4] == w[4];
      }
    }
    WrappedUntouched(s, "<p><ul>", "<ul>");
    assert !OccursAt(w, "</ul></p>", 0) by {
      if |w| >= 9 {
        assert w[0..9][1] == w[1];
      }
    }
    WrappedUntouched(s, "</ul></p>", "</ul>");
  }

  /** Text free of markup characters and blank lines comes out as one paragraph, verbatim. */
  lemma PlainTextIsOneParagraph(s: string)
    requires PlainText(s)
    ensures MarkdownToHtml(s) == "<p>" + s + "</p>"
  {
    PlainTextBeforeWrap(s);
    PlainTextCleanups(s);
  }

  // ---------------------------------------------------------------------------
  // Headings and emphasis on one line

  /** `s` lies on one line. */
  predicate SingleLine(s: string) {
    forall i | 0 <= i < |s| :: !IsLineTerminator(s[i])
  }

  lemma RewriteLinesOfOneLine(line: string, marker: string, open: string, close: string)
    requires SingleLine(line)
    ensures RewriteLines(line, marker, open, close) == RewriteLine(line, marker, open, close)
  {
    assert line[..|line|] == line;
  }

  lemma RewriteLineStaysOneLine(line: string, marker: string, open: string, close: string)
    requires SingleLine(line) && SingleLine(open) && SingleLine(close)
    ensures SingleLine(RewriteLine(line, marker, open, close))
  {
    if StartsWith(line, marker) {
      var r := open + line[|marker|..] + close;
      forall i | 0 <= i < |r| ensures !IsLineTerminator(r[i]) {
        if i < |open| {
          assert r[i] == open[i];
        } else if i < |open| + |line| - |marker| {
          assert r[i] == line[i - |open| + |marker|];
        } else {
          assert r[i] == close[i - |open| - |line| + |marker|];
        }
      }
    }
  }

  /** On one line the three heading rewrites act as three single-line rewrites in turn. */
  lemma HeadingsOfOneLine(line: string)
    requires SingleLine(line)
    ensures Headings(line)
            == RewriteLine(RewriteLine(RewriteLine(line, "### ", "<h3>", "</h3>"), "## ", "<h2>", "</h2>"), "# ", "<h1>", "</h1>")
  {
    RewriteLinesOfOneLine(line, "### ", "<h3>", "</h3>");
    RewriteLineStaysOneLine(line, "### ", "<h3>", "</h3>");
    var h3 := RewriteLine(line, "### ", "<h3>", "</h3>");
    RewriteLinesOfOneLine(h3, "## ", "<h2>", "</h2>");
    RewriteLineStaysOneLine(h3, "## ", "<h2>", "</h2>");
    var h2 := RewriteLine(h3, "## ", "<h2>", "</h2>");
    RewriteLinesOfOneLine(h2, "# ", "<h1>", "</h1>");
  }

  /** A tag, starting with `<`, never starts with a `#` marker. */
  lemma TagIsNoMarker(s: string, marker: string)
    requires s != [] && s[0] == '<' && marker != [] && marker[0] == '#'
    ensures !StartsWith(s, marker)
  {
    if |marker| <= |s| {
      assert s[..|marker|][0] == s[0];
    }
  }

  /**
   * A line opening with one, two or three `#` and a space becomes a heading of that level
   * without its marker; the deeper marker is tried first, so `### ` never yields `<h1>`.
   */
  lemma HeadingLevels(line: string)
    requires SingleLine(line)
    ensures StartsWith(line, "### ") ==> Headings(line) == "<h3>" + line[4..] + "</h3>"
    ensures StartsWith(line, "## ") ==> Headings(line) == "<h2>" + line[3..] + "</h2>"
    ensures StartsWith(line, "# ") ==> Headings(line) == "<h1>" + line[2..] + "</h1>"
    ensures !StartsWith(line, "### ") && !StartsWith(line, "## ") && !StartsWith(line, "# ") ==> Headings(line) == line
  {
    HeadingsOfOneLine(line);
    var h3 := RewriteLine(line, "### ", "<h3>", "</h3>");
    var h2 := RewriteLine(h3, "## ", "<h2>", "</h2>");
    if StartsWith(line, "### ") {
      TagIsNoMarker(h3, "## ");
      TagIsNoMarker(h3, "# ");
      assert !StartsWith(line, "## ") by { assert line[..3][2] == line[..4][2]; }
      assert !StartsWith(line, "# ") by { assert line[..2][1] == line[..4][1]; }
    } else if StartsWith(line, "## ") {
      TagIsNoMarker(h2, "# ");
      assert !StartsWith(line, "# ") by { assert line[..2][1] == line[..3][1]; }
    } else if StartsWith(line, "# ") {
      assert !StartsWith(line, "## ") by {
        if |line| >= 3 {
          assert line[..3][1] == line[..2][1];
        }
      }
    }
  }

  /** The lazy match from `|delim|` stops at `n` when the delimiter occurs there and not before, on one line. */
  lemma FindCloseAt(s: string, delim: string, n: nat)
    requires |delim| > 0 && |delim| <= n && OccursAt(s, delim, n)
    requires forall k | |delim| <= k < n :: !IsLineTerminator(s[k]) && !OccursAt(s, delim, k)
    ensures FindClose(s, |delim|, delim) == Some(n)
  {
  }

  /** A delimiter pair around text on one line in which the delimiter does not start is rewritten whole. */
  lemma EmphasisOfPair(t: string, delim: string, open: string, close: string)
    requires |delim| > 0 && SingleLine(t)
    requires forall k | |delim| <= k < |delim| + |t| :: !OccursAt(delim + t + delim, delim, k)
    ensures Emphasis(delim + t + delim, delim, open, close) == open + t + close
  {
    var s := delim + t + delim;
    var n := |delim| + |t|;
    assert s[..|delim|] == delim;
    assert s[n..n + |delim|] == delim;
    forall k | |delim| <= k < n ensures !IsLineTerminator(s[k]) {
      assert s[k] == t[k - |delim|];
    }
    FindCloseAt(s, delim, n);
    assert s[|delim|..n] == t;
    assert s[n + |delim|..] == [];
    assert Emphasis([], delim, open, close) == [];
    assert open + t + close + [] == open + t + close;
  }

  /** Bold is matched first: `**t**` on one line becomes `<strong>t</strong>` for text `t` without stars. */
  lemma BoldPair(t: string)
    requires SingleLine(t) && '*' !in t
    ensures Emphases("**" + t + "**") == "<strong>" + t + "</strong>"
  {
    var s := "**" + t + "**";
    forall k | 2 <= k < 2 + |t| ensures !OccursAt(s, "**", k) {
      assert s[k] == t[k - 2];
      if k + 2 <= |s| {
        assert s[k..k + 2][0] == s[k];
      }
    }
    EmphasisOfPair(t, "**", "<strong>", "</strong>");
    var bold := "<strong>" + t + "</strong>";
    assert '*' !in bold;
    AbsentHead(bold, "*");
    EmphasisUnchanged(bold, "*", "<em>", "</em>");
  }

  /** Stars around non-empty text without stars never stand side by side. */
  lemma NoDoubleStarInPair(t: string)
    requires '*' !in t && t != []
    ensures forall i | 0 <= i < |"*" + t + "*"| :: !OccursAt("*" + t + "*", "**", i)
  {
    var u := "*" + t + "*";
    forall i | 0 <= i < |u| ensures !OccursAt(u, "**", i) {
      if i + 2 <= |u| {
        assert u[i..i + 2] == [u[i], u[i + 1]];
        if i == 0 {
          assert u[1] == t[0];
        } else if i <= |t| {
          assert u[i] == t[i - 1];
        }
      }
    }
  }

  /** A single star pair is left to the italic rewrite: `*t*` becomes `<em>t</em>` for non-empty `t` without stars. */
  lemma ItalicPair(t: string)
    requires SingleLine(t) && '*' !in t && t != []
    ensures Emphases("*" + t + "*") == "<em>" + t + "</em>"
  {
    var u := "*" + t + "*";
    NoDoubleStarInPair(t);
    EmphasisUnchanged(u, "**", "<strong>", "</strong>");
    forall k | 1 <= k < 1 + |t| ensures !OccursAt(u, "*", k) {
      assert u[k] == t[k - 1];
    }
    EmphasisOfPair(t, "*", "<em>", "</em>");
  }
}
