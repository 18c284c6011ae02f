/**
 * `SimpleMarkdown`, the line classifier that renders notes and Q&A
 * solutions. Notes and Q&A carry identical copies of it; this module is
 * the one model of both.
 *
 * The content is split on new-line characters; each line becomes one block.
 * The prefixes are tested in the order `###`, `##`, `#`, `* `; then a
 * whitespace-only line is a line break; any other line is a paragraph in
 * which `**x**` is rewritten to `<strong>x</strong>` by the global, lazy
 * regular expression `/\*\*(.*?)\*\*\/g`, specified here by a scanner.
 */
module SimpleMarkdown {

  import opened Wrappers
  import opened JsString

  /** What one line renders as: a heading, a list item, a line break or a paragraph's HTML. */
  datatype Block = H3(text: string) | H2(text: string) | H1(text: string)
                 | ListItem(text: string) | LineBreak | Paragraph(html: string)

  /** The characters `.` does not match in a JavaScript regular expression. */
  predicate IsLineTerminator(c: char) {
    c == '\n' || c == '\r' || c == '\U{2028}' || c == '\U{2029}'
  }

  /** A closing `**` at `j` for an opening whose content starts at `from`: `.` reaches it. */
  ghost predicate ClosesAt(s: string, from: nat, j: nat) {
    OccursAt(s, "**", j) && forall k :: from <= k < j ==> !IsLineTerminator(s[k])
  }

  /**
   * Where the lazy `(.*?)\*\*` whose content starts at `from` ends: the first
   * `**` at or after `from`, provided no line terminator comes before it.
   */
  function CloseAt(s: string, from: nat): (r: Option<nat>)
    requires from <= |s|
    ensures r.Some? ==> from <= r.value && ClosesAt(s, from, r.value)
    ensures r.Some? ==> forall k :: from <= k < r.value ==> !OccursAt(s, "**", k)
    ensures r.None? ==> forall j :: from <= j ==> !ClosesAt(s, from, j)
    decreases |s| - from
  {
    if from + 2 > |s| then None
    else if s[from..from + 2] == "**" then Some(from)
    else if IsLineTerminator(s[from]) then None
    else
      assert forall j :: from < j && ClosesAt(s, from, j) ==> ClosesAt(s, from + 1, j);
      CloseAt(s, from + 1)
  }

  /** `line.replace(/\*\*(.*?)\*\*\/g, '<strong>$1</strong>')`. */
  function Emphasize(s: string): string
    decreases |s|
  {
    if StartsWith(s, "**") && CloseAt(s, 2).Some? then
      var j := CloseAt(s, 2).value;
      "<strong>" + s[2..j] + "</strong>" + Emphasize(s[j + 2..])
    else if s == [] then []
    else [s[0]] + Emphasize(s[1..])
  }

  /** One line's block. */
  function ClassifyLine(line: string): Block {
    if StartsWith(line, "###") then H3(Trim(ReplaceFirst(line, "###", "")))
    else if StartsWith(line, "##") then H2(Trim(ReplaceFirst(line, "##", "")))
    else if StartsWith(line, "#") then H1(Trim(ReplaceFirst(line, "#", "")))
    else if StartsWith(line, "* ") then ListItem(Trim(ReplaceFirst(line, "* ", "")))
    else if Trim(line) == [] then LineBreak
    else Paragraph(Emphasize(line))
  }

  /** `content.split('\n').map(...)`: one block per line, in order. */
  function Render(content: string): seq<Block> {
    var lines := Split(content, '\n');
    seq(|lines|, i requires 0 <= i < |lines| => ClassifyLine(lines[i]))
  }

  // ----- properties -----

  /** `'### x'` is a third-level heading whose text is the rest of the line, trimmed. */
  lemma Heading3Line(line: string)
    requires StartsWith(line, "###")
    ensures ClassifyLine(line) == H3(Trim(line[3..]))
  {
    RemoveLeadingMarker(line, "###");
  }

  /** `'## x'` is a second-level heading, since `###` is tested first and fails. */
  lemma Heading2Line(line: string)
    requires StartsWith(line, "##") && !StartsWith(line, "###")
    ensures ClassifyLine(line) == H2(Trim(line[2..]))
  {
    RemoveLeadingMarker(line, "##");
  }

  /** `'#x'` is a first-level heading, with or without a space after the marker. */
  lemma Heading1Line(line: string)
    requires StartsWith(line, "#") && !StartsWith(line, "##")
    ensures ClassifyLine(line) == H1(Trim(line[1..]))
  {
    if StartsWith(line, "###") {
      StartsWithLonger(line, "##", "#");
    }
    RemoveLeadingMarker(line, "#");
  }

  /** `'* x'` is a list item whose text is the rest of the line, trimmed. */
  lemma ListItemLine(line: string)
    requires StartsWith(line, "* ")
    ensures ClassifyLine(line) == ListItem(Trim(line[2..]))
  {
    assert line[..2][0] == '*';
    assert !StartsWith(line, "#") by { assert line[..1][0] == line[..2][0]; }
    assert !StartsWith(line, "##") && !StartsWith(line, "###");
    RemoveLeadingMarker(line, "* ");
  }

  /** A line that starts with whitespace starts with no marker. */
  lemma WhitespaceStartNoMarker(line: string)
    requires line != [] && IsWhitespace(line[0])
    ensures !StartsWith(line, "###") && !StartsWith(line, "##") && !StartsWith(line, "#")
    ensures !StartsWith(line, "* ")
  {
    assert line[0] != '#' && line[0] != '*';
    assert forall n :: 1 <= n <= |line| ==> line[..n][0] == line[0];
  }

  /** A line renders as a line break exactly when it is whitespace only. */
  lemma LineBreakIff(line: string)
    ensures ClassifyLine(line) == LineBreak <==> AllWhitespace(line)
  {
    TrimEmptyIff(line);
    if AllWhitespace(line) && line != [] {
      WhitespaceStartNoMarker(line);
    }
  }

  /** A line opening with `**` is a paragraph, never a list item. */
  lemma BoldStartIsParagraph(line: string)
    requires StartsWith(line, "**")
    ensures ClassifyLine(line) == Paragraph(Emphasize(line))
  {
    assert line[0] == '*' && line[1] == '*';
    assert !StartsWith(line, "###") && !StartsWith(line, "##") && !StartsWith(line, "#") by {
      assert line[..1][0] == '*';
    }
    assert !StartsWith(line, "* ") by { assert line[..2][1] == '*'; }
    assert !AllWhitespace(line) by { assert !IsWhitespace(line[0]); }
    TrimEmptyIff(line);
  }

  /**
   * A line whose first character is neither a marker nor whitespace is a
   * paragraph.
   */
  lemma PlainStartIsParagraph(line: string)
    requires line != [] && line[0] != '#' && line[0] != '*' && !IsWhitespace(line[0])
    ensures ClassifyLine(line) == Paragraph(Emphasize(line))
  {
    assert !StartsWith(line, "###") && !StartsWith(line, "##") && !StartsWith(line, "#")
        && !StartsWith(line, "* ") by {
      assert forall n :: 1 <= n <= |line| ==> line[..n][0] == line[0];
    }
    assert !AllWhitespace(line);
    TrimEmptyIff(line);
  }

  /** Content without a new line is one block. */
  lemma SingleLineRender(line: string)
    requires '\n' !in line
    ensures Render(line) == [ClassifyLine(line)]
  {
    SplitNoSeparator(line, '\n');
  }

  /** Text without `**` passes through the rewrite unchanged. */
  lemma {:induction false} EmphasizeNoMarker(s: string)
    requires forall k :: 0 <= k ==> !OccursAt(s, "**", k)
    ensures Emphasize(s) == s
    decreases |s|
  {
    if s != [] {
      assert !OccursAt(s, "**", 0);
      assert forall k :: 0 <= k ==> !OccursAt(s[1..], "**", k) by {
        forall k | 0 <= k ensures !OccursAt(s[1..], "**", k) {
          assert !OccursAt(s, "**", k + 1);
          if k + 2 <= |s[1..]| {
            assert s[1..][k..k + 2] == s[k + 1..k + 3];
          }
        }
      }
      EmphasizeNoMarker(s[1..]);
    }
  }

  /**
   * A shortest `**x**` at the start of the text, with no line terminator in
   * `x`, becomes `<strong>x</strong>`, and the rest is rewritten on its own.
   */
  lemma EmphasizeMatch(x: string, rest: string)
    requires forall k :: 0 <= k < |x| ==> !IsLineTerminator(x[k])
    requires forall k :: 0 <= k < |x| ==> !OccursAt(x + "**", "**", k)
    ensures Emphasize("**" + x + "**" + rest) == "<strong>" + x + "</strong>" + Emphasize(rest)
  {
    var s := "**" + x + "**" + rest;
    var j := 2 + |x|;
    assert s[..2] == "**";
    assert s[j..j + 2] == "**";
    assert ClosesAt(s, 2, j) by {
      forall k | 2 <= k < j ensures !IsLineTerminator(s[k]) {
        assert s[k] == x[k - 2];
      }
    }
    var y := x + "**";
    assert s == "**" + y + rest;
    forall k | 2 <= k < j ensures !OccursAt(s, "**", k) {
      assert s[k..k + 2] == y[k - 2..k];
      assert !OccursAt(y, "**", k - 2);
    }
    var c := CloseAt(s, 2);
    assert c.Some?;
    assert c.value == j;
    assert s[2..j] == x;
    assert s[j + 2..] == rest;
  }

  /** Turns both strong tags back into `**`: the inverse of the rewrite. */
  function Unemphasize(h: string): string
    decreases |h|
  {
    if StartsWith(h, "<strong>") then "**" + Unemphasize(h[8..])
    else if StartsWith(h, "</strong>") then "**" + Unemphasize(h[9..])
    else if h == [] then []
    else [h[0]] + Unemphasize(h[1..])
  }

  lemma UnemphasizeOther(c: char, t: string)
    requires c != '<'
    ensures Unemphasize([c] + t) == [c] + Unemphasize(t)
  {
    var h := [c] + t;
    assert h[0] == c;
    assert h[1..] == t;
  }

  lemma {:induction false} UnemphasizePlain(x: string, t: string)
    requires '<' !in x
    ensures Unemphasize(x + t) == x + Unemphasize(t)
    decreases |x|
  {
    if x != [] {
      assert x + t == [x[0]] + (x[1..] + t);
      UnemphasizeOther(x[0], x[1..] + t);
      assert '<' !in x[1..] by { assert forall c :: c in x[1..] ==> c in x; }
      UnemphasizePlain(x[1..], t);
      assert x == [x[0]] + x[1..];
    } else {
      assert x + t == t;
    }
  }

  lemma UnemphasizeOpen(t: string)
    ensures Unemphasize("<strong>" + t) == "**" + Unemphasize(t)
  {
    var h := "<strong>" + t;
    assert h[..8] == "<strong>";
    assert h[8..] == t;
  }

  lemma UnemphasizeClose(t: string)
    ensures Unemphasize("</strong>" + t) == "**" + Unemphasize(t)
  {
    var h := "</strong>" + t;
    assert h[..9] == "</strong>";
    assert h[9..] == t;
    assert !StartsWith(h, "<strong>") by { assert h[..8][1] == '/'; }
  }

  /** Undoing the tags of one rewritten `**x**`. */
  lemma UnemphasizeStrong(x: string, t: string)
    requires '<' !in x
    ensures Unemphasize("<strong>" + x + "</strong>" + t) == "**" + x + "**" + Unemphasize(t)
  {
    var close := "</strong>" + t;
    calc {
      Unemphasize("<strong>" + x + "</strong>" + t);
      { assert "<strong>" + x + "</strong>" + t == "<strong>" + (x + close); }
      Unemphasize("<strong>" + (x + close));
      { UnemphasizeOpen(x + close); }
      "**" + Unemphasize(x + close);
      { UnemphasizePlain(x, close); }
      "**" + (x + Unemphasize(close));
      { UnemphasizeClose(t); }
      "**" + (x + ("**" + Unemphasize(t)));
      "**" + x + "**" + Unemphasize(t);
    }
  }

  /** A character missing from a text is missing from every slice of it. */
  lemma NotInSlice(s: string, c: char, i: nat, j: nat)
    requires c !in s && i <= j <= |s|
    ensures c !in s[i..j]
  {
    assert forall k :: 0 <= k < j - i ==> s[i..j][k] == s[i + k];
  }

  /** A text that opens with `**` and has `**` at `j` is those pieces put together. */
  lemma StrongReassembled(s: string, j: nat)
    requires StartsWith(s, "**") && 2 <= j && OccursAt(s, "**", j)
    ensures s == "**" + s[2..j] + "**" + s[j + 2..]
  {
    assert s == s[..2] + s[2..j] + s[j..j + 2] + s[j + 2..];
  }

  /** One rewritten `**x**` at the start of a line without `<`, undone. */
  lemma UnemphasizeStrongStep(s: string)
    requires '<' !in s && StartsWith(s, "**") && CloseAt(s, 2).Some?
    ensures var j := CloseAt(s, 2).value;
      && '<' !in s[j + 2..]
      && Unemphasize(Emphasize(s)) == "**" + s[2..j] + "**" + Unemphasize(Emphasize(s[j + 2..]))
      && s == "**" + s[2..j] + "**" + s[j + 2..]
  {
    var j := CloseAt(s, 2).value;
    var x, rest := s[2..j], s[j + 2..];
    NotInSlice(s, '<', 2, j);
    NotInSlice(s, '<', j + 2, |s|);
    UnemphasizeStrong(x, Emphasize(rest));
    StrongReassembled(s, j);
  }

  /** One character copied by the rewrite, undone. */
  lemma UnemphasizeCharStep(s: string)
    requires '<' !in s && s != [] && !(StartsWith(s, "**") && CloseAt(s, 2).Some?)
    ensures '<' !in s[1..]
    ensures Unemphasize(Emphasize(s)) == [s[0]] + Unemphasize(Emphasize(s[1..]))
  {
    NotInSlice(s, '<', 1, |s|);
    UnemphasizeOther(s[0], Emphasize(s[1..]));
  }

  /**
   * The rewrite only wraps text in tags: on a line without `<`, undoing the
   * tags gives back the line.
   */
  lemma {:induction false} EmphasizeRoundTrip(s: string)
    requires '<' !in s
    ensures Unemphasize(Emphasize(s)) == s
    decreases |s|
  {
    if StartsWith(s, "**") && CloseAt(s, 2).Some? {
      UnemphasizeStrongStep(s);
      EmphasizeRoundTrip(s[CloseAt(s, 2).value + 2..]);
    } else if s != [] {
      UnemphasizeCharStep(s);
      EmphasizeRoundTrip(s[1..]);
      assert s == [s[0]] + s[1..];
    }
  }

  /** Rendering separator-free lines joined by new lines gives one block per line, in order. */
  lemma RenderJoinedLines(lines: seq<string>)
    requires |lines| >= 1
    requires forall i :: 0 <= i < |lines| ==> '\n' !in lines[i]
    ensures |Render(Join(lines, '\n'))| == |lines|
    ensures forall i :: 0 <= i < |lines| ==> Render(Join(lines, '\n'))[i] == ClassifyLine(lines[i])
  {
    SplitJoin(lines, '\n');
  }

  /** Every line of the content is rendered, and the lines put back together are the content. */
  lemma RenderCoversContent(content: string)
    ensures |Render(content)| == |Split(content, '\n')|
    ensures Join(Split(content, '\n'), '\n') == content
  {
    JoinSplit(content, '\n');
  }
}
