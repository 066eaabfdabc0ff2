/**
 * The content renderer: the nested `process_text_run`, `process_paragraph`,
 * `process_table` and `process_content_elements` of
 * `_extract_document_content_with_tabs`, as functions over the document datatypes.
 */
module Renderer {
  import opened Wrappers
  import opened Text
  import opened DocModel

  // ---------------------------------------------------------------------------
  // Text runs

  /** The `formatting` list: the opening markers, in the order bold, italic, underline, strikethrough. */
  function Markers(st: TextStyle): (ms: seq<string>)
    ensures |ms| <= 4
  {
    (if st.bold then ["**"] else []) + (if st.italic then ["*"] else [])
    + (if st.underline then ["_"] else []) + (if st.strikethrough then ["~~"] else [])
  }

  /** `''.join(parts)`. */
  function Concat(parts: seq<string>): string
    decreases |parts|
  {
    if |parts| == 0 then "" else parts[0] + Concat(parts[1..])
  }

  /** `list(reversed(parts))`. */
  function ReverseList(parts: seq<string>): (r: seq<string>)
    ensures |r| == |parts|
    ensures forall k :: 0 <= k < |r| ==> r[k] == parts[|parts| - 1 - k]
    decreases |parts|
  {
    if |parts| == 0 then [] else ReverseList(parts[1..]) + [parts[0]]
  }

  /** The characters of `s` in reverse order. */
  function Reverse(s: string): (r: string)
    ensures |r| == |s|
    ensures forall k :: 0 <= k < |r| ==> r[k] == s[|s| - 1 - k]
    decreases |s|
  {
    if |s| == 0 then "" else Reverse(s[1..]) + [s[0]]
  }

  function Opening(st: TextStyle): string {
    Concat(Markers(st))
  }

  function Closing(st: TextStyle): string {
    Concat(ReverseList(Markers(st)))
  }

  function RgbText(c: Rgb): string {
    "rgb(" + IntToString(c.red) + "," + IntToString(c.green) + "," + IntToString(c.blue) + ")"
  }

  predicate ShowsFontSize(st: TextStyle) {
    st.fontSize != 0 && st.fontSize != 11
  }

  predicate ShowsFontFamily(st: TextStyle) {
    st.fontFamily != "" && st.fontFamily != "Arial"
  }

  /** The opening of the colour wrapper ("" when there is no foreground colour). */
  function ColorOpen(st: TextStyle): string {
    if st.foreground.Some? then "[COLOR(" + RgbText(st.foreground.value) + "): " else ""
  }

  /** The opening of the highlight wrapper ("" when there is no background colour). */
  function HighlightOpen(st: TextStyle): string {
    if st.background.Some? then "[HIGHLIGHT(" + RgbText(st.background.value) + "): " else ""
  }

  function FontSizeOpen(st: TextStyle): string {
    "[FONT_SIZE(" + IntToString(st.fontSize) + "pt): "
  }

  function FontOpen(st: TextStyle): string {
    "[FONT(" + st.fontFamily + "): "
  }

  /** `open + inner + "]"` when `cond` holds, else `inner` unchanged. */
  function WrapIf(cond: bool, open: string, inner: string): string {
    if cond then open + inner + "]" else inner
  }

  /** The colour, highlight, font-size and font wrappers, innermost first, around `content`. */
  function Decorate(content: string, st: TextStyle): string {
    WrapIf(ShowsFontFamily(st), FontOpen(st),
      WrapIf(ShowsFontSize(st), FontSizeOpen(st),
        WrapIf(st.background.Some?, HighlightOpen(st),
          WrapIf(st.foreground.Some?, ColorOpen(st), content))))
  }

  /** `@name (email)`, or `@name` when the email is empty. */
  function PersonText(name: string, email: string): string {
    if email != "" then "@" + name + " (" + email + ")" else "@" + name
  }

  predicate HasLinkUrl(st: TextStyle) {
    st.link.Some? && st.link.value != ""
  }

  /** `process_text_run`. */
  function RenderTextRun(run: TextRun): string {
    var st := run.style;
    if st.person.Some? then
      PersonText(st.person.value.name.GetOr(Strip(run.content)), st.person.value.email)
    else if st.richLink.Some? then
      var rl := st.richLink.value;
      var title := rl.title.GetOr(Strip(run.content));
      if rl.uri != "" then
        if rl.mimeType != "" then "[" + title + "](" + rl.uri + ") [" + rl.mimeType + "]"
        else "[" + title + "](" + rl.uri + ")"
      else "[RICH_LINK: " + title + "]"
    else if HasLinkUrl(st) then
      var url := st.link.value;
      if Strip(run.content) == url then "[LINK: " + url + "]"
      else "[LINK: " + Strip(run.content) + " -> " + url + "]"
    else
      Opening(st) + Decorate(run.content, st) + Closing(st)
  }

  /** A person annotation decides the rendering: nothing else in the style matters. */
  lemma PersonPrecedence(run: TextRun, other: TextStyle)
    requires run.style.person.Some? && other.person == run.style.person
    ensures RenderTextRun(run) == RenderTextRun(TextRun(run.content, other))
    ensures var p := run.style.person.value;
            RenderTextRun(run) == PersonText(p.name.GetOr(Strip(run.content)), p.email)
  {
  }

  /** Without a person annotation, a rich link decides the rendering. */
  lemma RichLinkPrecedence(run: TextRun, other: TextStyle)
    requires run.style.person.None? && run.style.richLink.Some?
    requires other.person.None? && other.richLink == run.style.richLink
    ensures RenderTextRun(run) == RenderTextRun(TextRun(run.content, other))
    ensures StartsWith(RenderTextRun(run), "[")
  {
  }

  /**
   * Without a person or rich-link annotation, a link with a non-empty url decides the
   * rendering: `[LINK: url]` when the stripped content is the url, else `[LINK: text -> url]`.
   */
  lemma LinkPrecedence(run: TextRun, other: TextStyle)
    requires run.style.person.None? && run.style.richLink.None? && HasLinkUrl(run.style)
    requires other.person.None? && other.richLink.None? && other.link == run.style.link
    ensures RenderTextRun(run) == RenderTextRun(TextRun(run.content, other))
    ensures var url := run.style.link.value;
            RenderTextRun(run) == if Strip(run.content) == url then "[LINK: " + url + "]"
                                  else "[LINK: " + Strip(run.content) + " -> " + url + "]"
  {
  }

  /** The opening half of each wrapper of `Decorate`, outermost first. */
  function WrapperOpenings(st: TextStyle): string {
    Opened(ShowsFontFamily(st), FontOpen(st)) + (Opened(ShowsFontSize(st), FontSizeOpen(st))
    + (Opened(st.background.Some?, HighlightOpen(st)) + Opened(st.foreground.Some?, ColorOpen(st))))
  }

  function Opened(cond: bool, open: string): string {
    if cond then open else ""
  }

  function Counted(cond: bool): nat {
    if cond then 1 else 0
  }

  /** How many wrappers `Decorate` applies. */
  function WrapperCount(st: TextStyle): nat {
    Counted(ShowsFontFamily(st)) + Counted(ShowsFontSize(st))
    + Counted(st.background.Some?) + Counted(st.foreground.Some?)
  }

  lemma RepeatSucc(s: string, n: nat)
    ensures Repeat(s, n + 1) == Repeat(s, n) + s
    decreases n
  {
    if n > 0 {
      RepeatSucc(s, n - 1);
    }
  }

  /** One more wrapper adds its opening in front and one `]` at the end. */
  lemma WrapIfFrames(cond: bool, open: string, pre: string, content: string, n: nat)
    ensures WrapIf(cond, open, pre + content + Repeat("]", n))
            == Opened(cond, open) + pre + content + Repeat("]", n + Counted(cond))
  {
    RepeatSucc("]", n);
  }

  /** Four nested wrappers: their openings, outermost first, then the content and one `]` each. */
  lemma FourWrapsFrame(b1: bool, o1: string, b2: bool, o2: string, b3: bool, o3: string,
                       b4: bool, o4: string, content: string)
    ensures WrapIf(b4, o4, WrapIf(b3, o3, WrapIf(b2, o2, WrapIf(b1, o1, content))))
            == Opened(b4, o4) + (Opened(b3, o3) + (Opened(b2, o2) + Opened(b1, o1))) + content
               + Repeat("]", Counted(b4) + Counted(b3) + Counted(b2) + Counted(b1))
  {
    var k1 := Counted(b1);
    var k2 := k1 + Counted(b2);
    var k3 := k2 + Counted(b3);
    var p1 := Opened(b1, o1);
    var p2 := Opened(b2, o2) + p1;
    var p3 := Opened(b3, o3) + p2;
    var c1 := WrapIf(b1, o1, content);
    var c2 := WrapIf(b2, o2, c1);
    var c3 := WrapIf(b3, o3, c2);
    assert c1 == p1 + content + Repeat("]", k1) by {
      assert "" + content + Repeat("]", 0) == content;
      WrapIfFrames(b1, o1, "", content, 0);
    }
    assert c2 == p2 + content + Repeat("]", k2) by {
      WrapIfFrames(b2, o2, p1, content, k1);
    }
    assert c3 == p3 + content + Repeat("]", k3) by {
      WrapIfFrames(b3, o3, p2, content, k2);
    }
    WrapIfFrames(b4, o4, p3, content, k3);
    assert k3 + Counted(b4) == Counted(b4) + Counted(b3) + Counted(b2) + Counted(b1);
  }

  /**
   * The wrappers frame the content: the decorated text is a prefix that depends only on
   * the style, the content verbatim, and one `]` per wrapper.
   */
  lemma DecorateFramesContent(content: string, st: TextStyle)
    ensures Decorate(content, st) == WrapperOpenings(st) + content + Repeat("]", WrapperCount(st))
  {
    FourWrapsFrame(st.foreground.Some?, ColorOpen(st), st.background.Some?, HighlightOpen(st),
                   ShowsFontSize(st), FontSizeOpen(st), ShowsFontFamily(st), FontOpen(st), content);
  }

  /**
   * A run with no annotation keeps its text verbatim: the rendering is a prefix and a
   * suffix that depend only on the style, around the unmodified content.
   */
  lemma PlainRunFramesContent(run: TextRun)
    requires run.style.person.None? && run.style.richLink.None? && !HasLinkUrl(run.style)
    ensures RenderTextRun(run)
            == Opening(run.style)
               + (WrapperOpenings(run.style) + run.content + Repeat("]", WrapperCount(run.style)))
               + Closing(run.style)
  {
    DecorateFramesContent(run.content, run.style);
  }

  lemma ConcatAppend(a: seq<string>, b: seq<string>)
    ensures Concat(a + b) == Concat(a) + Concat(b)
    decreases |a|
  {
    if |a| > 0 {
      assert (a + b)[1..] == a[1..] + b;
      ConcatAppend(a[1..], b);
    } else {
      assert a + b == b;
    }
  }

  lemma ReverseAppend(a: string, b: string)
    ensures Reverse(a + b) == Reverse(b) + Reverse(a)
    decreases |a|
  {
    if |a| > 0 {
      assert (a + b)[1..] == a[1..] + b;
      ReverseAppend(a[1..], b);
    } else {
      assert a + b == b;
    }
  }

  /** Every marker reads the same backwards. */
  predicate AllPalindromes(parts: seq<string>) {
    forall i :: 0 <= i < |parts| ==> Reverse(parts[i]) == parts[i]
  }

  lemma {:induction false} ReverseConcatOfPalindromes(parts: seq<string>)
    requires AllPalindromes(parts)
    ensures Reverse(Concat(parts)) == Concat(ReverseList(parts))
    decreases |parts|
  {
    if |parts| > 0 {
      assert AllPalindromes(parts[1..]) by {
        forall i | 0 <= i < |parts[1..]| ensures Reverse(parts[1..][i]) == parts[1..][i] {
          assert parts[1..][i] == parts[i + 1];
        }
      }
      ReverseConcatOfPalindromes(parts[1..]);
      ReverseAppend(parts[0], Concat(parts[1..]));
      ConcatAppend(ReverseList(parts[1..]), [parts[0]]);
      assert Concat([parts[0]]) == parts[0];
      assert Reverse(parts[0]) == parts[0];
    }
  }

  /**
   * Marker symmetry: the closing markers, which the source emits in reverse list order,
   * are exactly the opening markers read backwards.
   */
  lemma MarkersSymmetric(st: TextStyle)
    ensures Closing(st) == Reverse(Opening(st))
    ensures |Closing(st)| == |Opening(st)|
  {
    var ms := Markers(st);
    forall i | 0 <= i < |ms| ensures Reverse(ms[i]) == ms[i] {
      var m := ms[i];
      assert m == "**" || m == "*" || m == "_" || m == "~~";
      RepeatedCharPalindrome(m);
    }
    ReverseConcatOfPalindromes(ms);
  }

  /** A string made of one repeated character reads the same backwards. */
  lemma RepeatedCharPalindrome(m: string)
    requires forall k :: 0 <= k < |m| ==> m[k] == m[0]
    ensures Reverse(m) == m
  {
    var r := Reverse(m);
    assert forall k :: 0 <= k < |r| ==> r[k] == m[|m| - 1 - k] == m[k];
  }

  /** A run without any style. */
  const PlainStyle: TextStyle := TextStyle(false, false, false, false, None, None, 0, "", None, None, None)

  /** Bold and italic `hi` renders as `***hi***`. */
  lemma BoldItalicExample()
    ensures RenderTextRun(TextRun("hi", PlainStyle.(bold := true, italic := true))) == "***hi***"
  {
    var st := PlainStyle.(bold := true, italic := true);
    assert Markers(st) == ["**", "*"];
    TwoMarkers("**", "*");
    assert "**" + "*" == "***" && "*" + "**" == "***";
  }

  lemma TwoMarkers(m1: string, m2: string)
    ensures Concat([m1, m2]) == m1 + m2
    ensures Concat(ReverseList([m1, m2])) == m2 + m1
  {
    assert [m1, m2][1..] == [m2] && [m2][1..] == [];
    assert ReverseList([m2]) == [m2];
    assert ReverseList([m1, m2]) == [m2, m1];
    assert [m2, m1][1..] == [m1] && [m1][1..] == [];
    assert Concat([m2]) == m2 + "" && Concat([m1]) == m1 + "";
    assert m2 + "" == m2 && m1 + "" == m1;
  }

  /** A run whose text is its own link url renders as the bare-url link form. */
  lemma BareLinkExample()
    ensures RenderTextRun(TextRun("https://x", PlainStyle.(link := Some("https://x")))) == "[LINK: https://x]"
  {
    assert !IsSpace('h') && !IsSpace('x');
    assert Strip("https://x") == "https://x";
  }

  // ---------------------------------------------------------------------------
  // Paragraphs

  /** An inline object: a markdown image when the map gives it a content URI, else `[IMAGE: id]`. */
  function InlineObjectText(objectId: string, objects: InlineObjects): (r: string)
    ensures r == "[IMAGE: " + objectId + "]" <==> (objectId !in objects || objects[objectId].contentUri == "")
  {
    if objectId in objects && objects[objectId].contentUri != "" then
      var obj := objects[objectId];
      var alt := if obj.title != "" then obj.title
                 else if obj.description != "" then obj.description
                 else "Image " + objectId;
      var r := "![" + alt + "](" + obj.contentUri + ")";
      assert r[0] == '!';
      r
    else "[IMAGE: " + objectId + "]"
  }

  /** The text one paragraph element contributes. */
  function ElementText(e: ParagraphElement, objects: InlineObjects): string {
    match e
    case TextRunElement(run) => RenderTextRun(run)
    case InlineObjectElement(id) => InlineObjectText(id, objects)
    case PageBreak => "[PAGE BREAK]"
    case ColumnBreak => "[COLUMN BREAK]"
    case FootnoteReference(n) => "[FOOTNOTE: " + n + "]"
    case HorizontalRule => "\n---\n"
    case Equation => "[EQUATION]"
    case PersonElement(name, email) => PersonText(name.GetOr("Unknown Person"), email)
    case OtherElement => ""
  }

  /** The elements' texts, concatenated in order. */
  function ElementsText(es: seq<ParagraphElement>, objects: InlineObjects): string
    decreases |es|
  {
    if |es| == 0 then "" else ElementText(es[0], objects) + ElementsText(es[1..], objects)
  }

  /** Two spaces per nesting level, then the bullet sign. */
  function BulletPrefix(level: nat): string {
    Repeat("  ", level) + "• "
  }

  /**
   * The paragraph text before `rstrip('\n')`. A bullet with a `textStyle` (meant for numbered
   * lists) and one without it get the same prefix, so numbered lists look like bulleted ones.
   */
  function RawParagraphText(p: Paragraph, objects: InlineObjects): string {
    var body := ElementsText(p.elements, objects);
    if p.bullet.Some? then BulletPrefix(p.bullet.value.nestingLevel) + body else body
  }

  /**
   * `process_paragraph`: the raw text with its trailing newlines removed, and only those;
   * a bulleted paragraph always keeps its bullet prefix.
   */
  function RenderParagraph(p: Paragraph, objects: InlineObjects): (r: string)
    ensures var raw := RawParagraphText(p, objects);
            |r| <= |raw| && r == raw[..|r|] && forall i :: |r| <= i < |raw| ==> raw[i] == '\n'
    ensures r == [] || r[|r| - 1] != '\n'
    ensures p.bullet.Some? ==> StartsWith(r, BulletPrefix(p.bullet.value.nestingLevel))
  {
    BulletKept(p, objects);
    RStripNewlines(RawParagraphText(p, objects))
  }

  lemma BulletKept(p: Paragraph, objects: InlineObjects)
    ensures p.bullet.Some? ==>
              StartsWith(RStripNewlines(RawParagraphText(p, objects)), BulletPrefix(p.bullet.value.nestingLevel))
  {
    if p.bullet.Some? {
      PrefixSurvivesRStrip(BulletPrefix(p.bullet.value.nestingLevel), ElementsText(p.elements, objects));
    }
  }

  /** Stripping trailing newlines never reaches into a prefix that ends in a space. */
  lemma PrefixSurvivesRStrip(pre: string, body: string)
    requires |pre| > 0 && pre[|pre| - 1] == ' '
    ensures StartsWith(RStripNewlines(pre + body), pre)
  {
    var raw := pre + body;
    var r := RStripNewlines(raw);
    assert raw[|pre| - 1] == ' ';
    assert |pre| <= |r|;
    assert r[..|pre|] == raw[..|pre|];
  }

  // ---------------------------------------------------------------------------
  // Tables

  /** Concatenating two lists of non-blank texts keeps them all non-blank. */
  lemma NoBlankConcat(a: seq<string>, b: seq<string>)
    requires forall i :: 0 <= i < |a| ==> !IsBlank(a[i])
    requires forall i :: 0 <= i < |b| ==> !IsBlank(b[i])
    ensures forall i :: 0 <= i < |a + b| ==> !IsBlank((a + b)[i])
  {
    forall i | 0 <= i < |a + b| ensures !IsBlank((a + b)[i]) {
      if i < |a| { assert (a + b)[i] == a[i]; } else { assert (a + b)[i] == b[i - |a|]; }
    }
  }

  /** What one element of a cell contributes: a paragraph's text when it is not blank, else nothing. */
  function ParagraphKept(e: StructuralElement, objects: InlineObjects): (r: seq<string>)
    ensures e.kind.ParagraphKind? && !IsBlank(RenderParagraph(e.kind.paragraph, objects))
            ==> r == [RenderParagraph(e.kind.paragraph, objects)]
    ensures !(e.kind.ParagraphKind? && !IsBlank(RenderParagraph(e.kind.paragraph, objects))) ==> r == []
  {
    match e.kind
    case ParagraphKind(p) =>
      var t := RenderParagraph(p, objects);
      StripEmptyIffBlank(t);
      if Strip(t) != [] then [t] else []
    case _ => []
  }

  /** The non-blank paragraph texts of a cell, in order. */
  function NonBlankParagraphTexts(content: seq<StructuralElement>, objects: InlineObjects): (r: seq<string>)
    ensures |r| <= |content|
    ensures forall i :: 0 <= i < |r| ==> !IsBlank(r[i])
    ensures |r| == |content| - CountDropped(content, objects)
    decreases |content|
  {
    if |content| == 0 then []
    else
      var head := ParagraphKept(content[0], objects);
      var rest := NonBlankParagraphTexts(content[1..], objects);
      NoBlankConcat(head, rest);
      head + rest
  }

  /** How many elements of a cell contribute no text (non-paragraphs and blank paragraphs). */
  function CountDropped(content: seq<StructuralElement>, objects: InlineObjects): nat
    decreases |content|
  {
    if |content| == 0 then 0
    else (if ParagraphKept(content[0], objects) == [] then 1 else 0) + CountDropped(content[1..], objects)
  }

  /** Collecting the texts of a concatenation is concatenating the collected texts. */
  lemma {:induction false} ParagraphTextsAppend(a: seq<StructuralElement>, b: seq<StructuralElement>, objects: InlineObjects)
    ensures NonBlankParagraphTexts(a + b, objects) == NonBlankParagraphTexts(a, objects) + NonBlankParagraphTexts(b, objects)
    decreases |a|
  {
    if |a| > 0 {
      var ab := a + b;
      assert ab[0] == a[0] && ab[1..] == a[1..] + b;
      ParagraphTextsAppend(a[1..], b, objects);
      var h := ParagraphKept(a[0], objects);
      assert NonBlankParagraphTexts(ab, objects) == h + NonBlankParagraphTexts(a[1..] + b, objects);
      assert NonBlankParagraphTexts(a, objects) == h + NonBlankParagraphTexts(a[1..], objects);
    } else {
      assert a + b == b;
    }
  }

  /**
   * Every non-blank paragraph of a cell is kept: its text comes right after the texts kept
   * from the elements before it.
   */
  lemma KeptInOrder(content: seq<StructuralElement>, i: nat, objects: InlineObjects)
    requires i < |content| && content[i].kind.ParagraphKind?
    requires !IsBlank(RenderParagraph(content[i].kind.paragraph, objects))
    ensures var r := NonBlankParagraphTexts(content, objects);
            var k := |NonBlankParagraphTexts(content[..i], objects)|;
            k < |r| && r[k] == RenderParagraph(content[i].kind.paragraph, objects)
  {
    var tail := content[i + 1..];
    var here := [content[i]] + tail;
    var t := RenderParagraph(content[i].kind.paragraph, objects);
    assert content == content[..i] + here;
    ParagraphTextsAppend(content[..i], here, objects);
    assert here[0] == content[i] && here[1..] == tail;
    assert ParagraphKept(content[i], objects) == [t];
    assert NonBlankParagraphTexts(here, objects) == [t] + NonBlankParagraphTexts(tail, objects);
  }

  /** A cell's text: its non-blank paragraphs joined by single spaces ("" when there are none). */
  function CellText(cell: TableCell, objects: InlineObjects): string {
    Join(" ", NonBlankParagraphTexts(cell.content, objects))
  }

  function RowCells(row: TableRow, objects: InlineObjects): (r: seq<string>)
    ensures |r| == |row.cells|
    ensures forall k :: 0 <= k < |r| ==> r[k] == CellText(row.cells[k], objects)
  {
    seq(|row.cells|, k requires 0 <= k < |row.cells| => CellText(row.cells[k], objects))
  }

  /** `"| " + " | ".join(cells) + " |"`. */
  function RowLine(cells: seq<string>): string {
    "| " + Join(" | ", cells) + " |"
  }

  /** For each header cell, a run of dashes as long as the cell. */
  function SeparatorCells(header: seq<string>): (r: seq<string>)
    ensures |r| == |header|
    ensures forall k :: 0 <= k < |r| ==> |r[k]| == |header[k]| && forall j :: 0 <= j < |r[k]| ==> r[k][j] == '-'
  {
    seq(|header|, k requires 0 <= k < |header| => Dashes(|header[k]|))
  }

  function RowLines(rows: seq<TableRow>, objects: InlineObjects): (r: seq<string>)
    ensures |r| == |rows|
    ensures forall k :: 0 <= k < |rows| ==> r[k] == RowLine(RowCells(rows[k], objects))
  {
    seq(|rows|, k requires 0 <= k < |rows| => RowLine(RowCells(rows[k], objects)))
  }

  /** The lines between the markers: each row, and a separator after row 0 when there are more rows. */
  function TableBodyLines(t: Table, objects: InlineObjects): seq<string> {
    if |t.rows| == 0 then []
    else
      var header := RowCells(t.rows[0], objects);
      [RowLine(header)] + (if |t.rows| > 1 then [RowLine(SeparatorCells(header))] else [])
      + RowLines(t.rows[1..], objects)
  }

  function TableLines(t: Table, objects: InlineObjects): seq<string> {
    ["\n[TABLE]"] + TableBodyLines(t, objects) + ["[/TABLE]\n"]
  }

  /** `process_table`: the lines joined by newlines, between the two markers. */
  function RenderTable(t: Table, objects: InlineObjects): (r: string)
    ensures StartsWith(r, "\n[TABLE]") && EndsWith(r, "[/TABLE]\n")
  {
    var lines := TableLines(t, objects);
    JoinStartsWith("\n", lines);
    JoinEndsWith("\n", lines);
    Join("\n", lines)
  }

  /**
   * The lines of a rendered table: one line per row in row order, with exactly one dash
   * separator, right after the header, when and only when there is more than one row; each
   * separator cell has as many dashes as its header cell has characters.
   */
  lemma TableShape(t: Table, objects: InlineObjects)
    ensures var body := TableBodyLines(t, objects);
            var n := |t.rows|;
            && |body| == n + (if n > 1 then 1 else 0)
            && (n > 0 ==> body[0] == RowLine(RowCells(t.rows[0], objects)))
            && (n > 1 ==> body[1] == RowLine(SeparatorCells(RowCells(t.rows[0], objects))))
            && (forall k :: 1 <= k < n ==> body[k + 1] == RowLine(RowCells(t.rows[k], objects)))
  {
    var body := TableBodyLines(t, objects);
    var n := |t.rows|;
    if n > 1 {
      var rest := RowLines(t.rows[1..], objects);
      assert body[2..] == rest;
      forall k | 1 <= k < n ensures body[k + 1] == RowLine(RowCells(t.rows[k], objects)) {
        assert body[k + 1] == rest[k - 1];
        assert t.rows[1..][k - 1] == t.rows[k];
      }
    }
  }

  /** Every line between the table markers is pipe-delimited. */
  lemma TableLinesPiped(t: Table, objects: InlineObjects)
    ensures forall line :: line in TableBodyLines(t, objects) ==> StartsWith(line, "| ") && EndsWith(line, " |")
  {
    var body := TableBodyLines(t, objects);
    forall line | line in body ensures StartsWith(line, "| ") && EndsWith(line, " |") {
      var cells :| line == RowLine(cells);
      RowLineShape(cells);
    }
  }

  lemma RowLineShape(cells: seq<string>)
    ensures StartsWith(RowLine(cells), "| ") && EndsWith(RowLine(cells), " |")
  {
    var l := RowLine(cells);
    assert l == "| " + (Join(" | ", cells) + " |");
    assert l[..2] == "| ";
    assert l[|l| - 2..] == " |";
  }

  // ---------------------------------------------------------------------------
  // Element lists

  /** The lines one structural element contributes: none for a blank paragraph. */
  function ContentElementLines(e: StructuralElement, indent: string, objects: InlineObjects): (r: seq<string>)
    ensures |r| <= 1 && forall i :: 0 <= i < |r| ==> StartsWith(r[i], indent)
    ensures e.kind.SectionBreakKind? ==> r == [indent + "[SECTION BREAK]"]
    ensures e.kind.TableOfContentsKind? ==> r == [indent + "[TABLE OF CONTENTS]"]
    ensures e.kind.ParagraphKind? ==> (r == [] <==> IsBlank(RenderParagraph(e.kind.paragraph, objects)))
    ensures e.kind.ParagraphKind? && !IsBlank(RenderParagraph(e.kind.paragraph, objects))
            ==> r == [indent + RenderParagraph(e.kind.paragraph, objects)]
    ensures e.kind.TableKind? ==> r == [indent + RenderTable(e.kind.table, objects)]
  {
    match e.kind
    case ParagraphKind(p) =>
      var t := RenderParagraph(p, objects);
      StripEmptyIffBlank(t);
      StartsWithConcat(indent, t);
      if Strip(t) != [] then [indent + t] else []
    case TableKind(tb) =>
      var t := RenderTable(tb, objects);
      StartsWithConcat(indent, t);
      [indent + t]
    case SectionBreakKind =>
      StartsWithConcat(indent, "[SECTION BREAK]");
      [indent + "[SECTION BREAK]"]
    case TableOfContentsKind =>
      StartsWithConcat(indent, "[TABLE OF CONTENTS]");
      [indent + "[TABLE OF CONTENTS]"]
  }

  /** `process_content_elements`. */
  function ProcessContentElements(es: seq<StructuralElement>, indent: string, objects: InlineObjects): (r: seq<string>)
    ensures |r| == |es| - CountBlankParagraphs(es, objects)
    ensures forall i :: 0 <= i < |r| ==> StartsWith(r[i], indent)
    decreases |es|
  {
    if |es| == 0 then []
    else ContentElementLines(es[0], indent, objects) + ProcessContentElements(es[1..], indent, objects)
  }

  /** Whether an element is a paragraph that renders blank. */
  predicate IsBlankParagraph(e: StructuralElement, objects: InlineObjects) {
    e.kind.ParagraphKind? && IsBlank(RenderParagraph(e.kind.paragraph, objects))
  }

  function CountBlankParagraphs(es: seq<StructuralElement>, objects: InlineObjects): nat
    decreases |es|
  {
    if |es| == 0 then 0
    else (if IsBlankParagraph(es[0], objects) then 1 else 0) + CountBlankParagraphs(es[1..], objects)
  }


  /** Rendering a list is rendering its parts one after the other. */
  lemma {:induction false} ContentElementsAppend(a: seq<StructuralElement>, b: seq<StructuralElement>,
                                                 indent: string, objects: InlineObjects)
    ensures ProcessContentElements(a + b, indent, objects)
            == ProcessContentElements(a, indent, objects) + ProcessContentElements(b, indent, objects)
    decreases |a|
  {
    if |a| > 0 {
      assert (a + b)[1..] == a[1..] + b;
      ContentElementsAppend(a[1..], b, indent, objects);
    } else {
      assert a + b == b;
    }
  }

  /**
   * Every element other than a blank paragraph gives its own line, the indent followed by its
   * rendering, right after the lines of the elements before it.
   */
  lemma ContentLineAt(es: seq<StructuralElement>, i: nat, indent: string, objects: InlineObjects)
    requires i < |es| && !IsBlankParagraph(es[i], objects)
    ensures var r := ProcessContentElements(es, indent, objects);
            var k := |ProcessContentElements(es[..i], indent, objects)|;
            k < |r| && ContentElementLines(es[i], indent, objects) == [r[k]]
  {
    var tail := es[i + 1..];
    assert es == es[..i] + ([es[i]] + tail);
    ContentElementsAppend(es[..i], [es[i]] + tail, indent, objects);
    assert ([es[i]] + tail)[1..] == tail;
  }
}
