/**
 * The fetched Google Docs document as a value: the JSON that `documents().get`
 * returns with `includeTabsContent=True`, restricted to the keys the renderer,
 * the walker and the editor read. Each `.get(key, default)` of the source
 * becomes either a field holding the default when the key is absent (where the
 * source treats the two alike) or an `Option` (where it does not).
 */
module DocModel {
  import opened Wrappers

  /** An RGB colour as the integers `int(component * 255)` the source prints. */
  datatype Rgb = Rgb(red: int, green: int, blue: int)

  /** `personProperties` of a text style: `name` may be absent, `email` defaults to "". */
  datatype PersonProperties = PersonProperties(name: Option<string>, email: string)

  /** `richLinkProperties`: `title` may be absent, `uri` and `mimeType` default to "". */
  datatype RichLinkProperties = RichLinkProperties(title: Option<string>, uri: string, mimeType: string)

  /**
   * `textStyle` of a run. The four flags are false when absent; `foreground` and
   * `background` are present when the style carries `color.rgbColor`; `fontSize` is the
   * magnitude (0 when absent); `fontFamily` is `weightedFontFamily.fontFamily` ("" when
   * absent); `link` is `link.url` when the style has a `link` ("" when the url is missing).
   */
  datatype TextStyle = TextStyle(
    bold: bool, italic: bool, underline: bool, strikethrough: bool,
    foreground: Option<Rgb>, background: Option<Rgb>,
    fontSize: int, fontFamily: string,
    link: Option<string>, richLink: Option<RichLinkProperties>, person: Option<PersonProperties>)

  datatype TextRun = TextRun(content: string, style: TextStyle)

  /** The part of an `inlineObjects` entry the renderer reads; missing keys are "". */
  datatype InlineObject = InlineObject(title: string, description: string, contentUri: string)

  type InlineObjects = map<string, InlineObject>

  /** One element of a paragraph: the keys the source tests, in its order, plus an element it ignores. */
  datatype ParagraphElement =
    | TextRunElement(run: TextRun)
    | InlineObjectElement(objectId: string)
    | PageBreak
    | ColumnBreak
    | FootnoteReference(footnoteNumber: string)
    | HorizontalRule
    | Equation
    | PersonElement(name: Option<string>, email: string)
    | OtherElement

  /** A non-empty `bullet` dictionary: its nesting level (0 when absent); its `textStyle` does not change the rendering. */
  datatype Bullet = Bullet(nestingLevel: nat)

  datatype Paragraph = Paragraph(elements: seq<ParagraphElement>, bullet: Option<Bullet>)

  /** A body element: its optional `endIndex` and which of the four kinds it is. */
  datatype StructuralElement = StructuralElement(endIndex: Option<int>, kind: ElementKind)

  datatype ElementKind =
    | ParagraphKind(paragraph: Paragraph)
    | TableKind(table: Table)
    | SectionBreakKind
    | TableOfContentsKind

  datatype Table = Table(rows: seq<TableRow>)
  datatype TableRow = TableRow(cells: seq<TableCell>)
  datatype TableCell = TableCell(content: seq<StructuralElement>)

  /** `tabProperties`: the keys the walker, the locator and the editor read. */
  datatype TabProperties = TabProperties(tabId: Option<string>, title: Option<string>, index: Option<int>)

  /** A non-empty `documentTab`: its own `inlineObjects`, if any, and its body content. */
  datatype DocumentTab = DocumentTab(inlineObjects: Option<InlineObjects>, body: seq<StructuralElement>)

  /**
   * A tab. `tabId` is the tab's own `tabId` key, which the walker reads; the editor reads
   * `properties.tabId` instead. Child tabs have the same shape; only one level is visited.
   */
  datatype Tab = Tab(tabId: Option<string>, properties: TabProperties,
                     documentTab: Option<DocumentTab>, childTabs: seq<Tab>)

  /** One `range` of a named range, with `startIndex` and `endIndex` defaulting to 0. */
  datatype RangeSpan = RangeSpan(start: int, end: int)
  datatype NamedRange = NamedRange(name: string, spans: seq<RangeSpan>)
  /** A suggested change and its `suggestionType` ("Unknown" when absent). */
  datatype SuggestedChange = SuggestedChange(id: string, suggestionType: string)
  datatype Footnote = Footnote(id: string, content: seq<StructuralElement>)
  /** Page size and top margin, with their magnitudes already printed as text. */
  datatype PageSize = PageSize(width: string, height: string, unit: string)
  datatype Margin = Margin(top: string, unit: string)
  datatype DocumentStyle = DocumentStyle(pageSize: Option<PageSize>, marginTop: Option<Margin>)
  /** A list definition and the number of its nesting levels. */
  datatype ListDef = ListDef(id: string, levels: nat)

  /** A fetched document. Dictionaries iterated by the source are sequences in their iteration order. */
  datatype Document = Document(
    inlineObjects: InlineObjects,
    body: seq<StructuralElement>,
    tabs: seq<Tab>,
    namedRanges: seq<NamedRange>,
    suggestedChanges: seq<SuggestedChange>,
    footnotes: seq<Footnote>,
    documentStyle: Option<DocumentStyle>,
    lists: seq<ListDef>)
}
