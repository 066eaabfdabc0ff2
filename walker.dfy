/**
 * The document walker: the body of `_extract_document_content_with_tabs` after the
 * fetch. It renders the body, every tab and one level of child tabs into a flat list
 * of lines, builds the `tabs_data` index, appends the metadata block, and reads and
 * writes the document cache around all of it.
 */
module Walker {
  import opened Wrappers
  import opened Text
  import opened Dict
  import opened DocModel
  import opened Renderer
  import opened TabIndex
  import opened DocCache

  const ContentLabel: string := "--- CONTENIDO ---"
  const TabsHeader: string := "\n=== CONTENIDO DE PESTAÑAS ==="
  const MetadataHeader: string := "\n=== METADATOS DEL DOCUMENTO ==="

  // ---------------------------------------------------------------------------
  // Metadata block (`extract_document_metadata`)

  function SpanLines(spans: seq<RangeSpan>): seq<string>
    decreases |spans|
  {
    if |spans| == 0 then []
    else ["  - Position: " + IntToString(spans[0].start) + "-" + IntToString(spans[0].end)] + SpanLines(spans[1..])
  }

  function NamedRangeLines(ranges: seq<NamedRange>): seq<string>
    decreases |ranges|
  {
    if |ranges| == 0 then []
    else ["Range: " + ranges[0].name] + SpanLines(ranges[0].spans) + NamedRangeLines(ranges[1..])
  }

  function SuggestedChangeLines(changes: seq<SuggestedChange>): seq<string>
    decreases |changes|
  {
    if |changes| == 0 then []
    else ["Change ID: " + changes[0].id + " - Type: " + changes[0].suggestionType] + SuggestedChangeLines(changes[1..])
  }

  /** Every paragraph of a footnote, blank or not, rendered with the document's inline objects. */
  function FootnoteParagraphTexts(content: seq<StructuralElement>, objects: InlineObjects): seq<string>
    decreases |content|
  {
    if |content| == 0 then []
    else
      var rest := FootnoteParagraphTexts(content[1..], objects);
      if content[0].kind.ParagraphKind? then [RenderParagraph(content[0].kind.paragraph, objects)] + rest else rest
  }

  function FootnoteLines(notes: seq<Footnote>, objects: InlineObjects): seq<string>
    decreases |notes|
  {
    if |notes| == 0 then []
    else ["Footnote " + notes[0].id + ": " + Concat(FootnoteParagraphTexts(notes[0].content, objects))]
         + FootnoteLines(notes[1..], objects)
  }

  function StyleLines(style: DocumentStyle): seq<string> {
    (if style.pageSize.Some?
     then ["Page Size: " + style.pageSize.value.width + " x " + style.pageSize.value.height + " " + style.pageSize.value.unit]
     else [])
    + (if style.marginTop.Some? then ["Top Margin: " + style.marginTop.value.top + " " + style.marginTop.value.unit] else [])
  }

  function ListLines(lists: seq<ListDef>): seq<string>
    decreases |lists|
  {
    if |lists| == 0 then []
    else ["List ID: " + lists[0].id + " - Levels: " + NatToString(lists[0].levels)] + ListLines(lists[1..])
  }

  /** A section: its header and its lines, or nothing when the source dictionary is empty. */
  function Section(present: bool, header: string, lines: seq<string>): seq<string> {
    if present then [header] + lines else []
  }

  function MetadataLines(doc: Document): seq<string> {
    Section(|doc.namedRanges| > 0, "\n=== NAMED RANGES ===", NamedRangeLines(doc.namedRanges))
    + Section(|doc.suggestedChanges| > 0, "\n=== SUGGESTED CHANGES ===", SuggestedChangeLines(doc.suggestedChanges))
    + Section(|doc.footnotes| > 0, "\n=== FOOTNOTES ===", FootnoteLines(doc.footnotes, doc.inlineObjects))
    + Section(doc.documentStyle.Some?, "\n=== DOCUMENT STYLE ===",
              if doc.documentStyle.Some? then StyleLines(doc.documentStyle.value) else [])
    + Section(|doc.lists| > 0, "\n=== LISTS ===", ListLines(doc.lists))
  }

  /** `extract_document_metadata`: the lines joined by newlines, or "" when there are none. */
  function MetadataText(doc: Document): string {
    var lines := MetadataLines(doc);
    if |lines| > 0 then Join("\n", lines) else ""
  }

  /** The metadata text is empty exactly when the document has none of the five kinds of metadata. */
  lemma MetadataEmptyIff(doc: Document)
    ensures MetadataText(doc) == "" <==>
            (|doc.namedRanges| == 0 && |doc.suggestedChanges| == 0 && |doc.footnotes| == 0
             && doc.documentStyle.None? && |doc.lists| == 0)
  {
    var lines := MetadataLines(doc);
    if |lines| > 0 {
      JoinStartsWith("\n", lines);
      assert |lines[0]| > 0;
    }
  }

  // ---------------------------------------------------------------------------
  // Tabs and child tabs

  /** `tab.get('tabId', f'tab_{i}')`. */
  function TabKey(t: Tab, i: nat): string {
    t.tabId.GetOr("tab_" + NatToString(i))
  }

  /** `child_tab.get('tabId', f'child_tab_{j}')`. */
  function ChildKey(c: Tab, j: nat): string {
    c.tabId.GetOr("child_tab_" + NatToString(j))
  }

  /** A tab with a `documentTab` whose body has content. */
  predicate HasBody(t: Tab) {
    t.documentTab.Some? && |t.documentTab.value.body| > 0
  }

  /** The tab's own inline objects when it has them, else the document's. */
  function ObjectsFor(dt: DocumentTab, docObjects: InlineObjects): InlineObjects {
    dt.inlineObjects.GetOr(docObjects)
  }

  function BodyLines(t: Tab, indent: string, docObjects: InlineObjects): seq<string>
    requires t.documentTab.Some?
  {
    ProcessContentElements(t.documentTab.value.body, indent, ObjectsFor(t.documentTab.value, docObjects))
  }

  /** The lines emitted for child tab `j`. */
  function ChildEntryLines(c: Tab, j: nat, docObjects: InlineObjects): seq<string> {
    ["  ID de Pestaña Secundaria: " + ChildKey(c, j)]
    + (if HasBody(c) then ["  Contenido de Pestaña Secundaria:"] + BodyLines(c, "    ", docObjects) else [])
  }

  function ChildInfoOf(c: Tab, j: nat, docObjects: InlineObjects): ChildInfo
    requires HasBody(c)
  {
    ChildInfo(ChildKey(c, j), c.properties, BodyLines(c, "    ", docObjects))
  }

  /** The lines emitted for the first `n` child tabs. */
  function ChildrenLines(children: seq<Tab>, n: nat, docObjects: InlineObjects): seq<string>
    requires n <= |children|
  {
    if n == 0 then [] else ChildrenLines(children, n - 1, docObjects) + ChildEntryLines(children[n - 1], n - 1, docObjects)
  }

  /** The assignments the first `n` iterations of the child loop make: one per child with a body. */
  function ChildEntries(children: seq<Tab>, n: nat, docObjects: InlineObjects): seq<Entry<ChildInfo>>
    requires n <= |children|
  {
    if n == 0 then []
    else
      var c := children[n - 1];
      ChildEntries(children, n - 1, docObjects)
      + (if HasBody(c) then [Entry(ChildKey(c, n - 1), ChildInfoOf(c, n - 1, docObjects))] else [])
  }

  /** `tab_info['child_tabs']` after the first `n` child tabs. */
  function ChildrenData(children: seq<Tab>, n: nat, docObjects: InlineObjects): seq<Entry<ChildInfo>>
    requires n <= |children|
  {
    AssignAll(ChildEntries(children, n, docObjects))
  }

  /** The child map after child `j` is seen: only a child with a body is stored. */
  function ChildStored(prev: seq<Entry<ChildInfo>>, c: Tab, j: nat, docObjects: InlineObjects): seq<Entry<ChildInfo>> {
    if HasBody(c) then Assign(prev, ChildKey(c, j), ChildInfoOf(c, j, docObjects)) else prev
  }

  /** `tab_info['content']`. */
  function TabContent(t: Tab, docObjects: InlineObjects): seq<string> {
    if HasBody(t) then BodyLines(t, "  ", docObjects) else []
  }

  /** `tabs_data[tab_id]` for tab `i`. */
  function TabInfoOf(t: Tab, i: nat, docObjects: InlineObjects): TabInfo {
    TabInfo(TabKey(t, i), t.properties, TabContent(t, docObjects), ChildrenData(t.childTabs, |t.childTabs|, docObjects))
  }

  function TabHeaderLines(t: Tab, i: nat): seq<string> {
    ["\n--- ID DE PESTAÑA: " + TabKey(t, i) + " ---",
     "Título de Pestaña: " + t.properties.title.GetOr("Untitled Tab"),
     "Índice de Pestaña: " + IntToString(t.properties.index.GetOr(i))]
  }

  /** The lines emitted for tab `i`. */
  function TabEntryLines(t: Tab, i: nat, docObjects: InlineObjects): seq<string> {
    TabHeaderLines(t, i)
    + (if HasBody(t) then ["Contenido de Pestaña:"] + BodyLines(t, "  ", docObjects) else [])
    + (if |t.childTabs| > 0
       then ["Pestañas secundarias: " + NatToString(|t.childTabs|)] + ChildrenLines(t.childTabs, |t.childTabs|, docObjects)
       else [])
  }

  function TabsLines(tabs: seq<Tab>, n: nat, docObjects: InlineObjects): seq<string>
    requires n <= |tabs|
  {
    if n == 0 then [] else TabsLines(tabs, n - 1, docObjects) + TabEntryLines(tabs[n - 1], n - 1, docObjects)
  }

  /** The assignments `tabs_data[tab_id] = tab_info` the first `n` iterations of the tab loop make. */
  function TabEntries(tabs: seq<Tab>, n: nat, docObjects: InlineObjects): (r: seq<Entry<TabInfo>>)
    requires n <= |tabs|
    ensures |r| == n
  {
    if n == 0 then []
    else TabEntries(tabs, n - 1, docObjects) + [Entry(TabKey(tabs[n - 1], n - 1), TabInfoOf(tabs[n - 1], n - 1, docObjects))]
  }

  /** `tabs_data` after the first `n` tabs. */
  function TabsDataOf(tabs: seq<Tab>, n: nat, docObjects: InlineObjects): TabsData
    requires n <= |tabs|
  {
    AssignAll(TabEntries(tabs, n, docObjects))
  }

  // ---------------------------------------------------------------------------
  // The whole document

  /** `processed_content`. */
  function DocumentLines(doc: Document): seq<string> {
    [ContentLabel]
    + ProcessContentElements(doc.body, "", doc.inlineObjects)
    + (if |doc.tabs| > 0 then [TabsHeader] + TabsLines(doc.tabs, |doc.tabs|, doc.inlineObjects) else [])
    + (if MetadataText(doc) != "" then [MetadataHeader, MetadataText(doc)] else [])
  }

  function RenderedContent(doc: Document): string {
    Join("\n", DocumentLines(doc))
  }

  function DocumentTabsData(doc: Document): TabsData {
    TabsDataOf(doc.tabs, |doc.tabs|, doc.inlineObjects)
  }

  /** The rendered content always begins with the content label. */
  lemma ContentBeginsWithLabel(doc: Document)
    ensures StartsWith(RenderedContent(doc), ContentLabel)
  {
    JoinStartsWith("\n", DocumentLines(doc));
  }

  /** `tabs_data` has one key per top-level tab: its `tabId`, or `tab_{i}` when it has none. */
  lemma TabsDataKeys(tabs: seq<Tab>, n: nat, docObjects: InlineObjects)
    requires n <= |tabs|
    ensures Keys(TabsDataOf(tabs, n, docObjects)) == set i | 0 <= i < n :: TabKey(tabs[i], i)
    ensures DistinctKeys(TabsDataOf(tabs, n, docObjects))
  {
    var es := TabEntries(tabs, n, docObjects);
    AssignAllKeys(es);
    forall x | x in Keys(es) ensures x in set i | 0 <= i < n :: TabKey(tabs[i], i) {
      var i :| 0 <= i < |es| && es[i].key == x;
      TabEntryAt(tabs, n, docObjects, i);
    }
    forall x | x in (set i | 0 <= i < n :: TabKey(tabs[i], i)) ensures x in Keys(es) {
      var i :| 0 <= i < n && TabKey(tabs[i], i) == x;
      TabEntryAt(tabs, n, docObjects, i);
      assert es[i].key == x;
    }
  }

  /** The assignment made by iteration `i` of the tab loop. */
  lemma {:induction false} TabEntryAt(tabs: seq<Tab>, n: nat, docObjects: InlineObjects, i: nat)
    requires i < n <= |tabs|
    ensures TabEntries(tabs, n, docObjects)[i] == Entry(TabKey(tabs[i], i), TabInfoOf(tabs[i], i, docObjects))
    decreases n
  {
    if i < n - 1 {
      TabEntryAt(tabs, n - 1, docObjects, i);
    }
  }

  /** With distinct tab keys, `tabs_data` has exactly as many entries as the document has tabs. */
  lemma TabsDataSize(tabs: seq<Tab>, n: nat, docObjects: InlineObjects)
    requires n <= |tabs|
    requires forall i, j :: 0 <= i < j < |tabs| ==> TabKey(tabs[i], i) != TabKey(tabs[j], j)
    ensures |TabsDataOf(tabs, n, docObjects)| == n
  {
    var es := TabEntries(tabs, n, docObjects);
    forall i, j | 0 <= i < j < |es| ensures es[i].key != es[j].key {
      TabEntryAt(tabs, n, docObjects, i);
      TabEntryAt(tabs, n, docObjects, j);
    }
    AssignAllSize(es);
  }

  /** A tab's entry in `tabs_data` is its own info, unless a later tab reuses its key (the later one wins). */
  lemma TabsDataEntry(tabs: seq<Tab>, n: nat, docObjects: InlineObjects, i: nat)
    requires i < n <= |tabs|
    requires forall j :: i < j < n ==> TabKey(tabs[j], j) != TabKey(tabs[i], i)
    ensures Get(TabsDataOf(tabs, n, docObjects), TabKey(tabs[i], i)) == Some(TabInfoOf(tabs[i], i, docObjects))
  {
    var es := TabEntries(tabs, n, docObjects);
    TabEntryAt(tabs, n, docObjects, i);
    forall j | i < j < |es| ensures es[j].key != es[i].key {
      TabEntryAt(tabs, n, docObjects, j);
    }
    AssignAllLast(es, i);
  }

  /** A child tab is recorded exactly when it has a `documentTab` with body content. */
  lemma ChildrenDataKeys(children: seq<Tab>, n: nat, docObjects: InlineObjects)
    requires n <= |children|
    ensures Keys(ChildrenData(children, n, docObjects))
            == set j | 0 <= j < n && HasBody(children[j]) :: ChildKey(children[j], j)
    ensures DistinctKeys(ChildrenData(children, n, docObjects))
  {
    AssignAllKeys(ChildEntries(children, n, docObjects));
    ChildEntriesKeys(children, n, docObjects);
    ChildKeySetIs(children, n);
  }

  /** The keys assigned by the first `n` iterations of the child loop. */
  function ChildKeySet(children: seq<Tab>, n: nat): set<string>
    requires n <= |children|
  {
    if n == 0 then {}
    else ChildKeySet(children, n - 1) + (if HasBody(children[n - 1]) then {ChildKey(children[n - 1], n - 1)} else {})
  }

  lemma {:induction false} ChildEntriesKeys(children: seq<Tab>, n: nat, docObjects: InlineObjects)
    requires n <= |children|
    ensures Keys(ChildEntries(children, n, docObjects)) == ChildKeySet(children, n)
  {
    if n > 0 {
      ChildEntriesKeys(children, n - 1, docObjects);
      var c := children[n - 1];
      var prev := ChildEntries(children, n - 1, docObjects);
      if HasBody(c) {
        KeysAppendOne(prev, Entry(ChildKey(c, n - 1), ChildInfoOf(c, n - 1, docObjects)));
      } else {
        KeysAppendNone(prev);
      }
    }
  }

  lemma {:induction false} ChildKeySetIs(children: seq<Tab>, n: nat)
    requires n <= |children|
    ensures ChildKeySet(children, n) == set j | 0 <= j < n && HasBody(children[j]) :: ChildKey(children[j], j)
  {
    if n > 0 {
      ChildKeySetIs(children, n - 1);
      ChildSetStep(set j | 0 <= j < n && HasBody(children[j]) :: ChildKey(children[j], j),
                   set j | 0 <= j < n - 1 && HasBody(children[j]) :: ChildKey(children[j], j), children, n);
    }
  }

  lemma ChildSetStep(big: set<string>, small: set<string>, children: seq<Tab>, n: nat)
    requires 0 < n <= |children|
    requires big == set j | 0 <= j < n && HasBody(children[j]) :: ChildKey(children[j], j)
    requires small == set j | 0 <= j < n - 1 && HasBody(children[j]) :: ChildKey(children[j], j)
    ensures big == small + (if HasBody(children[n - 1]) then {ChildKey(children[n - 1], n - 1)} else {})
  {
    forall x | x in big ensures x in small + (if HasBody(children[n - 1]) then {ChildKey(children[n - 1], n - 1)} else {}) {
      var j :| 0 <= j < n && HasBody(children[j]) && ChildKey(children[j], j) == x;
      if j < n - 1 {
        assert x in small;
      }
    }
  }

  /** Without tabs there is no tabs section and the index is empty. */
  lemma NoTabs(doc: Document)
    requires |doc.tabs| == 0
    ensures DocumentTabsData(doc) == []
    ensures DocumentLines(doc)
            == [ContentLabel] + ProcessContentElements(doc.body, "", doc.inlineObjects)
               + (if MetadataText(doc) != "" then [MetadataHeader, MetadataText(doc)] else [])
  {
  }

  /** The metadata section closes the content exactly when there is metadata. */
  lemma MetadataSection(doc: Document)
    ensures MetadataText(doc) != "" ==>
              DocumentLines(doc)[|DocumentLines(doc)| - 2..] == [MetadataHeader, MetadataText(doc)]
    ensures MetadataText(doc) == "" ==>
              |DocumentLines(doc)| == 1 + |ProcessContentElements(doc.body, "", doc.inlineObjects)|
                                      + (if |doc.tabs| > 0 then 1 + |TabsLines(doc.tabs, |doc.tabs|, doc.inlineObjects)| else 0)
  {
  }

  // ---------------------------------------------------------------------------
  // The walk itself

  /** The walk over the fetched document, appending lines and filling `tabs_data` as the source does. */
  method WalkDocument(doc: Document) returns (content: string, tabsData: TabsData)
    ensures content == RenderedContent(doc)
    ensures tabsData == DocumentTabsData(doc)
  {
    var objects := doc.inlineObjects;
    var processed := [ContentLabel];
    if |doc.body| > 0 {
      processed := processed + ProcessContentElements(doc.body, "", objects);
    } else {
      assert processed == [ContentLabel] + ProcessContentElements(doc.body, "", objects);
    }
    ghost var main := processed;
    ghost var tabPart: seq<string> := [];
    tabsData := [];
    assert tabsData == TabsDataOf(doc.tabs, 0, objects);
    if |doc.tabs| > 0 {
      var walked;
      walked, tabsData := WalkTabs(doc.tabs, objects);
      processed := processed + ([TabsHeader] + walked);
      tabPart := [TabsHeader] + walked;
    }
    assert tabPart == (if |doc.tabs| > 0 then [TabsHeader] + TabsLines(doc.tabs, |doc.tabs|, objects) else []);
    assert processed == main + tabPart;
    var metadata := MetadataText(doc);
    ghost var metaPart: seq<string> := [];
    if metadata != "" {
      processed := processed + [MetadataHeader, metadata];
      metaPart := [MetadataHeader, metadata];
    }
    assert processed == main + tabPart + metaPart;
    content := Join("\n", processed);
  }

  /** Concatenation regrouped, kept out of the large contexts of the walker's loops. */
  lemma ConcatAssoc<T>(a: seq<T>, b: seq<T>, c: seq<T>)
    ensures (a + b) + c == a + (b + c)
  {
  }

  /** One more tab appends its entry lines and assigns its `tab_info`. */
  lemma TabsStep(tabs: seq<Tab>, i: nat, docObjects: InlineObjects)
    requires i < |tabs|
    ensures TabsLines(tabs, i + 1, docObjects) == TabsLines(tabs, i, docObjects) + TabEntryLines(tabs[i], i, docObjects)
    ensures TabsDataOf(tabs, i + 1, docObjects)
         == Assign(TabsDataOf(tabs, i, docObjects), TabKey(tabs[i], i), TabInfoOf(tabs[i], i, docObjects))
  {
    AssignAllStep(TabEntries(tabs, i, docObjects), Entry(TabKey(tabs[i], i), TabInfoOf(tabs[i], i, docObjects)));
  }

  /** The loop over the top-level tabs. */
  method WalkTabs(tabs: seq<Tab>, objects: InlineObjects) returns (lines: seq<string>, tabsData: TabsData)
    ensures lines == TabsLines(tabs, |tabs|, objects)
    ensures tabsData == TabsDataOf(tabs, |tabs|, objects)
  {
    lines := [];
    tabsData := [];
    var i := 0;
    while i < |tabs|
      invariant 0 <= i <= |tabs|
      invariant lines == TabsLines(tabs, i, objects)
      invariant tabsData == TabsDataOf(tabs, i, objects)
    {
      lines, tabsData := WalkTabsStep(tabs, i, objects, lines, tabsData);
      i := i + 1;
    }
  }

  /** The state of the tab loop after iteration `i`, from the state before it. */
  method WalkTabsStep(tabs: seq<Tab>, i: nat, objects: InlineObjects, lines: seq<string>, tabsData: TabsData)
    returns (lines': seq<string>, tabsData': TabsData)
    requires i < |tabs|
    requires lines == TabsLines(tabs, i, objects) && tabsData == TabsDataOf(tabs, i, objects)
    ensures lines' == TabsLines(tabs, i + 1, objects)
    ensures tabsData' == TabsDataOf(tabs, i + 1, objects)
  {
    var tabLines, info := WalkTab(tabs[i], i, objects);
    TabsStep(tabs, i, objects);
    lines' := lines + tabLines;
    tabsData' := Assign(tabsData, info.tabId, info);
  }

  /** One iteration of the tab loop: the lines it appends and the `tab_info` it stores. */
  method WalkTab(tab: Tab, i: nat, objects: InlineObjects) returns (lines: seq<string>, info: TabInfo)
    ensures lines == TabEntryLines(tab, i, objects)
    ensures info == TabInfoOf(tab, i, objects)
    ensures info.tabId == TabKey(tab, i)
  {
    var tabId := match tab.tabId case Some(id) => id case None => "tab_" + NatToString(i);
    var title := match tab.properties.title case Some(t) => t case None => "Untitled Tab";
    var index := match tab.properties.index case Some(x) => x case None => i;
    var header := ["\n--- ID DE PESTAÑA: " + tabId + " ---", "Título de Pestaña: " + title, "Índice de Pestaña: " + IntToString(index)];
    assert header == TabHeaderLines(tab, i);
    var bodyPart, content := WalkTabBody(tab, objects);
    var children := tab.childTabs;
    var childTabs := [];
    var childPart := [];
    if |children| > 0 {
      var childLines;
      childLines, childTabs := WalkChildren(children, objects);
      childPart := ["Pestañas secundarias: " + NatToString(|children|)] + childLines;
    }
    lines := header + bodyPart + childPart;
    info := TabInfo(tabId, tab.properties, content, childTabs);
  }

  /** The body part of one tab iteration: the lines it appends and `tab_info['content']`. */
  method WalkTabBody(tab: Tab, objects: InlineObjects) returns (lines: seq<string>, content: seq<string>)
    ensures lines == if HasBody(tab) then ["Contenido de Pestaña:"] + BodyLines(tab, "  ", objects) else []
    ensures content == TabContent(tab, objects)
  {
    lines := [];
    content := [];
    if tab.documentTab.Some? {
      var dt := tab.documentTab.value;
      var tabObjects := match dt.inlineObjects case Some(m) => m case None => objects;
      if |dt.body| > 0 {
        var tabProcessed := ProcessContentElements(dt.body, "  ", tabObjects);
        lines := ["Contenido de Pestaña:"] + tabProcessed;
        content := tabProcessed;
      }
    }
  }

  /** The child-tab loop: the lines it appends and the child map it fills. */
  method WalkChildren(children: seq<Tab>, objects: InlineObjects) returns (lines: seq<string>, childTabs: seq<Entry<ChildInfo>>)
    ensures lines == ChildrenLines(children, |children|, objects)
    ensures childTabs == ChildrenData(children, |children|, objects)
  {
    lines := [];
    childTabs := [];
    var j := 0;
    while j < |children|
      invariant 0 <= j <= |children|
      invariant lines == ChildrenLines(children, j, objects)
      invariant childTabs == ChildrenData(children, j, objects)
    {
      var entryLines;
      entryLines, childTabs := WalkChild(children[j], j, objects, childTabs);
      ChildrenStep(children, j, objects);
      lines := lines + entryLines;
      j := j + 1;
    }
  }

  /** One iteration of the child-tab loop: its lines, and the child map after it. */
  method WalkChild(child: Tab, j: nat, objects: InlineObjects, childTabs: seq<Entry<ChildInfo>>)
    returns (entryLines: seq<string>, stored: seq<Entry<ChildInfo>>)
    ensures entryLines == ChildEntryLines(child, j, objects)
    ensures stored == ChildStored(childTabs, child, j, objects)
  {
    var childId := match child.tabId case Some(id) => id case None => "child_tab_" + NatToString(j);
    assert childId == ChildKey(child, j);
    entryLines := ["  ID de Pestaña Secundaria: " + childId];
    stored := childTabs;
    if child.documentTab.Some? {
      var cdt := child.documentTab.value;
      var childObjects := match cdt.inlineObjects case Some(m) => m case None => objects;
      assert childObjects == ObjectsFor(cdt, objects);
      if |cdt.body| > 0 {
        var childProcessed := ProcessContentElements(cdt.body, "    ", childObjects);
        entryLines := entryLines + (["  Contenido de Pestaña Secundaria:"] + childProcessed);
        stored := Assign(childTabs, childId, ChildInfo(childId, child.properties, childProcessed));
      }
    }
  }

  /** One more child appends its entry lines and stores its info when it has a body. */
  lemma ChildrenStep(children: seq<Tab>, j: nat, docObjects: InlineObjects)
    requires j < |children|
    ensures ChildrenLines(children, j + 1, docObjects)
         == ChildrenLines(children, j, docObjects) + ChildEntryLines(children[j], j, docObjects)
    ensures ChildrenData(children, j + 1, docObjects)
         == ChildStored(ChildrenData(children, j, docObjects), children[j], j, docObjects)
  {
    var c := children[j];
    var prev := ChildEntries(children, j, docObjects);
    if HasBody(c) {
      AssignAllStep(prev, Entry(ChildKey(c, j), ChildInfoOf(c, j, docObjects)));
    } else {
      assert ChildEntries(children, j + 1, docObjects) == prev + [];
      assert prev + [] == prev;
    }
  }

  /**
   * `_extract_document_content_with_tabs` at time `now`. `doc` is what the fetch would
   * return; `fetched` says whether the fetch happens. A fresh cache entry is returned as
   * it is, with no fetch and no change to the cache; otherwise the document is walked
   * and the result is stored under `documentId` stamped with `now`.
   */
  method ExtractDocumentContent(cache: DocumentCache, documentId: string, doc: Document, now: int)
    returns (content: string, tabsData: TabsData, fetched: bool)
    modifies cache
    ensures fetched <==> !IsFresh(old(cache.entries), documentId, now)
    ensures !fetched ==> && content == old(cache.entries)[documentId].content
                         && tabsData == old(cache.entries)[documentId].tabsData
                         && cache.entries == old(cache.entries)
    ensures fetched ==> && content == RenderedContent(doc)
                        && tabsData == DocumentTabsData(doc)
                        && cache.entries == Store(old(cache.entries), documentId, content, tabsData, now)
  {
    var cached := cache.Get(documentId, now);
    if cached.Some? {
      return cached.value.content, cached.value.tabsData, false;
    }
    content, tabsData := WalkDocument(doc);
    cache.Put(documentId, content, tabsData, now);
    fetched := true;
  }

  /**
   * Two extractions of the same document within the time to live: when the first one
   * fetches, the second fetches nothing and returns exactly the text of the first.
   */
  method ExtractTwiceWithinTtl(cache: DocumentCache, documentId: string, doc: Document, first: int, second: int)
    returns (content1: string, fetched1: bool, content2: string, fetched2: bool)
    requires second - first < TtlMicros
    modifies cache
    ensures fetched1 ==> !fetched2 && content2 == content1
  {
    var tabs1, tabs2;
    content1, tabs1, fetched1 := ExtractDocumentContent(cache, documentId, doc, first);
    content2, tabs2, fetched2 := ExtractDocumentContent(cache, documentId, doc, second);
  }
}
