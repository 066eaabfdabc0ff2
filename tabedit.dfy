/**
 * `edit_tab_content` once the document has been fetched: the search for the target tab
 * in the raw tab tree, the insertion index, the text to insert, the response message and
 * the eviction of the cached document after a successful update.
 */
module TabEdit {
  import opened Wrappers
  import opened Text
  import opened DocModel
  import opened DocCache
  import TabLocator

  // ---------------------------------------------------------------------------
  // Finding the target tab

  /** The tabs in the order the search visits them: each tab, then its children. */
  function Visited(tabs: seq<Tab>): seq<Tab> {
    if |tabs| == 0 then [] else [tabs[0]] + tabs[0].childTabs + Visited(tabs[1..])
  }

  /**
   * Whether the search stops at `t`: by name, the lower-cased raw identifier occurs in
   * the lower-cased title (absent titles read as empty); by id, `tabProperties.tabId` is
   * the extracted id.
   */
  predicate Hit(t: Tab, searchByName: bool, tabIdentifier: string, tabId: string) {
    if searchByName then Contains(Lower(t.properties.title.GetOr("")), Lower(tabIdentifier))
    else t.properties.tabId == Some(tabId)
  }

  /** The position of the first tab in `ts` where the search stops. */
  function FirstHit(ts: seq<Tab>, searchByName: bool, tabIdentifier: string, tabId: string): (r: Option<nat>)
    ensures r.None? <==> forall k :: 0 <= k < |ts| ==> !Hit(ts[k], searchByName, tabIdentifier, tabId)
    ensures r.Some? ==> r.value < |ts| && Hit(ts[r.value], searchByName, tabIdentifier, tabId)
                        && forall k :: 0 <= k < r.value ==> !Hit(ts[k], searchByName, tabIdentifier, tabId)
    decreases |ts|
  {
    if |ts| == 0 then None
    else if Hit(ts[0], searchByName, tabIdentifier, tabId) then Some(0)
    else
      var r := FirstHit(ts[1..], searchByName, tabIdentifier, tabId);
      assert forall k :: 0 < k < |ts| ==> ts[k] == ts[1..][k - 1];
      if r.None? then None else Some(r.value + 1)
  }

  /** The tab the search must find, if any. */
  function TargetOf(tabs: seq<Tab>, searchByName: bool, tabIdentifier: string, tabId: string): Option<Tab> {
    match FirstHit(Visited(tabs), searchByName, tabIdentifier, tabId)
    case Some(k) => Some(Visited(tabs)[k])
    case None => None
  }

  /** The `tab_id` the insert request carries: the found tab's own id after a search by name. */
  function RequestTabId(target: Tab, searchByName: bool, tabId: string): Option<string> {
    if searchByName then target.properties.tabId else Some(tabId)
  }

  lemma {:induction false} VisitedAppend(tabs: seq<Tab>, t: Tab)
    ensures Visited(tabs + [t]) == Visited(tabs) + ([t] + t.childTabs)
    decreases |tabs|
  {
    if |tabs| == 0 {
      assert Visited([t]) == [t] + t.childTabs + Visited([]);
    } else {
      assert (tabs + [t])[1..] == tabs[1..] + [t];
      VisitedAppend(tabs[1..], t);
    }
  }

  lemma {:induction false} VisitedSplit(tabs: seq<Tab>, i: nat)
    requires i < |tabs|
    ensures Visited(tabs) == Visited(tabs[..i]) + ([tabs[i]] + tabs[i].childTabs) + Visited(tabs[i + 1..])
    decreases i
  {
    if i == 0 {
      assert tabs[..0] == [];
      assert tabs[1..] == tabs[i + 1..];
    } else {
      VisitedSplit(tabs[1..], i - 1);
      assert tabs[1..][..i - 1] == tabs[1..i];
      assert tabs[1..][i - 1] == tabs[i];
      assert tabs[1..][i..] == tabs[i + 1..];
      assert Visited(tabs[..i]) == [tabs[0]] + tabs[0].childTabs + Visited(tabs[1..i]) by {
        assert tabs[..i][1..] == tabs[1..i];
      }
    }
  }

  /** A hit at `k` with none before it is the first hit. */
  lemma FirstHitAt(ts: seq<Tab>, searchByName: bool, tabIdentifier: string, tabId: string, k: nat)
    requires k < |ts| && Hit(ts[k], searchByName, tabIdentifier, tabId)
    requires forall k' :: 0 <= k' < k ==> !Hit(ts[k'], searchByName, tabIdentifier, tabId)
    ensures FirstHit(ts, searchByName, tabIdentifier, tabId) == Some(k)
  {
  }

  /** The tab loop of the search, each tab checked before its children, left with `break`. */
  method FindTargetTab(tabs: seq<Tab>, tabIdentifier: string, tabId: string, searchByName: bool)
    returns (target: Option<Tab>, newTabId: Option<string>)
    ensures target == TargetOf(tabs, searchByName, tabIdentifier, tabId)
    ensures target.Some? ==> newTabId == RequestTabId(target.value, searchByName, tabId)
  {
    target := None;
    newTabId := Some(tabId);
    var i := 0;
    while i < |tabs|
      invariant 0 <= i <= |tabs|
      invariant NoHitIn(Visited(tabs[..i]), searchByName, tabIdentifier, tabId)
    {
      var tab := tabs[i];
      VisitedSplit(tabs, i);
      ghost var before := Visited(tabs[..i]);
      if Hit(tab, searchByName, tabIdentifier, tabId) {
        target := Some(tab);
        newTabId := RequestTabId(tab, searchByName, tabId);
        assert Visited(tabs)[|before|] == tab;
        FirstHitAt(Visited(tabs), searchByName, tabIdentifier, tabId, |before|);
        return;
      }
      var j := FindChild(tab.childTabs, tabIdentifier, tabId, searchByName);
      if j < |tab.childTabs| {
        var child := tab.childTabs[j];
        target := Some(child);
        newTabId := RequestTabId(child, searchByName, tabId);
        ChildHitFirst(tabs, i, j, searchByName, tabIdentifier, tabId);
        return;
      }
      NoHitStep(tabs, i, searchByName, tabIdentifier, tabId);
      i := i + 1;
    }
    assert tabs[..i] == tabs;
  }

  /** A first hit at child `j` of tab `i`, with none before it, is the target. */
  lemma ChildHitFirst(tabs: seq<Tab>, i: nat, j: nat, searchByName: bool, tabIdentifier: string, tabId: string)
    requires i < |tabs| && j < |tabs[i].childTabs|
    requires forall k :: 0 <= k < |Visited(tabs[..i])| ==> !Hit(Visited(tabs[..i])[k], searchByName, tabIdentifier, tabId)
    requires !Hit(tabs[i], searchByName, tabIdentifier, tabId)
    requires Hit(tabs[i].childTabs[j], searchByName, tabIdentifier, tabId)
    requires forall j' :: 0 <= j' < j ==> !Hit(tabs[i].childTabs[j'], searchByName, tabIdentifier, tabId)
    ensures TargetOf(tabs, searchByName, tabIdentifier, tabId) == Some(tabs[i].childTabs[j])
  {
    var tab := tabs[i];
    var before := Visited(tabs[..i]);
    VisitedSplit(tabs, i);
    var k := |before| + 1 + j;
    assert Visited(tabs)[k] == tab.childTabs[j];
    assert forall k' :: |before| < k' < k ==> Visited(tabs)[k'] == tab.childTabs[k' - |before| - 1];
    FirstHitAt(Visited(tabs), searchByName, tabIdentifier, tabId, k);
  }

  /** No tab of `ts` is one where the search stops. */
  predicate NoHitIn(ts: seq<Tab>, searchByName: bool, tabIdentifier: string, tabId: string) {
    forall k :: 0 <= k < |ts| ==> !Hit(ts[k], searchByName, tabIdentifier, tabId)
  }

  /** A tab with no hit in itself or its children extends the part of the tree without hits. */
  lemma NoHitStep(tabs: seq<Tab>, i: nat, searchByName: bool, tabIdentifier: string, tabId: string)
    requires i < |tabs|
    requires forall k :: 0 <= k < |Visited(tabs[..i])| ==> !Hit(Visited(tabs[..i])[k], searchByName, tabIdentifier, tabId)
    requires !Hit(tabs[i], searchByName, tabIdentifier, tabId)
    requires forall j' :: 0 <= j' < |tabs[i].childTabs| ==> !Hit(tabs[i].childTabs[j'], searchByName, tabIdentifier, tabId)
    ensures NoHitIn(Visited(tabs[..i + 1]), searchByName, tabIdentifier, tabId)
  {
    VisitedAppend(tabs[..i], tabs[i]);
    assert tabs[..i + 1] == tabs[..i] + [tabs[i]];
  }

  /** The child loop of the search: the position of the first child hit, or `|children|`. */
  method FindChild(children: seq<Tab>, tabIdentifier: string, tabId: string, searchByName: bool) returns (j: nat)
    ensures j <= |children|
    ensures j < |children| ==> Hit(children[j], searchByName, tabIdentifier, tabId)
    ensures forall j' :: 0 <= j' < j ==> !Hit(children[j'], searchByName, tabIdentifier, tabId)
  {
    j := 0;
    while j < |children|
      invariant j <= |children|
      invariant forall j' :: 0 <= j' < j ==> !Hit(children[j'], searchByName, tabIdentifier, tabId)
    {
      if Hit(children[j], searchByName, tabIdentifier, tabId) {
        return;
      }
      j := j + 1;
    }
  }

  /** Without a hit anywhere the search finds nothing; a found tab is a hit of the tree. */
  lemma TargetIff(tabs: seq<Tab>, searchByName: bool, tabIdentifier: string, tabId: string)
    ensures TargetOf(tabs, searchByName, tabIdentifier, tabId).None?
        <==> forall t :: t in Visited(tabs) ==> !Hit(t, searchByName, tabIdentifier, tabId)
    ensures TargetOf(tabs, searchByName, tabIdentifier, tabId).Some? ==>
      var t := TargetOf(tabs, searchByName, tabIdentifier, tabId).value;
      t in Visited(tabs) && Hit(t, searchByName, tabIdentifier, tabId)
  {
  }

  /** A matching top-level tab wins over its own children and over every later tab. */
  lemma TabBeforeItsChildren(tabs: seq<Tab>, searchByName: bool, tabIdentifier: string, tabId: string, i: nat)
    requires i < |tabs| && Hit(tabs[i], searchByName, tabIdentifier, tabId)
    requires forall k :: 0 <= k < |Visited(tabs[..i])| ==> !Hit(Visited(tabs[..i])[k], searchByName, tabIdentifier, tabId)
    ensures TargetOf(tabs, searchByName, tabIdentifier, tabId) == Some(tabs[i])
  {
    VisitedSplit(tabs, i);
    var before := Visited(tabs[..i]);
    assert Visited(tabs)[|before|] == tabs[i];
    FirstHitAt(Visited(tabs), searchByName, tabIdentifier, tabId, |before|);
  }

  // ---------------------------------------------------------------------------
  // The insertion index

  function Max(a: int, b: int): int {
    if a >= b then a else b
  }

  /** An element with both `paragraph` and `endIndex`. */
  predicate ParagraphWithEnd(e: StructuralElement) {
    e.kind.ParagraphKind? && e.endIndex.Some?
  }

  /** An element whose `endIndex` exceeds 10. */
  predicate LateEnd(e: StructuralElement) {
    e.endIndex.Some? && e.endIndex.value > 10
  }

  /** The position of the last paragraph element with an end index. */
  function LastParagraph(es: seq<StructuralElement>): (r: Option<nat>)
    ensures r.None? <==> forall k :: 0 <= k < |es| ==> !ParagraphWithEnd(es[k])
    ensures r.Some? ==> r.value < |es| && ParagraphWithEnd(es[r.value])
                        && forall k :: r.value < k < |es| ==> !ParagraphWithEnd(es[k])
    decreases |es|
  {
    if |es| == 0 then None
    else if ParagraphWithEnd(es[|es| - 1]) then Some(|es| - 1)
    else LastParagraph(es[..|es| - 1])
  }

  /** The position of the last element whose end index exceeds 10. */
  function LastLate(es: seq<StructuralElement>): (r: Option<nat>)
    ensures r.None? <==> forall k :: 0 <= k < |es| ==> !LateEnd(es[k])
    ensures r.Some? ==> r.value < |es| && LateEnd(es[r.value])
                        && forall k :: r.value < k < |es| ==> !LateEnd(es[k])
    decreases |es|
  {
    if |es| == 0 then None
    else if LateEnd(es[|es| - 1]) then Some(|es| - 1)
    else LastLate(es[..|es| - 1])
  }

  /** The index the first reverse scan settles on (1 when it finds nothing). */
  function ParagraphIndex(es: seq<StructuralElement>): int {
    match LastParagraph(es)
    case Some(k) => Max(1, es[k].endIndex.value - 3)
    case None => 1
  }

  /** The index for position `end`: the fallback scan runs only when the first gave 1. */
  function EndIndex(es: seq<StructuralElement>): int {
    if ParagraphIndex(es) != 1 then ParagraphIndex(es)
    else
      match LastLate(es)
      case Some(k) => Max(1, es[k].endIndex.value - 10)
      case None => 1
  }

  /** The insertion index for `position`, or `None` for a position that is not supported. */
  function PlannedIndex(position: string, es: seq<StructuralElement>): (r: Option<int>)
    ensures r.Some? ==> r.value >= 1
    ensures r.None? <==> position != "end" && position != "beginning"
    ensures position == "beginning" ==> r == Some(1)
  {
    if position == "end" then Some(EndIndex(es))
    else if position == "beginning" then Some(1)
    else None
  }

  /**
   * For `end`, when the last paragraph element with an end index `e` has `e > 4`, the
   * index is `e - 3`; otherwise the last element with end index `e' > 10` gives `e' - 10`,
   * and 1 when there is none.
   */
  lemma EndIndexCases(es: seq<StructuralElement>)
    ensures var p := LastParagraph(es);
            var l := LastLate(es);
            (p.Some? && es[p.value].endIndex.value > 4 ==> EndIndex(es) == es[p.value].endIndex.value - 3)
            && (!(p.Some? && es[p.value].endIndex.value > 4) && l.Some? ==> EndIndex(es) == es[l.value].endIndex.value - 10)
            && (!(p.Some? && es[p.value].endIndex.value > 4) && l.None? ==> EndIndex(es) == 1)
  {
  }

  /** The two reverse scans of position `end`, each left with `break`. */
  method ComputeEndIndex(es: seq<StructuralElement>) returns (endIndex: int)
    ensures endIndex == EndIndex(es)
  {
    endIndex := 1;
    var k := |es|;
    while k > 0
      invariant 0 <= k <= |es|
      invariant forall k' :: k <= k' < |es| ==> !ParagraphWithEnd(es[k'])
    {
      k := k - 1;
      if es[k].kind.ParagraphKind? && es[k].endIndex.Some? {
        endIndex := Max(1, es[k].endIndex.value - 3);
        assert LastParagraph(es) == Some(k);
        break;
      }
    }
    assert endIndex == ParagraphIndex(es);
    if endIndex == 1 {
      k := |es|;
      while k > 0
        invariant 0 <= k <= |es|
        invariant endIndex == 1
        invariant forall k' :: k <= k' < |es| ==> !LateEnd(es[k'])
      {
        k := k - 1;
        if es[k].endIndex.Some? && es[k].endIndex.value > 10 {
          endIndex := Max(1, es[k].endIndex.value - 10);
          assert LastLate(es) == Some(k);
          break;
        }
      }
    }
  }

  /** A `"\n"` goes before the content exactly when inserting at `end` past index 1. */
  function TextToInsert(position: string, index: int, contentToAdd: string): (r: string)
    ensures position == "end" && index > 1 ==> r == "\n" + contentToAdd
    ensures !(position == "end" && index > 1) ==> r == contentToAdd
  {
    if position == "end" && index > 1 then "\n" + contentToAdd else contentToAdd
  }

  // ---------------------------------------------------------------------------
  // The edit

  /** The `insertText` request of the batch update. */
  datatype InsertRequest = InsertRequest(index: int, tabId: Option<string>, text: string)

  /** The body content of a tab, empty without a `documentTab`. */
  function TabBody(t: Tab): seq<StructuralElement> {
    if t.documentTab.Some? then t.documentTab.value.body else []
  }

  /** The request the edit issues, if it gets that far. */
  function PlannedRequest(tabs: seq<Tab>, tabIdentifier: string, tabId: string, searchByName: bool,
                          position: string, contentToAdd: string): Option<InsertRequest>
  {
    match TargetOf(tabs, searchByName, tabIdentifier, tabId)
    case None => None
    case Some(t) =>
      match PlannedIndex(position, TabBody(t))
      case None => None
      case Some(index) => Some(InsertRequest(index, RequestTabId(t, searchByName, tabId), TextToInsert(position, index, contentToAdd)))
  }

  /** A tab id as Python formats it, `None` when absent. */
  function IdText(id: Option<string>): string {
    match id
    case Some(s) => s
    case None => "None"
  }

  function AvailableChildren(children: seq<Tab>): seq<string> {
    if |children| == 0 then []
    else ["  - " + children[0].properties.title.GetOr("Untitled") + " (ID: " + children[0].properties.tabId.GetOr("unknown") + ") [subtab]"]
         + AvailableChildren(children[1..])
  }

  /** The tab listing of the not-found message: every tab, then its children. */
  function AvailableTabs(tabs: seq<Tab>): seq<string> {
    if |tabs| == 0 then []
    else ["- " + tabs[0].properties.title.GetOr("Untitled") + " (ID: " + tabs[0].properties.tabId.GetOr("unknown") + ")"]
         + AvailableChildren(tabs[0].childTabs) + AvailableTabs(tabs[1..])
  }

  /** The listing has one line per visited tab. */
  lemma {:induction false} AvailableTabsCount(tabs: seq<Tab>)
    ensures |AvailableTabs(tabs)| == |Visited(tabs)|
    decreases |tabs|
  {
    if |tabs| > 0 {
      AvailableChildrenCount(tabs[0].childTabs);
      AvailableTabsCount(tabs[1..]);
    }
  }

  lemma {:induction false} AvailableChildrenCount(children: seq<Tab>)
    ensures |AvailableChildren(children)| == |children|
    decreases |children|
  {
    if |children| > 0 {
      AvailableChildrenCount(children[1..]);
    }
  }

  function NotFoundMessage(tabIdentifier: string, documentId: string, tabs: seq<Tab>): string {
    "Tab '" + tabIdentifier + "' not found in document " + documentId + ".\n\nAvailable tabs:\n" + Join("\n", AvailableTabs(tabs))
  }

  function UnsupportedMessage(position: string): string {
    "Position '" + position + "' not supported. Use 'end' or 'beginning'."
  }

  function HttpErrorMessage(error: string): string {
    "HTTP error while editing tab content: " + error
  }

  function SuccessMessage(t: Tab, tabId: Option<string>, position: string, documentId: string, contentToAdd: string): string {
    "Successfully added content to tab '" + t.properties.title.GetOr("Unknown") + "' (ID: " + IdText(tabId)
    + ") at position '" + position + "' in document " + documentId + ".\n\nContent added: " + contentToAdd
  }

  /**
   * `edit_tab_content` for the fetched document `doc`. `tabParams` are the `tab` query
   * values of the identifier when it is a URL. `request` is the batch update the edit
   * sends, if any; `updateError` is that update's outcome (an HTTP error text, or `None`
   * for success). The cached document is evicted exactly when the update succeeds.
   */
  method EditTabContent(cache: DocumentCache, documentId: string, doc: Document, tabIdentifier: string,
                        tabParams: seq<string>, contentToAdd: string, position: string, searchByName: bool,
                        updateError: Option<string>)
    returns (response: string, request: Option<InsertRequest>)
    modifies cache
    ensures var tabId := TabLocator.ExtractTabId(tabIdentifier, tabParams);
            request == PlannedRequest(doc.tabs, tabIdentifier, tabId, searchByName, position, contentToAdd)
    ensures var target := TargetOf(doc.tabs, searchByName, tabIdentifier, TabLocator.ExtractTabId(tabIdentifier, tabParams));
            (target.None? ==> response == NotFoundMessage(tabIdentifier, documentId, doc.tabs))
            && (target.Some? && PlannedIndex(position, TabBody(target.value)).None? ==> response == UnsupportedMessage(position))
            && (request.Some? && updateError.Some? ==> response == HttpErrorMessage(updateError.value))
            && (request.Some? && updateError.None? ==>
                  response == SuccessMessage(target.value, request.value.tabId, position, documentId, contentToAdd))
    ensures cache.entries == if request.Some? && updateError.None? then old(cache.entries) - {documentId} else old(cache.entries)
  {
    var tabId := TabLocator.ExtractTabId(tabIdentifier, tabParams);
    var target, newTabId := FindTargetTab(doc.tabs, tabIdentifier, tabId, searchByName);
    if target.None? {
      return NotFoundMessage(tabIdentifier, documentId, doc.tabs), None;
    }
    var body := TabBody(target.value);
    var index: int;
    if position == "end" {
      index := ComputeEndIndex(body);
    } else if position == "beginning" {
      index := 1;
    } else {
      return UnsupportedMessage(position), None;
    }
    var text := if position == "end" && index > 1 then "\n" + contentToAdd else contentToAdd;
    request := Some(InsertRequest(index, newTabId, text));
    if updateError.Some? {
      return HttpErrorMessage(updateError.value), request;
    }
    cache.Invalidate(documentId);
    response := SuccessMessage(target.value, newTabId, position, documentId, contentToAdd);
  }

  /** An edit that succeeds leaves every other cached document as it was. */
  method EditKeepsOtherDocuments(cache: DocumentCache, documentId: string, doc: Document, tabIdentifier: string,
                                 tabParams: seq<string>, contentToAdd: string, position: string, searchByName: bool,
                                 other: string)
    returns (response: string, request: Option<InsertRequest>)
    requires other != documentId
    modifies cache
    ensures documentId !in cache.entries || request.None?
    ensures other in cache.entries <==> other in old(cache.entries)
    ensures other in cache.entries ==> cache.entries[other] == old(cache.entries)[other]
  {
    response, request := EditTabContent(cache, documentId, doc, tabIdentifier, tabParams, contentToAdd, position, searchByName, None);
  }
}
