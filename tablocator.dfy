/**
 * The resolution logic of `get_tab_content` over the `tabs_data` index built by the
 * walker (the full-processing path), and `_extract_tab_id_from_url`.
 *
 * The resolution order is fixed: a search by name wins over everything; otherwise a
 * non-empty parent id scopes the lookup to that parent's children; otherwise an exact
 * top-level key wins over a scan of every tab's children, and only when both fail is
 * the listing of every tab produced. The index is only read: every member here is a
 * function of it, or a method that modifies nothing.
 */
module TabLocator {
  import opened Wrappers
  import opened Text
  import opened Dict
  import opened DocModel
  import opened TabIndex

  /**
   * `_extract_tab_id_from_url`. `tabParams` stands for the values of the `tab` query
   * parameter of the URL, as `parse_qs` would return them (empty when there is none).
   */
  function ExtractTabId(urlOrId: string, tabParams: seq<string>): (r: string)
    ensures !StartsWith(urlOrId, "http") ==> r == urlOrId
    ensures StartsWith(urlOrId, "http") && |tabParams| > 0 ==> r == tabParams[0]
    ensures r == urlOrId || (|tabParams| > 0 && r == tabParams[0])
  {
    if StartsWith(urlOrId, "http") && |tabParams| > 0 then tabParams[0] else urlOrId
  }

  // ---------------------------------------------------------------------------
  // Titles, with the defaults each branch of the source uses

  function TabTitle(t: TabInfo): string {
    t.properties.title.GetOr("Untitled Tab")
  }

  function SubtabTitle(c: ChildInfo): string {
    c.properties.title.GetOr("Untitled Subtab")
  }

  /** The default used when the children of a found tab, or of every tab, are listed. */
  function ChildTitle(c: ChildInfo): string {
    c.properties.title.GetOr("Untitled Child Tab")
  }

  // ---------------------------------------------------------------------------
  // Search by name

  /** One entry of `matches`; a subtab carries its parent's id and title. */
  datatype Match =
    | TabHit(id: string, title: string, content: seq<string>)
    | SubtabHit(parentId: string, parentTitle: string, id: string, title: string, content: seq<string>)

  function TabHitOf(e: Entry<TabInfo>): Match {
    TabHit(e.key, TabTitle(e.value), e.value.content)
  }

  function SubtabHitOf(p: Entry<TabInfo>, c: Entry<ChildInfo>): Match {
    SubtabHit(p.key, TabTitle(p.value), c.key, SubtabTitle(c.value), c.value.content)
  }

  /** The subtabs `cs` of parent `p`, in `child_tabs` order. */
  function Subtabs(p: Entry<TabInfo>, cs: seq<Entry<ChildInfo>>): seq<Match> {
    if |cs| == 0 then [] else [SubtabHitOf(p, cs[0])] + Subtabs(p, cs[1..])
  }

  /** A tab followed by its subtabs. */
  function Group(e: Entry<TabInfo>): seq<Match> {
    [TabHitOf(e)] + Subtabs(e, e.value.childTabs)
  }

  /** Every tab and every subtab of the index, each tab immediately followed by its subtabs. */
  function Preorder(data: TabsData): seq<Match> {
    if |data| == 0 then [] else Group(data[0]) + Preorder(data[1..])
  }

  /** `search_lower in title.lower()`. */
  predicate Hits(m: Match, searchLower: string) {
    Contains(Lower(m.title), searchLower)
  }

  /** The elements of `ms` that hit, in their order. */
  function Filter(ms: seq<Match>, searchLower: string): seq<Match> {
    if |ms| == 0 then [] else (if Hits(ms[0], searchLower) then [ms[0]] else []) + Filter(ms[1..], searchLower)
  }

  /** What the search by name must return for identifier `tabId`. */
  function NameMatches(data: TabsData, tabId: string): seq<Match> {
    Filter(Preorder(data), Lower(tabId))
  }

  lemma {:induction false} FilterMembers(ms: seq<Match>, q: string, m: Match)
    ensures m in Filter(ms, q) <==> m in ms && Hits(m, q)
    decreases |ms|
  {
    if |ms| > 0 {
      FilterMembers(ms[1..], q, m);
      assert ms == [ms[0]] + ms[1..];
    }
  }

  lemma {:induction false} FilterAppend(a: seq<Match>, b: seq<Match>, q: string)
    ensures Filter(a + b, q) == Filter(a, q) + Filter(b, q)
    decreases |a|
  {
    if |a| == 0 {
      assert a + b == b;
    } else {
      var head := if Hits(a[0], q) then [a[0]] else [];
      assert (a + b)[0] == a[0] && (a + b)[1..] == a[1..] + b;
      FilterAppend(a[1..], b, q);
      Regroup(head, Filter(a[1..], q), Filter(b, q));
    }
  }

  lemma Regroup(h: seq<Match>, x: seq<Match>, y: seq<Match>)
    ensures h + (x + y) == (h + x) + y
  {
  }

  lemma {:induction false} PreorderAppend(data: TabsData, e: Entry<TabInfo>)
    ensures Preorder(data + [e]) == Preorder(data) + Group(e)
    decreases |data|
  {
    if |data| == 0 {
      assert Preorder([e]) == Group(e) + Preorder([]);
    } else {
      assert (data + [e])[1..] == data[1..] + [e];
      PreorderAppend(data[1..], e);
    }
  }

  lemma {:induction false} SubtabsAppend(p: Entry<TabInfo>, cs: seq<Entry<ChildInfo>>, c: Entry<ChildInfo>)
    ensures Subtabs(p, cs + [c]) == Subtabs(p, cs) + [SubtabHitOf(p, c)]
    decreases |cs|
  {
    if |cs| == 0 {
      assert Subtabs(p, [c]) == [SubtabHitOf(p, c)] + Subtabs(p, []);
    } else {
      assert (cs + [c])[1..] == cs[1..] + [c];
      SubtabsAppend(p, cs[1..], c);
    }
  }

  lemma {:induction false} SubtabsHas(p: Entry<TabInfo>, cs: seq<Entry<ChildInfo>>, j: nat)
    requires j < |cs|
    ensures SubtabHitOf(p, cs[j]) in Subtabs(p, cs)
    decreases j
  {
    if j > 0 {
      SubtabsHas(p, cs[1..], j - 1);
    }
  }

  /** Every tab of the index, and every subtab of each, occurs in the preorder list. */
  lemma {:induction false} PreorderHas(data: TabsData, k: nat)
    requires k < |data|
    ensures TabHitOf(data[k]) in Preorder(data)
    ensures forall j :: 0 <= j < |data[k].value.childTabs| ==> SubtabHitOf(data[k], data[k].value.childTabs[j]) in Preorder(data)
    decreases k
  {
    if k == 0 {
      forall j | 0 <= j < |data[0].value.childTabs|
        ensures SubtabHitOf(data[0], data[0].value.childTabs[j]) in Preorder(data)
      {
        SubtabsHas(data[0], data[0].value.childTabs, j);
      }
    } else {
      PreorderHas(data[1..], k - 1);
      assert data[1..][k - 1] == data[k];
    }
  }

  /** And nothing else occurs in it. */
  lemma {:induction false} PreorderOnly(data: TabsData, m: Match)
    requires m in Preorder(data)
    ensures exists k :: 0 <= k < |data| && (m == TabHitOf(data[k]) || m in Subtabs(data[k], data[k].value.childTabs))
    decreases |data|
  {
    if m !in Group(data[0]) {
      PreorderOnly(data[1..], m);
      var k :| 0 <= k < |data[1..]| && (m == TabHitOf(data[1..][k]) || m in Subtabs(data[1..][k], data[1..][k].value.childTabs));
      assert data[1..][k] == data[k + 1];
    } else {
      assert m == TabHitOf(data[0]) || m in Subtabs(data[0], data[0].value.childTabs);
    }
  }

  /** A tab is a match exactly when its title contains the query, case-insensitively. */
  lemma TabMatchedIff(data: TabsData, tabId: string, k: nat)
    requires k < |data|
    ensures TabHitOf(data[k]) in NameMatches(data, tabId) <==> Contains(Lower(TabTitle(data[k].value)), Lower(tabId))
  {
    PreorderHas(data, k);
    FilterMembers(Preorder(data), Lower(tabId), TabHitOf(data[k]));
  }

  /** A subtab is a match exactly when its title contains the query, case-insensitively. */
  lemma SubtabMatchedIff(data: TabsData, tabId: string, k: nat, j: nat)
    requires k < |data| && j < |data[k].value.childTabs|
    ensures SubtabHitOf(data[k], data[k].value.childTabs[j]) in NameMatches(data, tabId)
        <==> Contains(Lower(SubtabTitle(data[k].value.childTabs[j].value)), Lower(tabId))
  {
    PreorderHas(data, k);
    FilterMembers(Preorder(data), Lower(tabId), SubtabHitOf(data[k], data[k].value.childTabs[j]));
  }

  /** Every match is a tab or a subtab of the index whose title contains the query. */
  lemma MatchesSound(data: TabsData, tabId: string, m: Match)
    requires m in NameMatches(data, tabId)
    ensures Contains(Lower(m.title), Lower(tabId))
    ensures exists k :: 0 <= k < |data| && (m == TabHitOf(data[k]) || m in Subtabs(data[k], data[k].value.childTabs))
  {
    FilterMembers(Preorder(data), Lower(tabId), m);
    PreorderOnly(data, m);
  }

  /** The outer loop of the search by name, appending to `matches` tab by tab. */
  method SearchByName(data: TabsData, tabId: string) returns (matches: seq<Match>)
    ensures matches == NameMatches(data, tabId)
  {
    var searchLower := Lower(tabId);
    matches := [];
    var i := 0;
    while i < |data|
      invariant 0 <= i <= |data|
      invariant matches == Filter(Preorder(data[..i]), searchLower)
    {
      var entry := data[i];
      var tabTitle := TabTitle(entry.value);
      ghost var done := matches;
      if Contains(Lower(tabTitle), searchLower) {
        matches := matches + [TabHit(entry.key, tabTitle, entry.value.content)];
      }
      assert matches == done + Filter([TabHitOf(entry)], searchLower);
      var subtabMatches := SearchSubtabs(entry, searchLower);
      matches := matches + subtabMatches;
      SearchStep(data, i, searchLower);
      i := i + 1;
    }
    assert data[..i] == data;
  }

  /** The inner loop of the search by name, over the children of one tab. */
  method SearchSubtabs(entry: Entry<TabInfo>, searchLower: string) returns (matches: seq<Match>)
    ensures matches == Filter(Subtabs(entry, entry.value.childTabs), searchLower)
  {
    var tabTitle := TabTitle(entry.value);
    var children := entry.value.childTabs;
    matches := [];
    var j := 0;
    while j < |children|
      invariant 0 <= j <= |children|
      invariant matches == Filter(Subtabs(entry, children[..j]), searchLower)
    {
      var subtabTitle := SubtabTitle(children[j].value);
      SubtabsAppend(entry, children[..j], children[j]);
      assert children[..j + 1] == children[..j] + [children[j]];
      FilterAppend(Subtabs(entry, children[..j]), [SubtabHitOf(entry, children[j])], searchLower);
      if Contains(Lower(subtabTitle), searchLower) {
        matches := matches + [SubtabHit(entry.key, tabTitle, children[j].key, subtabTitle, children[j].value.content)];
      }
      j := j + 1;
    }
    assert children[..j] == children;
  }

  /** One more tab extends the filtered preorder list by the filtered group of that tab. */
  lemma SearchStep(data: TabsData, i: nat, q: string)
    requires i < |data|
    ensures Filter(Preorder(data[..i + 1]), q)
         == Filter(Preorder(data[..i]), q) + Filter([TabHitOf(data[i])], q) + Filter(Subtabs(data[i], data[i].value.childTabs), q)
  {
    assert data[..i + 1] == data[..i] + [data[i]];
    PreorderAppend(data[..i], data[i]);
    FilterAppend(Preorder(data[..i]), Group(data[i]), q);
    FilterAppend([TabHitOf(data[i])], Subtabs(data[i], data[i].value.childTabs), q);
  }

  // ---------------------------------------------------------------------------
  // Lookup by id

  /** The tab at `e` has a child keyed `id`. */
  predicate HasChild(e: Entry<TabInfo>, id: string) {
    id in Keys(e.value.childTabs)
  }

  /** The first child carrying an `index` property. */
  function FirstIndexed(cs: seq<Entry<ChildInfo>>): (r: Option<nat>)
    ensures r.None? <==> forall j :: 0 <= j < |cs| ==> cs[j].value.properties.index.None?
    ensures r.Some? ==> r.value < |cs| && cs[r.value].value.properties.index.Some?
                        && forall j :: 0 <= j < r.value ==> cs[j].value.properties.index.None?
    decreases |cs|
  {
    if |cs| == 0 then None
    else if cs[0].value.properties.index.Some? then Some(0)
    else
      var r := FirstIndexed(cs[1..]);
      assert forall j :: 0 < j < |cs| ==> cs[j] == cs[1..][j - 1];
      if r.None? then None else Some(r.value + 1)
  }

  /** The first tab, in `tabs_data` order, that has a child keyed `id`. */
  function ChildScan(data: TabsData, id: string): (r: Option<nat>)
    ensures r.None? <==> forall k :: 0 <= k < |data| ==> !HasChild(data[k], id)
    ensures r.Some? ==> r.value < |data| && HasChild(data[r.value], id)
                        && forall k :: 0 <= k < r.value ==> !HasChild(data[k], id)
    decreases |data|
  {
    if |data| == 0 then None
    else if HasChild(data[0], id) then Some(0)
    else
      var r := ChildScan(data[1..], id);
      assert forall k :: 0 < k < |data| ==> data[k] == data[1..][k - 1];
      if r.None? then None else Some(r.value + 1)
  }

  /**
   * The child of a parent that a parent-scoped lookup picks: an exact key match first;
   * failing that, when the identifier looks like a web tab id (`t.`), the first child
   * that has an index.
   */
  function SubtabChoice(cs: seq<Entry<ChildInfo>>, tabId: string): Option<nat> {
    match IndexOf(cs, tabId)
    case Some(j) => Some(j)
    case None => if StartsWith(tabId, "t.") then FirstIndexed(cs) else None
  }

  /** The outcome of a lookup, before it is rendered. */
  datatype Resolution =
    | ByName(matches: seq<Match>)
    | SubtabFound(parentId: string, parent: TabInfo, subtabId: string, subtab: ChildInfo)
    | SubtabMissing(parentId: string, parent: TabInfo)
    | ParentMissing(parentId: string)
    | TabFound(tabId: string, tab: TabInfo)
    | ChildFound(parentId: string, parent: TabInfo, subtabId: string, subtab: ChildInfo)
    | NotFound

  /** `if parent_tab_id:` — present and not empty. */
  predicate Scoped(parentTabId: Option<string>) {
    parentTabId.Some? && parentTabId.value != ""
  }

  function ResolveInParent(data: TabsData, tabId: string, parentId: string): Resolution {
    match Get(data, parentId)
    case None => ParentMissing(parentId)
    case Some(parent) =>
      match SubtabChoice(parent.childTabs, tabId)
      case Some(j) => SubtabFound(parentId, parent, parent.childTabs[j].key, parent.childTabs[j].value)
      case None => SubtabMissing(parentId, parent)
  }

  function ResolveDirect(data: TabsData, tabId: string): Resolution {
    match Get(data, tabId)
    case Some(info) => TabFound(tabId, info)
    case None =>
      match ChildScan(data, tabId)
      case Some(k) => ChildFound(data[k].key, data[k].value, tabId, Get(data[k].value.childTabs, tabId).value)
      case None => NotFound
  }

  /** What `get_tab_content` resolves `tabId` to over `data`. */
  function Resolve(data: TabsData, tabId: string, parentTabId: Option<string>, searchByName: bool): Resolution {
    if searchByName then ByName(NameMatches(data, tabId))
    else if Scoped(parentTabId) then ResolveInParent(data, tabId, parentTabId.value)
    else ResolveDirect(data, tabId)
  }

  /** A search by name ignores the parent id. */
  lemma NameSearchFirst(data: TabsData, tabId: string, p1: Option<string>, p2: Option<string>)
    ensures Resolve(data, tabId, p1, true) == Resolve(data, tabId, p2, true)
    ensures Resolve(data, tabId, p1, true).ByName?
  {
  }

  /** Without a parent, an exact top-level key wins over every child. */
  lemma TopLevelFirst(data: TabsData, tabId: string, parentTabId: Option<string>)
    requires !Scoped(parentTabId) && tabId in Keys(data)
    ensures Resolve(data, tabId, parentTabId, false) == TabFound(tabId, Get(data, tabId).value)
  {
  }

  /**
   * Without a parent, a subtab is found exactly when the id is no top-level key and
   * some tab has a child with that id; the parent reported is the first such tab.
   */
  lemma ChildScanFirstParent(data: TabsData, tabId: string, parentTabId: Option<string>)
    requires !Scoped(parentTabId)
    ensures Resolve(data, tabId, parentTabId, false).ChildFound?
        <==> tabId !in Keys(data) && exists k :: 0 <= k < |data| && HasChild(data[k], tabId)
    ensures Resolve(data, tabId, parentTabId, false).ChildFound? ==>
      var r := Resolve(data, tabId, parentTabId, false);
      exists k :: 0 <= k < |data| && data[k] == Entry(r.parentId, r.parent) && HasChild(data[k], tabId)
                  && (forall k' :: 0 <= k' < k ==> !HasChild(data[k'], tabId))
                  && r.subtabId == tabId && Some(r.subtab) == Get(data[k].value.childTabs, tabId)
  {
    if tabId !in Keys(data) {
      var s := ChildScan(data, tabId);
      if s.Some? {
        assert data[s.value] == Entry(data[s.value].key, data[s.value].value);
      }
    }
  }

  /** Without a parent, the listing is produced exactly when the id is nowhere in the index. */
  lemma NotFoundIff(data: TabsData, tabId: string, parentTabId: Option<string>)
    requires !Scoped(parentTabId)
    ensures Resolve(data, tabId, parentTabId, false) == NotFound
        <==> tabId !in Keys(data) && forall k :: 0 <= k < |data| ==> !HasChild(data[k], tabId)
  {
  }

  /** In a parent-scoped lookup, an exact child id wins over the `t.` heuristic. */
  lemma ScopedExactFirst(data: TabsData, tabId: string, parentId: string)
    requires parentId != "" && parentId in Keys(data)
    requires tabId in Keys(Get(data, parentId).value.childTabs)
    ensures Resolve(data, tabId, Some(parentId), false).SubtabFound?
    ensures Resolve(data, tabId, Some(parentId), false).subtabId == tabId
  {
  }

  /**
   * In a parent-scoped lookup whose id is no child key, a `t.` id picks the first child
   * that has an index; the subtab is missing exactly when there is none (or the id does
   * not start with `t.`), and the parent is missing exactly when it is no top-level key.
   */
  lemma ScopedFallback(data: TabsData, tabId: string, parentId: string)
    requires parentId != ""
    ensures Resolve(data, tabId, Some(parentId), false).ParentMissing? <==> parentId !in Keys(data)
    ensures parentId in Keys(data) && tabId !in Keys(Get(data, parentId).value.childTabs) ==>
      var cs := Get(data, parentId).value.childTabs;
      var r := Resolve(data, tabId, Some(parentId), false);
      (r.SubtabMissing? <==> !StartsWith(tabId, "t.") || forall j :: 0 <= j < |cs| ==> cs[j].value.properties.index.None?)
      && (r.SubtabFound? ==> exists j :: 0 <= j < |cs| && cs[j] == Entry(r.subtabId, r.subtab)
                                   && cs[j].value.properties.index.Some?
                                   && forall j' :: 0 <= j' < j ==> cs[j'].value.properties.index.None?)
  {
    if parentId in Keys(data) {
      var cs := Get(data, parentId).value.childTabs;
      if tabId !in Keys(cs) && StartsWith(tabId, "t.") {
        var f := FirstIndexed(cs);
        if f.Some? {
          assert cs[f.value] == Entry(cs[f.value].key, cs[f.value].value);
        }
      }
    }
  }

  // ---------------------------------------------------------------------------
  // The loops of the lookup by id

  /** The two child loops of the parent-scoped lookup, each left with `break`. */
  method FindSubtab(cs: seq<Entry<ChildInfo>>, tabId: string) returns (target: Option<nat>)
    ensures target == SubtabChoice(cs, tabId)
  {
    target := None;
    var j := 0;
    while j < |cs|
      invariant 0 <= j <= |cs|
      invariant forall j' :: 0 <= j' < j ==> cs[j'].key != tabId
    {
      if cs[j].key == tabId {
        target := Some(j);
        break;
      }
      j := j + 1;
    }
    if target.None? {
      j := 0;
      while j < |cs|
        invariant 0 <= j <= |cs|
        invariant target.None?
        invariant forall j' :: 0 <= j' < j ==> !(StartsWith(tabId, "t.") && cs[j'].value.properties.index.Some?)
      {
        if StartsWith(tabId, "t.") && cs[j].value.properties.index.Some? {
          target := Some(j);
          break;
        }
        j := j + 1;
      }
    }
  }

  /** The loop over every tab looking for a child keyed `tabId`, left with `break`. */
  method ScanChildren(data: TabsData, tabId: string) returns (found: Option<nat>)
    ensures found == ChildScan(data, tabId)
  {
    found := None;
    var k := 0;
    while k < |data|
      invariant 0 <= k <= |data|
      invariant forall k' :: 0 <= k' < k ==> !HasChild(data[k'], tabId)
    {
      if tabId in Keys(data[k].value.childTabs) {
        found := Some(k);
        break;
      }
      k := k + 1;
    }
  }

  /** The branches of `get_tab_content` after the index is built. */
  method LocateTab(data: TabsData, tabId: string, parentTabId: Option<string>, searchByName: bool)
    returns (r: Resolution)
    ensures r == Resolve(data, tabId, parentTabId, searchByName)
  {
    if searchByName {
      var matches := SearchByName(data, tabId);
      return ByName(matches);
    }
    if parentTabId.Some? && parentTabId.value != "" {
      var parentId := parentTabId.value;
      var parent := Get(data, parentId);
      if parent.None? {
        return ParentMissing(parentId);
      }
      var children := parent.value.childTabs;
      var target := FindSubtab(children, tabId);
      if target.Some? {
        return SubtabFound(parentId, parent.value, children[target.value].key, children[target.value].value);
      }
      return SubtabMissing(parentId, parent.value);
    }
    var info := Get(data, tabId);
    if info.Some? {
      return TabFound(tabId, info.value);
    }
    var found := ScanChildren(data, tabId);
    if found.Some? {
      var parentEntry := data[found.value];
      return ChildFound(parentEntry.key, parentEntry.value, tabId, Get(parentEntry.value.childTabs, tabId).value);
    }
    return NotFound;
  }

  // ---------------------------------------------------------------------------
  // The response text

  /** The lines before the outcome. The index carries no title, so the default is used. */
  function HeaderLines(documentId: string, tabId: string): seq<string> {
    ["Archivo: \"Unknown Document\" (ID: " + documentId + ", Tipo: application/vnd.google-apps.document)",
     "Enlace: https://docs.google.com/document/d/" + documentId + "/edit?usp=drivesdk",
     "ID de Pestaña Solicitado: " + tabId,
     ""]
  }

  /** `content` when it is not empty, otherwise the single line `empty`. */
  function ContentOr(content: seq<string>, empty: string): seq<string> {
    if |content| > 0 then content else [empty]
  }

  function MatchLines(m: Match, n: nat): seq<string> {
    match m
    case TabHit(id, title, content) =>
      ["Match " + NatToString(n) + " (TAB):",
       "Tab: " + title + " (ID: " + id + ")",
       "--- CONTENIDO DE PESTAÑA ---"]
      + ContentOr(content, "No content found.") + [""]
    case SubtabHit(parentId, parentTitle, id, title, content) =>
      ["Match " + NatToString(n) + " (SUBTAB):",
       "Parent Tab: " + parentTitle + " (ID: " + parentId + ")",
       "Subtab: " + title + " (ID: " + id + ")",
       "--- CONTENIDO DE SUBPESTAÑA ---"]
      + ContentOr(content, "No content found.") + [""]
  }

  /** The matches numbered from `n`. */
  function MatchesLines(ms: seq<Match>, n: nat): seq<string> {
    if |ms| == 0 then [] else MatchLines(ms[0], n) + MatchesLines(ms[1..], n + 1)
  }

  function NameListingChildren(cs: seq<Entry<ChildInfo>>): seq<string> {
    if |cs| == 0 then []
    else ["  - Subtab: \"" + SubtabTitle(cs[0].value) + "\" (ID: " + cs[0].key + ")"] + NameListingChildren(cs[1..])
  }

  function NameListing(data: TabsData): seq<string> {
    if |data| == 0 then []
    else ["- Tab: \"" + TabTitle(data[0].value) + "\" (ID: " + data[0].key + ")"]
         + NameListingChildren(data[0].value.childTabs) + NameListing(data[1..])
  }

  function SubtabListing(cs: seq<Entry<ChildInfo>>): seq<string> {
    if |cs| == 0 then []
    else ["- Subtab ID: " + cs[0].key + " | Title: \"" + SubtabTitle(cs[0].value) + "\""] + SubtabListing(cs[1..])
  }

  function ChildListingLine(e: Entry<ChildInfo>): string {
    "  - Subtab ID: " + e.key + " | Title: \"" + ChildTitle(e.value) + "\""
  }

  function ChildListing(cs: seq<Entry<ChildInfo>>): seq<string> {
    if |cs| == 0 then [] else [ChildListingLine(cs[0])] + ChildListing(cs[1..])
  }

  function TabListingLine(e: Entry<TabInfo>): string {
    "- Tab ID: " + e.key + " | Title: \"" + TabTitle(e.value) + "\" | Index: " + IntToString(e.value.properties.index.GetOr(0))
  }

  function TabListing(data: TabsData): seq<string> {
    if |data| == 0 then [] else [TabListingLine(data[0])] + ChildListing(data[0].value.childTabs) + TabListing(data[1..])
  }

  function ParentLine(parentId: string, parent: TabInfo): string {
    "Parent Tab: " + TabTitle(parent) + " (ID: " + parentId + ")"
  }

  /** The lines that follow the header for each outcome. */
  function OutcomeLines(data: TabsData, tabId: string, r: Resolution): seq<string> {
    match r
    case ByName(ms) =>
      if |ms| > 0 then ["--- ENCONTRADO " + NatToString(|ms|) + " COINCIDENCIA(S) POR NOMBRE ---", ""] + MatchesLines(ms, 1)
      else ["--- NO COINCIDENCIAS ENCONTRADAS PARA EL NOMBRE: \"" + tabId + "\" ---", "",
            "Available tabs and subtabs in this document:"] + NameListing(data)
    case SubtabFound(parentId, parent, subtabId, subtab) =>
      ["Parent Tab ID: " + parentId,
       "--- SUBTAB ENCONTRADO: " + subtabId + " ---",
       ParentLine(parentId, parent),
       "Subtab Title: " + SubtabTitle(subtab),
       "Subtab Index: " + IntToString(subtab.properties.index.GetOr(0)),
       "",
       "--- CONTENIDO DE SUBPESTAÑA ---"]
      + ContentOr(subtab.content, "No content found in this subtab.")
    case SubtabMissing(parentId, parent) =>
      ["Parent Tab ID: " + parentId,
       "--- SUBTAB NO ENCONTRADO: " + tabId + " ---",
       ParentLine(parentId, parent),
       "",
       "Available subtabs in this parent tab:"]
      + SubtabListing(parent.childTabs)
    case ParentMissing(parentId) =>
      ["Parent tab " + parentId + " not found."]
    case TabFound(id, tab) =>
      ["--- PESTAÑA ENCONTRADA: " + id + " ---",
       "Título de Pestaña: " + TabTitle(tab),
       "Índice de Pestaña: " + IntToString(tab.properties.index.GetOr(0)),
       "",
       "--- CONTENIDO DE PESTAÑA ---"]
      + ContentOr(tab.content, "No content found in this tab.")
      + (if |tab.childTabs| > 0 then ["", "--- SUBPESTAÑAS ---"] + ChildListing(tab.childTabs) else [])
    case ChildFound(parentId, parent, subtabId, subtab) =>
      ["--- SUBTAB ENCONTRADO: " + subtabId + " ---",
       ParentLine(parentId, parent),
       "Subtab Title: " + SubtabTitle(subtab),
       "",
       "--- CONTENIDO DE SUBPESTAÑA ---"]
      + ContentOr(subtab.content, "No content found in this subtab.")
    case NotFound =>
      ["--- PESTAÑA NO ENCONTRADA: " + tabId + " ---", "", "Available tabs in this document:"] + TabListing(data)
  }

  /** `response_parts` of the full-processing path of `get_tab_content`. */
  function ResponseLines(documentId: string, data: TabsData, tabId: string, parentTabId: Option<string>, searchByName: bool): seq<string> {
    HeaderLines(documentId, tabId) + OutcomeLines(data, tabId, Resolve(data, tabId, parentTabId, searchByName))
  }

  /**
   * `get_tab_content` from the point where the index is available: the identifier is
   * extracted, resolved, and the response lines are joined.
   */
  method GetTabContent(documentId: string, data: TabsData, tabIdentifier: string, tabParams: seq<string>,
                       parentTabId: Option<string>, searchByName: bool)
    returns (response: string)
    ensures response == Join("\n", ResponseLines(documentId, data, ExtractTabId(tabIdentifier, tabParams), parentTabId, searchByName))
  {
    var tabId := ExtractTabId(tabIdentifier, tabParams);
    var r := LocateTab(data, tabId, parentTabId, searchByName);
    response := Join("\n", HeaderLines(documentId, tabId) + OutcomeLines(data, tabId, r));
  }

  /**
   * A found tab's content lines are shown verbatim right after its content banner; the
   * empty-content notice takes their place when there are none.
   */
  lemma TabContentShown(documentId: string, data: TabsData, tabId: string, parentTabId: Option<string>,
                        searchByName: bool, tab: TabInfo)
    requires Resolve(data, tabId, parentTabId, searchByName) == TabFound(tabId, tab)
    ensures var lines := ResponseLines(documentId, data, tabId, parentTabId, searchByName);
            var shown := ContentOr(tab.content, "No content found in this tab.");
            lines[8] == "--- CONTENIDO DE PESTAÑA ---" && lines[9..9 + |shown|] == shown
  {
    var out := OutcomeLines(data, tabId, TabFound(tabId, tab));
    TabOutcome(data, tabId, tab);
    AfterHeader(HeaderLines(documentId, tabId), out, 4, 5 + |ContentOr(tab.content, "No content found in this tab.")|);
  }

  lemma TabOutcome(data: TabsData, tabId: string, tab: TabInfo)
    ensures var out := OutcomeLines(data, tabId, TabFound(tabId, tab));
            var shown := ContentOr(tab.content, "No content found in this tab.");
            5 + |shown| <= |out| && out[4] == "--- CONTENIDO DE PESTAÑA ---" && out[5..5 + |shown|] == shown
  {
  }

  /** A subtab found by the child scan ends the response with its content lines. */
  lemma ChildContentShown(documentId: string, data: TabsData, tabId: string, parentTabId: Option<string>,
                          searchByName: bool, parentId: string, parent: TabInfo, subtab: ChildInfo)
    requires Resolve(data, tabId, parentTabId, searchByName) == ChildFound(parentId, parent, tabId, subtab)
    ensures var lines := ResponseLines(documentId, data, tabId, parentTabId, searchByName);
            lines[8] == "--- CONTENIDO DE SUBPESTAÑA ---"
            && lines[9..] == ContentOr(subtab.content, "No content found in this subtab.")
  {
    var out := OutcomeLines(data, tabId, ChildFound(parentId, parent, tabId, subtab));
    ChildOutcome(data, tabId, parentId, parent, subtab);
    AfterHeader(HeaderLines(documentId, tabId), out, 4, |out|);
  }

  lemma ChildOutcome(data: TabsData, tabId: string, parentId: string, parent: TabInfo, subtab: ChildInfo)
    ensures var out := OutcomeLines(data, tabId, ChildFound(parentId, parent, tabId, subtab));
            5 <= |out| && out[4] == "--- CONTENIDO DE SUBPESTAÑA ---"
            && out[5..] == ContentOr(subtab.content, "No content found in this subtab.")
  {
  }

  /** A subtab found within its parent ends the response with its content lines. */
  lemma ScopedContentShown(documentId: string, data: TabsData, tabId: string, parentTabId: Option<string>,
                           searchByName: bool, parentId: string, parent: TabInfo, subtabId: string, subtab: ChildInfo)
    requires Resolve(data, tabId, parentTabId, searchByName) == SubtabFound(parentId, parent, subtabId, subtab)
    ensures var lines := ResponseLines(documentId, data, tabId, parentTabId, searchByName);
            lines[10] == "--- CONTENIDO DE SUBPESTAÑA ---"
            && lines[11..] == ContentOr(subtab.content, "No content found in this subtab.")
  {
    var out := OutcomeLines(data, tabId, SubtabFound(parentId, parent, subtabId, subtab));
    ScopedOutcome(data, tabId, parentId, parent, subtabId, subtab);
    AfterHeader(HeaderLines(documentId, tabId), out, 6, |out|);
  }

  lemma ScopedOutcome(data: TabsData, tabId: string, parentId: string, parent: TabInfo, subtabId: string, subtab: ChildInfo)
    ensures var out := OutcomeLines(data, tabId, SubtabFound(parentId, parent, subtabId, subtab));
            7 <= |out| && out[6] == "--- CONTENIDO DE SUBPESTAÑA ---"
            && out[7..] == ContentOr(subtab.content, "No content found in this subtab.")
  {
  }

  /** Positions in the outcome lines, read after the four header lines. */
  lemma AfterHeader(header: seq<string>, out: seq<string>, i: nat, j: nat)
    requires |header| == 4 && i < j <= |out|
    ensures (header + out)[4 + i] == out[i]
    ensures (header + out)[4 + i + 1..4 + j] == out[i + 1..j]
    ensures j == |out| ==> (header + out)[4 + i + 1..] == out[i + 1..]
  {
  }

  /** The not-found listing names every tab of the index with its index property. */
  lemma {:induction false} ListingNamesEveryTab(data: TabsData, k: nat)
    requires k < |data|
    ensures TabListingLine(data[k]) in TabListing(data)
    decreases k
  {
    var head := [TabListingLine(data[0])] + ChildListing(data[0].value.childTabs);
    var rest := TabListing(data[1..]);
    assert TabListing(data) == head + rest;
    if k == 0 {
      assert TabListing(data)[0] == head[0];
    } else {
      ListingNamesEveryTab(data[1..], k - 1);
      assert data[1..][k - 1] == data[k];
      InSuffix(TabListingLine(data[k]), head, rest);
    }
  }

  /** The child listing has a line for every child of the map. */
  lemma {:induction false} ChildListingNamesEveryChild(cs: seq<Entry<ChildInfo>>, j: nat)
    requires j < |cs|
    ensures ChildListingLine(cs[j]) in ChildListing(cs)
    decreases j
  {
    assert ChildListing(cs) == [ChildListingLine(cs[0])] + ChildListing(cs[1..]);
    if j == 0 {
      assert ChildListing(cs)[0] == ChildListingLine(cs[0]);
    } else {
      ChildListingNamesEveryChild(cs[1..], j - 1);
      assert cs[1..][j - 1] == cs[j];
      InSuffix(ChildListingLine(cs[j]), [ChildListingLine(cs[0])], ChildListing(cs[1..]));
    }
  }

  /** The not-found listing also names every child tab of every tab, with its title. */
  lemma {:induction false} ListingNamesEverySubtab(data: TabsData, k: nat, j: nat)
    requires k < |data| && j < |data[k].value.childTabs|
    ensures ChildListingLine(data[k].value.childTabs[j]) in TabListing(data)
    decreases k
  {
    var line := ChildListingLine(data[k].value.childTabs[j]);
    var head := [TabListingLine(data[0])] + ChildListing(data[0].value.childTabs);
    var rest := TabListing(data[1..]);
    assert TabListing(data) == head + rest;
    if k == 0 {
      ChildListingNamesEveryChild(data[0].value.childTabs, j);
      InSuffix(line, [TabListingLine(data[0])], ChildListing(data[0].value.childTabs));
      InPrefix(line, head, rest);
    } else {
      ListingNamesEverySubtab(data[1..], k - 1, j);
      assert data[1..][k - 1] == data[k];
      InSuffix(line, head, rest);
    }
  }

  lemma InPrefix<T>(x: T, a: seq<T>, b: seq<T>)
    requires x in a
    ensures x in a + b
  {
    var j :| 0 <= j < |a| && a[j] == x;
    assert (a + b)[j] == x;
  }

  lemma InSuffix<T>(x: T, a: seq<T>, b: seq<T>)
    requires x in b
    ensures x in a + b
  {
    var j :| 0 <= j < |b| && b[j] == x;
    assert (a + b)[|a| + j] == x;
  }


  /** A string shorter than `needle` does not contain it. */
  lemma {:induction false} ShorterNotContained(hay: string, needle: string)
    requires |hay| < |needle|
    ensures !Contains(hay, needle)
    decreases |hay|
  {
    if |hay| > 0 {
      ShorterNotContained(hay[1..], needle);
    }
  }

  /**
   * A two-tab index: tabs `t.0` ("Intro") and `t.1`
   * ("Notes"), the latter with subtab `c.0` ("Draft").
   */
  function ExampleIndex(): TabsData {
    [Entry("t.0", TabInfo("t.0", TabProperties(Some("t.0"), Some("Intro"), Some(0)), ["hello"], [])),
     Entry("t.1", TabInfo("t.1", TabProperties(Some("t.1"), Some("Notes"), Some(1)), [],
                          [Entry("c.0", ChildInfo("c.0", TabProperties(Some("c.0"), Some("Draft"), Some(0)), ["x"]))]))]
  }

  /** Searching that index for "not" by name matches the tab "Notes" and nothing else. */
  lemma ExampleNameSearch()
    ensures NameMatches(ExampleIndex(), "not") == [TabHit("t.1", "Notes", [])]
  {
    var data := ExampleIndex();
    var intro, notes, draft := TabHitOf(data[0]), TabHitOf(data[1]), SubtabHitOf(data[1], data[1].value.childTabs[0]);
    assert Preorder(data) == [intro, notes, draft] by { ExamplePreorder(); }
    assert !Hits(intro, "not") && Hits(notes, "not") && !Hits(draft, "not") by { ExampleHits(); }
    assert Lower("not") == "not";
    FilterOnlyMiddle(intro, notes, draft, "not");
  }

  lemma FilterOnlyMiddle(x: Match, y: Match, z: Match, q: string)
    requires !Hits(x, q) && Hits(y, q) && !Hits(z, q)
    ensures Filter([x, y, z], q) == [y]
  {
    assert [x, y, z][1..] == [y, z] && [y, z][1..] == [z] && [z][1..] == [];
    assert Filter([z], q) == [];
    assert Filter([y, z], q) == [y];
  }

  /**
   * Over the same index: `t.1` is found as a top-level tab, `c.0` only by the child scan
   * (under `t.1`), and `missing` produces the listing.
   */
  lemma ExampleLookups()
    ensures var data := ExampleIndex();
            Resolve(data, "t.1", None, false) == TabFound("t.1", data[1].value)
            && Resolve(data, "c.0", None, false) == ChildFound("t.1", data[1].value, "c.0", data[1].value.childTabs[0].value)
            && Resolve(data, "missing", None, false) == NotFound
  {
    var data := ExampleIndex();
    assert Keys(data) == {"t.0", "t.1"} by {
      assert data[0].key == "t.0" && data[1].key == "t.1";
    }
    assert Keys(data[0].value.childTabs) == {};
    assert Keys(data[1].value.childTabs) == {"c.0"} by {
      assert data[1].value.childTabs[0].key == "c.0";
    }
    assert !HasChild(data[0], "c.0") && HasChild(data[1], "c.0");
    assert ChildScan(data, "c.0") == Some(1);
    assert IndexOf(data, "t.1") == Some(1);
    assert IndexOf(data[1].value.childTabs, "c.0") == Some(0);
  }

  lemma ExamplePreorder()
    ensures var data := ExampleIndex();
            Preorder(data) == [TabHitOf(data[0]), TabHitOf(data[1]), SubtabHitOf(data[1], data[1].value.childTabs[0])]
  {
    var data := ExampleIndex();
    assert Preorder(data[2..]) == [];
    assert Subtabs(data[1], data[1].value.childTabs) == [SubtabHitOf(data[1], data[1].value.childTabs[0])] + Subtabs(data[1], []);
    assert Preorder(data[1..]) == Group(data[1]) + Preorder(data[2..]);
    assert Preorder(data) == Group(data[0]) + Preorder(data[1..]);
  }

  lemma ExampleHits()
    ensures var data := ExampleIndex();
            !Hits(TabHitOf(data[0]), "not") && Hits(TabHitOf(data[1]), "not")
            && !Hits(SubtabHitOf(data[1], data[1].value.childTabs[0]), "not")
  {
    assert Lower("Intro") == "intro";
    assert Lower("Notes") == "notes";
    assert Lower("Draft") == "draft";
    ContainsAt("notes", "not", 0);
    ExampleNamesLackNot();
  }

  lemma ExampleNamesLackNot()
    ensures !Contains("intro", "not") && !Contains("draft", "not")
  {
    assert "intro"[..3] == "int" && "intro"[1..4] == "ntr" && "intro"[2..] == "tro";
    assert "int"[0] != "not"[0] && "ntr"[1] != "not"[1] && "tro"[0] != "not"[0];
    LacksQuery("intro", "not");
    assert "draft"[..3] == "dra" && "draft"[1..4] == "raf" && "draft"[2..] == "aft";
    assert "dra"[0] != "not"[0] && "raf"[0] != "not"[0] && "aft"[0] != "not"[0];
    LacksQuery("draft", "not");
  }

  /** A five-letter name lacks a three-letter query when none of its three windows is the query. */
  lemma LacksQuery(hay: string, needle: string)
    requires |hay| == 5 && |needle| == 3
    requires hay[..3] != needle && hay[1..4] != needle && hay[2..] != needle
    ensures !Contains(hay, needle)
  {
    ShorterNotContained(hay[3..], needle);
    assert hay[2..][1..] == hay[3..] && hay[2..][..3] == hay[2..];
    assert !Contains(hay[2..], needle);
    assert hay[1..][1..] == hay[2..] && hay[1..][..3] == hay[1..4];
    assert !Contains(hay[1..], needle);
  }
}
