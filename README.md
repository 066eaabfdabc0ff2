# Google Docs tab tools: a verified model

This project models the logic in `gdocs/docs_tools.py` that runs once a Google Docs API
response is in hand. It covers five pieces:

- **The process-wide document cache.** Entries live for 30 minutes. Reads check freshness,
  an extraction writes the cache, and a successful edit evicts the document.
- **The content renderer.** It turns text runs, paragraph elements, paragraphs, tables and
  structural elements into text lines.
- **The document walker.** It renders the body, every tab and one level of child tabs, and
  builds the `tabs_data` index.
- **The tab locator of `get_tab_content`.** It resolves a tab by exact id, by child scan,
  within a parent, or by case-insensitive name search, and renders the response.
- **The edit path of `edit_tab_content`.** It finds the target tab in the raw tab tree,
  computes the insertion index, decides on a leading newline, sends the insert request and
  evicts the cache.

The fetched document is an input value of the `DocModel` datatypes. Python dictionaries that
the code iterates in insertion order are sequences of key/value entries (module `Dict`);
assigning to an existing key replaces its value in place. The clock is an integer number of
microseconds passed in by the caller. The outcome of the batch update is a parameter.

The modules are these:

- `Wrappers`: a small `Option` type.
- `Text`: Python string operations (`strip`, `rstrip('\n')`, `lower`, `in`, `startswith`, `join`, integer formatting).
- `Dict`: an insertion-ordered dictionary.
- `DocModel`: the document tree.
- `Renderer`: the content renderer.
- `TabIndex`: the `tabs_data` entries.
- `DocCache`: the cache, as a class with a map field.
- `Walker`: the document walker.
- `TabLocator`: the tab locator.
- `TabEdit`: the edit path.

The source loops are methods whose loop invariants tie them to specification functions:

- the walker's tab and child loops;
- the child-tab loops and the child scan in the locator;
- the name-search loops;
- the tab search and the two reverse `endIndex` scans of the edit.

The properties are lemmas about those functions.

The model follows the code in these points:

- The walker's own labels are in Spanish: `--- CONTENIDO ---`, `=== CONTENIDO DE PESTAÑAS ===`, `=== METADATOS DEL DOCUMENTO ===` and the tab and child-tab lines. The metadata sub-sections keep their English headers (`=== NAMED RANGES ===`, `=== SUGGESTED CHANGES ===`, `=== FOOTNOTES ===`, `=== DOCUMENT STYLE ===`, `=== LISTS ===`), and most lines of the locator's responses are in English.
- A link renders as `[LINK: url]` when the stripped text equals the url, and as `[LINK: text -> url]` otherwise. It is not a markdown link (`Renderer.BareLinkExample`).
- A child tab enters `child_tabs` only when it has a non-empty body. The child map therefore counts those children, not every child (`Walker.ChildrenDataKeys`).
- The walker keys tabs by the tab object's `tabId` key. The edit path compares `tabProperties.tabId`.
- Only the positions `end` and `beginning` are accepted. The docstring's `replace` gets the "not supported" message.
- The full-processing response always names the document "Unknown Document", because neither the cached entry nor the extraction result carries a `title`.

## Model

| member | source | states |
|---|---|---|
| DocCache.DocumentCache.Get | gdocs/docs_tools.py:29-45 | returns an entry exactly when the id is present, has a timestamp and `now - timestamp` is under 30 minutes; the entry returned is the stored one; the map is not modified |
| DocCache.DocumentCache.Put | gdocs/docs_tools.py:48-54 | the entry for that id becomes the given content and `tabs_data` stamped with `now`; every other key keeps its entry |
| DocCache.DocumentCache.Invalidate | gdocs/docs_tools.py:1250-1251 | the entry for that id is absent afterwards and every other entry is untouched |
| DocCache.StoreThenLookup | gdocs/docs_tools.py:29-54 | a stored entry is returned by a later lookup exactly while less than 30 minutes have passed since it was stored |
| DocCache.OtherKeysUnaffected | gdocs/docs_tools.py:29-54 | storing or evicting one document never changes the lookup of another |
| DocCache.EvictThenLookup | gdocs/docs_tools.py:1250-1251 | after eviction the document is absent and no lookup returns it, whatever the clock |
| Renderer.PersonPrecedence | gdocs/docs_tools.py:87-95 | with a person annotation the rendering is `@name (email)` / `@name` and no other style field changes it |
| Renderer.RichLinkPrecedence | gdocs/docs_tools.py:97-110 | without a person, a rich link decides the rendering regardless of link and formatting |
| Renderer.LinkPrecedence | gdocs/docs_tools.py:112-121 | without person or rich link, a non-empty link url decides: `[LINK: url]` when the stripped text is the url, else `[LINK: text -> url]` |
| Renderer.BareLinkExample | gdocs/docs_tools.py:113-118 | a run `https://x` linked to `https://x` renders `[LINK: https://x]` |
| Renderer.PlainRunFramesContent | gdocs/docs_tools.py:123-168 | an unannotated run is its raw content framed by the markers, the colour/highlight/size/font openers and one `]` per wrapper applied |
| Renderer.MarkersSymmetric | gdocs/docs_tools.py:124-166 | the closing markers are exactly the opening markers reversed |
| Renderer.BoldItalicExample | gdocs/docs_tools.py:124-166 | bold and italic `hi` renders `***hi***` |
| Renderer.InlineObjectText | gdocs/docs_tools.py:178-203 | an inline object renders `[IMAGE: id]` exactly when the map lacks the id or gives no content URI |
| Renderer.RenderParagraph | gdocs/docs_tools.py:228-241 | the result is the raw paragraph text minus trailing newlines only, never ends in `\n`, and a bulleted paragraph starts with two spaces per level and `• `, whether or not the bullet has a `textStyle` |
| Renderer.ParagraphKept | gdocs/docs_tools.py:257-261 | a cell element contributes its rendered text exactly when it is a paragraph whose text is not blank, and nothing otherwise |
| Renderer.NonBlankParagraphTexts | gdocs/docs_tools.py:257-261 | no kept text is blank, and one text is kept per cell element except non-paragraphs and blank paragraphs |
| Renderer.KeptInOrder | gdocs/docs_tools.py:257-261 | every non-blank paragraph of a cell is kept, right after the texts kept from the elements before it; with the count above, the kept texts are exactly those paragraphs' renderings, in order |
| Renderer.SeparatorCells | gdocs/docs_tools.py:268-269 | each separator cell is all dashes and as long as its header cell |
| Renderer.RenderTable | gdocs/docs_tools.py:243-272 | the table text starts with `\n[TABLE]` and ends with `[/TABLE]\n` |
| Renderer.TableShape | gdocs/docs_tools.py:248-270 | one line per row in row order, plus one separator right after row 0 exactly when there is more than one row |
| Renderer.TableLinesPiped | gdocs/docs_tools.py:265-269 | every line between the markers starts with `\| ` and ends with ` \|` |
| Renderer.ContentElementLines | gdocs/docs_tools.py:278-292 | a non-blank paragraph or a table gives exactly the indent followed by its rendering; section break and table of contents give the indented fixed tokens; a paragraph gives no line exactly when it renders blank |
| Renderer.ProcessContentElements | gdocs/docs_tools.py:274-294 | the line count is the element count minus the blank paragraphs, and every line starts with the indent |
| Renderer.ContentLineAt | gdocs/docs_tools.py:278-294 | every element other than a blank paragraph gives its own line, placed right after the lines of the elements before it |
| Renderer.ContentElementsAppend | gdocs/docs_tools.py:274-294 | rendering a concatenation is concatenating the renderings |
| Walker.MetadataEmptyIff | gdocs/docs_tools.py:296-361 | the metadata text is empty exactly when there are no named ranges, suggested changes, footnotes, document style or lists |
| Walker.MetadataSection | gdocs/docs_tools.py:441-445 | the metadata header and text close the content exactly when the metadata is non-empty |
| Walker.ContentBeginsWithLabel | gdocs/docs_tools.py:367-368 | the rendered content always starts with `--- CONTENIDO ---` |
| Walker.NoTabs | gdocs/docs_tools.py:378-381 | without tabs there is no tabs section and `tabs_data` is empty |
| Walker.TabsDataKeys | gdocs/docs_tools.py:382-439 | the keys of `tabs_data` are exactly each tab's `tabId`, or `tab_{i}` without one, and no key repeats |
| Walker.TabsDataSize | gdocs/docs_tools.py:382-439 | with distinct tab keys, `tabs_data` has one entry per top-level tab |
| Walker.TabsDataEntry | gdocs/docs_tools.py:383-439 | a tab's entry is its own info unless a later tab reuses its key |
| Walker.ChildrenDataKeys | gdocs/docs_tools.py:414-437 | a child is in `child_tabs`, under its `tabId` or `child_tab_{j}`, exactly when it has a `documentTab` with body content |
| Walker.WalkDocument | gdocs/docs_tools.py:363-450 | the appending walk produces exactly the specified content lines (joined by newlines) and `tabs_data` |
| Walker.WalkTabs | gdocs/docs_tools.py:380-439 | the tab loop appends each tab's lines in order and assigns each tab's info |
| Walker.WalkTab | gdocs/docs_tools.py:383-439 | one tab iteration emits its header, body and child lines and builds its info |
| Walker.WalkChildren | gdocs/docs_tools.py:416-437 | the child loop appends each child's lines and records children with a body |
| Walker.WalkChild | gdocs/docs_tools.py:418-437 | one child iteration emits its lines and stores it only when it has a body |
| Walker.ExtractDocumentContent | gdocs/docs_tools.py:67-456 | a fetch happens exactly when no fresh entry exists; a hit returns the cached content and index with the cache unchanged; a miss returns the walk's result and stores it stamped with `now` |
| Walker.ExtractTwiceWithinTtl | gdocs/docs_tools.py:67-71 | when the first extraction fetches, a second one within 30 minutes fetches nothing and returns the same text |
| TabLocator.ExtractTabId | gdocs/docs_tools.py:461-478 | a non-`http` identifier is returned unchanged; a URL gives its first `tab` value, else the identifier itself |
| TabLocator.SearchByName | gdocs/docs_tools.py:739-771 | the name-search loops yield the preorder list of tabs and subtabs filtered by case-insensitive title containment |
| TabLocator.SearchSubtabs | gdocs/docs_tools.py:757-771 | the inner loop yields the parent's matching subtabs in `child_tabs` order |
| TabLocator.TabMatchedIff | gdocs/docs_tools.py:742-755 | a tab is among the matches exactly when its title (default `Untitled Tab`) contains the query case-insensitively |
| TabLocator.SubtabMatchedIff | gdocs/docs_tools.py:757-771 | a subtab is among the matches exactly when its title (default `Untitled Subtab`) contains the query case-insensitively |
| TabLocator.MatchesSound | gdocs/docs_tools.py:739-771 | every match is a tab or subtab of the index whose title contains the query |
| TabLocator.PreorderHas | gdocs/docs_tools.py:742-771 | every tab and every one of its subtabs is visited by the search |
| TabLocator.PreorderOnly | gdocs/docs_tools.py:742-771 | nothing but tabs and their subtabs is visited |
| TabLocator.ExampleNameSearch | gdocs/docs_tools.py:739-771 | searching `not` over tabs Intro, Notes (child Draft) matches only Notes |
| TabLocator.NameSearchFirst | gdocs/docs_tools.py:737-817 | a search by name is answered by name whatever the parent id |
| TabLocator.FirstIndexed | gdocs/docs_tools.py:840-847 | the heuristic picks the first child with an `index`, and none when no child has one |
| TabLocator.ScopedExactFirst | gdocs/docs_tools.py:829-837 | within a parent, an exact child id is found before the heuristic is tried |
| TabLocator.ScopedFallback | gdocs/docs_tools.py:820-882 | a missing parent is reported exactly when the parent is no key; without an exact child, the subtab is missing exactly when the id lacks `t.` or no child has an index, else the first indexed child is found |
| TabLocator.FindSubtab | gdocs/docs_tools.py:829-847 | the two child loops with `break` pick exactly the specified child |
| TabLocator.ChildScan | gdocs/docs_tools.py:922-948 | finds the first tab, in index order, having a child with that id, and none when no tab has one |
| TabLocator.ScanChildren | gdocs/docs_tools.py:922-948 | the scan loop with `break` returns exactly that first tab |
| TabLocator.TopLevelFirst | gdocs/docs_tools.py:884-920 | without a parent, an exact top-level key is found before any child |
| TabLocator.ChildScanFirstParent | gdocs/docs_tools.py:922-948 | a child match happens exactly when the id is no top-level key but some tab has such a child, and names the first such tab and that child |
| TabLocator.NotFoundIff | gdocs/docs_tools.py:951-968 | the not-found listing is produced exactly when the id is neither a top-level key nor any child key |
| TabLocator.ExampleLookups | gdocs/docs_tools.py:884-968 | over the example index `t.1` is a top-level hit, `c.0` a child-scan hit under `t.1`, and `missing` is not found |
| TabLocator.LocateTab | gdocs/docs_tools.py:737-968 | the branching lookup returns exactly the specified resolution |
| TabLocator.GetTabContent | gdocs/docs_tools.py:587-970 | the response is the header lines and the rendered resolution, joined by newlines |
| TabLocator.TabContentShown | gdocs/docs_tools.py:889-907 | a found tab's content lines appear verbatim right after the content banner, or `No content found in this tab.` |
| TabLocator.ChildContentShown | gdocs/docs_tools.py:925-946 | a child-scan hit ends the response with the subtab's content, or the empty notice |
| TabLocator.ScopedContentShown | gdocs/docs_tools.py:849-868 | a parent-scoped hit ends the response with the subtab's content, or the empty notice |
| TabLocator.ListingNamesEveryTab | gdocs/docs_tools.py:951-968 | the not-found listing has a line for every tab with its title and index |
| TabLocator.ListingNamesEverySubtab | gdocs/docs_tools.py:951-968 | the not-found listing has a `Subtab ID` line for every child of every tab, with its title |
| TabEdit.FirstHit | gdocs/docs_tools.py:1134-1171 | the search stops at the first tab, in visiting order, that matches, and finds none when nothing matches |
| TabEdit.FindTargetTab | gdocs/docs_tools.py:1131-1171 | the nested loops with `break` find exactly that first match; after a name search the request carries the found tab's own `tabId` |
| TabEdit.FindChild | gdocs/docs_tools.py:1146-1152 | the child loop stops at the first matching child |
| TabEdit.TargetIff | gdocs/docs_tools.py:1173-1189 | no tab is found exactly when no visited tab matches; a found tab is a visited tab that matches |
| TabEdit.TabBeforeItsChildren | gdocs/docs_tools.py:1136-1154 | a matching tab wins over its own children and every later tab |
| TabEdit.AvailableTabsCount | gdocs/docs_tools.py:1174-1189 | the not-found listing has one line per tab and per child tab |
| TabEdit.LastParagraph | gdocs/docs_tools.py:1201-1205 | finds the last element that has both a paragraph and an `endIndex` |
| TabEdit.LastLate | gdocs/docs_tools.py:1208-1213 | finds the last element whose `endIndex` exceeds 10 |
| TabEdit.PlannedIndex | gdocs/docs_tools.py:1195-1218 | the index is always at least 1, `beginning` gives 1, and only `end` and `beginning` are supported |
| TabEdit.EndIndexCases | gdocs/docs_tools.py:1195-1213 | `end` gives `e - 3` for the last paragraph's `endIndex` `e > 4`; otherwise `e' - 10` for the last `endIndex` `e' > 10`; otherwise 1 |
| TabEdit.ComputeEndIndex | gdocs/docs_tools.py:1195-1213 | the two reverse scans with `break` compute exactly that index |
| TabEdit.TextToInsert | gdocs/docs_tools.py:1223-1227 | a newline is prepended exactly when the position is `end` and the index exceeds 1 |
| TabEdit.EditTabContent | gdocs/docs_tools.py:1127-1264 | reports a missing tab before the position check; issues the insert request only for a found tab and supported position; evicts the cached document exactly when the update succeeds; answers with the matching message |
| TabEdit.EditKeepsOtherDocuments | gdocs/docs_tools.py:1250-1251 | a successful edit leaves the edited document uncached and every other cached document as it was |

## Left out

- Google API calls (`documents().get`, `batchUpdate`, comment endpoints): the fetched document is an input, and the update's outcome is the `updateError` parameter of `TabEdit.EditTabContent`.
- `asyncio` threading and the 60-second timeout are concurrency. So is the unsynchronised race between a read's cache write and an edit's eviction.
- `datetime.now()`: the clock is an integer microsecond count supplied by the caller.
- `urllib.parse` query parsing is a library parse. `TabLocator.ExtractTabId` takes the `tab` values of the URL as a parameter.
- Floating-point values are given as integers or pre-rendered strings: colour components (`int(x * 255)`), the font-size magnitude, and the page-size and margin magnitudes.
- `Text.Lower` folds ASCII letters only. Python's `str.lower` also folds other scripts.
- `_get_tab_content_lightweight` and the lightweight branch of `get_tab_content` are API-driven copies of the renderer. The locator models the full-processing path, which runs for a name search, for a parent-scoped lookup, and whenever the lightweight attempt fails.
- `read_doc_comments`, `reply_to_comment`, `create_doc_comment` and `_format_tab_selection_prompt` are formatting wrappers around API responses. Logging is also left out.
- The generic `Exception` handler of `edit_tab_content` is not modelled: only the HTTP-error message is.
- `EditTabContent`'s `parent_tab_id` argument is not modelled: the source accepts it but never reads it.
- Tab objects are taken to be non-empty dictionaries. The source's `if target_tab:` tests truthiness, so a matched empty `{}` tab would be skipped.
- Grandchild tabs are not modelled: every part of the source visits one level of `childTabs`.
- Walker.ExtractTwiceWithinTtl: promises the same text only when the first call fetched. An older cached entry can expire between two calls, and then the second call fetches again.
