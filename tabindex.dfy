/**
 * The structured per-tab index (`tabs_data`) that the walker builds and the locator
 * reads: tab key -> {tab_id, properties, rendered content lines, child tab map}.
 */
module TabIndex {
  import opened Dict
  import opened DocModel

  datatype ChildInfo = ChildInfo(tabId: string, properties: TabProperties, content: seq<string>)

  datatype TabInfo = TabInfo(tabId: string, properties: TabProperties, content: seq<string>,
                             childTabs: seq<Entry<ChildInfo>>)

  type TabsData = seq<Entry<TabInfo>>
}
