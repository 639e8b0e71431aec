/**
 The layout snapshot: `parse_zellij_layout` after JSON decoding.

 A reply text is represented by what JSON decoding makes of it (`Text`): whether it is the empty string, and what it
 decodes to as a tab list and as a pane list. The same text may decode as both (an empty JSON array does).
 */
module ZellijLayout {
  import opened Common

  datatype TabInfo = TabInfo(
    tabId: nat, position: nat, name: string, active: bool, hasBell: bool,
    panesToHide: nat, fullscreenActive: bool, floatingPanesVisible: bool)

  datatype PaneEntry = PaneEntry(
    tabId: nat, id: nat, title: string, isFocused: bool, isFloating: bool, exited: bool,
    command: Option<string>, cwd: Option<string>, x: nat, y: nat, rows: nat, cols: nat,
    isPlugin: bool, isFullscreen: bool)

  datatype PaneSnapshot = PaneSnapshot(
    id: nat, title: string, isFocused: bool, isFloating: bool, exited: bool,
    command: string, cwd: string, x: nat, y: nat, rows: nat, cols: nat,
    isPlugin: bool, isFullscreen: bool)

  datatype TabSnapshot = TabSnapshot(
    tabId: nat, position: nat, name: string, active: bool, hasBell: bool,
    panesToHide: nat, fullscreenActive: bool, floatingPanesVisible: bool,
    panes: seq<PaneSnapshot>)

  datatype Text = Text(isEmpty: bool, asTabs: Option<seq<TabInfo>>, asPanes: Option<seq<PaneEntry>>)

  datatype LayoutError = EmptyTabs | EmptyPanes | BadTabsJson | BadPanesJson

  type Snapshot = Result<seq<TabSnapshot>, LayoutError>

  function OrEmpty(s: Option<string>): string {
    match s
    case Some(v) => v
    case None => ""
  }

  function ToPane(e: PaneEntry): PaneSnapshot {
    PaneSnapshot(e.id, e.title, e.isFocused, e.isFloating, e.exited, OrEmpty(e.command), OrEmpty(e.cwd),
                 AsU32(e.x), AsU32(e.y), AsU32(e.rows), AsU32(e.cols), e.isPlugin, e.isFullscreen)
  }

  function ToTab(t: TabInfo, panes: seq<PaneSnapshot>): TabSnapshot {
    TabSnapshot(t.tabId, AsU32(t.position), t.name, t.active, t.hasBell, AsU32(t.panesToHide),
                t.fullscreenActive, t.floatingPanesVisible, panes)
  }

  // ─── Specification: a filter per tab ────────────────────────────────────────

  /** The panes that name tab `id`, in list order. */
  function PanesOf(panes: seq<PaneEntry>, id: nat): seq<PaneSnapshot> {
    if panes == [] then []
    else
      var front := PanesOf(panes[..|panes| - 1], id);
      var last := panes[|panes| - 1];
      if last.tabId == id then front + [ToPane(last)] else front
  }

  /** No earlier tab of the list has the id of tab `i`. */
  predicate FirstOfId(tabs: seq<TabInfo>, i: nat)
    requires i < |tabs|
  {
    forall j | 0 <= j < i :: tabs[j].tabId != tabs[i].tabId
  }

  /** The first tab of an id owns all panes of that id, a repeated id gets none. */
  function TabAt(tabs: seq<TabInfo>, panes: seq<PaneEntry>, i: nat): TabSnapshot
    requires i < |tabs|
  {
    ToTab(tabs[i], if FirstOfId(tabs, i) then PanesOf(panes, tabs[i].tabId) else [])
  }

  function Grouped(tabs: seq<TabInfo>, panes: seq<PaneEntry>): seq<TabSnapshot> {
    seq(|tabs|, i requires 0 <= i < |tabs| => TabAt(tabs, panes, i))
  }

  function ParsedLayout(tabs: Text, panes: Text): Snapshot {
    if tabs.asTabs.None? then Failure(BadTabsJson)
    else if panes.asPanes.None? then Failure(BadPanesJson)
    else Success(Grouped(tabs.asTabs.value, panes.asPanes.value))
  }

  // ─── The hash-map grouping loops ─────────────────────────────────────────────

  /** The panes kept in the grouping map under `id`; an absent key stands for no pane. */
  function Bucket(byTab: map<nat, seq<PaneSnapshot>>, id: nat): seq<PaneSnapshot> {
    if id in byTab then byTab[id] else []
  }

  method GroupPanes(panes: seq<PaneEntry>) returns (byTab: map<nat, seq<PaneSnapshot>>)
    ensures forall id: nat :: Bucket(byTab, id) == PanesOf(panes, id)
  {
    byTab := map[];
    for i := 0 to |panes|
      invariant forall id: nat :: Bucket(byTab, id) == PanesOf(panes[..i], id)
    {
      var entry := panes[i];
      byTab := byTab[entry.tabId := Bucket(byTab, entry.tabId) + [ToPane(entry)]];
      assert panes[..i + 1][..i] == panes[..i];
    }
    assert panes[..|panes|] == panes;
  }

  /** What is left in the grouping map for `id` once the tabs of `taken` have removed their entries. */
  function Unclaimed(taken: seq<TabInfo>, panes: seq<PaneEntry>, id: nat): seq<PaneSnapshot> {
    if exists j :: 0 <= j < |taken| && taken[j].tabId == id then [] else PanesOf(panes, id)
  }

  lemma ClaimOne(tabs: seq<TabInfo>, i: nat, panes: seq<PaneEntry>, id: nat)
    requires i < |tabs|
    ensures Unclaimed(tabs[..i + 1], panes, id) ==
            (if id == tabs[i].tabId then [] else Unclaimed(tabs[..i], panes, id))
  {
    var before, after := tabs[..i], tabs[..i + 1];
    assert after[i].tabId == tabs[i].tabId;
    if j :| 0 <= j < |before| && before[j].tabId == id {
      assert after[j].tabId == id;
    }
    if j :| 0 <= j < |after| && after[j].tabId == id {
      assert j == i || before[j].tabId == id;
    }
  }

  lemma ClaimIsFirst(tabs: seq<TabInfo>, i: nat, panes: seq<PaneEntry>)
    requires i < |tabs|
    ensures ToTab(tabs[i], Unclaimed(tabs[..i], panes, tabs[i].tabId)) == TabAt(tabs, panes, i)
  {
    if !FirstOfId(tabs, i) {
      var j :| 0 <= j < i && tabs[j].tabId == tabs[i].tabId;
      assert tabs[..i][j].tabId == tabs[i].tabId;
    }
  }

  method AttachPanes(tabs: seq<TabInfo>, ghost panes: seq<PaneEntry>, grouped: map<nat, seq<PaneSnapshot>>)
    returns (tabSnaps: seq<TabSnapshot>)
    requires forall id: nat :: Bucket(grouped, id) == PanesOf(panes, id)
    ensures tabSnaps == Grouped(tabs, panes)
  {
    var byTab := grouped;
    tabSnaps := [];
    for i := 0 to |tabs|
      invariant |tabSnaps| == i && forall k | 0 <= k < i :: tabSnaps[k] == TabAt(tabs, panes, k)
      invariant forall id: nat :: Bucket(byTab, id) == Unclaimed(tabs[..i], panes, id)
    {
      ClaimIsFirst(tabs, i, panes);
      tabSnaps := tabSnaps + [ToTab(tabs[i], Bucket(byTab, tabs[i].tabId))];
      forall id: nat
        ensures Bucket(byTab - {tabs[i].tabId}, id) == Unclaimed(tabs[..i + 1], panes, id)
      {
        assert Bucket(byTab, id) == Unclaimed(tabs[..i], panes, id);
        ClaimOne(tabs, i, panes, id);
      }
      byTab := byTab - {tabs[i].tabId};
    }
  }

  method ParseZellijLayout(tabsText: Text, panesText: Text) returns (snapshot: Snapshot)
    ensures snapshot == ParsedLayout(tabsText, panesText)
  {
    if tabsText.asTabs.None? {
      return Failure(BadTabsJson);
    }
    if panesText.asPanes.None? {
      return Failure(BadPanesJson);
    }
    var byTab := GroupPanes(panesText.asPanes.value);
    var tabSnaps := AttachPanes(tabsText.asTabs.value, panesText.asPanes.value, byTab);
    snapshot := Success(tabSnaps);
  }

  // ─── When is every tab given exactly its own panes? ─────────────────────────

  ghost predicate EveryTabHasItsPanes(tabs: seq<TabInfo>, panes: seq<PaneEntry>) {
    forall i | 0 <= i < |tabs| :: Grouped(tabs, panes)[i].panes == PanesOf(panes, tabs[i].tabId)
  }

  /** No id that occurs on two tabs has a pane. */
  ghost predicate NoSharedPanes(tabs: seq<TabInfo>, panes: seq<PaneEntry>) {
    forall i, j | 0 <= i < j < |tabs| && tabs[i].tabId == tabs[j].tabId :: PanesOf(panes, tabs[j].tabId) == []
  }

  /** Emptying the map with `remove` is right exactly when no repeated tab id owns a pane. */
  lemma EveryTabHasItsPanesIff(tabs: seq<TabInfo>, panes: seq<PaneEntry>)
    ensures EveryTabHasItsPanes(tabs, panes) <==> NoSharedPanes(tabs, panes)
  {
    if EveryTabHasItsPanes(tabs, panes) {
      forall i, j | 0 <= i < j < |tabs| && tabs[i].tabId == tabs[j].tabId
        ensures PanesOf(panes, tabs[j].tabId) == []
      {
        assert !FirstOfId(tabs, j);
        assert Grouped(tabs, panes)[j].panes == [];
      }
    }
    if NoSharedPanes(tabs, panes) {
      forall i | 0 <= i < |tabs|
        ensures Grouped(tabs, panes)[i].panes == PanesOf(panes, tabs[i].tabId)
      {
        if !FirstOfId(tabs, i) {
          var j :| 0 <= j < i && tabs[j].tabId == tabs[i].tabId;
          assert PanesOf(panes, tabs[i].tabId) == [];
        }
      }
    }
  }
}
