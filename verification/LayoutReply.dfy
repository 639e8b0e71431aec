/** GetLayout: the snapshot with the caller's own view state laid over it, as sent to the client. */
module LayoutReply {
  import opened Common
  import opened ZellijLayout
  import opened RelayInbound

  datatype PaneMsg = PaneMsg(
    id: nat, title: string, isFocused: bool, isFloating: bool, exited: bool, command: string, cwd: string,
    x: nat, y: nat, rows: nat, cols: nat, isPlugin: bool, isFullscreen: bool)

  datatype TabMsg = TabMsg(
    position: nat, name: string, active: bool, hasBell: bool, panesToHide: nat, tabId: nat, panes: seq<PaneMsg>,
    fullscreenActive: bool, floatingPanesVisible: bool)

  /** Only the view state of the caller's own relay may override the queried flags. */
  predicate ShouldApplyViewStateOverride(viaRelay: bool, requestConn: string, relayConn: string) {
    viaRelay && requestConn != "" && relayConn == requestConn
  }

  /** The tab this connection is known to look at. */
  function KnownTab(vs: Option<RelayViewState>): Option<nat> {
    if vs.Some? then vs.value.activeTab else None
  }

  /** The focused pane known for tab `id`: tracked, and only within the connection's active tab. */
  function KnownPane(vs: Option<RelayViewState>, id: nat): Option<PaneRef> {
    if vs.Some? && vs.value.activeTab == Some(id) then vs.value.focusedPane else None
  }

  function ToPaneMsg(p: PaneSnapshot, known: Option<PaneRef>): PaneMsg {
    var isFocused := if known.Some? then known.value == PaneRef(p.id, p.isPlugin) else p.isFocused;
    PaneMsg(p.id, p.title, isFocused, p.isFloating, p.exited, p.command, p.cwd, p.x, p.y, p.rows, p.cols,
            p.isPlugin, p.isFullscreen)
  }

  /** Plugin panes are never shown. */
  function VisiblePanes(panes: seq<PaneSnapshot>, known: Option<PaneRef>): seq<PaneMsg> {
    if panes == [] then []
    else if panes[0].isPlugin then VisiblePanes(panes[1..], known)
    else [ToPaneMsg(panes[0], known)] + VisiblePanes(panes[1..], known)
  }

  function ToTabMsg(tab: TabSnapshot, vs: Option<RelayViewState>): TabMsg {
    var active := match KnownTab(vs) case Some(t) => tab.tabId == t case None => tab.active;
    TabMsg(tab.position, tab.name, active, tab.hasBell, tab.panesToHide, AsU32(tab.tabId),
           VisiblePanes(tab.panes, KnownPane(vs, tab.tabId)), tab.fullscreenActive, tab.floatingPanesVisible)
  }

  function BuildLayout(snapshot: seq<TabSnapshot>, vs: Option<RelayViewState>): seq<TabMsg> {
    seq(|snapshot|, i requires 0 <= i < |snapshot| => ToTabMsg(snapshot[i], vs))
  }

  /** The view state used for a reply served by the relay `relayConn`. */
  function OverrideFor(viaRelay: bool, requestConn: string, relayConn: string, views: map<string, ViewStateEntry>)
    : Option<RelayViewState>
  {
    if ShouldApplyViewStateOverride(viaRelay, requestConn, relayConn) && relayConn in views
    then Some(views[relayConn].state)
    else None
  }

  // ─── Refinement of a filter over the raw lists ──────────────────────────────

  /** The terminals of tab `id`, read straight off the ListPanes entries, with the flags reported there. */
  function RawPanes(entries: seq<PaneEntry>, id: nat): seq<PaneMsg> {
    if entries == [] then []
    else
      var front := RawPanes(entries[..|entries| - 1], id);
      var e := entries[|entries| - 1];
      if e.tabId != id || e.isPlugin then front
      else front + [PaneMsg(e.id, e.title, e.isFocused, e.isFloating, e.exited, OrEmpty(e.command), OrEmpty(e.cwd),
                            AsU32(e.x), AsU32(e.y), AsU32(e.rows), AsU32(e.cols), false, e.isFullscreen)]
  }

  /** A tab as the two lists report it, its terminals under it. */
  function RawTab(t: TabInfo, entries: seq<PaneEntry>): TabMsg {
    TabMsg(AsU32(t.position), t.name, t.active, t.hasBell, AsU32(t.panesToHide), AsU32(t.tabId),
           RawPanes(entries, t.tabId), t.fullscreenActive, t.floatingPanesVisible)
  }

  /** Exactly the pane `known` is focused. */
  function Refocused(panes: seq<PaneMsg>, known: PaneRef): seq<PaneMsg> {
    seq(|panes|, i requires 0 <= i < |panes| => panes[i].(isFocused := PaneRef(panes[i].id, panes[i].isPlugin) == known))
  }

  /**
   What a connection's own view changes about tab `id`: the tab is active iff it is the one looked at, and in that tab a
   tracked pane alone is focused. With no tab known nothing changes.
   */
  function Viewed(tab: TabMsg, id: nat, vs: Option<RelayViewState>): TabMsg {
    match KnownTab(vs)
    case None => tab
    case Some(at) =>
      var panes := match KnownPane(vs, id) case Some(known) => Refocused(tab.panes, known) case None => tab.panes;
      tab.(active := at == id, panes := panes)
  }

  lemma {:induction false} VisibleSnoc(panes: seq<PaneSnapshot>, p: PaneSnapshot, known: Option<PaneRef>)
    ensures VisiblePanes(panes + [p], known) == VisiblePanes(panes, known) + VisiblePanes([p], known)
  {
    if panes == [] {
      assert panes + [p] == [p];
    } else {
      VisibleSnoc(panes[1..], p, known);
      assert (panes + [p])[1..] == panes[1..] + [p];
    }
  }

  function RefocusedIf(panes: seq<PaneMsg>, known: Option<PaneRef>): seq<PaneMsg> {
    match known case Some(pane) => Refocused(panes, pane) case None => panes
  }

  lemma {:induction false} VisibleIsRaw(entries: seq<PaneEntry>, id: nat, known: Option<PaneRef>)
    ensures VisiblePanes(PanesOf(entries, id), known) == RefocusedIf(RawPanes(entries, id), known)
  {
    if entries != [] {
      var front, last := entries[..|entries| - 1], entries[|entries| - 1];
      VisibleIsRaw(front, id, known);
      if last.tabId == id {
        VisibleSnoc(PanesOf(front, id), ToPane(last), known);
        assert [ToPane(last)][1..] == [];
      }
    }
  }

  /** The whole reply, tab by tab and field by field. */
  function ViewedReply(tabs: seq<TabInfo>, entries: seq<PaneEntry>, vs: Option<RelayViewState>): seq<TabMsg> {
    seq(|tabs|, i requires 0 <= i < |tabs| => Viewed(RawTab(tabs[i], entries), tabs[i].tabId, vs))
  }

  function RawReply(tabs: seq<TabInfo>, entries: seq<PaneEntry>): seq<TabMsg> {
    seq(|tabs|, i requires 0 <= i < |tabs| => RawTab(tabs[i], entries))
  }

  /**
   Layout refinement. For ids of which no repeated one owns a pane (distinct ids in particular), grouping, filtering and
   overriding give the raw filter of the two lists, seen through the connection's view state, in every field.
   */
  lemma LayoutRefinesFilter(tabs: seq<TabInfo>, entries: seq<PaneEntry>, vs: Option<RelayViewState>)
    requires NoSharedPanes(tabs, entries)
    ensures BuildLayout(Grouped(tabs, entries), vs) == ViewedReply(tabs, entries, vs)
    ensures BuildLayout(Grouped(tabs, entries), None) == RawReply(tabs, entries)
  {
    EveryTabHasItsPanesIff(tabs, entries);
    forall i | 0 <= i < |tabs|
      ensures ToTabMsg(Grouped(tabs, entries)[i], vs) == Viewed(RawTab(tabs[i], entries), tabs[i].tabId, vs)
      ensures ToTabMsg(Grouped(tabs, entries)[i], None) == RawTab(tabs[i], entries)
    {
      TabRefinesFilter(tabs, entries, i, vs);
      TabRefinesFilter(tabs, entries, i, None);
    }
  }

  lemma TabRefinesFilter(tabs: seq<TabInfo>, entries: seq<PaneEntry>, i: nat, vs: Option<RelayViewState>)
    requires i < |tabs| && Grouped(tabs, entries)[i].panes == PanesOf(entries, tabs[i].tabId)
    ensures ToTabMsg(Grouped(tabs, entries)[i], vs) == Viewed(RawTab(tabs[i], entries), tabs[i].tabId, vs)
  {
    var id := tabs[i].tabId;
    assert Grouped(tabs, entries)[i] == TabAt(tabs, entries, i);
    VisibleIsRaw(entries, id, KnownPane(vs, id));
  }

  /** Raw panes are the terminals of that tab alone, in list order. */
  lemma {:induction false} RawPanesAreTerminals(entries: seq<PaneEntry>, id: nat)
    ensures forall p | p in RawPanes(entries, id) ::
      !p.isPlugin && exists e :: e in entries && e.tabId == id && !e.isPlugin && e.id == p.id
    ensures forall e | e in entries && e.tabId == id && !e.isPlugin :: exists p :: p in RawPanes(entries, id) && p.id == e.id
  {
    if entries != [] {
      var front, last := entries[..|entries| - 1], entries[|entries| - 1];
      RawPanesAreTerminals(front, id);
      assert entries == front + [last];
      var panes := RawPanes(entries, id);
      forall e | e in entries && e.tabId == id && !e.isPlugin ensures exists p :: p in panes && p.id == e.id {
        if e == last {
          assert panes[|panes| - 1] in panes;
        } else {
          var p :| p in RawPanes(front, id) && p.id == e.id;
          assert p in panes;
        }
      }
    }
  }

  /** With a tracked pane known, that pane alone is focused in the tab looked at; the other tabs keep their flags. */
  lemma ViewedFocus(tab: TabMsg, id: nat, vs: RelayViewState)
    requires vs.activeTab.Some?
    ensures var seen := Viewed(tab, id, Some(vs));
      && (seen.active <==> vs.activeTab.value == id)
      && (vs.activeTab.value != id || vs.focusedPane.None? ==> seen.panes == tab.panes)
      && (vs.activeTab.value == id && vs.focusedPane.Some? ==>
            |seen.panes| == |tab.panes| &&
            forall i | 0 <= i < |tab.panes| ::
              seen.panes[i].isFocused <==> PaneRef(tab.panes[i].id, tab.panes[i].isPlugin) == vs.focusedPane.value)
  {
  }
}
