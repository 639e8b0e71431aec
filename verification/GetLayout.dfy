/** GetLayout from the request to the reply: which relay is asked, what is done without its answer, whose view is used. */
module GetLayout {
  import opened Common
  import opened SessionIds
  import opened ZellijLayout
  import opened RelayInbound
  import opened ControlRouting
  import opened LayoutReply
  import opened Daemon
  import RelayQuery
  import opened RelayReplies

  /** What comes back over the reply channel of a routed query. */
  datatype RelayAnswer = Snap(tabs: seq<TabSnapshot>) | QueryFailed | Cancelled | Late

  /** The relay that takes the query: the target, if its queue still has a receiver. */
  function Asked(control: map<ConnId, ControlEntry>, order: seq<ConnId>, session: string, conn: ConnId, takes: set<ConnId>)
    : Option<ConnId>
  {
    var target := QueryTarget(control, order, session, conn);
    if target.Some? && target.value in takes then target else None
  }

  /** The reply: from the relay asked if it answered with a snapshot, else from the query that opens its own client. */
  function Reply(asked: Option<ConnId>, answer: RelayAnswer, ephemeral: Option<seq<TabSnapshot>>, conn: ConnId,
                 views: map<ConnId, ViewStateEntry>): Option<seq<TabMsg>>
  {
    if asked.Some? && answer.Snap? then Some(BuildLayout(answer.tabs, OverrideFor(true, conn, asked.value, views)))
    else match ephemeral
      case Some(tabs) => Some(BuildLayout(tabs, OverrideFor(false, conn, "", views)))
      case None => None
  }

  class LayoutOps {
    const router: Router

    constructor (router: Router)
      ensures this.router == router
    {
      this.router := router;
    }

    /**
     `get_layout_impl` after the id is resolved. `answer` is what the relay asked comes to, `ephemeral` what the query of
     its own would, `views` the view states when the reply is built.
     */
    method GetLayout(order: seq<ConnId>, session: string, conn: ConnId, alive: set<ConnId>, answer: RelayAnswer,
                     ephemeral: Option<seq<TabSnapshot>>, views: map<ConnId, ViewStateEntry>)
      returns (reply: Option<seq<TabMsg>>)
      modifies router`queues
      ensures var queues := old(router.queues);
        var asked := Asked(router.control, order, session, conn, alive * queues.Keys);
        && reply == Reply(asked, answer, ephemeral, conn, views)
        && router.queues == match asked case Some(c) => queues[c := queues[c] + [QueryLayout]] case None => queues
    {
      var served := router.RouteQuery(order, session, conn, alive);
      var viaRelay, relayConn, snapshot := false, "", ephemeral;
      if served.Some? {
        match answer {
          case Snap(tabs) => viaRelay, relayConn, snapshot := true, served.value, Some(tabs);
          case QueryFailed =>
          case Cancelled =>
          case Late =>
        }
      }
      if snapshot.None? {
        return None;
      }
      var view := OverrideFor(viaRelay, conn, relayConn, views);
      reply := Some(BuildLayout(snapshot.value, view));
    }
  }

  // ─── In every reachable state of the daemon ──────────────────────────────────

  lemma SessionStays(s: State, run: seq<Step>, t: State, c: ConnId)
    requires Inv(s) && Run(s, run, t) && c in s.relays
    ensures c in t.relays && t.relays[c].session == s.relays[c].session
  {
    HandlesOwnQueue(s, run, t, c);
  }

  /** The caller's own relay answered. */
  predicate OwnAnswer(asked: Option<ConnId>, answer: RelayAnswer, conn: ConnId) {
    asked == Some(conn) && conn != "" && answer.Snap?
  }

  /** The view state that the reply is seen through: the caller's own, if the caller's own relay answered. */
  function SeenThrough(asked: Option<ConnId>, answer: RelayAnswer, conn: ConnId, views: map<ConnId, ViewStateEntry>)
    : Option<RelayViewState>
  {
    if OwnAnswer(asked, answer, conn) && conn in views then Some(views[conn].state) else None
  }

  /**
   In every reachable state `s` of the daemon, and whatever happens until the view states are read in `u`: the reply is
   the relay's snapshot or else that of the handler's own query, seen through the caller's own view state if the caller's
   own relay answered, and as it is otherwise. That view state belongs to the session asked for.
   */
  lemma ViewInEveryRun(backends: BackendSet, before: seq<Step>, s: State, after: seq<Step>, u: State,
                       order: seq<ConnId>, session: string, conn: ConnId, takes: set<ConnId>,
                       answer: RelayAnswer, ephemeral: Option<seq<TabSnapshot>>)
    requires Run(Initial(backends), before, s) && Run(s, after, u) && Lists(order, s.control)
    ensures var asked := Asked(s.control, order, session, conn, takes);
      var vs := SeenThrough(asked, answer, conn, u.view);
      && Reply(asked, answer, ephemeral, conn, u.view) ==
           (if asked.Some? && answer.Snap? then Some(BuildLayout(answer.tabs, vs))
            else if ephemeral.Some? then Some(BuildLayout(ephemeral.value, None)) else None)
      && (vs.Some? ==> u.view[conn].session == session)
  {
    InitialInv(backends);
    InvRun(Initial(backends), before, s);
    InvRun(s, after, u);
    if OwnAnswer(Asked(s.control, order, session, conn, takes), answer, conn) && conn in u.view {
      QueryTargetIsolated(s.control, order, session, conn);
      assert EntryOk(s, conn) && EntryOk(u, conn);
      SessionStays(s, after, u, conn);
    }
  }

  /** The answer is the one that the reader of the relay asked sent to query `q`. */
  ghost predicate AnsweredBy(relay: RelayQuery.State, q: nat, answer: RelayAnswer) {
    answer.Snap? ==> RelayQuery.Sent(q, Success(answer.tabs)) in relay.loop.replies
  }

  /**
   From the two Logs to the client. The relay asked is in any state that its own runs reach, the daemon in any that its
   runs reach. A relay's answer was made from two Logs shown to that query one after the other, the first read as tabs and
   the second as panes; the reply is the raw filter of these two lists, in every field, seen through the caller's own
   view state if it was the caller's own relay, and with all flags as reported if it was a sibling's.
   */
  lemma ReplyInEveryRun(backends: BackendSet, before: seq<Step>, s: State, after: seq<Step>, u: State,
                        order: seq<ConnId>, session: string, conn: ConnId, takes: set<ConnId>,
                        answer: RelayAnswer, ephemeral: Option<seq<TabSnapshot>>,
                        relayRun: seq<RelayQuery.Step>, relay: RelayQuery.State, q: nat)
    requires Run(Initial(backends), before, s) && Run(s, after, u) && Lists(order, s.control)
    requires RelayQuery.Run(RelayQuery.INITIAL, relayRun, relay) && AnsweredBy(relay, q, answer)
    requires Asked(s.control, order, session, conn, takes).Some? && answer.Snap?
    ensures var asked := Asked(s.control, order, session, conn, takes);
      exists ts, ps ::
        && SnapshotOf(relay.loop, q, ts, ps)
        && (NoSharedPanes(ts, ps) ==>
              Reply(asked, answer, ephemeral, conn, u.view) ==
              Some(if OwnAnswer(asked, answer, conn) && conn in u.view then ViewedReply(ts, ps, Some(u.view[conn].state))
                   else RawReply(ts, ps)))
  {
    ViewInEveryRun(backends, before, s, after, u, order, session, conn, takes, answer, ephemeral);
    SentSnapshotIsLayout(relayRun, relay, q, answer.tabs);
    var ts, ps :| SnapshotOf(relay.loop, q, ts, ps) && answer.tabs == Grouped(ts, ps);
    if NoSharedPanes(ts, ps) {
      var vs := SeenThrough(Asked(s.control, order, session, conn, takes), answer, conn, u.view);
      LayoutRefinesFilter(ts, ps, vs);
    }
  }

  /** Without an answer from a relay: the raw filter of the lists the handler queries itself. */
  lemma OwnQueryInEveryRun(backends: BackendSet, before: seq<Step>, s: State, after: seq<Step>, u: State,
                           order: seq<ConnId>, session: string, conn: ConnId, takes: set<ConnId>,
                           answer: RelayAnswer, tabs: seq<TabInfo>, entries: seq<PaneEntry>)
    requires Run(Initial(backends), before, s) && Run(s, after, u) && Lists(order, s.control)
    requires Asked(s.control, order, session, conn, takes).None? || !answer.Snap?
    requires NoSharedPanes(tabs, entries)
    ensures Reply(Asked(s.control, order, session, conn, takes), answer, Some(Grouped(tabs, entries)), conn, u.view)
      == Some(RawReply(tabs, entries))
  {
    ViewInEveryRun(backends, before, s, after, u, order, session, conn, takes, answer, Some(Grouped(tabs, entries)));
    LayoutRefinesFilter(tabs, entries, None);
  }

  /**
   The tab shown as active in the caller's own reply. From its attach on and in any interleaving, a writable connection
   that last switched to a tab sees that one tab active; in it, if a pane is known, that pane alone is focused.
   */
  lemma OwnReplyShowsLastSwitch(s: State, c: ConnId, init: RelayViewState, run: seq<Step>, u: State,
                                tabs: seq<TabInfo>, entries: seq<PaneEntry>, i: nat, at: nat)
    requires Inv(s) && MoveEnabled(s, c, InsertView(init)) && Run(Lived(s, c, InsertView(init)), run, u) && c in u.view
    requires !s.relays[c].readOnly && LastTab(init.activeTab, EventsOf(run, c)) == Some(at) && i < |tabs|
    ensures var shown := ViewedReply(tabs, entries, Some(u.view[c].state))[i];
      && (shown.active <==> tabs[i].tabId == at)
      && (tabs[i].tabId != at || LastFocus(init.focusedPane, EventsOf(run, c)).None? ==>
            shown.panes == RawTab(tabs[i], entries).panes)
      && (tabs[i].tabId == at && LastFocus(init.focusedPane, EventsOf(run, c)).Some? ==>
            forall p | p in shown.panes ::
              p.isFocused <==> PaneRef(p.id, p.isPlugin) == LastFocus(init.focusedPane, EventsOf(run, c)).value)
  {
    ViewOverRuns(s, c, init, run, u);
    ViewedFocus(RawTab(tabs[i], entries), tabs[i].tabId, u.view[c].state);
  }

  /**
   When a layout query leaves the connection it names: exactly when that is not attached to the session and some relay
   of the session is.
   */
  lemma QueryLeavesNamedIff(control: map<ConnId, ControlEntry>, order: seq<ConnId>, session: string, conn: ConnId)
    requires Lists(order, control) && "" !in control
    ensures var target := QueryTarget(control, order, session, conn);
      (target.Some? && target.value != conn) <==>
      !Exact(control, session, conn) && exists c :: c in control && control[c].session == session
  {
    QueryTargetIsolated(control, order, session, conn);
  }
}
