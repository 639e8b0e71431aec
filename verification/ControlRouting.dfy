/**
 Which relay a unary command is routed to.

 The registry is scanned in an order the hash map chooses; `order` is that order and lists every key. A relay's queue
 takes a command only while the receiving task is there (`alive`).
 */
module ControlRouting {
  import opened Common
  import opened SessionIds
  import opened RelayInbound

  type ConnId = string

  datatype ControlEntry = ControlEntry(session: string, readOnly: bool)

  datatype Ack = Ack(ok: bool, error: string, info: string)

  /** The entry named by the request, if it is attached to the request's session. */
  predicate Exact(control: map<ConnId, ControlEntry>, session: string, conn: ConnId) {
    conn != "" && conn in control && control[conn].session == session
  }

  ghost predicate Lists(order: seq<ConnId>, control: map<ConnId, ControlEntry>) {
    forall c :: c in order <==> c in control
  }

  /** First relay of the session in map order; `writable` skips read-only ones. */
  function FirstOf(control: map<ConnId, ControlEntry>, order: seq<ConnId>, session: string, writable: bool): Option<ConnId>
  {
    if order == [] then None
    else if Serves(control, order[0], session, writable) then Some(order[0])
    else FirstOf(control, order[1..], session, writable)
  }

  predicate Serves(control: map<ConnId, ControlEntry>, c: ConnId, session: string, writable: bool) {
    c in control && control[c].session == session && (writable ==> !control[c].readOnly)
  }

  /** The relay `try_route_control` sends to. */
  function SteerTarget(control: map<ConnId, ControlEntry>, order: seq<ConnId>, session: string, conn: ConnId): Option<ConnId> {
    if Exact(control, session, conn) then Some(conn)
    else if IsCollapsedBackendSession(session) then None
    else FirstOf(control, order, session, true)
  }

  /** The relay a SwitchSpace, or the re-point after a close, is sent to. */
  function SpaceTarget(control: map<ConnId, ControlEntry>, session: string, conn: ConnId): Option<ConnId> {
    if Exact(control, session, conn) then Some(conn) else None
  }

  /** The relay a GetLayout query is sent to. */
  function QueryTarget(control: map<ConnId, ControlEntry>, order: seq<ConnId>, session: string, conn: ConnId): Option<ConnId> {
    if Exact(control, session, conn) then Some(conn) else FirstOf(control, order, session, false)
  }

  lemma {:induction false} FirstOfServes(control: map<ConnId, ControlEntry>, order: seq<ConnId>, session: string, writable: bool)
    ensures match FirstOf(control, order, session, writable)
      case Some(c) => c in order && Serves(control, c, session, writable)
      case None => forall c | c in order :: !Serves(control, c, session, writable)
  {
    if order != [] && !Serves(control, order[0], session, writable) {
      FirstOfServes(control, order[1..], session, writable);
      assert order == [order[0]] + order[1..];
    }
  }

  class Router {
    var control: map<ConnId, ControlEntry>
    var queues: map<ConnId, seq<RelayControl>>

    constructor (control: map<ConnId, ControlEntry>, queues: map<ConnId, seq<RelayControl>>)
      ensures this.control == control && this.queues == queues
    {
      this.control, this.queues := control, queues;
    }

    /** `sender.send(cmd)`: fails when the receiving task is gone. */
    method Send(c: ConnId, cmd: RelayControl, alive: set<ConnId>) returns (sent: bool)
      modifies this`queues
      ensures sent <==> c in alive && c in old(queues)
      ensures queues == if sent then old(queues)[c := old(queues)[c] + [cmd]] else old(queues)
    {
      sent := c in alive && c in queues;
      if sent {
        queues := queues[c := queues[c] + [cmd]];
      }
    }

    /** `control.iter().find(...)`. */
    method Find(order: seq<ConnId>, session: string, writable: bool) returns (found: Option<ConnId>)
      ensures found == FirstOf(control, order, session, writable)
    {
      found := None;
      var i := 0;
      while i < |order| && found.None?
        invariant i <= |order|
        invariant match found
          case None => FirstOf(control, order, session, writable) == FirstOf(control, order[i..], session, writable)
          case Some(c) => FirstOf(control, order, session, writable) == Some(c)
        decreases |order| - i
      {
        if Serves(control, order[i], session, writable) {
          found := Some(order[i]);
        }
        i := i + 1;
      }
    }

    /** `try_route_control`: an ack, or `None` to fall back to the ephemeral path. */
    method TryRouteControl(order: seq<ConnId>, session: string, conn: ConnId, cmd: RelayControl, alive: set<ConnId>)
      returns (ack: Option<Ack>)
      modifies this`queues
      ensures var target := SteerTarget(control, order, session, conn);
        if target.Some? && target.value in alive && target.value in old(queues)
        then ack == Some(Ack(true, "", if Exact(control, session, conn) then "routed via relay client (per-connection)"
                                       else "routed via relay client (session fallback, writable)"))
             && queues == old(queues)[target.value := old(queues)[target.value] + [cmd]]
        else queues == old(queues)
             && ack == (if IsCollapsedBackendSession(session)
                        then Some(Ack(false, "reattach required (no matching connection)", "")) else None)
    {
      if IsCollapsedBackendSession(session) {
        if Exact(control, session, conn) {
          var sent := Send(conn, cmd, alive);
          if sent {
            return Some(Ack(true, "", "routed via relay client (per-connection)"));
          }
        }
        return Some(Ack(false, "reattach required (no matching connection)", ""));
      }
      var target: ConnId;
      var info;
      if Exact(control, session, conn) {
        target, info := conn, "routed via relay client (per-connection)";
      } else {
        var fallback := Find(order, session, true);
        if fallback.None? {
          return None;
        }
        target, info := fallback.value, "routed via relay client (session fallback, writable)";
      }
      var sent := Send(target, cmd, alive);
      ack := if sent then Some(Ack(true, "", info)) else None;
    }

    /** `resolve_space_relay` and the send that follows it; `false` is the fail-closed answer. */
    method RouteSwitchSpace(session: string, conn: ConnId, space: string, alive: set<ConnId>) returns (sent: bool)
      modifies this`queues
      ensures var target := SpaceTarget(control, session, conn);
        if target.Some? && target.value in alive && target.value in old(queues)
        then sent && queues == old(queues)[conn := old(queues)[conn] + [SwitchSpace(space)]]
        else !sent && queues == old(queues)
    {
      sent := false;
      if Exact(control, session, conn) {
        sent := Send(conn, SwitchSpace(space), alive);
      }
    }

    /** The relay choice of GetLayout: the connection id of the relay that was sent the query, if any. */
    method RouteQuery(order: seq<ConnId>, session: string, conn: ConnId, alive: set<ConnId>) returns (served: Option<ConnId>)
      modifies this`queues
      ensures var target := QueryTarget(control, order, session, conn);
        if target.Some? && target.value in alive && target.value in old(queues)
        then served == target && queues == old(queues)[target.value := old(queues)[target.value] + [QueryLayout]]
        else served == None && queues == old(queues)
    {
      served := None;
      var target: Option<ConnId>;
      if Exact(control, session, conn) {
        target := Some(conn);
      } else {
        target := Find(order, session, false);
      }
      if target.Some? {
        var sent := Send(target.value, QueryLayout, alive);
        if sent {
          served := target;
        }
      }
    }
  }

  // ─── Isolation of one routing decision ──────────────────────────────────────

  /**
   A routed command goes to a relay of the request's session; to another relay than the named one only if that relay is
   writable and the session is not collapsed; and nowhere only if there is no such relay.
   */
  lemma SteerTargetIsolated(control: map<ConnId, ControlEntry>, order: seq<ConnId>, session: string, conn: ConnId)
    requires Lists(order, control)
    ensures match SteerTarget(control, order, session, conn)
      case Some(c) =>
        && c in control && control[c].session == session
        && (c != conn ==> !control[c].readOnly && !IsCollapsedBackendSession(session) && !Exact(control, session, conn))
      case None =>
        && !Exact(control, session, conn)
        && (IsCollapsedBackendSession(session) || forall c | c in control && control[c].session == session :: control[c].readOnly)
  {
    FirstOfServes(control, order, session, true);
  }

  /** A query may go to any relay of the session, the named one first. */
  lemma QueryTargetIsolated(control: map<ConnId, ControlEntry>, order: seq<ConnId>, session: string, conn: ConnId)
    requires Lists(order, control)
    ensures match QueryTarget(control, order, session, conn)
      case Some(c) => c in control && control[c].session == session && (c != conn ==> !Exact(control, session, conn))
      case None => forall c | c in control :: control[c].session != session
  {
    FirstOfServes(control, order, session, false);
  }

  /** In every registry, a steering command for this session reaches at most the connection it names. */
  ghost predicate NamedOnly(session: string) {
    forall control, order, conn | Lists(order, control) ::
      var target := SteerTarget(control, order, session, conn); target.None? || target.value == conn
  }

  /**
   Per-connection isolation of steering commands holds for exactly the sessions classified as collapsed. In particular
   a relay attached to herdr under its bare legacy id does not have it.
   */
  lemma NamedOnlyIffCollapsed(session: string)
    ensures NamedOnly(session) <==> IsCollapsedBackendSession(session)
  {
    if IsCollapsedBackendSession(session) {
      forall control, order, conn | Lists(order, control)
        ensures var target := SteerTarget(control, order, session, conn); target.None? || target.value == conn
      {
      }
    } else {
      var control := map["other" := ControlEntry(session, false)];
      var order := ["other"];
      assert Lists(order, control);
      FirstOfServes(control, order, session, true);
      assert "other" in order && Serves(control, "other", session, true);
      assert SteerTarget(control, order, session, "") == Some("other");
    }
  }

  lemma BareHerdrIsNotIsolated()
    ensures ResolveSessionKind([Herdr], "herdr") == Success(Target(Herdr, "herdr")) && !NamedOnly("herdr")
  {
    assert ResolveSessionKind([Herdr], "herdr") == Success(Target(Herdr, "herdr")) by {
      assert "herdr" != MakeId(Herdr, "herdr");
      ResolveInvertsMakeId([Herdr], "herdr", Herdr, "herdr");
      assert forall c | c in "herdr" :: IsNameChar(c) && c != ':';
    }
    NamedOnlyIffCollapsed("herdr");
    HerdrIdCollapsedIff([Herdr], "herdr");
  }

  /**
   GetLayout keeps its session fallback for every session, collapsed ones included: a query that names no connection
   reaches any relay of the session.
   */
  lemma QueryReachesSibling(session: string) returns (control: map<ConnId, ControlEntry>, order: seq<ConnId>)
    ensures Lists(order, control) && QueryTarget(control, order, session, "") == Some("other")
  {
    control := map["other" := ControlEntry(session, false)];
    order := ["other"];
    FirstOfServes(control, order, session, false);
    assert "other" in order && Serves(control, "other", session, false);
  }
}
