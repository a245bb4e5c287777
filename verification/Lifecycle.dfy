/** Tunnel rows in the database together with the route registry: opening a
    tunnel and cleaning up a session, one database statement or one registry
    call at a time (backend/internal/tunnels/service.go, backend/cmd/server/main.go,
    and the deferred cleanup in backend/internal/gateway/agent_connect.go). */
module Lifecycle {
  import opened Protocol
  import opened Registries

  datatype Row = Row(subdomain: Name, agent: Name, user: Name, local: Name, open: bool, updated: int)
  type Table = map<Name, Row>

  predicate Candidate(table: Table, agent: Name, local: Name, id: Name) {
    id in table && table[id].agent == agent && table[id].local == local && !table[id].open
  }

  /** The row that ORDER BY updated_at DESC LIMIT 1 may pick. */
  ghost predicate Newest(table: Table, agent: Name, local: Name, id: Name) {
    && Candidate(table, agent, local, id)
    && forall other :: Candidate(table, agent, local, other) ==> table[other].updated <= table[id].updated
  }

  ghost predicate HasCandidate(table: Table, agent: Name, local: Name) {
    exists id :: Candidate(table, agent, local, id)
  }

  function Candidates(table: Table, agent: Name, local: Name): set<Name> {
    set id | id in table && Candidate(table, agent, local, id)
  }

  lemma {:induction false} NewestOf(table: Table, ids: set<Name>) returns (id: Name)
    requires ids != {} && ids <= table.Keys
    ensures id in ids && forall other :: other in ids ==> table[other].updated <= table[id].updated
    decreases ids
  {
    id :| id in ids;
    if ids != {id} {
      var best := NewestOf(table, ids - {id});
      if table[best].updated > table[id].updated {
        id := best;
      }
    }
  }

  function Reopen(table: Table, id: Name, now: int): Table
    requires id in table
  {
    table[id := table[id].(open := true, updated := now)]
  }

  function CloseRows(table: Table, agent: Name, now: int): Table {
    if agent == "" then table else map id | id in table :: ClosedRow(table[id], agent, now)
  }

  function ClosedRow(row: Row, agent: Name, now: int): Row {
    if row.agent == agent && row.open then row.(open := false, updated := now) else row
  }

  predicate SubdomainFree(table: Table, subdomain: Name) {
    forall id :: id in table ==> table[id].subdomain != subdomain
  }

  /** A closed row of the agent for the address. */
  predicate Waits(row: Row, agent: Name, local: Name) { row.agent == agent && row.local == local && !row.open }

  predicate Granted(row: Row, agent: Name, local: Name, now: int) {
    row.agent == agent && row.local == local && row.open && row.updated == now
  }

  class TunnelTable {
    var rows: Table

    /** Afterwards the agent has no open row, and every row that changed could be
        reopened as it was; rows of other agents, and all rows if no agent is
        named, are as before. */
    method CloseAgentTunnels(agent: Name, now: int)
      modifies this
      ensures rows.Keys == old(rows).Keys
      ensures forall id :: id in rows && (agent == "" || rows[id].agent != agent || !old(rows)[id].open)
                ==> rows[id] == old(rows)[id]
      ensures agent != "" ==> forall id :: id in rows && rows[id].agent == agent
                                ==> Candidate(rows, agent, old(rows)[id].local, id)
      ensures agent != "" ==> forall id :: id in rows && rows[id].agent == agent && old(rows)[id].open ==>
                rows[id].updated == now && Reopen(rows, id, old(rows)[id].updated)[id] == old(rows)[id]
      ensures rows == CloseRows(old(rows), agent, now)
    {
      if agent == "" {
        return;
      }
      rows := map id | id in rows ::
        if rows[id].agent == agent && rows[id].open then rows[id].(open := false, updated := now) else rows[id];
    }

    /** UPDATE ... WHERE id = (SELECT ... ORDER BY updated_at DESC LIMIT 1). */
    method ReopenNewest(agent: Name, local: Name, now: int) returns (found: Option<Name>)
      modifies this
      ensures found.Some? <==> HasCandidate(old(rows), agent, local)
      ensures found.Some?
              ==> Newest(old(rows), agent, local, found.value) && rows == Reopen(old(rows), found.value, now)
      ensures found.None? ==> rows == old(rows)
    {
      var candidates := Candidates(rows, agent, local);
      if candidates == {} {
        assert forall id :: Candidate(rows, agent, local, id) ==> id in candidates;
        return None;
      }
      ghost var best := NewestOf(rows, candidates);
      var id :| id in candidates && forall other :: other in candidates ==> rows[other].updated <= rows[id].updated;
      assert Newest(rows, agent, local, id);
      rows := Reopen(rows, id, now);
      return Some(id);
    }

    /** INSERT ... SELECT user_id FROM agents; subdomains are unique. */
    method Insert(agent: Name, local: Name, owner: Option<Name>, id: Name, subdomain: Name, now: int) returns (ok: bool)
      requires id !in rows
      modifies this
      ensures ok <==> owner.Some? && SubdomainFree(old(rows), subdomain)
      ensures rows == if ok then old(rows)[id := Row(subdomain, agent, owner.value, local, true, now)] else old(rows)
    {
      ok := owner.Some? && SubdomainFree(rows, subdomain);
      if ok {
        rows := rows[id := Row(subdomain, agent, owner.value, local, true, now)];
      }
    }

    /** Reopens an existing row exactly when the agent has a closed one for the
        address, the newest; only otherwise creates one, which fails when the
        agent is unknown or the generated subdomain is taken. */
    method ReopenForSession(agent: Name, local: Name, owner: Option<Name>, newId: Name, newSubdomain: Name, now: int)
      returns (result: Option<Name>)
      requires newId !in rows
      modifies this
      ensures HasCandidate(old(rows), agent, local) ==>
                result.Some? && Newest(old(rows), agent, local, result.value)
                    && rows == Reopen(old(rows), result.value, now)
      ensures !HasCandidate(old(rows), agent, local) ==>
                && result == (if owner.Some? && SubdomainFree(old(rows), newSubdomain) then Some(newId) else None)
                && rows == if result.None? then old(rows)
                           else old(rows)[newId := Row(newSubdomain, agent, owner.value, local, true, now)]
      ensures forall id :: id in old(rows) && result != Some(id) ==> id in rows && rows[id] == old(rows)[id]
      ensures result.Some? ==> result.value in rows && Granted(rows[result.value], agent, local, now)
      ensures result.Some? && result.value in old(rows) ==>
                var was := old(rows)[result.value];
                && !was.open && rows[result.value] == Row(was.subdomain, agent, was.user, local, true, now)
                && forall other :: other in old(rows) && Waits(old(rows)[other], agent, local) ==>
                     old(rows)[other].updated <= was.updated
      ensures result.Some? && result.value !in old(rows) ==>
                && result.value == newId && owner == Some(rows[newId].user) && rows[newId].subdomain == newSubdomain
                && forall other :: other in old(rows) ==> !Waits(old(rows)[other], agent, local)
    {
      assert forall id :: id in rows && Waits(rows[id], agent, local) ==> Candidate(rows, agent, local, id);
      result := ReopenNewest(agent, local, now);
      if result.None? {
        var ok := Insert(agent, local, owner, newId, newSubdomain, now);
        result := if ok then Some(newId) else None;
      }
    }
  }

  // ----- The system of agents, sessions, rows and routes -----

  /** Where a session is between its handshake and the end of its cleanup. */
  datatype Stage =
    | Idle
    | Missed(local: Name)   // the reopening statement found no row
    | Claimed(id: Name)     // row open, route not yet entered
    | Serving(id: Name)     // row open and routed
    | Dropped               // routes removed, rows not yet closed

  datatype Live = Live(agent: Name, stage: Stage)

  /** The table outlives the gateway process, routes and sessions do not. The last
      field only observes: rows left open by a restart or by a closing statement
      that failed, and not closed since. */
  datatype World = World(table: Table, routes: Routes, live: map<Name, Live>, used: set<Name>, orphans: set<Name>)

  datatype Event =
    | Connect(session: Name, agent: Name)
    | ReopenRow(session: Name, local: Name, id: Name, now: int)
    | MissRow(session: Name, local: Name)
    | InsertRow(session: Name, local: Name, id: Name, subdomain: Name, user: Name, now: int)
    | EnterRoute(session: Name)
    | DropRoutes(session: Name)
    | CloseAgentRows(session: Name, now: int)
    | CloseFailed(session: Name)   // the closing statement fails, which the source ignores
    | Restart

  predicate At(w: World, session: Name, stage: Stage) { session in w.live && w.live[session].stage == stage }

  function OpenIds(w: World): set<Name> { set id | id in w.table && w.table[id].open }
  function RoutedIds(w: World): set<Name> { w.routes.byId.Keys }

  /** A session whose open_tunnel is not under way, or has failed. */
  predicate MayEnd(stage: Stage) { stage.Idle? || stage.Missed? || stage.Serving? }

  /** Session ids are fresh, and a session opens at most one tunnel. */
  ghost predicate CanOverlap(w: World, e: Event) {
    match e
    case Connect(session, agent) => session !in w.used && agent != ""
    case ReopenRow(session, local, id, _) => At(w, session, Idle) && Newest(w.table, w.live[session].agent, local, id)
    case MissRow(session, local) => At(w, session, Idle) && !HasCandidate(w.table, w.live[session].agent, local)
    case InsertRow(session, local, id, subdomain, _, _) =>
      At(w, session, Missed(local)) && id !in w.table && SubdomainFree(w.table, subdomain)
    case EnterRoute(session) =>
      session in w.live && w.live[session].stage.Claimed? && w.live[session].stage.id in w.table
    case DropRoutes(session) => session in w.live && MayEnd(w.live[session].stage)
    case CloseAgentRows(session, _) => At(w, session, Dropped)
    case CloseFailed(session) => At(w, session, Dropped)
    case Restart => true
  }

  /** The one-session rule: besides, an agent has at most one live session. */
  ghost predicate Can(w: World, e: Event) {
    && CanOverlap(w, e)
    && (e.Connect? ==> forall other :: other in w.live ==> w.live[other].agent != e.agent)
  }

  function RouteOf(w: World, session: Name): Tunnel
    requires session in w.live && w.live[session].stage.Claimed? && w.live[session].stage.id in w.table
  {
    var id := w.live[session].stage.id;
    var row := w.table[id];
    Tunnel(id, row.subdomain, w.live[session].agent, row.user, session, row.local)
  }

  function Moved(live: map<Name, Live>, session: Name, stage: Stage): map<Name, Live>
    requires session in live
  {
    live[session := live[session].(stage := stage)]
  }

  function Others(table: Table, ids: set<Name>, agent: Name): set<Name> {
    set id | id in ids && id in table && table[id].agent != agent
  }

  function OpenOf(table: Table, agent: Name): set<Name> {
    set id | id in table && table[id].open && table[id].agent == agent
  }

  ghost function Step(w: World, e: Event): World
    requires CanOverlap(w, e)
  {
    match e
    case Connect(session, agent) =>
      w.(live := w.live[session := Live(agent, Idle)], used := w.used + {session})
    case ReopenRow(session, local, id, now) =>
      w.(table := Reopen(w.table, id, now), live := Moved(w.live, session, Claimed(id)))
    case MissRow(session, local) =>
      w.(live := Moved(w.live, session, Missed(local)))
    case InsertRow(session, local, id, subdomain, user, now) =>
      w.(table := w.table[id := Row(subdomain, w.live[session].agent, user, local, true, now)],
         live := Moved(w.live, session, Claimed(id)))
    case EnterRoute(session) =>
      w.(routes := OpenRoute(w.routes, RouteOf(w, session)),
         live := Moved(w.live, session, Serving(w.live[session].stage.id)))
    case DropRoutes(session) =>
      w.(routes := CloseRoutesOf(w.routes, session), live := Moved(w.live, session, Dropped))
    case CloseAgentRows(session, now) =>
      var agent := w.live[session].agent;
      w.(table := CloseRows(w.table, agent, now), live := w.live - {session},
         orphans := Others(w.table, w.orphans, agent))
    case CloseFailed(session) =>
      w.(live := w.live - {session}, orphans := w.orphans + OpenOf(w.table, w.live[session].agent))
    case Restart =>
      w.(routes := NO_ROUTES, live := map[], orphans := OpenIds(w))
  }

  const NOTHING := World(map[], NO_ROUTES, map[], {}, {})

  ghost function WorldRun(events: seq<Event>): Option<World> {
    if events == [] then Some(NOTHING)
    else
      var before := WorldRun(events[..|events| - 1]);
      if before.Some? && Can(before.value, events[|events| - 1])
      then Some(Step(before.value, events[|events| - 1])) else None
  }

  // ----- Invariant -----

  ghost predicate TableOk(table: Table) {
    forall a, b :: a in table && b in table && table[a].subdomain == table[b].subdomain ==> a == b
  }

  predicate StageOk(table: Table, l: Live) {
    match l.stage
    case Missed(local) => forall id :: id in table ==> !Candidate(table, l.agent, local, id)
    case Claimed(id) => id in table && table[id].open && table[id].agent == l.agent
    case Serving(id) => id in table && table[id].agent == l.agent
    case _ => true
  }

  ghost predicate LiveOk(table: Table, live: map<Name, Live>, used: set<Name>) {
    && live.Keys <= used
    && (forall s :: s in live ==> live[s].agent != "" && StageOk(table, live[s]))
    && (forall s, t :: s in live && t in live && live[s].agent == live[t].agent ==> s == t)
  }

  /** The live session that answers for an open row: it has claimed it, serves it,
      or is about to give it up. */
  predicate Holder(live: map<Name, Live>, agent: Name, id: Name, s: Name) {
    && s in live && live[s].agent == agent
    && (live[s].stage == Claimed(id) || live[s].stage == Serving(id) || live[s].stage.Dropped?)
  }

  ghost predicate Held(live: map<Name, Live>, agent: Name, id: Name) {
    exists s :: Holder(live, agent, id, s)
  }

  ghost predicate OpenOk(table: Table, live: map<Name, Live>, orphans: set<Name>) {
    forall id :: id in table && table[id].open ==> id in orphans || Held(live, table[id].agent, id)
  }

  /** An orphan is open, and no session has claimed it or serves it. */
  ghost predicate OrphansOk(table: Table, live: map<Name, Live>, orphans: set<Name>) {
    && (forall id :: id in orphans ==> id in table && table[id].open)
    && (forall s :: s in live && live[s].stage.Claimed? ==> live[s].stage.id !in orphans)
    && (forall s :: s in live && live[s].stage.Serving? ==> live[s].stage.id !in orphans)
  }

  /** A route is its row, open, entered by its agent's serving session. */
  predicate RouteOk(table: Table, live: map<Name, Live>, t: Tunnel) {
    && t.id in table && table[t.id].open && table[t.id].subdomain == t.subdomain && table[t.id].agent == t.agent
    && table[t.id].user == t.user && table[t.id].local == t.local
    && t.session in live && live[t.session] == Live(t.agent, Serving(t.id))
  }

  predicate RoutedFor(routes: Routes, id: Name, s: Name) {
    id in routes.byId && routes.byId[id] in routes.bySubdomain && routes.bySubdomain[routes.byId[id]].session == s
  }

  ghost predicate RoutesOk(routes: Routes, table: Table, live: map<Name, Live>) {
    && Inverse(routes)
    && (forall s :: s in routes.bySubdomain ==> RouteOk(table, live, routes.bySubdomain[s]))
    && (forall s :: s in live && live[s].stage.Serving? ==> RoutedFor(routes, live[s].stage.id, s))
  }

  ghost predicate WorldInv(w: World) {
    && TableOk(w.table) && LiveOk(w.table, w.live, w.used)
    && OpenOk(w.table, w.live, w.orphans) && OrphansOk(w.table, w.live, w.orphans)
    && RoutesOk(w.routes, w.table, w.live)
  }

  // ----- Steps of one session -----

  /** Rows of an agent whose session has not claimed any: open means orphaned. */
  lemma UnclaimedRows(w: World, session: Name, id: Name)
    requires WorldInv(w) && session in w.live && (w.live[session].stage.Idle? || w.live[session].stage.Missed?)
    requires id in w.table && w.table[id].agent == w.live[session].agent
    ensures w.table[id].open <==> id in w.orphans
  {
  }

  /** A holder stays one when another session's entry changes. */
  lemma HeldStays(live: map<Name, Live>, session: Name, l: Live, agent: Name, id: Name)
    requires Held(live, agent, id)
    requires session in live ==> !Holder(live, agent, id, session) || Holder(live[session := l], agent, id, session)
    ensures Held(live[session := l], agent, id)
  {
    var s :| Holder(live, agent, id, s);
    assert Holder(live[session := l], agent, id, s);
  }

  /** A session that moves on without touching the table: it keeps what it holds. */
  lemma MovedOpen(table: Table, live: map<Name, Live>, orphans: set<Name>, session: Name, l: Live)
    requires OpenOk(table, live, orphans)
    requires session in live ==>
      forall id :: id in table && Holder(live, table[id].agent, id, session)
          ==> Holder(live[session := l], table[id].agent, id, session)
    ensures OpenOk(table, live[session := l], orphans)
  {
    var after := live[session := l];
    forall id | id in table && table[id].open && id !in orphans ensures Held(after, table[id].agent, id) {
      HeldStays(live, session, l, table[id].agent, id);
    }
  }

  lemma MovedRoutes(routes: Routes, table: Table, live: map<Name, Live>, session: Name, l: Live)
    requires RoutesOk(routes, table, live) && !l.stage.Serving?
    requires session in live ==> !live[session].stage.Serving?
    ensures RoutesOk(routes, table, live[session := l])
  {
    var after := live[session := l];
    forall s | s in routes.bySubdomain ensures RouteOk(table, after, routes.bySubdomain[s]) {
      assert RouteOk(table, live, routes.bySubdomain[s]);
    }
  }

  lemma ConnectKeeps(w: World, session: Name, agent: Name)
    requires WorldInv(w) && Can(w, Connect(session, agent))
    ensures WorldInv(Step(w, Connect(session, agent)))
  {
    MovedOpen(w.table, w.live, w.orphans, session, Live(agent, Idle));
    MovedRoutes(w.routes, w.table, w.live, session, Live(agent, Idle));
  }

  lemma MissKeeps(w: World, session: Name, local: Name)
    requires WorldInv(w) && Can(w, MissRow(session, local))
    ensures WorldInv(Step(w, MissRow(session, local)))
  {
    var l := w.live[session].(stage := Missed(local));
    assert StageOk(w.table, l);
    MovedOpen(w.table, w.live, w.orphans, session, l);
    MovedRoutes(w.routes, w.table, w.live, session, l);
  }

  // ----- Claiming a row -----

  lemma ClaimLive(table: Table, live: map<Name, Live>, used: set<Name>, session: Name, id: Name, row: Row)
    requires LiveOk(table, live, used) && session in live && row.open && row.agent == live[session].agent
    requires id in table ==> !table[id].open && table[id].agent == row.agent
    ensures LiveOk(table[id := row], Moved(live, session, Claimed(id)), used)
  {
    var after, table' := Moved(live, session, Claimed(id)), table[id := row];
    forall s | s in after ensures StageOk(table', after[s]) {
      assert StageOk(table, live[s]);
    }
  }

  lemma ClaimOpen(table: Table, live: map<Name, Live>, orphans: set<Name>, session: Name, id: Name, row: Row)
    requires OpenOk(table, live, orphans) && session in live && row.agent == live[session].agent
    requires live[session].stage.Idle? || live[session].stage.Missed?
    ensures OpenOk(table[id := row], Moved(live, session, Claimed(id)), orphans)
  {
    var after, table' := Moved(live, session, Claimed(id)), table[id := row];
    forall other | other in table' && table'[other].open && other !in orphans
        ensures Held(after, table'[other].agent, other) {
      if other == id {
        assert Holder(after, row.agent, id, session);
      } else {
        HeldStays(live, session, after[session], table[other].agent, other);
      }
    }
  }

  lemma ClaimRoutes(routes: Routes, table: Table, live: map<Name, Live>, session: Name, id: Name, row: Row)
    requires RoutesOk(routes, table, live) && session in live && !live[session].stage.Serving?
    requires id in table ==> !table[id].open
    ensures RoutesOk(routes, table[id := row], Moved(live, session, Claimed(id)))
  {
    var table', live' := table[id := row], Moved(live, session, Claimed(id));
    forall s | s in routes.bySubdomain ensures RouteOk(table', live', routes.bySubdomain[s]) {
      assert RouteOk(table, live, routes.bySubdomain[s]);
    }
  }

  /** Claiming a row: only that row changes, and no route was about it. */
  lemma ClaimKeeps(w: World, session: Name, id: Name, row: Row)
    requires WorldInv(w) && session in w.live && (w.live[session].stage.Idle? || w.live[session].stage.Missed?)
    requires row.open && row.agent == w.live[session].agent && TableOk(w.table[id := row])
    requires id in w.table ==> !w.table[id].open && w.table[id].agent == row.agent
    ensures WorldInv(w.(table := w.table[id := row], live := Moved(w.live, session, Claimed(id))))
  {
    ClaimLive(w.table, w.live, w.used, session, id, row);
    ClaimOpen(w.table, w.live, w.orphans, session, id, row);
    ClaimRoutes(w.routes, w.table, w.live, session, id, row);
  }

  lemma ReopenKeeps(w: World, session: Name, local: Name, id: Name, now: int)
    requires WorldInv(w) && Can(w, ReopenRow(session, local, id, now))
    ensures WorldInv(Step(w, ReopenRow(session, local, id, now)))
  {
    ClaimKeeps(w, session, id, w.table[id].(open := true, updated := now));
  }

  lemma InsertKeeps(w: World, session: Name, local: Name, id: Name, subdomain: Name, user: Name, now: int)
    requires WorldInv(w) && Can(w, InsertRow(session, local, id, subdomain, user, now))
    ensures WorldInv(Step(w, InsertRow(session, local, id, subdomain, user, now)))
  {
    var row := Row(subdomain, w.live[session].agent, user, local, true, now);
    assert TableOk(w.table[id := row]);
    ClaimKeeps(w, session, id, row);
  }

  // ----- Entering the route -----

  lemma EnterInverse(routes: Routes, table: Table, live: map<Name, Live>, t: Tunnel)
    requires RoutesOk(routes, table, live) && TableOk(table) && t.id in table && table[t.id].subdomain == t.subdomain
    ensures Inverse(OpenRoute(routes, t))
  {
    assert Stable(routes, t) by {
      if t.id in routes.byId {
        assert RouteOk(table, live, routes.bySubdomain[routes.byId[t.id]]);
      }
      if t.subdomain in routes.bySubdomain {
        assert RouteOk(table, live, routes.bySubdomain[t.subdomain]);
      }
    }
    OpenKeepsExactly(routes, t);
  }

  /** No other session serves the claimed row: its agent has no other. */
  lemma EnterOthers(w: World, session: Name)
    requires WorldInv(w) && Can(w, EnterRoute(session))
    ensures var x := Step(w, EnterRoute(session));
            forall s :: s in x.routes.bySubdomain ==> RouteOk(x.table, x.live, x.routes.bySubdomain[s])
  {
    var x := Step(w, EnterRoute(session));
    var t := RouteOf(w, session);
    assert StageOk(w.table, w.live[session]);
    forall s | s in x.routes.bySubdomain ensures RouteOk(x.table, x.live, x.routes.bySubdomain[s]) {
      if s != t.subdomain {
        assert RouteOk(w.table, w.live, w.routes.bySubdomain[s]);
      }
    }
  }

  lemma EnterRoutes(w: World, session: Name)
    requires WorldInv(w) && Can(w, EnterRoute(session))
    ensures var x := Step(w, EnterRoute(session)); RoutesOk(x.routes, x.table, x.live)
  {
    var x := Step(w, EnterRoute(session));
    EnterInverse(w.routes, w.table, w.live, RouteOf(w, session));
    EnterOthers(w, session);
    forall s | s in x.live && x.live[s].stage.Serving? ensures RoutedFor(x.routes, x.live[s].stage.id, s) {
      if s != session {
        assert RoutedFor(w.routes, w.live[s].stage.id, s);
      }
    }
  }

  lemma EnterKeeps(w: World, session: Name)
    requires WorldInv(w) && Can(w, EnterRoute(session))
    ensures WorldInv(Step(w, EnterRoute(session)))
  {
    EnterRoutes(w, session);
    assert StageOk(w.table, w.live[session]);
    MovedOpen(w.table, w.live, w.orphans, session, w.live[session].(stage := Serving(w.live[session].stage.id)));
  }

  // ----- Cleaning up -----

  lemma DropRoutesOk(w: World, session: Name)
    requires WorldInv(w) && Can(w, DropRoutes(session))
    ensures var x := Step(w, DropRoutes(session)); RoutesOk(x.routes, x.table, x.live)
  {
    var x := Step(w, DropRoutes(session));
    CloseSessionKeeps(w.routes, session);
    forall s | s in x.routes.bySubdomain ensures RouteOk(x.table, x.live, x.routes.bySubdomain[s]) {
      assert RouteOk(w.table, w.live, w.routes.bySubdomain[s]);
    }
    forall s | s in x.live && x.live[s].stage.Serving? ensures RoutedFor(x.routes, x.live[s].stage.id, s) {
      assert RoutedFor(w.routes, w.live[s].stage.id, s);
    }
  }

  lemma DropKeeps(w: World, session: Name)
    requires WorldInv(w) && Can(w, DropRoutes(session))
    ensures WorldInv(Step(w, DropRoutes(session)))
  {
    DropRoutesOk(w, session);
    MovedOpen(w.table, w.live, w.orphans, session, w.live[session].(stage := Dropped));
  }

  /** What a session's end leaves of the routes: it had none. */
  lemma GoneRoutes(routes: Routes, table: Table, live: map<Name, Live>, after: Table, session: Name)
    requires RoutesOk(routes, table, live) && session in live && live[session].stage.Dropped?
    requires forall id :: id in table && table[id].agent != live[session].agent
               ==> id in after && after[id] == table[id]
    requires forall s, t :: s in live && t in live && live[s].agent == live[t].agent ==> s == t
    ensures RoutesOk(routes, after, live - {session})
  {
    forall s | s in routes.bySubdomain ensures RouteOk(after, live - {session}, routes.bySubdomain[s]) {
      assert RouteOk(table, live, routes.bySubdomain[s]);
    }
  }

  lemma CloseLive(table: Table, live: map<Name, Live>, used: set<Name>, session: Name, now: int)
    requires LiveOk(table, live, used) && session in live
    ensures LiveOk(CloseRows(table, live[session].agent, now), live - {session}, used)
  {
    var after, rest := CloseRows(table, live[session].agent, now), live - {session};
    forall s | s in rest ensures StageOk(after, rest[s]) {
      assert StageOk(table, live[s]);
    }
  }

  lemma CloseOpen(table: Table, live: map<Name, Live>, orphans: set<Name>, session: Name, now: int)
    requires OpenOk(table, live, orphans) && session in live && live[session].agent != ""
    ensures var agent := live[session].agent;
            OpenOk(CloseRows(table, agent, now), live - {session}, Others(table, orphans, agent))
  {
    var agent := live[session].agent;
    var after, rest := CloseRows(table, agent, now), live - {session};
    forall id | id in after && after[id].open && id !in Others(table, orphans, agent)
        ensures Held(rest, after[id].agent, id) {
      assert Held(live, table[id].agent, id);
      var s :| Holder(live, table[id].agent, id, s);
      assert Holder(rest, after[id].agent, id, s);
    }
  }

  lemma CloseRowsKeeps(w: World, session: Name, now: int)
    requires WorldInv(w) && Can(w, CloseAgentRows(session, now))
    ensures WorldInv(Step(w, CloseAgentRows(session, now)))
  {
    var after := CloseRows(w.table, w.live[session].agent, now);
    assert TableOk(after);
    CloseLive(w.table, w.live, w.used, session, now);
    CloseOpen(w.table, w.live, w.orphans, session, now);
    GoneRoutes(w.routes, w.table, w.live, after, session);
  }

  lemma FailedOpen(table: Table, live: map<Name, Live>, orphans: set<Name>, session: Name)
    requires OpenOk(table, live, orphans) && session in live
    ensures OpenOk(table, live - {session}, orphans + OpenOf(table, live[session].agent))
  {
    var rest, more := live - {session}, orphans + OpenOf(table, live[session].agent);
    forall id | id in table && table[id].open && id !in more ensures Held(rest, table[id].agent, id) {
      var s :| Holder(live, table[id].agent, id, s);
      assert Holder(rest, table[id].agent, id, s);
    }
  }

  lemma FailedOrphans(table: Table, live: map<Name, Live>, used: set<Name>, orphans: set<Name>, session: Name)
    requires LiveOk(table, live, used) && OrphansOk(table, live, orphans) && session in live
    ensures OrphansOk(table, live - {session}, orphans + OpenOf(table, live[session].agent))
  {
    var rest := live - {session};
    forall s | s in rest && (rest[s].stage.Claimed? || rest[s].stage.Serving?)
      ensures rest[s].stage.id !in OpenOf(table, live[session].agent)
    {
      assert StageOk(table, live[s]);
    }
  }

  lemma CloseFailedKeeps(w: World, session: Name)
    requires WorldInv(w) && Can(w, CloseFailed(session))
    ensures WorldInv(Step(w, CloseFailed(session)))
  {
    FailedOpen(w.table, w.live, w.orphans, session);
    FailedOrphans(w.table, w.live, w.used, w.orphans, session);
    GoneRoutes(w.routes, w.table, w.live, w.table, session);
  }

  lemma StepKeeps(w: World, e: Event)
    requires WorldInv(w) && Can(w, e)
    ensures WorldInv(Step(w, e))
  {
    match e
    case Connect(session, agent) => ConnectKeeps(w, session, agent);
    case ReopenRow(session, local, id, now) => ReopenKeeps(w, session, local, id, now);
    case MissRow(session, local) => MissKeeps(w, session, local);
    case InsertRow(session, local, id, subdomain, user, now) =>
      InsertKeeps(w, session, local, id, subdomain, user, now);
    case EnterRoute(session) => EnterKeeps(w, session);
    case DropRoutes(session) => DropKeeps(w, session);
    case CloseAgentRows(session, now) => CloseRowsKeeps(w, session, now);
    case CloseFailed(session) => CloseFailedKeeps(w, session);
    case Restart =>
  }

  lemma {:induction false} RunKeeps(events: seq<Event>)
    requires WorldRun(events).Some?
    ensures WorldInv(WorldRun(events).value)
  {
    if events != [] {
      var init := events[..|events| - 1];
      RunKeeps(init);
      StepKeeps(WorldRun(init).value, events[|events| - 1]);
    }
  }

  // ----- Routed and open -----

  /** Between operations: every live session is idle or serves its tunnel. */
  predicate Settled(w: World) {
    forall s :: s in w.live ==> w.live[s].stage.Idle? || w.live[s].stage.Serving?
  }

  lemma RoutedApart(w: World)
    requires WorldInv(w)
    ensures RoutedIds(w) <= OpenIds(w) && RoutedIds(w) !! w.orphans && w.orphans <= OpenIds(w)
  {
    forall id | id in RoutedIds(w) ensures id in OpenIds(w) && id !in w.orphans {
      var t := w.routes.bySubdomain[w.routes.byId[id]];
      assert RouteOk(w.table, w.live, t);
      assert w.live[t.session].stage == Serving(id);
    }
  }

  lemma SettledOpen(w: World)
    requires WorldInv(w) && Settled(w)
    ensures OpenIds(w) <= RoutedIds(w) + w.orphans
  {
    forall id | id in OpenIds(w) && id !in w.orphans ensures id in RoutedIds(w) {
      var s :| Holder(w.live, w.table[id].agent, id, s);
      assert RoutedFor(w.routes, id, s);
    }
  }

  /** Tunnel lifecycle: at every intermediate step, restarts and failed statements
      included, the indexes are inverse and a routed tunnel is open in the table,
      for the subdomain, agent, user and address of its row and a live session of
      that agent.
      Between operations the open rows are the routed tunnels and the orphans, so
      routed and open are the same if and only if no row is orphaned. */
  lemma RoutedAreOpen(events: seq<Event>)
    requires WorldRun(events).Some?
    ensures var w := WorldRun(events).value;
            && Inverse(w.routes)
            && RoutedIds(w) <= OpenIds(w)
            && (forall s :: s in w.routes.bySubdomain ==>
                  var t := w.routes.bySubdomain[s];
                  && t.subdomain == s && t.id in w.table && w.table[t.id].open && w.table[t.id].subdomain == s
                  && w.table[t.id].agent == t.agent && w.table[t.id].user == t.user && w.table[t.id].local == t.local
                  && t.session in w.live && w.live[t.session].agent == t.agent)
            && (Settled(w) ==> OpenIds(w) == RoutedIds(w) + w.orphans && RoutedIds(w) !! w.orphans)
            && (Settled(w) ==> (RoutedIds(w) == OpenIds(w) <==> w.orphans == {}))
  {
    RunKeeps(events);
    var w := WorldRun(events).value;
    RoutedApart(w);
    if Settled(w) {
      SettledOpen(w);
    }
  }

  /** A run in which the process stays up and every closing statement succeeds. */
  predicate Clean(events: seq<Event>) {
    forall e :: e in events ==> !e.Restart? && !e.CloseFailed?
  }

  lemma {:induction false} CleanHasNoOrphans(events: seq<Event>)
    requires WorldRun(events).Some? && Clean(events)
    ensures WorldRun(events).value.orphans == {}
  {
    if events != [] {
      var init, last := events[..|events| - 1], events[|events| - 1];
      assert last in events;
      CleanHasNoOrphans(init);
    }
  }

  // ----- Getting the same tunnel again -----

  predicate SameRow(a: Row, b: Row) {
    a.subdomain == b.subdomain && a.agent == b.agent && a.local == b.local && a.user == b.user
  }

  lemma StepKeepsRow(w: World, e: Event, id: Name)
    requires CanOverlap(w, e) && id in w.table
    ensures id in Step(w, e).table && SameRow(w.table[id], Step(w, e).table[id])
  {
  }

  /** Rows keep their subdomain, agent and address for ever. */
  lemma {:induction false} RowsStay(events: seq<Event>, n: nat, id: Name)
    requires n <= |events| && WorldRun(events).Some? && WorldRun(events[..n]).Some?
    requires id in WorldRun(events[..n]).value.table
    ensures id in WorldRun(events).value.table
    ensures SameRow(WorldRun(events[..n]).value.table[id], WorldRun(events).value.table[id])
    decreases |events|
  {
    if n == |events| {
      assert events[..n] == events;
    } else {
      var init := events[..|events| - 1];
      assert init[..n] == events[..n];
      RowsStay(init, n, id);
      StepKeepsRow(WorldRun(init).value, events[|events| - 1], id);
    }
  }

  predicate For(table: Table, agent: Name, local: Name, id: Name) {
    id in table && table[id].agent == agent && table[id].local == local
  }

  /** The only row of its agent and local address. */
  ghost predicate Sole(table: Table, id: Name)
    requires id in table
  {
    forall other :: For(table, table[id].agent, table[id].local, other) ==> other == id
  }

  ghost predicate Unique(table: Table) {
    forall id :: id in table ==> Sole(table, id)
  }

  /** What the reopening statement may do for an idle session. */
  lemma AskExactly(w: World, session: Name, local: Name)
    requires WorldInv(w) && At(w, session, Idle)
    ensures var agent := w.live[session].agent;
            && (Can(w, MissRow(session, local)) <==> forall id :: For(w.table, agent, local, id) ==> id in w.orphans)
            && (forall id, now :: Can(w, ReopenRow(session, local, id, now)) <==> Newest(w.table, agent, local, id))
            && (forall id :: For(w.table, agent, local, id)
                  ==> (Candidate(w.table, agent, local, id) <==> id !in w.orphans))
  {
    var agent := w.live[session].agent;
    forall id | For(w.table, agent, local, id) ensures Candidate(w.table, agent, local, id) <==> id !in w.orphans {
      UnclaimedRows(w, session, id);
    }
    if HasCandidate(w.table, agent, local) {
      var id :| Candidate(w.table, agent, local, id);
      assert For(w.table, agent, local, id);
    }
  }

  lemma SoleAsk(w: World, session: Name, local: Name, id: Name)
    requires WorldInv(w) && At(w, session, Idle) && For(w.table, w.live[session].agent, local, id) && Sole(w.table, id)
    ensures forall other, now :: Can(w, ReopenRow(session, local, other, now)) <==> other == id && id !in w.orphans
    ensures Can(w, MissRow(session, local)) <==> id in w.orphans
  {
    AskExactly(w, session, local);
    var agent := w.live[session].agent;
    assert forall other :: Candidate(w.table, agent, local, other) ==> For(w.table, agent, local, other);
    assert forall other :: Newest(w.table, agent, local, other) <==> other == id && id !in w.orphans;
  }

  /** Reconnecting, in every run: a tunnel an agent once had for a local address
      still has its row and subdomain. While it is the only one for that address,
      the agent gets it back if and only if its row is not orphaned, that is,
      closed; otherwise a new tunnel is made. */
  lemma TunnelAgainExactly(events: seq<Event>, n: nat, id: Name, session: Name, local: Name)
    requires n <= |events| && WorldRun(events).Some? && WorldRun(events[..n]).Some?
    requires var was := WorldRun(events[..n]).value.table; id in was && was[id].local == local
    requires var w := WorldRun(events).value;
             At(w, session, Idle) && w.live[session].agent == WorldRun(events[..n]).value.table[id].agent
    ensures var w := WorldRun(events).value;
            && id in w.table && w.table[id].subdomain == WorldRun(events[..n]).value.table[id].subdomain
            && (w.table[id].open <==> id in w.orphans)
            && (Sole(w.table, id) ==>
                  && (forall other, now :: Can(w, ReopenRow(session, local, other, now))
                        <==> other == id && id !in w.orphans)
                  && (Can(w, MissRow(session, local)) <==> id in w.orphans))
  {
    RunKeeps(events);
    RowsStay(events, n, id);
    var w := WorldRun(events).value;
    UnclaimedRows(w, session, id);
    if Sole(w.table, id) {
      SoleAsk(w, session, local, id);
    }
  }

  // ----- One row for each address -----

  /** A second row for an agent and address is made. */
  ghost predicate Repeats(w: World, e: Event) {
    e.InsertRow? && e.session in w.live && exists id :: For(w.table, w.live[e.session].agent, e.local, id)
  }

  /** That happens only over an orphan. */
  lemma RepeatsOverOrphan(w: World, e: Event)
    requires WorldInv(w) && Can(w, e) && Repeats(w, e)
    ensures exists id :: For(w.table, w.live[e.session].agent, e.local, id) && id in w.orphans
  {
    var id :| For(w.table, w.live[e.session].agent, e.local, id);
    assert StageOk(w.table, w.live[e.session]);
    UnclaimedRows(w, e.session, id);
  }

  lemma StepUnique(w: World, e: Event)
    requires CanOverlap(w, e) && Unique(w.table)
    ensures Unique(Step(w, e).table) <==> !Repeats(w, e)
  {
    var x := Step(w, e);
    if e.InsertRow? {
      var agent := w.live[e.session].agent;
      if Repeats(w, e) {
        var id :| For(w.table, agent, e.local, id);
        assert For(x.table, agent, e.local, id) && For(x.table, agent, e.local, e.id);
        assert !Sole(x.table, e.id);
      } else {
        InsertedUnique(w.table, e.id, x.table[e.id]);
      }
    } else {
      SameRowsUnique(w.table, x.table);
    }
  }

  lemma InsertedUnique(table: Table, id: Name, row: Row)
    requires Unique(table) && id !in table && forall other :: !For(table, row.agent, row.local, other)
    ensures Unique(table[id := row])
  {
    var after := table[id := row];
    forall a | a in after ensures Sole(after, a) {
      forall b | For(after, after[a].agent, after[a].local, b) ensures a == b {
        if a != id && b != id {
          assert Sole(table, a) && For(table, table[a].agent, table[a].local, b);
        } else {
          assert !For(table, row.agent, row.local, if a == id then b else a);
        }
      }
    }
  }

  lemma SameRowsUnique(before: Table, after: Table)
    requires Unique(before) && after.Keys == before.Keys && forall id :: id in before ==> SameRow(before[id], after[id])
    ensures Unique(after)
  {
    forall a | a in after ensures Sole(after, a) {
      assert Sole(before, a);
      forall b | For(after, after[a].agent, after[a].local, b) ensures a == b {
        assert For(before, before[a].agent, before[a].local, b);
      }
    }
  }

  lemma {:induction false} CleanIsUnique(events: seq<Event>)
    requires WorldRun(events).Some? && Clean(events)
    ensures Unique(WorldRun(events).value.table)
  {
    if events != [] {
      var init, last := events[..|events| - 1], events[|events| - 1];
      assert Clean(init);
      CleanIsUnique(init);
      CleanHasNoOrphans(init);
      RunKeeps(init);
      StepUnique(WorldRun(init).value, last);
      if Repeats(WorldRun(init).value, last) {
        RepeatsOverOrphan(WorldRun(init).value, last);
      }
    }
  }

  /** Reconnecting, while the process stays up and closing statements succeed: an
      agent that ever had a tunnel for an address always gets it back. */
  lemma SameTunnelAgain(events: seq<Event>, n: nat, id: Name, session: Name, local: Name)
    requires n <= |events| && WorldRun(events).Some? && WorldRun(events[..n]).Some? && Clean(events)
    requires var was := WorldRun(events[..n]).value.table; id in was && was[id].local == local
    requires var w := WorldRun(events).value;
             At(w, session, Idle) && w.live[session].agent == WorldRun(events[..n]).value.table[id].agent
    ensures var w := WorldRun(events).value;
            && (forall other, now :: Can(w, ReopenRow(session, local, other, now)) <==> other == id)
            && !Can(w, MissRow(session, local))
            && id in w.table && w.table[id].subdomain == WorldRun(events[..n]).value.table[id].subdomain
  {
    CleanHasNoOrphans(events);
    CleanIsUnique(events);
    TunnelAgainExactly(events, n, id, session, local);
    assert Sole(WorldRun(events).value.table, id);
  }
}
