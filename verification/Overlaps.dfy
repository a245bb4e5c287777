/** Tunnel rows and routes when the sessions of one agent may overlap. Every event
    is one statement or one registry call, and restarts and failed closing
    statements may come anywhere (backend/cmd/server/main.go). */
module Overlaps {
  import opened Protocol
  import opened Registries
  import opened Lifecycle

  /** Runs in which an agent may have any number of live sessions. */
  ghost function OverlapRun(events: seq<Event>): Option<World> {
    if events == [] then Some(NOTHING)
    else
      var before := OverlapRun(events[..|events| - 1]);
      if before.Some? && CanOverlap(before.value, events[|events| - 1])
      then Some(Step(before.value, events[|events| - 1])) else None
  }

  /** Runs that keep the rule are among those that need not. */
  lemma {:induction false} RuleIsSpecial(events: seq<Event>)
    requires WorldRun(events).Some?
    ensures OverlapRun(events) == WorldRun(events)
  {
    if events != [] {
      RuleIsSpecial(events[..|events| - 1]);
    }
  }

  /** What overlapping sessions cannot break: the indexes stay inverse, and a
      route names its row's subdomain, agent, user and address, whether that row is
      open or not. */
  ghost predicate OverlapInv(w: World) {
    && TableOk(w.table)
    && Inverse(w.routes)
    && (forall s :: s in w.routes.bySubdomain ==> RowOf(w.table, w.routes.bySubdomain[s]))
    && (forall s :: s in w.live && w.live[s].stage.Claimed? ==>
          w.live[s].stage.id in w.table && w.table[w.live[s].stage.id].agent == w.live[s].agent)
    && (forall s :: s in w.live ==> w.live[s].agent != "")
  }

  predicate RowOf(table: Table, t: Tunnel) {
    && t.id in table && table[t.id].subdomain == t.subdomain && table[t.id].agent == t.agent
    && table[t.id].user == t.user && table[t.id].local == t.local
  }

  lemma OverlapEnter(w: World, session: Name)
    requires OverlapInv(w) && CanOverlap(w, EnterRoute(session))
    ensures Inverse(OpenRoute(w.routes, RouteOf(w, session)))
  {
    var t := RouteOf(w, session);
    assert Stable(w.routes, t) by {
      if t.id in w.routes.byId {
        assert RowOf(w.table, w.routes.bySubdomain[w.routes.byId[t.id]]);
      }
      if t.subdomain in w.routes.bySubdomain {
        assert RowOf(w.table, w.routes.bySubdomain[t.subdomain]);
      }
    }
    OpenKeepsExactly(w.routes, t);
  }

  lemma OverlapRoutes(w: World, e: Event)
    requires OverlapInv(w) && CanOverlap(w, e)
    ensures var x := Step(w, e);
            Inverse(x.routes) && forall s :: s in x.routes.bySubdomain ==> RowOf(x.table, x.routes.bySubdomain[s])
  {
    var x := Step(w, e);
    if e.EnterRoute? {
      OverlapEnter(w, e.session);
    } else if e.DropRoutes? {
      CloseSessionKeeps(w.routes, e.session);
    }
    forall s | s in x.routes.bySubdomain ensures RowOf(x.table, x.routes.bySubdomain[s]) {
      assert s in w.routes.bySubdomain ==> RowOf(w.table, w.routes.bySubdomain[s]);
    }
  }

  lemma OverlapRows(w: World, e: Event)
    requires OverlapInv(w) && CanOverlap(w, e)
    ensures TableOk(Step(w, e).table)
  {
  }

  lemma OverlapLive(w: World, e: Event, s: Name)
    requires OverlapInv(w) && CanOverlap(w, e) && s in Step(w, e).live
    ensures var x := Step(w, e);
            && x.live[s].agent != ""
            && (x.live[s].stage.Claimed? ==>
                  x.live[s].stage.id in x.table && x.table[x.live[s].stage.id].agent == x.live[s].agent)
  {
  }

  lemma OverlapKeeps(w: World, e: Event)
    requires OverlapInv(w) && CanOverlap(w, e)
    ensures OverlapInv(Step(w, e))
  {
    OverlapRoutes(w, e);
    OverlapRows(w, e);
    forall s | s in Step(w, e).live {
      OverlapLive(w, e, s);
    }
  }

  lemma {:induction false} OverlapRunKeeps(events: seq<Event>)
    requires OverlapRun(events).Some?
    ensures OverlapInv(OverlapRun(events).value)
  {
    if events != [] {
      var init := events[..|events| - 1];
      OverlapRunKeeps(init);
      OverlapKeeps(OverlapRun(init).value, events[|events| - 1]);
    }
  }

  // ----- Where rows and routes come from -----

  /** A row is what the statement that inserted it said, for the agent of the session it was inserted by. */
  ghost predicate RowFits(events: seq<Event>, id: Name, row: Row) {
    exists session, now :: InsertRow(session, row.local, id, row.subdomain, row.user, now) in events
                           && Connect(session, row.agent) in events
  }

  lemma FitsSameRow(events: seq<Event>, e: Event, id: Name, row: Row, after: Row)
    requires RowFits(events, id, row) && SameRow(row, after)
    ensures RowFits(events + [e], id, after)
  {
    var session, now :| InsertRow(session, row.local, id, row.subdomain, row.user, now) in events
                        && Connect(session, row.agent) in events;
    assert InsertRow(session, after.local, id, after.subdomain, after.user, now) in events + [e];
  }

  lemma {:induction false} AgentOfSession(events: seq<Event>, session: Name)
    requires OverlapRun(events).Some? && session in OverlapRun(events).value.live
    ensures Connect(session, OverlapRun(events).value.live[session].agent) in events
  {
    var init, last := events[..|events| - 1], events[|events| - 1];
    assert events == init + [last];
    if session in OverlapRun(init).value.live {
      AgentOfSession(init, session);
    }
  }

  /** Every row ever in the table is its insertion's: subdomain, user and address
      are those inserted, and the agent is the inserting session's. */
  lemma {:induction false} RowHistory(events: seq<Event>, id: Name)
    requires OverlapRun(events).Some? && id in OverlapRun(events).value.table
    ensures RowFits(events, id, OverlapRun(events).value.table[id])
  {
    var init, last := events[..|events| - 1], events[|events| - 1];
    var w := OverlapRun(init).value;
    assert events == init + [last];
    if id in w.table {
      RowHistory(init, id);
      StepKeepsRow(w, last, id);
      FitsSameRow(init, last, id, w.table[id], Step(w, last).table[id]);
    } else {
      AgentOfSession(init, last.session);
      assert InsertRow(last.session, last.local, id, last.subdomain, last.user, last.now) in events;
    }
  }

  /** The registry calls of a run, since the process last started. */
  ghost function RouteEvents(events: seq<Event>): seq<RouteEvent>
    requires OverlapRun(events).Some?
  {
    if events == [] then []
    else
      var init, last := events[..|events| - 1], events[|events| - 1];
      match last
      case EnterRoute(session) => RouteEvents(init) + [Opened(RouteOf(OverlapRun(init).value, session))]
      case DropRoutes(session) => RouteEvents(init) + [SessionClosed(session)]
      case Restart => []
      case _ => RouteEvents(init)
  }

  ghost predicate AllRows(table: Table, calls: seq<RouteEvent>) {
    forall c :: c in calls && c.Opened? ==> RowOf(table, c.t)
  }

  lemma RowsStay(w: World, e: Event, calls: seq<RouteEvent>)
    requires CanOverlap(w, e) && AllRows(w.table, calls)
    ensures AllRows(Step(w, e).table, calls)
  {
    forall c | c in calls && c.Opened? ensures RowOf(Step(w, e).table, c.t) {
      StepKeepsRow(w, e, c.t.id);
    }
  }

  lemma RoutePushed(calls: seq<RouteEvent>, c: RouteEvent)
    ensures RouteRun(calls + [c]) == RouteStep(RouteRun(calls), c)
  {
    assert (calls + [c])[..|calls|] == calls;
  }

  /** The registry is what its calls made of it, and each call that opened a route opened its row's. */
  lemma {:induction false} RoutesOfCalls(events: seq<Event>)
    requires OverlapRun(events).Some?
    ensures RouteRun(RouteEvents(events)) == OverlapRun(events).value.routes
    ensures AllRows(OverlapRun(events).value.table, RouteEvents(events))
  {
    if events != [] {
      var init, last := events[..|events| - 1], events[|events| - 1];
      var w := OverlapRun(init).value;
      RoutesOfCalls(init);
      RowsStay(w, last, RouteEvents(init));
      if last.EnterRoute? {
        OverlapRunKeeps(init);
        RoutePushed(RouteEvents(init), Opened(RouteOf(w, last.session)));
      } else if last.DropRoutes? {
        RoutePushed(RouteEvents(init), SessionClosed(last.session));
      }
    }
  }

  /** The gateway keeps id/subdomain pairs stable by itself, with overlapping
      sessions, restarts and failed statements: whatever it routes follows the
      history of the subdomain, and is accounted to the user of the row. */
  lemma PairsAreStable(events: seq<Event>, subdomain: Name)
    requires OverlapRun(events).Some?
    ensures StablePairs(RouteEvents(events))
    ensures var w := OverlapRun(events).value;
            && Lookup(w.routes, subdomain) == Routed(RouteEvents(events), subdomain)
            && (subdomain in w.routes.bySubdomain ==>
                  var id := w.routes.bySubdomain[subdomain].id;
                  && id in w.table && Account(w.routes, id) == Some(w.table[id].user)
                  && RowFits(events, id, w.table[id]))
  {
    OverlapRunKeeps(events);
    RoutesOfCalls(events);
    var w, calls := OverlapRun(events).value, RouteEvents(events);
    forall a, b | a in calls && b in calls && a.Opened? && b.Opened?
      ensures a.t.id == b.t.id <==> a.t.subdomain == b.t.subdomain
    {
      assert RowOf(w.table, a.t) && RowOf(w.table, b.t);
    }
    RoutingExact(calls, subdomain);
    if subdomain in w.routes.bySubdomain {
      AccountExactly(w.routes, subdomain, "");
      assert RowOf(w.table, w.routes.bySubdomain[subdomain]);
      RowHistory(events, w.routes.bySubdomain[subdomain].id);
    }
  }

  predicate Safe(w: World) { RoutedIds(w) <= OpenIds(w) }

  /** The steps that leave a routed tunnel closed: closing an agent's rows while
      one of its tunnels is routed, and entering the route of a claimed row that
      has been closed since. */
  ghost predicate Breaks(w: World, e: Event) {
    match e
    case CloseAgentRows(session, _) =>
      session in w.live && exists s :: s in w.routes.bySubdomain
                             && w.routes.bySubdomain[s].agent == w.live[session].agent
    case EnterRoute(session) =>
      session in w.live && w.live[session].stage.Claimed? && w.live[session].stage.id !in OpenIds(w)
    case _ => false
  }

  lemma CloseBreaksExactly(w: World, session: Name, now: int)
    requires OverlapInv(w) && Safe(w) && CanOverlap(w, CloseAgentRows(session, now))
    ensures Safe(Step(w, CloseAgentRows(session, now))) <==> !Breaks(w, CloseAgentRows(session, now))
  {
    var x := Step(w, CloseAgentRows(session, now));
    if Breaks(w, CloseAgentRows(session, now)) {
      var s :| s in w.routes.bySubdomain && w.routes.bySubdomain[s].agent == w.live[session].agent;
      assert RowOf(w.table, w.routes.bySubdomain[s]);
      var id := w.routes.bySubdomain[s].id;
      assert id in RoutedIds(x) && id !in OpenIds(x);
    } else {
      forall id | id in RoutedIds(x) ensures id in OpenIds(x) {
        assert RowOf(w.table, w.routes.bySubdomain[w.routes.byId[id]]);
        assert id in OpenIds(w);
      }
    }
  }

  lemma EnterBreaksExactly(w: World, session: Name)
    requires OverlapInv(w) && Safe(w) && CanOverlap(w, EnterRoute(session))
    ensures Safe(Step(w, EnterRoute(session))) <==> !Breaks(w, EnterRoute(session))
  {
    var x := Step(w, EnterRoute(session));
    var id := w.live[session].stage.id;
    assert id in RoutedIds(x);
    assert RoutedIds(x) == RoutedIds(w) + {id} && OpenIds(x) == OpenIds(w);
  }

  /** In any state a run with overlapping sessions reaches, a step from routed
      being open leaves it so if and only if it is none of those two. */
  lemma StepBreaksExactly(w: World, e: Event)
    requires OverlapInv(w) && Safe(w) && CanOverlap(w, e)
    ensures Safe(Step(w, e)) <==> !Breaks(w, e)
  {
    match e
    case CloseAgentRows(session, now) => CloseBreaksExactly(w, session, now);
    case EnterRoute(session) => EnterBreaksExactly(w, session);
    case ReopenRow(session, local, id, now) => assert OpenIds(w) <= OpenIds(Step(w, e));
    case InsertRow(session, local, id, subdomain, user, now) => assert OpenIds(w) <= OpenIds(Step(w, e));
    case Restart => assert RoutedIds(Step(w, e)) == {};
    case _ =>
  }

  /** Every routed tunnel is open after each single step of the run. */
  ghost predicate AlwaysSafe(events: seq<Event>) {
    forall n :: 0 <= n <= |events| ==> OverlapRun(events[..n]).Some? && Safe(OverlapRun(events[..n]).value)
  }

  ghost predicate NeverBreaks(events: seq<Event>) {
    forall n :: 0 <= n < |events| ==> OverlapRun(events[..n]).Some? && !Breaks(OverlapRun(events[..n]).value, events[n])
  }

  lemma PushPrefixes(events: seq<Event>)
    requires events != [] && OverlapRun(events).Some?
    ensures var init := events[..|events| - 1];
            && (AlwaysSafe(events) <==> AlwaysSafe(init) && Safe(OverlapRun(events).value))
            && (NeverBreaks(events) <==> NeverBreaks(init) && !Breaks(OverlapRun(init).value, events[|events| - 1]))
  {
    var init := events[..|events| - 1];
    assert forall n :: 0 <= n <= |init| ==> init[..n] == events[..n];
    assert events[..|events|] == events;
    assert AlwaysSafe(events) ==> AlwaysSafe(init) && Safe(OverlapRun(events[..|events|]).value);
    if NeverBreaks(events) {
      forall n | 0 <= n < |init|
        ensures OverlapRun(init[..n]).Some? && !Breaks(OverlapRun(init[..n]).value, init[n])
      {
        assert !Breaks(OverlapRun(events[..n]).value, events[n]);
      }
    }
    if NeverBreaks(init) && !Breaks(OverlapRun(init).value, events[|events| - 1]) {
      forall n | 0 <= n < |events|
        ensures OverlapRun(events[..n]).Some? && !Breaks(OverlapRun(events[..n]).value, events[n])
      {
        assert n < |init| ==> !Breaks(OverlapRun(init[..n]).value, init[n]);
      }
    }
  }

  /** Overlapping sessions, over every run: routed tunnels are open throughout if
      and only if no step of the run is one of the two that break it. */
  lemma {:induction false} OverlapSafeExactly(events: seq<Event>)
    requires OverlapRun(events).Some?
    ensures AlwaysSafe(events) <==> NeverBreaks(events)
  {
    if events != [] {
      var init, last := events[..|events| - 1], events[|events| - 1];
      OverlapSafeExactly(init);
      PushPrefixes(events);
      if AlwaysSafe(init) {
        assert init[..|init|] == init;
        assert Safe(OverlapRun(init[..|init|]).value);
        OverlapRunKeeps(init);
        StepBreaksExactly(OverlapRun(init).value, last);
      }
    }
  }

  // ----- Runs that break it -----

  lemma OverlapNext(events: seq<Event>, w: World, e: Event)
    requires OverlapRun(events) == Some(w) && CanOverlap(w, e)
    ensures OverlapRun(events + [e]) == Some(Step(w, e))
  {
    assert (events + [e])[..|events|] == events;
  }

  /** The sessions, row and tunnel of the failing runs: any will do. */
  datatype Overlap = Overlap(agent: Name, early: Name, late: Name, local: Name, id: Name, subdomain: Name, user: Name)

  predicate Proper(o: Overlap) { o.agent != "" && o.early != o.late }

  /** The newer session opens its tunnel: no row to reopen, so a new one. */
  function Opening(o: Overlap): seq<Event> {
    [MissRow(o.late, o.local), InsertRow(o.late, o.local, o.id, o.subdomain, o.user, 0)]
  }

  function Connecting(o: Overlap): seq<Event> { [Connect(o.early, o.agent), Connect(o.late, o.agent)] }

  /** The older session's cleanup finds the newer one's tunnel routed. */
  function AfterRouting(o: Overlap): seq<Event> {
    Connecting(o) + Opening(o) + [EnterRoute(o.late), DropRoutes(o.early), CloseAgentRows(o.early, 1)]
  }

  /** The newer session connects and routes between the two calls of the cleanup. */
  function BetweenCalls(o: Overlap): seq<Event> {
    [Connect(o.early, o.agent), DropRoutes(o.early), Connect(o.late, o.agent)] + Opening(o)
    + [EnterRoute(o.late), CloseAgentRows(o.early, 1)]
  }

  /** The cleanup closes the row between the newer session's claim and its route. */
  function BeforeRouting(o: Overlap): seq<Event> {
    Connecting(o) + Opening(o) + [DropRoutes(o.early), CloseAgentRows(o.early, 1), EnterRoute(o.late)]
  }

  ghost predicate Fails(events: seq<Event>) {
    OverlapRun(events).Some? && !Safe(OverlapRun(events).value)
  }

  lemma Play(events: seq<Event>, w: World, e: Event) returns (more: seq<Event>, x: World)
    requires OverlapRun(events) == Some(w) && CanOverlap(w, e)
    ensures more == events + [e] && x == Step(w, e) && OverlapRun(more) == Some(x)
  {
    OverlapNext(events, w, e);
    more, x := events + [e], Step(w, e);
  }

  lemma BothConnected(o: Overlap) returns (es: seq<Event>, w: World)
    requires Proper(o)
    ensures es == Connecting(o) && OverlapRun(es) == Some(w) && w.table == map[] && w.routes == NO_ROUTES
    ensures At(w, o.early, Idle) && At(w, o.late, Idle) && w.live[o.early].agent == w.live[o.late].agent == o.agent
  {
    es, w := Play([], NOTHING, Connect(o.early, o.agent));
    es, w := Play(es, w, Connect(o.late, o.agent));
  }

  lemma HalfCleaned(o: Overlap) returns (es: seq<Event>, w: World)
    requires Proper(o)
    ensures es == [Connect(o.early, o.agent), DropRoutes(o.early), Connect(o.late, o.agent)]
            && OverlapRun(es) == Some(w)
    ensures w.table == map[] && w.routes == NO_ROUTES
    ensures At(w, o.early, Dropped) && At(w, o.late, Idle) && w.live[o.early].agent == w.live[o.late].agent == o.agent
  {
    es, w := Play([], NOTHING, Connect(o.early, o.agent));
    es, w := Play(es, w, DropRoutes(o.early));
    es, w := Play(es, w, Connect(o.late, o.agent));
  }

  lemma LateOpens(o: Overlap, before: seq<Event>, w: World) returns (es: seq<Event>, x: World)
    requires Proper(o) && OverlapRun(before) == Some(w) && w.table == map[] && At(w, o.late, Idle)
    ensures es == before + Opening(o) && OverlapRun(es) == Some(x)
    ensures x.table == map[o.id := Row(o.subdomain, w.live[o.late].agent, o.user, o.local, true, 0)]
    ensures x.routes == w.routes && x.live == Moved(w.live, o.late, Claimed(o.id))
  {
    var e1, e2 := Opening(o)[0], Opening(o)[1];
    var mid, y := Play(before, w, e1);
    es, x := Play(mid, y, e2);
    Displays(e1, e2);
    Associates(before, [e1], [e2]);
  }

  lemma AfterRoutingFails(o: Overlap)
    requires Proper(o)
    ensures Fails(AfterRouting(o))
  {
    var es, w := BothConnected(o);
    es, w := LateOpens(o, es, w);
    es, w := Play(es, w, EnterRoute(o.late));
    es, w := Play(es, w, DropRoutes(o.early));
    assert o.id in RoutedIds(w);
    es, w := Play(es, w, CloseAgentRows(o.early, 1));
    assert es == AfterRouting(o);
    assert o.id in RoutedIds(w) && o.id !in OpenIds(w);
  }

  lemma BetweenCallsFails(o: Overlap)
    requires Proper(o)
    ensures Fails(BetweenCalls(o))
  {
    var es, w := HalfCleaned(o);
    es, w := LateOpens(o, es, w);
    es, w := Play(es, w, EnterRoute(o.late));
    assert o.id in RoutedIds(w);
    es, w := Play(es, w, CloseAgentRows(o.early, 1));
    assert es == BetweenCalls(o);
    assert o.id in RoutedIds(w) && o.id !in OpenIds(w);
  }

  lemma BeforeRoutingFails(o: Overlap)
    requires Proper(o)
    ensures Fails(BeforeRouting(o))
  {
    var es, w := BothConnected(o);
    es, w := LateOpens(o, es, w);
    es, w := Play(es, w, DropRoutes(o.early));
    es, w := Play(es, w, CloseAgentRows(o.early, 1));
    assert o.id !in OpenIds(w);
    es, w := Play(es, w, EnterRoute(o.late));
    assert es == BeforeRouting(o);
    assert o.id in RoutedIds(w) && o.id !in OpenIds(w);
  }

  /** Overlapping sessions of one agent, of any agent and with any names, leave a
      tunnel routed but closed in three ways, each a run from the empty world. */
  lemma OverlapBreaks(o: Overlap)
    requires Proper(o)
    ensures Fails(AfterRouting(o)) && Fails(BetweenCalls(o)) && Fails(BeforeRouting(o))
  {
    AfterRoutingFails(o);
    BetweenCallsFails(o);
    BeforeRoutingFails(o);
  }

  /** The older session serves the tunnel. The newer one looks for a row to reopen
      and finds it open; before it inserts its own, the older session's cleanup
      closes the row. */
  function Racing(o: Overlap, newId: Name, newSubdomain: Name): seq<Event> {
    [Connect(o.early, o.agent), MissRow(o.early, o.local), InsertRow(o.early, o.local, o.id, o.subdomain, o.user, 0),
     EnterRoute(o.early), Connect(o.late, o.agent), MissRow(o.late, o.local),
     DropRoutes(o.early), CloseAgentRows(o.early, 1), InsertRow(o.late, o.local, newId, newSubdomain, o.user, 2)]
  }

  lemma EarlyServes(o: Overlap) returns (es: seq<Event>, w: World)
    requires Proper(o)
    ensures es == [Connect(o.early, o.agent), MissRow(o.early, o.local),
                   InsertRow(o.early, o.local, o.id, o.subdomain, o.user, 0), EnterRoute(o.early)]
    ensures OverlapRun(es) == Some(w) && w.table == map[o.id := Row(o.subdomain, o.agent, o.user, o.local, true, 0)]
    ensures w.live == map[o.early := Live(o.agent, Serving(o.id))] && w.used == {o.early}
  {
    es, w := Play([], NOTHING, Connect(o.early, o.agent));
    es, w := Play(es, w, MissRow(o.early, o.local));
    es, w := Play(es, w, InsertRow(o.early, o.local, o.id, o.subdomain, o.user, 0));
    es, w := Play(es, w, EnterRoute(o.early));
  }

  lemma RaceBegins(o: Overlap, newId: Name, newSubdomain: Name) returns (w: World)
    requires Proper(o)
    ensures OverlapRun(Racing(o, newId, newSubdomain)[..6]) == Some(w)
    ensures w.table == map[o.id := Row(o.subdomain, o.agent, o.user, o.local, true, 0)]
    ensures At(w, o.early, Serving(o.id)) && At(w, o.late, Missed(o.local))
    ensures w.live[o.early].agent == w.live[o.late].agent == o.agent
  {
    var es;
    es, w := EarlyServes(o);
    es, w := Play(es, w, Connect(o.late, o.agent));
    es, w := Play(es, w, MissRow(o.late, o.local));
    assert es == Racing(o, newId, newSubdomain)[..6];
  }

  /** Looking and inserting are two statements: the agent is given a second tunnel
      although its first is closed and could be reopened. */
  lemma RaceLosesTunnel(o: Overlap, newId: Name, newSubdomain: Name)
    requires Proper(o) && newId != o.id && newSubdomain != o.subdomain
    ensures OverlapRun(Racing(o, newId, newSubdomain)).Some?
    ensures var w := OverlapRun(Racing(o, newId, newSubdomain)).value;
            && Candidate(w.table, o.agent, o.local, o.id)
            && At(w, o.late, Claimed(newId)) && newId in w.table && w.table[newId].subdomain == newSubdomain
  {
    var es := Racing(o, newId, newSubdomain)[..6];
    var w := RaceBegins(o, newId, newSubdomain);
    es, w := Play(es, w, DropRoutes(o.early));
    es, w := Play(es, w, CloseAgentRows(o.early, 1));
    es, w := Play(es, w, InsertRow(o.late, o.local, newId, newSubdomain, o.user, 2));
    assert es == Racing(o, newId, newSubdomain);
  }
}
