/** What a restart of the gateway, or a closing statement that fails, does to an
    agent's claim on its tunnel (backend/internal/tunnels/service.go: nothing
    closes the rows a process left open). */
module Restarts {
  import opened Protocol
  import opened Registries
  import opened Lifecycle

  // ----- One row for each address, exactly -----

  /** No step of the run makes a second row for an agent and address. */
  ghost predicate NeverRepeats(events: seq<Event>)
    requires WorldRun(events).Some?
  {
    events != [] ==>
      var init := events[..|events| - 1];
      NeverRepeats(init) && !Repeats(WorldRun(init).value, events[|events| - 1])
  }

  /** Two rows for one address stay two. */
  lemma RepeatedStays(w: World, e: Event)
    requires CanOverlap(w, e) && !Unique(w.table)
    ensures !Unique(Step(w, e).table)
  {
    var a :| a in w.table && !Sole(w.table, a);
    var b :| For(w.table, w.table[a].agent, w.table[a].local, b) && b != a;
    StepKeepsRow(w, e, a);
    StepKeepsRow(w, e, b);
    var after := Step(w, e).table;
    assert For(after, after[a].agent, after[a].local, b);
    assert !Sole(after, a);
  }

  /** In every run, an agent has one row for each address if and only if no row was
      ever made over an existing one, and that is only ever done over an orphan. */
  lemma {:induction false} UniqueExactly(events: seq<Event>)
    requires WorldRun(events).Some?
    ensures Unique(WorldRun(events).value.table) <==> NeverRepeats(events)
  {
    if events != [] {
      var init, last := events[..|events| - 1], events[|events| - 1];
      UniqueExactly(init);
      var w := WorldRun(init).value;
      if Unique(w.table) {
        StepUnique(w, last);
      } else {
        RepeatedStays(w, last);
      }
    }
  }

  // ----- Runs that lose a tunnel -----

  lemma WorldNext(events: seq<Event>, w: World, e: Event)
    requires WorldRun(events) == Some(w) && Can(w, e)
    ensures WorldRun(events + [e]) == Some(Step(w, e))
  {
    assert (events + [e])[..|events|] == events;
  }

  lemma Play(events: seq<Event>, w: World, e: Event) returns (more: seq<Event>, x: World)
    requires WorldRun(events) == Some(w) && Can(w, e)
    ensures more == events + [e] && x == Step(w, e) && WorldRun(more) == Some(x)
  {
    WorldNext(events, w, e);
    more, x := events + [e], Step(w, e);
  }

  /** The agent, its address and sessions, and the two rows: any will do. */
  datatype Loss = Loss(
    agent: Name, local: Name, user: Name, first: Name, second: Name, third: Name,
    id: Name, subdomain: Name, newId: Name, newSubdomain: Name)

  predicate Proper(l: Loss) {
    && l.agent != "" && l.first != l.second && l.first != l.third && l.second != l.third
    && l.id != l.newId && l.subdomain != l.newSubdomain
  }

  function Opening(l: Loss): seq<Event> {
    [Connect(l.first, l.agent), MissRow(l.first, l.local),
     InsertRow(l.first, l.local, l.id, l.subdomain, l.user, 0), EnterRoute(l.first)]
  }

  /** The process dies, or the session ends and the closing statement fails. */
  function Ending(l: Loss, restart: bool): seq<Event> {
    if restart then [Restart] else [DropRoutes(l.first), CloseFailed(l.first)]
  }

  /** An agent opens its tunnel, its row is left open, and it comes back ... */
  function Orphaning(l: Loss, restart: bool): seq<Event> {
    Opening(l) + Ending(l, restart) + [Connect(l.second, l.agent)]
  }

  /** ... asks for its tunnel ... */
  function Asking(l: Loss, restart: bool): seq<Event> {
    Orphaning(l, restart)
    + [MissRow(l.second, l.local), InsertRow(l.second, l.local, l.newId, l.newSubdomain, l.user, 1),
       EnterRoute(l.second)]
  }

  /** ... disconnects properly, and comes back once more. */
  function Returning(l: Loss, restart: bool): seq<Event> {
    Asking(l, restart) + [DropRoutes(l.second), CloseAgentRows(l.second, 2), Connect(l.third, l.agent)]
  }

  function OldRow(l: Loss, open: bool, updated: int): Row {
    Row(l.subdomain, l.agent, l.user, l.local, open, updated)
  }

  function NewRow(l: Loss, open: bool, updated: int): Row {
    Row(l.newSubdomain, l.agent, l.user, l.local, open, updated)
  }

  lemma Opens(l: Loss) returns (w: World)
    requires Proper(l)
    ensures WorldRun(Opening(l)) == Some(w) && w.table == map[l.id := OldRow(l, true, 0)] && w.used == {l.first}
    ensures w.live == map[l.first := Live(l.agent, Serving(l.id))] && w.orphans == {}
  {
    var es;
    es, w := Arrives(l);
    es, w := Play(es, w, InsertRow(l.first, l.local, l.id, l.subdomain, l.user, 0));
    es, w := Play(es, w, EnterRoute(l.first));
    assert es == Opening(l);
  }

  lemma Arrives(l: Loss) returns (es: seq<Event>, w: World)
    requires Proper(l)
    ensures es == [Connect(l.first, l.agent), MissRow(l.first, l.local)] && WorldRun(es) == Some(w)
    ensures w == World(map[], NO_ROUTES, map[l.first := Live(l.agent, Missed(l.local))], {l.first}, {})
  {
    es, w := Play([], NOTHING, Connect(l.first, l.agent));
    es, w := Play(es, w, MissRow(l.first, l.local));
  }

  lemma Ends(l: Loss, restart: bool) returns (w: World)
    requires Proper(l)
    ensures WorldRun(Opening(l) + Ending(l, restart)) == Some(w)
    ensures w.table == map[l.id := OldRow(l, true, 0)] && w.used == {l.first} && w.live == map[] && w.orphans == {l.id}
  {
    var es := Opening(l);
    w := Opens(l);
    if restart {
      es, w := Play(es, w, Restart);
    } else {
      es, w := Play(es, w, DropRoutes(l.first));
      es, w := Play(es, w, CloseFailed(l.first));
    }
    assert es == Opening(l) + Ending(l, restart);
  }

  lemma Orphans(l: Loss, restart: bool) returns (w: World)
    requires Proper(l)
    ensures WorldRun(Orphaning(l, restart)) == Some(w) && w.table == map[l.id := OldRow(l, true, 0)]
    ensures w.used == {l.first, l.second} && w.live == map[l.second := Live(l.agent, Idle)] && w.orphans == {l.id}
  {
    var es := Opening(l) + Ending(l, restart);
    w := Ends(l, restart);
    es, w := Play(es, w, Connect(l.second, l.agent));
  }

  /** A row left open is lost to its agent: between operations it is open and not
      routed, and when the agent asks for its tunnel, the statement finds none. */
  lemma OrphanIsLost(l: Loss, restart: bool)
    requires Proper(l)
    ensures WorldRun(Orphaning(l, restart)).Some?
    ensures var w := WorldRun(Orphaning(l, restart)).value;
            && Settled(w) && l.id in OpenIds(w) && l.id !in RoutedIds(w)
            && At(w, l.second, Idle) && w.live[l.second].agent == l.agent == w.table[l.id].agent
            && Can(w, MissRow(l.second, l.local))
            && forall id, now :: !Can(w, ReopenRow(l.second, l.local, id, now))
  {
    var w := Orphans(l, restart);
    RunKeeps(Orphaning(l, restart));
    RoutedApart(w);
    assert Sole(w.table, l.id);
    SoleAsk(w, l.second, l.local, l.id);
  }

  lemma Asks(l: Loss, restart: bool) returns (w: World)
    requires Proper(l)
    ensures WorldRun(Asking(l, restart)) == Some(w)
    ensures w.table == map[l.id := OldRow(l, true, 0), l.newId := NewRow(l, true, 1)] && w.used == {l.first, l.second}
    ensures w.live == map[l.second := Live(l.agent, Serving(l.newId))] && RoutedFor(w.routes, l.newId, l.second)
  {
    var es;
    es, w := Inserts(l, restart);
    es, w := Play(es, w, EnterRoute(l.second));
    assert es == Asking(l, restart);
  }

  lemma Inserts(l: Loss, restart: bool) returns (es: seq<Event>, w: World)
    requires Proper(l)
    ensures es == Orphaning(l, restart) + Asking(l, restart)[|Orphaning(l, restart)|..|Orphaning(l, restart)| + 2]
    ensures WorldRun(es) == Some(w)
    ensures w.table == map[l.id := OldRow(l, true, 0), l.newId := NewRow(l, true, 1)] && w.used == {l.first, l.second}
    ensures w.live == map[l.second := Live(l.agent, Claimed(l.newId))]
  {
    es := Orphaning(l, restart);
    w := Orphans(l, restart);
    es, w := Play(es, w, MissRow(l.second, l.local));
    es, w := Play(es, w, InsertRow(l.second, l.local, l.newId, l.newSubdomain, l.user, 1));
  }

  /** The agent is given another tunnel under another subdomain. */
  lemma SubdomainChanges(l: Loss, restart: bool)
    requires Proper(l)
    ensures WorldRun(Asking(l, restart)).Some?
    ensures var w := WorldRun(Asking(l, restart)).value;
            && At(w, l.second, Serving(l.newId)) && RoutedFor(w.routes, l.newId, l.second)
            && l.newId in w.table && w.table[l.newId].subdomain == l.newSubdomain != l.subdomain
            && For(w.table, l.agent, l.local, l.id) && For(w.table, l.agent, l.local, l.newId)
  {
    var w := Asks(l, restart);
  }

  lemma Returns(l: Loss, restart: bool) returns (w: World)
    requires Proper(l)
    ensures WorldRun(Returning(l, restart)) == Some(w)
    ensures w.table == map[l.id := OldRow(l, false, 2), l.newId := NewRow(l, false, 2)]
    ensures At(w, l.third, Idle) && w.live[l.third].agent == l.agent
  {
    var es := Asking(l, restart);
    w := Asks(l, restart);
    es, w := Play(es, w, DropRoutes(l.second));
    es, w := Play(es, w, CloseAgentRows(l.second, 2));
    es, w := Play(es, w, Connect(l.third, l.agent));
    assert es == Returning(l, restart);
  }

  /** And from then on, which of the two it gets is up to the database: one
      statement closed both, so neither is newer. */
  lemma SubdomainUndecided(l: Loss, restart: bool)
    requires Proper(l)
    ensures WorldRun(Returning(l, restart)).Some?
    ensures var w := WorldRun(Returning(l, restart)).value;
            && At(w, l.third, Idle) && w.live[l.third].agent == l.agent
            && forall id, now :: Can(w, ReopenRow(l.third, l.local, id, now)) <==> id == l.id || id == l.newId
  {
    var w := Returns(l, restart);
    assert forall id :: Newest(w.table, l.agent, l.local, id) <==> id == l.id || id == l.newId;
  }
}
