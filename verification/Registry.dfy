/** The in-memory route registry with its two indexes and its traffic counters
    (backend/internal/tunnels/registry.go). */
module Registries {
  import opened Protocol

  type Name = string

  datatype Tunnel = Tunnel(id: Name, subdomain: Name, agent: Name, user: Name, session: Name, local: Name)
  datatype Routes = Routes(bySubdomain: map<Name, Tunnel>, byId: map<Name, Name>)

  const NO_ROUTES := Routes(map[], map[])

  function OpenRoute(rt: Routes, t: Tunnel): Routes {
    Routes(rt.bySubdomain[t.subdomain := t], rt.byId[t.id := t.subdomain])
  }

  function CloseRoute(rt: Routes, id: Name): Routes {
    if id in rt.byId then Routes(rt.bySubdomain - {rt.byId[id]}, rt.byId - {id}) else rt
  }

  /** All routes of one session gone, the others untouched. */
  function CloseRoutesOf(rt: Routes, session: Name): Routes {
    Routes(map s | s in rt.bySubdomain && rt.bySubdomain[s].session != session :: rt.bySubdomain[s],
           map i | i in rt.byId && rt.byId[i] in rt.bySubdomain
               && rt.bySubdomain[rt.byId[i]].session != session :: rt.byId[i])
  }

  /** The two indexes are inverse to each other. */
  ghost predicate Inverse(rt: Routes) {
    && (forall i :: i in rt.byId ==> rt.byId[i] in rt.bySubdomain && rt.bySubdomain[rt.byId[i]].id == i)
    && (forall s :: s in rt.bySubdomain ==>
          && rt.bySubdomain[s].subdomain == s
          && rt.bySubdomain[s].id in rt.byId && rt.byId[rt.bySubdomain[s].id] == s)
  }

  /** A tunnel whose id and subdomain are not taken by anything else. */
  predicate Stable(rt: Routes, t: Tunnel) {
    && (t.id in rt.byId ==> rt.byId[t.id] == t.subdomain)
    && (t.subdomain in rt.bySubdomain ==> rt.bySubdomain[t.subdomain].id == t.id)
  }

  /** Open keeps the indexes inverse exactly for stable id/subdomain pairs. */
  lemma OpenKeepsExactly(rt: Routes, t: Tunnel)
    requires Inverse(rt)
    ensures Inverse(OpenRoute(rt, t)) <==> Stable(rt, t)
  {
    var after := OpenRoute(rt, t);
    if t.id in rt.byId && rt.byId[t.id] != t.subdomain {
      assert after.bySubdomain[rt.byId[t.id]].id == t.id && after.byId[t.id] != rt.byId[t.id];
    } else if t.subdomain in rt.bySubdomain && rt.bySubdomain[t.subdomain].id != t.id {
      assert after.byId[rt.bySubdomain[t.subdomain].id] == t.subdomain && after.bySubdomain[t.subdomain] == t;
    }
  }

  lemma CloseKeeps(rt: Routes, id: Name)
    requires Inverse(rt)
    ensures Inverse(CloseRoute(rt, id))
  {
  }

  lemma CloseSessionKeeps(rt: Routes, session: Name)
    requires Inverse(rt)
    ensures Inverse(CloseRoutesOf(rt, session))
  {
  }

  // ----- Traffic counters -----

  datatype Metrics = Metrics(requests: nat, requestBytes: nat, responseBytes: nat)
  const NONE := Metrics(0, 0, 0)

  function Plus(a: Metrics, b: Metrics): Metrics {
    Metrics(a.requests + b.requests, a.requestBytes + b.requestBytes, a.responseBytes + b.responseBytes)
  }

  /** What one request adds; an unknown length (-1) adds no bytes. */
  function Delta(requestBytes: int, responseBytes: int): Metrics {
    Metrics(1, if requestBytes > 0 then requestBytes else 0, if responseBytes > 0 then responseBytes else 0)
  }

  function Wrap(m: Metrics): Metrics {
    Metrics(m.requests % COUNTER_MOD, m.requestBytes % COUNTER_MOD, m.responseBytes % COUNTER_MOD)
  }

  /** One more request, in 64-bit counters; only positive lengths count. */
  predicate Counted(before: Metrics, after: Metrics, requestBytes: int, responseBytes: int) {
    && after.requests == (before.requests + 1) % 0x1_0000_0000_0000_0000
    && after.requestBytes == (before.requestBytes + Positive(requestBytes)) % 0x1_0000_0000_0000_0000
    && after.responseBytes == (before.responseBytes + Positive(responseBytes)) % 0x1_0000_0000_0000_0000
  }

  function Positive(n: int): nat { if n > 0 then n else 0 }

  function Of(m: map<Name, Metrics>, user: Name): Metrics { if user in m then m[user] else NONE }

  /** The user a tunnel id is accounted to: nobody if it is not routed. */
  function Account(rt: Routes, id: Name): Option<Name> {
    if id !in rt.byId then None
    else Some(if rt.byId[id] in rt.bySubdomain then rt.bySubdomain[rt.byId[id]].user else "")
  }

  /** The account of a routed tunnel is its own user, and only routed ids have one. */
  lemma AccountExactly(rt: Routes, s: Name, id: Name)
    requires Inverse(rt)
    ensures s in rt.bySubdomain ==> Account(rt, rt.bySubdomain[s].id) == Some(rt.bySubdomain[s].user)
    ensures Account(rt, id).None? <==> !exists x :: x in rt.bySubdomain && rt.bySubdomain[x].id == id
  {
    if id in rt.byId {
      assert rt.bySubdomain[rt.byId[id]].id == id;
    }
  }

  datatype Counters = Counters(traffic: Metrics, perUser: map<Name, Metrics>)

  function Record(c: Counters, account: Option<Name>, delta: Metrics): Counters {
    if account.None? then c
    else Counters(
      Wrap(Plus(c.traffic, delta)),
      if account.value == "" then c.perUser
      else c.perUser[account.value := Wrap(Plus(Of(c.perUser, account.value), delta))])
  }

  function Lookup(rt: Routes, subdomain: Name): Option<Tunnel> {
    if subdomain in rt.bySubdomain then Some(rt.bySubdomain[subdomain]) else None
  }

  /** The session a subdomain routes to; a missing entry reads as the zero tunnel. */
  function SessionAt(bySubdomain: map<Name, Tunnel>, subdomain: Name): Name {
    if subdomain in bySubdomain then bySubdomain[subdomain].session else ""
  }

  ghost predicate LedTo(byId: map<Name, Name>, subdomain: Name) { exists i :: i in byId && byId[i] == subdomain }

  /** Some id that led to the subdomain is gone. */
  ghost predicate Led(before: map<Name, Name>, after: map<Name, Name>, subdomain: Name) {
    exists i :: i in before && i !in after && before[i] == subdomain
  }

  class Registry {
    var bySubdomain: map<Name, Tunnel>
    var byId: map<Name, Name>
    var traffic: Metrics
    var perUser: map<Name, Metrics>

    function Routing(): Routes reads this { Routes(bySubdomain, byId) }
    function Counting(): Counters reads this { Counters(traffic, perUser) }

    constructor ()
      ensures Routing() == NO_ROUTES && Counting() == Counters(NONE, map[])
    {
      bySubdomain, byId, traffic, perUser := map[], map[], NONE, map[];
    }

    method Open(t: Tunnel)
      modifies this`bySubdomain, this`byId
      ensures Routing() == OpenRoute(old(Routing()), t)
      ensures old(Inverse(Routing())) ==> (Inverse(Routing()) <==> Stable(old(Routing()), t))
    {
      if Inverse(Routing()) {
        OpenKeepsExactly(Routing(), t);
      }
      bySubdomain := bySubdomain[t.subdomain := t];
      byId := byId[t.id := t.subdomain];
    }

    method Get(subdomain: Name) returns (t: Option<Tunnel>)
      ensures t == Lookup(Routing(), subdomain)
    {
      t := if subdomain in bySubdomain then Some(bySubdomain[subdomain]) else None;
    }

    method Close(id: Name) returns (ok: bool)
      modifies this`bySubdomain, this`byId
      ensures ok <==> id in old(byId)
      ensures Routing() == CloseRoute(old(Routing()), id)
      ensures old(Inverse(Routing())) ==> Inverse(Routing())
    {
      if Inverse(Routing()) {
        CloseKeeps(Routing(), id);
      }
      if id !in byId {
        return false;
      }
      bySubdomain, byId := bySubdomain - {byId[id]}, byId - {id};
      return true;
    }

    /** Deletes while walking the id index, in whatever order it is walked. A
        subdomain goes exactly when it routes to the session and some id leads to
        it, and takes an id that led to it along; no id of another session goes.
        On inverse indexes that is all of the session's routes and nothing else. */
    method CloseSession(session: Name)
      modifies this`bySubdomain, this`byId
      ensures forall s :: s in bySubdomain
                <==> s in old(bySubdomain) && !(old(bySubdomain)[s].session == session && LedTo(old(byId), s))
      ensures forall s :: s in bySubdomain ==> bySubdomain[s] == old(bySubdomain)[s]
      ensures forall i :: i in byId ==> i in old(byId) && byId[i] == old(byId)[i]
      ensures forall i :: i in old(byId) && i !in byId ==> SessionAt(old(bySubdomain), old(byId)[i]) == session
      ensures forall s :: s in old(bySubdomain) && s !in bySubdomain ==> Led(old(byId), byId, s)
      ensures old(Inverse(Routing())) ==> Routing() == CloseRoutesOf(old(Routing()), session) && Inverse(Routing())
    {
      ghost var before := Routing();
      var todo := byId.Keys;
      while todo != {}
        invariant todo <= byId.Keys && Sweeping(before, Routing(), todo, session)
        decreases todo
      {
        var id :| id in todo;
        var subdomain := byId[id];
        SweepStep(before, Routing(), todo, session, id);
        if SessionAt(bySubdomain, subdomain) == session {
          byId := byId - {id};
          bySubdomain := bySubdomain - {subdomain};
        }
        todo := todo - {id};
      }
      if Inverse(before) {
        SweptExactly(Routing(), before, session);
      }
    }

    method RecordTraffic(id: Name, requestBytes: int, responseBytes: int)
      modifies this`traffic, this`perUser
      ensures Counting() == Record(old(Counting()), Account(Routing(), id), Delta(requestBytes, responseBytes))
      ensures id !in byId ==> Counting() == old(Counting())
      ensures id in byId ==> Counted(old(traffic), traffic, requestBytes, responseBytes)
      ensures id in byId && byId[id] in bySubdomain && bySubdomain[byId[id]].user != "" ==>
                var user := bySubdomain[byId[id]].user;
                && user in perUser && Counted(Of(old(perUser), user), perUser[user], requestBytes, responseBytes)
                && perUser - {user} == old(perUser) - {user}
      ensures id in byId && (byId[id] in bySubdomain ==> bySubdomain[byId[id]].user == "") ==> perUser == old(perUser)
    {
      if id !in byId {
        return;
      }
      var delta := Delta(requestBytes, responseBytes);
      traffic := Wrap(Plus(traffic, delta));
      var user := if byId[id] in bySubdomain then bySubdomain[byId[id]].user else "";
      if user != "" {
        perUser := perUser[user := Wrap(Plus(Of(perUser, user), delta))];
      }
    }

    method DrainUserDeltas() returns (drained: map<Name, Metrics>)
      modifies this`perUser
      ensures drained == old(perUser) && perUser == map[]
    {
      drained := perUser;
      perUser := map[];
    }
  }

  lemma LedOn(before: map<Name, Name>, ids: map<Name, Name>, id: Name)
    requires id in ids && id in before && before[id] == ids[id]
    ensures forall s :: Led(before, ids, s) ==> Led(before, ids - {id}, s)
    ensures Led(before, ids - {id}, ids[id])
  {
    forall s | Led(before, ids, s) ensures Led(before, ids - {id}, s) {
      var i :| i in before && i !in ids && before[i] == s;
      assert i !in ids - {id};
    }
  }

  /** Half way through a CloseSession, with the ids `todo` still to visit. */
  ghost predicate Sweeping(before: Routes, rt: Routes, todo: set<Name>, session: Name) {
    && (forall i :: i in rt.byId ==> i in before.byId && rt.byId[i] == before.byId[i])
    && (forall s :: s in rt.bySubdomain ==> s in before.bySubdomain && rt.bySubdomain[s] == before.bySubdomain[s])
    && (forall i :: i in before.byId && i !in todo && SessionAt(before.bySubdomain, before.byId[i]) == session ==>
          before.byId[i] !in rt.bySubdomain)
    && (forall s :: s in before.bySubdomain && s !in rt.bySubdomain ==>
          before.bySubdomain[s].session == session && Led(before.byId, rt.byId, s))
    && (forall i :: i in before.byId && i !in rt.byId ==> SessionAt(before.bySubdomain, before.byId[i]) == session)
  }

  lemma SweepStep(before: Routes, rt: Routes, todo: set<Name>, session: Name, id: Name)
    requires Sweeping(before, rt, todo, session) && id in todo && id in rt.byId
    ensures var next := if SessionAt(rt.bySubdomain, rt.byId[id]) == session
                        then Routes(rt.bySubdomain - {rt.byId[id]}, rt.byId - {id}) else rt;
            Sweeping(before, next, todo - {id}, session)
  {
    LedOn(before.byId, rt.byId, id);
  }

  lemma SweptExactly(rt: Routes, before: Routes, session: Name)
    requires Inverse(before) && Sweeping(before, rt, {}, session)
    ensures rt == CloseRoutesOf(before, session) && Inverse(rt)
  {
    var want := CloseRoutesOf(before, session);
    forall s ensures s in rt.bySubdomain <==> s in want.bySubdomain {
      if s in before.bySubdomain {
        assert before.byId[before.bySubdomain[s].id] == s;
      }
    }
    assert rt.bySubdomain == want.bySubdomain;
    forall i ensures i in rt.byId <==> i in want.byId {
      if i in before.byId && before.byId[i] !in rt.bySubdomain {
        var j :| j in before.byId && j !in rt.byId && before.byId[j] == before.byId[i];
        assert i == j;
      }
    }
    assert rt.byId == want.byId;
    CloseSessionKeeps(before, session);
  }

  // ----- Whole runs -----

  datatype RouteEvent = Opened(t: Tunnel) | Closed(id: Name) | SessionClosed(session: Name)

  function RouteStep(rt: Routes, e: RouteEvent): Routes {
    match e
    case Opened(t) => OpenRoute(rt, t)
    case Closed(id) => CloseRoute(rt, id)
    case SessionClosed(session) => CloseRoutesOf(rt, session)
  }

  function RouteRun(events: seq<RouteEvent>): Routes {
    if events == [] then NO_ROUTES else RouteStep(RouteRun(events[..|events| - 1]), events[|events| - 1])
  }

  /** Over the whole run each tunnel id keeps one subdomain of its own. */
  ghost predicate StablePairs(events: seq<RouteEvent>) {
    forall a, b :: a in events && b in events && a.Opened? && b.Opened?
        ==> (a.t.id == b.t.id <==> a.t.subdomain == b.t.subdomain)
  }

  /** Reference: what one subdomain routes to, followed on its own. */
  function RoutedStep(current: Option<Tunnel>, e: RouteEvent, subdomain: Name): Option<Tunnel> {
    match e
    case Opened(t) => if t.subdomain == subdomain then Some(t) else current
    case Closed(id) => if current.Some? && current.value.id == id then None else current
    case SessionClosed(session) => if current.Some? && current.value.session == session then None else current
  }

  function Routed(events: seq<RouteEvent>, subdomain: Name): Option<Tunnel> {
    if events == [] then None
        else RoutedStep(Routed(events[..|events| - 1], subdomain), events[|events| - 1], subdomain)
  }

  /** Every route in the registry comes from an event of the run. */
  ghost predicate FromRun(rt: Routes, events: seq<RouteEvent>) {
    forall s :: s in rt.bySubdomain ==> Opened(rt.bySubdomain[s]) in events
  }

  lemma RouteStepKeeps(rt: Routes, events: seq<RouteEvent>, e: RouteEvent, subdomain: Name)
    requires Inverse(rt) && FromRun(rt, events) && StablePairs(events + [e])
    ensures Inverse(RouteStep(rt, e)) && FromRun(RouteStep(rt, e), events + [e])
    ensures Lookup(RouteStep(rt, e), subdomain) == RoutedStep(Lookup(rt, subdomain), e, subdomain)
  {
    match e
    case Opened(t) =>
      OpenKeepsExactly(rt, t);
      assert e in events + [e];
      assert Stable(rt, t) by {
        if t.id in rt.byId {
          var current := rt.bySubdomain[rt.byId[t.id]];
          assert Opened(current) in events + [e];
        }
        if t.subdomain in rt.bySubdomain {
          assert Opened(rt.bySubdomain[t.subdomain]) in events + [e];
        }
      }
    case Closed(id) => CloseKeeps(rt, id);
    case SessionClosed(session) => CloseSessionKeeps(rt, session);
  }

  /** Registry indexes: in every run with stable id/subdomain pairs the indexes
      stay inverse, and each subdomain routes to what its own history says: the
      last tunnel opened on it, unless that tunnel or its session was closed
      since. Cleaning up an older session therefore never removes a route
      reopened by a newer one. */
  lemma {:induction false} RoutingExact(events: seq<RouteEvent>, subdomain: Name)
    requires StablePairs(events)
    ensures Inverse(RouteRun(events)) && FromRun(RouteRun(events), events)
    ensures Lookup(RouteRun(events), subdomain) == Routed(events, subdomain)
  {
    if events != [] {
      var init, last := events[..|events| - 1], events[|events| - 1];
      assert events == init + [last];
      RoutingExact(init, subdomain);
      RouteStepKeeps(RouteRun(init), init, last, subdomain);
    }
  }

  /** Reference: the last tunnel opened under an id, unless it or its session was closed since. */
  function HeldStep(current: Option<Tunnel>, e: RouteEvent, id: Name): Option<Tunnel> {
    match e
    case Opened(t) => if t.id == id then Some(t) else current
    case Closed(x) => if x == id then None else current
    case SessionClosed(session) => if current.Some? && current.value.session == session then None else current
  }

  function Held(events: seq<RouteEvent>, id: Name): Option<Tunnel> {
    if events == [] then None else HeldStep(Held(events[..|events| - 1], id), events[|events| - 1], id)
  }

  function ById(rt: Routes, id: Name): Option<Tunnel> {
    if id in rt.byId && rt.byId[id] in rt.bySubdomain then Some(rt.bySubdomain[rt.byId[id]]) else None
  }

  lemma HeldStepKeeps(rt: Routes, e: RouteEvent, id: Name)
    requires Inverse(rt) && Inverse(RouteStep(rt, e))
    ensures ById(RouteStep(rt, e), id) == HeldStep(ById(rt, id), e, id)
  {
    if e.Opened? {
      OpenKeepsExactly(rt, e.t);
    }
  }

  lemma {:induction false} HeldExactly(events: seq<RouteEvent>, id: Name)
    requires StablePairs(events)
    ensures ById(RouteRun(events), id) == Held(events, id)
  {
    if events != [] {
      HeldExactly(events[..|events| - 1], id);
      RoutingExact(events[..|events| - 1], "");
      RoutingExact(events, "");
      HeldStepKeeps(RouteRun(events[..|events| - 1]), events[|events| - 1], id);
    }
  }

  /** Attribution: in every run with stable id/subdomain pairs a tunnel id is
      accounted to the user of the last tunnel opened under it, and to nobody
      exactly when that tunnel or its session was closed since, or none was opened. */
  lemma AccountOfRun(events: seq<RouteEvent>, id: Name)
    requires StablePairs(events)
    ensures Account(RouteRun(events), id) == if Held(events, id).Some? then Some(Held(events, id).value.user) else None
  {
    HeldExactly(events, id);
    RoutingExact(events, "");
  }

  /** The event does not open on the tunnel's subdomain, close the tunnel or end
      its session. */
  predicate Spares(e: RouteEvent, t: Tunnel) {
    match e
    case Opened(other) => other.subdomain != t.subdomain
    case Closed(id) => id != t.id
    case SessionClosed(session) => session != t.session
  }

  lemma {:induction false} RouteStays(events: seq<RouteEvent>, t: Tunnel, more: seq<RouteEvent>)
    requires Routed(events, t.subdomain) == Some(t) && forall e :: e in more ==> Spares(e, t)
    ensures Routed(events + more, t.subdomain) == Some(t)
    decreases |more|
  {
    if more == [] {
      assert events + more == events;
    } else {
      var init, last := more[..|more| - 1], more[|more| - 1];
      assert more == init + [last];
      RouteStays(events, t, init);
      var all := events + more;
      assert all[..|all| - 1] == events + init && all[|all| - 1] == last;
      assert Spares(last, t);
    }
  }

  /** Late cleanup: once a tunnel is routed it stays routed through anything that
      happens to other tunnels and sessions, the cleanup of its own older sessions
      included, however late they come. */
  lemma LateCleanup(events: seq<RouteEvent>, t: Tunnel, more: seq<RouteEvent>)
    requires StablePairs(events + [Opened(t)] + more) && forall e :: e in more ==> Spares(e, t)
    ensures Lookup(RouteRun(events + [Opened(t)] + more), t.subdomain) == Some(t)
  {
    assert (events + [Opened(t)])[..|events|] == events;
    RouteStays(events + [Opened(t)], t, more);
    RoutingExact(events + [Opened(t)] + more, t.subdomain);
  }
}
