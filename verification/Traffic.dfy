/** Traffic accounting from the request path to the totals table: record, drain,
    flush (backend/internal/tunnels/registry.go, backend/cmd/server/main.go,
    backend/internal/traffic/service.go). */
module Traffic {
  import opened Protocol
  import opened Registries

  const MAX_TOTAL: nat := 0x7fff_ffff_ffff_ffff   // BIGINT

  type Totals = map<Name, Metrics>

  predicate Storable(m: Metrics) {
    m.requests <= MAX_TOTAL && m.requestBytes <= MAX_TOTAL && m.responseBytes <= MAX_TOTAL
  }

  /** All three columns are BIGINT. */
  predicate InBigint(m: Metrics) {
    && m.requests <= 9223372036854775807 && m.requestBytes <= 9223372036854775807
    && m.responseBytes <= 9223372036854775807
  }

  /** The upsert adds to a stored row, unless the statement fails or a column
      would leave its range. */
  predicate AddSucceeds(row: Metrics, delta: Metrics, statementOk: bool) {
    statementOk && Storable(Plus(row, delta))
  }

  /** Per-user table in which a failed flush is remembered as lost. */
  datatype Ledger = Ledger(totals: Totals, lost: Totals)

  function Flush(l: Ledger, user: Name, delta: Metrics, statementOk: bool): Ledger {
    if AddSucceeds(Of(l.totals, user), delta, statementOk)
    then l.(totals := l.totals[user := Plus(Of(l.totals, user), delta)])
    else l.(lost := l.lost[user := Plus(Of(l.lost, user), delta)])
  }

  /** One delta that reached the table. */
  datatype Addition = Addition(user: Name, delta: Metrics)

  function Added(additions: seq<Addition>, user: Name): Metrics {
    if additions == [] then NONE
    else
      var last, before := additions[|additions| - 1], Added(additions[..|additions| - 1], user);
      if last.user == user then Plus(before, last.delta) else before
  }

  /** A user's stored row after a flush of `delta`. */
  function AfterFlush(row: Metrics, delta: Metrics, statementOk: bool): Metrics {
    if AddSucceeds(row, delta, statementOk) then Plus(row, delta) else row
  }

  class TotalsTable {
    var rows: Totals
    ghost var additions: seq<Addition>

    /** Every row is the sum of the deltas that reached it. */
    ghost predicate Valid() reads this {
      forall user :: Of(rows, user) == Added(additions, user)
    }

    constructor ()
      ensures Valid() && rows == map[] && additions == []
    {
      rows, additions := map[], [];
    }

    /** Adds to the user's sum and to nobody else's, creating the row at need, or
        changes nothing: exactly when the database fails (`statementOk` is its
        answer) or a column would leave its range. */
    method AddDelta(user: Name, delta: Metrics, statementOk: bool) returns (ok: bool)
      requires Valid()
      modifies this
      ensures Valid()
      ensures ok <==> statementOk && InBigint(Plus(Added(old(additions), user), delta))
      ensures additions == old(additions) + (if ok then [Addition(user, delta)] else [])
      ensures rows.Keys == old(rows).Keys + (if ok then {user} else {})
      ensures forall other :: other in rows && (!ok || other != user) ==> rows[other] == old(rows)[other]
      ensures Of(rows, user) == AfterFlush(Of(old(rows), user), delta, statementOk)
    {
      assert Of(rows, user) == Added(additions, user);
      ok := AddSucceeds(Of(rows, user), delta, statementOk);
      if ok {
        additions := additions + [Addition(user, delta)];
        rows := rows[user := Plus(Of(rows, user), delta)];
        forall u ensures Of(rows, u) == Added(additions, u) {
          Landed(old(additions), Addition(user, delta), u);
          assert Of(old(rows), u) == Added(old(additions), u);
        }
      }
    }

    /** What a user is shown: all that was ever added for them, zero if nothing was. */
    method GetTotals(user: Name, statementOk: bool) returns (m: Option<Metrics>)
      requires Valid()
      ensures m == if statementOk then Some(Added(additions, user)) else None
    {
      if !statementOk {
        return None;
      }
      assert Of(rows, user) == Added(additions, user);
      if user in rows {
        return Some(rows[user]);
      }
      return Some(NONE);
    }
  }

  lemma Landed(additions: seq<Addition>, a: Addition, user: Name)
    ensures Added(additions + [a], user)
            == if a.user == user then Plus(Added(additions, user), a.delta) else Added(additions, user)
  {
    assert (additions + [a])[..|additions|] == additions;
  }

  /** flushTraffic drains once and pushes every user's delta, in any order. Each
      user's row has grown by exactly the drained delta or, when that user's
      statement failed, not at all; nobody else's row changed. */
  method FlushTraffic(registry: Registry, table: TotalsTable, working: set<Name>)
    requires table.Valid()
    modifies registry`perUser, table
    ensures table.Valid()
    ensures registry.perUser == map[]
    ensures forall u :: u in old(registry.perUser) ==>
              Of(table.rows, u) == AfterFlush(Of(old(table.rows), u), old(registry.perUser)[u], u in working)
    ensures forall u :: u !in old(registry.perUser) ==> Of(table.rows, u) == Of(old(table.rows), u)
  {
    ghost var before := table.rows;
    var drained := registry.DrainUserDeltas();
    var todo := drained.Keys;
    while todo != {}
      invariant todo <= drained.Keys && table.Valid()
      invariant registry.perUser == map[]
      invariant Flushed(before, table.rows, drained, todo, working)
      decreases todo
    {
      var user :| user in todo;
      ghost var rows := table.rows;
      var ok := table.AddDelta(user, drained[user], user in working);
      FlushedNext(before, rows, table.rows, drained, todo, working, user);
      todo := todo - {user};
    }
  }

  /** Half way through a flush, with the users `todo` still to push. */
  ghost predicate Flushed(before: Totals, rows: Totals, drained: Totals, todo: set<Name>, working: set<Name>) {
    && (forall u :: u in drained && u !in todo ==> Of(rows, u) == AfterFlush(Of(before, u), drained[u], u in working))
    && (forall u :: u in todo || u !in drained ==> Of(rows, u) == Of(before, u))
  }

  lemma FlushedNext(before: Totals, rows: Totals, after: Totals, drained: Totals, todo: set<Name>, working: set<Name>,
                    user: Name)
    requires Flushed(before, rows, drained, todo, working) && user in todo && user in drained
    requires Of(after, user) == AfterFlush(Of(rows, user), drained[user], user in working)
    requires after.Keys <= rows.Keys + {user} && rows.Keys <= after.Keys
    requires forall u :: u in after && u != user ==> after[u] == rows[u]
    ensures Flushed(before, after, drained, todo - {user}, working)
  {
  }

  // ----- The accounting system, record and flush interleaved -----

  /** `draining` is the drained map a flush is working through. The last three
      fields only observe: what was recorded per user, what was recorded on
      tunnels without a user, and what a user's in-memory counters dropped by
      wrapping. */
  datatype Books = Books(
    routes: Routes, counters: Counters, draining: Totals, ledger: Ledger,
    recorded: Totals, unattributed: Metrics, wrapped: Totals)

  datatype BookEvent =
    | Routing(e: RouteEvent)
    | Recorded(id: Name, requestBytes: int, responseBytes: int)
    | Drain
    | FlushOne(user: Name, statementOk: bool)

  /** One flusher: it drains again only when it has pushed everything. */
  predicate CanBook(b: Books, e: BookEvent) {
    match e
    case Drain => b.draining == map[]
    case FlushOne(user, _) => user in b.draining
    case _ => true
  }

  function Minus(a: Metrics, b: Metrics): Metrics
    requires b.requests <= a.requests && b.requestBytes <= a.requestBytes && b.responseBytes <= a.responseBytes
  {
    Metrics(a.requests - b.requests, a.requestBytes - b.requestBytes, a.responseBytes - b.responseBytes)
  }

  /** What a 64-bit counter drops of a value. */
  function Excess(m: Metrics): Metrics { Minus(m, Wrap(m)) }

  /** What has been dropped in all, after storing `value` in a counter. */
  function Dropped(wrapped: Metrics, value: Metrics): Metrics {
    if Wrap(value) == value then wrapped else Plus(wrapped, Excess(value))
  }

  function BookRecord(b: Books, account: Option<Name>, delta: Metrics): Books {
    var after := b.(counters := Record(b.counters, account, delta));
    if account.None? then after
    else if account.value == "" then after.(unattributed := Plus(b.unattributed, delta))
    else
      var u := account.value;
      after.(recorded := b.recorded[u := Plus(Of(b.recorded, u), delta)],
             wrapped := b.wrapped[u := Dropped(Of(b.wrapped, u), Plus(Of(b.counters.perUser, u), delta))])
  }

  function BookDrain(b: Books): Books {
    b.(draining := b.counters.perUser, counters := b.counters.(perUser := map[]))
  }

  function BookFlush(b: Books, user: Name, statementOk: bool): Books
    requires user in b.draining
  {
    b.(draining := b.draining - {user}, ledger := Flush(b.ledger, user, b.draining[user], statementOk))
  }

  function Book(b: Books, e: BookEvent): Books
    requires CanBook(b, e)
  {
    match e
    case Routing(r) => b.(routes := RouteStep(b.routes, r))
    case Recorded(id, requestBytes, responseBytes) =>
      BookRecord(b, Account(b.routes, id), Delta(requestBytes, responseBytes))
    case Drain => BookDrain(b)
    case FlushOne(user, statementOk) => BookFlush(b, user, statementOk)
  }

  const OPENING := Books(NO_ROUTES, Counters(NONE, map[]), map[], Ledger(map[], map[]), map[], NONE, map[])

  function BookRun(events: seq<BookEvent>): Option<Books> {
    if events == [] then Some(OPENING)
    else
      var before := BookRun(events[..|events| - 1]);
      if before.Some? && CanBook(before.value, events[|events| - 1])
      then Some(Book(before.value, events[|events| - 1])) else None
  }

  /** One user's traffic, by where it is. */
  datatype Position = Position(stored: Metrics, lost: Metrics, draining: Metrics, waiting: Metrics, wrapped: Metrics,
                               recorded: Metrics)

  function PositionOf(b: Books, u: Name): Position {
    Position(Of(b.ledger.totals, u), Of(b.ledger.lost, u), Of(b.draining, u), Of(b.counters.perUser, u),
             Of(b.wrapped, u), Of(b.recorded, u))
  }

  /** Everything ever recorded for a user is persisted, lost in a failed flush,
      being flushed, waiting in memory, or was dropped by a wrapping counter. */
  predicate Balanced(p: Position) {
    && p.stored.requests + p.lost.requests + p.draining.requests + p.waiting.requests + p.wrapped.requests
       == p.recorded.requests
    && p.stored.requestBytes + p.lost.requestBytes + p.draining.requestBytes + p.waiting.requestBytes
        + p.wrapped.requestBytes
       == p.recorded.requestBytes
    && p.stored.responseBytes + p.lost.responseBytes + p.draining.responseBytes + p.waiting.responseBytes
        + p.wrapped.responseBytes
       == p.recorded.responseBytes
  }

  /** Nothing is dropped while the total fits a 64-bit counter. */
  predicate Unwrapped(p: Position) {
    Small(p.recorded) ==> p.wrapped == NONE
  }

  predicate Small(m: Metrics) {
    m.requests < COUNTER_MOD && m.requestBytes < COUNTER_MOD && m.responseBytes < COUNTER_MOD
  }

  lemma WrapSmall(m: Metrics)
    requires Small(m)
    ensures Wrap(m) == m
  {
  }

  lemma DroppedExactly(wrapped: Metrics, value: Metrics)
    ensures Plus(Wrap(value), Dropped(wrapped, value)) == Plus(value, wrapped)
  {
  }

  /** Recording keeps the balance however the counter splits the new value. */
  lemma BalancedRecord(p: Position, delta: Metrics, kept: Metrics, wrapped: Metrics)
    requires Balanced(p) && Plus(kept, wrapped) == Plus(Plus(p.waiting, delta), p.wrapped)
    ensures Balanced(p.(waiting := kept, wrapped := wrapped, recorded := Plus(p.recorded, delta)))
  {
  }

  lemma SmallBelow(p: Position, delta: Metrics)
    requires Balanced(p) && Small(Plus(p.recorded, delta))
    ensures Small(p.recorded) && Small(Plus(p.waiting, delta))
  {
  }

  lemma BalancedMove(p: Position)
    requires Balanced(p)
    ensures Balanced(p.(stored := Plus(p.stored, p.draining), draining := NONE))
    ensures Balanced(p.(lost := Plus(p.lost, p.draining), draining := NONE))
    ensures p.draining == NONE ==> Balanced(p.(draining := p.waiting, waiting := NONE))
  {
  }

  /** The position after one more request. */
  function After(p: Position, delta: Metrics): Position {
    var value := Plus(p.waiting, delta);
    p.(waiting := Wrap(value), wrapped := Dropped(p.wrapped, value), recorded := Plus(p.recorded, delta))
  }

  lemma AfterBalanced(p: Position, delta: Metrics)
    requires Balanced(p)
    ensures Balanced(After(p, delta))
  {
    var value := Plus(p.waiting, delta);
    DroppedExactly(p.wrapped, value);
    BalancedRecord(p, delta, Wrap(value), Dropped(p.wrapped, value));
  }

  lemma AfterUnwrapped(p: Position, delta: Metrics)
    requires Balanced(p) && Unwrapped(p)
    ensures Unwrapped(After(p, delta))
  {
    if Small(After(p, delta).recorded) {
      SmallBelow(p, delta);
      WrapSmall(Plus(p.waiting, delta));
    }
  }

  lemma RecordPosition(b: Books, account: Option<Name>, delta: Metrics, u: Name)
    ensures PositionOf(BookRecord(b, account, delta), u)
            == if account == Some(u) && u != "" then After(PositionOf(b, u), delta) else PositionOf(b, u)
  {
  }

  lemma FlushPosition(b: Books, user: Name, statementOk: bool, u: Name)
    requires user in b.draining
    ensures var p := PositionOf(b, u);
            var q := PositionOf(BookFlush(b, user, statementOk), u);
            if u != user then q == p
            else q == p.(stored := Plus(p.stored, p.draining), draining := NONE)
                 || q == p.(lost := Plus(p.lost, p.draining), draining := NONE)
  {
  }

  lemma BookBalances(b: Books, e: BookEvent, u: Name)
    requires CanBook(b, e) && Balanced(PositionOf(b, u)) && Unwrapped(PositionOf(b, u))
    ensures var q := PositionOf(Book(b, e), u); Balanced(q) && Unwrapped(q)
  {
    var p := PositionOf(b, u);
    match e
    case Routing(r) => assert PositionOf(b.(routes := RouteStep(b.routes, r)), u) == p;
    case Recorded(id, requestBytes, responseBytes) =>
      var account, delta := Account(b.routes, id), Delta(requestBytes, responseBytes);
      RecordPosition(b, account, delta, u);
      AfterBalanced(p, delta);
      AfterUnwrapped(p, delta);
    case Drain =>
      BalancedMove(p);
      assert PositionOf(BookDrain(b), u) == p.(draining := p.waiting, waiting := NONE);
    case FlushOne(user, statementOk) =>
      BalancedMove(p);
      FlushPosition(b, user, statementOk, u);
  }

  function Routings(events: seq<BookEvent>): seq<RouteEvent> {
    if events == [] then []
    else
      var last := events[|events| - 1];
      Routings(events[..|events| - 1]) + (if last.Routing? then [last.e] else [])
  }

  /** Reference: what the requests recorded on `u`'s tunnels add up to, each
      attributed by the routes of its own time. The empty user collects what no
      user owns. */
  function History(events: seq<BookEvent>, u: Name): Metrics {
    if events == [] then NONE
    else
      var init, last := events[..|events| - 1], events[|events| - 1];
      var h := History(init, u);
      if last.Recorded? && Account(RouteRun(Routings(init)), last.id) == Some(u)
      then Metrics(h.requests + 1, h.requestBytes + Positive(last.requestBytes),
                   h.responseBytes + Positive(last.responseBytes))
      else h
  }

  /** Reference: what was recorded under the ids of `u`'s own tunnels, each id
      standing for the last tunnel opened under it and not closed since. */
  function OwnerHistory(events: seq<BookEvent>, u: Name): Metrics {
    if events == [] then NONE
    else
      var init, last := events[..|events| - 1], events[|events| - 1];
      var h := OwnerHistory(init, u);
      if last.Recorded? && Held(Routings(init), last.id).Some? && Held(Routings(init), last.id).value.user == u
      then Metrics(h.requests + 1, h.requestBytes + Positive(last.requestBytes),
                   h.responseBytes + Positive(last.responseBytes))
      else h
  }

  lemma {:induction false} OwnersAreAccounts(events: seq<BookEvent>, u: Name)
    requires StablePairs(Routings(events))
    ensures History(events, u) == OwnerHistory(events, u)
  {
    if events != [] {
      var init := events[..|events| - 1];
      OwnersAreAccounts(init, u);
      if events[|events| - 1].Recorded? {
        AccountOfRun(Routings(init), events[|events| - 1].id);
      }
    }
  }

  lemma {:induction false} RoutesOfRun(events: seq<BookEvent>)
    requires BookRun(events).Some?
    ensures BookRun(events).value.routes == RouteRun(Routings(events))
  {
    if events != [] {
      var init, last := events[..|events| - 1], events[|events| - 1];
      RoutesOfRun(init);
      if last.Routing? {
        assert Routings(events)[..|Routings(init)|] == Routings(init);
      } else {
        assert Routings(events) == Routings(init);
      }
    }
  }

  lemma {:induction false} RecordedIsHistory(events: seq<BookEvent>, u: Name)
    requires BookRun(events).Some?
    ensures (if u == "" then BookRun(events).value.unattributed else Of(BookRun(events).value.recorded, u))
               == History(events, u)
    ensures StablePairs(Routings(events)) ==> History(events, u) == OwnerHistory(events, u)
  {
    if StablePairs(Routings(events)) {
      OwnersAreAccounts(events, u);
    }
    if events != [] {
      var init := events[..|events| - 1];
      RecordedIsHistory(init, u);
      RoutesOfRun(init);
    }
  }

  /** Conservation per user, over every run: nothing is lost and nothing counted
      twice, and nothing wraps while the user's traffic fits 64 bits. With stable
      id/subdomain pairs what is counted is the traffic of the user's own tunnels. */
  lemma {:induction false} UserConservation(events: seq<BookEvent>, u: Name)
    requires BookRun(events).Some?
    ensures Balanced(PositionOf(BookRun(events).value, u)) && Unwrapped(PositionOf(BookRun(events).value, u))
    ensures u != "" ==> PositionOf(BookRun(events).value, u).recorded == History(events, u)
    ensures u != "" && StablePairs(Routings(events)) ==>
              PositionOf(BookRun(events).value, u).recorded == OwnerHistory(events, u)
  {
    RecordedIsHistory(events, u);
    if events != [] {
      var init := events[..|events| - 1];
      UserConservation(init, u);
      BookBalances(BookRun(init).value, events[|events| - 1], u);
    }
  }

  // ----- What is lost -----

  /** Reference: the deltas whose flush failed. */
  function Failures(events: seq<BookEvent>, u: Name): Metrics
    requires BookRun(events).Some?
  {
    if events == [] then NONE
    else
      var init, last := events[..|events| - 1], events[|events| - 1];
      var b := BookRun(init).value;
      if last.FlushOne? && last.user == u && !AddSucceeds(Of(b.ledger.totals, u), b.draining[u], last.statementOk)
      then Plus(Failures(init, u), b.draining[u])
      else Failures(init, u)
  }

  lemma {:induction false} LostIsFailures(events: seq<BookEvent>, u: Name)
    requires BookRun(events).Some?
    ensures Of(BookRun(events).value.ledger.lost, u) == Failures(events, u)
  {
    if events != [] {
      LostIsFailures(events[..|events| - 1], u);
    }
  }

  lemma HistoryGrows(events: seq<BookEvent>, u: Name)
    requires events != [] && Storable(History(events, u))
    ensures Storable(History(events[..|events| - 1], u))
  {
  }

  lemma {:induction false} NoFailures(events: seq<BookEvent>, u: Name)
    requires BookRun(events).Some? && u != "" && Storable(History(events, u))
    requires forall e :: e in events && e.FlushOne? && e.user == u ==> e.statementOk
    ensures Failures(events, u) == NONE
  {
    if events != [] {
      var init, last := events[..|events| - 1], events[|events| - 1];
      assert last in events;
      HistoryGrows(events, u);
      NoFailures(init, u);
      UserConservation(init, u);
    }
  }

  /** While the database answers and the user's traffic fits a BIGINT column,
      nothing is lost or dropped: stored, being flushed and waiting traffic are
      together everything the user's tunnels carried. */
  lemma NothingLost(events: seq<BookEvent>, u: Name)
    requires BookRun(events).Some? && u != "" && InBigint(History(events, u))
    requires forall e :: e in events && e.FlushOne? && e.user == u ==> e.statementOk
    ensures var p := PositionOf(BookRun(events).value, u);
            p.lost == NONE && p.wrapped == NONE && Plus(Plus(p.stored, p.draining), p.waiting) == History(events, u)
    ensures StablePairs(Routings(events)) ==> History(events, u) == OwnerHistory(events, u)
  {
    UserConservation(events, u);
    LostIsFailures(events, u);
    NoFailures(events, u);
    AllThere(PositionOf(BookRun(events).value, u));
  }

  lemma AllThere(p: Position)
    requires Balanced(p) && Unwrapped(p) && Storable(p.recorded) && p.lost == NONE
    ensures p.wrapped == NONE && Plus(Plus(p.stored, p.draining), p.waiting) == p.recorded
  {
    assert Small(p.recorded);
  }

  // ----- The global counter -----

  ghost function Sum(m: Totals): Metrics
    decreases |m|
  {
    if m == map[] then NONE
    else
      var u :| u in m;
      MapShrunk(m, u);
      Plus(m[u], Sum(m - {u}))
  }

  /** The sum does not depend on the user it is split at. */
  lemma {:induction false} SumSplit(m: Totals, u: Name)
    requires u in m
    ensures Sum(m) == Plus(m[u], Sum(m - {u}))
    decreases |m|
  {
    var v :| v in m && Sum(m) == (MapShrunk(m, v); Plus(m[v], Sum(m - {v})));
    if u != v {
      MapShrunk(m, v);
      MapShrunk(m, u);
      var mv, mu, rest := m - {v}, m - {u}, m - {u, v};
      assert mv - {u} == rest && mu - {v} == rest;
      SumSplit(mv, u);
      SumSplit(mu, v);
      assert mv[u] == m[u] && mu[v] == m[v];
      assert Sum(mv) == Plus(m[u], Sum(rest));
      assert Sum(mu) == Plus(m[v], Sum(rest));
      assert Sum(m) == Plus(m[v], Sum(mv));
    }
  }

  lemma SumAdd(m: Totals, u: Name, delta: Metrics)
    ensures Sum(m[u := Plus(Of(m, u), delta)]) == Plus(Sum(m), delta)
  {
    var n := m[u := Plus(Of(m, u), delta)];
    SumSplit(n, u);
    if u in m {
      SumSplit(m, u);
      assert n - {u} == m - {u};
    } else {
      assert n - {u} == m;
    }
  }

  lemma WrapPlus(a: Metrics, b: Metrics)
    ensures Wrap(Plus(Wrap(a), b)) == Wrap(Plus(a, b))
  {
  }

  ghost predicate GlobalFits(b: Books) {
    b.counters.traffic == Wrap(Plus(Sum(b.recorded), b.unattributed))
  }

  lemma RecordGlobal(b: Books, account: Option<Name>, delta: Metrics)
    requires GlobalFits(b)
    ensures GlobalFits(BookRecord(b, account, delta))
  {
    if account.Some? {
      WrapPlus(Plus(Sum(b.recorded), b.unattributed), delta);
      if account.value != "" {
        SumAdd(b.recorded, account.value, delta);
        PlusSwap(Sum(b.recorded), b.unattributed, delta);
      } else {
        PlusAssoc(Sum(b.recorded), b.unattributed, delta);
      }
    }
  }

  lemma PlusSwap(a: Metrics, b: Metrics, c: Metrics)
    ensures Plus(Plus(a, b), c) == Plus(Plus(a, c), b)
  {
  }

  lemma PlusAssoc(a: Metrics, b: Metrics, c: Metrics)
    ensures Plus(Plus(a, b), c) == Plus(a, Plus(b, c))
  {
  }

  /** The process-wide counter is the sum over all users plus the traffic of
      tunnels without a user, in 64-bit arithmetic. */
  lemma {:induction false} GlobalCounter(events: seq<BookEvent>)
    requires BookRun(events).Some?
    ensures var b := BookRun(events).value; b.counters.traffic == Wrap(Plus(Sum(b.recorded), b.unattributed))
    ensures BookRun(events).value.unattributed == History(events, "")
    ensures StablePairs(Routings(events)) ==> BookRun(events).value.unattributed == OwnerHistory(events, "")
  {
    RecordedIsHistory(events, "");
    if events != [] {
      var init, last := events[..|events| - 1], events[|events| - 1];
      GlobalCounter(init);
      if last.Recorded? {
        var b := BookRun(init).value;
        RecordGlobal(b, Account(b.routes, last.id), Delta(last.requestBytes, last.responseBytes));
      }
    }
  }
}
