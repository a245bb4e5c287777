/** The sweeping fixed-window rate limiter, the same algorithm twice in the
    source (backend/internal/tunnels/rate_limiter.go with 120 a minute and
    backend/internal/auth/rate_limiter.go with 10 a minute). */
module RateLimiter {
  import opened Protocol

  type Key = string

  const ZERO_TIME: int := 0                      // Go's zero time
  const MAX_DURATION: int := 0x7fff_ffff_ffff_ffff

  datatype Entry = Entry(started: int, count: int)
  datatype Decision = Decision(allowed: bool, retry: int)
  datatype Outcome = Outcome(entries: map<Key, Entry>, decision: Decision)

  /** Nanoseconds between two times, saturating as time.Time.Sub does. */
  function Sub(a: int, b: int): int {
    if a - b > MAX_DURATION then MAX_DURATION
    else if a - b < -MAX_DURATION - 1 then -MAX_DURATION - 1
    else a - b
  }

  predicate Expired(e: Entry, window: int, now: int) { Sub(now, e.started) >= window }

  function Swept(entries: map<Key, Entry>, window: int, now: int): map<Key, Entry> {
    map k | k in entries && !Expired(entries[k], window, now) :: entries[k]
  }

  /** One call of allow. */
  function Admit(limit: int, window: int, entries: map<Key, Entry>, key: Key, now: int): Outcome {
    var live := Swept(entries, window, now);
    var e := if key in live then live[key] else Entry(ZERO_TIME, 0);
    if e.started == ZERO_TIME || Expired(e, window, now) then Outcome(live[key := Entry(now, 1)], Decision(true, 0))
    else if e.count >= limit then Outcome(live, Decision(false, window - Sub(now, e.started)))
    else Outcome(live[key := e.(count := e.count + 1)], Decision(true, 0))
  }

  class Limiter {
    const limit: int
    const window: int
    var entries: map<Key, Entry>

    constructor (limit: int, window: int)
      ensures this.limit == limit && this.window == window && entries == map[]
    {
      this.limit, this.window, entries := limit, window, map[];
    }

    /** Sweeps in whatever order the map yields its keys, then decides. */
    method Allow(key: Key, now: int) returns (allowed: bool, retry: int)
      modifies this
      ensures Outcome(entries, Decision(allowed, retry)) == Admit(limit, window, old(entries), key, now)
    {
      var todo := entries.Keys;
      while todo != {}
        invariant todo <= old(entries).Keys
        invariant forall k :: k in entries ==> k in old(entries) && entries[k] == old(entries)[k]
        invariant forall k :: k in old(entries) ==>
                    (k in entries <==> k in todo || !Expired(old(entries)[k], window, now))
        decreases todo
      {
        var k :| k in todo;
        todo := todo - {k};
        if Expired(entries[k], window, now) {
          entries := entries - {k};
        }
      }
      assert entries == Swept(old(entries), window, now);
      var e := if key in entries then entries[key] else Entry(ZERO_TIME, 0);
      if e.started == ZERO_TIME || Expired(e, window, now) {
        entries := entries[key := Entry(now, 1)];
        return true, 0;
      }
      if e.count >= limit {
        return false, window - Sub(now, e.started);
      }
      entries := entries[key := e.(count := e.count + 1)];
      return true, 0;
    }
  }

  // ----- Histories -----

  datatype Call = Call(key: Key, now: int)

  /** A monotone clock that is past Go's zero time. */
  predicate Clock(calls: seq<Call>) {
    && (forall i :: 0 <= i < |calls| ==> calls[i].now > ZERO_TIME)
    && (forall i, j :: 0 <= i < j < |calls| ==> calls[i].now <= calls[j].now)
  }

  /** The entries after a history of calls, and the decision on its last call. */
  function Entries(limit: int, window: int, calls: seq<Call>): map<Key, Entry> {
    if calls == [] then map[]
    else
      var n := |calls| - 1;
      Admit(limit, window, Entries(limit, window, calls[..n]), calls[n].key, calls[n].now).entries
  }

  function Last(limit: int, window: int, calls: seq<Call>): Decision
    requires calls != []
  {
    var n := |calls| - 1;
    Admit(limit, window, Entries(limit, window, calls[..n]), calls[n].key, calls[n].now).decision
  }

  // ----- Reference: one key on its own, nothing ever evicted -----

  datatype Alone = Alone(entry: Option<Entry>, decision: Decision)

  predicate Fresh(e: Option<Entry>, window: int, now: int) {
    e.None? || now - e.value.started >= window
  }

  function AllowAlone(limit: int, window: int, e: Option<Entry>, now: int): Alone {
    if Fresh(e, window, now) then Alone(Some(Entry(now, 1)), Decision(true, 0))
    else if e.value.count >= limit then Alone(e, Decision(false, e.value.started + window - now))
    else Alone(Some(e.value.(count := e.value.count + 1)), Decision(true, 0))
  }

  function EntryAlone(limit: int, window: int, calls: seq<Call>, key: Key): Option<Entry> {
    if calls == [] then None
    else
      var n := |calls| - 1;
      var before := EntryAlone(limit, window, calls[..n], key);
      if calls[n].key == key then AllowAlone(limit, window, before, calls[n].now).entry else before
  }

  /** A window is a time.Duration. */
  predicate Duration(window: int) { -MAX_DURATION - 1 <= window <= MAX_DURATION }

  function EndTime(calls: seq<Call>): int { if calls == [] then ZERO_TIME else calls[|calls| - 1].now }

  /** The shared, swept entry of a key against the key's own. */
  ghost predicate Matches(window: int, shared: map<Key, Entry>, alone: Option<Entry>, key: Key, now: int) {
    && (key in shared ==> alone == Some(shared[key]))
    && (key !in shared ==> Fresh(alone, window, now))
    && (alone.Some? ==> ZERO_TIME < alone.value.started <= now && alone.value.count >= 1)
  }

  /** Saturation never matters: past `now`, expiry is plain subtraction. */
  lemma ExpiryExact(e: Entry, window: int, now: int)
    requires -0x8000_0000_0000_0000 <= window < 0x8000_0000_0000_0000 && e.started <= now
    ensures Expired(e, window, now) <==> now - e.started >= window
    ensures !Expired(e, window, now) ==> window - Sub(now, e.started) == e.started + window - now
  {
  }

  lemma AllowMatches(limit: int, window: int, shared: map<Key, Entry>, alone: Option<Entry>, key: Key, now: int,
                     call: Call)
    requires Duration(window) && Matches(window, shared, alone, key, now) && call.now >= now && call.now > ZERO_TIME
    ensures var after := Admit(limit, window, shared, call.key, call.now);
            && (call.key == key ==>
                  && after.decision == AllowAlone(limit, window, alone, call.now).decision
                  && Matches(window, after.entries, AllowAlone(limit, window, alone, call.now).entry, key, call.now))
            && (call.key != key ==> Matches(window, after.entries, alone, key, call.now))
  {
    if key in shared {
      ExpiryExact(shared[key], window, call.now);
    }
  }

  lemma {:induction false} HistoryMatches(limit: int, window: int, calls: seq<Call>, key: Key)
    requires Duration(window) && Clock(calls)
    ensures Matches(window, Entries(limit, window, calls), EntryAlone(limit, window, calls, key), key, EndTime(calls))
  {
    if calls != [] {
      var init, last := calls[..|calls| - 1], calls[|calls| - 1];
      HistoryMatches(limit, window, init, key);
      assert EndTime(init) <= last.now;
      AllowMatches(limit, window, Entries(limit, window, init), EntryAlone(limit, window, init, key), key,
                   EndTime(init), last);
    }
  }

  /** Refinement: in every history the shared, sweeping limiter decides each call
      as a limiter that only ever saw that key would. */
  lemma DecidesAsAlone(limit: int, window: int, calls: seq<Call>)
    requires Duration(window) && Clock(calls) && calls != []
    ensures var n := |calls| - 1;
            Last(limit, window, calls)
            == AllowAlone(limit, window, EntryAlone(limit, window, calls[..n], calls[n].key), calls[n].now).decision
  {
    var init, last := calls[..|calls| - 1], calls[|calls| - 1];
    HistoryMatches(limit, window, init, last.key);
    assert EndTime(init) <= last.now;
    AllowMatches(limit, window, Entries(limit, window, init), EntryAlone(limit, window, init, last.key), last.key,
                 EndTime(init), last);
  }

  /** The table holds exactly the keys whose window is still running: a call leaves
      behind nothing that has expired, however long ago its key was last seen, and
      takes away nothing that has not. */
  lemma HoldsExactly(limit: int, window: int, calls: seq<Call>, key: Key)
    requires Duration(window) && window > 0 && Clock(calls)
    ensures key in Entries(limit, window, calls) <==>
              EntryAlone(limit, window, calls, key).Some?
              && EndTime(calls) < EntryAlone(limit, window, calls, key).value.started + window
  {
    HistoryMatches(limit, window, calls, key);
    if calls != [] {
      var init, last := calls[..|calls| - 1], calls[|calls| - 1];
      HistoryMatches(limit, window, init, key);
      assert EndTime(init) <= last.now;
      if key in Entries(limit, window, init) {
        ExpiryExact(Entries(limit, window, init)[key], window, last.now);
      }
    }
  }

  /** An allowed call is told to retry at once, a denied one to wait, but never for
      longer than a window. */
  lemma RetryRange(limit: int, window: int, calls: seq<Call>)
    requires Duration(window) && Clock(calls) && calls != []
    ensures var d := Last(limit, window, calls); if d.allowed then d.retry == 0 else 0 < d.retry <= window
  {
    var init, last := calls[..|calls| - 1], calls[|calls| - 1];
    DecidesAsAlone(limit, window, calls);
    HistoryMatches(limit, window, init, last.key);
    assert EndTime(init) <= last.now;
  }

  // ----- Rate bound -----

  /** Calls one window admits: a limit below one still lets one through. */
  function Burst(limit: int): int { if limit < 1 then 1 else limit }

  /** The most calls any interval one window long can contain. A window of one
      nanosecond cannot be straddled; one that is not positive is empty. */
  function Peak(limit: int, window: int): int {
    if window <= 0 then 0 else if window == 1 then Burst(limit) else 2 * Burst(limit) - 1
  }

  /** How many calls for `key` at times in [from, to) were allowed. */
  function AllowedIn(limit: int, window: int, calls: seq<Call>, key: Key, from: int, to: int): nat {
    if calls == [] then 0
    else
      var n := |calls| - 1;
      AllowedIn(limit, window, calls[..n], key, from, to)
      + (if calls[n].key == key && from <= calls[n].now < to && Last(limit, window, calls).allowed then 1 else 0)
  }

  /** What the key's current window says about the calls counted so far. */
  ghost predicate CountFits(limit: int, window: int, e: Option<Entry>, from: int, counted: nat, end: int) {
    (counted > 0 ==> from <= end) &&
    match e
    case None => counted == 0
    case Some(Entry(started, count)) =>
      && 1 <= count <= Burst(limit)
      && (started < from ==> counted <= count - 1)
      && (from <= started < from + window ==> counted <= Burst(limit) - 1 + count)
      && counted <= Peak(limit, window)
      && (window == 1 ==> (started < from ==> counted == 0) && (started == from ==> counted <= count))
  }

  lemma CountStep(limit: int, window: int, e: Option<Entry>, from: int, counted: nat, end: int, now: int)
    requires window > 0 && CountFits(limit, window, e, from, counted, end)
             && (e.Some? ==> e.value.started <= end <= now)
    ensures var after := AllowAlone(limit, window, e, now);
            CountFits(limit, window, after.entry, from,
                      counted + (if from <= now < from + window && after.decision.allowed then 1 else 0), now)
  {
  }

  lemma {:induction false} CountInvariant(limit: int, window: int, calls: seq<Call>, key: Key, from: int)
    requires window > 0 && Duration(window) && Clock(calls)
    ensures CountFits(limit, window, EntryAlone(limit, window, calls, key), from,
                      AllowedIn(limit, window, calls, key, from, from + window), EndTime(calls))
  {
    if calls != [] {
      var init, last := calls[..|calls| - 1], calls[|calls| - 1];
      CountInvariant(limit, window, init, key, from);
      HistoryMatches(limit, window, init, key);
      DecidesAsAlone(limit, window, calls);
      assert EndTime(init) <= last.now;
      CountStep(limit, window, EntryAlone(limit, window, init, key), from,
                AllowedIn(limit, window, init, key, from, from + window), EndTime(init), last.now);
    }
  }

  lemma {:induction false} EmptyInterval(limit: int, window: int, calls: seq<Call>, key: Key, from: int, to: int)
    requires to <= from
    ensures AllowedIn(limit, window, calls, key, from, to) == 0
  {
    if calls != [] {
      EmptyInterval(limit, window, calls[..|calls| - 1], key, from, to);
    }
  }

  /** Rate bound: whatever the history, limit and window, any half-open interval
      one window long contains at most 2*limit - 1 allowed calls of a key, fewer
      where Peak says so. */
  lemma RateBound(limit: int, window: int, calls: seq<Call>, key: Key, from: int)
    requires Duration(window) && Clock(calls)
    ensures AllowedIn(limit, window, calls, key, from, from + window) <= Peak(limit, window)
  {
    if window <= 0 {
      EmptyInterval(limit, window, calls, key, from, from + window);
    } else {
      CountInvariant(limit, window, calls, key, from);
    }
  }

  lemma {:induction false} WindowCount(limit: int, window: int, calls: seq<Call>, key: Key)
    requires Duration(window) && Clock(calls)
    ensures var e := EntryAlone(limit, window, calls, key);
            && (e.None? ==> forall from, to :: AllowedIn(limit, window, calls, key, from, to) == 0)
            && (e.Some? ==> 1 <= e.value.count <= Burst(limit)
                            && e.value.started <= EndTime(calls)
                            && (window > 0 ==> forall to :: to > EndTime(calls) ==>
                                  AllowedIn(limit, window, calls, key, e.value.started, to) == e.value.count))
  {
    if calls != [] {
      var init, last := calls[..|calls| - 1], calls[|calls| - 1];
      WindowCount(limit, window, init, key);
      HistoryMatches(limit, window, init, key);
      DecidesAsAlone(limit, window, calls);
      assert EndTime(init) <= last.now;
      if last.key == key && Fresh(EntryAlone(limit, window, init, key), window, last.now) && window > 0 {
        forall to | to > last.now ensures AllowedIn(limit, window, init, key, last.now, to) == 0 {
          NoneAfter(limit, window, init, key, last.now, to);
        }
      }
    }
  }

  lemma {:induction false} NoneAfter(limit: int, window: int, calls: seq<Call>, key: Key, from: int, to: int)
    requires Duration(window) && Clock(calls) && window > 0
    requires var e := EntryAlone(limit, window, calls, key); Fresh(e, window, from)
    ensures AllowedIn(limit, window, calls, key, from, to) == 0
  {
    if calls != [] {
      var init, last := calls[..|calls| - 1], calls[|calls| - 1];
      HistoryMatches(limit, window, init, key);
      DecidesAsAlone(limit, window, calls);
      assert EndTime(init) <= last.now;
      NoneAfter(limit, window, init, key, from, to);
    }
  }

  /** At most `limit` calls are allowed within one recorded window, and its
      counter says exactly how many. */
  lemma WithinWindow(limit: int, window: int, calls: seq<Call>, key: Key)
    requires Duration(window) && Clock(calls) && window > 0 && EntryAlone(limit, window, calls, key).Some?
    ensures var e := EntryAlone(limit, window, calls, key).value;
            AllowedIn(limit, window, calls, key, e.started, EndTime(calls) + 1) == e.count <= Burst(limit)
  {
    WindowCount(limit, window, calls, key);
  }

  // ----- The bound is tight -----

  /** One early call, `n` more at the last instant of its window, then `m` as
      soon as that window has expired. */
  function WorstCase(window: nat, key: Key, n: nat, m: nat): seq<Call> {
    if m > 0 then WorstCase(window, key, n, m - 1) + [Call(key, window + 1)]
    else if n > 0 then WorstCase(window, key, n - 1, 0) + [Call(key, window)]
    else [Call(key, 1)]
  }

  lemma ClockPush(calls: seq<Call>, last: Call)
    requires Clock(calls) && last.now > ZERO_TIME && forall c :: c in calls ==> c.now <= last.now
    ensures Clock(calls + [last])
  {
    assert forall i :: 0 <= i < |calls| ==> calls[i] in calls;
  }

  lemma {:induction false} WorstCaseClock(window: nat, key: Key, n: nat, m: nat)
    requires window >= 2
    ensures Clock(WorstCase(window, key, n, m))
    ensures forall c :: c in WorstCase(window, key, n, m) ==> c.now <= (if m > 0 then window + 1 else window)
    decreases m, n
  {
    if m > 0 {
      WorstCaseClock(window, key, n, m - 1);
      ClockPush(WorstCase(window, key, n, m - 1), Call(key, window + 1));
    } else if n > 0 {
      WorstCaseClock(window, key, n - 1, 0);
      ClockPush(WorstCase(window, key, n - 1, 0), Call(key, window));
    }
  }

  lemma OneMore(limit: int, window: int, before: seq<Call>, key: Key, now: int, from: int, to: int)
    requires Duration(window) && Clock(before + [Call(key, now)])
    ensures var after := before + [Call(key, now)];
            var alone := AllowAlone(limit, window, EntryAlone(limit, window, before, key), now);
            && EntryAlone(limit, window, after, key) == alone.entry
            && AllowedIn(limit, window, after, key, from, to)
               == AllowedIn(limit, window, before, key, from, to)
                   + (if from <= now < to && alone.decision.allowed then 1 else 0)
  {
    var after := before + [Call(key, now)];
    assert after[..|after| - 1] == before;
    DecidesAsAlone(limit, window, after);
  }

  /** After `calls`, `key` has entry `e` and `counted` allowed calls one window long from `from`. */
  ghost predicate Stands(limit: int, window: nat, calls: seq<Call>, key: Key, e: Entry, from: nat, counted: nat) {
    && EntryAlone(limit, window, calls, key) == Some(e)
    && AllowedIn(limit, window, calls, key, from, from + window) == counted
  }

  lemma StandsMore(limit: int, window: nat, before: seq<Call>, key: Key, now: nat, e: Entry, from: nat, counted: nat,
                   next: Entry)
    requires Duration(window) && Clock(before + [Call(key, now)]) && from <= now < from + window
    requires Stands(limit, window, before, key, e, from, counted)
    requires AllowAlone(limit, window, Some(e), now) == Alone(Some(next), Decision(true, 0))
    ensures Stands(limit, window, before + [Call(key, now)], key, next, from, counted + 1)
  {
    OneMore(limit, window, before, key, now, from, from + window);
  }

  lemma FirstCall(limit: int, window: nat, key: Key, from: nat)
    requires 0 < window <= MAX_DURATION && 1 <= from
    ensures Stands(limit, window, [Call(key, 1)], key, Entry(1, 1), from, if from == 1 then 1 else 0)
  {
    var none: seq<Call> := [];
    assert none + [Call(key, 1)] == [Call(key, 1)];
    OneMore(limit, window, none, key, 1, from, from + window);
  }

  lemma {:induction false} WorstCaseFirst(limit: int, window: nat, key: Key, n: nat)
    requires 2 <= window <= MAX_DURATION && n < Burst(limit)
    ensures Stands(limit, window, WorstCase(window, key, n, 0), key, Entry(1, n + 1), window, n)
  {
    if n > 0 {
      assert Clock(WorstCase(window, key, n - 1, 0) + [Call(key, window)]) by {
        WorstCaseClock(window, key, n, 0);
      }
      WorstCaseFirst(limit, window, key, n - 1);
      StandsMore(limit, window, WorstCase(window, key, n - 1, 0), key, window, Entry(1, n), window, n - 1,
                 Entry(1, n + 1));
    } else {
      FirstCall(limit, window, key, window);
    }
  }

  lemma WorstCaseTurn(limit: int, window: nat, key: Key)
    requires 2 <= window <= MAX_DURATION
    ensures Stands(limit, window, WorstCase(window, key, Burst(limit) - 1, 1), key, Entry(window + 1, 1), window,
                   Burst(limit))
  {
    var n := Burst(limit) - 1;
    assert Clock(WorstCase(window, key, n, 0) + [Call(key, window + 1)]) by {
      WorstCaseClock(window, key, n, 1);
    }
    WorstCaseFirst(limit, window, key, n);
    StandsMore(limit, window, WorstCase(window, key, n, 0), key, window + 1, Entry(1, n + 1), window, n,
               Entry(window + 1, 1));
  }

  lemma {:induction false} WorstCaseSecond(limit: int, window: nat, key: Key, m: nat)
    requires 2 <= window <= MAX_DURATION && 0 < m <= Burst(limit)
    ensures Stands(limit, window, WorstCase(window, key, Burst(limit) - 1, m), key, Entry(window + 1, m), window,
                   Burst(limit) - 1 + m)
  {
    var n := Burst(limit) - 1;
    if m > 1 {
      var before := WorstCase(window, key, n, m - 1);
      assert Clock(before + [Call(key, window + 1)]) by {
        WorstCaseClock(window, key, n, m);
      }
      WorstCaseSecond(limit, window, key, m - 1);
      StandsMore(limit, window, before, key, window + 1, Entry(window + 1, m - 1), window, n + m - 1,
                 Entry(window + 1, m));
    } else {
      WorstCaseTurn(limit, window, key);
    }
  }

  /** All calls at one instant, for a window of one nanosecond. */
  function Instant(key: Key, n: nat): seq<Call> {
    if n == 0 then [] else Instant(key, n - 1) + [Call(key, 1)]
  }

  lemma {:induction false} InstantClock(key: Key, n: nat)
    ensures Clock(Instant(key, n)) && forall c :: c in Instant(key, n) ==> c.now == 1
  {
    if n > 0 {
      InstantClock(key, n - 1);
      ClockPush(Instant(key, n - 1), Call(key, 1));
    }
  }

  lemma {:induction false} InstantFull(limit: int, window: nat, key: Key, n: nat)
    requires window == 1 && 0 < n <= Burst(limit)
    ensures Stands(limit, window, Instant(key, n), key, Entry(1, n), 1, n)
  {
    var before := Instant(key, n - 1);
    assert Clock(before + [Call(key, 1)]) by {
      InstantClock(key, n);
    }
    if n > 1 {
      InstantFull(limit, window, key, n - 1);
      StandsMore(limit, window, before, key, 1, Entry(1, n - 1), 1, n - 1, Entry(1, n));
    } else {
      assert Instant(key, 1) == [Call(key, 1)];
      FirstCall(limit, window, key, 1);
    }
  }

  lemma InstantPeak(limit: int, window: nat, key: Key) returns (calls: seq<Call>)
    requires window == 1
    ensures Clock(calls) && AllowedIn(limit, window, calls, key, 1, 1 + window) == Peak(limit, window)
  {
    calls := Instant(key, Burst(limit));
    InstantClock(key, Burst(limit));
    InstantFull(limit, window, key, Burst(limit));
  }

  lemma WidePeak(limit: int, window: nat, key: Key) returns (calls: seq<Call>)
    requires 2 <= window <= MAX_DURATION
    ensures Clock(calls) && AllowedIn(limit, window, calls, key, window, window + window) == Peak(limit, window)
  {
    var b := Burst(limit);
    calls := WorstCase(window, key, b - 1, b);
    WorstCaseSecond(limit, window, key, b);
    assert Clock(calls) by {
      WorstCaseClock(window, key, b - 1, b);
    }
  }

  /** No smaller bound holds: for every limit and every window some history has an
      interval with exactly that many allowed calls. */
  lemma RateBoundTight(limit: int, window: int, key: Key) returns (calls: seq<Call>, from: int)
    requires Duration(window)
    ensures Clock(calls) && AllowedIn(limit, window, calls, key, from, from + window) == Peak(limit, window)
  {
    if window <= 0 {
      calls, from := [], 0;
    } else if window == 1 {
      calls := InstantPeak(limit, window, key);
      from := 1;
    } else {
      calls := WidePeak(limit, window, key);
      from := window;
    }
  }

  // ----- Retry times are exact -----

  /** Nothing changes the entry of a key that is out of budget before it expires. */
  lemma {:induction false} Exhausted(limit: int, window: int, calls: seq<Call>, more: seq<Call>, key: Key, e: Entry)
    requires EntryAlone(limit, window, calls, key) == Some(e) && e.count >= limit
    requires forall i :: 0 <= i < |more| && more[i].key == key ==> more[i].now < e.started + window
    ensures EntryAlone(limit, window, calls + more, key) == Some(e)
    decreases |more|
  {
    if more == [] {
      assert calls + more == calls;
    } else {
      var init := more[..|more| - 1];
      Exhausted(limit, window, calls, init, key, e);
      assert (calls + more)[..|calls + more| - 1] == calls + init;
    }
  }

  /** A denial at t with retry r: until t + r every call of the key is denied,
      whatever other calls come in between, and the first one from t + r on is
      allowed. */
  lemma RetryExact(limit: int, window: int, calls: seq<Call>, more: seq<Call>, now: int)
    requires calls != [] && Duration(window)
    requires var last := calls[|calls| - 1]; Clock(calls + more + [Call(last.key, now)])
    requires Clock(calls) && !Last(limit, window, calls).allowed
    requires var last := calls[|calls| - 1];
             forall i :: 0 <= i < |more| && more[i].key == last.key
                 ==> more[i].now < last.now + Last(limit, window, calls).retry
    ensures var last := calls[|calls| - 1];
            var retry := Last(limit, window, calls).retry;
            Last(limit, window, calls + more + [Call(last.key, now)]).allowed <==> now >= last.now + retry
  {
    var init, last := calls[..|calls| - 1], calls[|calls| - 1];
    DecidesAsAlone(limit, window, calls);
    var e := EntryAlone(limit, window, init, last.key).value;
    Exhausted(limit, window, calls, more, last.key, e);
    var all := calls + more + [Call(last.key, now)];
    assert all[..|all| - 1] == calls + more;
    DecidesAsAlone(limit, window, all);
  }
}
