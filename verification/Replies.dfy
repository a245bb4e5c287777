/** Reply correlation in the session manager, at the granularity of its lock:
    every event is one critical section or one send made after it
    (backend/internal/gateway/session_manager.go). */
module Replies {
  import opened Protocol

  type Sid = string

  const DISCONNECTED := Response(0, map[], [], "tunnel agent disconnected")

  datatype Waiter = Waiter(session: Sid, channel: nat)
  datatype Letter = Letter(channel: nat, response: Response)
  /** A reply channel of capacity one: everything sent into it, and how much of that was received. */
  datatype Mailbox = Mailbox(sent: seq<Response>, received: nat)

  /** `inflight` holds replies taken under the lock whose send has not happened
      yet; `withdrawn` the channels whose request was cancelled or replaced. */
  datatype Manager = Manager(
    sessions: set<Sid>, pending: map<Id, Waiter>, connections: nat, disconnections: nat, replaced: nat,
    boxes: seq<Mailbox>, inflight: seq<Letter>, withdrawn: set<nat>)

  datatype ManagerEvent =
    | Register(sid: Sid)
    | Remove(sid: Sid, order: seq<Id>)        // critical section; `order` is the map iteration order
    | Await(sid: Sid, id: Id)                 // RegisterRequest
    | Withdraw(id: Id)                        // CancelRequest
    | Deliver(id: Id, response: Response)     // critical section of DeliverResponse
    | Post(i: nat)                            // a send performed outside the lock
    | Collect(channel: nat)                   // the handler receives

  /** `order` lists the requests pending on `sid`, each once. */
  predicate Enumerates(order: seq<Id>, pending: map<Id, Waiter>, sid: Sid) {
    && (forall i, j :: 0 <= i < j < |order| ==> order[i] != order[j])
    && (forall id :: id in order ==> id in pending && pending[id].session == sid)
    && (forall id :: id in pending && pending[id].session == sid ==> id in order)
  }

  function Unread(b: Mailbox): int { |b.sent| - b.received }

  predicate CanDo(m: Manager, e: ManagerEvent) {
    match e
    case Remove(sid, order) => Enumerates(order, m.pending, sid)
    case Post(i) => i < |m.inflight| && m.inflight[i].channel < |m.boxes| && Unread(m.boxes[m.inflight[i].channel]) < 1
    case Collect(channel) => channel < |m.boxes| && m.boxes[channel].received < |m.boxes[channel].sent|
    case _ => true
  }

  /** Take one request out of the pending map with the reply it is to get. */
  function TakeOut(m: Manager, id: Id, response: Response): Manager {
    if id in m.pending
    then m.(pending := m.pending - {id}, inflight := m.inflight + [Letter(m.pending[id].channel, response)])
    else m
  }

  function Evict(m: Manager, order: seq<Id>): Manager {
    if order == [] then m else TakeOut(Evict(m, order[..|order| - 1]), order[|order| - 1], DISCONNECTED)
  }

  function Closed(m: Manager, sid: Sid): Manager {
    if sid in m.sessions then m.(sessions := m.sessions - {sid}, disconnections := m.disconnections + 1) else m
  }

  function Withdrawn(m: Manager, id: Id): set<nat> {
    if id in m.pending then m.withdrawn + {m.pending[id].channel} else m.withdrawn
  }

  function Do(m: Manager, e: ManagerEvent): Manager
    requires CanDo(m, e)
  {
    match e
    case Register(sid) =>
      m.(sessions := m.sessions + {sid}, connections := m.connections + 1,
         replaced := if sid in m.sessions then m.replaced + 1 else m.replaced)
    case Remove(sid, order) =>
      Evict(Closed(m, sid), order)
    case Await(sid, id) =>
      m.(pending := m.pending[id := Waiter(sid, |m.boxes|)], boxes := m.boxes + [Mailbox([], 0)],
         withdrawn := Withdrawn(m, id))
    case Withdraw(id) => m.(pending := m.pending - {id}, withdrawn := Withdrawn(m, id))
    case Deliver(id, response) => TakeOut(m, id, response)
    case Post(i) =>
      var l := m.inflight[i];
      var b := m.boxes[l.channel];
      m.(inflight := m.inflight[..i] + m.inflight[i + 1..],
         boxes := m.boxes[l.channel := b.(sent := b.sent + [l.response])])
    case Collect(channel) =>
      m.(boxes := m.boxes[channel := m.boxes[channel].(received := m.boxes[channel].received + 1)])
  }

  const EMPTY := Manager({}, map[], 0, 0, 0, [], [], {})

  function Run(events: seq<ManagerEvent>): Option<Manager> {
    if events == [] then Some(EMPTY)
    else
      var before := Run(events[..|events| - 1]);
      if before.Some? && CanDo(before.value, events[|events| - 1])
      then Some(Do(before.value, events[|events| - 1])) else None
  }

  // ----- Conservation of replies -----

  function Flying(letters: seq<Letter>, channel: nat): nat {
    if letters == [] then 0
    else Flying(letters[..|letters| - 1], channel) + (if letters[|letters| - 1].channel == channel then 1 else 0)
  }

  ghost predicate Awaited(pending: map<Id, Waiter>, channel: nat) {
    exists id :: id in pending && pending[id].channel == channel
  }

  /** Where the one reply a channel may ever carry is: still awaited, taken and
      on its way, sent, or given up. */
  ghost function Balance(m: Manager, channel: nat): nat
    requires channel < |m.boxes|
  {
    (if Awaited(m.pending, channel) then 1 else 0) + Flying(m.inflight, channel)
    + |m.boxes[channel].sent| + (if channel in m.withdrawn then 1 else 0)
  }

  ghost predicate BoxesInv(m: Manager) {
    && (forall id :: id in m.pending ==> m.pending[id].channel < |m.boxes|)
    && (forall a, b :: a in m.pending && b in m.pending && m.pending[a].channel == m.pending[b].channel ==> a == b)
    && (forall l :: l in m.inflight ==> l.channel < |m.boxes|)
    && (forall ch :: ch in m.withdrawn ==> ch < |m.boxes|)
    && (forall ch :: 0 <= ch < |m.boxes| ==> Balance(m, ch) == 1 && m.boxes[ch].received <= |m.boxes[ch].sent|)
  }

  ghost predicate CountersInv(m: Manager) {
    m.connections == m.disconnections + |m.sessions| + m.replaced
  }

  ghost predicate ManagerInv(m: Manager) {
    BoxesInv(m) && CountersInv(m)
  }

  /** Sessions and counters do not matter to replies. */
  lemma SessionsFree(m: Manager, n: Manager)
    requires BoxesInv(m)
    requires n.pending == m.pending && n.boxes == m.boxes && n.inflight == m.inflight && n.withdrawn == m.withdrawn
    ensures BoxesInv(n)
  {
    assert forall ch :: 0 <= ch < |m.boxes| ==> Balance(n, ch) == Balance(m, ch);
  }

  lemma CollectKeeps(m: Manager, channel: nat)
    requires BoxesInv(m) && CanDo(m, Collect(channel))
    ensures BoxesInv(Do(m, Collect(channel)))
  {
    assert forall ch :: 0 <= ch < |m.boxes| ==> Balance(Do(m, Collect(channel)), ch) == Balance(m, ch);
  }

  lemma FlyingPush(letters: seq<Letter>, l: Letter, channel: nat)
    ensures Flying(letters + [l], channel) == Flying(letters, channel) + (if l.channel == channel then 1 else 0)
  {
    assert (letters + [l])[..|letters|] == letters;
  }

  lemma {:induction false} FlyingAbsent(letters: seq<Letter>, channel: nat)
    requires forall l :: l in letters ==> l.channel != channel
    ensures Flying(letters, channel) == 0
  {
    if letters != [] {
      FlyingAbsent(letters[..|letters| - 1], channel);
    }
  }

  lemma {:induction false} FlyingDrop(letters: seq<Letter>, i: nat, channel: nat)
    requires i < |letters|
    ensures Flying(letters[..i] + letters[i + 1..], channel)
         == Flying(letters, channel) - (if letters[i].channel == channel then 1 else 0)
    ensures Flying(letters, channel) >= (if letters[i].channel == channel then 1 else 0)
    decreases |letters|
  {
    var n := |letters| - 1;
    var init := letters[..n];
    if i < n {
      FlyingDrop(init, i, channel);
      var rest := init[..i] + init[i + 1..];
      assert letters[..i] + letters[i + 1..] == rest + [letters[n]];
      FlyingPush(rest, letters[n], channel);
    } else {
      assert letters[..i] + letters[i + 1..] == init;
    }
  }

  lemma TakeOutAwaited(pending: map<Id, Waiter>, id: Id, channel: nat)
    requires id in pending
    requires forall a, b :: a in pending && b in pending && pending[a].channel == pending[b].channel ==> a == b
    ensures Awaited(pending - {id}, channel) <==> Awaited(pending, channel) && pending[id].channel != channel
  {
    if Awaited(pending, channel) && pending[id].channel != channel {
      var a :| a in pending && pending[a].channel == channel;
      assert a in pending - {id};
    }
  }

  lemma TakeOutKeeps(m: Manager, id: Id, response: Response)
    requires ManagerInv(m)
    ensures ManagerInv(TakeOut(m, id, response))
  {
    if id in m.pending {
      var n := TakeOut(m, id, response);
      forall ch | 0 <= ch < |n.boxes| ensures Balance(n, ch) == 1 {
        TakeOutAwaited(m.pending, id, ch);
        FlyingPush(m.inflight, Letter(m.pending[id].channel, response), ch);
        assert Balance(m, ch) == 1;
        assert Awaited(m.pending, m.pending[id].channel);
      }
    }
  }

  lemma {:induction false} EvictKeeps(m: Manager, order: seq<Id>)
    requires ManagerInv(m)
    ensures ManagerInv(Evict(m, order))
  {
    if order != [] {
      EvictKeeps(m, order[..|order| - 1]);
      TakeOutKeeps(Evict(m, order[..|order| - 1]), order[|order| - 1], DISCONNECTED);
    }
  }

  lemma WithdrawKeeps(m: Manager, id: Id)
    requires ManagerInv(m)
    ensures ManagerInv(Do(m, Withdraw(id)))
  {
    var n := Do(m, Withdraw(id));
    if id in m.pending {
      forall ch | 0 <= ch < |n.boxes| ensures Balance(n, ch) == 1 {
        TakeOutAwaited(m.pending, id, ch);
        assert Balance(m, ch) == 1;
        assert Awaited(m.pending, m.pending[id].channel);
      }
    } else {
      assert n == m;
    }
  }

  lemma OpenKeeps(m: Manager, sid: Sid, id: Id)
    requires ManagerInv(m) && id !in m.pending
    ensures ManagerInv(Do(m, Await(sid, id)))
  {
    var n := Do(m, Await(sid, id));
    var newest := |m.boxes|;
    forall ch | 0 <= ch < |n.boxes| ensures Balance(n, ch) == 1 {
      if ch < newest {
        assert Balance(m, ch) == 1;
        if Awaited(m.pending, ch) {
          var a :| a in m.pending && m.pending[a].channel == ch;
          assert n.pending[a].channel == ch;
        }
        assert Awaited(n.pending, ch) <==> Awaited(m.pending, ch);
      } else {
        FlyingAbsent(m.inflight, ch);
        assert n.pending[id].channel == ch;
      }
    }
  }

  lemma AwaitKeeps(m: Manager, sid: Sid, id: Id)
    requires ManagerInv(m)
    ensures ManagerInv(Do(m, Await(sid, id)))
  {
    var cleared := Do(m, Withdraw(id));
    WithdrawKeeps(m, id);
    OpenKeeps(cleared, sid, id);
    assert cleared.pending[id := Waiter(sid, |m.boxes|)] == m.pending[id := Waiter(sid, |m.boxes|)];
    assert Do(m, Await(sid, id)) == Do(cleared, Await(sid, id));
  }

  lemma PostKeeps(m: Manager, i: nat)
    requires ManagerInv(m) && CanDo(m, Post(i))
    ensures ManagerInv(Do(m, Post(i)))
  {
    var n := Do(m, Post(i));
    forall ch | 0 <= ch < |n.boxes| ensures Balance(n, ch) == 1 && n.boxes[ch].received <= |n.boxes[ch].sent| {
      FlyingDrop(m.inflight, i, ch);
      assert Balance(m, ch) == 1;
    }
  }

  lemma DoKeeps(m: Manager, e: ManagerEvent)
    requires ManagerInv(m) && CanDo(m, e)
    ensures ManagerInv(Do(m, e))
  {
    match e
    case Register(sid) =>
      SessionsFree(m, Do(m, e));
      if sid in m.sessions {
        assert m.sessions + {sid} == m.sessions;
      }
    case Remove(sid, order) =>
      SessionsFree(m, Closed(m, sid));
      EvictKeeps(Closed(m, sid), order);
    case Await(sid, id) => AwaitKeeps(m, sid, id);
    case Withdraw(id) => WithdrawKeeps(m, id);
    case Deliver(id, response) => TakeOutKeeps(m, id, response);
    case Post(i) => PostKeeps(m, i);
    case Collect(channel) => CollectKeeps(m, channel);
  }

  lemma {:induction false} RunKeeps(events: seq<ManagerEvent>)
    requires Run(events).Some?
    ensures ManagerInv(Run(events).value)
  {
    if events != [] {
      var init := events[..|events| - 1];
      RunKeeps(init);
      DoKeeps(Run(init).value, events[|events| - 1]);
    }
  }

  /** Exactly-one reply: in every interleaving, repeated request ids included,
      each channel's single reply is in exactly one place, so no channel ever
      gets two and no reply is lost. */
  lemma ExactlyOneReply(events: seq<ManagerEvent>, channel: nat)
    requires Run(events).Some? && channel < |Run(events).value.boxes|
    ensures Balance(Run(events).value, channel) == 1
    ensures |Run(events).value.boxes[channel].sent| <= 1
  {
    RunKeeps(events);
  }

  /** ... and a send made outside the lock never blocks: the channel is empty. */
  lemma SendsNeverBlock(events: seq<ManagerEvent>, i: nat)
    requires Run(events).Some? && i < |Run(events).value.inflight|
    ensures CanDo(Run(events).value, Post(i))
    ensures var m := Run(events).value; m.boxes[m.inflight[i].channel] == Mailbox([], 0)
  {
    RunKeeps(events);
    PostReady(Run(events).value, i);
  }

  lemma PostReady(m: Manager, i: nat)
    requires ManagerInv(m) && i < |m.inflight|
    ensures CanDo(m, Post(i)) && m.boxes[m.inflight[i].channel] == Mailbox([], 0)
  {
    var ch := m.inflight[i].channel;
    assert m.inflight[i] in m.inflight;
    assert Balance(m, ch) == 1;
    FlyingDrop(m.inflight, i, ch);
  }

  /** Connections balance disconnections plus live sessions, up to registrations
      that reused a live id. */
  lemma CountersBalance(events: seq<ManagerEvent>)
    requires Run(events).Some?
    ensures var m := Run(events).value; m.connections == m.disconnections + |m.sessions| + m.replaced
  {
    RunKeeps(events);
  }

  /** The disconnect replies Remove takes out, in the order of the walk. */
  function Farewells(pending: map<Id, Waiter>, order: seq<Id>): (letters: seq<Letter>)
    requires forall id :: id in order ==> id in pending
    ensures |letters| == |order|
    ensures forall k :: 0 <= k < |order| ==> letters[k] == Letter(pending[order[k]].channel, DISCONNECTED)
  {
    if order == [] then []
    else
      var n := |order| - 1;
      Farewells(pending, order[..n]) + [Letter(pending[order[n]].channel, DISCONNECTED)]
  }

  lemma TakeOutLast(m: Manager, pending: map<Id, Waiter>, order: seq<Id>, last: Id)
    requires m.pending == pending - (set id | id in order) && last in pending && last !in order
    ensures last in m.pending && m.pending[last] == pending[last]
    ensures m.pending - {last} == pending - (set id | id in order + [last])
  {
  }

  lemma {:induction false} EvictEffect(m: Manager, order: seq<Id>)
    requires forall i, j :: 0 <= i < j < |order| ==> order[i] != order[j]
    requires forall id :: id in order ==> id in m.pending
    ensures Evict(m, order)
            == m.(pending := m.pending - (set id | id in order), inflight := m.inflight + Farewells(m.pending, order))
  {
    if order != [] {
      var init, last := order[..|order| - 1], order[|order| - 1];
      assert order == init + [last];
      EvictEffect(m, init);
      TakeOutLast(Evict(m, init), m.pending, init, last);
    } else {
      assert m.pending - (set id | id in order) == m.pending;
    }
  }

  /** Remove(s) hands every request pending on `s`, and no other, a disconnect
      reply, whatever order the map is walked in. */
  lemma RemoveEffect(m: Manager, sid: Sid, order: seq<Id>)
    requires CanDo(m, Remove(sid, order))
    ensures var n := Do(m, Remove(sid, order));
            && n.sessions == m.sessions - {sid} && n.replaced == m.replaced
            && n.pending == (map id | id in m.pending && m.pending[id].session != sid :: m.pending[id])
            && n.inflight == m.inflight + Farewells(m.pending, order)
            && n.boxes == m.boxes && n.withdrawn == m.withdrawn
            && (forall id :: id in m.pending && m.pending[id].session == sid
                  ==> Letter(m.pending[id].channel, DISCONNECTED) in n.inflight)
            && (forall l :: l in n.inflight && l !in m.inflight ==>
                  exists id :: id in m.pending && m.pending[id].session == sid
                      && l == Letter(m.pending[id].channel, DISCONNECTED))
  {
    EvictEffect(Closed(m, sid), order);
    var letters := Farewells(m.pending, order);
    forall id | id in m.pending && m.pending[id].session == sid
        ensures Letter(m.pending[id].channel, DISCONNECTED) in letters {
      var k :| 0 <= k < |order| && order[k] == id;
      assert letters[k] == Letter(m.pending[id].channel, DISCONNECTED);
    }
    forall l | l in letters
      ensures exists id :: id in m.pending && m.pending[id].session == sid
                && l == Letter(m.pending[id].channel, DISCONNECTED)
    {
      var k :| 0 <= k < |order| && letters[k] == l;
      assert order[k] in order;
    }
  }

  lemma RunPush(events: seq<ManagerEvent>, e: ManagerEvent)
    requires Run(events).Some? && CanDo(Run(events).value, e)
    ensures Run(events + [e]) == Some(Do(Run(events).value, e))
  {
    assert (events + [e])[..|events|] == events;
  }
}
