/** The session manager as it runs: maps reassigned by the methods, replies sent
    into channels of capacity one (backend/internal/gateway/session_manager.go).
    Every critical section and every send outside the lock is one event of
    Replies, so whatever that module proves of runs holds of the object, and its
    theorem that sends never block is what lets each send here be made. */
module SessionManagers {
  import opened Protocol
  import opened Replies

  class ReplyChannel {
    var buffer: seq<Response>

    constructor ()
      ensures buffer == []
    {
      buffer := [];
    }

    /** A send that finds room, as every caller here must prove. */
    method Send(response: Response)
      requires buffer == []
      modifies this
      ensures buffer == [response]
    {
      buffer := [response];
    }

    method Receive() returns (response: Response)
      requires buffer != []
      modifies this
      ensures response == old(buffer)[0] && buffer == old(buffer)[1..]
    {
      response, buffer := buffer[0], buffer[1..];
    }
  }

  datatype PendingRequest = PendingRequest(session: Sid, channel: ReplyChannel)

  /** The maps of the object are those of the model; `channels` are the boxes. */
  ghost predicate Maps(m: Manager, sessions: map<Sid, Id>, pending: map<Id, PendingRequest>,
                       channels: seq<ReplyChannel>) {
    && sessions.Keys == m.sessions && pending.Keys == m.pending.Keys && |channels| == |m.boxes|
    && (forall i, j :: 0 <= i < j < |channels| ==> channels[i] != channels[j])
    && (forall id :: id in pending ==>
          m.pending[id].channel < |channels|
              && pending[id] == PendingRequest(m.pending[id].session, channels[m.pending[id].channel]))
  }

  ghost predicate Buffers(boxes: seq<Mailbox>, channels: seq<ReplyChannel>)
    reads channels
  {
    && |channels| == |boxes|
    && forall i :: 0 <= i < |channels| ==>
         boxes[i].received <= |boxes[i].sent| && channels[i].buffer == boxes[i].sent[boxes[i].received..]
  }

  /** The sends of one Remove: each posts the oldest of its letters, which stands
      after the `n` that other goroutines still hold. */
  function Posts(n: nat, count: nat): (posts: seq<ManagerEvent>)
    ensures |posts| == count
  {
    if count == 0 then [] else Posts(n, count - 1) + [Post(n)]
  }

  ghost predicate Answered(cancelled: seq<ReplyChannel>, k: nat)
    requires k <= |cancelled|
    reads cancelled
  {
    forall j :: 0 <= j < k ==> cancelled[j].buffer == [DISCONNECTED]
  }

  class SessionManager {
    var sessions: map<Sid, Id>            // session id to agent id
    var pending: map<Id, PendingRequest>
    var connections: nat                  // uint64
    var disconnections: nat
    ghost var history: seq<ManagerEvent>
    ghost var channels: seq<ReplyChannel>

    ghost predicate Valid() reads this, channels {
      && Run(history).Some?
      && var m := Run(history).value;
      && Maps(m, sessions, pending, channels) && Buffers(m.boxes, channels)
      && connections == m.connections % COUNTER_MOD && disconnections == m.disconnections % COUNTER_MOD
    }

    ghost function Model(): Manager
      requires Run(history).Some?
      reads this
    {
      Run(history).value
    }

    /** What the object has from Replies: a channel's one reply is in exactly one
        place ... */
    lemma OneReply(i: nat)
      requires Valid() && i < |channels|
      ensures Balance(Model(), i) == 1 && |channels[i].buffer| <= 1
    {
      ExactlyOneReply(history, i);
    }

    /** ... and its counters, which hold the totals modulo 2^64, balance, up to
        registrations that reused a live id. */
    lemma Counters()
      requires Valid()
      ensures Model().connections == Model().disconnections + |sessions.Keys| + Model().replaced
    {
      CountersBalance(history);
    }

    constructor ()
      ensures Valid() && history == [] && channels == []
    {
      sessions, pending, connections, disconnections, history, channels := map[], map[], 0, 0, [], [];
    }

    method RegisterRequest(session: Sid, id: Id) returns (channel: ReplyChannel)
      requires Valid()
      modifies this`pending, this`history, this`channels
      ensures Valid() && history == old(history) + [Await(session, id)]
      ensures fresh(channel) && channel.buffer == [] && channels == old(channels) + [channel]
      ensures pending == old(pending)[id := PendingRequest(session, channel)]
    {
      channel := new ReplyChannel();
      Enter(session, id, channel);
    }

    method Enter(session: Sid, id: Id, channel: ReplyChannel)
      requires Valid() && channel !in channels && channel.buffer == []
      modifies this`pending, this`history, this`channels
      ensures Valid() && history == old(history) + [Await(session, id)] && channels == old(channels) + [channel]
      ensures pending == old(pending)[id := PendingRequest(session, channel)]
    {
      RunPush(history, Await(session, id));
      AwaitMaps(Model(), sessions, pending, channels, session, id, channel);
      AwaitBuffers(Model(), channels, session, id, channel);
      pending := pending[id := PendingRequest(session, channel)];
      history, channels := history + [Await(session, id)], channels + [channel];
    }

    method CancelRequest(id: Id)
      requires Valid()
      modifies this`pending, this`history
      ensures Valid() && history == old(history) + [Withdraw(id)]
      ensures pending == old(pending) - {id}
    {
      RunPush(history, Withdraw(id));
      pending, history := pending - {id}, history + [Withdraw(id)];
    }

    /** The handler's receive from its channel. */
    method Collect(channel: ReplyChannel, ghost i: nat) returns (response: Response)
      requires Valid() && i < |channels| && channels[i] == channel && channel.buffer != []
      modifies this`history, channel
      ensures Valid() && history == old(history) + [Replies.Collect(i)]
      ensures response == old(Model()).boxes[i].sent[old(Model()).boxes[i].received]
    {
      RunPush(history, Replies.Collect(i));
      response := channel.Receive();
      history := history + [Replies.Collect(i)];
    }

    /** The critical section of DeliverResponse. */
    method Claim(id: Id, ghost response: Response) returns (channel: ReplyChannel?)
      requires Valid()
      modifies this`pending, this`history
      ensures Valid() && history == old(history) + [Deliver(id, response)]
      ensures channel == (if id in old(pending) then old(pending)[id].channel else null)
                            && pending == old(pending) - {id}
    {
      RunPush(history, Deliver(id, response));
      history := history + [Deliver(id, response)];
      if id !in pending {
        assert pending == pending - {id};
        return null;
      }
      channel := pending[id].channel;
      pending := pending - {id};
    }

    /** A send made after the lock was released: the channel is always empty. */
    method Answer(channel: ReplyChannel, response: Response, ghost i: nat)
      requires Valid() && i < |Model().inflight|
      requires var l := Model().inflight[i];
               l.response == response && l.channel < |channels| && channels[l.channel] == channel
      modifies this`history, channel
      ensures Valid() && history == old(history) + [Post(i)]
      ensures channel.buffer == [response]
    {
      SendsNeverBlock(history, i);
      RunPush(history, Post(i));
      channel.Send(response);
      history := history + [Post(i)];
    }

    /** Takes the request out under the lock and then answers it: the response
        goes to the channel registered for it, which has room, and to no other. */
    method DeliverResponse(id: Id, response: Response) returns (ok: bool)
      requires Valid()
      modifies this`pending, this`history, channels
      ensures Valid() && ok == (id in old(pending)) && pending == old(pending) - {id}
      ensures history == old(history) + [Deliver(id, response)] + (if ok then [Post(|old(Model()).inflight|)] else [])
      ensures ok ==> old(pending)[id].channel.buffer == [response]
      ensures forall c :: c in channels && !(ok && c == old(pending)[id].channel) ==> c.buffer == old(c.buffer)
    {
      ghost var m := Model();
      RunPush(history, Deliver(id, response));
      var channel := Claim(id, response);
      if channel == null {
        return false;
      }
      assert Model().inflight[|m.inflight|] == Letter(m.pending[id].channel, response);
      Answer(channel, response, |m.inflight|);
      return true;
    }

    method Register(session: Sid, agent: Id)
      requires Valid()
      modifies this`sessions, this`connections, this`history
      ensures Valid() && history == old(history) + [Replies.Register(session)]
      ensures sessions == old(sessions)[session := agent]
    {
      RunPush(history, Replies.Register(session));
      NextCount(Model().connections);
      sessions := sessions[session := agent];
      connections := (connections + 1) % COUNTER_MOD;
      history := history + [Replies.Register(session)];
    }

    /** The critical section of Remove: deletes while walking the pending map, in
        whatever order the map yields its keys. */
    method Evict(session: Sid) returns (cancelled: seq<ReplyChannel>, ghost order: seq<Id>)
      requires Valid()
      modifies this`sessions, this`disconnections, this`pending, this`history
      ensures Valid() && history == old(history) + [Replies.Remove(session, order)]
      ensures Enumerates(order, old(Model()).pending, session) && |cancelled| == |order|
      ensures forall k :: 0 <= k < |order|
                ==> order[k] in old(pending) && cancelled[k] == old(pending)[order[k]].channel
      ensures sessions == old(sessions) - {session}
      ensures pending == map id | id in old(pending) && old(pending)[id].session != session :: old(pending)[id]
    {
      ghost var m := Model();
      cancelled, order := Walk(session);
      RunPush(history, Replies.Remove(session, order));
      EvictMaps(m, sessions, old(pending), channels, session, order);
      NextCount(m.disconnections);
      CloseSession(session);
      history := history + [Replies.Remove(session, order)];
    }

    method CloseSession(session: Sid)
      modifies this`sessions, this`disconnections
      ensures sessions == old(sessions) - {session}
      ensures disconnections == if session in old(sessions) then (old(disconnections) + 1) % COUNTER_MOD
                                  else old(disconnections)
    {
      if session in sessions {
        sessions := sessions - {session};
        disconnections := (disconnections + 1) % COUNTER_MOD;
      } else {
        assert sessions == sessions - {session};
      }
    }

    method Walk(session: Sid) returns (cancelled: seq<ReplyChannel>, ghost order: seq<Id>)
      modifies this`pending
      ensures pending == map id | id in old(pending) && old(pending)[id].session != session :: old(pending)[id]
      ensures forall i, j :: 0 <= i < j < |order| ==> order[i] != order[j]
      ensures forall id :: id in order <==> id in old(pending) && old(pending)[id].session == session
      ensures |cancelled| == |order|
      ensures forall k :: 0 <= k < |order|
                ==> order[k] in old(pending) && cancelled[k] == old(pending)[order[k]].channel
    {
      var todo := pending.Keys;
      cancelled, order := [], [];
      while todo != {}
        invariant todo <= pending.Keys <= old(pending).Keys
        invariant forall id :: id in pending ==> pending[id] == old(pending)[id]
        invariant forall id :: id in old(pending)
                    ==> (id in pending <==> id in todo || old(pending)[id].session != session)
        invariant forall i, j :: 0 <= i < j < |order| ==> order[i] != order[j]
        invariant forall id :: id in order <==> id in old(pending) && id !in pending
        invariant |cancelled| == |order|
        invariant forall k :: 0 <= k < |order|
                    ==> order[k] in old(pending) && cancelled[k] == old(pending)[order[k]].channel
        decreases todo
      {
        var id :| id in todo;
        todo := todo - {id};
        if pending[id].session == session {
          cancelled, order := cancelled + [pending[id].channel], order + [id];
          pending := pending - {id};
        }
      }
    }

    method AnswerNext(cancelled: seq<ReplyChannel>, k: nat, ghost held: seq<Letter>, ghost letters: seq<Letter>)
      requires Valid() && k < |letters| == |cancelled| && Model().inflight == held + letters[k..]
      requires letters[k].response == DISCONNECTED && letters[k].channel < |channels|
               && channels[letters[k].channel] == cancelled[k]
      requires Answered(cancelled, k)
      modifies this`history, cancelled[k]
      ensures Valid() && history == old(history) + [Post(|held|)] && Model().inflight == held + letters[k + 1..]
      ensures Answered(cancelled, k + 1)
    {
      assert Model().inflight[|held|] == letters[k];
      SendsNeverBlock(history, |held|);
      RunPush(history, Post(|held|));
      Posted(held, letters, k);
      Answer(cancelled[k], DISCONNECTED, |held|);
    }

    /** The sends Remove makes after releasing the lock, one at a time; `held`
        are the replies other goroutines have yet to send. */
    method AnswerAll(cancelled: seq<ReplyChannel>, ghost held: seq<Letter>, ghost letters: seq<Letter>)
      requires Valid() && Model().inflight == held + letters && |cancelled| == |letters|
      requires forall k :: 0 <= k < |letters| ==>
                 letters[k].response == DISCONNECTED && letters[k].channel < |channels|
                     && channels[letters[k].channel] == cancelled[k]
      modifies this`history, cancelled
      ensures Valid() && history == old(history) + Posts(|held|, |letters|) && Model().inflight == held
      ensures Answered(cancelled, |cancelled|)
    {
      ghost var n := |held|;
      for k := 0 to |cancelled|
        invariant Valid()
        invariant history == old(history) + Posts(n, k)
        invariant Model().inflight == held + letters[k..]
        invariant Answered(cancelled, k)
      {
        PostsNext(old(history), n, k);
        AnswerNext(cancelled, k, held, letters);
      }
    }

    ghost function ChannelsOf(session: Sid): set<ReplyChannel> reads this {
      set id | id in pending && pending[id].session == session :: pending[id].channel
    }

    /** Removes the session and then answers all its pending requests with a
        disconnect, one send at a time; other requests stay pending, and no
        other channel is touched. */
    method Remove(session: Sid) returns (ghost order: seq<Id>)
      requires Valid()
      modifies this`sessions, this`disconnections, this`pending, this`history, ChannelsOf(session)
      ensures Valid() && sessions == old(sessions) - {session}
      ensures Enumerates(order, old(Model()).pending, session)
      ensures history == old(history) + [Replies.Remove(session, order)] + Posts(|old(Model()).inflight|, |order|)
      ensures pending == map id | id in old(pending) && old(pending)[id].session != session :: old(pending)[id]
      ensures Model().inflight == old(Model()).inflight
      ensures forall c :: c in old(ChannelsOf(session)) ==> c.buffer == [DISCONNECTED]
    {
      ghost var m := Model();
      var cancelled;
      cancelled, order := Evict(session);
      RunPush(old(history), Replies.Remove(session, order));
      RemoveEffect(m, session, order);
      Collected(m, old(pending), channels, session, order, cancelled);
      AnswerAll(cancelled, m.inflight, Farewells(m.pending, order));
    }
  }

  /** The channels collected are those of the session's requests. */
  lemma Collected(m: Manager, pending: map<Id, PendingRequest>, channels: seq<ReplyChannel>, session: Sid,
                  order: seq<Id>, cancelled: seq<ReplyChannel>)
    requires Maps(m, map sid | sid in m.sessions :: [], pending, channels) && Enumerates(order, m.pending, session)
    requires |cancelled| == |order|
    requires forall k :: 0 <= k < |order| ==> order[k] in pending && cancelled[k] == pending[order[k]].channel
    ensures forall c :: c in cancelled
              <==> c in (set id | id in pending && pending[id].session == session :: pending[id].channel)
    ensures var letters := Farewells(m.pending, order);
            forall k :: 0 <= k < |order|
                ==> letters[k].channel < |channels| && channels[letters[k].channel] == cancelled[k]
  {
    assert forall k :: 0 <= k < |order| ==> order[k] in order;
    forall id | id in pending && pending[id].session == session ensures pending[id].channel in cancelled {
      var k :| 0 <= k < |order| && order[k] == id;
      assert cancelled[k] == pending[id].channel;
    }
  }

  lemma AwaitMaps(m: Manager, sessions: map<Sid, Id>, pending: map<Id, PendingRequest>, channels: seq<ReplyChannel>,
                  session: Sid, id: Id, channel: ReplyChannel)
    requires Maps(m, sessions, pending, channels) && channel !in channels
    ensures Maps(Do(m, Await(session, id)), sessions, pending[id := PendingRequest(session, channel)],
                 channels + [channel])
  {
    assert forall i :: 0 <= i < |channels| ==> channels[i] in channels;
  }

  lemma AwaitBuffers(m: Manager, channels: seq<ReplyChannel>, session: Sid, id: Id, channel: ReplyChannel)
    requires Buffers(m.boxes, channels) && channel.buffer == []
    ensures Buffers(Do(m, Await(session, id)).boxes, channels + [channel])
  {
  }

  lemma EvictMaps(m: Manager, sessions: map<Sid, Id>, pending: map<Id, PendingRequest>, channels: seq<ReplyChannel>,
                  session: Sid, order: seq<Id>)
    requires Maps(m, sessions, pending, channels) && CanDo(m, Replies.Remove(session, order))
    ensures var n := Do(m, Replies.Remove(session, order));
            && Maps(n, sessions - {session}, map id | id in pending && pending[id].session != session :: pending[id],
                    channels)
            && n.boxes == m.boxes && n.connections == m.connections
            && n.disconnections == m.disconnections + (if session in sessions then 1 else 0)
  {
    RemoveEffect(m, session, order);
    EvictEffect(Closed(m, session), order);
  }

  lemma NextCount(n: nat)
    ensures (n % COUNTER_MOD + 1) % COUNTER_MOD == (n + 1) % COUNTER_MOD
  {
  }

  lemma PostsNext(before: seq<ManagerEvent>, n: nat, k: nat)
    ensures before + Posts(n, k) + [Post(n)] == before + Posts(n, k + 1)
  {
  }

  lemma Posted(held: seq<Letter>, letters: seq<Letter>, k: nat)
    requires k < |letters|
    ensures var all := held + letters[k..];
            all[..|held|] + all[|held| + 1..] == held + letters[k + 1..]
  {
  }
}
