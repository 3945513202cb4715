/**
 * The WebSocket endpoint's bookkeeping: every open connection has an id
 * and the set of bot ids it is subscribed to; messages from a client
 * change its subscriptions, run an action, or answer a ping; bot events
 * fan out to exactly the subscribed connections.
 *
 * Sockets are named by their connection id and what is sent to a socket
 * is appended to its outbox. A broadcast is given the set of sockets
 * whose send throws during it; those miss the message and nothing else
 * is affected. Action dispatch runs to completion inside the message
 * call.
 */
module Ws {
  import opened Common
  import opened Model
  import opened Registry
  import opened Dispatcher

  /** `ws-<counter>-<now>`. */
  function ConnectionId(counter: nat, now: int): string {
    "ws-" + (NatToString(counter) + ("-" + IntToString(now)))
  }

  /** Connection ids determine the counter value and the clock reading they were made from. */
  lemma ConnectionIdInjective(c1: nat, t1: int, c2: nat, t2: int)
    requires ConnectionId(c1, t1) == ConnectionId(c2, t2)
    ensures c1 == c2 && t1 == t2
  {
    var a, b := ConnectionId(c1, t1), ConnectionId(c2, t2);
    var ta, tb := "-" + IntToString(t1), "-" + IntToString(t2);
    assert a[3..] == NatToString(c1) + ta;
    assert b[3..] == NatToString(c2) + tb;
    NatToStringAvoids(c1, '-');
    NatToStringAvoids(c2, '-');
    SplitUnique(NatToString(c1), ta, NatToString(c2), tb, '-');
    NatToStringInjective(c1, c2);
    assert IntToString(t1) == ta[1..];
    assert IntToString(t2) == tb[1..];
    IntToStringInjective(t1, t2);
  }

  /** The messages a socket has been sent so far. */
  function Box(outbox: map<string, seq<WsServerMessage>>, id: string): seq<WsServerMessage> {
    if id in outbox then outbox[id] else []
  }

  /** `msgs` sent to socket `id`, in order. */
  function Append(outbox: map<string, seq<WsServerMessage>>, id: string, msgs: seq<WsServerMessage>): (r: map<string, seq<WsServerMessage>>)
    ensures forall k :: Box(r, k) == if k == id then Box(outbox, id) + msgs else Box(outbox, k)
  {
    if msgs == [] then outbox else outbox[id := Box(outbox, id) + msgs]
  }

  lemma AppendTwice(outbox: map<string, seq<WsServerMessage>>, id: string, a: seq<WsServerMessage>, b: seq<WsServerMessage>)
    ensures Append(Append(outbox, id, a), id, b) == Append(outbox, id, a + b)
  {
    if a == [] {
      assert a + b == b;
    } else if b == [] {
      assert a + b == a;
    } else {
      var x := Box(outbox, id);
      var o1 := outbox[id := x + a];
      assert Box(o1, id) == x + a;
      assert (x + a) + b == x + (a + b);
      assert Append(o1, id, b) == o1[id := (x + a) + b];
      assert o1[id := (x + a) + b] == outbox[id := x + (a + b)];
    }
  }

  /** Every socket in `targets` is sent `m`; every other outbox stays as it was. */
  function Deliver(outbox: map<string, seq<WsServerMessage>>, targets: set<string>, m: WsServerMessage): (r: map<string, seq<WsServerMessage>>)
    ensures forall id :: Box(r, id) == if id in targets then Box(outbox, id) + [m] else Box(outbox, id)
    ensures r.Keys == outbox.Keys + targets
  {
    map id | id in outbox.Keys + targets :: if id in targets then Box(outbox, id) + [m] else outbox[id]
  }

  /** The open connections subscribed to `botId`. */
  function Subscribers(connections: map<string, set<string>>, botId: string): (r: set<string>)
    ensures forall id :: id in r <==> id in connections && botId in connections[id]
  {
    set id | id in connections && botId in connections[id]
  }

  /** The state updates a subscribe request sends back: one per listed bot that has a state, in list order. */
  function InitialStates(botIds: seq<string>, bots: Bots): (r: seq<WsServerMessage>)
    ensures |r| <= |botIds|
    ensures forall i :: 0 <= i < |r| ==> r[i].BotStateUpdate?
    decreases |botIds|
  {
    if botIds == [] then []
    else
      var last := botIds[|botIds| - 1];
      InitialStates(botIds[..|botIds| - 1], bots) + (if last in bots then [BotStateUpdate(bots[last].state)] else [])
  }

  lemma {:induction false} InitialStatesCover(botIds: seq<string>, bots: Bots, s: BotState)
    ensures BotStateUpdate(s) in InitialStates(botIds, bots) <==>
      exists i :: 0 <= i < |botIds| && botIds[i] in bots && bots[botIds[i]].state == s
    decreases |botIds|
  {
    if botIds != [] {
      var init := botIds[..|botIds| - 1];
      InitialStatesCover(init, bots, s);
      if exists i :: 0 <= i < |botIds| && botIds[i] in bots && bots[botIds[i]].state == s {
        var i :| 0 <= i < |botIds| && botIds[i] in bots && bots[botIds[i]].state == s;
        if i < |init| {
          assert init[i] == botIds[i];
        }
      }
      if exists i :: 0 <= i < |init| && init[i] in bots && bots[init[i]].state == s {
        var i :| 0 <= i < |init| && init[i] in bots && bots[init[i]].state == s;
        assert botIds[i] == init[i];
      }
    }
  }

  lemma BoxExtensional(a: map<string, seq<WsServerMessage>>, b: map<string, seq<WsServerMessage>>)
    requires a.Keys == b.Keys
    requires forall k :: Box(a, k) == Box(b, k)
    ensures a == b
  {
    forall k | k in a ensures a[k] == b[k] {
      assert Box(a, k) == Box(b, k);
    }
  }

  class WsServer {
    /** Open connections and the bot ids each is subscribed to. */
    var connections: map<string, set<string>>
    var counter: nat
    var outbox: map<string, seq<WsServerMessage>>
    /** For every id handed out, the counter value and clock reading it was made from. */
    ghost var serial: map<string, nat>
    ghost var stamp: map<string, int>

    ghost predicate Valid()
      reads this
    {
      && connections.Keys <= serial.Keys
      && serial.Keys == stamp.Keys
      && forall id :: id in serial ==> 1 <= serial[id] <= counter && id == ConnectionId(serial[id], stamp[id])
    }

    constructor()
      ensures Valid()
      ensures connections == map[] && counter == 0 && outbox == map[]
    {
      connections := map[];
      counter := 0;
      outbox := map[];
      serial := map[];
      stamp := map[];
    }

    /** `getWsConnectionCount()`. */
    function ConnectionCount(): (n: nat)
      reads this
      ensures n == |connections.Keys|
    {
      |connections|
    }

    /** A new connection gets an id never handed out before and no subscriptions. */
    method Open(now: int) returns (id: string)
      requires Valid()
      modifies this
      ensures Valid()
      ensures counter == old(counter) + 1 && id == ConnectionId(counter, now)
      ensures id !in old(serial) && id !in old(connections)
      ensures connections == old(connections)[id := {}]
      ensures outbox == old(outbox)
    {
      counter := counter + 1;
      id := ConnectionId(counter, now);
      if id in serial {
        ConnectionIdInjective(serial[id], stamp[id], counter, now);
        assert false;
      }
      serial := serial[id := counter];
      stamp := stamp[id := now];
      connections := connections[id := {}];
    }

    /** Closing drops the connection and its subscriptions. */
    method Close(id: string)
      requires Valid()
      modifies this
      ensures Valid()
      ensures connections == old(connections) - {id}
      ensures ConnectionCount() == if id in old(connections) then old(ConnectionCount()) - 1 else old(ConnectionCount())
      ensures outbox == old(outbox) && counter == old(counter)
    {
      connections := connections - {id};
      assert connections.Keys == old(connections).Keys - {id};
    }

    /** `ws.send(m)` to one socket. */
    method Send(id: string, m: WsServerMessage)
      modifies this
      ensures outbox == Append(old(outbox), id, [m])
      ensures connections == old(connections) && counter == old(counter)
      ensures serial == old(serial) && stamp == old(stamp)
    {
      outbox := outbox[id := Box(outbox, id) + [m]];
    }

    /** Sends `m` to each connection in `targets`, in turn, skipping the ones whose send fails. */
    method SendEach(targets: set<string>, failing: set<string>, m: WsServerMessage)
      modifies this
      ensures outbox == Deliver(old(outbox), targets - failing, m)
      ensures connections == old(connections) && counter == old(counter)
      ensures serial == old(serial) && stamp == old(stamp)
    {
      var todo := targets;
      while todo != {}
        invariant todo <= targets
        invariant outbox.Keys == old(outbox).Keys + ((targets - todo) - failing)
        invariant forall k :: Box(outbox, k) == if k in (targets - todo) - failing then Box(old(outbox), k) + [m] else Box(old(outbox), k)
        invariant connections == old(connections) && counter == old(counter)
        invariant serial == old(serial) && stamp == old(stamp)
        decreases todo
      {
        var id :| id in todo;
        if id !in failing {
          outbox := outbox[id := Box(outbox, id) + [m]];
        }
        todo := todo - {id};
      }
      BoxExtensional(outbox, Deliver(old(outbox), targets - failing, m));
    }

    /** `broadcastToBotSubscribers`: exactly the connections subscribed to `botId` whose send does not fail get `m`. */
    method BroadcastToBotSubscribers(botId: string, m: WsServerMessage, failing: set<string>)
      modifies this
      ensures outbox == Deliver(old(outbox), Subscribers(old(connections), botId) - failing, m)
      ensures connections == old(connections) && counter == old(counter)
      ensures serial == old(serial) && stamp == old(stamp)
    {
      SendEach(Subscribers(connections, botId), failing, m);
    }

    /** `broadcastToAll`: every open connection whose send does not fail gets `m`. */
    method BroadcastToAll(m: WsServerMessage, failing: set<string>)
      modifies this
      ensures outbox == Deliver(old(outbox), old(connections).Keys - failing, m)
      ensures connections == old(connections) && counter == old(counter)
      ensures serial == old(serial) && stamp == old(stamp)
    {
      SendEach(connections.Keys, failing, m);
    }

    /** A manager state update goes to the bot's subscribers. */
    method ForwardStateUpdate(state: BotState, failing: set<string>)
      modifies this
      ensures outbox == Deliver(old(outbox), Subscribers(old(connections), state.botId) - failing, BotStateUpdate(state))
      ensures connections == old(connections) && counter == old(counter)
      ensures serial == old(serial) && stamp == old(stamp)
    {
      BroadcastToBotSubscribers(state.botId, BotStateUpdate(state), failing);
    }

    /** A chat line seen by a bot goes to the bot's subscribers as a chat event. */
    method ForwardChat(botId: string, username: string, message: string, failing: set<string>)
      modifies this
      ensures outbox == Deliver(old(outbox), Subscribers(old(connections), botId) - failing,
                                BotEventMessage(botId, "chat", ChatData(username, message)))
      ensures connections == old(connections) && counter == old(counter)
      ensures serial == old(serial) && stamp == old(stamp)
    {
      BroadcastToBotSubscribers(botId, BotEventMessage(botId, "chat", ChatData(username, message)), failing);
    }

    /** A bot's error goes to the bot's subscribers as an error event carrying the error's message. */
    method ForwardError(botId: string, message: string, failing: set<string>)
      modifies this
      ensures outbox == Deliver(old(outbox), Subscribers(old(connections), botId) - failing,
                                BotEventMessage(botId, "error", ErrorData(message)))
      ensures connections == old(connections) && counter == old(counter)
      ensures serial == old(serial) && stamp == old(stamp)
    {
      BroadcastToBotSubscribers(botId, BotEventMessage(botId, "error", ErrorData(message)), failing);
    }

    /** Adds each listed bot to the connection's subscriptions, replying with each current state there is. */
    method Subscribe(id: string, botIds: seq<string>, bots: Bots)
      requires id in connections
      modifies this
      ensures connections == old(connections)[id := old(connections)[id] + SetOf(botIds)]
      ensures outbox == Append(old(outbox), id, InitialStates(botIds, bots))
      ensures counter == old(counter) && serial == old(serial) && stamp == old(stamp)
    {
      ghost var subs0 := connections[id];
      assert subs0 + SetOf(botIds[..0]) == subs0;
      var i := 0;
      while i < |botIds|
        invariant 0 <= i <= |botIds|
        invariant connections == old(connections)[id := subs0 + SetOf(botIds[..i])]
        invariant outbox == Append(old(outbox), id, InitialStates(botIds[..i], bots))
        invariant counter == old(counter) && serial == old(serial) && stamp == old(stamp)
      {
        var botId := botIds[i];
        assert botIds[..i + 1][..i] == botIds[..i];
        assert subs0 + SetOf(botIds[..i + 1]) == (subs0 + SetOf(botIds[..i])) + {botId} by {
          assert botIds[..i + 1] == botIds[..i] + [botId];
        }
        connections := connections[id := connections[id] + {botId}];
        ghost var reply := if botId in bots then [BotStateUpdate(bots[botId].state)] else [];
        assert InitialStates(botIds[..i + 1], bots) == InitialStates(botIds[..i], bots) + reply;
        AppendTwice(old(outbox), id, InitialStates(botIds[..i], bots), reply);
        if botId in bots {
          Send(id, BotStateUpdate(bots[botId].state));
        }
        i := i + 1;
      }
      assert botIds[..|botIds|] == botIds;
    }

    /** Removes the listed bots from the connection's subscriptions only. */
    method Unsubscribe(id: string, botIds: seq<string>)
      requires id in connections
      modifies this
      ensures connections == old(connections)[id := old(connections)[id] - SetOf(botIds)]
      ensures outbox == old(outbox) && counter == old(counter) && serial == old(serial) && stamp == old(stamp)
    {
      ghost var subs0 := connections[id];
      assert subs0 - SetOf(botIds[..0]) == subs0;
      var i := 0;
      while i < |botIds|
        invariant 0 <= i <= |botIds|
        invariant connections == old(connections)[id := subs0 - SetOf(botIds[..i])]
        invariant outbox == old(outbox) && counter == old(counter) && serial == old(serial) && stamp == old(stamp)
      {
        assert subs0 - SetOf(botIds[..i + 1]) == (subs0 - SetOf(botIds[..i])) - {botIds[i]} by {
          assert botIds[..i + 1] == botIds[..i] + [botIds[i]];
        }
        connections := connections[id := connections[id] - {botIds[i]}];
        i := i + 1;
      }
      assert botIds[..|botIds|] == botIds;
    }

    /**
     * The message handler. An unknown connection gets one error and
     * nothing changes; otherwise subscribe, unsubscribe, execute the
     * action (result to the requester, then to the bot's subscribers), or
     * answer the ping.
     */
    method Message(
      id: string, body: WsClientMessage, bots: Bots,
      limiter: RateLimiter, registry: ActionRegistry,
      execute: (Handler, BotAction) -> HandlerOutcome, start: int, finish: int,
      failing: set<string>)
      requires Valid()
      modifies this, limiter
      ensures Valid()
      ensures counter == old(counter)
      ensures id !in old(connections) ==>
        && connections == old(connections)
        && outbox == Append(old(outbox), id, [ErrorMessage("Connection not found", None)])
        && limiter.buckets == old(limiter.buckets)
      ensures id in old(connections) && body.Subscribe? ==>
        && connections == old(connections)[id := old(connections)[id] + SetOf(body.botIds)]
        && outbox == Append(old(outbox), id, InitialStates(body.botIds, bots))
      ensures id in old(connections) && body.Unsubscribe? ==>
        && connections == old(connections)[id := old(connections)[id] - SetOf(body.botIds)]
        && outbox == old(outbox)
      ensures id in old(connections) && body.Ping? ==>
        && connections == old(connections)
        && outbox == Append(old(outbox), id, [Pong])
      ensures id in old(connections) && body.ExecuteAction? ==>
        var a := body.action;
        var r := Outcome(Check(RateLimitStep(OptionOf(old(limiter.buckets), a.botId), start).allowed, bots, registry.handlers, a),
                         execute, a, start, finish);
        && connections == old(connections)
        && outbox == Deliver(Append(old(outbox), id, [ActionResultMessage(r)]),
                             Subscribers(old(connections), a.botId) - failing, ActionResultMessage(r))
      ensures !(id in old(connections) && body.ExecuteAction?) ==> limiter.buckets == old(limiter.buckets)
    {
      if id !in connections {
        Send(id, ErrorMessage("Connection not found", None));
        return;
      }
      match body
      case Subscribe(botIds) =>
        Subscribe(id, botIds, bots);
      case Unsubscribe(botIds) =>
        Unsubscribe(id, botIds);
      case ExecuteAction(a) =>
        var result := DispatchAction(limiter, registry, bots, execute, a, start, finish);
        Send(id, ActionResultMessage(result));
        BroadcastToBotSubscribers(a.botId, ActionResultMessage(result), failing);
      case Ping =>
        Send(id, Pong);
    }
  }

  /**
   * A requester subscribed to the action's bot, whose send does not fail,
   * receives the result twice: once as the requester, once as a
   * subscriber.
   */
  lemma SubscribedRequesterGetsResultTwice(
    outbox: map<string, seq<WsServerMessage>>, connections: map<string, set<string>>,
    id: string, botId: string, failing: set<string>, m: WsServerMessage)
    requires id in connections && botId in connections[id] && id !in failing
    ensures Box(Deliver(Append(outbox, id, [m]), Subscribers(connections, botId) - failing, m), id)
         == Box(outbox, id) + [m, m]
  {
  }

  /** A broadcast to subscribers reaches no connection that is not subscribed, and every subscribed one that does not fail. */
  lemma BroadcastReachesExactlySubscribers(
    outbox: map<string, seq<WsServerMessage>>, connections: map<string, set<string>>,
    botId: string, failing: set<string>, m: WsServerMessage, id: string)
    ensures var after := Box(Deliver(outbox, Subscribers(connections, botId) - failing, m), id);
      && (id in connections && botId in connections[id] && id !in failing ==> after == Box(outbox, id) + [m])
      && (!(id in connections && botId in connections[id]) || id in failing ==> after == Box(outbox, id))
  {
  }
}
