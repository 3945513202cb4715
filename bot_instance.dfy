/**
 * One bot's connection: its status, the game client it holds (if any), the
 * time of its last update, and the events it emits. Every callback of the
 * game client is a method here, called when the client fires that event;
 * a callback only acts while its listener is armed. The connection phase
 * arms one-shot listeners (spawn, login, error, end) and spawning adds
 * the persistent in-game listeners, so an error or end after spawning
 * reaches both.
 *
 * `connect` returns a promise; each call adds one entry to `promises`, and
 * the one-shot listeners settle the entry of the call that armed them. A
 * settled promise stays settled.
 */
module Instance {
  import opened Common
  import opened Model

  /** The part of the game client's own entity the instance reads; `id` stands for object identity. */
  datatype Entity = Entity(id: int, position: Option<Vec3>, yaw: real, pitch: real)

  /** What the game client currently reports; an absent part is `undefined` there. */
  datatype Client = Client(
    entity: Option<Entity>,
    health: Option<real>,
    food: Option<real>,
    gameMode: Option<string>,
    inventory: Option<seq<InventorySlot>>)

  /** Whether creating the game client returned one or threw. */
  datatype Creation = Created(client: Client) | CreateFailed(message: string)

  datatype Settlement = Pending | Resolved | Rejected(message: string)

  datatype InstanceEvent =
    | StatusChange(botId: string, status: BotStatus)
    | StateUpdate(state: BotState)
    | ChatEvent(botId: string, username: string, message: string)
    | DamageEvent(botId: string)
    | DeathEvent(botId: string)
    | SpawnEvent(botId: string)
    | KickedEvent(botId: string, reason: string)
    | ErrorEvent(botId: string, message: string)

  /** The state snapshot: total, with every reading of an absent client (or entity) null. */
  function StateOf(botId: string, username: string, status: BotStatus, client: Option<Client>, at: int): (s: BotState)
    ensures s.botId == botId && s.username == username && s.status == status && s.lastUpdatedAt == at
    ensures client.None? ==> s.position.None? && s.orientation.None? && s.health.None? && s.food.None?
                             && s.gameMode.None? && s.inventory == []
    ensures client.Some? ==> s.health == client.value.health && s.food == client.value.food
                             && s.gameMode == client.value.gameMode
    ensures client.Some? && client.value.entity.Some? ==>
              s.position == client.value.entity.value.position
              && s.orientation == Some(Orientation(client.value.entity.value.yaw, client.value.entity.value.pitch))
    ensures (client.None? || client.value.entity.None?) ==> s.position.None? && s.orientation.None?
    ensures client.Some? && client.value.inventory.Some? ==> s.inventory == client.value.inventory.value
  {
    var entity := if client.Some? then client.value.entity else None;
    BotState(
      botId, username, status,
      if entity.Some? then entity.value.position else None,
      if entity.Some? then Some(Orientation(entity.value.yaw, entity.value.pitch)) else None,
      if client.Some? then client.value.health else None,
      if client.Some? then client.value.food else None,
      if client.Some? then client.value.gameMode else None,
      if client.Some? && client.value.inventory.Some? then client.value.inventory.value else [],
      at)
  }

  /** What setting the status emits: a status change and a state update, only when the status differs. */
  function StatusEvents(botId: string, username: string, prev: BotStatus, next: BotStatus, client: Option<Client>, at: int): (e: seq<InstanceEvent>)
    ensures prev == next <==> e == []
    ensures prev != next ==> e == [StatusChange(botId, next), StateUpdate(StateOf(botId, username, next, client, at))]
  {
    if prev != next then [StatusChange(botId, next), StateUpdate(StateOf(botId, username, next, client, at))] else []
  }

  /** The reason reported for an end of connection: the client's, or "unknown". */
  function EndReason(reason: Option<string>): string {
    if reason.Some? then reason.value else "unknown"
  }

  class BotInstance {
    const botId: string
    const username: string
    var client: Option<Client>
    var status: BotStatus
    var lastUpdatedAt: int
    var events: seq<InstanceEvent>
    var promises: seq<Settlement>
    /** The promise the one-shot listeners settle. */
    var owner: nat
    /** The one-shot listeners of the connection phase that have not fired. */
    var onSpawn: bool
    var onLogin: bool
    var onError: bool
    var onEnd: bool
    /** The in-game listeners registered on spawn. */
    var listening: bool

    /** Listeners exist only on a live client, and armed one-shot listeners have a promise to settle. */
    ghost predicate Valid()
      reads this
    {
      && (client.None? ==> !onSpawn && !onLogin && !onError && !onEnd && !listening)
      && ((onSpawn || onLogin || onError || onEnd) ==> owner < |promises|)
    }

    /** A new instance is disconnected, holds no client and has emitted nothing. */
    constructor(botId: string, username: string, now: int)
      ensures Valid()
      ensures this.botId == botId && this.username == username
      ensures client.None? && status == Disconnected && lastUpdatedAt == now
      ensures events == [] && promises == []
      ensures !onSpawn && !onLogin && !onError && !onEnd && !listening
    {
      this.botId := botId;
      this.username := username;
      client := None;
      status := Disconnected;
      lastUpdatedAt := now;
      events := [];
      promises := [];
      owner := 0;
      onSpawn, onLogin, onError, onEnd, listening := false, false, false, false, false;
    }

    /** `getState()`. */
    function GetState(): (s: BotState)
      reads this
      ensures s == StateOf(botId, username, status, client, lastUpdatedAt)
    {
      StateOf(botId, username, status, client, lastUpdatedAt)
    }

    /** Sets the status and the timestamp; emits only when the status changes. */
    method SetStatus(s: BotStatus, now: int)
      modifies this
      ensures status == s && lastUpdatedAt == now
      ensures events == old(events) + StatusEvents(botId, username, old(status), s, client, now)
      ensures client == old(client) && promises == old(promises) && owner == old(owner)
      ensures onSpawn == old(onSpawn) && onLogin == old(onLogin) && onError == old(onError)
      ensures onEnd == old(onEnd) && listening == old(listening)
    {
      var prev := status;
      status := s;
      lastUpdatedAt := now;
      if prev != s {
        events := events + [StatusChange(botId, s)];
        events := events + [StateUpdate(GetState())];
      }
    }

    /** Settles promise `i` if it is still pending. */
    method Settle(i: nat, v: Settlement)
      requires i < |promises|
      modifies this
      ensures promises == if old(promises)[i].Pending? then old(promises)[i := v] else old(promises)
      ensures client == old(client) && status == old(status) && lastUpdatedAt == old(lastUpdatedAt)
      ensures events == old(events) && owner == old(owner)
      ensures onSpawn == old(onSpawn) && onLogin == old(onLogin) && onError == old(onError)
      ensures onEnd == old(onEnd) && listening == old(listening)
    {
      if promises[i].Pending? {
        promises := promises[i := v];
      }
    }

    /**
     * `connect()`: rejected at once when a client exists; otherwise the
     * status becomes connecting and the client is created, a creation
     * failure setting the error status and rejecting.
     */
    method Connect(creation: Creation, now: int)
      requires Valid()
      modifies this
      ensures Valid()
      ensures old(client).Some? ==>
        && promises == old(promises) + [Rejected("Bot " + botId + " is already connected")]
        && client == old(client) && status == old(status) && lastUpdatedAt == old(lastUpdatedAt)
        && events == old(events) && owner == old(owner)
        && onSpawn == old(onSpawn) && onLogin == old(onLogin) && onError == old(onError)
        && onEnd == old(onEnd) && listening == old(listening)
      ensures old(client).None? && creation.CreateFailed? ==>
        && promises == old(promises) + [Rejected(creation.message)]
        && client.None? && status == Error && lastUpdatedAt == now
        && events == old(events) + StatusEvents(botId, username, old(status), Connecting, None, now)
                                 + StatusEvents(botId, username, Connecting, Error, None, now)
      ensures old(client).None? && creation.Created? ==>
        && promises == old(promises) + [Pending] && owner == |old(promises)|
        && client == Some(creation.client) && status == Connecting && lastUpdatedAt == now
        && events == old(events) + StatusEvents(botId, username, old(status), Connecting, None, now)
        && onSpawn && onLogin && onError && onEnd && !listening
    {
      if client.Some? {
        promises := promises + [Rejected("Bot " + botId + " is already connected")];
        return;
      }
      promises := promises + [Pending];
      SetStatus(Connecting, now);
      match creation
      case CreateFailed(message) =>
        SetStatus(Error, now);
        Settle(|promises| - 1, Rejected(message));
      case Created(c) =>
        client := Some(c);
        owner := |promises| - 1;
        onSpawn, onLogin, onError, onEnd := true, true, true, true;
    }

    /** The client spawned in the world: status spawned, the spawn event, the in-game listeners, and the promise resolved. */
    method Spawn(now: int)
      requires Valid()
      modifies this
      ensures Valid()
      ensures client == old(client) && owner == old(owner)
      ensures onLogin == old(onLogin) && onError == old(onError) && onEnd == old(onEnd)
      ensures !old(onSpawn) ==> unchanged(this)
      ensures old(onSpawn) ==>
        && !onSpawn && listening && status == Spawned && lastUpdatedAt == now
        && events == old(events) + StatusEvents(botId, username, old(status), Spawned, client, now) + [SpawnEvent(botId)]
        && promises == if old(promises)[owner].Pending? then old(promises)[owner := Resolved] else old(promises)
    {
      if !onSpawn {
        return;
      }
      onSpawn := false;
      SetStatus(Spawned, now);
      events := events + [SpawnEvent(botId)];
      listening := true;
      Settle(owner, Resolved);
    }

    /** The client logged in: status connected. */
    method Login(now: int)
      requires Valid()
      modifies this
      ensures Valid()
      ensures !old(onLogin) ==> unchanged(this)
      ensures old(onLogin) ==>
        && !onLogin && status == Connected && lastUpdatedAt == now
        && events == old(events) + StatusEvents(botId, username, old(status), Connected, client, now)
        && client == old(client) && promises == old(promises) && owner == old(owner)
        && onSpawn == old(onSpawn) && onError == old(onError) && onEnd == old(onEnd) && listening == old(listening)
    {
      if !onLogin {
        return;
      }
      onLogin := false;
      SetStatus(Connected, now);
    }

    /**
     * The client reported an error. The one-shot listener sets the error
     * status, forwards the error and rejects the connect promise; the
     * in-game listener sets the status and forwards the error again.
     */
    method ClientError(message: string, now: int)
      requires Valid()
      modifies this
      ensures Valid()
      ensures client == old(client) && owner == old(owner) && listening == old(listening)
      ensures onSpawn == old(onSpawn) && onLogin == old(onLogin) && onEnd == old(onEnd)
      ensures !onError
      ensures !old(onError) && !old(listening) ==> unchanged(this)
      ensures old(onError) || old(listening) ==> status == Error && lastUpdatedAt == now
      ensures events == old(events)
        + (if old(onError) then StatusEvents(botId, username, old(status), Error, client, now) + [ErrorEvent(botId, message)] else [])
        + (if old(listening) then StatusEvents(botId, username, if old(onError) then Error else old(status), Error, client, now)
                                  + [ErrorEvent(botId, message)] else [])
      ensures promises == if old(onError) && old(promises)[owner].Pending? then old(promises)[owner := Rejected(message)] else old(promises)
    {
      if onError {
        onError := false;
        SetStatus(Error, now);
        events := events + [ErrorEvent(botId, message)];
        Settle(owner, Rejected(message));
      }
      if listening {
        SetStatus(Error, now);
        events := events + [ErrorEvent(botId, message)];
      }
    }

    /** The connection ended: status disconnected and a kicked event, from each listener that is armed. */
    method End(reason: Option<string>, now: int)
      requires Valid()
      modifies this
      ensures Valid()
      ensures client == old(client) && owner == old(owner) && listening == old(listening) && promises == old(promises)
      ensures onSpawn == old(onSpawn) && onLogin == old(onLogin) && onError == old(onError)
      ensures !onEnd
      ensures !old(onEnd) && !old(listening) ==> unchanged(this)
      ensures old(onEnd) || old(listening) ==> status == Disconnected && lastUpdatedAt == now
      ensures events == old(events)
        + (if old(onEnd) then StatusEvents(botId, username, old(status), Disconnected, client, now)
                              + [KickedEvent(botId, EndReason(reason))] else [])
        + (if old(listening) then StatusEvents(botId, username, if old(onEnd) then Disconnected else old(status), Disconnected, client, now)
                                  + [KickedEvent(botId, EndReason(reason))] else [])
    {
      if onEnd {
        onEnd := false;
        SetStatus(Disconnected, now);
        events := events + [KickedEvent(botId, EndReason(reason))];
      }
      if listening {
        SetStatus(Disconnected, now);
        events := events + [KickedEvent(botId, EndReason(reason))];
      }
    }

    /** Kicked by the server (in game only): status disconnected and a kicked event with the reason. */
    method Kicked(reason: string, now: int)
      requires Valid()
      modifies this
      ensures Valid()
      ensures !old(listening) ==> unchanged(this)
      ensures old(listening) ==>
        && status == Disconnected && lastUpdatedAt == now
        && events == old(events) + StatusEvents(botId, username, old(status), Disconnected, client, now) + [KickedEvent(botId, reason)]
      ensures client == old(client) && promises == old(promises) && owner == old(owner) && listening == old(listening)
      ensures onSpawn == old(onSpawn) && onLogin == old(onLogin) && onError == old(onError) && onEnd == old(onEnd)
    {
      if listening {
        SetStatus(Disconnected, now);
        events := events + [KickedEvent(botId, reason)];
      }
    }

    /** A chat line in game is forwarded with the bot's id. */
    method Chat(sender: string, message: string)
      modifies this
      ensures events == if old(listening) then old(events) + [ChatEvent(botId, sender, message)] else old(events)
      ensures client == old(client) && status == old(status) && lastUpdatedAt == old(lastUpdatedAt)
      ensures promises == old(promises) && owner == old(owner) && listening == old(listening)
      ensures onSpawn == old(onSpawn) && onLogin == old(onLogin) && onError == old(onError) && onEnd == old(onEnd)
    {
      if listening {
        events := events + [ChatEvent(botId, sender, message)];
      }
    }

    /** Health changed in game: new timestamp and a state update. */
    method Health(now: int)
      modifies this
      ensures !old(listening) ==> unchanged(this)
      ensures old(listening) ==> lastUpdatedAt == now && events == old(events) + [StateUpdate(StateOf(botId, username, status, client, now))]
      ensures client == old(client) && status == old(status)
      ensures promises == old(promises) && owner == old(owner) && listening == old(listening)
      ensures onSpawn == old(onSpawn) && onLogin == old(onLogin) && onError == old(onError) && onEnd == old(onEnd)
    {
      if listening {
        lastUpdatedAt := now;
        events := events + [StateUpdate(GetState())];
      }
    }

    /** The bot died in game: a death event, then a state update. */
    method Death()
      modifies this
      ensures events == if old(listening) then old(events) + [DeathEvent(botId), StateUpdate(GetState())] else old(events)
      ensures client == old(client) && status == old(status) && lastUpdatedAt == old(lastUpdatedAt)
      ensures promises == old(promises) && owner == old(owner) && listening == old(listening)
      ensures onSpawn == old(onSpawn) && onLogin == old(onLogin) && onError == old(onError) && onEnd == old(onEnd)
    {
      if listening {
        events := events + [DeathEvent(botId)];
        events := events + [StateUpdate(GetState())];
      }
    }

    /** Some entity was hurt; a damage event only when it is the bot's own entity. */
    method EntityHurt(entityId: int)
      modifies this
      ensures events == if old(listening) && client.Some? && client.value.entity.Some? && client.value.entity.value.id == entityId
        then old(events) + [DamageEvent(botId)] else old(events)
      ensures client == old(client) && status == old(status) && lastUpdatedAt == old(lastUpdatedAt)
      ensures promises == old(promises) && owner == old(owner) && listening == old(listening)
      ensures onSpawn == old(onSpawn) && onLogin == old(onLogin) && onError == old(onError) && onEnd == old(onEnd)
    {
      if listening && client.Some? && client.value.entity.Some? && client.value.entity.value.id == entityId {
        events := events + [DamageEvent(botId)];
      }
    }

    /** The bot moved; only the timestamp changes and nothing is emitted. */
    method Move(now: int)
      modifies this
      ensures lastUpdatedAt == if old(listening) then now else old(lastUpdatedAt)
      ensures events == old(events)
      ensures client == old(client) && status == old(status)
      ensures promises == old(promises) && owner == old(owner) && listening == old(listening)
      ensures onSpawn == old(onSpawn) && onLogin == old(onLogin) && onError == old(onError) && onEnd == old(onEnd)
    {
      if listening {
        lastUpdatedAt := now;
      }
    }

    /** The game client's own readings changed (position, health, inventory); nothing is emitted. */
    method ClientChanged(c: Client)
      requires Valid()
      modifies this
      ensures Valid()
      ensures client == if old(client).Some? then Some(c) else None
      ensures status == old(status) && lastUpdatedAt == old(lastUpdatedAt) && events == old(events)
      ensures promises == old(promises) && owner == old(owner) && listening == old(listening)
      ensures onSpawn == old(onSpawn) && onLogin == old(onLogin) && onError == old(onError) && onEnd == old(onEnd)
    {
      if client.Some? {
        client := Some(c);
      }
    }

    /**
     * `disconnect()`: drops the client with all its listeners, then sets
     * the status to disconnected. A second call only moves the timestamp.
     */
    method Disconnect(now: int)
      requires Valid()
      modifies this
      ensures Valid()
      ensures client.None? && status == Disconnected && lastUpdatedAt == now
      ensures !onSpawn && !onLogin && !onError && !onEnd && !listening
      ensures events == old(events) + StatusEvents(botId, username, old(status), Disconnected, None, now)
      ensures promises == old(promises) && owner == old(owner)
      ensures old(client).None? && old(status) == Disconnected ==> events == old(events)
    {
      if client.Some? {
        onSpawn, onLogin, onError, onEnd, listening := false, false, false, false, false;
        client := None;
      }
      SetStatus(Disconnected, now);
    }
  }
}
