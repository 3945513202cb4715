/**
 * The values that cross the bot server's HTTP and WebSocket boundaries:
 * positions, bot state, the thirteen bot actions, action results and the
 * WebSocket messages, with the field bounds the request schemas enforce.
 *
 * Each literal union of the schemas is a datatype together with the text
 * of each value and a parser that accepts exactly those texts.
 */
module Model {
  import opened Common

  // ---------------------------------------------------------------------------
  // Shared primitives
  // ---------------------------------------------------------------------------

  datatype Vec3 = Vec3(x: real, y: real, z: real)

  datatype Orientation = Orientation(yaw: real, pitch: real)

  datatype InventorySlot = InventorySlot(slot: int, name: string, count: int)

  // ---------------------------------------------------------------------------
  // Bot lifecycle
  // ---------------------------------------------------------------------------

  datatype BotStatus = Connecting | Connected | Spawned | Disconnected | Error

  function StatusName(s: BotStatus): string {
    match s
    case Connecting => "connecting"
    case Connected => "connected"
    case Spawned => "spawned"
    case Disconnected => "disconnected"
    case Error => "error"
  }

  const AllStatuses: seq<BotStatus> := [Connecting, Connected, Spawned, Disconnected, Error]

  /** The status schema: accepts exactly the five status texts. */
  function ParseStatus(text: string): (r: Option<BotStatus>)
    ensures r.Some? ==> StatusName(r.value) == text
    ensures r.None? ==> forall s :: StatusName(s) != text
  {
    if text == "connecting" then Some(Connecting)
    else if text == "connected" then Some(Connected)
    else if text == "spawned" then Some(Spawned)
    else if text == "disconnected" then Some(Disconnected)
    else if text == "error" then Some(Error)
    else None
  }

  lemma StatusRoundTrip(s: BotStatus)
    ensures ParseStatus(StatusName(s)) == Some(s)
    ensures s in AllStatuses
  {
  }

  lemma StatusCount()
    ensures |AllStatuses| == 5 && NoDuplicates(AllStatuses)
  {
  }

  /**
   * A bot's state as the server reports it: everything read from the game
   * client is absent while there is no client. `lastUpdatedAt` is the time
   * in milliseconds (the server sends it as an ISO text).
   */
  datatype BotState = BotState(
    botId: string,
    username: string,
    status: BotStatus,
    position: Option<Vec3>,
    orientation: Option<Orientation>,
    health: Option<real>,
    food: Option<real>,
    gameMode: Option<string>,
    inventory: seq<InventorySlot>,
    lastUpdatedAt: int)

  /** Body of a create-bot request; `port` is any JSON number. */
  datatype CreateBotBody = CreateBotBody(
    username: string,
    host: Option<string>,
    port: Option<real>,
    version: Option<string>)

  /** The create-bot schema: a 1 to 16 unit username and a port in 1..65535 when given. */
  predicate ValidCreateBotBody(b: CreateBotBody) {
    1 <= Utf16Length(b.username) <= 16
    && (b.port.Some? ==> 1.0 <= b.port.value <= 65535.0)
  }

  lemma CreateBotBodyBounds(b: CreateBotBody)
    requires ValidCreateBotBody(b)
    ensures 1 <= |b.username| <= 16
    ensures b.port.Some? ==> 1 <= b.port.value.Floor <= 65535
  {
  }

  /** The bot-id path parameter: a non-empty text. */
  predicate ValidBotIdParam(botId: string) {
    Utf16Length(botId) >= 1
  }

  // ---------------------------------------------------------------------------
  // Actions
  // ---------------------------------------------------------------------------

  datatype BlockFace = Top | Bottom | North | South | East | West

  function FaceName(f: BlockFace): string {
    match f
    case Top => "top"
    case Bottom => "bottom"
    case North => "north"
    case South => "south"
    case East => "east"
    case West => "west"
  }

  const AllFaces: seq<BlockFace> := [Top, Bottom, North, South, East, West]

  function ParseFace(text: string): (r: Option<BlockFace>)
    ensures r.Some? ==> FaceName(r.value) == text
    ensures r.None? ==> forall f :: FaceName(f) != text
  {
    if text == "top" then Some(Top)
    else if text == "bottom" then Some(Bottom)
    else if text == "north" then Some(North)
    else if text == "south" then Some(South)
    else if text == "east" then Some(East)
    else if text == "west" then Some(West)
    else None
  }

  lemma FaceRoundTrip(f: BlockFace)
    ensures ParseFace(FaceName(f)) == Some(f)
    ensures f in AllFaces
  {
  }

  lemma FaceCount()
    ensures |AllFaces| == 6 && NoDuplicates(AllFaces)
  {
  }

  datatype EquipDestination = Hand | OffHand | Head | Torso | Legs | Feet

  function DestinationName(d: EquipDestination): string {
    match d
    case Hand => "hand"
    case OffHand => "off-hand"
    case Head => "head"
    case Torso => "torso"
    case Legs => "legs"
    case Feet => "feet"
  }

  function ParseDestination(text: string): (r: Option<EquipDestination>)
    ensures r.Some? ==> DestinationName(r.value) == text
    ensures r.None? ==> forall d :: DestinationName(d) != text
  {
    if text == "hand" then Some(Hand)
    else if text == "off-hand" then Some(OffHand)
    else if text == "head" then Some(Head)
    else if text == "torso" then Some(Torso)
    else if text == "legs" then Some(Legs)
    else if text == "feet" then Some(Feet)
    else None
  }

  lemma DestinationRoundTrip(d: EquipDestination)
    ensures ParseDestination(DestinationName(d)) == Some(d)
  {
  }

  /** The `type` discriminator of the thirteen actions. */
  datatype ActionType =
    | MoveToType | JumpType | SprintType | SneakType | LookAtType
    | DigType | PlaceBlockType | AttackType | EquipType | UseItemType
    | OpenContainerType | InteractEntityType | SendChatType

  function Tag(t: ActionType): string {
    match t
    case MoveToType => "move-to"
    case JumpType => "jump"
    case SprintType => "sprint"
    case SneakType => "sneak"
    case LookAtType => "look-at"
    case DigType => "dig"
    case PlaceBlockType => "place-block"
    case AttackType => "attack"
    case EquipType => "equip"
    case UseItemType => "use-item"
    case OpenContainerType => "open-container"
    case InteractEntityType => "interact-entity"
    case SendChatType => "send-chat"
  }

  /** The thirteen types in the order the action union lists them. */
  const AllActionTypes: seq<ActionType> := [
    MoveToType, JumpType, SprintType, SneakType, LookAtType,
    DigType, PlaceBlockType, AttackType, EquipType, UseItemType,
    OpenContainerType, InteractEntityType, SendChatType
  ]

  function ParseActionType(text: string): (r: Option<ActionType>)
    ensures r.Some? ==> Tag(r.value) == text
    ensures r.None? ==> forall t :: Tag(t) != text
  {
    if text == "move-to" then Some(MoveToType)
    else if text == "jump" then Some(JumpType)
    else if text == "sprint" then Some(SprintType)
    else if text == "sneak" then Some(SneakType)
    else if text == "look-at" then Some(LookAtType)
    else if text == "dig" then Some(DigType)
    else if text == "place-block" then Some(PlaceBlockType)
    else if text == "attack" then Some(AttackType)
    else if text == "equip" then Some(EquipType)
    else if text == "use-item" then Some(UseItemType)
    else if text == "open-container" then Some(OpenContainerType)
    else if text == "interact-entity" then Some(InteractEntityType)
    else if text == "send-chat" then Some(SendChatType)
    else None
  }

  lemma ActionTypeRoundTrip(t: ActionType)
    ensures ParseActionType(Tag(t)) == Some(t)
    ensures t in AllActionTypes
  {
  }

  /** Distinct types have distinct tags, and there are thirteen of them. */
  lemma ActionTypeCount()
    ensures |AllActionTypes| == 13 && NoDuplicates(AllActionTypes)
    ensures forall t, u :: Tag(t) == Tag(u) ==> t == u
  {
    forall t, u | Tag(t) == Tag(u) ensures t == u {
      ActionTypeRoundTrip(t);
      ActionTypeRoundTrip(u);
    }
  }

  /** The action union; every variant names the bot it is for. */
  datatype BotAction =
    | MoveTo(botId: string, position: Vec3)
    | Jump(botId: string)
    | Sprint(botId: string, enabled: bool)
    | Sneak(botId: string, enabled: bool)
    | LookAt(botId: string, position: Vec3)
    | Dig(botId: string, position: Vec3)
    | PlaceBlock(botId: string, position: Vec3, face: BlockFace)
    | Attack(botId: string, target: string)
    | Equip(botId: string, itemName: string, destination: EquipDestination)
    | UseItem(botId: string)
    | OpenContainer(botId: string, position: Vec3)
    | InteractEntity(botId: string, target: string)
    | SendChat(botId: string, message: string)

  function TypeOf(a: BotAction): ActionType {
    match a
    case MoveTo(_, _) => MoveToType
    case Jump(_) => JumpType
    case Sprint(_, _) => SprintType
    case Sneak(_, _) => SneakType
    case LookAt(_, _) => LookAtType
    case Dig(_, _) => DigType
    case PlaceBlock(_, _, _) => PlaceBlockType
    case Attack(_, _) => AttackType
    case Equip(_, _, _) => EquipType
    case UseItem(_) => UseItemType
    case OpenContainer(_, _) => OpenContainerType
    case InteractEntity(_, _) => InteractEntityType
    case SendChat(_, _) => SendChatType
  }

  /** One sample action of each type, for the bot `b`. */
  function SampleAction(t: ActionType, b: string): (a: BotAction)
    ensures TypeOf(a) == t && a.botId == b
  {
    match t
    case MoveToType => MoveTo(b, Vec3(0.0, 0.0, 0.0))
    case JumpType => Jump(b)
    case SprintType => Sprint(b, true)
    case SneakType => Sneak(b, true)
    case LookAtType => LookAt(b, Vec3(0.0, 0.0, 0.0))
    case DigType => Dig(b, Vec3(0.0, 0.0, 0.0))
    case PlaceBlockType => PlaceBlock(b, Vec3(0.0, 0.0, 0.0), Top)
    case AttackType => Attack(b, "")
    case EquipType => Equip(b, "", Hand)
    case UseItemType => UseItem(b)
    case OpenContainerType => OpenContainer(b, Vec3(0.0, 0.0, 0.0))
    case InteractEntityType => InteractEntity(b, "")
    case SendChatType => SendChat(b, "")
  }

  /** Every one of the thirteen types is the type of some action, for any bot. */
  lemma ActionUnionIsComplete(t: ActionType, b: string)
    ensures exists a :: TypeOf(a) == t && a.botId == b
  {
    var a := SampleAction(t, b);
    assert TypeOf(a) == t && a.botId == b;
  }

  /** The action schema's one field bound: a chat message of 1 to 256 units. */
  predicate ValidAction(a: BotAction) {
    a.SendChat? ==> 1 <= Utf16Length(a.message) <= 256
  }

  lemma ValidChatBounds(a: BotAction)
    requires a.SendChat? && ValidAction(a)
    ensures 1 <= |a.message| <= 256
  {
  }

  // ---------------------------------------------------------------------------
  // Action results
  // ---------------------------------------------------------------------------

  datatype ActionStatus = Success | Failure | Cancelled

  function ActionStatusName(s: ActionStatus): string {
    match s
    case Success => "success"
    case Failure => "failure"
    case Cancelled => "cancelled"
  }

  function ParseActionStatus(text: string): (r: Option<ActionStatus>)
    ensures r.Some? ==> ActionStatusName(r.value) == text
    ensures r.None? ==> forall s :: ActionStatusName(s) != text
  {
    if text == "success" then Some(Success)
    else if text == "failure" then Some(Failure)
    else if text == "cancelled" then Some(Cancelled)
    else None
  }

  lemma ActionStatusRoundTrip(s: ActionStatus)
    ensures ParseActionStatus(ActionStatusName(s)) == Some(s)
  {
  }

  /** The outcome of one action; times are milliseconds. */
  datatype ActionResult = ActionResult(
    botId: string,
    actionType: string,
    status: ActionStatus,
    message: string,
    durationMs: int,
    completedAt: int)

  // ---------------------------------------------------------------------------
  // WebSocket messages
  // ---------------------------------------------------------------------------

  datatype WsClientMessage =
    | Subscribe(botIds: seq<string>)
    | Unsubscribe(botIds: seq<string>)
    | ExecuteAction(action: BotAction)
    | Ping

  function ClientKind(m: WsClientMessage): string {
    match m
    case Subscribe(_) => "subscribe"
    case Unsubscribe(_) => "unsubscribe"
    case ExecuteAction(_) => "execute-action"
    case Ping => "ping"
  }

  /** The `data` record of a bot event. */
  datatype EventData =
    | ChatData(username: string, message: string)
    | ErrorData(message: string)

  datatype WsServerMessage =
    | BotStateUpdate(state: BotState)
    | ActionResultMessage(result: ActionResult)
    | BotEventMessage(botId: string, event: string, data: EventData)
    | ErrorMessage(message: string, code: Option<string>)
    | Pong

  function ServerKind(m: WsServerMessage): string {
    match m
    case BotStateUpdate(_) => "bot-state-update"
    case ActionResultMessage(_) => "action-result"
    case BotEventMessage(_, _, _) => "bot-event"
    case ErrorMessage(_, _) => "error"
    case Pong => "pong"
  }

  const ClientKinds: seq<string> := ["subscribe", "unsubscribe", "execute-action", "ping"]

  const ServerKinds: seq<string> := ["bot-state-update", "action-result", "bot-event", "error", "pong"]

  /** Four client kinds and five server kinds; the kind text names the variant. */
  lemma MessageKinds(m: WsClientMessage, n: WsClientMessage, p: WsServerMessage, q: WsServerMessage)
    ensures |ClientKinds| == 4 && NoDuplicates(ClientKinds) && ClientKind(m) in ClientKinds
    ensures |ServerKinds| == 5 && NoDuplicates(ServerKinds) && ServerKind(p) in ServerKinds
    ensures ClientKind(m) == ClientKind(n) ==>
      (m.Subscribe? == n.Subscribe? && m.Unsubscribe? == n.Unsubscribe?
       && m.ExecuteAction? == n.ExecuteAction? && m.Ping? == n.Ping?)
    ensures ServerKind(p) == ServerKind(q) ==>
      (p.BotStateUpdate? == q.BotStateUpdate? && p.ActionResultMessage? == q.ActionResultMessage?
       && p.BotEventMessage? == q.BotEventMessage? && p.ErrorMessage? == q.ErrorMessage? && p.Pong? == q.Pong?)
  {
  }

  // ---------------------------------------------------------------------------
  // The connection manager, as the other components see it
  // ---------------------------------------------------------------------------

  /** What the connection manager knows of one bot. */
  datatype BotEntry = BotEntry(status: BotStatus, hasMineflayerBot: bool, state: BotState)

  /** The connection manager's table, by bot id. */
  type Bots = map<string, BotEntry>
}
