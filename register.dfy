/**
 * Startup registration of the thirteen built-in action handlers, in the
 * order movement, mining, combat, interaction, chat.
 */
module Register {
  import opened Common
  import opened Model
  import opened Registry

  /** The built-in handler of each type. */
  function BuiltIn(t: ActionType): (h: Handler)
    ensures h.actionType == t
  {
    match t
    case MoveToType => Handler(MoveToType, "moveToHandler")
    case JumpType => Handler(JumpType, "jumpHandler")
    case SprintType => Handler(SprintType, "sprintHandler")
    case SneakType => Handler(SneakType, "sneakHandler")
    case LookAtType => Handler(LookAtType, "lookAtHandler")
    case DigType => Handler(DigType, "digHandler")
    case PlaceBlockType => Handler(PlaceBlockType, "placeBlockHandler")
    case AttackType => Handler(AttackType, "attackHandler")
    case EquipType => Handler(EquipType, "equipHandler")
    case UseItemType => Handler(UseItemType, "useItemHandler")
    case OpenContainerType => Handler(OpenContainerType, "openContainerHandler")
    case InteractEntityType => Handler(InteractEntityType, "interactEntityHandler")
    case SendChatType => Handler(SendChatType, "sendChatHandler")
  }

  // The handlers of each source file, registered in this order.

  function MovementTable(m: map<ActionType, Handler>): map<ActionType, Handler> {
    m[MoveToType := BuiltIn(MoveToType)][JumpType := BuiltIn(JumpType)][SprintType := BuiltIn(SprintType)]
     [SneakType := BuiltIn(SneakType)][LookAtType := BuiltIn(LookAtType)]
  }

  function MiningTable(m: map<ActionType, Handler>): map<ActionType, Handler> {
    m[DigType := BuiltIn(DigType)][PlaceBlockType := BuiltIn(PlaceBlockType)]
  }

  function CombatTable(m: map<ActionType, Handler>): map<ActionType, Handler> {
    m[AttackType := BuiltIn(AttackType)][EquipType := BuiltIn(EquipType)]
  }

  function InteractionTable(m: map<ActionType, Handler>): map<ActionType, Handler> {
    m[UseItemType := BuiltIn(UseItemType)][OpenContainerType := BuiltIn(OpenContainerType)]
     [InteractEntityType := BuiltIn(InteractEntityType)]
  }

  function ChatTable(m: map<ActionType, Handler>): map<ActionType, Handler> {
    m[SendChatType := BuiltIn(SendChatType)]
  }

  /** The handler table after the built-in handlers are registered on top of `m`. */
  function TableAfterAll(m: map<ActionType, Handler>): map<ActionType, Handler> {
    ChatTable(InteractionTable(CombatTable(MiningTable(MovementTable(m)))))
  }

  /** The key listing after the built-in handlers are registered on top of `order`. */
  function ListingAfterAll(order: seq<ActionType>): seq<ActionType> {
    WithKey(WithKey(WithKey(WithKey(WithKey(WithKey(WithKey(WithKey(WithKey(WithKey(WithKey(WithKey(WithKey(
      order, MoveToType), JumpType), SprintType), SneakType), LookAtType), DigType), PlaceBlockType),
      AttackType), EquipType), UseItemType), OpenContainerType), InteractEntityType), SendChatType)
  }

  /** The five handler files. */
  datatype Family = Movement | Mining | Combat | Interaction | Chat

  function FamilyOf(t: ActionType): Family {
    match t
    case MoveToType | JumpType | SprintType | SneakType | LookAtType => Movement
    case DigType | PlaceBlockType => Mining
    case AttackType | EquipType => Combat
    case UseItemType | OpenContainerType | InteractEntityType => Interaction
    case SendChatType => Chat
  }

  function FamilyTable(m: map<ActionType, Handler>, f: Family): map<ActionType, Handler> {
    match f
    case Movement => MovementTable(m)
    case Mining => MiningTable(m)
    case Combat => CombatTable(m)
    case Interaction => InteractionTable(m)
    case Chat => ChatTable(m)
  }

  /** A file's registrations bind each of its own types to the built-in handler ... */
  lemma FamilyTableBinds(m: map<ActionType, Handler>, t: ActionType)
    ensures t in FamilyTable(m, FamilyOf(t)) && FamilyTable(m, FamilyOf(t))[t] == BuiltIn(t)
  {
  }

  /** ... and leave the binding of every other type as it was. */
  lemma FamilyTableKeeps(m: map<ActionType, Handler>, f: Family, t: ActionType)
    requires FamilyOf(t) != f
    ensures t in FamilyTable(m, f) <==> t in m
    ensures t in m ==> FamilyTable(m, f)[t] == m[t]
  {
  }

  /** Whatever was bound before, afterwards each type is bound to its built-in handler. */
  lemma {:induction false} TableAfterAllBinds(m: map<ActionType, Handler>, t: ActionType)
    ensures t in TableAfterAll(m) && TableAfterAll(m)[t] == BuiltIn(t)
  {
    var m1 := MovementTable(m);
    var m2 := MiningTable(m1);
    var m3 := CombatTable(m2);
    var m4 := InteractionTable(m3);
    assert FamilyTable(m, Movement) == m1 && FamilyTable(m1, Mining) == m2 && FamilyTable(m2, Combat) == m3;
    assert FamilyTable(m3, Interaction) == m4 && FamilyTable(m4, Chat) == TableAfterAll(m);
    match FamilyOf(t)
    case Movement =>
      FamilyTableBinds(m, t);
      FamilyTableKeeps(m1, Mining, t);
      FamilyTableKeeps(m2, Combat, t);
      FamilyTableKeeps(m3, Interaction, t);
      FamilyTableKeeps(m4, Chat, t);
    case Mining =>
      FamilyTableBinds(m1, t);
      FamilyTableKeeps(m2, Combat, t);
      FamilyTableKeeps(m3, Interaction, t);
      FamilyTableKeeps(m4, Chat, t);
    case Combat =>
      FamilyTableBinds(m2, t);
      FamilyTableKeeps(m3, Interaction, t);
      FamilyTableKeeps(m4, Chat, t);
    case Interaction =>
      FamilyTableBinds(m3, t);
      FamilyTableKeeps(m4, Chat, t);
    case Chat =>
      FamilyTableBinds(m4, t);
  }

  /** Registering the built-in handlers a second time changes nothing. */
  lemma RegisterAllIdempotent(m: map<ActionType, Handler>)
    ensures TableAfterAll(TableAfterAll(m)) == TableAfterAll(m)
  {
    forall t ensures t in TableAfterAll(TableAfterAll(m)) && t in TableAfterAll(m)
      && TableAfterAll(TableAfterAll(m))[t] == TableAfterAll(m)[t]
    {
      TableAfterAllBinds(m, t);
      TableAfterAllBinds(TableAfterAll(m), t);
    }
  }

  /**
   * Registers each built-in handler under its own type. Afterwards all
   * thirteen types are bound, whatever was registered before, so a second
   * call leaves the same thirteen bindings.
   */
  method RegisterAllActions(r: ActionRegistry)
    requires r.Valid()
    modifies r
    ensures r.Valid()
    ensures r.handlers == TableAfterAll(old(r.handlers))
    ensures r.order == ListingAfterAll(old(r.order))
    ensures forall t :: r.Get(t) == Some(BuiltIn(t))
    ensures forall t :: t in r.RegisteredTypes()
    ensures |r.RegisteredTypes()| == 13
  {
    // Movement
    r.Register(BuiltIn(MoveToType));
    r.Register(BuiltIn(JumpType));
    r.Register(BuiltIn(SprintType));
    r.Register(BuiltIn(SneakType));
    r.Register(BuiltIn(LookAtType));
    // Mining
    r.Register(BuiltIn(DigType));
    r.Register(BuiltIn(PlaceBlockType));
    // Combat
    r.Register(BuiltIn(AttackType));
    r.Register(BuiltIn(EquipType));
    // Interaction
    r.Register(BuiltIn(UseItemType));
    r.Register(BuiltIn(OpenContainerType));
    r.Register(BuiltIn(InteractEntityType));
    // Chat
    r.Register(BuiltIn(SendChatType));
    forall t ensures t in r.handlers && r.handlers[t] == BuiltIn(t) {
      TableAfterAllBinds(old(r.handlers), t);
    }
    AllTypesBound(r.handlers);
  }

  /** A table that binds every type has thirteen keys. */
  lemma AllTypesBound(handlers: map<ActionType, Handler>)
    requires forall t :: t in handlers
    ensures |handlers| == 13
  {
    ActionTypeCount();
    forall t ensures t in AllActionTypes {
      ActionTypeRoundTrip(t);
    }
    assert handlers.Keys == SetOf(AllActionTypes);
    NoDuplicatesCardinality(AllActionTypes);
  }
}
