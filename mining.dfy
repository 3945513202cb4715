// The dig and place-block handlers. The world is abstracted to what the
// block lookup found and how the world call ended; the handler reports the
// call it would make, so "the call is not made" is part of the result.

module Mining {
  import opened Common
  import opened Model

  /** A unit offset towards one face of a block. */
  datatype Offset = Offset(x: int, y: int, z: int)

  /** The offset of each face. */
  function FaceToVec3(face: BlockFace): (v: Offset)
  {
    match face
    case Top => Offset(0, 1, 0)
    case Bottom => Offset(0, -1, 0)
    case North => Offset(0, 0, -1)
    case South => Offset(0, 0, 1)
    case East => Offset(1, 0, 0)
    case West => Offset(-1, 0, 0)
  }

  function Negate(v: Offset): Offset {
    Offset(-v.x, -v.y, -v.z)
  }

  /** The face on the other side of the block. */
  function Opposite(face: BlockFace): BlockFace {
    match face
    case Top => Bottom
    case Bottom => Top
    case North => South
    case South => North
    case East => West
    case West => East
  }

  predicate UnitAxis(v: Offset) {
    && -1 <= v.x <= 1 && -1 <= v.y <= 1 && -1 <= v.z <= 1
    && (if v.x == 0 then 0 else 1) + (if v.y == 0 then 0 else 1) + (if v.z == 0 then 0 else 1) == 1
  }

  /** Every face gives a unit axis vector. */
  lemma FaceIsUnitAxis(f: BlockFace)
    ensures UnitAxis(FaceToVec3(f))
  {
    match f
    case Top =>
    case Bottom =>
    case North =>
    case South =>
    case East =>
    case West =>
  }

  /** Opposite faces give negated offsets. */
  lemma OppositeFacesNegate(f: BlockFace)
    ensures FaceToVec3(Opposite(f)) == Negate(FaceToVec3(f))
  {
    match f
    case Top =>
    case Bottom =>
    case North =>
    case South =>
    case East =>
    case West =>
  }

  /** Every face differs from its opposite, whose opposite is the face again. */
  lemma OppositeInvolution(f: BlockFace)
    ensures Opposite(Opposite(f)) == f && Opposite(f) != f
  {
    match f
    case Top =>
    case Bottom =>
    case North =>
    case South =>
    case East =>
    case West =>
  }

  /** No two faces share an offset. */
  lemma FaceOffsetsDistinct(f: BlockFace, g: BlockFace)
    ensures FaceToVec3(f) == FaceToVec3(g) <==> f == g
  {
    match f
    case Top =>
    case Bottom =>
    case North =>
    case South =>
    case East =>
    case West =>
  }

  /** What the lookup of the target block produced. */
  datatype Lookup = Found(name: string) | NoBlock | LookupThrew(message: string)

  /** How the world call ended. */
  datatype Call = Returned | Raised(message: string)

  /** A world call a handler makes. */
  datatype Request = DigBlock(at: Vec3) | PlaceOn(at: Vec3, against: Offset)

  /** A handler's result and the world call it made, if any. */
  datatype Run = Run(result: ActionResult, request: Option<Request>)

  function Finished(botId: string, actionType: ActionType, status: ActionStatus, message: string, start: int, finish: int): ActionResult {
    ActionResult(botId, Tag(actionType), status, message, finish - start, finish)
  }

  /** The text a position takes in messages, with `show` rendering one number. */
  function Coordinates(p: Vec3, show: real -> string): string {
    "(" + (show(p.x) + (", " + (show(p.y) + (", " + (show(p.z) + ")")))))
  }

  /**
   * Dig at `position`: no block and an air block are refused before the
   * world is touched; otherwise the block is dug. An error in the lookup or
   * the dig becomes a failure carrying its message.
   */
  function DigHandler(botId: string, position: Vec3, lookup: Lookup, dig: Call,
                      start: int, finish: int, show: real -> string): (run: Run)
    ensures run.result.botId == botId && run.result.actionType == "dig"
    ensures run.result.durationMs == finish - start && run.result.completedAt == finish
    ensures run.result.status != Cancelled
    ensures run.request.Some? <==> (lookup.Found? && lookup.name != "air")
    ensures run.request.Some? ==> run.request.value == DigBlock(position)
    ensures lookup.NoBlock? ==>
      run.result.status == Failure && run.result.message == "No block at " + Coordinates(position, show)
    ensures lookup == Found("air") ==> run.result.status == Failure && run.result.message == "Cannot dig air"
    ensures lookup.LookupThrew? ==> run.result.status == Failure && run.result.message == lookup.message
    ensures run.result.status == Success <==> run.request.Some? && dig.Returned?
    ensures run.request.Some? && dig.Raised? ==> run.result.message == dig.message
    ensures run.result.status == Success ==>
      run.result.message == "Dug " + lookup.name + " at " + Coordinates(position, show)
  {
    match lookup
    case LookupThrew(message) => Run(Finished(botId, DigType, Failure, message, start, finish), None)
    case NoBlock =>
      Run(Finished(botId, DigType, Failure, "No block at " + Coordinates(position, show), start, finish), None)
    case Found(name) =>
      if name == "air" then Run(Finished(botId, DigType, Failure, "Cannot dig air", start, finish), None)
      else
        var request := Some(DigBlock(position));
        match dig
        case Raised(message) => Run(Finished(botId, DigType, Failure, message, start, finish), request)
        case Returned =>
          Run(Finished(botId, DigType, Success, "Dug " + name + " at " + Coordinates(position, show), start, finish), request)
  }

  /**
   * Place a block against `face` of the block at `position`: a missing
   * reference block is refused before the world is touched; any block,
   * air included, is placed against with the face's offset.
   */
  function PlaceBlockHandler(botId: string, position: Vec3, face: BlockFace, lookup: Lookup, place: Call,
                             start: int, finish: int, show: real -> string): (run: Run)
    ensures run.result.botId == botId && run.result.actionType == "place-block"
    ensures run.result.durationMs == finish - start && run.result.completedAt == finish
    ensures run.result.status != Cancelled
    ensures run.request.Some? <==> lookup.Found?
    ensures run.request.Some? ==> run.request.value == PlaceOn(position, FaceToVec3(face))
    ensures lookup.NoBlock? ==>
      run.result.status == Failure && run.result.message == "No reference block at " + Coordinates(position, show)
    ensures lookup.LookupThrew? ==> run.result.status == Failure && run.result.message == lookup.message
    ensures run.result.status == Success <==> run.request.Some? && place.Returned?
    ensures run.request.Some? && place.Raised? ==> run.result.message == place.message
    ensures run.result.status == Success ==>
      run.result.message == "Placed block against " + FaceName(face) + " face at " + Coordinates(position, show)
  {
    match lookup
    case LookupThrew(message) => Run(Finished(botId, PlaceBlockType, Failure, message, start, finish), None)
    case NoBlock =>
      Run(Finished(botId, PlaceBlockType, Failure, "No reference block at " + Coordinates(position, show), start, finish), None)
    case Found(_) =>
      var request := Some(PlaceOn(position, FaceToVec3(face)));
      match place
      case Raised(message) => Run(Finished(botId, PlaceBlockType, Failure, message, start, finish), request)
      case Returned =>
        Run(Finished(botId, PlaceBlockType, Success,
          "Placed block against " + FaceName(face) + " face at " + Coordinates(position, show), start, finish), request)
  }

  /** Placing against opposite faces of the same block asks for opposite offsets. */
  lemma OppositePlacements(botId: string, position: Vec3, face: BlockFace, name: string,
                           start: int, finish: int, show: real -> string)
    ensures var a := PlaceBlockHandler(botId, position, face, Found(name), Returned, start, finish, show);
            var b := PlaceBlockHandler(botId, position, Opposite(face), Found(name), Returned, start, finish, show);
            a.request.Some? && b.request.Some? && b.request.value.against == Negate(a.request.value.against)
  {
    OppositeFacesNegate(face);
  }
}
