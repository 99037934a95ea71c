/**
 * The PluQ wire messages, as the FlatBuffers readers present them.
 *
 * The byte-level FlatBuffers layout is not modelled: a received buffer either
 * reads as a well-formed root table, or `_as_root` returns NULL for it. The
 * code never runs the FlatBuffers verifier, so a corrupt buffer with a valid
 * header is outside this model. Optional sub-structures (vectors stored as structs,
 * strings) are `Option`s because the generated accessors return NULL for an
 * absent field; absent scalars read as their default and are not optional.
 */
module Schema {
  import opened CTypes

  /** A received buffer: a well-formed root table, or one `_as_root` returns
      NULL for. */
  datatype Buffer<+T> = Root(root: T) | InvalidRoot

  /** `PluQ_Vec3_t`: a struct of three floats. */
  datatype FbVec3 = FbVec3(x: real, y: real, z: real)

  /** `PluQ_Entity`. `alpha` is the byte alpha divided by 255. */
  datatype EntityMsg = EntityMsg(
    origin: FbVec3,
    angles: FbVec3,
    modelId: uint16,
    frame: uint8,
    colormap: uint8,
    skin: uint8,
    effects: uint32,
    alpha: real)

  /** `PluQ_FrameUpdate`, the per-tick snapshot. */
  datatype FrameUpdateMsg = FrameUpdateMsg(
    frameNumber: uint32,
    timestamp: real,
    viewOrigin: Option<FbVec3>,
    viewAngles: Option<FbVec3>,
    health: int16,
    armor: int16,
    weapon: uint8,
    ammo: uint16,
    paused: bool,
    inGame: bool,
    entities: seq<EntityMsg>)

  /** `PluQ_GameplayEvent`, the union carried by a `PluQ_GameplayMessage`.
      `NoEvent` is the union's NONE tag and `UnknownEvent` a tag this reader
      does not know (a newer schema). */
  datatype GameplayEvent =
    | FrameUpdate(frame: FrameUpdateMsg)
    | MapChanged(mapname: Option<string>)
    | Disconnected(reason: Option<string>)
    | NoEvent
    | UnknownEvent(tag: uint8)

  /** `PluQ_InputCommand`. `cmdText` is the text up to its terminator. */
  datatype InputCommandMsg = InputCommandMsg(
    sequence: uint32,
    timestamp: real,
    forwardMove: real,
    sideMove: real,
    upMove: real,
    viewAngles: Option<FbVec3>,
    buttons: uint32,
    impulse: uint8,
    cmdText: Option<string>)

  /** An input command with every field at its default: what a builder that
      adds no field produces. */
  const EmptyInputCommand := InputCommandMsg(0, 0.0, 0.0, 0.0, 0.0, None, 0, 0, None)

  /** `PluQ_ResourceType`. */
  datatype ResourceType = TextureResource | ModelResource

  /** `PluQ_ResourceRequest`. */
  datatype ResourceRequest = ResourceRequest(
    resourceType: ResourceType,
    resourceId: uint32,
    resourceName: Option<string>)

  /** `PluQ_Texture`. */
  datatype TextureMsg = TextureMsg(width: uint16, height: uint16, pixels: seq<uint8>)

  /** `PluQ_ResourceData`, the union carried by a `PluQ_ResourceResponse`.
      A texture tag whose table is missing reads as `TextureData(None)`. */
  datatype ResourceData =
    | TextureData(texture: Option<TextureMsg>)
    | ModelData
    | NoData
    | UnknownData(tag: uint8)

  /** `PluQ_ResourceResponse`. */
  datatype ResourceResponse = ResourceResponse(resourceId: uint32, data: ResourceData)
}
