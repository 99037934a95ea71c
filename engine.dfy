/**
 * The parts of the Quake engine that the PluQ core reads and writes.
 *
 * The engine itself (the client state `cl`, the connection state `cls`, the
 * refresh definition `r_refdef`, the visible-entity list, the movement command)
 * is outside this model; these records give its fields the shapes the core sees.
 * Vectors are `vec3_t`, three floats, modelled as three reals.
 */
module Engine {
  import opened CTypes

  /** `vec3_t`: exactly three components. */
  type QuakeVec3 = v: seq<real> | |v| == 3 witness [0.0, 0.0, 0.0]

  const VecZero: QuakeVec3 := [0.0, 0.0, 0.0]

  /** `cls.state`. */
  datatype ConnState = Dedicated | Disconnected | Connected

  /** One entry of `cl_visedicts`: the `entity_t` fields the backend publishes.
      `model` is the address of the entity's model, `None` for a null pointer;
      `colormap` is the first byte of the colormap, `None` for a null pointer;
      `alpha` is the entity's byte-encoded alpha. */
  datatype ClientEntity = ClientEntity(
    origin: QuakeVec3,
    angles: QuakeVec3,
    model: Option<nat>,
    frame: int,
    colormap: Option<uint8>,
    skinnum: int,
    effects: int,
    alpha: uint8)

  /** The engine globals the core reads or writes: `cl.worldmodel != NULL`,
      `cls.state`, `cl.time`, `r_refdef.vieworg`, `cl.viewangles`, the four
      `cl.stats` slots it uses, `cl.paused`, and `cl_visedicts[0..cl_numvisedicts)`
      with `None` for a null entry. */
  datatype ClientState = ClientState(
    hasWorldModel: bool,
    state: ConnState,
    time: real,
    viewOrigin: QuakeVec3,
    viewAngles: QuakeVec3,
    health: int32,
    armor: int32,
    weapon: int32,
    ammo: int32,
    paused: int32,
    visEdicts: seq<Option<ClientEntity>>)

  /** `usercmd_t`: the movement command the engine builds each frame. */
  datatype UserCmd = UserCmd(
    viewAngles: QuakeVec3,
    forwardMove: real,
    sideMove: real,
    upMove: real)
}
