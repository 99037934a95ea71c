/**
 * Definitions shared by the PluQ backend and frontend: the three channel
 * endpoints, the stored input-command and statistics records, and the copies
 * between the engine's `vec3_t` and the wire's `PluQ_Vec3_t`.
 */
module PluqShared {
  import opened CTypes
  import opened Engine
  import opened Schema

  /** Resources channel: request/reply (backend replies, frontend requests). */
  const UrlResources: string := "tcp://127.0.0.1:9001"
  /** Gameplay channel: publish/subscribe (backend publishes). */
  const UrlGameplay: string := "tcp://127.0.0.1:9002"
  /** Input channel: push/pull (frontend pushes, backend pulls). */
  const UrlInput: string := "tcp://127.0.0.1:9003"

  /** Each channel has an endpoint of its own. */
  lemma EndpointsDistinct()
    ensures UrlResources != UrlGameplay
    ensures UrlResources != UrlInput
    ensures UrlGameplay != UrlInput
  {
    assert UrlResources[19] == '1' && UrlGameplay[19] == '2' && UrlInput[19] == '3';
  }

  /** `QuakeVec3_To_FB`: a component-wise copy, undone by `FbVec3ToQuake`. */
  function QuakeVec3ToFb(v: QuakeVec3): (f: FbVec3)
    ensures [f.x, f.y, f.z] == v
  {
    FbVec3(v[0], v[1], v[2])
  }

  /** `FB_Vec3_To_Quake`: a component-wise copy, undone by `QuakeVec3ToFb`. */
  function FbVec3ToQuake(f: FbVec3): (v: QuakeVec3)
    ensures v[0] == f.x && v[1] == f.y && v[2] == f.z
  {
    [f.x, f.y, f.z]
  }

  lemma Vec3RoundTrip(v: QuakeVec3, f: FbVec3)
    ensures FbVec3ToQuake(QuakeVec3ToFb(v)) == v
    ensures QuakeVec3ToFb(FbVec3ToQuake(f)) == f
  {
  }

  /** `cmd_text` is a 256-byte buffer: at most 255 characters and a terminator. */
  const CmdTextSize: nat := 256

  type CmdText = s: string | |s| < CmdTextSize

  /** `pluq_input_cmd_t`, the backend's stored copy of the latest input. */
  datatype InputCmd = InputCmd(
    sequence: uint32,
    timestamp: real,
    forwardMove: real,
    sideMove: real,
    upMove: real,
    viewAngles: QuakeVec3,
    buttons: uint32,
    impulse: uint8,
    cmdText: CmdText)

  const ZeroInputCmd: InputCmd := InputCmd(0, 0.0, 0.0, 0.0, 0.0, VecZero, 0, 0, [])

  /** `pluq_stats_t`. `totalEntities` is a `size_t`, 64 bits wide here. A zero
      `minFrameTime` means that no frame time has been recorded yet. */
  datatype Stats = Stats(
    framesSent: uint64,
    totalTime: real,
    totalEntities: uint64,
    maxFrameTime: real,
    minFrameTime: real)

  const ZeroStats: Stats := Stats(0, 0.0, 0, 0.0, 0.0)
}
