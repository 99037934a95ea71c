/**
 * The PluQ backend: the simulation side. It listens on the three channels,
 * publishes one `FrameUpdate` per tick on the gameplay channel, drains the
 * input channel into a single "current input" record, and applies that record
 * to the engine's movement command and view angles.
 */
module PluqBackend {
  import opened CTypes
  import opened Engine
  import opened Schema
  import opened Transport
  import opened PluqShared
  import opened PluqStats

  // ---------------------------------------------------------------------------
  // Channel setup
  // ---------------------------------------------------------------------------

  /** Open a socket, create a listener on its endpoint, start it. */
  function ListenSetup(protocol: Protocol, url: string): (s: seq<NngCall>)
    ensures |s| == 3
  {
    [SocketOpen(protocol), ListenerCreate(url), ListenerStart(url)]
  }

  /** The nine setup calls of `PluQ_Backend_Enable`, in order: resources,
      then gameplay, then input. */
  const BackendSetup: seq<NngCall> :=
    ListenSetup(Rep0, UrlResources) + ListenSetup(Pub0, UrlGameplay) + ListenSetup(Pull0, UrlInput)

  /** What `PluQ_Backend_Shutdown` closes, in order. */
  const BackendTeardown: seq<NngCall> := [SocketClose(Rep0), SocketClose(Pub0), SocketClose(Pull0)]

  // ---------------------------------------------------------------------------
  // Statistics update rule
  // ---------------------------------------------------------------------------

  /** The statistics after one built frame: one more frame, `numVisEdicts` more
      entities (null entries included), the frame time added to the total, the
      maximum raised to it if exceeded, and the minimum replaced when it was
      still unset (zero) or is exceeded. Counters wrap at 64 bits. */
  function RecordFrame(s: Stats, numVisEdicts: nat, frameTime: real): (r: Stats)
    ensures r.framesSent == ToUInt64(s.framesSent + 1)
    ensures r.totalEntities == ToUInt64(s.totalEntities + numVisEdicts)
    ensures r.totalTime == s.totalTime + frameTime
    ensures r.maxFrameTime >= s.maxFrameTime && r.maxFrameTime >= frameTime
    ensures r.maxFrameTime == s.maxFrameTime || r.maxFrameTime == frameTime
    ensures s.minFrameTime == 0.0 ==> r.minFrameTime == frameTime
    ensures s.minFrameTime != 0.0 ==>
      r.minFrameTime <= s.minFrameTime && r.minFrameTime <= frameTime
      && (r.minFrameTime == s.minFrameTime || r.minFrameTime == frameTime)
  {
    s.(framesSent := ToUInt64(s.framesSent + 1),
       totalEntities := ToUInt64(s.totalEntities + numVisEdicts),
       totalTime := s.totalTime + frameTime,
       maxFrameTime := if frameTime > s.maxFrameTime then frameTime else s.maxFrameTime,
       minFrameTime := if s.minFrameTime == 0.0 || frameTime < s.minFrameTime then frameTime else s.minFrameTime)
  }

  /** What one built frame contributes to the statistics. */
  datatype FrameSample = FrameSample(numVisEdicts: nat, frameTime: real)

  /** The statistics after a series of built frames, oldest first. */
  function RecordFrames(s: Stats, samples: seq<FrameSample>): Stats
  {
    if samples == [] then s
    else
      var last := samples[|samples| - 1];
      RecordFrame(RecordFrames(s, samples[..|samples| - 1]), last.numVisEdicts, last.frameTime)
  }

  function TotalTime(samples: seq<FrameSample>): real {
    if samples == [] then 0.0 else TotalTime(samples[..|samples| - 1]) + samples[|samples| - 1].frameTime
  }

  function TotalEdicts(samples: seq<FrameSample>): nat {
    if samples == [] then 0 else TotalEdicts(samples[..|samples| - 1]) + samples[|samples| - 1].numVisEdicts
  }

  /** The largest frame time, or 0 for no frames. */
  function MaxTime(samples: seq<FrameSample>): real {
    if samples == [] then 0.0
    else
      var m := MaxTime(samples[..|samples| - 1]);
      var t := samples[|samples| - 1].frameTime;
      if t > m then t else m
  }

  /** The smallest frame time of a non-empty series. */
  function MinTime(samples: seq<FrameSample>): real
    requires samples != []
  {
    var t := samples[|samples| - 1].frameTime;
    if |samples| == 1 then t
    else
      var m := MinTime(samples[..|samples| - 1]);
      if t < m then t else m
  }

  /** Adding to a value already reduced modulo 2^64 and reducing again is the
      same as adding and reducing once. */
  lemma ModAdd64(a: int, b: nat)
    ensures ToUInt64(ToUInt64(a) + b) == ToUInt64(a + b)
  {
    assert a == TWO_64 * (a / TWO_64) + a % TWO_64;
  }

  /** Starting from a reset record, and with every frame time positive, the
      statistics hold the frame count and entity total (modulo 2^64), the total
      time, and the true maximum and minimum frame times. */
  lemma {:induction false} RecordFramesFromZero(samples: seq<FrameSample>)
    requires forall i :: 0 <= i < |samples| ==> samples[i].frameTime > 0.0
    ensures RecordFrames(ZeroStats, samples).framesSent == |samples| % TWO_64
    ensures RecordFrames(ZeroStats, samples).totalEntities == TotalEdicts(samples) % TWO_64
    ensures RecordFrames(ZeroStats, samples).totalTime == TotalTime(samples)
    ensures RecordFrames(ZeroStats, samples).maxFrameTime == MaxTime(samples)
    ensures samples != [] ==>
      RecordFrames(ZeroStats, samples).minFrameTime == MinTime(samples) && MinTime(samples) > 0.0
  {
    if samples != [] {
      var init := samples[..|samples| - 1];
      var last := samples[|samples| - 1];
      assert forall i :: 0 <= i < |init| ==> init[i] == samples[i];
      RecordFramesFromZero(init);
      var prev := RecordFrames(ZeroStats, init);
      ModAdd64(|init|, 1);
      ModAdd64(TotalEdicts(init), last.numVisEdicts);
      if init == [] {
        assert prev == ZeroStats;
      } else {
        assert prev.minFrameTime == MinTime(init) > 0.0;
      }
    }
  }

  /** A frame time of exactly zero (both clock readings equal) leaves the
      minimum at zero, the "unset" value, so the next frame's time replaces it
      whatever the minimum was before: the earlier minimum is forgotten. */
  lemma ZeroFrameTimeForgetsMinimum(s: Stats, n: nat, m: nat, t: real)
    requires s.minFrameTime >= 0.0 && t > 0.0
    ensures RecordFrame(s, n, 0.0).minFrameTime == 0.0
    ensures RecordFrame(RecordFrame(s, n, 0.0), m, t).minFrameTime == t
  {
  }

  /** For example, frame times 0.5, 0.0 and 0.7 from a reset record leave the
      minimum at 0.7, above the 0.5 seen first. */
  lemma ZeroFrameTimeExample()
    ensures RecordFrames(ZeroStats, [FrameSample(0, 0.5), FrameSample(0, 0.0), FrameSample(0, 0.7)]).minFrameTime == 0.7
  {
    var a, b, c := FrameSample(0, 0.5), FrameSample(0, 0.0), FrameSample(0, 0.7);
    assert [a, b, c][..2] == [a, b];
    assert [a, b][..1] == [a];
    assert [a][..0] == [];
    var s1 := RecordFrames(ZeroStats, [a]);
    assert s1 == RecordFrame(RecordFrames(ZeroStats, []), 0, 0.5);
    assert s1.minFrameTime == 0.5;
    var s2 := RecordFrames(ZeroStats, [a, b]);
    assert s2 == RecordFrame(s1, 0, 0.0);
    assert s2.minFrameTime == 0.0;
    assert RecordFrames(ZeroStats, [a, b, c]) == RecordFrame(s2, 0, 0.7);
  }

  /** Recorded frames keep the statistics consistent: the minimum never exceeds
      the maximum, and the maximum never exceeds the total time. */
  ghost predicate Consistent(s: Stats) {
    0.0 <= s.minFrameTime <= s.maxFrameTime <= s.totalTime
  }

  lemma RecordFrameConsistent(s: Stats, numVisEdicts: nat, frameTime: real)
    requires Consistent(s) && frameTime >= 0.0
    ensures Consistent(RecordFrame(s, numVisEdicts, frameTime))
  {
  }

  // ---------------------------------------------------------------------------
  // Snapshot construction
  // ---------------------------------------------------------------------------

  /** The model id of an entity: the low 16 bits of its model's address, or 0
      when it has no model. */
  function ModelId(model: Option<nat>): (id: uint16)
    ensures model.None? ==> id == 0
    ensures model.Some? ==> (model.value - id) % TWO_16 == 0
  {
    match model
    case None => 0
    case Some(address) => address % TWO_16
  }

  /** The wire form of one visible entity: its origin and angles copied, the
      byte fields narrowed, a null colormap sent as 0, and the byte alpha
      scaled into [0, 1]. */
  function EntityToMsg(e: ClientEntity): (m: EntityMsg)
    ensures FbVec3ToQuake(m.origin) == e.origin && FbVec3ToQuake(m.angles) == e.angles
    ensures m.modelId == ModelId(e.model)
    ensures m.frame == ToUInt8(e.frame) && m.skin == ToUInt8(e.skinnum) && m.effects == ToUInt32(e.effects)
    ensures m.colormap == (if e.colormap.Some? then e.colormap.value else 0)
    ensures 0.0 <= m.alpha <= 1.0 && (m.alpha == 1.0 <==> e.alpha == 255) && (m.alpha == 0.0 <==> e.alpha == 0)
  {
    EntityMsg(
      QuakeVec3ToFb(e.origin),
      QuakeVec3ToFb(e.angles),
      ModelId(e.model),
      ToUInt8(e.frame),
      match e.colormap case None => 0 case Some(c) => c,
      ToUInt8(e.skinnum),
      ToUInt32(e.effects),
      e.alpha as real / 255.0)
  }

  /** The entities a snapshot carries: the non-null entries of the visible
      list, converted, in their order. */
  function VisibleEntities(visEdicts: seq<Option<ClientEntity>>): (r: seq<EntityMsg>)
    ensures |r| <= |visEdicts|
  {
    if visEdicts == [] then []
    else
      (match visEdicts[0] case None => [] case Some(e) => [EntityToMsg(e)])
      + VisibleEntities(visEdicts[1..])
  }

  /** Filtering distributes over concatenation, so the relative order of the
      entities is kept. */
  lemma {:induction false} VisibleEntitiesAppend(a: seq<Option<ClientEntity>>, b: seq<Option<ClientEntity>>)
    ensures VisibleEntities(a + b) == VisibleEntities(a) + VisibleEntities(b)
  {
    if a == [] {
      assert a + b == b;
    } else {
      assert (a + b)[0] == a[0];
      assert (a + b)[1..] == a[1..] + b;
      VisibleEntitiesAppend(a[1..], b);
    }
  }

  /** A null entry contributes nothing; a non-null entry contributes exactly
      its own conversion. */
  lemma VisibleEntitiesSingle(x: Option<ClientEntity>)
    ensures x.None? ==> VisibleEntities([x]) == []
    ensures x.Some? ==> VisibleEntities([x]) == [EntityToMsg(x.value)]
  {
    assert [x][1..] == [];
  }

  /** With no null entries, every entry is carried, at its own index. */
  lemma {:induction false} VisibleEntitiesAllPresent(visEdicts: seq<Option<ClientEntity>>)
    requires forall i :: 0 <= i < |visEdicts| ==> visEdicts[i].Some?
    ensures |VisibleEntities(visEdicts)| == |visEdicts|
    ensures forall i :: 0 <= i < |visEdicts| ==>
      VisibleEntities(visEdicts)[i] == EntityToMsg(visEdicts[i].value)
  {
    if visEdicts != [] {
      VisibleEntitiesAllPresent(visEdicts[1..]);
      var rest := VisibleEntities(visEdicts[1..]);
      assert VisibleEntities(visEdicts) == [EntityToMsg(visEdicts[0].value)] + rest;
      forall i | 1 <= i < |visEdicts|
        ensures VisibleEntities(visEdicts)[i] == EntityToMsg(visEdicts[i].value)
      {
        assert visEdicts[1..][i - 1] == visEdicts[i];
      }
    }
  }

  /** The entity loop of `PluQ_BroadcastWorldState`: skips null entries and
      pushes every other one, in order. */
  method BuildEntities(visEdicts: seq<Option<ClientEntity>>) returns (entities: seq<EntityMsg>)
    ensures entities == VisibleEntities(visEdicts)
  {
    entities := [];
    for i := 0 to |visEdicts|
      invariant entities == VisibleEntities(visEdicts[..i])
    {
      assert visEdicts[..i + 1] == visEdicts[..i] + [visEdicts[i]];
      VisibleEntitiesAppend(visEdicts[..i], [visEdicts[i]]);
      VisibleEntitiesSingle(visEdicts[i]);
      var ent := visEdicts[i];
      if ent.None? {
        continue;
      }
      entities := entities + [EntityToMsg(ent.value)];
    }
    assert visEdicts[..|visEdicts|] == visEdicts;
  }

  /** Whether the backend has a world to publish: a world model is loaded and
      the client is connected. */
  predicate InGame(cl: ClientState) {
    cl.hasWorldModel && cl.state == Connected
  }

  /** The `FrameUpdate` built from the engine state for frame `frameNumber`.
      The stats are narrowed to their wire widths. */
  function Snapshot(cl: ClientState, frameNumber: uint32): (f: FrameUpdateMsg)
    ensures f.frameNumber == frameNumber && f.timestamp == cl.time && f.inGame
    ensures f.viewOrigin.Some? && FbVec3ToQuake(f.viewOrigin.value) == cl.viewOrigin
    ensures f.viewAngles.Some? && FbVec3ToQuake(f.viewAngles.value) == cl.viewAngles
    ensures f.health == ToInt16(cl.health) && f.armor == ToInt16(cl.armor)
    ensures f.weapon == ToUInt8(cl.weapon) && f.ammo == ToUInt16(cl.ammo)
    ensures f.paused <==> cl.paused != 0
    ensures f.entities == VisibleEntities(cl.visEdicts)
  {
    FrameUpdateMsg(
      frameNumber,
      cl.time,
      Some(QuakeVec3ToFb(cl.viewOrigin)),
      Some(QuakeVec3ToFb(cl.viewAngles)),
      ToInt16(cl.health),
      ToInt16(cl.armor),
      ToUInt8(cl.weapon),
      ToUInt16(cl.ammo),
      cl.paused != 0,
      true,
      VisibleEntities(cl.visEdicts))
  }

  // ---------------------------------------------------------------------------
  // Input drain
  // ---------------------------------------------------------------------------

  /** `q_strlcpy` into `cmd_text`, or clearing it: a present, non-empty text is
      stored up to its first 255 characters; otherwise the stored text is empty. */
  function StoredText(text: Option<string>): (r: CmdText)
    ensures text.None? || text.value == [] ==> r == []
    ensures text.Some? && text.value != [] ==>
      |r| == (if |text.value| < CmdTextSize then |text.value| else CmdTextSize - 1) && r == text.value[..|r|]
  {
    if text.None? || text.value == [] then []
    else if |text.value| < CmdTextSize then text.value
    else text.value[..CmdTextSize - 1]
  }

  /** The stored input after one parsed command: every field is overwritten
      from the command, except the view angles, which keep their previous value
      when the command carries none. */
  function ApplyCommand(cur: InputCmd, cmd: InputCommandMsg): (r: InputCmd)
    ensures r.sequence == cmd.sequence && r.timestamp == cmd.timestamp
    ensures r.forwardMove == cmd.forwardMove && r.sideMove == cmd.sideMove && r.upMove == cmd.upMove
    ensures r.buttons == cmd.buttons && r.impulse == cmd.impulse
    ensures cmd.viewAngles.Some? ==> r.viewAngles == FbVec3ToQuake(cmd.viewAngles.value)
    ensures cmd.viewAngles.None? ==> r.viewAngles == cur.viewAngles
    ensures r.cmdText == StoredText(cmd.cmdText)
  {
    InputCmd(
      cmd.sequence,
      cmd.timestamp,
      cmd.forwardMove,
      cmd.sideMove,
      cmd.upMove,
      if cmd.viewAngles.Some? then FbVec3ToQuake(cmd.viewAngles.value) else cur.viewAngles,
      cmd.buttons,
      cmd.impulse,
      StoredText(cmd.cmdText))
  }

  /** The stored input after draining `msgs`, oldest first; unparsable buffers
      are skipped. */
  function DrainInput(cur: InputCmd, msgs: seq<Buffer<InputCommandMsg>>): InputCmd
    decreases |msgs|
  {
    if msgs == [] then cur
    else DrainInput(if msgs[0].Root? then ApplyCommand(cur, msgs[0].root) else cur, msgs[1..])
  }

  /** What one buffer adds to the console command buffer: a non-empty command
      text, whole, and a newline. */
  function CommandAppends(msg: Buffer<InputCommandMsg>): seq<string> {
    if msg.Root? && msg.root.cmdText.Some? && msg.root.cmdText.value != [] then [msg.root.cmdText.value, "\n"]
    else []
  }

  /** Everything a drain of `msgs` adds to the console command buffer. */
  function DrainCommands(msgs: seq<Buffer<InputCommandMsg>>): seq<string>
  {
    if msgs == [] then [] else CommandAppends(msgs[0]) + DrainCommands(msgs[1..])
  }

  /** Whether a drain of `msgs` stores at least one command. */
  predicate AnyParsable(msgs: seq<Buffer<InputCommandMsg>>) {
    msgs != [] && (msgs[0].Root? || AnyParsable(msgs[1..]))
  }

  /** A drain stores a command exactly when some buffer of the queue parses. */
  lemma {:induction false} AnyParsableExists(msgs: seq<Buffer<InputCommandMsg>>)
    ensures AnyParsable(msgs) <==> exists i :: 0 <= i < |msgs| && msgs[i].Root?
    decreases |msgs|
  {
    if msgs != [] {
      AnyParsableExists(msgs[1..]);
      if exists i :: 0 <= i < |msgs| && msgs[i].Root? {
        var i :| 0 <= i < |msgs| && msgs[i].Root?;
        if i > 0 {
          assert msgs[1..][i - 1] == msgs[i];
        }
      }
      if exists i :: 0 <= i < |msgs[1..]| && msgs[1..][i].Root? {
        var i :| 0 <= i < |msgs[1..]| && msgs[1..][i].Root?;
        assert msgs[i + 1] == msgs[1..][i];
      }
    }
  }

  lemma {:induction false} DrainInputAppend(cur: InputCmd, a: seq<Buffer<InputCommandMsg>>, b: seq<Buffer<InputCommandMsg>>)
    ensures DrainInput(cur, a + b) == DrainInput(DrainInput(cur, a), b)
    decreases |a|
  {
    if a == [] {
      assert a + b == b;
    } else {
      assert (a + b)[0] == a[0];
      assert (a + b)[1..] == a[1..] + b;
      DrainInputAppend(if a[0].Root? then ApplyCommand(cur, a[0].root) else cur, a[1..], b);
    }
  }

  /** Unparsable buffers leave the stored input as it was. */
  lemma {:induction false} DrainInputSkipsInvalid(cur: InputCmd, msgs: seq<Buffer<InputCommandMsg>>)
    requires forall i :: 0 <= i < |msgs| ==> msgs[i].InvalidRoot?
    ensures DrainInput(cur, msgs) == cur
    decreases |msgs|
  {
    if msgs != [] {
      assert forall i :: 0 <= i < |msgs[1..]| ==> msgs[1..][i] == msgs[i + 1];
      DrainInputSkipsInvalid(cur, msgs[1..]);
    }
  }

  /** The last parsable command wins: after a drain, the stored input holds
      that command's fields, and its view angles unless it carried none. */
  lemma DrainInputLastWins(cur: InputCmd, msgs: seq<Buffer<InputCommandMsg>>, j: nat)
    requires j < |msgs| && msgs[j].Root?
    requires forall k :: j < k < |msgs| ==> msgs[k].InvalidRoot?
    ensures DrainInput(cur, msgs) == ApplyCommand(DrainInput(cur, msgs[..j]), msgs[j].root)
    ensures var r, cmd := DrainInput(cur, msgs), msgs[j].root;
      && r.sequence == cmd.sequence && r.timestamp == cmd.timestamp
      && r.forwardMove == cmd.forwardMove && r.sideMove == cmd.sideMove && r.upMove == cmd.upMove
      && r.buttons == cmd.buttons && r.impulse == cmd.impulse
      && r.cmdText == StoredText(cmd.cmdText)
      && (cmd.viewAngles.Some? ==> r.viewAngles == FbVec3ToQuake(cmd.viewAngles.value))
  {
    var before, tail := msgs[..j], msgs[j + 1..];
    assert msgs == before + [msgs[j]] + tail;
    DrainInputAppend(cur, before + [msgs[j]], tail);
    DrainInputAppend(cur, before, [msgs[j]]);
    assert forall i :: 0 <= i < |tail| ==> tail[i] == msgs[j + 1 + i];
    DrainInputSkipsInvalid(DrainInput(cur, before + [msgs[j]]), tail);
    assert [msgs[j]][1..] == [];
  }

  /** Draining a queue handles its first buffer and then the rest. */
  lemma DrainStep(cur: InputCmd, buf: Buffer<InputCommandMsg>, rest: seq<Buffer<InputCommandMsg>>)
    ensures DrainInput(cur, [buf] + rest)
         == DrainInput(if buf.Root? then ApplyCommand(cur, buf.root) else cur, rest)
    ensures DrainCommands([buf] + rest) == CommandAppends(buf) + DrainCommands(rest)
    ensures AnyParsable([buf] + rest) == (buf.Root? || AnyParsable(rest))
  {
    assert ([buf] + rest)[0] == buf && ([buf] + rest)[1..] == rest;
  }

  /** Every non-empty command text of a drain reaches the command buffer, in
      order, not only the last one. */
  lemma {:induction false} DrainCommandsAppend(a: seq<Buffer<InputCommandMsg>>, b: seq<Buffer<InputCommandMsg>>)
    ensures DrainCommands(a + b) == DrainCommands(a) + DrainCommands(b)
    decreases |a|
  {
    if a == [] {
      assert a + b == b;
    } else {
      assert (a + b)[0] == a[0];
      assert (a + b)[1..] == a[1..] + b;
      DrainCommandsAppend(a[1..], b);
    }
  }

  /** Where a drain ends: the stored input, the console command buffer, and
      whether a command has been stored. */
  datatype DrainEnd = DrainEnd(input: InputCmd, commands: seq<string>, stored: bool)

  /** The end of a drain of `queue` that starts from the stored input `cur`,
      the command buffer `out` and the flag `has`. */
  ghost function DrainFrom(cur: InputCmd, out: seq<string>, has: bool, queue: seq<Buffer<InputCommandMsg>>): DrainEnd {
    DrainEnd(DrainInput(cur, queue), out + DrainCommands(queue), has || AnyParsable(queue))
  }

  /** Handling the first buffer of the queue leaves the end of the drain where
      it was: a parsed command is applied, appended and marks input as stored;
      an unparsable buffer is dropped and changes nothing. */
  lemma DrainFromStep(cur: InputCmd, out: seq<string>, has: bool, queue: seq<Buffer<InputCommandMsg>>)
    requires queue != []
    ensures queue[0].Root? ==>
      DrainFrom(cur, out, has, queue)
        == DrainFrom(ApplyCommand(cur, queue[0].root), out + CommandAppends(queue[0]), true, queue[1..])
    ensures queue[0].InvalidRoot? ==> DrainFrom(cur, out, has, queue) == DrainFrom(cur, out, has, queue[1..])
  {
    var buf, rest := queue[0], queue[1..];
    assert queue == [buf] + rest;
    DrainStep(cur, buf, rest);
    assert out + DrainCommands([buf] + rest) == (out + CommandAppends(buf)) + DrainCommands(rest);
    if buf.InvalidRoot? {
      assert out + CommandAppends(buf) == out;
    }
  }

  lemma DrainFromEmpty(cur: InputCmd, out: seq<string>, has: bool)
    ensures DrainFrom(cur, out, has, []) == DrainEnd(cur, out, has)
  {
    assert out + DrainCommands([]) == out;
  }

  // ---------------------------------------------------------------------------
  // The backend process state
  // ---------------------------------------------------------------------------

  /** The backend's static state. The socket and listener handles of
      `backend_ctx` are represented by the log of nng calls; `ctxInitialized`
      is `backend_ctx.initialized`. `frameCounter` and `debugCount` are the
      function-static counters of `PluQ_BroadcastWorldState`. The input queue,
      the published frames, the sent resource replies and the console command
      buffer are the outside world as this process sees it. */
  class Backend {
    var ctxInitialized: bool
    var backendEnabled: bool
    var currentInput: InputCmd
    var hasCurrentInput: bool
    var frameCounter: uint32
    var debugCount: int
    /** The number of frames built so far. */
    ghost var framesBuilt: nat

    var calls: seq<NngCall>
    var inputInbox: seq<Buffer<InputCommandMsg>>
    var published: seq<GameplayEvent>
    var sentResources: seq<ResourceResponse>
    var cbuf: seq<string>

    /** `backend_enabled` and `backend_ctx.initialized` always agree, and the
        frame counter is the number of frames built so far, modulo 2^32. */
    ghost predicate Valid()
      reads this`backendEnabled, this`ctxInitialized, this`frameCounter, this`framesBuilt
    {
      && backendEnabled == ctxInitialized
      && frameCounter == framesBuilt % TWO_32
    }

    /** `PluQ_Backend_IsEnabled`. */
    predicate IsEnabled()
      reads this`backendEnabled, this`ctxInitialized
    {
      backendEnabled && ctxInitialized
    }

    /** A fresh process: nothing opened, no input, counters at zero. */
    constructor ()
      ensures Valid() && !IsEnabled()
      ensures !ctxInitialized && !backendEnabled
      ensures currentInput == ZeroInputCmd && !hasCurrentInput
      ensures frameCounter == 0 && framesBuilt == 0 && debugCount == 0
      ensures calls == [] && inputInbox == [] && published == [] && sentResources == [] && cbuf == []
    {
      ctxInitialized, backendEnabled := false, false;
      currentInput, hasCurrentInput := ZeroInputCmd, false;
      frameCounter, debugCount, framesBuilt := 0, 0, 0;
      calls, inputInbox, published, sentResources, cbuf := [], [], [], [], [];
    }

    /** A message arrives on the input channel. */
    method DeliverInput(msg: Buffer<InputCommandMsg>)
      modifies this`inputInbox
      ensures inputInbox == old(inputInbox) + [msg]
    {
      inputInbox := inputInbox + [msg];
    }

    /** One listening channel: open, create the listener, start it, stopping at
        the first failure. */
    method OpenListener(protocol: Protocol, url: string, outcomes: seq<bool>) returns (ok: bool)
      requires |outcomes| == 3
      modifies this`calls
      ensures ok == AllOk(outcomes)
      ensures calls == old(calls) + ListenSetup(protocol, url)[..Attempts(outcomes)]
    {
      var setup := ListenSetup(protocol, url);
      calls := calls + [SocketOpen(protocol)];
      if !outcomes[0] {
        assert setup[..1] == [SocketOpen(protocol)];
        return false;
      }
      calls := calls + [ListenerCreate(url)];
      if !outcomes[1] {
        assert setup[..2] == [SocketOpen(protocol), ListenerCreate(url)];
        return false;
      }
      calls := calls + [ListenerStart(url)];
      ok := outcomes[2];
      assert setup[..3] == setup;
    }

    /** The setup part of `PluQ_Backend_Enable`: the resources, gameplay and
        input channels in that order, stopping at the first failed call. */
    method ListenAll(outcomes: seq<bool>) returns (ok: bool)
      requires |outcomes| == |BackendSetup|
      modifies this`calls
      ensures ok == AllOk(outcomes)
      ensures calls == old(calls) + BackendSetup[..Attempts(outcomes)]
    {
      var o1, o2, o3 := outcomes[..3], outcomes[3..6], outcomes[6..];
      assert outcomes == o1 + o2 + o3;
      SetupPrefix3(ListenSetup(Rep0, UrlResources), o1, ListenSetup(Pub0, UrlGameplay), o2,
                   ListenSetup(Pull0, UrlInput), o3);
      ok := OpenListener(Rep0, UrlResources, o1);
      if ok {
        ok := OpenListener(Pub0, UrlGameplay, o2);
        if ok {
          ok := OpenListener(Pull0, UrlInput, o3);
        }
      }
    }

    /** `PluQ_Backend_Enable`. When already initialised it only sets the enabled
        flag. Otherwise it runs the nine setup calls, resources then gameplay
        then input, stopping at the first failure; it succeeds exactly when all
        nine succeed. On failure its call to `PluQ_Backend_Shutdown` finds the
        context uninitialised and closes nothing, so sockets opened before the
        failure stay open. */
    method Enable(outcomes: seq<bool>) returns (ok: bool)
      requires Valid() && |outcomes| == |BackendSetup|
      modifies this`ctxInitialized, this`backendEnabled, this`calls
      ensures Valid()
      ensures IsEnabled() == ok
      ensures old(ctxInitialized) ==> ok && calls == old(calls)
      ensures !old(ctxInitialized) ==>
        && ok == AllOk(outcomes)
        && calls == old(calls) + BackendSetup[..Attempts(outcomes)]
    {
      if ctxInitialized {
        backendEnabled := true;
        return true;
      }
      ctxInitialized := false;
      ok := ListenAll(outcomes);
      if !ok {
        Shutdown();
        return false;
      }
      ctxInitialized := true;
      backendEnabled := true;
    }

    /** `PluQ_Backend_Shutdown`: a no-op unless initialised; otherwise closes
        the three sockets and clears the context and the enabled flag. */
    method Shutdown()
      requires Valid()
      modifies this`ctxInitialized, this`backendEnabled, this`calls
      ensures Valid() && !IsEnabled()
      ensures !ctxInitialized && !backendEnabled
      ensures old(ctxInitialized) ==> calls == old(calls) + BackendTeardown
      ensures !old(ctxInitialized) ==> calls == old(calls)
    {
      if !ctxInitialized {
        return;
      }
      calls := calls + [SocketClose(Rep0)];
      calls := calls + [SocketClose(Pub0)];
      calls := calls + [SocketClose(Pull0)];
      ctxInitialized := false;
      backendEnabled := false;
    }

    /** `PluQ_Backend_SendResource`: a reply on the resources channel, sent only
        when initialised and logged only when the send succeeds. */
    method SendResource(reply: ResourceResponse, sendOk: bool) returns (ok: bool)
      modifies this`sentResources
      ensures ok == (ctxInitialized && sendOk)
      ensures sentResources == old(sentResources) + (if ok then [reply] else [])
    {
      if !ctxInitialized {
        return false;
      }
      if !sendOk {
        return false;
      }
      sentResources := sentResources + [reply];
      ok := true;
    }

    /** `PluQ_Backend_PublishFrame`: a message on the gameplay channel, sent only
        when initialised and logged only when the send succeeds. */
    method PublishFrame(event: GameplayEvent, sendOk: bool) returns (ok: bool)
      modifies this`published
      ensures ok == (ctxInitialized && sendOk)
      ensures published == old(published) + (if ok then [event] else [])
    {
      if !ctxInitialized {
        return false;
      }
      if !sendOk {
        return false;
      }
      published := published + [event];
      ok := true;
    }

    /** `PluQ_Backend_ReceiveInput`: a non-blocking pull. Nothing is taken when
        the context is uninitialised or the queue is empty. */
    method ReceiveInput() returns (msg: Option<Buffer<InputCommandMsg>>)
      modifies this`inputInbox
      ensures !ctxInitialized || old(inputInbox) == [] ==> msg == None && inputInbox == old(inputInbox)
      ensures ctxInitialized && old(inputInbox) != [] ==>
        msg == Some(old(inputInbox)[0]) && inputInbox == old(inputInbox)[1..]
    {
      if !ctxInitialized || inputInbox == [] {
        return None;
      }
      msg := Some(inputInbox[0]);
      inputInbox := inputInbox[1..];
    }

    /** `PluQ_BroadcastWorldState`. Nothing happens while the backend is
        disabled, and only the debug counter moves while there is no world or
        no connection. Otherwise frame number `framesBuilt mod 2^32` is built
        from the engine state and the counter advances; if the builder yields a
        buffer, the frame is published (and logged when the send succeeds) and
        the statistics record the frame whether or not the send succeeded. */
    method BroadcastWorldState(cl: ClientState, frameTime: real, bufferOk: bool, sendOk: bool, stats: StatsStore)
      requires Valid()
      modifies this`frameCounter, this`framesBuilt, this`debugCount, this`published, stats
      ensures Valid()
      ensures !old(IsEnabled()) ==>
        && published == old(published) && framesBuilt == old(framesBuilt) && frameCounter == old(frameCounter)
        && debugCount == old(debugCount) && stats.perfStats == old(stats.perfStats)
      ensures old(IsEnabled()) && !InGame(cl) ==>
        && published == old(published) && framesBuilt == old(framesBuilt) && frameCounter == old(frameCounter)
        && debugCount == old(debugCount) + 1 && stats.perfStats == old(stats.perfStats)
      ensures old(IsEnabled()) && InGame(cl) ==>
        && framesBuilt == old(framesBuilt) + 1
        && debugCount == old(debugCount)
        && published == old(published)
             + (if bufferOk && sendOk then [FrameUpdate(Snapshot(cl, old(framesBuilt) % TWO_32))] else [])
        && stats.perfStats
             == (if bufferOk then RecordFrame(old(stats.perfStats), |cl.visEdicts|, frameTime) else old(stats.perfStats))
    {
      if !IsEnabled() {
        return;
      }
      if !InGame(cl) {
        debugCount := debugCount + 1;
        return;
      }
      var frameNumber := frameCounter;
      UInt32Increment(frameCounter, framesBuilt);
      frameCounter := ToUInt32(frameCounter + 1);
      framesBuilt := framesBuilt + 1;

      var entities := BuildEntities(cl.visEdicts);
      var frame := FrameUpdateMsg(
        frameNumber,
        cl.time,
        Some(QuakeVec3ToFb(cl.viewOrigin)),
        Some(QuakeVec3ToFb(cl.viewAngles)),
        ToInt16(cl.health),
        ToInt16(cl.armor),
        ToUInt8(cl.weapon),
        ToUInt16(cl.ammo),
        cl.paused != 0,
        true,
        entities);

      if bufferOk {
        var _ := PublishFrame(FrameUpdate(frame), sendOk);
        var got := stats.Get(true);
        var s := got.value;
        s := s.(framesSent := ToUInt64(s.framesSent + 1));
        s := s.(totalEntities := ToUInt64(s.totalEntities + |cl.visEdicts|));
        s := s.(totalTime := s.totalTime + frameTime);
        if frameTime > s.maxFrameTime {
          s := s.(maxFrameTime := frameTime);
        }
        if s.minFrameTime == 0.0 || frameTime < s.minFrameTime {
          s := s.(minFrameTime := frameTime);
        }
        stats.Set(Some(s));
      }
    }

    /** `PluQ_HasPendingInput`: whether a command has been stored, reported only
        while the backend is enabled. */
    predicate HasPendingInput()
      reads this
    {
      IsEnabled() && hasCurrentInput
    }

    /** The drain loop's handling of one parsed command: overwrite the stored
        input field by field (the view angles only when present), pass a
        non-empty command text to the console command buffer, store its first
        255 characters, and mark that input has been received. */
    method StoreCommand(cmd: InputCommandMsg)
      modifies this`currentInput, this`cbuf, this`hasCurrentInput
      ensures currentInput == ApplyCommand(old(currentInput), cmd)
      ensures cbuf == old(cbuf) + CommandAppends(Root(cmd))
      ensures hasCurrentInput
    {
      currentInput := currentInput.(
        sequence := cmd.sequence,
        timestamp := cmd.timestamp,
        forwardMove := cmd.forwardMove,
        sideMove := cmd.sideMove,
        upMove := cmd.upMove);
      if cmd.viewAngles.Some? {
        currentInput := currentInput.(viewAngles := FbVec3ToQuake(cmd.viewAngles.value));
      }
      currentInput := currentInput.(buttons := cmd.buttons, impulse := cmd.impulse);
      if cmd.cmdText.Some? && cmd.cmdText.value != [] {
        cbuf := cbuf + [cmd.cmdText.value];
        cbuf := cbuf + ["\n"];
        var text := cmd.cmdText.value;
        currentInput := currentInput.(cmdText := if |text| < CmdTextSize then text else text[..CmdTextSize - 1]);
      } else {
        currentInput := currentInput.(cmdText := []);
      }
      hasCurrentInput := true;
    }

    /** `PluQ_ProcessInputCommands`. While enabled, pulls until the queue is
        empty. Each parsable command overwrites the stored input, so the last
        one wins (see `DrainInputLastWins`); unparsable buffers are skipped;
        every non-empty command text is appended, whole and followed by a
        newline, to the console command buffer. */
    method ProcessInputCommands()
      modifies this`currentInput, this`hasCurrentInput, this`cbuf, this`inputInbox
      ensures !old(IsEnabled()) ==>
        && inputInbox == old(inputInbox) && currentInput == old(currentInput)
        && hasCurrentInput == old(hasCurrentInput) && cbuf == old(cbuf)
      ensures old(IsEnabled()) ==>
        && inputInbox == []
        && currentInput == DrainInput(old(currentInput), old(inputInbox))
        && hasCurrentInput == (old(hasCurrentInput) || AnyParsable(old(inputInbox)))
        && cbuf == old(cbuf) + DrainCommands(old(inputInbox))
      ensures old(IsEnabled()) ==>
        HasPendingInput() == (old(hasCurrentInput) || exists i :: 0 <= i < |old(inputInbox)| && old(inputInbox)[i].Root?)
    {
      if !IsEnabled() {
        return;
      }
      ghost var queue := inputInbox;
      DrainQueue();
      AnyParsableExists(queue);
    }

    /** The receive loop of `PluQ_ProcessInputCommands`: it runs until a
        receive finds the queue empty. */
    method DrainQueue()
      requires ctxInitialized
      modifies this`currentInput, this`hasCurrentInput, this`cbuf, this`inputInbox
      ensures inputInbox == []
      ensures currentInput == DrainInput(old(currentInput), old(inputInbox))
      ensures hasCurrentInput == (old(hasCurrentInput) || AnyParsable(old(inputInbox)))
      ensures cbuf == old(cbuf) + DrainCommands(old(inputInbox))
    {
      ghost var target := DrainFrom(currentInput, cbuf, hasCurrentInput, inputInbox);
      while true
        invariant DrainFrom(currentInput, cbuf, hasCurrentInput, inputInbox) == target
        decreases |inputInbox|
      {
        ghost var queue := inputInbox;
        var msg := ReceiveInput();
        if msg.None? {
          DrainFromEmpty(currentInput, cbuf, hasCurrentInput);
          break;
        }
        var buf := msg.value;
        DrainFromStep(currentInput, cbuf, hasCurrentInput, queue);
        if buf.Root? {
          StoreCommand(buf.root);
        }
      }
    }

    /** `PluQ_Move`: with the backend enabled, a command stored and a non-null
        target, overwrites the forward, side and up moves and nothing else. */
    method Move(cmd: Option<UserCmd>) returns (result: Option<UserCmd>)
      ensures !(IsEnabled() && hasCurrentInput) || cmd.None? ==> result == cmd
      ensures IsEnabled() && hasCurrentInput && cmd.Some? ==>
        result == Some(cmd.value.(forwardMove := currentInput.forwardMove,
                                  sideMove := currentInput.sideMove,
                                  upMove := currentInput.upMove))
    {
      if !IsEnabled() || !hasCurrentInput || cmd.None? {
        return cmd;
      }
      var c := cmd.value;
      c := c.(forwardMove := currentInput.forwardMove);
      c := c.(sideMove := currentInput.sideMove);
      c := c.(upMove := currentInput.upMove);
      result := Some(c);
    }

    /** `PluQ_ApplyViewAngles`: with the backend enabled and a command stored,
        copies its view angles into the client; nothing else changes. */
    method ApplyViewAngles(cl: ClientState) returns (result: ClientState)
      ensures !(IsEnabled() && hasCurrentInput) ==> result == cl
      ensures IsEnabled() && hasCurrentInput ==> result == cl.(viewAngles := currentInput.viewAngles)
    {
      if !IsEnabled() || !hasCurrentInput {
        return cl;
      }
      result := cl.(viewAngles := currentInput.viewAngles);
    }
  }
}
