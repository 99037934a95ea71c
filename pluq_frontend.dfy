/**
 * The PluQ frontend (`pluq_frontend.c`): it dials the backend's three
 * channels, consumes published frames into a cached record, applies that record
 * to the engine, sends input commands with consecutive sequence numbers, and
 * fetches resources with a blocking request/reply.
 */
module PluqFrontend {
  import opened CTypes
  import opened Engine
  import opened Schema
  import opened Transport
  import opened PluqShared

  // ---------------------------------------------------------------------------
  // Channel setup
  // ---------------------------------------------------------------------------

  /** Open a socket, create a dialer to the endpoint, start it. */
  function DialSetup(protocol: Protocol, url: string): (s: seq<NngCall>)
    ensures |s| == 3
  {
    [SocketOpen(protocol), DialerCreate(url), DialerStart(url)]
  }

  /** The gameplay subscriber subscribes to every topic (the empty prefix)
      before it dials. */
  const SubscriberSetup: seq<NngCall> :=
    [SocketOpen(Sub0), Subscribe(""), DialerCreate(UrlGameplay), DialerStart(UrlGameplay)]

  /** The ten setup calls of `PluQ_Frontend_Init`, in order: resources, then
      gameplay, then input. */
  const FrontendSetup: seq<NngCall> :=
    DialSetup(Req0, UrlResources) + SubscriberSetup + DialSetup(Push0, UrlInput)

  /** What `PluQ_Frontend_Shutdown` closes, in order. */
  const FrontendTeardown: seq<NngCall> := [SocketClose(Req0), SocketClose(Sub0), SocketClose(Push0)]

  // ---------------------------------------------------------------------------
  // The cached frame
  // ---------------------------------------------------------------------------

  /** `received_frame_state_t`: the last frame received, and whether any has
      been received at all. */
  datatype ReceivedFrameState = ReceivedFrameState(
    frameNumber: uint32,
    timestamp: real,
    viewOrigin: QuakeVec3,
    viewAngles: QuakeVec3,
    health: int16,
    armor: int16,
    weapon: uint8,
    ammo: uint16,
    paused: bool,
    inGame: bool,
    valid: bool)

  /** The zero-initialised record. */
  const ZeroReceivedState: ReceivedFrameState :=
    ReceivedFrameState(0, 0.0, VecZero, VecZero, 0, 0, 0, 0, false, false, false)

  /** A vector field of a frame: copied when present, otherwise the previous
      value is kept. */
  function CopyIfPresent(prev: QuakeVec3, v: Option<FbVec3>): (r: QuakeVec3)
    ensures v.None? ==> r == prev
    ensures v.Some? ==> QuakeVec3ToFb(r) == v.value
  {
    if v.Some? then FbVec3ToQuake(v.value) else prev
  }

  /** How `PluQ_Frontend_ReceiveWorldState` stores a FrameUpdate: every scalar
      is overwritten, the view vectors only when the frame carries them, and the
      record becomes valid. */
  function StoreFrame(rs: ReceivedFrameState, f: FrameUpdateMsg): (r: ReceivedFrameState)
    ensures r.valid
    ensures r.frameNumber == f.frameNumber && r.timestamp == f.timestamp
    ensures r.health == f.health && r.armor == f.armor && r.weapon == f.weapon && r.ammo == f.ammo
    ensures r.paused == f.paused && r.inGame == f.inGame
    ensures f.viewOrigin.None? ==> r.viewOrigin == rs.viewOrigin
    ensures f.viewAngles.None? ==> r.viewAngles == rs.viewAngles
    ensures f.viewOrigin.Some? ==> r.viewOrigin == FbVec3ToQuake(f.viewOrigin.value)
    ensures f.viewAngles.Some? ==> r.viewAngles == FbVec3ToQuake(f.viewAngles.value)
  {
    ReceivedFrameState(
      f.frameNumber,
      f.timestamp,
      CopyIfPresent(rs.viewOrigin, f.viewOrigin),
      CopyIfPresent(rs.viewAngles, f.viewAngles),
      f.health,
      f.armor,
      f.weapon,
      f.ammo,
      f.paused,
      f.inGame,
      true)
  }

  /** Storing the same frame twice stores it once. */
  lemma StoreFrameIdempotent(rs: ReceivedFrameState, f: FrameUpdateMsg)
    ensures StoreFrame(StoreFrame(rs, f), f) == StoreFrame(rs, f)
  {
    if f.viewOrigin.Some? {
      Vec3RoundTrip(VecZero, f.viewOrigin.value);
    }
  }

  /** A frame that carries both view vectors overwrites every trace of the
      frame before it. */
  lemma StoreFrameOverwrites(rs: ReceivedFrameState, f1: FrameUpdateMsg, f2: FrameUpdateMsg)
    requires f2.viewOrigin.Some? && f2.viewAngles.Some?
    ensures StoreFrame(StoreFrame(rs, f1), f2) == StoreFrame(rs, f2)
  {
  }

  /** What one call of `PluQ_Frontend_ReceiveWorldState` does to the cached
      record with a received buffer: only a valid FrameUpdate changes it. */
  function Consume(rs: ReceivedFrameState, buf: Buffer<GameplayEvent>): ReceivedFrameState {
    if buf.Root? && buf.root.FrameUpdate? then StoreFrame(rs, buf.root.frame) else rs
  }

  /** The cached record after one call per buffer of `bufs`, oldest first. */
  function ConsumeAll(rs: ReceivedFrameState, bufs: seq<Buffer<GameplayEvent>>): ReceivedFrameState
    decreases |bufs|
  {
    if bufs == [] then rs else ConsumeAll(Consume(rs, bufs[0]), bufs[1..])
  }

  predicate IsFrame(buf: Buffer<GameplayEvent>) {
    buf.Root? && buf.root.FrameUpdate?
  }

  lemma {:induction false} ConsumeAllAppend(rs: ReceivedFrameState, a: seq<Buffer<GameplayEvent>>, b: seq<Buffer<GameplayEvent>>)
    ensures ConsumeAll(rs, a + b) == ConsumeAll(ConsumeAll(rs, a), b)
    decreases |a|
  {
    if a == [] {
      assert a + b == b;
    } else {
      assert (a + b)[0] == a[0];
      assert (a + b)[1..] == a[1..] + b;
      ConsumeAllAppend(Consume(rs, a[0]), a[1..], b);
    }
  }

  /** Map changes, disconnects, empty and unknown events and invalid buffers
      leave the cached record as it was. */
  lemma {:induction false} ConsumeAllIgnoresOthers(rs: ReceivedFrameState, bufs: seq<Buffer<GameplayEvent>>)
    requires forall i :: 0 <= i < |bufs| ==> !IsFrame(bufs[i])
    ensures ConsumeAll(rs, bufs) == rs
    decreases |bufs|
  {
    if bufs != [] {
      assert forall i :: 0 <= i < |bufs[1..]| ==> bufs[1..][i] == bufs[i + 1];
      ConsumeAllIgnoresOthers(rs, bufs[1..]);
    }
  }

  /** The last FrameUpdate received wins: the record holds its frame number and
      scalars, and is valid, whatever arrived after it. */
  lemma ConsumeAllLastFrameWins(rs: ReceivedFrameState, bufs: seq<Buffer<GameplayEvent>>, j: nat)
    requires j < |bufs| && IsFrame(bufs[j])
    requires forall k :: j < k < |bufs| ==> !IsFrame(bufs[k])
    ensures ConsumeAll(rs, bufs) == StoreFrame(ConsumeAll(rs, bufs[..j]), bufs[j].root.frame)
    ensures ConsumeAll(rs, bufs).valid
    ensures ConsumeAll(rs, bufs).frameNumber == bufs[j].root.frame.frameNumber
  {
    var before, tail := bufs[..j], bufs[j + 1..];
    assert bufs == before + [bufs[j]] + tail;
    ConsumeAllAppend(rs, before + [bufs[j]], tail);
    ConsumeAllAppend(rs, before, [bufs[j]]);
    assert forall i :: 0 <= i < |tail| ==> tail[i] == bufs[j + 1 + i];
    ConsumeAllIgnoresOthers(ConsumeAll(rs, before + [bufs[j]]), tail);
    assert [bufs[j]][1..] == [];
  }

  /** `PluQ_Frontend_ApplyReceivedState` on a valid record: the view origin
      (`r_refdef.vieworg`), view angles, the four stats, the paused flag and
      the client time come from the record; everything else is kept. */
  function Applied(rs: ReceivedFrameState, cl: ClientState): (r: ClientState)
    ensures r.viewOrigin == rs.viewOrigin && r.viewAngles == rs.viewAngles
    ensures r.health == rs.health && r.armor == rs.armor && r.weapon == rs.weapon && r.ammo == rs.ammo
    ensures (r.paused != 0) == rs.paused && r.time == rs.timestamp
    ensures r.hasWorldModel == cl.hasWorldModel && r.state == cl.state && r.visEdicts == cl.visEdicts
  {
    cl.(viewOrigin := rs.viewOrigin,
        viewAngles := rs.viewAngles,
        health := rs.health,
        armor := rs.armor,
        weapon := rs.weapon,
        ammo := rs.ammo,
        paused := if rs.paused then 1 else 0,
        time := rs.timestamp)
  }

  /** Applying the same record twice is applying it once: without a new frame,
      repeated calls change nothing more. */
  lemma AppliedIdempotent(rs: ReceivedFrameState, cl: ClientState)
    ensures Applied(rs, Applied(rs, cl)) == Applied(rs, cl)
  {
  }

  // ---------------------------------------------------------------------------
  // Messages built by the frontend
  // ---------------------------------------------------------------------------

  /** The command `PluQ_Frontend_SendInputCommand` builds: sequence number,
      timestamp, the three moves and the view angles; buttons, impulse and
      text are left at their defaults. */
  function InputCommandFor(sequence: uint32, now: real, cmd: UserCmd): (m: InputCommandMsg)
    ensures m.sequence == sequence && m.timestamp == now
    ensures m.forwardMove == cmd.forwardMove && m.sideMove == cmd.sideMove && m.upMove == cmd.upMove
    ensures m.viewAngles.Some? && FbVec3ToQuake(m.viewAngles.value) == cmd.viewAngles
    ensures m.buttons == 0 && m.impulse == 0 && m.cmdText.None?
  {
    InputCommandMsg(sequence, now, cmd.forwardMove, cmd.sideMove, cmd.upMove,
                    Some(QuakeVec3ToFb(cmd.viewAngles)), 0, 0, None)
  }

  /** The command `PluQ_Frontend_SendCommand` builds: only the text is set. */
  function TextCommandFor(text: string): (m: InputCommandMsg)
    ensures m.cmdText == Some(text)
    ensures m.(cmdText := None) == EmptyInputCommand
  {
    EmptyInputCommand.(cmdText := Some(text))
  }

  /** The request `PluQ_Frontend_RequestResource` builds; an absent or empty
      name is left out of the message. */
  function RequestFor(resourceType: ResourceType, resourceId: uint32, name: Option<string>): (req: ResourceRequest)
    ensures req.resourceType == resourceType && req.resourceId == resourceId
    ensures req.resourceName.Some? <==> name.Some? && name.value != []
    ensures req.resourceName.Some? ==> req.resourceName == name
  {
    ResourceRequest(resourceType, resourceId, if name.Some? && name.value != [] then name else None)
  }

  // ---------------------------------------------------------------------------
  // Resource replies
  // ---------------------------------------------------------------------------

  /** `qpic_t`: width, height and the pixel bytes. */
  datatype QPic = QPic(width: int32, height: int32, data: seq<uint8>)

  /** What a successful fetch hands back: the picture and its size in bytes
      (the eight header bytes plus the pixels). */
  datatype Fetched = Fetched(pic: QPic, size: nat)

  /** How a parsed reply is read: only a Texture with a non-empty pixel vector
      yields data, and only when the copy can be allocated. Model data, empty
      and unknown payloads, a missing texture table and an empty texture yield
      nothing. The reply's resource id is not checked. */
  function InterpretResponse(reply: ResourceResponse, allocOk: bool): (r: Option<Fetched>)
    ensures r.Some? <==>
      reply.data.TextureData? && reply.data.texture.Some? && |reply.data.texture.value.pixels| > 0 && allocOk
    ensures r.Some? ==>
      var t := reply.data.texture.value;
      && r.value.pic == QPic(t.width, t.height, t.pixels)
      && r.value.size == |t.pixels| + 8
  {
    match reply.data
    case TextureData(texture) =>
      if texture.Some? && |texture.value.pixels| > 0 && allocOk then
        var t := texture.value;
        Some(Fetched(QPic(t.width, t.height, t.pixels), |t.pixels| + 8))
      else None
    case _ => None
  }

  /** The whole outcome of a fetch once the frontend is initialised, given
      whether the request buffer was built, whether it was sent, and what the
      blocking receive returned (`None` for a receive error). */
  function FetchOutcome(bufferOk: bool, sendOk: bool, reply: Option<Buffer<ResourceResponse>>, allocOk: bool): (r: Option<Fetched>)
    ensures r.Some? <==>
      && bufferOk && sendOk && reply.Some? && reply.value.Root?
      && InterpretResponse(reply.value.root, allocOk).Some?
  {
    if !bufferOk || !sendOk || reply.None? || reply.value.InvalidRoot? then None
    else InterpretResponse(reply.value.root, allocOk)
  }

  // ---------------------------------------------------------------------------
  // The frontend process state
  // ---------------------------------------------------------------------------

  /** The frontend's static state. `ctxInitialized`, `isBackend` and
      `isFrontend` are the flags of `frontend_ctx`, whose socket and dialer
      handles are represented by the log of nng calls; `sequence` is the
      function-static counter of `PluQ_Frontend_SendInputCommand`. The two
      inboxes are what the gameplay and resources sockets have queued; `pushed`
      and `requests` are what was sent on the input and resources channels. */
  class Frontend {
    var ctxInitialized: bool
    var isBackend: bool
    var isFrontend: bool
    var frontendInitialized: bool
    var lastReceivedFrame: uint32
    var receivedState: ReceivedFrameState
    var sequence: uint32
    ghost var commandsBuilt: nat
    var calls: seq<NngCall>
    var gameplayInbox: seq<Buffer<GameplayEvent>>
    var resourceInbox: seq<Buffer<ResourceResponse>>
    var pushed: seq<InputCommandMsg>
    var requests: seq<ResourceRequest>

    /** `frontend_initialized` and `frontend_ctx.initialized` agree, an
        initialised context is in the frontend role, the sequence counter is
        the number of commands built modulo 2^32, and a valid cached record's
        frame number is the last one received. */
    ghost predicate Valid()
      reads this`ctxInitialized, this`isBackend, this`isFrontend, this`frontendInitialized,
            this`sequence, this`commandsBuilt, this`receivedState, this`lastReceivedFrame
    {
      && frontendInitialized == ctxInitialized
      && (ctxInitialized ==> isFrontend && !isBackend)
      && sequence == commandsBuilt % TWO_32
      && (receivedState.valid ==> lastReceivedFrame == receivedState.frameNumber)
    }

    /** The context is usable for transport calls. */
    predicate Ready()
      reads this`ctxInitialized, this`isFrontend
    {
      ctxInitialized && isFrontend
    }

    /** A fresh process: nothing dialled, nothing received, counters at zero. */
    constructor ()
      ensures Valid() && !frontendInitialized && !Ready()
      ensures !ctxInitialized && !isBackend && !isFrontend
      ensures lastReceivedFrame == 0 && receivedState == ZeroReceivedState
      ensures sequence == 0 && commandsBuilt == 0
      ensures calls == [] && gameplayInbox == [] && resourceInbox == [] && pushed == [] && requests == []
    {
      ctxInitialized, isBackend, isFrontend, frontendInitialized := false, false, false, false;
      lastReceivedFrame, receivedState := 0, ZeroReceivedState;
      sequence, commandsBuilt := 0, 0;
      calls, gameplayInbox, resourceInbox, pushed, requests := [], [], [], [], [];
    }

    /** A frame arrives on the gameplay channel. */
    method DeliverFrame(buf: Buffer<GameplayEvent>)
      modifies this`gameplayInbox
      ensures gameplayInbox == old(gameplayInbox) + [buf]
    {
      gameplayInbox := gameplayInbox + [buf];
    }

    /** A reply is queued on the resources channel. */
    method DeliverResource(buf: Buffer<ResourceResponse>)
      modifies this`resourceInbox
      ensures resourceInbox == old(resourceInbox) + [buf]
    {
      resourceInbox := resourceInbox + [buf];
    }

    /** One dialled channel: open, create the dialer, start it, stopping at the
        first failure. */
    method OpenDialer(protocol: Protocol, url: string, outcomes: seq<bool>) returns (ok: bool)
      requires |outcomes| == 3
      modifies this`calls
      ensures ok == AllOk(outcomes)
      ensures calls == old(calls) + DialSetup(protocol, url)[..Attempts(outcomes)]
    {
      var setup := DialSetup(protocol, url);
      calls := calls + [SocketOpen(protocol)];
      if !outcomes[0] {
        assert setup[..1] == [SocketOpen(protocol)];
        return false;
      }
      calls := calls + [DialerCreate(url)];
      if !outcomes[1] {
        assert setup[..2] == [SocketOpen(protocol), DialerCreate(url)];
        return false;
      }
      calls := calls + [DialerStart(url)];
      ok := outcomes[2];
      assert setup[..3] == setup;
    }

    /** The gameplay channel: open, subscribe to everything, create the
        dialer, start it, stopping at the first failure. */
    method OpenSubscriber(outcomes: seq<bool>) returns (ok: bool)
      requires |outcomes| == 4
      modifies this`calls
      ensures ok == AllOk(outcomes)
      ensures calls == old(calls) + SubscriberSetup[..Attempts(outcomes)]
    {
      var setup := SubscriberSetup;
      calls := calls + [SocketOpen(Sub0)];
      if !outcomes[0] {
        assert setup[..1] == [SocketOpen(Sub0)];
        return false;
      }
      calls := calls + [Subscribe("")];
      if !outcomes[1] {
        assert setup[..2] == [SocketOpen(Sub0), Subscribe("")];
        return false;
      }
      calls := calls + [DialerCreate(UrlGameplay)];
      if !outcomes[2] {
        assert setup[..3] == [SocketOpen(Sub0), Subscribe(""), DialerCreate(UrlGameplay)];
        return false;
      }
      calls := calls + [DialerStart(UrlGameplay)];
      ok := outcomes[3];
      assert setup[..4] == setup;
    }

    /** The setup part of `PluQ_Frontend_Init`: the resources, gameplay and
        input channels in that order, stopping at the first failed call. */
    method DialAll(outcomes: seq<bool>) returns (ok: bool)
      requires |outcomes| == |FrontendSetup|
      modifies this`calls
      ensures ok == AllOk(outcomes)
      ensures calls == old(calls) + FrontendSetup[..Attempts(outcomes)]
    {
      var o1, o2, o3 := outcomes[..3], outcomes[3..7], outcomes[7..];
      assert outcomes == o1 + o2 + o3;
      SetupPrefix3(DialSetup(Req0, UrlResources), o1, SubscriberSetup, o2, DialSetup(Push0, UrlInput), o3);
      ok := OpenDialer(Req0, UrlResources, o1);
      if ok {
        ok := OpenSubscriber(o2);
        if ok {
          ok := OpenDialer(Push0, UrlInput, o3);
        }
      }
    }

    /** `PluQ_Frontend_Init`. When already initialised it returns true and
        changes nothing. Otherwise it takes the frontend role and runs the ten
        setup calls, resources then gameplay then input, stopping at the first
        failure; it succeeds exactly when all ten succeed. On failure its call
        to `PluQ_Frontend_Shutdown` finds the frontend uninitialised and closes
        nothing, and the context keeps the frontend role. */
    method Init(outcomes: seq<bool>) returns (ok: bool)
      requires Valid() && |outcomes| == |FrontendSetup|
      modifies this`ctxInitialized, this`isBackend, this`isFrontend, this`frontendInitialized, this`calls
      ensures Valid()
      ensures frontendInitialized == ok && ctxInitialized == ok
      ensures old(frontendInitialized) ==> ok && calls == old(calls) && isFrontend == old(isFrontend) && isBackend == old(isBackend)
      ensures !old(frontendInitialized) ==>
        && ok == AllOk(outcomes)
        && calls == old(calls) + FrontendSetup[..Attempts(outcomes)]
        && isFrontend && !isBackend
    {
      if frontendInitialized {
        return true;
      }
      ctxInitialized, isBackend, isFrontend := false, false, true;
      ok := DialAll(outcomes);
      if !ok {
        Shutdown();
        return false;
      }
      ctxInitialized := true;
      frontendInitialized := true;
    }

    /** `PluQ_Frontend_Shutdown`: a no-op unless initialised; otherwise closes
        the three sockets and clears the context and the initialised flag. */
    method Shutdown()
      requires Valid()
      modifies this`ctxInitialized, this`isBackend, this`isFrontend, this`frontendInitialized, this`calls
      ensures Valid() && !frontendInitialized && !ctxInitialized
      ensures old(frontendInitialized) ==> calls == old(calls) + FrontendTeardown && !isFrontend && !isBackend
      ensures !old(frontendInitialized) ==>
        calls == old(calls) && isFrontend == old(isFrontend) && isBackend == old(isBackend)
    {
      if !frontendInitialized {
        return;
      }
      calls := calls + [SocketClose(Req0)];
      calls := calls + [SocketClose(Sub0)];
      calls := calls + [SocketClose(Push0)];
      ctxInitialized, isBackend, isFrontend := false, false, false;
      frontendInitialized := false;
    }

    /** `PluQ_Frontend_ReceiveFrame`: a non-blocking receive on the gameplay
        channel. Nothing is taken unless the context is ready and something is
        queued. */
    method ReceiveFrame() returns (msg: Option<Buffer<GameplayEvent>>)
      modifies this`gameplayInbox
      ensures !Ready() || old(gameplayInbox) == [] ==> msg == None && gameplayInbox == old(gameplayInbox)
      ensures Ready() && old(gameplayInbox) != [] ==>
        msg == Some(old(gameplayInbox)[0]) && gameplayInbox == old(gameplayInbox)[1..]
    {
      if !ctxInitialized || !isFrontend || gameplayInbox == [] {
        return None;
      }
      msg := Some(gameplayInbox[0]);
      gameplayInbox := gameplayInbox[1..];
    }

    /** `PluQ_Frontend_ReceiveResource`: a non-blocking receive on the resources
        channel. Nothing is taken unless the context is ready and something is
        queued. */
    method ReceiveResource() returns (msg: Option<Buffer<ResourceResponse>>)
      modifies this`resourceInbox
      ensures !Ready() || old(resourceInbox) == [] ==> msg == None && resourceInbox == old(resourceInbox)
      ensures Ready() && old(resourceInbox) != [] ==>
        msg == Some(old(resourceInbox)[0]) && resourceInbox == old(resourceInbox)[1..]
    {
      if !ctxInitialized || !isFrontend || resourceInbox == [] {
        return None;
      }
      msg := Some(resourceInbox[0]);
      resourceInbox := resourceInbox[1..];
    }

    /** `PluQ_Frontend_SendInput`: a push on the input channel, made only when
        the context is ready and logged only when the send succeeds. */
    method SendInput(m: InputCommandMsg, sendOk: bool) returns (ok: bool)
      modifies this`pushed
      ensures ok == (Ready() && sendOk)
      ensures pushed == old(pushed) + (if ok then [m] else [])
    {
      if !ctxInitialized || !isFrontend {
        return false;
      }
      if !sendOk {
        return false;
      }
      pushed := pushed + [m];
      ok := true;
    }

    /** `PluQ_Frontend_SendCommand`: a console command as an input command
        carrying only its text. Nothing is built when uninitialised or when the
        text is null or empty; nothing is sent when the builder yields no
        buffer. */
    method SendCommand(cmdText: Option<string>, bufferOk: bool, sendOk: bool)
      requires Valid()
      modifies this`pushed
      ensures pushed == old(pushed) +
        (if frontendInitialized && cmdText.Some? && cmdText.value != [] && bufferOk && sendOk
         then [TextCommandFor(cmdText.value)] else [])
    {
      if !frontendInitialized || cmdText.None? || cmdText.value == [] {
        return;
      }
      var m := TextCommandFor(cmdText.value);
      if bufferOk {
        var _ := SendInput(m, sendOk);
      }
    }

    /** `PluQ_Frontend_SendInputCommand`. When initialised and given a command,
        it builds command number `commandsBuilt mod 2^32`, stamped with `now`,
        and the counter advances whether or not a buffer results or the send
        succeeds; so the commands built carry 0, 1, 2, ... */
    method SendInputCommand(cmd: Option<UserCmd>, now: real, bufferOk: bool, sendOk: bool)
      requires Valid()
      modifies this`sequence, this`commandsBuilt, this`pushed
      ensures Valid()
      ensures !old(frontendInitialized) || cmd.None? ==>
        sequence == old(sequence) && commandsBuilt == old(commandsBuilt) && pushed == old(pushed)
      ensures old(frontendInitialized) && cmd.Some? ==>
        && commandsBuilt == old(commandsBuilt) + 1
        && pushed == old(pushed) +
             (if bufferOk && sendOk then [InputCommandFor(old(commandsBuilt) % TWO_32, now, cmd.value)] else [])
    {
      if !frontendInitialized || cmd.None? {
        return;
      }
      var m := InputCommandFor(sequence, now, cmd.value);
      UInt32Increment(sequence, commandsBuilt);
      sequence := ToUInt32(sequence + 1);
      commandsBuilt := commandsBuilt + 1;
      if bufferOk {
        var _ := SendInput(m, sendOk);
      }
    }

    /** `PluQ_Frontend_ReceiveWorldState`: takes at most one message. It returns
        false when nothing arrives or the root is invalid, and true for any
        valid root; only a FrameUpdate changes the cached record and the last
        received frame number. */
    method ReceiveWorldState() returns (ok: bool)
      requires Valid()
      modifies this`gameplayInbox, this`receivedState, this`lastReceivedFrame
      ensures Valid()
      ensures ok == (Ready() && old(gameplayInbox) != [] && old(gameplayInbox)[0].Root?)
      ensures !Ready() || old(gameplayInbox) == [] ==>
        gameplayInbox == old(gameplayInbox) && receivedState == old(receivedState)
        && lastReceivedFrame == old(lastReceivedFrame)
      ensures Ready() && old(gameplayInbox) != [] ==>
        && gameplayInbox == old(gameplayInbox)[1..]
        && receivedState == Consume(old(receivedState), old(gameplayInbox)[0])
        && lastReceivedFrame == (if IsFrame(old(gameplayInbox)[0])
                                 then old(gameplayInbox)[0].root.frame.frameNumber
                                 else old(lastReceivedFrame))
    {
      var msg := ReceiveFrame();
      if msg.None? {
        return false;
      }
      if msg.value.InvalidRoot? {
        return false;
      }
      var event := msg.value.root;
      if event.FrameUpdate? {
        receivedState := StoreFrame(receivedState, event.frame);
        lastReceivedFrame := receivedState.frameNumber;
      }
      ok := true;
    }

    /** `PluQ_Frontend_ApplyReceivedState`: a no-op until the frontend is
        initialised and a frame has been received. */
    method ApplyReceivedState(cl: ClientState) returns (result: ClientState)
      ensures !(frontendInitialized && receivedState.valid) ==> result == cl
      ensures frontendInitialized && receivedState.valid ==> result == Applied(receivedState, cl)
    {
      if !frontendInitialized || !receivedState.valid {
        return cl;
      }
      result := Applied(receivedState, cl);
    }

    /** The five-argument `PluQ_Frontend_RequestResource`. Unless initialised
        it does nothing. Otherwise it builds the request, sends it when the
        builder yields a buffer, waits for the reply (`reply`, `None` for a
        receive error) and reads it with `InterpretResponse`. */
    method RequestResource(resourceType: ResourceType, resourceId: uint32, name: Option<string>,
                           bufferOk: bool, sendOk: bool, reply: Option<Buffer<ResourceResponse>>, allocOk: bool)
      returns (result: Option<Fetched>)
      modifies this`requests
      ensures !frontendInitialized ==> result == None && requests == old(requests)
      ensures frontendInitialized ==>
        && result == FetchOutcome(bufferOk, sendOk, reply, allocOk)
        && requests == old(requests) + (if bufferOk && sendOk then [RequestFor(resourceType, resourceId, name)] else [])
    {
      if !frontendInitialized {
        return None;
      }
      var req := RequestFor(resourceType, resourceId, name);
      if !bufferOk {
        return None;
      }
      if !sendOk {
        return None;
      }
      requests := requests + [req];
      if reply.None? {
        return None;
      }
      if reply.value.InvalidRoot? {
        return None;
      }
      result := InterpretResponse(reply.value.root, allocOk);
    }
  }
}
