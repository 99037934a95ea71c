/**
 * The backend and the frontend together: what the backend publishes is what
 * the frontend caches and applies, what the frontend sends is what the backend
 * stores, and both counters start at zero and advance by one.
 */
module PluqScenario {
  import opened CTypes
  import opened Engine
  import opened Schema
  import opened PluqShared
  import opened PluqStats
  import opened PluqBackend
  import opened PluqFrontend

  /** A published frame, once stored by the frontend, carries the backend's
      frame number, time, view vectors, and its stats narrowed to their wire
      widths. */
  lemma FrameReachesFrontend(rs: ReceivedFrameState, cl: ClientState, n: uint32)
    ensures var r := StoreFrame(rs, Snapshot(cl, n));
      && r.valid && r.inGame && r.frameNumber == n && r.timestamp == cl.time
      && r.viewOrigin == cl.viewOrigin && r.viewAngles == cl.viewAngles
      && r.health == ToInt16(cl.health) && r.armor == ToInt16(cl.armor)
      && r.weapon == ToUInt8(cl.weapon) && r.ammo == ToUInt16(cl.ammo)
      && r.paused == (cl.paused != 0)
  {
    Vec3RoundTrip(cl.viewOrigin, QuakeVec3ToFb(cl.viewOrigin));
    Vec3RoundTrip(cl.viewAngles, QuakeVec3ToFb(cl.viewAngles));
  }

  /** Applied on the frontend, a published frame reproduces the backend's view,
      time and paused flag, and its stats whenever they fit the wire widths;
      the frontend's own entity list is left alone. */
  lemma FrameAppliedOnFrontend(rs: ReceivedFrameState, cl: ClientState, n: uint32, local: ClientState)
    requires -0x8000 <= cl.health < 0x8000 && -0x8000 <= cl.armor < 0x8000
    requires 0 <= cl.weapon < 0x100 && 0 <= cl.ammo < 0x1_0000
    requires cl.paused == 0 || cl.paused == 1
    ensures var a := Applied(StoreFrame(rs, Snapshot(cl, n)), local);
      && a.viewOrigin == cl.viewOrigin && a.viewAngles == cl.viewAngles && a.time == cl.time
      && a.health == cl.health && a.armor == cl.armor && a.weapon == cl.weapon && a.ammo == cl.ammo
      && a.paused == cl.paused
      && a.visEdicts == local.visEdicts
  {
    FrameReachesFrontend(rs, cl, n);
  }

  /** A movement command built by the frontend and drained by the backend
      becomes the backend's stored input: its sequence number, time, moves and
      view angles, with no buttons, impulse or text. */
  lemma InputReachesBackend(cur: InputCmd, sequence: uint32, now: real, cmd: UserCmd)
    ensures var c := DrainInput(cur, [Root(InputCommandFor(sequence, now, cmd))]);
      && c.sequence == sequence && c.timestamp == now
      && c.forwardMove == cmd.forwardMove && c.sideMove == cmd.sideMove && c.upMove == cmd.upMove
      && c.viewAngles == cmd.viewAngles
      && c.buttons == 0 && c.impulse == 0 && c.cmdText == []
  {
    var m := InputCommandFor(sequence, now, cmd);
    assert [Root(m)][1..] == [];
  }

  /** A console command sent by the frontend reaches the backend's command
      buffer whole, followed by a newline, and is kept (up to 255 characters)
      as the stored text. */
  lemma CommandReachesBackend(cur: InputCmd, text: string)
    requires text != []
    ensures DrainCommands([Root(TextCommandFor(text))]) == [text, "\n"]
    ensures DrainInput(cur, [Root(TextCommandFor(text))]).cmdText == StoredText(Some(text))
  {
    assert [Root(TextCommandFor(text))][1..] == [];
  }

  /** `n` successful setup calls. */
  function AllSucceed(n: nat): (outcomes: seq<bool>)
    ensures |outcomes| == n && Transport.AllOk(outcomes)
  {
    seq(n, _ => true)
  }

  /** A freshly enabled backend publishes the frames of two ticks in game as
      frame 0 and frame 1, and counts both in the statistics. */
  method TwoTicks(cl: ClientState, frameTime: real) returns (published: seq<GameplayEvent>, stats: Stats)
    requires InGame(cl)
    requires frameTime > 0.0
    ensures published == [FrameUpdate(Snapshot(cl, 0)), FrameUpdate(Snapshot(cl, 1))]
    ensures stats.framesSent == 2 && stats.totalTime == frameTime + frameTime
    ensures stats.maxFrameTime == frameTime && stats.minFrameTime == frameTime
  {
    var backend := new Backend();
    var store := new StatsStore();
    var ok := backend.Enable(AllSucceed(|BackendSetup|));
    backend.BroadcastWorldState(cl, frameTime, true, true, store);
    backend.BroadcastWorldState(cl, frameTime, true, true, store);
    published := backend.published;
    stats := store.perfStats;
  }

  /** A freshly initialised frontend numbers the commands it builds 0 and 1,
      and pushes both when the sends succeed. */
  method TwoCommands(cmd: UserCmd, now: real) returns (pushed: seq<InputCommandMsg>)
    ensures pushed == [InputCommandFor(0, now, cmd), InputCommandFor(1, now, cmd)]
  {
    var frontend := new Frontend();
    var ok := frontend.Init(AllSucceed(|FrontendSetup|));
    frontend.SendInputCommand(Some(cmd), now, true, true);
    frontend.SendInputCommand(Some(cmd), now, true, true);
    pushed := frontend.pushed;
  }

  /** A console command end to end: the frontend pushes it, the backend
      receives it and drains its input, after which the command buffer holds
      the text and a newline, and the stored input keeps the text. */
  method CommandEndToEnd(text: string) returns (queued: seq<string>, stored: seq<char>)
    requires text != []
    ensures queued == [text, "\n"]
    ensures stored == StoredText(Some(text))
  {
    var frontend := new Frontend();
    var ok := frontend.Init(AllSucceed(|FrontendSetup|));
    frontend.SendCommand(Some(text), true, true);

    var backend := new Backend();
    ok := backend.Enable(AllSucceed(|BackendSetup|));
    backend.DeliverInput(Root(frontend.pushed[0]));
    backend.ProcessInputCommands();
    CommandReachesBackend(ZeroInputCmd, text);
    queued := backend.cbuf;
    stored := backend.currentInput.cmdText;
  }

  /** A resource reply that has arrived is handed out once by an initialised
      frontend; the next receive finds nothing. */
  method ResourceReplyOnce(reply: ResourceResponse) returns (first: Option<Buffer<ResourceResponse>>, second: Option<Buffer<ResourceResponse>>)
    ensures first == Some(Root(reply)) && second == None
  {
    var frontend := new Frontend();
    var ok := frontend.Init(AllSucceed(|FrontendSetup|));
    frontend.DeliverResource(Root(reply));
    first := frontend.ReceiveResource();
    second := frontend.ReceiveResource();
  }

  /** One frame end to end: the backend publishes it, the frontend receives it
      and applies it to its own client state, which then shows the backend's
      view and time. */
  method FrameEndToEnd(cl: ClientState, frameTime: real, local: ClientState) returns (shown: ClientState)
    requires InGame(cl)
    ensures shown.viewOrigin == cl.viewOrigin && shown.viewAngles == cl.viewAngles && shown.time == cl.time
    ensures shown.health == ToInt16(cl.health) && shown.paused == (if cl.paused != 0 then 1 else 0)
    ensures shown.visEdicts == local.visEdicts
  {
    var backend := new Backend();
    var store := new StatsStore();
    var ok := backend.Enable(AllSucceed(|BackendSetup|));
    backend.BroadcastWorldState(cl, frameTime, true, true, store);

    var frontend := new Frontend();
    ok := frontend.Init(AllSucceed(|FrontendSetup|));
    frontend.DeliverFrame(Root(backend.published[0]));
    ok := frontend.ReceiveWorldState();
    shown := frontend.ApplyReceivedState(local);
    FrameReachesFrontend(ZeroReceivedState, cl, 0);
  }
}
