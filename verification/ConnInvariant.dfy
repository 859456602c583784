/** What holds of a connection between any two calls, whatever the calls, the clock and the network do: in particular
    nothing is ever connected, and no reconnect scheduled, before the configuration is complete. */
module ConnInvariant {
  import opened Bits
  import opened Options
  import opened Proto
  import opened Framing
  import opened ConnState
  import opened ConnOps

  /** d differs from c only in the poll last asked for, the shutdown and the log. */
  ghost predicate Quiet(c: Conn, d: Conn) {
    d == c.(poll := d.poll, writeFinished := d.writeFinished, log := d.log)
  }

  lemma UpdatePollQuiet(c: Conn)
    ensures Quiet(c, UpdatePoll(c))
  {
    hide PollFor, ShouldShutDown;
  }

  lemma QuietInv(c: Conn, d: Conn)
    requires Quiet(c, d)
    ensures Inv(d) <==> Inv(c)
    ensures HasConfiguration(d) <==> HasConfiguration(c)
  {
    hide Framing.Ready, Distinct;
  }

  lemma QuietFields(c: Conn, d: Conn)
    requires Quiet(c, d)
    ensures d.sock == c.sock && d.state == c.state && d.reconnectAt == c.reconnectAt && d.tiles == c.tiles
  {
  }

  lemma InvUpdatePoll(c: Conn)
    requires Inv(c)
    ensures Inv(UpdatePoll(c))
    ensures var d := UpdatePoll(c);
            d.sock == c.sock && d.state == c.state && d.reconnectAt == c.reconnectAt && d.tiles == c.tiles
  {
    hide UpdatePoll, Inv, Quiet;
    UpdatePollQuiet(c);
    QuietInv(c, UpdatePoll(c));
    QuietFields(c, UpdatePoll(c));
  }

  /** Enough for an error to be reported. */
  ghost predicate Failing(c: Conn) {
    && c.sock >= -1 && |c.output| <= BUFFER_SIZE && |c.input| <= BUFFER_SIZE && c.wsPos <= 4 && c.timeout <= MAX_TIMEOUT
    && HasConfiguration(c) && c.state != WaitingForConfiguration && Distinct(c.tiles)
  }

  lemma InvReported(c: Conn)
    requires Inv(c)
    ensures var d := UpdatePoll(c); Inv(Emit(d, ErrorReported(d.synced)))
  {
    hide UpdatePoll, Inv;
    UpdatePollQuiet(c);
    QuietInv(c, UpdatePoll(c));
    var d := UpdatePoll(c);
    QuietInv(d, Emit(d, ErrorReported(d.synced)));
  }

  lemma BrokenFailing(c: Conn, t: ErrorTimes)
    requires Failing(c)
    ensures Inv(Broken(c, t)) && Broken(c, t).sock == -1 && Broken(c, t).reconnectAt != NEVER
    ensures Broken(c, t).state == c.state && Broken(c, t).tiles == c.tiles
  {
    hide Distinct;
  }

  /** After an error there is no socket and a reconnect is scheduled. */
  lemma InvReportError(c: Conn, t: ErrorTimes)
    requires Failing(c)
    ensures var d := ReportError(c, t);
            Inv(d) && d.sock == -1 && d.reconnectAt != NEVER && d.state == c.state && d.tiles == c.tiles
  {
    hide UpdatePoll, Broken, Failing, Inv;
    BrokenFailing(c, t);
    InvReported(Broken(c, t));
    UpdatePollQuiet(Broken(c, t));
  }

  lemma InvConnecting(c: Conn, fd: nat, done: bool)
    requires Inv(c) && c.sock == -1 && c.reconnectAt != NEVER
    ensures Inv(Connecting(c, fd, done)) && Failing(Trying(c, -1)) && Failing(Trying(c, fd))
  {
    hide Distinct, Parse;
    ParseNothing();
  }

  lemma InvTryReconnect(c: Conn, r: ConnectResult, t: ErrorTimes)
    requires Inv(c) && c.sock == -1 && c.reconnectAt != NEVER
    ensures Inv(TryReconnect(c, r, t))
  {
    hide UpdatePoll, ReportError, Inv, Failing, Connecting, Trying;
    match r
    case NoSocket => InvConnecting(c, 0, true); InvReportError(Trying(c, -1), t);
    case NotReady(fd) => InvConnecting(c, fd, true); InvReportError(Trying(c, fd), t);
    case Refused(fd) => InvConnecting(c, fd, true); InvReportError(Trying(c, fd), t);
    case InProgress(fd) => InvConnecting(c, fd, false); InvUpdatePoll(Connecting(c, fd, false));
    case Connected(fd) => InvConnecting(c, fd, true); InvUpdatePoll(Connecting(c, fd, true));
  }

  /** d differs from c only in what messages from the server change; what is known is not forgotten. */
  ghost predicate Informed(c: Conn, d: Conn) {
    && d == c.(hasPerson := d.hasPerson, person := d.person, playerIdAt := d.playerIdAt, nextMessage := d.nextMessage,
               synced := d.synced, finished := d.finished, log := d.log)
    && (c.hasPerson ==> d.hasPerson)
  }

  lemma DeliverInforms(c: Conn, d: Conn, payload: seq<byte>, now: Time)
    requires Accepted(payload) && Informed(c, d)
    ensures Informed(c, Deliver(d, payload, now))
  {
    hide Accepted;
  }

  lemma {:induction false} DeliverAllInforms(c: Conn, payloads: seq<seq<byte>>, now: Time)
    requires AllAccepted(payloads)
    ensures Informed(c, DeliverAll(c, payloads, now))
    decreases |payloads|
  {
    hide Accepted, Deliver, Informed;
    if payloads == [] {
      InformedSame(c);
    } else {
      var m := |payloads| - 1;
      DeliverAllInforms(c, payloads[..m], now);
      DeliverInforms(c, DeliverAll(c, payloads[..m], now), payloads[m], now);
    }
  }

  lemma InformedSame(c: Conn)
    ensures Informed(c, c)
  {
  }

  lemma InvProcess(c: Conn, bytes: seq<byte>, now: Time, t: ErrorTimes)
    requires Inv(c.(input := [])) && Failing(c) && c.sock != -1 && c.wsPos == 4
    ensures Inv(Process(c, bytes, now, t))
  {
    hide UpdatePoll, ReportError, Distinct, Parse, DeliverAll, AllAccepted, Accepted;
    ParsedAccepted(bytes);
    var p := Parse(bytes);
    DeliverAllInforms(c, p.payloads, now);
    var d := DeliverAll(c, p.payloads, now);
    if p.More? {
      RestSmall(bytes);
      RestStable(bytes);
      InvUpdatePoll(d.(input := p.rest));
    } else {
      InvReportError(Reject(d, p.trouble), t);
    }
  }

  lemma InvClosed(c: Conn)
    requires Inv(c)
    ensures Live(c) ==>
              Inv(Closed(c)) && Closed(c).sock == -1 && Closed(c).state == Disconnected
                && Closed(c).reconnectAt == c.reconnectAt
    ensures c.state == WaitingForReconnect ==>
              Inv(Cancelled(c)) && Cancelled(c).sock == -1 && Cancelled(c).state == Disconnected
                && Cancelled(c).reconnectAt == NEVER
    ensures c.state == WaitingForConfiguration ==>
              Inv(Abandoned(c)) && Abandoned(c).sock == -1 && Abandoned(c).state == Disconnected
                && Abandoned(c).reconnectAt == c.reconnectAt
    ensures c.state == Disconnected ==> c.sock == -1
  {
    hide Distinct, Framing.Ready;
  }

  lemma InvStopped(c: Conn)
    requires Inv(c)
    ensures Inv(Halt(c)) && Halt(c).sock == -1 && Halt(c).state == Disconnected
    ensures Halt(c).reconnectAt == if c.state == WaitingForReconnect then NEVER else c.reconnectAt
  {
    hide UpdatePoll, Inv, Closed, Cancelled, Abandoned;
    InvClosed(c);
    match c.state
    case Disconnected =>
    case WaitingForReconnect => InvUpdatePoll(Cancelled(c));
    case WaitingForConfiguration =>
    case _ => InvUpdatePoll(Closed(c));
  }

  lemma InvStop(c: Conn, now: Time)
    requires Inv(c)
    ensures Inv(SetRunning(c, false, now)) && SetRunning(c, false, now).sock == -1
    ensures SetRunning(c, false, now).state == Disconnected
    ensures SetRunning(c, false, now).reconnectAt == if c.state == WaitingForReconnect then NEVER else c.reconnectAt
  {
    hide Halt, Inv;
    InvStopped(c);
    InvClosed(c);
    var d := Halt(c);
    QuietInv(d, Emit(d, RunningChanged(false, d.synced)));
  }

  lemma InvMatching(c: Conn, q: nat, input: seq<byte>)
    requires Inv(c) && c.sock != -1 && q <= 4 && |input| <= BUFFER_SIZE
    ensures q < 4 ==> Inv(c.(wsPos := q, input := []))
    ensures Inv(c.(wsPos := 4, input := [])) && Failing(c.(wsPos := 4, input := input))
  {
    hide Distinct, Parse;
    ParseNothing();
  }

  lemma InvDigest(c: Conn, input: seq<byte>, now: Time, t: ErrorTimes)
    requires Inv(c) && c.sock != -1 && c.wsPos <= 4 && |input| <= BUFFER_SIZE
    ensures Inv(Digest(c, input, now, t))
  {
    hide Inv, Failing, Match, Process;
    var (q, n) := Match(c.wsPos, input);
    InvMatching(c, q, input);
    if q == 4 { InvProcess(c.(wsPos := 4, input := input), input[n..], now, t); }
  }

  lemma InvHandleRead(c: Conn, r: ReadResult, now: Time, t: ErrorTimes)
    requires Inv(c) && c.sock != -1
    ensures Inv(HandleRead(c, r, now, t))
  {
    hide Inv, Failing, ReportError, Digest, SetRunning, Room;
    InvNamed(c);
    match r
    case ReadBlocked =>
    case ReadFailed => InvReportError(c, t);
    case Got(bytes) =>
      InvStop(c, t.retry);
      InvReportError(c, t);
      var d := Emit(c, Received(Room(c, bytes)));
      QuietInv(c, d);
      InvDigest(d, c.input + Room(c, bytes), now, t);
  }

  /** Queueing items changes only what was waiting, the output and the log. */
  ghost predicate Drained(c: Conn, d: Conn) {
    && d == c.(dirty := d.dirty, tiles := d.tiles, messages := d.messages, sentTyping := d.sentTyping,
               output := d.output, log := d.log)
    && (Distinct(c.tiles) ==> Distinct(d.tiles))
  }

  lemma QueueDrains(c: Conn, d: Conn, item: Item)
    requires Drained(c, d)
    ensures Drained(c, Queue(d, item))
  {
    hide Encode, FlagsOf;
  }

  lemma {:induction false} FillDrains(c: Conn, d: Conn)
    requires Named(d) && |d.output| <= BUFFER_SIZE && Drained(c, d)
    ensures Drained(c, Fill(d)) && |Fill(d).output| <= BUFFER_SIZE
    decreases BUFFER_SIZE - |d.output|
  {
    hide Drained, Queue, NextItem, FitsIn, Encode;
    var item := NextItem(d);
    if item.Some? && FitsIn(d, item.value) {
      QueueDrains(c, d, item.value);
      FillDrains(c, Queue(d, item.value));
    }
  }

  lemma DrainedSame(c: Conn)
    ensures Drained(c, c)
  {
  }

  lemma InvDrained(c: Conn, d: Conn)
    requires Inv(c) && c.sock != -1 && Drained(c, d) && |d.output| <= BUFFER_SIZE
    ensures Inv(d) && Failing(d) && d.sock == c.sock
  {
    hide Distinct, Framing.Ready;
  }

  lemma InvAccept(c: Conn, n: nat, keepAliveAt: int)
    requires Inv(c)
    ensures Inv(Accept(c, n)) && Inv(Accept(c, n).(keepAliveAt := keepAliveAt))
    ensures Failing(c) ==> Failing(Accept(c, n))
  {
    hide Distinct, Framing.Ready;
  }

  lemma InvHandleWrite(c: Conn, r: WriteResult, t: ErrorTimes)
    requires Inv(c) && c.sock != -1
    ensures Inv(HandleWrite(c, r, t))
  {
    hide UpdatePoll, ReportError, Fill, Accept, Inv, Failing, Drained;
    InvNamed(c);
    DrainedSame(c);
    FillDrains(c, c);
    var d := Fill(c);
    InvDrained(c, d);
    InvAccept(d, 0, NEVER);
    match r
    case WriteBlocked =>
    case WriteFailed => InvReportError(Accept(d, 0), t);
    case Wrote(n) =>
      InvAccept(d, n, t.retry + KEEP_ALIVE_TIME);
      InvUpdatePoll(Accept(d, n).(keepAliveAt := t.retry + KEEP_ALIVE_TIME));
  }

  lemma InvNamed(c: Conn)
    requires Inv(c)
    ensures |c.output| <= BUFFER_SIZE && |c.input| <= BUFFER_SIZE && c.wsPos <= 4 && c.sock >= -1
    ensures 0 <= c.reconnectAt <= NEVER
    ensures c.sock != -1 ==> Named(c) && Failing(c)
  {
    hide Distinct, Framing.Ready;
  }

  lemma InvAwake(c: Conn, ready: Ready, now: Instant)
    requires Inv(c) && c.sock != -1
    ensures Inv(Awake(c, ready, now)) && Awake(c, ready, now).sock == c.sock
  {
    hide Distinct, Framing.Ready;
  }

  lemma InvWakeUp(c: Conn, ready: Ready, w: World)
    requires Inv(c)
    ensures Inv(WakeUp(c, ready, w))
  {
    hide UpdatePoll, TryReconnect, HandleRead, HandleWrite, Inv, Awake;
    InvNamed(c);
    if c.sock == -1 {
      if w.now >= c.reconnectAt { InvTryReconnect(c, w.connect, w.times); }
    } else {
      var d := Awake(c, ready, w.now);
      InvAwake(c, ready, w.now);
      if ready.readable {
        InvHandleRead(d, w.read, w.arrival, w.times);
      } else if ready.writable {
        InvHandleWrite(d, w.write, w.times);
      } else {
        InvUpdatePoll(d);
      }
    }
  }

  /** Enough for a first attempt to connect, or the wait for more configuration. */
  ghost predicate Idle(c: Conn) {
    c.sock == -1 && |c.output| <= BUFFER_SIZE && |c.input| <= BUFFER_SIZE && c.wsPos <= 4 && Distinct(c.tiles)
  }

  lemma InvStarting(c: Conn, now: Time)
    requires Idle(c)
    ensures if HasConfiguration(c) then Inv(c.(timeout := 0, reconnectAt := now, state := WaitingForReconnect))
            else Inv(c.(timeout := 0, reconnectAt := NEVER, state := WaitingForConfiguration))
  {
    hide Distinct, Framing.Ready;
  }

  lemma InvStart(c: Conn, now: Time)
    requires Idle(c)
    ensures Inv(StartConnecting(c, now))
  {
    hide UpdatePoll, Inv, Idle;
    InvStarting(c, now);
    if HasConfiguration(c) {
      InvUpdatePoll(c.(timeout := 0, reconnectAt := now, state := WaitingForReconnect));
    }
  }

  lemma InvIdle(c: Conn)
    requires Inv(c)
    ensures c.sock == -1 ==> Idle(c)
    ensures c.state == Disconnected || c.state == WaitingForConfiguration ==> c.sock == -1
  {
    hide Distinct, Framing.Ready;
  }

  /** Learning more of the configuration. */
  lemma InvLearn(c: Conn, d: Conn, now: Time)
    requires Inv(c) && (HasConfiguration(c) ==> HasConfiguration(d))
    requires d == c.(hasAddress := d.hasAddress, address := d.address, hasConversation := d.hasConversation,
                     conversation := d.conversation, room := d.room, player := d.player,
                     hasPerson := d.hasPerson, person := d.person)
    ensures Inv(MaybeStart(d, now))
  {
    hide StartConnecting, Distinct, Framing.Ready;
    InvIdle(c);
    if c.state == WaitingForConfiguration { InvStart(d, now); }
  }

  lemma InvReset(c: Conn)
    requires c.sock >= -1 && |c.output| <= BUFFER_SIZE && |c.input| <= BUFFER_SIZE && c.wsPos <= 4
    ensures Inv(Reset(c)) && Reset(c).sock == -1 && Reset(c).state == Disconnected && Reset(c).reconnectAt == NEVER
  {
    hide UpdatePoll, Framing.Ready;
    var d := Cleared(c);
    var e := SetRunning(d, false, 0);
    UpdatePollQuiet(Abandoned(d));
    assert e.sock == -1 && e.state == Disconnected && e.reconnectAt == NEVER && Inv(e);
    InvUpdatePoll(e);
    UpdatePollQuiet(e);
  }

  lemma {:induction false} SquashDistinct(tiles: seq<Tile>, tile: Tile)
    requires Distinct(tiles)
    ensures Distinct(Squash(tiles, tile))
    ensures forall i :: 0 <= i < |Squash(tiles, tile)| ==>
              Squash(tiles, tile)[i] == tile || Squash(tiles, tile)[i] in tiles
  {
    if tiles != [] && tiles[0].num != tile.num {
      SquashDistinct(tiles[1..], tile);
    }
  }

  lemma InvNew()
    ensures Inv(New())
  {
    hide Reset;
    InvReset(Blank());
    hide Inv;
    InvLog(Reset(Blank()), []);
  }

  lemma InvLog(c: Conn, log: seq<Effect>)
    ensures Inv(c.(log := log)) <==> Inv(c)
  {
    hide Distinct, Framing.Ready;
  }

  lemma InvRequest(c: Conn, d: Conn)
    requires Inv(c) && Distinct(d.tiles)
    requires d == c.(typing := d.typing, dirty := d.dirty, tiles := d.tiles, messages := d.messages,
                     nTiles := d.nTiles, language := d.language)
    ensures Inv(d) && Inv(UpdatePoll(d))
  {
    hide UpdatePoll, Distinct, Framing.Ready;
    InvUpdatePoll(d);
  }

  lemma InvDistinct(c: Conn)
    requires Inv(c)
    ensures Distinct(c.tiles)
  {
    hide Distinct, Framing.Ready;
  }

  lemma InvRequests(c: Conn, op: Op)
    requires Inv(c) && IsRequest(op)
    ensures Inv(Step(c, op))
  {
    hide Inv, Distinct, Squash, Step, Noted, UpdatePoll;
    StepRequest(c, op);
    NotedFields(c, op);
    InvDistinct(c);
    if op.DoMove? { SquashDistinct(c.tiles, op.tile); }
    InvRequest(c, Noted(c, op));
  }

  lemma InvLearning(c: Conn, op: Op)
    requires Inv(c) && IsLearning(op)
    ensures Inv(Step(c, op))
  {
    hide Inv, Step, MaybeStart, Learnt;
    StepLearning(c, op);
    LearntLearns(c, op);
    Learned(c, Learnt(c, op), TimeOf(op));
  }

  lemma Learned(c: Conn, d: Conn, now: Time)
    requires Inv(c) && Learns(c, d)
    ensures Inv(MaybeStart(d, now))
  {
    hide Inv, MaybeStart;
    InvLearn(c, d, now);
  }

  /** Every call and every wake-up keeps the invariant. */
  lemma InvStep(c: Conn, op: Op)
    requires Inv(c)
    ensures Inv(Step(c, op))
  {
    hide Inv, WakeUp, Reset, SetRunning, UpdatePoll, MaybeStart;
    InvNamed(c);
    if IsRequest(op) {
      InvRequests(c, op);
    } else if IsLearning(op) {
      InvLearning(c, op);
    } else if op.DoSetRunning? {
      InvSetRunning(c, op.running, op.now);
    } else if op.DoReset? {
      InvReset(c);
    } else {
      InvWakeUp(c, op.ready, op.world);
    }
  }

  lemma InvSetRunning(c: Conn, running: bool, now: Time)
    requires Inv(c)
    ensures Inv(SetRunning(c, running, now))
  {
    hide Inv, Idle, StartConnecting, Halt;
    InvStop(c, now);
    InvIdle(c);
    if running && c.state == Disconnected {
      InvStart(c, now);
      var d := StartConnecting(c, now);
      QuietInv(d, Emit(d, RunningChanged(true, d.synced)));
    }
  }

  // ---------- runs ----------

  ghost function Run(c: Conn, ops: seq<Op>): (d: Conn)
    requires Inv(c)
    ensures Inv(d)
    decreases |ops|
  {
    if ops == [] then c
    else
      InvStep(Run(c, ops[..|ops| - 1]), ops[|ops| - 1]);
      Step(Run(c, ops[..|ops| - 1]), ops[|ops| - 1])
  }

  /** In every reachable state: an open socket or a scheduled reconnect means that the configuration is complete, and
      waiting for the configuration means that there is neither and that it is not. */
  lemma ConfigurationFirst(ops: seq<Op>)
    ensures Inv(New())
    ensures var c := Run(New(), ops);
            && (c.sock != -1 || c.reconnectAt != NEVER ==> c.hasAddress && (c.hasPerson || c.player.Some?))
            && (c.state == WaitingForConfiguration ==>
                  c.sock == -1 && c.reconnectAt == NEVER && !(c.hasAddress && (c.hasPerson || c.player.Some?)))
  {
    hide Run, New;
    InvNew();
  }
}
