/** Whether the poll last announced is what a connection waits for: update_poll in client/vsx-connection.c, and the ways
    through a wake-up that leave it out. */
module ConnPoll {
  import opened Bits
  import opened Options
  import opened Proto
  import opened Framing
  import opened ConnState
  import opened ConnOps
  import opened ConnInvariant
  import ConnStop

  /** The listeners know what to poll for. */
  predicate Current(c: Conn) {
    c.poll == PollFor(c)
  }

  /** The wake-up tells that connecting has finished, or lets the keep-alive expire. */
  predicate Wakes(c: Conn, ready: ConnState.Ready, now: Instant) {
    (c.state == Reconnecting && ready.writable) || now >= c.keepAliveAt
  }

  /** Whether a read is followed by an update of the poll. */
  predicate QuietRead(c: Conn, r: ReadResult)
    requires |c.input| <= BUFFER_SIZE && c.wsPos <= 4
  {
    match r
    case ReadBlocked => true
    case ReadFailed => false
    case Got(bytes) => Room(c, bytes) != [] && Match(c.wsPos, c.input + Room(c, bytes)).0 < 4
  }

  /** The wake-up ends in a read that would block, before the end of the handshake, or in a write that would block. */
  predicate Unannounced(c: Conn, ready: ConnState.Ready, w: World)
    requires |c.input| <= BUFFER_SIZE && c.wsPos <= 4
  {
    if ready.readable then QuietRead(c, w.read) else ready.writable && w.write.WriteBlocked?
  }

  ghost predicate Lags(c: Conn, op: Op)
    requires Inv(c)
  {
    op.DoWakeUp? && c.sock != -1 && Wakes(c, op.ready, op.world.now) && Unannounced(c, op.ready, op.world)
  }

  // ---------- calls that announce ----------

  lemma UpdatePollCurrent(c: Conn)
    ensures Current(UpdatePoll(c))
  {
    hide PollEffects;
  }

  lemma EmitCurrent(c: Conn, e: Effect)
    ensures Current(Emit(c, e)) <==> Current(c)
  {
  }

  lemma ReportErrorCurrent(c: Conn, t: ErrorTimes)
    ensures Current(ReportError(c, t))
  {
    hide UpdatePoll, Current, Emit;
    var d := UpdatePoll(Broken(c, t));
    UpdatePollCurrent(Broken(c, t));
    EmitCurrent(d, ErrorReported(d.synced));
  }

  lemma TryReconnectCurrent(c: Conn, r: ConnectResult, t: ErrorTimes)
    ensures Current(TryReconnect(c, r, t))
  {
    hide UpdatePoll, Current, ReportError, Trying, Connecting;
    match r
    case NoSocket => ReportErrorCurrent(Trying(c, -1), t);
    case NotReady(fd) => ReportErrorCurrent(Trying(c, fd), t);
    case Refused(fd) => ReportErrorCurrent(Trying(c, fd), t);
    case InProgress(fd) => UpdatePollCurrent(Connecting(c, fd, false));
    case Connected(fd) => UpdatePollCurrent(Connecting(c, fd, true));
  }

  lemma ProcessCurrent(c: Conn, bytes: seq<byte>, now: Time, t: ErrorTimes)
    ensures Current(Process(c, bytes, now, t))
  {
    hide UpdatePoll, Current, ReportError, Parse, DeliverAll, Reject, AllAccepted;
    ParsedAccepted(bytes);
    match Parse(bytes)
    case More(payloads, rest) => UpdatePollCurrent(DeliverAll(c, payloads, now).(input := rest));
    case Stop(payloads, trouble) => ReportErrorCurrent(Reject(DeliverAll(c, payloads, now), trouble), t);
  }

  /** Stopping; a connection that is not live has nothing to announce but the end of a scheduled reconnect. */
  lemma HaltCurrent(c: Conn)
    requires Live(c) || Current(c)
    ensures Current(Halt(c))
  {
    hide UpdatePoll, Closed, Cancelled;
    UpdatePollCurrent(Closed(c));
    UpdatePollCurrent(Cancelled(c));
  }

  lemma StartCurrent(c: Conn, now: Time)
    requires Inv(c) && Current(c) && (c.state == Disconnected || c.state == WaitingForConfiguration)
    ensures Current(StartConnecting(c, now))
  {
    hide UpdatePoll, Inv, HasConfiguration;
    UpdatePollCurrent(c.(timeout := 0, reconnectAt := now, state := WaitingForReconnect));
    InvIdle(c);
    UnscheduledIs(c);
  }

  /** Without its configuration, or waiting for it, nothing is scheduled and there is no socket. */
  lemma UnscheduledIs(c: Conn)
    requires Inv(c)
    ensures !HasConfiguration(c) || c.state == WaitingForConfiguration ==> c.reconnectAt == NEVER && c.sock == -1
  {
  }

  lemma SetRunningCurrent(c: Conn, running: bool, now: Time)
    requires Inv(c) && Current(c)
    ensures Current(SetRunning(c, running, now))
  {
    hide Halt, StartConnecting, Inv, Current, Emit;
    if running != IsRunning(c) {
      var d := SetRunningInternal(c, running, now);
      if running { StartCurrent(c, now); } else { HaltCurrent(c); }
      EmitCurrent(d, RunningChanged(running, d.synced));
    }
  }

  lemma EndOfStreamCurrent(c: Conn, t: ErrorTimes)
    requires Live(c)
    ensures Current(EndOfStream(c, t))
  {
    hide Halt, ReportError, Current, Emit;
    ReportErrorCurrent(c, t);
    HaltCurrent(c);
    var d := Halt(c);
    EmitCurrent(d, RunningChanged(false, d.synced));
  }

  // ---------- writing ----------

  lemma NextIsPending(c: Conn)
    requires Named(c) && NextItem(c).Some?
    ensures HasPendingData(c)
  {
  }

  /** Queueing moves what is pending into the buffer, where it is still pending. */
  lemma QueuePoll(c: Conn, item: Item)
    requires Named(c) && NextItem(c) == Some(item)
    ensures PollFor(Queue(c, item)) == PollFor(c) && Queue(c, item).poll == c.poll
  {
    hide Encode, FlagsOf, NextItem;
    NextIsPending(c);
  }

  lemma {:induction false} FillPoll(c: Conn)
    requires Named(c) && |c.output| <= BUFFER_SIZE
    ensures PollFor(Fill(c)) == PollFor(c) && Fill(c).poll == c.poll
    decreases BUFFER_SIZE - |c.output|
  {
    hide Queue, NextItem, FitsIn, Encode, Named, PollFor;
    var item := NextItem(c);
    if item.Some? && FitsIn(c, item.value) {
      QueuePoll(c, item.value);
      FillPoll(Queue(c, item.value));
    }
  }

  /** A write that would block changes nothing that is polled for; every other write is announced. */
  lemma HandleWritePoll(c: Conn, r: WriteResult, t: ErrorTimes)
    requires Named(c) && |c.output| <= BUFFER_SIZE
    ensures var d := HandleWrite(c, r, t);
            if r.WriteBlocked? then PollFor(d) == PollFor(c) && d.poll == c.poll else Current(d)
  {
    hide Fill, UpdatePoll, ReportError, Current, Named;
    FillPoll(c);
    var d := Fill(c);
    match r
    case WriteBlocked => AcceptNothing(d);
    case WriteFailed => ReportErrorCurrent(Accept(d, 0), t);
    case Wrote(n) => UpdatePollCurrent(Accept(d, n).(keepAliveAt := t.retry + KEEP_ALIVE_TIME));
  }

  lemma AcceptNothing(c: Conn)
    ensures PollFor(Accept(c, 0)) == PollFor(c) && Accept(c, 0).poll == c.poll
  {
    assert c.output[0..] == c.output;
  }

  // ---------- reading ----------

  lemma HandleReadPoll(c: Conn, r: ReadResult, now: Time, t: ErrorTimes)
    requires Live(c) && |c.input| <= BUFFER_SIZE && c.wsPos <= 4
    ensures var d := HandleRead(c, r, now, t);
            if QuietRead(c, r) then PollFor(d) == PollFor(c) && d.poll == c.poll else Current(d)
  {
    hide Process, ReportError, EndOfStream, Current, Room, Match;
    match r
    case ReadBlocked =>
    case ReadFailed => ReportErrorCurrent(c, t);
    case Got(bytes) =>
      if Room(c, bytes) == [] {
        EndOfStreamCurrent(c, t);
      } else {
        var d, input := Emit(c, Received(Room(c, bytes))), c.input + Room(c, bytes);
        var (q, n) := Match(c.wsPos, input);
        if q == 4 { ProcessCurrent(d.(wsPos := 4, input := input), input[n..], now, t); }
      }
  }

  // ---------- steps ----------

  /** What the wake-up notices first changes what to poll for exactly when it wakes something. */
  lemma AwakePoll(c: Conn, ready: ConnState.Ready, now: Instant)
    requires Inv(c) && c.sock != -1
    ensures var d := Awake(c, ready, now);
            && d.poll == c.poll && Live(d) && (PollFor(d) == PollFor(c) <==> !Wakes(c, ready, now))
            && d.input == c.input && d.wsPos == c.wsPos && d.output == c.output && Named(d) == Named(c)
  {
    hide Framing.Ready, Distinct, HasConfiguration;
  }

  lemma QuietSame(c: Conn, d: Conn, r: ReadResult)
    requires c.input == d.input && c.wsPos == d.wsPos && |c.input| <= BUFFER_SIZE && c.wsPos <= 4
    ensures QuietRead(c, r) == QuietRead(d, r)
  {
    hide Match;
  }

  /** From c the wake-up first leads to d and then to e. */
  lemma Judged(c: Conn, d: Conn, e: Conn, ready: ConnState.Ready, now: Instant, quiet: bool)
    requires Current(c) && d.poll == c.poll && (PollFor(d) == PollFor(c) <==> !Wakes(c, ready, now))
    requires if quiet then PollFor(e) == PollFor(d) && e.poll == d.poll else Current(e)
    ensures Current(e) <==> !(Wakes(c, ready, now) && quiet)
  {
    hide PollFor, Wakes;
    if quiet {
      assert Current(e) <==> c.poll == PollFor(d);
    }
  }

  lemma WakeUpCurrent(c: Conn, ready: ConnState.Ready, w: World)
    requires Inv(c) && Current(c)
    ensures Current(Step(c, DoWakeUp(ready, w))) <==> !Lags(c, DoWakeUp(ready, w))
  {
    hide Inv, HandleRead, HandleWrite, UpdatePoll, TryReconnect, Awake, Current, PollFor, Named, QuietRead, Live, Wakes;
    InvNamed(c);
    if c.sock == -1 {
      TryReconnectCurrent(c, w.connect, w.times);
    } else {
      var d := Awake(c, ready, w.now);
      AwakePoll(c, ready, w.now);
      if ready.readable {
        HandleReadPoll(d, w.read, w.arrival, w.times);
        QuietSame(c, d, w.read);
        Judged(c, d, HandleRead(d, w.read, w.arrival, w.times), ready, w.now, QuietRead(c, w.read));
      } else if ready.writable {
        HandleWritePoll(d, w.write, w.times);
        Judged(c, d, HandleWrite(d, w.write, w.times), ready, w.now, w.write.WriteBlocked?);
      } else {
        UpdatePollCurrent(d);
      }
    }
  }

  lemma LearningCurrent(c: Conn, op: Op)
    requires Inv(c) && Current(c) && IsLearning(op)
    ensures Current(Step(c, op))
  {
    hide Inv, Step, UpdatePoll, Learnt;
    StepLearning(c, op);
    LearntLearns(c, op);
    UnscheduledIs(c);
    UpdatePollCurrent(Learnt(c, op).(timeout := 0, reconnectAt := TimeOf(op), state := WaitingForReconnect));
  }

  lemma RequestCurrent(c: Conn, op: Op)
    requires Inv(c) && Current(c) && IsRequest(op)
    ensures Current(Step(c, op))
  {
    hide Inv, Step, Noted, UpdatePoll, Current;
    StepRequest(c, op);
    UpdatePollCurrent(Noted(c, op));
    if Silently(c, op) { SilentCurrent(c, op); }
  }

  lemma SilentCurrent(c: Conn, op: Op)
    requires Current(c) && IsRequest(op) && Silently(c, op)
    ensures Current(Noted(c, op))
  {
    assert c.dirty + {} == c.dirty;
  }

  /** A call on a connection whose listeners know what to poll for leaves them knowing it, except exactly for a
      wake-up on an open socket that tells that connecting has finished or lets the keep-alive expire, and then ends
      in a read that would block, before the end of the handshake, or in a write that would block. */
  lemma PollCurrent(c: Conn, op: Op)
    requires Inv(c) && Current(c)
    ensures Current(Step(c, op)) <==> !Lags(c, op)
  {
    hide Inv, Current, UpdatePoll, WakeUp, MaybeStart, SetRunning, Squash, Clip, Lags;
    if op.DoWakeUp? {
      WakeUpCurrent(c, op.ready, op.world);
    } else {
      CallCurrent(c, op);
      OnlyWakeUpLags(c, op);
    }
  }

  lemma OnlyWakeUpLags(c: Conn, op: Op)
    requires Inv(c) && !op.DoWakeUp?
    ensures !Lags(c, op)
  {
    hide Inv;
  }

  lemma CallCurrent(c: Conn, op: Op)
    requires Inv(c) && Current(c) && !op.DoWakeUp?
    ensures Current(Step(c, op))
  {
    hide Inv, Current, UpdatePoll, SetRunning, Cleared;
    if IsRequest(op) {
      RequestCurrent(c, op);
    } else if IsLearning(op) {
      LearningCurrent(c, op);
    } else if op.DoReset? {
      UpdatePollCurrent(SetRunning(Cleared(c), false, 0));
    } else {
      SetRunningCurrent(c, op.running, op.now);
    }
  }

  // ---------- runs ----------

  /** No step of the run is one of those that are not announced. */
  ghost predicate Prompt(c: Conn, ops: seq<Op>)
    requires Inv(c)
  {
    forall k :: 0 <= k < |ops| ==> !Lags(Run(c, ops[..k]), ops[k])
  }

  /** In a run without such a step the announced poll is right all the time. */
  lemma {:induction false} CurrentRun(c: Conn, ops: seq<Op>)
    requires Inv(c) && Current(c) && Prompt(c, ops)
    ensures Current(Run(c, ops))
    decreases |ops|
  {
    hide Inv, Step, Current, Lags;
    if ops != [] {
      var m := |ops| - 1;
      assert forall k :: 0 <= k < m ==> ops[..m][..k] == ops[..k];
      CurrentRun(c, ops[..m]);
      PollCurrent(Run(c, ops[..m]), ops[m]);
    }
  }

  lemma NewCurrent()
    ensures Inv(New()) && Current(New())
  {
    hide Inv, UpdatePoll, SetRunning, Cleared;
    InvNew();
    UpdatePollCurrent(SetRunning(Cleared(Blank()), false, 0));
  }

  // ---------- a run that ends with an old poll ----------

  predicate Linking(c: Conn) {
    c.sock == 7 && c.state == Reconnecting
  }

  /** Connecting takes a while. */
  function Begins(): Op {
    DoWakeUp(ConnState.Ready(true, true), World(0, 0, ErrorTimes(0, 0), InProgress(7), ReadBlocked, WriteBlocked))
  }

  /** Connecting has finished, but the write would block. */
  function Blocks(): Op {
    DoWakeUp(ConnState.Ready(false, true), World(0, 0, ErrorTimes(0, 0), NoSocket, ReadBlocked, WriteBlocked))
  }

  lemma Begun(c: Conn)
    requires Inv(c) && ConnStop.AboutToConnect(c)
    ensures Linking(Step(c, Begins()))
    ensures Current(c) ==> Current(Step(c, Begins()))
  {
    hide Inv, PollFor, PollEffects;
    UpdatePollCurrent(Connecting(c, 7, false));
  }

  lemma BlockedLags(c: Conn)
    requires Inv(c) && Linking(c)
    ensures Lags(c, Blocks())
  {
    hide Inv;
    InvNamed(c);
  }

  /** Five calls on a new connection after which the listeners still poll for the end of connecting. */
  lemma PollStale() returns (ops: seq<Op>)
    ensures Inv(New()) && !Current(Run(New(), ops))
  {
    hide Inv, Run, Step, ConnStop.Fresh, ConnStop.AboutToConnect, HasConfiguration, New, Begins, Blocks, Current,
         Linking, Lags;
    NewCurrent();
    ConnStop.NewIs();
    var c := New();
    var address, player, start := DoAddress(1, 0), DoPlayer([65], 0), DoSetRunning(true, 0);
    ConnStop.Addressed(c);
    InvStep(c, address);
    CallCurrent(c, address);
    var c1 := Step(c, address);
    ConnStop.NameGiven(c1);
    InvStep(c1, player);
    CallCurrent(c1, player);
    var c2 := Step(c1, player);
    ConnStop.Connects(c2);
    InvStep(c2, start);
    CallCurrent(c2, start);
    var c3 := Step(c2, start);
    Begun(c3);
    InvStep(c3, Begins());
    var c4 := Step(c3, Begins());
    BlockedLags(c4);
    PollCurrent(c4, Blocks());
    ConnStop.RunNothing(c);
    ConnStop.RunLast(c, [], address);
    ConnStop.RunLast(c, [address], player);
    ConnStop.RunLast(c, [address, player], start);
    ConnStop.RunLast(c, [address, player, start], Begins());
    ConnStop.RunLast(c, [address, player, start, Begins()], Blocks());
    assert [] + [address] == [address] && [address] + [player] == [address, player];
    assert [address, player] + [start] == [address, player, start];
    assert [address, player, start] + [Begins()] == [address, player, start, Begins()];
    ops := [address, player, start, Begins()] + [Blocks()];
  }
}
