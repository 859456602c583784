/** What the log of a connection says about the socket it holds and about running. */
module ConnLife {
  import opened Bits
  import opened Options
  import opened Proto
  import opened Framing
  import opened ConnState
  import opened ConnOps
  import opened ConnInvariant
  import opened ConnMoves

  /** The socket opened last, until an error is reported or running changes. */
  function Holding(log: seq<Effect>): int {
    if log == [] then -1
    else
      match log[|log| - 1]
      case Opened(fd) => fd
      case ErrorReported(_) => -1
      case RunningChanged(_, _) => -1
      case _ => Holding(log[..|log| - 1])
  }

  /** What was announced last; but a socket opened after a stop means running again, without an announcement. */
  function Alive(log: seq<Effect>): bool {
    if log == [] then false
    else
      match log[|log| - 1]
      case Opened(_) => true
      case RunningChanged(running, _) => running
      case _ => Alive(log[..|log| - 1])
  }

  /** After this log: a socket is opened only when there is none; only a change of running is announced; bytes and
      messages pass only while there is a socket; and no other one is shut down. */
  predicate Fits(log: seq<Effect>, e: Effect) {
    match e
    case Opened(_) => Holding(log) == -1
    case RunningChanged(running, _) => running != Alive(log)
    case Received(_) => Holding(log) != -1
    case MessageReceived(_, _) => Holding(log) != -1
    case Queued(_) => Holding(log) != -1
    case Sent(_, _) => Holding(log) != -1
    case ShutDown(fd) => fd == -1 || fd == Holding(log)
    case _ => true
  }

  ghost predicate Orderly(log: seq<Effect>) {
    forall k :: 0 <= k < |log| ==> Fits(log[..k], log[k])
  }

  ghost predicate Steady(c: Conn) {
    IsRunning(c) == Alive(c.log) && Orderly(c.log)
  }

  /** The log says which socket there is, and whether the connection is running. */
  ghost predicate Held(c: Conn) {
    Steady(c) && c.sock == Holding(c.log)
  }

  lemma Next(log: seq<Effect>, e: Effect)
    requires Orderly(log) && Fits(log, e)
    ensures Orderly(log + [e])
    ensures Holding(log + [e]) ==
            if e.Opened? then e.fd else if e.ErrorReported? || e.RunningChanged? then -1 else Holding(log)
    ensures Alive(log + [e]) == if e.Opened? then true else if e.RunningChanged? then e.running else Alive(log)
  {
    hide Fits;
    var all := log + [e];
    assert all[..|log|] == log;
    forall k | 0 <= k < |all|
      ensures Fits(all[..k], all[k])
    {
      if k < |log| { assert all[..k] == log[..k]; }
    }
  }

  // ---------- what changes neither ----------

  /** The socket and running are as before, and the log agrees. */
  ghost predicate Quiet(c: Conn, d: Conn) {
    d.sock == c.sock && IsRunning(d) == IsRunning(c) && Holding(d.log) == Holding(c.log) && Steady(d)
  }

  predicate Silent(e: Effect) {
    !e.Opened? && !e.ErrorReported? && !e.RunningChanged?
  }

  lemma QuietNext(c: Conn, d: Conn, e: Effect)
    requires Steady(c) && d.sock == c.sock && IsRunning(d) == IsRunning(c)
    requires d.log == c.log || (d.log == c.log + [e] && Silent(e) && Fits(c.log, e))
    ensures Quiet(c, d)
  {
    hide Orderly, Holding, Alive, Fits;
    if d.log != c.log { Next(c.log, e); }
  }

  /** The shutdown first, then the poll. */
  function Half(c: Conn): Conn {
    c.(log := if ShouldShutDown(c) then c.log + [ShutDown(c.sock)] else c.log)
  }

  lemma PollSays(c: Conn)
    ensures var d := UpdatePoll(c);
            && d.sock == c.sock && d.state == c.state
            && (d.log == Half(c).log || d.log == Half(c).log + [PollChanged(PollFor(c), c.synced)])
  {
    hide PollFor, ShouldShutDown;
    assert c.log + [] == c.log;
  }

  lemma QuietHalf(c: Conn)
    requires Steady(c) && (c.sock == -1 || c.sock == Holding(c.log))
    ensures Quiet(c, Half(c)) && Half(c).state == c.state
  {
    hide Steady, Fits, Holding, Alive, Half;
    HalfIs(c);
    ShutFits(c);
    QuietNext(c, Half(c), ShutDown(c.sock));
  }

  lemma HalfIs(c: Conn)
    ensures var d := Half(c);
            && d.sock == c.sock && d.state == c.state
            && (d.log == c.log || d.log == c.log + [ShutDown(c.sock)])
  {
    hide ShouldShutDown;
  }

  lemma ShutFits(c: Conn)
    requires c.sock == -1 || c.sock == Holding(c.log)
    ensures Fits(c.log, ShutDown(c.sock))
  {
    hide Holding;
  }

  lemma QuietPoll(c: Conn)
    requires Steady(c) && (c.sock == -1 || c.sock == Holding(c.log))
    ensures Quiet(c, UpdatePoll(c))
  {
    hide Steady, UpdatePoll, ShouldShutDown, PollFor, Holding, Alive, Half, Orderly;
    PollSays(c);
    QuietHalf(c);
    QuietNext(Half(c), UpdatePoll(c), PollChanged(PollFor(c), c.synced));
  }

  lemma QuietDeliver(c: Conn, payload: seq<byte>, now: Time)
    requires Held(c) && c.sock != -1 && Accepted(payload)
    ensures Quiet(c, Deliver(c, payload, now))
  {
    hide Steady, Holding, Alive, Accepted, PassedOn;
    var d := Absorb(c, payload, now);
    QuietNext(c, Deliver(c, payload, now), MessageReceived(payload, d.synced));
  }

  lemma {:induction false} QuietDeliverAll(c: Conn, payloads: seq<seq<byte>>, now: Time)
    requires Held(c) && c.sock != -1 && AllAccepted(payloads)
    ensures Quiet(c, DeliverAll(c, payloads, now))
    decreases |payloads|
  {
    hide Steady, Holding, Alive, Accepted, Deliver;
    if payloads != [] {
      var m := |payloads| - 1;
      QuietDeliverAll(c, payloads[..m], now);
      QuietDeliver(DeliverAll(c, payloads[..m], now), payloads[m], now);
    }
  }

  lemma QuietQueue(c: Conn, item: Item)
    requires Held(c) && c.sock != -1
    ensures Quiet(c, Queue(c, item))
  {
    hide Steady, Holding, Alive, Encode;
    QuietNext(c, Queue(c, item), Queued(item));
  }

  lemma {:induction false} QuietFill(c: Conn)
    requires Held(c) && c.sock != -1 && Named(c) && |c.output| <= BUFFER_SIZE
    ensures Quiet(c, Fill(c))
    decreases BUFFER_SIZE - |c.output|
  {
    hide Steady, Holding, Alive, Encode, Queue, NextItem, Named;
    var item := NextItem(c);
    if item.None? || !FitsIn(c, item.value) {
      QuietNext(c, c, ErrorReported(false));
    } else {
      QuietQueue(c, item.value);
      QuietFill(Queue(c, item.value));
    }
  }

  lemma QuietAccept(c: Conn, n: nat)
    requires Held(c) && c.sock != -1
    ensures Quiet(c, Accept(c, n))
  {
    hide Steady, Holding, Alive;
    QuietNext(c, Accept(c, n), Sent(c.output, if n <= |c.output| then n else |c.output|));
  }

  lemma QuietHeld(c: Conn, d: Conn)
    requires Held(c) && Quiet(c, d)
    ensures Held(d)
  {
  }

  lemma HeldPoll(c: Conn)
    requires Held(c)
    ensures Held(UpdatePoll(c))
  {
    hide UpdatePoll, Steady, Holding;
    QuietPoll(c);
  }

  // ---------- what changes them ----------

  lemma ErrorHeld(c: Conn, t: ErrorTimes)
    requires Steady(c)
    ensures Held(ReportError(c, t))
  {
    hide UpdatePoll, Orderly, Holding, Alive;
    var d := UpdatePoll(Broken(c, t));
    QuietPoll(Broken(c, t));
    Next(d.log, ErrorReported(d.synced));
  }

  lemma RunsHeld(c: Conn, running: bool, now: Time)
    requires Steady(c) && (c.sock == -1 || Live(c)) && (!IsRunning(c) ==> c.sock == Holding(c.log))
    requires running == IsRunning(c) ==> c.sock == Holding(c.log)
    ensures Held(SetRunning(c, running, now))
  {
    hide Steady, Holding, Alive, Orderly, Halt, StartConnecting;
    if running != IsRunning(c) {
      var d := SetRunningInternal(c, running, now);
      if running { StartHeld(c, now); } else { HaltHeld(c); }
      Announced(c, d, running);
    }
  }

  /** The state has changed, the log has not been told. */
  ghost predicate Untold(c: Conn, d: Conn) {
    d.sock == -1 && Alive(d.log) == Alive(c.log) && Orderly(d.log)
  }

  lemma Announced(c: Conn, d: Conn, running: bool)
    requires Steady(c) && Untold(c, d) && running == IsRunning(d) != IsRunning(c)
    ensures Held(Emit(d, RunningChanged(running, d.synced)))
  {
    hide Holding, Alive, Orderly;
    Next(d.log, RunningChanged(running, d.synced));
  }

  lemma PollUntold(c: Conn, d: Conn)
    requires Untold(c, d) && !ShouldShutDown(d)
    ensures Untold(c, UpdatePoll(d)) && IsRunning(UpdatePoll(d)) == IsRunning(d)
  {
    hide Holding, Alive, Orderly, UpdatePoll, ShouldShutDown, PollFor;
    PollSays(d);
    Next(d.log, PollChanged(PollFor(d), d.synced));
  }

  lemma HaltHeld(c: Conn)
    requires Steady(c) && (c.sock == -1 || Live(c)) && IsRunning(c)
    ensures Untold(c, Halt(c)) && !IsRunning(Halt(c))
  {
    hide UpdatePoll, Alive, Orderly;
    PollUntold(c, Closed(c));
    if c.sock == -1 { PollUntold(c, Cancelled(c)); }
  }

  lemma StartHeld(c: Conn, now: Time)
    requires Steady(c) && (c.sock == -1 || Live(c)) && !IsRunning(c)
    ensures Untold(c, StartConnecting(c, now)) && IsRunning(StartConnecting(c, now))
  {
    hide UpdatePoll, Alive, Orderly;
    PollUntold(c, c.(timeout := 0, reconnectAt := now, state := WaitingForReconnect));
  }

  // ---------- wake-ups ----------

  lemma ProcessHeld(c: Conn, bytes: seq<byte>, now: Time, t: ErrorTimes)
    requires Held(c) && c.sock != -1
    ensures Held(Process(c, bytes, now, t))
  {
    hide Steady, Holding, Parse, DeliverAll, ReportError, Accepted, UpdatePoll;
    ParsedAccepted(bytes);
    match Parse(bytes)
    case More(payloads, rest) =>
      var d := DeliverAll(c, payloads, now);
      QuietDeliverAll(c, payloads, now);
      QuietNext(d, d.(input := rest), ErrorReported(false));
      HeldPoll(d.(input := rest));
    case Stop(payloads, trouble) =>
      var d := DeliverAll(c, payloads, now);
      QuietDeliverAll(c, payloads, now);
      QuietNext(d, Reject(d, trouble), ErrorReported(false));
      ErrorHeld(Reject(d, trouble), t);
  }

  lemma ReadHeld(c: Conn, r: ReadResult, now: Time, t: ErrorTimes)
    requires Held(c) && c.sock != -1 && Live(c) && |c.input| <= BUFFER_SIZE && c.wsPos <= 4
    ensures Held(ConnState.HandleRead(c, r, now, t))
  {
    hide Steady, Holding, Alive, Process, ReportError, Match, SetRunning;
    ErrorHeld(c, t);
    RunsHeld(c, false, t.retry);
    if r.Got? && Room(c, r.bytes) != [] {
      var got := Room(c, r.bytes);
      var d := Emit(c, Received(got));
      QuietNext(c, d, Received(got));
      var input := c.input + got;
      var (q, n) := Match(c.wsPos, input);
      QuietNext(d, d.(wsPos := q, input := []), Received(got));
      QuietNext(d, d.(wsPos := 4, input := input), Received(got));
      if q >= 4 { ProcessHeld(d.(wsPos := 4, input := input), input[n..], now, t); }
    }
  }

  lemma WriteHeld(c: Conn, r: WriteResult, t: ErrorTimes)
    requires Held(c) && c.sock != -1 && Named(c) && |c.output| <= BUFFER_SIZE
    ensures Held(ConnState.HandleWrite(c, r, t))
  {
    hide Steady, Holding, Alive, Fill, Accept, ReportError, UpdatePoll, Named;
    var d := Fill(c);
    QuietFill(c);
    var e := Accept(d, if r.Wrote? then r.n else 0);
    QuietAccept(d, if r.Wrote? then r.n else 0);
    match r
    case WriteBlocked =>
    case WriteFailed => ErrorHeld(e, t);
    case Wrote(n) =>
      QuietNext(e, e.(keepAliveAt := t.retry + KEEP_ALIVE_TIME), ErrorReported(false));
      HeldPoll(e.(keepAliveAt := t.retry + KEEP_ALIVE_TIME));
  }

  lemma ConnectHeld(c: Conn, fd: nat, done: bool)
    requires Held(c) && c.sock == -1
    ensures Held(UpdatePoll(Connecting(c, fd, done)))
  {
    hide UpdatePoll, Holding, Alive, Orderly;
    Next(c.log, Opened(fd));
    HeldPoll(Connecting(c, fd, done));
  }

  lemma TryHeld(c: Conn, r: ConnectResult, t: ErrorTimes)
    requires Held(c) && c.sock == -1
    ensures Held(TryReconnect(c, r, t))
  {
    hide UpdatePoll, Holding, Alive, Orderly, ReportError, Connecting;
    match r
    case NoSocket => ErrorHeld(Trying(c, -1), t);
    case NotReady(fd) => ErrorHeld(Trying(c, fd), t);
    case Refused(fd) => ErrorHeld(Trying(c, fd), t);
    case InProgress(fd) => ConnectHeld(c, fd, false);
    case Connected(fd) => ConnectHeld(c, fd, true);
  }

  lemma WakeUpHeld(c: Conn, ready: ConnState.Ready, w: World)
    requires Inv(c) && Held(c)
    ensures Held(WakeUp(c, ready, w))
  {
    hide Steady, Holding, Alive, Orderly, TryReconnect, ConnState.HandleRead, ConnState.HandleWrite, UpdatePoll;
    if c.sock == -1 {
      TryHeld(c, w.connect, w.times);
    } else {
      var d := Awake(c, ready, w.now);
      QuietNext(c, d, ErrorReported(false));
      ReadHeld(d, w.read, w.arrival, w.times);
      WriteHeld(d, w.write, w.times);
      HeldPoll(d);
    }
  }

  // ---------- whole runs ----------

  lemma GivenHeld(c: Conn, op: Op)
    requires Held(c) && !op.DoReset?
    ensures Held(Given(c, op)) && Given(c, op).sock == c.sock && Given(c, op).state == c.state
  {
    hide Steady, Holding, Given, Noted, Learnt, IsRequest;
    GivenIs(c, op);
    if IsRequest(op) { NotedFields(c, op); } else { GivenLearns(c, op); }
    QuietNext(c, Given(c, op), ErrorReported(false));
  }

  lemma LearningHeld(c: Conn, op: Op)
    requires Inv(c) && Held(c) && IsLearning(op)
    ensures Held(Step(c, op))
  {
    hide Inv, Steady, Holding, Step, Learnt, Given, UpdatePoll;
    StepLearning(c, op);
    GivenIs(c, op);
    GivenHeld(c, op);
    if !AlreadyKnown(c, op) {
      var d, now := Learnt(c, op), TimeOf(op);
      var begun := d.(timeout := 0, reconnectAt := now, state := WaitingForReconnect);
      if c.state == WaitingForConfiguration {
        QuietNext(d, begun, ErrorReported(false));
        HeldPoll(begun);
        QuietNext(d, d.(timeout := 0, reconnectAt := NEVER, state := WaitingForConfiguration), ErrorReported(false));
      }
    }
  }

  lemma ResetHeld(c: Conn)
    requires Inv(c) && Held(c)
    ensures Held(Reset(c))
  {
    hide Holding, Alive, Orderly, SetRunning, UpdatePoll;
    RunsHeld(Cleared(c), false, 0);
    HeldPoll(SetRunning(Cleared(c), false, 0));
  }

  lemma StepHeld(c: Conn, op: Op)
    requires Inv(c) && Held(c)
    ensures Held(Step(c, op))
  {
    hide Inv, Steady, Holding, Step, UpdatePoll, IsRequest, IsLearning, Noted, Given, Learnt;
    LearningOnly(op);
    if IsRequest(op) {
      StepRequest(c, op);
      GivenIs(c, op);
      GivenHeld(c, op);
      HeldPoll(Noted(c, op));
    } else if IsLearning(op) {
      LearningHeld(c, op);
    } else {
      OtherHeld(c, op);
    }
  }

  lemma OtherHeld(c: Conn, op: Op)
    requires Inv(c) && Held(c) && (op.DoReset? || op.DoWakeUp? || op.DoSetRunning?)
    ensures Held(Step(c, op))
  {
    hide Steady, Holding, Reset, WakeUp, SetRunning, UpdatePoll;
    if op.DoReset? {
      ResetHeld(c);
    } else if op.DoWakeUp? {
      WakeUpHeld(c, op.ready, op.world);
    } else {
      RunsHeld(c, op.running, op.now);
    }
  }

  /** In every run the log says which socket is open and whether the connection is running; there is never more than one
      socket; and the announcements of running alternate, except that a connection that was stopped and has opened a
      socket again may be announced as stopped once more. */
  lemma {:induction false} LifeTold(ops: seq<Op>)
    ensures Inv(New())
    ensures var c := Run(New(), ops);
            c.sock == Holding(c.log) && IsRunning(c) == Alive(c.log) && Orderly(c.log)
    decreases |ops|
  {
    hide Inv, Step, New, Holding, Alive, Orderly;
    InvNew();
    if ops == [] {
      NewHeld();
    } else {
      LifeTold(ops[..|ops| - 1]);
      StepHeld(Run(New(), ops[..|ops| - 1]), ops[|ops| - 1]);
    }
  }

  lemma NewHeld()
    ensures Held(New())
  {
    hide PollFor, PollEffects;
  }
}
