/** Whether a connection that was told to stop stays stopped. */
module ConnStop {
  import opened Proto
  import opened ConnState
  import opened ConnOps
  import opened ConnInvariant

  predicate Starts(op: Op) {
    op.DoSetRunning? && op.running
  }

  /** No call asks for the connection to run. */
  ghost predicate NeverStarted(ops: seq<Op>) {
    forall i :: 0 <= i < |ops| ==> !Starts(ops[i])
  }

  /** No socket is open and nothing will open one. */
  predicate Quiescent(c: Conn) {
    c.state == Disconnected && c.sock == -1 && c.reconnectAt == NEVER
  }

  lemma QuiescentRequest(c: Conn, op: Op)
    requires Inv(c) && Quiescent(c) && IsRequest(op)
    ensures Quiescent(Step(c, op))
  {
    hide Inv, Step, Noted, PollEffects, Squash;
    StepRequest(c, op);
    NotedFields(c, op);
  }

  lemma QuiescentLearning(c: Conn, op: Op)
    requires Inv(c) && Quiescent(c) && IsLearning(op)
    ensures Quiescent(Step(c, op))
  {
    hide Inv, Step, Learnt, StartConnecting;
    StepLearning(c, op);
    LearntLearns(c, op);
  }

  lemma QuiescentReset(c: Conn)
    requires Inv(c)
    ensures Quiescent(Reset(c))
  {
    hide PollFor, PollEffects;
  }

  lemma QuiescentStep(c: Conn, op: Op)
    requires Inv(c) && Quiescent(c) && !Starts(op)
    ensures Quiescent(Step(c, op))
  {
    hide Inv, Reset, UpdatePoll, MaybeStart;
    InvNamed(c);
    if IsRequest(op) {
      QuiescentRequest(c, op);
    } else if IsLearning(op) {
      QuiescentLearning(c, op);
    } else if op.DoReset? {
      QuiescentReset(c);
    }
  }

  lemma {:induction false} QuiescentRun(c: Conn, ops: seq<Op>)
    requires Inv(c) && Quiescent(c) && NeverStarted(ops)
    ensures Quiescent(Run(c, ops))
    decreases |ops|
  {
    hide Inv, Step, Quiescent;
    if ops != [] {
      var m := |ops| - 1;
      QuiescentRun(c, ops[..m]);
      QuiescentStep(Run(c, ops[..m]), ops[m]);
    }
  }

  /** A wake-up at which connecting succeeds at once. */
  function WakesAt(now: Instant): Op {
    DoWakeUp(ConnState.Ready(true, true), World(now, 0, ErrorTimes(0, 0), Connected(7), ReadBlocked, WriteBlocked))
  }

  /** The scheduled reconnect still happens. */
  lemma Reopens(c: Conn, now: Instant)
    requires Inv(c) && c.sock == -1 && c.reconnectAt <= now
    ensures var ops := [WakesAt(now)];
            NeverStarted(ops) && Run(c, ops).sock == 7 && Run(c, ops).state == Running
  {
    hide Inv, PollFor, PollEffects;
    InvNamed(c);
    RunOne(c, WakesAt(now));
  }

  lemma RunOne(c: Conn, op: Op)
    requires Inv(c)
    ensures Run(c, [op]) == Step(c, op)
  {
    hide Inv, Step;
    assert [op][..0] == [];
    assert Run(c, []) == c;
  }

  /** A connection that was told to stop never opens a socket again before it is started exactly when no reconnect
      was scheduled, or it was only waiting for the reconnect. */
  lemma StaysStopped(c: Conn, now: Time)
    requires Inv(c)
    ensures Inv(SetRunning(c, false, now))
    ensures (forall ops: seq<Op> :: NeverStarted(ops) ==> Run(SetRunning(c, false, now), ops).sock == -1) <==>
            c.reconnectAt == NEVER || c.state == WaitingForReconnect
  {
    hide Inv, NeverStarted, SetRunning, Run;
    InvStop(c, now);
    var d := SetRunning(c, false, now);
    InvNamed(c);
    if d.reconnectAt == NEVER {
      forall ops: seq<Op> | NeverStarted(ops)
        ensures Run(d, ops).sock == -1
      {
        QuiescentRun(d, ops);
      }
    } else {
      Reopens(d, d.reconnectAt);
    }
  }
  // ---------- a run that reaches the failing family ----------

  predicate Fresh(c: Conn) {
    c.state == Disconnected && c.sock == -1 && c.playerIdAt == NEVER && c.keepAliveAt == NEVER && c.timeout == 0
  }

  predicate AboutToConnect(c: Conn) {
    c.sock == -1 && c.reconnectAt == 0 && c.timeout == 0
  }

  predicate JustConnected(c: Conn) {
    c.sock == 7 && c.state == Running && c.playerIdAt == NEVER && c.timeout == 0 && c.keepAliveAt == NEVER
  }

  predicate Dangling(c: Conn) {
    c.state == Running && c.sock == -1 && c.reconnectAt < NEVER
  }

  lemma Addressed(c: Conn)
    requires Inv(c) && Fresh(c)
    ensures Fresh(Step(c, DoAddress(1, 0))) && Step(c, DoAddress(1, 0)).hasAddress
  {
    hide Inv, StartConnecting;
  }

  lemma NameGiven(c: Conn)
    requires Inv(c) && Fresh(c) && c.hasAddress
    ensures Fresh(Step(c, DoPlayer([65], 0))) && HasConfiguration(Step(c, DoPlayer([65], 0)))
  {
    hide Inv, StartConnecting;
  }

  lemma Connects(c: Conn)
    requires Inv(c) && Fresh(c) && HasConfiguration(c)
    ensures AboutToConnect(Step(c, DoSetRunning(true, 0)))
  {
    hide Inv, PollFor, PollEffects;
  }

  lemma Succeeds(c: Conn)
    requires Inv(c) && AboutToConnect(c) && c.keepAliveAt == NEVER
    ensures JustConnected(Step(c, WakesAt(0)))
  {
    hide Inv, PollFor, PollEffects;
  }

  lemma Fails(c: Conn)
    requires Inv(c) && JustConnected(c)
    ensures Dangling(Step(c, FailsAt()))
  {
    hide Inv, PollFor, PollEffects;
  }

  lemma KeepsAlive(c: Conn)
    requires Inv(c) && Fresh(c) && HasConfiguration(c)
    ensures Step(c, DoSetRunning(true, 0)).keepAliveAt == NEVER
  {
    hide Inv, PollFor, PollEffects;
  }

  /** An error on a running connection schedules a reconnect and leaves it running. */
  lemma ErrorDangles() returns (ops: seq<Op>)
    ensures Inv(New()) && Dangling(Run(New(), ops))
  {
    hide Inv, Run, Step, Fresh, AboutToConnect, JustConnected, Dangling, HasConfiguration, New, WakesAt, FailsAt;
    InvNew();
    NewIs();
    var address, player, start := DoAddress(1, 0), DoPlayer([65], 0), DoSetRunning(true, 0);
    var c := New();
    Addressed(c);
    InvStep(c, address);
    NameGiven(Step(c, address));
    InvStep(Step(c, address), player);
    var c2 := Step(Step(c, address), player);
    Connects(c2);
    KeepsAlive(c2);
    InvStep(c2, start);
    var c3 := Step(c2, start);
    Succeeds(c3);
    InvStep(c3, WakesAt(0));
    Fails(Step(c3, WakesAt(0)));
    RunNothing(c);
    ops := [];
    RunLast(c, ops, address);
    ops := ops + [address];
    RunLast(c, ops, player);
    ops := ops + [player];
    RunLast(c, ops, start);
    ops := ops + [start];
    RunLast(c, ops, WakesAt(0));
    ops := ops + [WakesAt(0)];
    RunLast(c, ops, FailsAt());
    ops := ops + [FailsAt()];
  }

  /** A connection that is running when it is told to stop, is never started again, and yet opens a socket. */
  lemma StopIgnored() returns (before: seq<Op>, later: seq<Op>)
    ensures Inv(New()) && IsRunning(Run(New(), before)) && NeverStarted(later)
    ensures Run(Run(New(), before + [DoSetRunning(false, 0)]), later).sock != -1
  {
    hide Inv, Run, Step, SetRunning, New, WakesAt, NeverStarted;
    before := ErrorDangles();
    var c := Run(New(), before);
    RunLast(New(), before, DoSetRunning(false, 0));
    var d := Run(New(), before + [DoSetRunning(false, 0)]);
    StopKeeps(c);
    later := [WakesAt(d.reconnectAt)];
    Reopens(d, d.reconnectAt);
  }

  lemma StopKeeps(c: Conn)
    requires Inv(c) && Dangling(c)
    ensures var d := Step(c, DoSetRunning(false, 0));
            d.sock == -1 && 0 <= d.reconnectAt == c.reconnectAt < NEVER
  {
    hide PollFor, PollEffects;
  }

  /** A wake-up at which reading fails. */
  function FailsAt(): Op {
    DoWakeUp(ConnState.Ready(true, false), World(0, 0, ErrorTimes(0, 0), NoSocket, ReadFailed, WriteBlocked))
  }

  lemma NewIs()
    ensures Fresh(New())
  {
    hide PollFor, PollEffects;
  }

  lemma RunNothing(c: Conn)
    requires Inv(c)
    ensures Run(c, []) == c
  {
  }

  lemma RunLast(c: Conn, ops: seq<Op>, op: Op)
    requires Inv(c)
    ensures Run(c, ops + [op]) == Step(Run(c, ops), op)
  {
    hide Inv, Step;
    assert (ops + [op])[..|ops|] == ops;
  }

  /** After a reset it does hold. */
  lemma ResetStays(c: Conn, ops: seq<Op>)
    requires Inv(c) && NeverStarted(ops)
    ensures Inv(Reset(c)) && Quiescent(Run(Reset(c), ops))
  {
    hide Inv, Reset, Run;
    InvNamed(c);
    InvReset(c);
    QuiescentRun(Reset(c), ops);
  }
}
