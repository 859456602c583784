/** Every call and every wake-up as what the call itself sets and then a sequence of small moves.  What each move keeps,
    every call keeps. */
module ConnMoves {
  import opened Bits
  import opened Options
  import opened Proto
  import opened Framing
  import opened ConnState
  import opened ConnOps
  import opened ConnInvariant

  datatype Move =
    | Polls | ReportsError | Breaks(times: ErrorTimes) | Tries(sock: int) | Connects(fd: nat, done: bool)
    | Awakes(ready: ConnState.Ready, at: Instant)
    | Hears(bytes: seq<byte>) | Buffers(wsPos: nat, input: seq<byte>)
    | Delivers(payload: seq<byte>, now: Time) | Stores(person: seq<byte>)
    | Queues | Accepts(n: nat) | Renews(now: Time)
    | Runs(running: bool, now: Time) | Starts(now: Time)

  ghost predicate CanMake(c: Conn, m: Move) {
    match m
    case Connects(_, _) => c.sock == -1
    case Tries(_) => c.sock == -1
    case Delivers(payload, _) => Accepted(payload)
    case Queues => Named(c) && NextItem(c).Some?
    case Starts(_) => c.state == WaitingForConfiguration
    case _ => true
  }

  ghost function Make(c: Conn, m: Move): Conn
    requires CanMake(c, m)
  {
    match m
    case Polls => UpdatePoll(c)
    case ReportsError => Emit(c, ErrorReported(c.synced))
    case Breaks(t) => Broken(c, t)
    case Tries(fd) => Trying(c, fd)
    case Connects(fd, done) => Connecting(c, fd, done)
    case Awakes(ready, now) => Awake(c, ready, now)
    case Hears(bytes) => Emit(c, Received(bytes))
    case Buffers(wsPos, input) => c.(wsPos := wsPos, input := input)
    case Delivers(payload, now) => Deliver(c, payload, now)
    case Stores(person) => c.(person := person)
    case Queues => Queue(c, NextItem(c).value)
    case Accepts(n) => Accept(c, n)
    case Renews(now) => c.(keepAliveAt := now + KEEP_ALIVE_TIME)
    case Runs(running, now) => SetRunning(c, running, now)
    case Starts(now) => StartConnecting(c, now)
  }

  ghost predicate Possible(c: Conn, moves: seq<Move>)
    decreases |moves|
  {
    moves == [] || (CanMake(c, moves[0]) && Possible(Make(c, moves[0]), moves[1..]))
  }

  ghost function MakeAll(c: Conn, moves: seq<Move>): Conn
    requires Possible(c, moves)
    decreases |moves|
  {
    if moves == [] then c else MakeAll(Make(c, moves[0]), moves[1..])
  }

  /** Some moves lead from c to d. */
  ghost predicate Leads(c: Conn, d: Conn) {
    exists moves :: Possible(c, moves) && MakeAll(c, moves) == d
  }

  /** What every move keeps, any number of moves keep. */
  lemma {:induction false} MovesKeep(c: Conn, moves: seq<Move>, good: Conn -> bool)
    requires Possible(c, moves) && good(c)
    requires forall x, m :: CanMake(x, m) && good(x) ==> good(Make(x, m))
    ensures good(MakeAll(c, moves))
    decreases |moves|
  {
    hide CanMake, Make;
    if moves != [] { MovesKeep(Make(c, moves[0]), moves[1..], good); }
  }

  lemma LeadsKeep(c: Conn, d: Conn, good: Conn -> bool)
    requires Leads(c, d) && good(c)
    requires forall x, m :: CanMake(x, m) && good(x) ==> good(Make(x, m))
    ensures good(d)
  {
    hide CanMake, Make, Possible;
    var moves :| Possible(c, moves) && MakeAll(c, moves) == d;
    MovesKeep(c, moves, good);
  }

  lemma {:induction false} Joined(c: Conn, a: seq<Move>, b: seq<Move>)
    requires Possible(c, a) && Possible(MakeAll(c, a), b)
    ensures Possible(c, a + b) && MakeAll(c, a + b) == MakeAll(MakeAll(c, a), b)
    decreases |a|
  {
    hide CanMake, Make;
    if a == [] {
      assert a + b == b;
    } else {
      Joined(Make(c, a[0]), a[1..], b);
      assert (a + b)[1..] == a[1..] + b;
    }
  }

  lemma LeadsOn(c: Conn, d: Conn, e: Conn)
    requires Leads(c, d) && Leads(d, e)
    ensures Leads(c, e)
  {
    hide Possible, MakeAll;
    var a :| Possible(c, a) && MakeAll(c, a) == d;
    var b :| Possible(d, b) && MakeAll(d, b) == e;
    Joined(c, a, b);
  }

  lemma LeadsNowhere(c: Conn)
    ensures Leads(c, c)
  {
    assert Possible(c, []) && MakeAll(c, []) == c;
  }

  lemma OneMove(c: Conn, m: Move)
    requires CanMake(c, m)
    ensures Leads(c, Make(c, m))
  {
    hide CanMake, Make;
    var d := Make(c, m);
    assert [m][1..] == [] && Possible(d, []) && MakeAll(d, []) == d;
    assert Possible(c, [m]) && MakeAll(c, [m]) == d;
  }

  // ---------- the calls ----------

  lemma PollMove(c: Conn)
    ensures Leads(c, UpdatePoll(c))
  {
    hide UpdatePoll, Leads;
    OneMove(c, Polls);
  }

  lemma ErrorMoves(c: Conn, t: ErrorTimes)
    ensures Leads(c, ReportError(c, t))
  {
    hide UpdatePoll, Leads, Broken;
    OneMove(c, Breaks(t));
    PollMove(Broken(c, t));
    var d := UpdatePoll(Broken(c, t));
    OneMove(d, ReportsError);
    LeadsOn(c, Broken(c, t), d);
    LeadsOn(c, d, ReportError(c, t));
  }

  lemma TryMoves(c: Conn, r: ConnectResult, t: ErrorTimes)
    requires c.sock == -1
    ensures Leads(c, TryReconnect(c, r, t))
  {
    hide UpdatePoll, Leads, ReportError, Connecting, Trying;
    match r
    case NoSocket => FailedMoves(c, -1, t);
    case NotReady(fd) => FailedMoves(c, fd, t);
    case Refused(fd) => FailedMoves(c, fd, t);
    case InProgress(fd) => ConnectMoves(c, fd, false);
    case Connected(fd) => ConnectMoves(c, fd, true);
  }

  lemma FailedMoves(c: Conn, fd: int, t: ErrorTimes)
    requires c.sock == -1
    ensures Leads(c, ReportError(Trying(c, fd), t))
  {
    hide Leads, ReportError, Trying;
    OneMove(c, Tries(fd));
    ErrorMoves(Trying(c, fd), t);
    LeadsOn(c, Trying(c, fd), ReportError(Trying(c, fd), t));
  }

  lemma ConnectMoves(c: Conn, fd: nat, done: bool)
    requires c.sock == -1
    ensures Leads(c, UpdatePoll(Connecting(c, fd, done)))
  {
    hide Leads, UpdatePoll, Connecting;
    OneMove(c, Connects(fd, done));
    PollMove(Connecting(c, fd, done));
    LeadsOn(c, Connecting(c, fd, done), UpdatePoll(Connecting(c, fd, done)));
  }

  lemma {:induction false} DeliverMoves(c: Conn, payloads: seq<seq<byte>>, now: Time)
    requires AllAccepted(payloads)
    ensures Leads(c, DeliverAll(c, payloads, now))
    decreases |payloads|
  {
    hide Leads, Deliver, Accepted;
    if payloads == [] {
      LeadsNowhere(c);
    } else {
      var m := |payloads| - 1;
      var d := DeliverAll(c, payloads[..m], now);
      DeliverMoves(c, payloads[..m], now);
      OneMove(d, Delivers(payloads[m], now));
      LeadsOn(c, d, Deliver(d, payloads[m], now));
    }
  }

  lemma ProcessMoves(c: Conn, bytes: seq<byte>, now: Time, t: ErrorTimes)
    ensures Leads(c, Process(c, bytes, now, t))
  {
    hide Leads, UpdatePoll, ReportError, Parse, DeliverAll, AllAccepted, Reject;
    ParsedAccepted(bytes);
    var p := Parse(bytes);
    var d := DeliverAll(c, p.payloads, now);
    DeliverMoves(c, p.payloads, now);
    if p.More? {
      var e := d.(input := p.rest);
      OneMove(d, Buffers(d.wsPos, p.rest));
      PollMove(e);
      LeadsOn(c, d, e);
      LeadsOn(c, e, UpdatePoll(e));
    } else {
      var e := Reject(d, p.trouble);
      RejectMoves(d, p.trouble);
      ErrorMoves(e, t);
      LeadsOn(c, d, e);
      LeadsOn(c, e, ReportError(e, t));
    }
  }

  lemma RejectMoves(c: Conn, t: Trouble)
    ensures Leads(c, Reject(c, t))
  {
    hide Leads;
    LeadsNowhere(c);
    if t.Rejected? && |t.payload| >= 9 { OneMove(c, Stores(t.payload[1..9])); }
  }

  lemma DigestMoves(c: Conn, input: seq<byte>, now: Time, t: ErrorTimes)
    requires c.wsPos <= 4
    ensures Leads(c, Digest(c, input, now, t))
  {
    hide Leads, Process, Match;
    var (q, n) := Match(c.wsPos, input);
    if q < 4 {
      OneMove(c, Buffers(q, []));
    } else {
      var d := c.(wsPos := 4, input := input);
      OneMove(c, Buffers(4, input));
      ProcessMoves(d, input[n..], now, t);
      LeadsOn(c, d, Process(d, input[n..], now, t));
    }
  }

  lemma ReadMoves(c: Conn, r: ReadResult, now: Time, t: ErrorTimes)
    requires |c.input| <= BUFFER_SIZE && c.wsPos <= 4
    ensures Leads(c, HandleRead(c, r, now, t))
  {
    hide Leads, ReportError, SetRunning, Digest, Room;
    LeadsNowhere(c);
    ErrorMoves(c, t);
    OneMove(c, Runs(false, t.retry));
    match r
    case ReadBlocked =>
    case ReadFailed =>
    case Got(bytes) =>
      var got := Room(c, bytes);
      var d := Emit(c, Received(got));
      OneMove(c, Hears(got));
      if got != [] {
        DigestMoves(d, c.input + got, now, t);
        LeadsOn(c, d, Digest(d, c.input + got, now, t));
      }
  }

  lemma {:induction false} FillMoves(c: Conn)
    requires Named(c) && |c.output| <= BUFFER_SIZE
    ensures Leads(c, Fill(c))
    decreases BUFFER_SIZE - |c.output|
  {
    hide Leads, Queue, NextItem, FitsIn, Encode, Named;
    var item := NextItem(c);
    if item.Some? && FitsIn(c, item.value) {
      OneMove(c, Queues);
      FillMoves(Queue(c, item.value));
      LeadsOn(c, Queue(c, item.value), Fill(Queue(c, item.value)));
    } else {
      LeadsNowhere(c);
    }
  }

  lemma WriteMoves(c: Conn, r: WriteResult, t: ErrorTimes)
    requires Named(c) && |c.output| <= BUFFER_SIZE
    ensures Leads(c, HandleWrite(c, r, t))
  {
    hide Leads, Fill, Accept, UpdatePoll, ReportError, Named;
    var d := Fill(c);
    FillMoves(c);
    var e := Accept(d, if r.Wrote? then r.n else 0);
    OneMove(d, Accepts(if r.Wrote? then r.n else 0));
    LeadsOn(c, d, e);
    match r
    case WriteBlocked =>
    case WriteFailed =>
      ErrorMoves(e, t);
      LeadsOn(c, e, ReportError(e, t));
    case Wrote(n) =>
      var f := e.(keepAliveAt := t.retry + KEEP_ALIVE_TIME);
      OneMove(e, Renews(t.retry));
      PollMove(f);
      LeadsOn(c, e, f);
      LeadsOn(c, f, UpdatePoll(f));
  }

  lemma WakeUpMoves(c: Conn, ready: ConnState.Ready, w: World)
    requires Inv(c)
    ensures Leads(c, WakeUp(c, ready, w))
  {
    hide Inv, Leads, UpdatePoll, Awake, TryReconnect, HandleRead, HandleWrite;
    InvNamed(c);
    if c.sock == -1 {
      LeadsNowhere(c);
      TryMoves(c, w.connect, w.times);
    } else {
      var d := Awake(c, ready, w.now);
      OneMove(c, Awakes(ready, w.now));
      InvAwake(c, ready, w.now);
      InvNamed(d);
      if ready.readable {
        ReadMoves(d, w.read, w.arrival, w.times);
      } else if ready.writable {
        WriteMoves(d, w.write, w.times);
      } else {
        PollMove(d);
      }
      LeadsOn(c, d, WakeUp(c, ready, w));
    }
  }

  /** What a call sets by itself. */
  function Given(c: Conn, op: Op): Conn {
    if IsRequest(op) then Noted(c, op)
    else if IsLearning(op) then if AlreadyKnown(c, op) then c else Learnt(c, op)
    else if op.DoReset? then Cleared(c)
    else c
  }

  /** The four kinds of calls. */
  lemma GivenIs(c: Conn, op: Op)
    ensures IsRequest(op) ==> Given(c, op) == Noted(c, op) && !op.DoReset?
    ensures IsLearning(op) ==> !IsRequest(op) && !op.DoReset?
                               && Given(c, op) == if AlreadyKnown(c, op) then c else Learnt(c, op)
    ensures op.DoReset? ==> !IsRequest(op) && !IsLearning(op) && Given(c, op) == Cleared(c)
    ensures !IsRequest(op) && !IsLearning(op) && !op.DoReset? ==> Given(c, op) == c
  {
    hide Noted, Learnt, Cleared, AlreadyKnown;
  }

  /** A call that is not a request or a reset sets at most what is known. */
  lemma GivenLearns(c: Conn, op: Op)
    requires !IsRequest(op) && !op.DoReset?
    ensures Learns(c, Given(c, op))
  {
    hide Noted, Learnt, Cleared, AlreadyKnown, IsRequest, IsLearning, Given;
    GivenIs(c, op);
    LearnsSelf(c);
    if IsLearning(op) { LearntLearns(c, op); }
  }

  lemma LearnsSelf(c: Conn)
    ensures Learns(c, c)
  {
  }

  /** And only a reset touches more than what is to be sent or known. */
  lemma GivenLog(c: Conn, op: Op)
    ensures Given(c, op).log == c.log
    ensures !op.DoReset? ==> var d := Given(c, op);
                             && d.sentTyping == c.sentTyping && d.nextMessage == c.nextMessage
                             && d.output == c.output && d.input == c.input && d.wsPos == c.wsPos
  {
    hide Noted, Learnt, AlreadyKnown, IsRequest, IsLearning, Given;
    GivenIs(c, op);
    if IsRequest(op) {
      NotedFields(c, op);
    } else if !op.DoReset? {
      GivenLearns(c, op);
    }
  }

  lemma RequestMoves(c: Conn, op: Op)
    requires Inv(c) && IsRequest(op)
    ensures Leads(Noted(c, op), Step(c, op))
  {
    hide Inv, Leads, Step, Noted, UpdatePoll;
    StepRequest(c, op);
    LeadsNowhere(Noted(c, op));
    PollMove(Noted(c, op));
  }

  lemma LearningMoves(c: Conn, op: Op)
    requires Inv(c) && IsLearning(op)
    ensures Leads(Given(c, op), Step(c, op))
  {
    hide Inv, Leads, Step, Learnt, StartConnecting, AlreadyKnown, IsRequest, IsLearning;
    StepLearning(c, op);
    LearningOnly(op);
    var d := Given(c, op);
    LeadsNowhere(d);
    if !AlreadyKnown(c, op) && d.state == WaitingForConfiguration { OneMove(d, Starts(TimeOf(op))); }
  }

  lemma LearningOnly(op: Op)
    ensures IsLearning(op) ==> !IsRequest(op) && !op.DoReset? && !op.DoWakeUp? && !op.DoSetRunning?
    ensures IsRequest(op) ==> !op.DoReset? && !op.DoWakeUp? && !op.DoSetRunning?
    ensures IsRequest(op) || IsLearning(op) || op.DoReset? || op.DoWakeUp? || op.DoSetRunning?
  {
  }

  lemma ResetMoves(c: Conn)
    ensures Leads(Cleared(c), Reset(c))
  {
    hide Leads, UpdatePoll, SetRunning, Cleared;
    var d := SetRunning(Cleared(c), false, 0);
    OneMove(Cleared(c), Runs(false, 0));
    PollMove(d);
    LeadsOn(Cleared(c), d, Reset(c));
  }

  /** Every call is made of moves. */
  lemma StepMoves(c: Conn, op: Op)
    requires Inv(c)
    ensures Leads(Given(c, op), Step(c, op))
  {
    hide Inv, Leads, UpdatePoll, SetRunning, WakeUp, MaybeStart, Noted, Learnt, Cleared, IsRequest, IsLearning, Reset;
    LearningOnly(op);
    if IsRequest(op) {
      RequestMoves(c, op);
    } else if IsLearning(op) {
      LearningMoves(c, op);
    } else if op.DoReset? {
      ResetMoves(c);
    } else if op.DoWakeUp? {
      WakeUpMoves(c, op.ready, op.world);
    } else {
      OneMove(c, Runs(op.running, op.now));
    }
  }
}
