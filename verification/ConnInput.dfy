/** What a connection hears, told from its log: on every socket the messages passed on are those of the whole stream
    read so far, however it was cut into reads. */
module ConnInput {
  import opened Bits
  import opened Options
  import opened Proto
  import opened Framing
  import opened ConnState
  import opened ConnOps
  import opened ConnInvariant

  /** Since a socket was last opened: all bytes read and all messages passed on. */
  datatype Hearing = Hearing(connected: bool, bytes: seq<byte>, passed: seq<seq<byte>>)

  function Listen(h: Hearing, e: Effect): Hearing {
    match e
    case Opened(_) => Hearing(true, [], [])
    case Received(bytes) => h.(bytes := h.bytes + bytes)
    case MessageReceived(payload, _) => h.(passed := h.passed + [payload])
    case _ => h
  }

  function Hear(log: seq<Effect>): Hearing {
    if log == [] then Hearing(false, [], []) else Listen(Hear(log[..|log| - 1]), log[|log| - 1])
  }

  function Heard(c: Conn): Hearing {
    Hear(c.log)
  }

  lemma HearLast(log: seq<Effect>, e: Effect)
    ensures Hear(log + [e]) == Listen(Hear(log), e)
  {
    assert (log + [e])[..|log|] == log;
  }

  /** The payloads that are announced to the rest of the program. */
  function Announced(payloads: seq<seq<byte>>): seq<seq<byte>> {
    if payloads == [] then []
    else
      var last := payloads[|payloads| - 1];
      Announced(payloads[..|payloads| - 1]) + if PassedOn(last) then [last] else []
  }

  lemma {:induction false} AnnouncedConcat(a: seq<seq<byte>>, b: seq<seq<byte>>)
    ensures Announced(a + b) == Announced(a) + Announced(b)
  {
    if b == [] {
      assert a + b == a && Announced(a) + [] == Announced(a);
    } else {
      AnnouncedConcat(a, b[..|b| - 1]);
      assert (a + b)[..|a + b| - 1] == a + b[..|b| - 1];
    }
  }

  /** One of the payloads is the message that the past has been told, type 0x07. */
  ghost predicate Syncs(payloads: seq<seq<byte>>) {
    exists i :: 0 <= i < |payloads| && payloads[i] != [] && payloads[i][0] == 0x07
  }

  lemma SyncsConcat(a: seq<seq<byte>>, b: seq<seq<byte>>)
    ensures Syncs(a + b) <==> Syncs(a) || Syncs(b)
    ensures !Syncs([])
  {
    var both := a + b;
    if Syncs(both) {
      var i :| 0 <= i < |both| && both[i] != [] && both[i][0] == 0x07;
      assert if i < |a| then both[i] == a[i] else both[i] == b[i - |a|];
    }
    if Syncs(a) {
      var i :| 0 <= i < |a| && a[i] != [] && a[i][0] == 0x07;
      assert both[i] == a[i];
    }
    if Syncs(b) {
      var i :| 0 <= i < |b| && b[i] != [] && b[i][0] == 0x07;
      assert both[|a| + i] == b[i];
    }
  }

  /** The reader of a new socket. */
  function Start(): Reader {
    Reading(0, [])
  }

  /** The messages passed on are those of the stream so far, the buffer holds what is left of it, and the connection is
      synced once the stream has said so. */
  ghost predicate Listening(c: Conn) {
    var h := Heard(c);
    && (h.connected ==> h.passed == Announced(Feed(Start(), h.bytes).1))
    && (c.sock != -1 ==> && h.connected && Feed(Start(), h.bytes).0 == Reading(c.wsPos, c.input)
                         && c.synced == Syncs(Feed(Start(), h.bytes).1))
  }

  // ---------- steps that hear nothing ----------

  predicate Deaf(e: Effect) {
    !e.Opened? && !e.Received? && !e.MessageReceived?
  }

  ghost predicate AllDeaf(effects: seq<Effect>) {
    forall i :: 0 <= i < |effects| ==> Deaf(effects[i])
  }

  lemma {:induction false} DeafEffects(log: seq<Effect>, more: seq<Effect>)
    requires AllDeaf(more)
    ensures Hear(log + more) == Hear(log)
    decreases |more|
  {
    hide Hear;
    if more == [] {
      assert log + more == log;
    } else {
      var m := |more| - 1;
      DeafEffects(log, more[..m]);
      assert log + more == log + more[..m] + [more[m]];
      HearLast(log + more[..m], more[m]);
    }
  }

  predicate Alike(c: Conn, d: Conn) {
    d.sock == c.sock && d.wsPos == c.wsPos && d.input == c.input && d.synced == c.synced
  }

  /** d has heard what c has, and has either the same reader or no socket. */
  ghost predicate Unheard(c: Conn, d: Conn) {
    Heard(d) == Heard(c) && (d.sock == -1 || Alike(c, d))
  }

  lemma UnheardKeeps(c: Conn, d: Conn)
    requires Unheard(c, d) && Listening(c)
    ensures Listening(d)
  {
    hide Hear, Feed;
  }

  lemma UnheardChain(c: Conn, d: Conn, e: Conn)
    requires Unheard(c, d) && Unheard(d, e)
    ensures Unheard(c, e)
  {
    hide Heard;
  }

  lemma UnheardPoll(c: Conn)
    ensures Unheard(c, UpdatePoll(c))
  {
    hide Hear, PollFor;
    DeafEffects(c.log, PollEffects(c));
  }

  lemma UnheardEmit(c: Conn, e: Effect)
    requires Deaf(e)
    ensures Unheard(c, Emit(c, e))
  {
    hide Hear;
    HearLast(c.log, e);
  }

  lemma UnheardBroken(c: Conn, t: ErrorTimes)
    ensures Unheard(c, Broken(c, t))
  {
    hide Hear;
  }

  lemma UnheardError(c: Conn, t: ErrorTimes)
    ensures Unheard(c, ReportError(c, t)) && ReportError(c, t).sock == -1
  {
    hide UpdatePoll, Unheard;
    var d := Broken(c, t);
    UnheardBroken(c, t);
    UnheardPoll(d);
    UpdatePollQuiet(d);
    UnheardChain(c, d, UpdatePoll(d));
    var e := UpdatePoll(d);
    UnheardEmit(e, ErrorReported(e.synced));
    UnheardChain(c, e, ReportError(c, t));
  }

  // ---------- reading ----------

  lemma AcceptedStarts(payload: seq<byte>)
    requires Accepted(payload)
    ensures payload != []
  {
  }

  lemma DeliverHeard(c: Conn, payload: seq<byte>, now: Time)
    requires Accepted(payload)
    ensures var d := Deliver(c, payload, now);
            && Heard(d) == Heard(c).(passed := Heard(c).passed + if PassedOn(payload) then [payload] else [])
            && d.sock == c.sock && d.wsPos == c.wsPos && d.synced == (c.synced || Syncs([payload]))
  {
    hide Hear, Accepted;
    AcceptedStarts(payload);
    assert [payload][0] == payload;
    var d := Absorb(c, payload, now);
    HearLast(c.log, MessageReceived(payload, d.synced));
    assert Heard(c).passed + [] == Heard(c).passed;
  }

  lemma {:induction false} DeliverAllHeard(c: Conn, payloads: seq<seq<byte>>, now: Time)
    requires AllAccepted(payloads)
    ensures var d := DeliverAll(c, payloads, now);
            && Heard(d) == Heard(c).(passed := Heard(c).passed + Announced(payloads))
            && d.sock == c.sock && d.wsPos == c.wsPos && d.synced == (c.synced || Syncs(payloads))
    decreases |payloads|
  {
    hide Deliver, Accepted, Heard, PassedOn, Syncs;
    SyncsConcat([], []);
    if payloads == [] {
      assert Heard(c).passed + [] == Heard(c).passed;
    } else {
      var m := |payloads| - 1;
      var d := DeliverAll(c, payloads[..m], now);
      DeliverAllHeard(c, payloads[..m], now);
      DeliverHeard(d, payloads[m], now);
      assert payloads[..m] + [payloads[m]] == payloads;
      SyncsConcat(payloads[..m], [payloads[m]]);
      var last := if PassedOn(payloads[m]) then [payloads[m]] else [];
      assert Heard(c).passed + Announced(payloads[..m]) + last == Heard(c).passed + (Announced(payloads[..m]) + last);
    }
  }

  /** Processing some bytes announces exactly their payloads and keeps exactly what is left of them. */
  lemma ProcessHeard(c: Conn, bytes: seq<byte>, now: Time, t: ErrorTimes)
    requires c.sock != -1
    ensures var d, p := Process(c, bytes, now, t), Parse(bytes);
            && Heard(d) == Heard(c).(passed := Heard(c).passed + Announced(p.payloads))
            && (if p.More? then && d.sock == c.sock && d.wsPos == c.wsPos && d.input == p.rest
                               && d.synced == (c.synced || Syncs(p.payloads))
                else d.sock == -1)
  {
    hide Syncs, Heard, Announced, Parse, DeliverAll, UpdatePoll, ReportError, AllAccepted, Reject;
    ParsedAccepted(bytes);
    var p := Parse(bytes);
    var d := DeliverAll(c, p.payloads, now);
    DeliverAllHeard(c, p.payloads, now);
    if p.More? {
      var e := d.(input := p.rest);
      SameLog(d, e);
      UnheardPoll(e);
      UpdatePollQuiet(e);
    } else {
      var e := Reject(d, p.trouble);
      RejectLog(d, p.trouble);
      SameLog(d, e);
      UnheardError(e, t);
    }
  }

  lemma SameLog(c: Conn, d: Conn)
    requires c.log == d.log
    ensures Heard(c) == Heard(d)
  {
  }

  lemma RejectLog(c: Conn, t: Trouble)
    ensures Reject(c, t).log == c.log
  {
  }

  /** Feeding a piece is matching and parsing the buffer after the piece has been read into it. */
  lemma FeedIs(r: Reader, got: seq<byte>)
    requires r.Reading? && Framing.Ready(r)
    ensures var (q, n) := Match(r.pos, r.input + got);
            Feed(r, got) == if q < 4 then (Reading(q, []), []) else Framing.Result(Parse((r.input + got)[n..]))
  {
    hide Parse, Match;
    MatchFour(r.pos, r.input + got);
    if r.pos < 4 {
      assert r.input + got == got;
    } else {
      assert (r.input + got)[0..] == r.input + got;
    }
  }

  /** What has been heard after one more piece. */
  lemma HearMore(c: Conn, got: seq<byte>)
    requires Listening(c) && c.sock != -1 && c.wsPos <= 4 && Framing.Ready(Reading(c.wsPos, c.input))
    ensures var h, d, more := Heard(c), Emit(c, Received(got)), Feed(Reading(c.wsPos, c.input), got);
            && h.connected && Heard(d) == h.(bytes := h.bytes + got)
            && Feed(Start(), h.bytes + got).0 == more.0
            && Announced(Feed(Start(), h.bytes + got).1) == h.passed + Announced(more.1)
            && (Syncs(Feed(Start(), h.bytes + got).1) <==> c.synced || Syncs(more.1))
  {
    hide Syncs, Hear, Parse, Match, Announced, Feed;
    var h, r := Heard(c), Reading(c.wsPos, c.input);
    HearLast(c.log, Received(got));
    ParseNothing();
    FeedConcat(Start(), h.bytes, got);
    AnnouncedConcat(Feed(Start(), h.bytes).1, Feed(r, got).1);
    SyncsConcat(Feed(Start(), h.bytes).1, Feed(r, got).1);
  }

  lemma MatchedHears(c: Conn, got: seq<byte>, rest: seq<byte>, now: Time, t: ErrorTimes)
    requires Listening(c) && c.sock != -1 && c.wsPos <= 4 && Framing.Ready(Reading(c.wsPos, c.input))
    requires Feed(Reading(c.wsPos, c.input), got) == Framing.Result(Parse(rest))
    ensures Listening(Process(Emit(c, Received(got)).(wsPos := 4, input := c.input + got), rest, now, t))
  {
    hide Syncs, Hear, Parse, Process, Announced, Feed, Framing.Ready;
    var d := Emit(c, Received(got));
    var e := d.(wsPos := 4, input := c.input + got);
    HearMore(c, got);
    SameLog(d, e);
    ProcessHeard(e, rest, now, t);
  }

  lemma UnmatchedHears(c: Conn, got: seq<byte>, q: nat)
    requires Listening(c) && c.sock != -1 && c.wsPos <= 4 && Framing.Ready(Reading(c.wsPos, c.input))
    requires Feed(Reading(c.wsPos, c.input), got) == (Reading(q, []), [])
    ensures Listening(Emit(c, Received(got)).(wsPos := q, input := []))
  {
    hide Syncs, Hear, Announced, Feed, Framing.Ready;
    var d := Emit(c, Received(got));
    HearMore(c, got);
    SameLog(d, d.(wsPos := q, input := []));
    AnnouncedNothing();
  }

  lemma DigestHears(c: Conn, got: seq<byte>, now: Time, t: ErrorTimes)
    requires Listening(c) && c.sock != -1 && c.wsPos <= 4 && Framing.Ready(Reading(c.wsPos, c.input))
    ensures Listening(Digest(Emit(c, Received(got)), c.input + got, now, t))
  {
    hide Listening, Parse, Match, Process, Feed, Framing.Ready, Emit;
    EmitReceived(c, got);
    FeedIs(Reading(c.wsPos, c.input), got);
    var (q, n) := Match(c.wsPos, c.input + got);
    if q == 4 {
      MatchedHears(c, got, (c.input + got)[n..], now, t);
    } else {
      UnmatchedHears(c, got, q);
    }
  }

  lemma EmitReceived(c: Conn, got: seq<byte>)
    ensures Emit(c, Received(got)).wsPos == c.wsPos
  {
  }

  lemma AnnouncedNothing()
    ensures Announced([]) == [] && !Syncs([])
  {
  }

  lemma MatchFour(pos: nat, s: seq<byte>)
    requires pos <= 4
    ensures pos == 4 ==> Match(pos, s) == (4, 0)
  {
  }

  lemma HandleReadHears(c: Conn, r: ReadResult, now: Time, t: ErrorTimes)
    requires Inv(c) && c.sock != -1 && Listening(c) && |c.input| <= BUFFER_SIZE && c.wsPos <= 4
    ensures Listening(HandleRead(c, r, now, t))
  {
    hide Inv, Listening, ReportError, SetRunning, Digest, Room, Unheard;
    UnheardError(c, t);
    UnheardKeeps(c, ReportError(c, t));
    UnheardStop(c, t.retry);
    UnheardKeeps(c, SetRunning(c, false, t.retry));
    InvReading(c);
    match r
    case ReadBlocked =>
    case ReadFailed =>
    case Got(bytes) => DigestHears(c, Room(c, bytes), now, t);
  }

  lemma InvReading(c: Conn)
    requires Inv(c) && c.sock != -1
    ensures c.wsPos <= 4 && Framing.Ready(Reading(c.wsPos, c.input)) && |c.input| < BUFFER_SIZE
  {
    hide Framing.Ready, Distinct;
  }

  // ---------- everything else ----------

  lemma UnheardSelf(c: Conn)
    ensures Unheard(c, c)
  {
  }

  lemma UnheardHalted(c: Conn)
    ensures Unheard(c, Closed(c)) && Unheard(c, Cancelled(c)) && Unheard(c, Abandoned(c))
  {
    hide Hear;
  }

  lemma UnheardHalt(c: Conn)
    ensures Unheard(c, Halt(c))
  {
    hide Unheard, UpdatePoll, Closed, Cancelled, Abandoned;
    UnheardSelf(c);
    UnheardHalted(c);
    UnheardPoll(Closed(c));
    UnheardPoll(Cancelled(c));
    UnheardChain(c, Closed(c), UpdatePoll(Closed(c)));
    UnheardChain(c, Cancelled(c), UpdatePoll(Cancelled(c)));
  }

  lemma UnheardStop(c: Conn, now: Time)
    ensures Unheard(c, SetRunning(c, false, now))
  {
    hide Unheard, Halt;
    UnheardSelf(c);
    UnheardHalt(c);
    var d := Halt(c);
    UnheardEmit(d, RunningChanged(false, d.synced));
    UnheardChain(c, d, Emit(d, RunningChanged(false, d.synced)));
  }

  lemma UnheardScheduled(c: Conn, at: int, state: RunState)
    ensures Unheard(c, c.(timeout := 0, reconnectAt := at, state := state))
  {
    hide Hear;
  }

  lemma UnheardStart(c: Conn, now: Time)
    ensures Unheard(c, StartConnecting(c, now))
  {
    hide Unheard, UpdatePoll;
    UnheardScheduled(c, NEVER, WaitingForConfiguration);
    UnheardScheduled(c, now, WaitingForReconnect);
    var d := c.(timeout := 0, reconnectAt := now, state := WaitingForReconnect);
    UnheardPoll(d);
    UnheardChain(c, d, UpdatePoll(d));
  }

  lemma UnheardSetRunning(c: Conn, running: bool, now: Time)
    ensures Unheard(c, SetRunning(c, running, now))
  {
    hide Unheard, Halt, StartConnecting;
    UnheardStop(c, now);
    UnheardSelf(c);
    UnheardStart(c, now);
    var d := StartConnecting(c, now);
    UnheardEmit(d, RunningChanged(true, d.synced));
    UnheardChain(c, d, Emit(d, RunningChanged(true, d.synced)));
  }

  lemma ConnectingHears(c: Conn, fd: nat, done: bool)
    ensures Listening(UpdatePoll(Connecting(c, fd, done)))
  {
    hide Hear, UpdatePoll, Parse;
    var d := Connecting(c, fd, done);
    HearLast(c.log, Opened(fd));
    FeedNothing();
    assert Listening(d);
    UnheardPoll(d);
    UnheardKeeps(d, UpdatePoll(d));
  }

  lemma FeedNothing()
    ensures Feed(Start(), []) == (Start(), []) && Announced([]) == [] && !Syncs([])
  {
  }

  lemma UnheardTrying(c: Conn, sock: int, t: ErrorTimes)
    requires c.sock == -1
    ensures Unheard(c, ReportError(Trying(c, sock), t))
  {
    hide Hear, UpdatePoll;
    var d := Broken(Trying(c, sock), t);
    assert Unheard(c, d);
    UnheardPoll(d);
    var e := UpdatePoll(d);
    UnheardEmit(e, ErrorReported(e.synced));
  }

  lemma TryReconnectHears(c: Conn, r: ConnectResult, t: ErrorTimes)
    requires c.sock == -1 && Listening(c)
    ensures Listening(TryReconnect(c, r, t))
  {
    hide Listening, Unheard, UpdatePoll, Connecting, ReportError, Trying;
    match r
    case NoSocket => UnheardTrying(c, -1, t); UnheardKeeps(c, TryReconnect(c, r, t));
    case NotReady(fd) => UnheardTrying(c, fd, t); UnheardKeeps(c, TryReconnect(c, r, t));
    case Refused(fd) => UnheardTrying(c, fd, t); UnheardKeeps(c, TryReconnect(c, r, t));
    case InProgress(fd) => ConnectingHears(c, fd, false);
    case Connected(fd) => ConnectingHears(c, fd, true);
  }

  /** d differs from c in nothing that concerns reading. */
  lemma UnheardFields(c: Conn, d: Conn)
    requires d.log == c.log && Alike(c, d)
    ensures Unheard(c, d) && Unheard(c, UpdatePoll(d))
  {
    hide UpdatePoll, Hear;
    UnheardPoll(d);
  }

  lemma QueueHears(c: Conn, item: Item)
    ensures Unheard(c, Queue(c, item))
  {
    hide Encode, Hear, FlagsOf;
    HearLast(c.log, Queued(item));
  }

  lemma {:induction false} FillHears(c: Conn)
    requires Named(c) && |c.output| <= BUFFER_SIZE
    ensures Unheard(c, Fill(c))
    decreases BUFFER_SIZE - |c.output|
  {
    hide Unheard, Queue, NextItem, FitsIn, Encode, Named;
    var item := NextItem(c);
    if item.Some? && FitsIn(c, item.value) {
      QueueHears(c, item.value);
      FillHears(Queue(c, item.value));
      UnheardChain(c, Queue(c, item.value), Fill(Queue(c, item.value)));
    } else {
      UnheardSelf(c);
    }
  }

  lemma AcceptHears(c: Conn, n: nat, at: int)
    ensures Unheard(c, Accept(c, n)) && Unheard(c, Accept(c, n).(keepAliveAt := at))
  {
    hide Hear;
    HearLast(c.log, Sent(c.output, if n <= |c.output| then n else |c.output|));
  }

  lemma HandleWriteHears(c: Conn, r: WriteResult, t: ErrorTimes)
    requires Named(c) && |c.output| <= BUFFER_SIZE
    ensures Unheard(c, HandleWrite(c, r, t))
  {
    hide Unheard, Fill, Accept, UpdatePoll, ReportError, Named;
    var d := Fill(c);
    FillHears(c);
    match r
    case WriteBlocked =>
      AcceptHears(d, 0, NEVER);
      UnheardChain(c, d, Accept(d, 0));
    case WriteFailed =>
      AcceptHears(d, 0, NEVER);
      UnheardChain(c, d, Accept(d, 0));
      UnheardError(Accept(d, 0), t);
      UnheardChain(c, Accept(d, 0), ReportError(Accept(d, 0), t));
    case Wrote(n) =>
      var e := Accept(d, n).(keepAliveAt := t.retry + KEEP_ALIVE_TIME);
      AcceptHears(d, n, t.retry + KEEP_ALIVE_TIME);
      UnheardChain(c, d, e);
      UnheardPoll(e);
      UnheardChain(c, e, UpdatePoll(e));
  }

  lemma WakeUpHears(c: Conn, ready: ConnState.Ready, w: World)
    requires Inv(c) && Listening(c)
    ensures Listening(WakeUp(c, ready, w))
  {
    hide Inv, Listening, UpdatePoll, Awake, TryReconnect, HandleRead, HandleWrite, Unheard;
    InvNamed(c);
    if c.sock == -1 {
      if w.now >= c.reconnectAt { TryReconnectHears(c, w.connect, w.times); }
    } else {
      var d := Awake(c, ready, w.now);
      AwakeUnheard(c, ready, w.now);
      UnheardKeeps(c, d);
      InvAwake(c, ready, w.now);
      InvNamed(d);
      if ready.readable {
        HandleReadHears(d, w.read, w.arrival, w.times);
      } else if ready.writable {
        HandleWriteHears(d, w.write, w.times);
        UnheardKeeps(d, HandleWrite(d, w.write, w.times));
      } else {
        UnheardPoll(d);
        UnheardKeeps(d, UpdatePoll(d));
      }
    }
  }

  lemma AwakeUnheard(c: Conn, ready: ConnState.Ready, now: Instant)
    ensures Unheard(c, Awake(c, ready, now))
  {
    hide Hear;
  }

  lemma MaybeStartHears(c: Conn, d: Conn, now: Time)
    requires d.log == c.log && Alike(c, d)
    ensures Unheard(c, MaybeStart(d, now))
  {
    hide StartConnecting, UpdatePoll, Hear;
    UnheardStart(d, now);
  }

  lemma ResetHears(c: Conn)
    requires Listening(c)
    ensures Listening(Reset(c))
  {
    hide Hear, Feed, UpdatePoll, SetRunning, Announced;
    var d := Cleared(c);
    SameLog(c, d);
    assert Listening(d);
    UnheardStop(d, 0);
    var e := SetRunning(d, false, 0);
    UnheardKeeps(d, e);
    UnheardPoll(e);
    UnheardKeeps(e, UpdatePoll(e));
  }

  lemma RequestsUnheard(c: Conn, op: Op)
    requires Inv(c) && IsRequest(op)
    ensures Unheard(c, Step(c, op))
  {
    hide Inv, Unheard, Step, Noted, UpdatePoll;
    StepRequest(c, op);
    NotedFields(c, op);
    UnheardFields(c, Noted(c, op));
  }

  lemma LearningUnheard(c: Conn, op: Op)
    requires Inv(c) && IsLearning(op)
    ensures Unheard(c, Step(c, op))
  {
    hide Inv, Unheard, Step, MaybeStart, Learnt;
    StepLearning(c, op);
    LearntLearns(c, op);
    UnheardSelf(c);
    MaybeStartHears(c, Learnt(c, op), TimeOf(op));
  }

  lemma StepHears(c: Conn, op: Op)
    requires Inv(c) && Listening(c)
    ensures Listening(Step(c, op))
  {
    hide Inv, Listening, Unheard, WakeUp, SetRunning, Reset;
    if op.DoWakeUp? {
      WakeUpHears(c, op.ready, op.world);
    } else if op.DoReset? {
      ResetHears(c);
    } else {
      if IsRequest(op) {
        RequestsUnheard(c, op);
      } else if IsLearning(op) {
        LearningUnheard(c, op);
      } else {
        UnheardSetRunning(c, op.running, op.now);
      }
      UnheardKeeps(c, Step(c, op));
    }
  }

  lemma NewHears()
    ensures Listening(New())
  {
    hide Reset;
    InvReset(Blank());
  }

  /** On every socket, however the incoming bytes were split into reads, the messages passed on are exactly those that
      parsing the whole stream so far at once gives, up to the first error. */
  lemma {:induction false} EverySocketHeard(ops: seq<Op>)
    ensures Inv(New())
    ensures Listening(Run(New(), ops))
    decreases |ops|
  {
    hide Inv, Listening, Step, New;
    InvNew();
    if ops == [] {
      NewHears();
    } else {
      var m := |ops| - 1;
      EverySocketHeard(ops[..m]);
      StepHears(Run(New(), ops[..m]), ops[m]);
    }
  }
}
