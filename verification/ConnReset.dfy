/** A connection that has been reset cannot be told from a new one that was given the same address. */
module ConnReset {
  import opened Bits
  import opened Options
  import opened Proto
  import opened Framing
  import opened ConnState
  import opened ConnOps
  import opened ConnInvariant

  /** The effect without its `synced` flag. */
  function Blind(e: Effect): Effect {
    match e
    case PollChanged(poll, _) => PollChanged(poll, false)
    case ErrorReported(_) => ErrorReported(false)
    case RunningChanged(running, _) => RunningChanged(running, false)
    case MessageReceived(payload, _) => MessageReceived(payload, false)
    case _ => e
  }

  predicate Alike(exact: bool, e: Effect, f: Effect) {
    if exact then e == f else Blind(e) == Blind(f)
  }

  /** The same is told, except perhaps for `synced` flags. */
  ghost predicate SameLog(exact: bool, a: seq<Effect>, b: seq<Effect>) {
    |a| == |b| && forall i :: 0 <= i < |a| ==> Alike(exact, a[i], b[i])
  }

  lemma SameLogConcat(exact: bool, a: seq<Effect>, b: seq<Effect>, c: seq<Effect>, d: seq<Effect>)
    requires SameLog(exact, a, b) && SameLog(exact, c, d)
    ensures SameLog(exact, a + c, b + d)
  {
    hide Alike;
  }

  lemma SameLogOne(exact: bool, a: seq<Effect>, b: seq<Effect>, e: Effect, f: Effect)
    requires SameLog(exact, a, b) && Alike(exact, e, f)
    ensures SameLog(exact, a + [e], b + [f])
  {
    hide Alike;
  }

  /** a and b differ at most in what cannot matter: values that are not set, the contents of the buffers and the
      `synced` flag (unless it has to be exact) while there is no connection, and so far in `synced` flags told. */
  ghost predicate Same(exact: bool, a: Conn, b: Conn) {
    && a.hasAddress == b.hasAddress && (a.hasAddress ==> a.address == b.address)
    && a.hasConversation == b.hasConversation && (a.hasConversation ==> a.conversation == b.conversation)
    && a.room == b.room && a.player == b.player
    && a.hasPerson == b.hasPerson && (a.hasPerson ==> a.person == b.person)
    && a.state == b.state && a.finished == b.finished && a.typing == b.typing && a.sentTyping == b.sentTyping
    && a.nextMessage == b.nextMessage && a.timeout == b.timeout && a.reconnectAt == b.reconnectAt
    && a.playerIdAt == b.playerIdAt && a.dirty == b.dirty && a.tiles == b.tiles && a.messages == b.messages
    && (NTiles in a.dirty ==> a.nTiles == b.nTiles) && a.language == b.language
    && a.sock == b.sock && a.poll == b.poll && a.keepAliveAt == b.keepAliveAt
    && (Live(a) ==>
        a.writeFinished == b.writeFinished && a.output == b.output && a.input == b.input && a.wsPos == b.wsPos)
    && (exact || Live(a) ==> a.synced == b.synced)
    && SameLog(exact, a.log, b.log)
  }

  lemma SamePollEffects(exact: bool, a: Conn, b: Conn)
    requires Same(exact, a, b)
    ensures PollFor(a) == PollFor(b) && ShouldShutDown(a) == ShouldShutDown(b)
    ensures SameLog(exact, PollEffects(a), PollEffects(b))
  {
  }

  lemma SameUpdatePoll(exact: bool, a: Conn, b: Conn)
    requires Same(exact, a, b)
    ensures Same(exact, UpdatePoll(a), UpdatePoll(b))
  {
    hide PollFor, PollEffects, ShouldShutDown, SameLog;
    SamePollEffects(exact, a, b);
    SameLogConcat(exact, a.log, b.log, PollEffects(a), PollEffects(b));
  }

  lemma SameEmit(exact: bool, a: Conn, b: Conn, e: Effect, f: Effect)
    requires Same(exact, a, b) && Alike(exact, e, f)
    ensures Same(exact, Emit(a, e), Emit(b, f))
  {
    hide SameLog, Alike;
    SameLogOne(exact, a.log, b.log, e, f);
  }

  lemma SameSynced(exact: bool, a: Conn, b: Conn)
    requires Same(exact, a, b)
    ensures exact ==> a.synced == b.synced
  {
    hide SameLog;
  }

  lemma SameBroken(exact: bool, a: Conn, b: Conn, t: ErrorTimes)
    requires Same(exact, a, b)
    ensures Same(exact, Broken(a, t), Broken(b, t))
  {
    hide SameLog;
  }

  lemma SameReportError(exact: bool, a: Conn, b: Conn, t: ErrorTimes)
    requires Same(exact, a, b)
    ensures Same(exact, ReportError(a, t), ReportError(b, t))
  {
    hide Same, Broken, UpdatePoll;
    SameBroken(exact, a, b, t);
    SameUpdatePoll(exact, Broken(a, t), Broken(b, t));
    var c, d := UpdatePoll(Broken(a, t)), UpdatePoll(Broken(b, t));
    SameSynced(exact, c, d);
    SameEmit(exact, c, d, ErrorReported(c.synced), ErrorReported(d.synced));
  }

  // ---------- connecting ----------

  lemma SameConnecting(exact: bool, a: Conn, b: Conn, fd: nat, done: bool)
    requires Same(exact, a, b)
    ensures Same(exact, Connecting(a, fd, done), Connecting(b, fd, done))
  {
    hide SameLog;
    SameLogOne(exact, a.log, b.log, Opened(fd), Opened(fd));
  }

  lemma SameTrying(exact: bool, a: Conn, b: Conn, sock: int)
    requires Same(exact, a, b)
    ensures Same(exact, Trying(a, sock), Trying(b, sock))
  {
    hide SameLog;
  }

  lemma SameTryReconnect(exact: bool, a: Conn, b: Conn, r: ConnectResult, t: ErrorTimes)
    requires Same(exact, a, b)
    ensures Same(exact, TryReconnect(a, r, t), TryReconnect(b, r, t))
  {
    hide Same, UpdatePoll, Connecting, ReportError, Trying;
    match r
    case NoSocket => SameTrying(exact, a, b, -1); SameReportError(exact, Trying(a, -1), Trying(b, -1), t);
    case NotReady(fd) => SameTrying(exact, a, b, fd); SameReportError(exact, Trying(a, fd), Trying(b, fd), t);
    case Refused(fd) => SameTrying(exact, a, b, fd); SameReportError(exact, Trying(a, fd), Trying(b, fd), t);
    case InProgress(fd) =>
      SameConnecting(exact, a, b, fd, false);
      SameUpdatePoll(exact, Connecting(a, fd, false), Connecting(b, fd, false));
    case Connected(fd) =>
      SameConnecting(exact, a, b, fd, true);
      SameUpdatePoll(exact, Connecting(a, fd, true), Connecting(b, fd, true));
  }

  // ---------- reading ----------

  lemma SameAbsorb(exact: bool, a: Conn, b: Conn, payload: seq<byte>, now: Time)
    requires Same(exact, a, b) && Accepted(payload)
    ensures Same(exact, Absorb(a, payload, now), Absorb(b, payload, now))
  {
    hide SameLog, Accepted;
  }

  lemma SameDeliver(exact: bool, a: Conn, b: Conn, payload: seq<byte>, now: Time)
    requires Same(exact, a, b) && Accepted(payload)
    ensures Same(exact, Deliver(a, payload, now), Deliver(b, payload, now))
  {
    hide Same, Absorb, Accepted;
    var c, d := Absorb(a, payload, now), Absorb(b, payload, now);
    SameAbsorb(exact, a, b, payload, now);
    SameSynced(exact, c, d);
    SameEmit(exact, c, d, MessageReceived(payload, c.synced), MessageReceived(payload, d.synced));
  }

  lemma {:induction false} SameDeliverAll(exact: bool, a: Conn, b: Conn, payloads: seq<seq<byte>>, now: Time)
    requires Same(exact, a, b) && AllAccepted(payloads)
    ensures Same(exact, DeliverAll(a, payloads, now), DeliverAll(b, payloads, now))
    decreases |payloads|
  {
    hide Same, Deliver, Accepted;
    if payloads != [] {
      var m := |payloads| - 1;
      SameDeliverAll(exact, a, b, payloads[..m], now);
      SameDeliver(exact, DeliverAll(a, payloads[..m], now), DeliverAll(b, payloads[..m], now), payloads[m], now);
    }
  }

  lemma SameMatched(exact: bool, a: Conn, b: Conn, wsPos: nat, input: seq<byte>)
    requires Same(exact, a, b)
    ensures Same(exact, a.(wsPos := wsPos, input := input), b.(wsPos := wsPos, input := input))
  {
    hide SameLog, Alike;
  }

  lemma SameLeft(exact: bool, a: Conn, b: Conn, input: seq<byte>)
    requires Same(exact, a, b)
    ensures Same(exact, a.(input := input), b.(input := input))
  {
    hide SameLog, Alike;
  }

  lemma SameReject(exact: bool, a: Conn, b: Conn, t: Trouble)
    requires Same(exact, a, b)
    ensures Same(exact, Reject(a, t), Reject(b, t))
  {
    hide SameLog;
  }

  lemma SameProcess(exact: bool, a: Conn, b: Conn, bytes: seq<byte>, now: Time, t: ErrorTimes)
    requires Same(exact, a, b)
    ensures Same(exact, Process(a, bytes, now, t), Process(b, bytes, now, t))
  {
    hide Same, Parse, DeliverAll, UpdatePoll, ReportError, AllAccepted, Reject;
    ParsedAccepted(bytes);
    var p := Parse(bytes);
    var c, d := DeliverAll(a, p.payloads, now), DeliverAll(b, p.payloads, now);
    SameDeliverAll(exact, a, b, p.payloads, now);
    if p.More? {
      SameLeft(exact, c, d, p.rest);
      SameUpdatePoll(exact, c.(input := p.rest), d.(input := p.rest));
    } else {
      SameReject(exact, c, d, p.trouble);
      SameReportError(exact, Reject(c, p.trouble), Reject(d, p.trouble), t);
    }
  }

  lemma SameDigest(exact: bool, a: Conn, b: Conn, input: seq<byte>, now: Time, t: ErrorTimes)
    requires Same(exact, a, b) && a.wsPos == b.wsPos <= 4
    ensures Same(exact, Digest(a, input, now, t), Digest(b, input, now, t))
  {
    hide Same, Match, Process;
    var (q, n) := Match(a.wsPos, input);
    SameMatched(exact, a, b, q, []);
    SameMatched(exact, a, b, 4, input);
    if q == 4 {
      SameProcess(exact, a.(wsPos := 4, input := input), b.(wsPos := 4, input := input), input[n..], now, t);
    }
  }

  // ---------- stopping and starting ----------

  lemma SameClosed(exact: bool, a: Conn, b: Conn)
    requires Same(exact, a, b)
    ensures Same(exact, Closed(a), Closed(b)) && a.state == b.state
  {
    hide SameLog;
  }

  lemma SameCancelled(exact: bool, a: Conn, b: Conn)
    requires Same(exact, a, b)
    ensures Same(exact, Cancelled(a), Cancelled(b))
  {
    hide SameLog;
  }

  lemma SameAbandoned(exact: bool, a: Conn, b: Conn)
    requires Same(exact, a, b)
    ensures Same(exact, Abandoned(a), Abandoned(b))
  {
    hide SameLog;
  }

  lemma SameHalt(exact: bool, a: Conn, b: Conn)
    requires Same(exact, a, b)
    ensures Same(exact, Halt(a), Halt(b))
  {
    hide Same, UpdatePoll, Closed, Cancelled, Abandoned;
    SameClosed(exact, a, b);
    SameCancelled(exact, a, b);
    SameAbandoned(exact, a, b);
    SameUpdatePoll(exact, Closed(a), Closed(b));
    SameUpdatePoll(exact, Cancelled(a), Cancelled(b));
  }

  lemma SameScheduled(exact: bool, a: Conn, b: Conn, at: int, state: RunState)
    requires Same(exact, a, b) && !(state.Running? || state.Reconnecting?)
    ensures Same(exact, a.(timeout := 0, reconnectAt := at, state := state),
                 b.(timeout := 0, reconnectAt := at, state := state))
  {
    hide SameLog;
  }

  lemma SameNamed(exact: bool, a: Conn, b: Conn)
    requires Same(exact, a, b)
    ensures Named(a) == Named(b) && HasConfiguration(a) == HasConfiguration(b) && a.state == b.state
  {
    hide SameLog;
  }

  lemma SameStart(exact: bool, a: Conn, b: Conn, now: Time)
    requires Same(exact, a, b)
    ensures Same(exact, StartConnecting(a, now), StartConnecting(b, now))
  {
    hide Same, UpdatePoll, HasConfiguration;
    SameNamed(exact, a, b);
    SameScheduled(exact, a, b, NEVER, WaitingForConfiguration);
    SameScheduled(exact, a, b, now, WaitingForReconnect);
    SameUpdatePoll(exact, a.(timeout := 0, reconnectAt := now, state := WaitingForReconnect),
                   b.(timeout := 0, reconnectAt := now, state := WaitingForReconnect));
  }

  lemma SameSetRunning(exact: bool, a: Conn, b: Conn, running: bool, now: Time)
    requires Same(exact, a, b)
    ensures Same(exact, SetRunning(a, running, now), SetRunning(b, running, now))
  {
    hide Same, Halt, StartConnecting;
    SameNamed(exact, a, b);
    SameHalt(exact, a, b);
    SameStart(exact, a, b, now);
    if running != IsRunning(a) {
      var c, d := SetRunningInternal(a, running, now), SetRunningInternal(b, running, now);
      SameSynced(exact, c, d);
      SameEmit(exact, c, d, RunningChanged(running, c.synced), RunningChanged(running, d.synced));
    }
  }

  lemma SameReading(exact: bool, a: Conn, b: Conn)
    requires Same(exact, a, b) && Live(a)
    ensures a.input == b.input && a.wsPos == b.wsPos && a.finished == b.finished && a.output == b.output
  {
    hide SameLog;
  }

  lemma SameRoom(a: Conn, b: Conn, bytes: seq<byte>)
    requires a.input == b.input && |a.input| <= BUFFER_SIZE
    ensures Room(a, bytes) == Room(b, bytes)
  {
  }

  lemma EmitPos(c: Conn, e: Effect)
    ensures Emit(c, e).wsPos == c.wsPos
  {
  }

  lemma SameHandleRead(exact: bool, a: Conn, b: Conn, r: ReadResult, now: Time, t: ErrorTimes)
    requires Same(exact, a, b) && Live(a) && |a.input| <= BUFFER_SIZE && a.wsPos <= 4
    requires |b.input| <= BUFFER_SIZE && b.wsPos <= 4
    ensures Same(exact, HandleRead(a, r, now, t), HandleRead(b, r, now, t))
  {
    hide Same, Live, ReportError, SetRunning, Digest, Room, Emit;
    SameReading(exact, a, b);
    match r
    case ReadBlocked =>
    case ReadFailed => SameReportError(exact, a, b, t);
    case Got(bytes) =>
      SameReportError(exact, a, b, t);
      SameSetRunning(exact, a, b, false, t.retry);
      SameRoom(a, b, bytes);
      var e := Received(Room(a, bytes));
      SameEmit(exact, a, b, e, e);
      EmitPos(a, e);
      EmitPos(b, e);
      SameDigest(exact, Emit(a, e), Emit(b, e), a.input + Room(a, bytes), now, t);
  }

  // ---------- writing ----------

  lemma SameNext(exact: bool, a: Conn, b: Conn)
    requires Same(exact, a, b) && Named(a) && Named(b)
    ensures NextItem(a) == NextItem(b)
  {
    hide SameLog;
  }

  lemma SameQueue(exact: bool, a: Conn, b: Conn, item: Item)
    requires Same(exact, a, b)
    ensures Same(exact, Queue(a, item), Queue(b, item)) && (Live(a) ==> Live(Queue(a, item)))
  {
    hide SameLog, Encode, FlagsOf;
    SameLogOne(exact, a.log, b.log, Queued(item), Queued(item));
  }

  lemma {:induction false} SameFill(exact: bool, a: Conn, b: Conn)
    requires Same(exact, a, b) && Live(a) && Named(a) && Named(b) && |a.output| <= BUFFER_SIZE
             && |b.output| <= BUFFER_SIZE
    ensures Same(exact, Fill(a), Fill(b)) && Live(Fill(a))
    decreases BUFFER_SIZE - |a.output|
  {
    hide Same, Live, Queue, NextItem, FitsIn, Encode, Named;
    SameNext(exact, a, b);
    SameReading(exact, a, b);
    var item := NextItem(a);
    if item.Some? && FitsIn(a, item.value) {
      SameQueue(exact, a, b, item.value);
      SameFill(exact, Queue(a, item.value), Queue(b, item.value));
    }
  }

  lemma SameAccept(exact: bool, a: Conn, b: Conn, n: nat)
    requires Same(exact, a, b) && Live(a)
    ensures Same(exact, Accept(a, n), Accept(b, n))
  {
    hide SameLog, Alike;
    var k := if n <= |a.output| then n else |a.output|;
    var e := Sent(a.output, k);
    SameItself(exact, e);
    SameLogOne(exact, a.log, b.log, e, e);
    assert Accept(a, n).log == a.log + [e] && Accept(b, n).log == b.log + [e];
  }

  lemma SameItself(exact: bool, e: Effect)
    ensures Alike(exact, e, e)
  {
  }

  lemma SameKept(exact: bool, a: Conn, b: Conn, at: int)
    requires Same(exact, a, b)
    ensures Same(exact, a.(keepAliveAt := at), b.(keepAliveAt := at))
  {
    hide SameLog;
  }

  lemma SameHandleWrite(exact: bool, a: Conn, b: Conn, r: WriteResult, t: ErrorTimes)
    requires Same(exact, a, b) && Live(a) && Named(a) && Named(b) && |a.output| <= BUFFER_SIZE
             && |b.output| <= BUFFER_SIZE
    ensures Same(exact, HandleWrite(a, r, t), HandleWrite(b, r, t))
  {
    hide Same, Live, Fill, Accept, UpdatePoll, ReportError, Named;
    SameFill(exact, a, b);
    var c, d := Fill(a), Fill(b);
    SameAccept(exact, c, d, 0);
    match r
    case WriteBlocked =>
    case WriteFailed => SameReportError(exact, Accept(c, 0), Accept(d, 0), t);
    case Wrote(n) =>
      var at := t.retry + KEEP_ALIVE_TIME;
      SameAccept(exact, c, d, n);
      SameKept(exact, Accept(c, n), Accept(d, n), at);
      SameUpdatePoll(exact, Accept(c, n).(keepAliveAt := at), Accept(d, n).(keepAliveAt := at));
  }

  lemma SameAwake(exact: bool, a: Conn, b: Conn, ready: ConnState.Ready, now: Instant)
    requires Same(exact, a, b)
    ensures Same(exact, Awake(a, ready, now), Awake(b, ready, now)) && (Live(a) ==> Live(Awake(a, ready, now)))
  {
    hide SameLog, Alike;
    assert Live(Awake(a, ready, now)) <==> Live(a);
  }

  lemma SameSock(exact: bool, a: Conn, b: Conn)
    requires Same(exact, a, b)
    ensures a.sock == b.sock && a.reconnectAt == b.reconnectAt
  {
    hide SameLog;
  }

  lemma InvLive(c: Conn)
    requires Inv(c)
    ensures c.sock != -1 ==> Live(c)
  {
    hide Distinct, Framing.Ready;
  }

  lemma SameWakeUp(exact: bool, a: Conn, b: Conn, ready: ConnState.Ready, w: World)
    requires Same(exact, a, b) && Inv(a) && Inv(b)
    ensures Same(exact, WakeUp(a, ready, w), WakeUp(b, ready, w))
  {
    hide Inv, Same, Live, UpdatePoll, Awake, TryReconnect, HandleRead, HandleWrite, Named;
    InvNamed(a);
    InvNamed(b);
    InvLive(a);
    SameSock(exact, a, b);
    if a.sock == -1 {
      SameTryReconnect(exact, a, b, w.connect, w.times);
    } else {
      var c, d := Awake(a, ready, w.now), Awake(b, ready, w.now);
      SameAwake(exact, a, b, ready, w.now);
      AwakeNamed(a, ready, w.now);
      AwakeNamed(b, ready, w.now);
      if ready.readable {
        SameHandleRead(exact, c, d, w.read, w.arrival, w.times);
      } else if ready.writable {
        SameHandleWrite(exact, c, d, w.write, w.times);
      } else {
        SameUpdatePoll(exact, c, d);
      }
    }
  }

  lemma AwakeNamed(c: Conn, ready: ConnState.Ready, now: Instant)
    ensures Named(Awake(c, ready, now)) == Named(c)
  {
    hide Awake;
  }

  // ---------- steps ----------

  lemma SameLearn(exact: bool, a: Conn, b: Conn, now: Time)
    requires Same(exact, a, b)
    ensures Same(exact, MaybeStart(a, now), MaybeStart(b, now))
  {
    hide Same, StartConnecting;
    SameNamed(exact, a, b);
    SameStart(exact, a, b, now);
  }

  lemma SameKnown(exact: bool, a: Conn, b: Conn)
    requires Same(exact, a, b)
    ensures a.hasPerson == b.hasPerson && a.player.Some? == b.player.Some? && a.room.Some? == b.room.Some?
    ensures a.hasConversation == b.hasConversation && a.hasAddress == b.hasAddress
  {
    hide SameLog;
  }

  lemma SamePerson(exact: bool, a: Conn, b: Conn, id: seq<byte>)
    requires Same(exact, a, b)
    ensures Same(exact, a.(person := id, hasPerson := true), b.(person := id, hasPerson := true))
  {
    hide SameLog, Alike;
  }

  lemma SamePlayer(exact: bool, a: Conn, b: Conn, name: seq<byte>)
    requires Same(exact, a, b)
    ensures Same(exact, a.(player := Some(name)), b.(player := Some(name)))
  {
    hide SameLog, Alike;
  }

  lemma SameRoomName(exact: bool, a: Conn, b: Conn, name: seq<byte>)
    requires Same(exact, a, b)
    ensures Same(exact, a.(room := Some(name)), b.(room := Some(name)))
  {
    hide SameLog, Alike;
  }

  lemma SameConversation(exact: bool, a: Conn, b: Conn, id: seq<byte>)
    requires Same(exact, a, b)
    ensures Same(exact, a.(hasConversation := true, conversation := id),
                 b.(hasConversation := true, conversation := id))
  {
    hide SameLog, Alike;
  }

  lemma SameAddress(exact: bool, a: Conn, b: Conn, address: int)
    requires Same(exact, a, b)
    ensures Same(exact, a.(hasAddress := true, address := address), b.(hasAddress := true, address := address))
  {
    hide SameLog, Alike;
  }

  lemma SameLearnt(exact: bool, a: Conn, b: Conn, op: Op)
    requires Same(exact, a, b) && IsLearning(op)
    ensures AlreadyKnown(a, op) == AlreadyKnown(b, op) && Same(exact, Learnt(a, op), Learnt(b, op))
  {
    hide Same;
    SameKnown(exact, a, b);
    match op
    case DoPerson(id, _) => SamePerson(exact, a, b, id);
    case DoPlayer(name, _) => SamePlayer(exact, a, b, name);
    case DoRoom(name, _) => SameRoomName(exact, a, b, name);
    case DoConversation(id, _) => SameConversation(exact, a, b, id);
    case DoAddress(address, _) => SameAddress(exact, a, b, address);
  }

  lemma SameConfigured(exact: bool, a: Conn, b: Conn, op: Op)
    requires Same(exact, a, b) && Inv(a) && Inv(b) && IsLearning(op)
    ensures Same(exact, Step(a, op), Step(b, op))
  {
    hide Inv, Same, Step, MaybeStart, Learnt, AlreadyKnown;
    StepLearning(a, op);
    StepLearning(b, op);
    SameLearnt(exact, a, b, op);
    SameLearn(exact, Learnt(a, op), Learnt(b, op), TimeOf(op));
  }

  /** What waits to be sent. */
  lemma SameWaiting(exact: bool, a: Conn, b: Conn)
    requires Same(exact, a, b)
    ensures a.typing == b.typing && a.dirty == b.dirty && a.tiles == b.tiles && a.messages == b.messages
    ensures a.language == b.language && (NTiles in a.dirty ==> a.nTiles == b.nTiles)
  {
    hide SameLog;
  }

  lemma SameRequested(exact: bool, a: Conn, b: Conn, c: Conn, d: Conn)
    requires Same(exact, a, b)
    requires c == a.(typing := c.typing, dirty := c.dirty, tiles := c.tiles, messages := c.messages,
                     nTiles := c.nTiles, language := c.language)
    requires d == b.(typing := d.typing, dirty := d.dirty, tiles := d.tiles, messages := d.messages,
                     nTiles := d.nTiles, language := d.language)
    requires c.typing == d.typing && c.dirty == d.dirty && c.tiles == d.tiles && c.messages == d.messages
    requires c.language == d.language && (NTiles in c.dirty ==> c.nTiles == d.nTiles)
    ensures Same(exact, c, d)
  {
    hide SameLog;
  }

  lemma SameNoted(exact: bool, a: Conn, b: Conn, op: Op)
    requires Same(exact, a, b) && IsRequest(op)
    ensures Silently(a, op) == Silently(b, op) && Same(exact, Noted(a, op), Noted(b, op))
  {
    hide Same, Noted;
    SameWaiting(exact, a, b);
    NotedFields(a, op);
    NotedFields(b, op);
    NotedAlike(a, b, op);
    SameRequested(exact, a, b, Noted(a, op), Noted(b, op));
  }

  lemma SameRequests(exact: bool, a: Conn, b: Conn, op: Op)
    requires Same(exact, a, b) && Inv(a) && Inv(b) && IsRequest(op)
    ensures Same(exact, Step(a, op), Step(b, op))
  {
    hide Inv, Same, Step, Noted, UpdatePoll, Silently;
    StepRequest(a, op);
    StepRequest(b, op);
    SameNoted(exact, a, b, op);
    SameUpdatePoll(exact, Noted(a, op), Noted(b, op));
  }

  lemma SameCleared(exact: bool, a: Conn, b: Conn)
    requires Same(exact, a, b)
    ensures Same(exact, Cleared(a), Cleared(b))
  {
    hide SameLog;
  }

  lemma SameReset(exact: bool, a: Conn, b: Conn)
    requires Same(exact, a, b)
    ensures Same(exact, Reset(a), Reset(b))
  {
    hide Same, Cleared, SetRunning, UpdatePoll;
    SameCleared(exact, a, b);
    SameSetRunning(exact, Cleared(a), Cleared(b), false, 0);
    SameUpdatePoll(exact, SetRunning(Cleared(a), false, 0), SetRunning(Cleared(b), false, 0));
  }

  /** Nothing that can happen tells them apart. */
  lemma SameStep(exact: bool, a: Conn, b: Conn, op: Op)
    requires Same(exact, a, b) && Inv(a) && Inv(b)
    ensures Same(exact, Step(a, op), Step(b, op))
  {
    hide Inv, Same, WakeUp, SetRunning, Reset;
    if IsRequest(op) {
      SameRequests(exact, a, b, op);
    } else if IsLearning(op) {
      SameConfigured(exact, a, b, op);
    } else if op.DoSetRunning? {
      SameSetRunning(exact, a, b, op.running, op.now);
    } else if op.DoReset? {
      SameReset(exact, a, b);
    } else {
      SameWakeUp(exact, a, b, op.ready, op.world);
    }
  }

  lemma {:induction false} SameRun(exact: bool, a: Conn, b: Conn, ops: seq<Op>)
    requires Same(exact, a, b) && Inv(a) && Inv(b)
    ensures Same(exact, Run(a, ops), Run(b, ops))
    decreases |ops|
  {
    hide Inv, Same, Step;
    if ops != [] {
      var m := |ops| - 1;
      SameRun(exact, a, b, ops[..m]);
      SameStep(exact, Run(a, ops[..m]), Run(b, ops[..m]), ops[m]);
    }
  }

  // ---------- main results ----------

  /** A new connection that is given the address of another one, if that has one. */
  function NewLike(c: Conn): Conn {
    if c.hasAddress then SetAddress(New(), c.address, 0) else New()
  }

  /** The connection with nothing told yet. */
  function Silent(c: Conn): Conn {
    c.(log := [])
  }

  lemma HaltedSame(d: Conn)
    requires d.sock == -1 && d.reconnectAt == NEVER && d.keepAliveAt == NEVER
    ensures Closed(d) == Abandoned(d) && Cancelled(d) == Abandoned(d) && (d.state == Disconnected ==> d == Abandoned(d))
  {
  }

  lemma QuietMore(c: Conn, d: Conn, e: Effect)
    requires Quiet(c, d)
    ensures Quiet(c, Emit(d, e))
  {
  }

  lemma QuietSelf(c: Conn)
    ensures Quiet(c, c)
  {
  }

  /** With no socket and nothing scheduled, stopping changes only the state. */
  lemma StopClears(d: Conn)
    requires d.sock == -1 && d.reconnectAt == NEVER && d.keepAliveAt == NEVER
    ensures Quiet(Abandoned(d), SetRunning(d, false, 0))
  {
    hide UpdatePoll, Closed, Cancelled, Abandoned, Quiet, Emit;
    HaltedSame(d);
    QuietSelf(Abandoned(d));
    UpdatePollQuiet(Abandoned(d));
    var e := Halt(d);
    QuietMore(Abandoned(d), e, RunningChanged(false, e.synced));
  }

  lemma ResetFields(c: Conn)
    ensures var d := Reset(c);
            && d.hasAddress == c.hasAddress && d.address == c.address && !d.hasConversation && d.room == None
            && d.player == None && !d.hasPerson && d.state == Disconnected && !d.finished && !d.typing && !d.sentTyping
            && d.nextMessage == 0 && d.timeout == 0 && d.reconnectAt == NEVER && d.playerIdAt == NEVER && d.dirty == {}
            && d.tiles == [] && d.messages == [] && d.language == [] && d.sock == -1
            && d.poll == Poll(-1, false, false, NEVER) && d.keepAliveAt == NEVER
  {
    hide SetRunning, PollEffects;
    StopClears(Cleared(c));
  }

  lemma ResetSame(c: Conn)
    ensures Same(false, Silent(Reset(c)), NewLike(c))
  {
    hide Reset;
    ResetFields(c);
    ResetFields(Blank());
  }

  lemma InvNewLike(c: Conn)
    ensures Inv(NewLike(c)) && NewLike(c).log == []
  {
    hide Inv, Reset;
    InvNew();
    ResetFields(Blank());
    InvStep(New(), DoAddress(c.address, 0));
  }

  /** Whatever happens afterwards: the same sockets are opened, the same bytes handed to them, the same polls requested
      and the same events emitted, although the buffers, `writeFinished`, `nTiles` and `synced` may still hold old
      values; only `synced` flags may differ. */
  lemma ResetLikeNew(c: Conn, ops: seq<Op>)
    requires Inv(c)
    ensures Inv(Silent(Reset(c))) && Inv(NewLike(c))
    ensures SameLog(false, Run(Silent(Reset(c)), ops).log, Run(NewLike(c), ops).log)
  {
    hide Inv, Reset, Run, NewLike, SameLog;
    InvNamed(c);
    InvReset(c);
    InvLog(Reset(c), []);
    InvNewLike(c);
    ResetSame(c);
    SameRun(false, Silent(Reset(c)), NewLike(c), ops);
    SameLogs(Run(Silent(Reset(c)), ops), Run(NewLike(c), ops));
  }

  lemma SameLogs(a: Conn, b: Conn)
    requires Same(false, a, b)
    ensures SameLog(false, a.log, b.log)
  {
    hide SameLog;
  }

  /** From the first connection on even the `synced` flags are the same. */
  lemma ConnectedAlike(c: Conn, before: seq<Op>, after: seq<Op>)
    requires Inv(c) && Inv(Silent(Reset(c))) && Inv(NewLike(c))
    requires Live(Run(Silent(Reset(c)), before))
    ensures var a, b := Silent(Run(Silent(Reset(c)), before)), Silent(Run(NewLike(c), before));
            Inv(a) && Inv(b) && Run(a, after).log == Run(b, after).log
  {
    hide Inv, Reset, Run, NewLike, Same, Live;
    var a, b := Run(Silent(Reset(c)), before), Run(NewLike(c), before);
    ResetSame(c);
    SameRun(false, Silent(Reset(c)), NewLike(c), before);
    LiveExact(a, b);
    InvLog(a, []);
    InvLog(b, []);
    SameRun(true, Silent(a), Silent(b), after);
    ExactLogs(Run(Silent(a), after), Run(Silent(b), after));
  }

  lemma LiveExact(a: Conn, b: Conn)
    requires Same(false, a, b) && Live(a)
    ensures Same(true, Silent(a), Silent(b))
  {
  }

  lemma ExactLogs(a: Conn, b: Conn)
    requires Same(true, a, b)
    ensures a.log == b.log
  {
    forall i | 0 <= i < |a.log|
      ensures a.log[i] == b.log[i]
    {
      assert Alike(true, a.log[i], b.log[i]);
    }
  }
}
