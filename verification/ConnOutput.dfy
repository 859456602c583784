/** What a connection puts on the wire, told from its log: the stream of bytes on each socket, and the tiles moved. */
module ConnOutput {
  import opened Bits
  import opened Options
  import opened Proto
  import opened Framing
  import opened ConnState
  import opened ConnOps
  import opened ConnInvariant

  /** Told so far: the items queued and the bytes accepted since a socket was last opened, and all moves queued. */
  datatype History = History(connected: bool, items: seq<Item>, sent: seq<byte>, moves: seq<Tile>)

  function Note(h: History, e: Effect): History {
    match e
    case Opened(_) => h.(connected := true, items := [], sent := [])
    case Queued(item) =>
      h.(items := h.items + [item],
         moves := if item.MoveTile? then h.moves + [item.tile] else h.moves)
    case Sent(buffer, accepted) => h.(sent := h.sent + if accepted <= |buffer| then buffer[..accepted] else buffer)
    case _ => h
  }

  function Replay(log: seq<Effect>): History {
    if log == [] then History(false, [], [], []) else Note(Replay(log[..|log| - 1]), log[|log| - 1])
  }

  function Told(c: Conn): History {
    Replay(c.log)
  }

  lemma ReplayLast(log: seq<Effect>, e: Effect)
    ensures Replay(log + [e]) == Note(Replay(log), e)
  {
    assert (log + [e])[..|log|] == log;
  }

  /** Every item as the bytes it was queued as. */
  function Bytes(items: seq<Item>): seq<byte> {
    if items == [] then [] else Bytes(items[..|items| - 1]) + Encode(items[|items| - 1])
  }

  lemma BytesLast(items: seq<Item>, item: Item)
    ensures Bytes(items + [item]) == Bytes(items) + Encode(item)
  {
    assert (items + [item])[..|items|] == items;
  }

  predicate IsHeader(item: Item) {
    item.Rejoin? || item.Join? || item.NewPlayer? || item.NewPrivate?
  }

  /** One WebSocket request, then exactly one header command, then anything else. */
  ghost predicate InOrder(items: seq<Item>) {
    && (|items| > 0 ==> items[0] == WsRequest)
    && (|items| > 1 ==> IsHeader(items[1]))
    && forall i :: 2 <= i < |items| ==> items[i] != WsRequest && !IsHeader(items[i])
  }

  /** The bytes handed over and those still in the buffer are exactly the items queued on this socket. */
  ghost predicate Streaming(c: Conn) {
    var h := Told(c);
    && (h.connected ==> h.sent + c.output == Bytes(h.items) && InOrder(h.items))
    && (c.sock != -1 ==>
        h.connected && (WsHeader in c.dirty <==> |h.items| < 1) && (Header in c.dirty <==> |h.items| < 2))
  }

  /** At every attempt to write, the bytes passed continue the stream of this socket. */
  ghost predicate EveryWriteGood(log: seq<Effect>) {
    forall k :: 0 <= k < |log| && log[k].Sent? ==>
      var h := Replay(log[..k]);
      h.connected && h.sent + log[k].buffer == Bytes(h.items) && InOrder(h.items)
  }

  lemma WritesLast(log: seq<Effect>, e: Effect)
    requires EveryWriteGood(log)
    requires e.Sent? ==> var h := Replay(log); h.connected && h.sent + e.buffer == Bytes(h.items) && InOrder(h.items)
    ensures EveryWriteGood(log + [e])
  {
    hide Replay, InOrder, Bytes;
    var all := log + [e];
    forall k | 0 <= k < |all| && all[k].Sent?
      ensures var h := Replay(all[..k]); h.connected && h.sent + all[k].buffer == Bytes(h.items) && InOrder(h.items)
    {
      if k < |log| { assert all[..k] == log[..k]; } else { assert all[..k] == log; }
    }
  }

  // ---------- effects that queue and write nothing ----------

  predicate Plain(e: Effect) {
    !e.Opened? && !e.Queued? && !e.Sent?
  }

  ghost predicate AllPlain(effects: seq<Effect>) {
    forall i :: 0 <= i < |effects| ==> Plain(effects[i])
  }

  /** Plain effects change neither the history nor the quality of the writes. */
  lemma {:induction false} PlainEffects(log: seq<Effect>, more: seq<Effect>)
    requires AllPlain(more)
    ensures Replay(log + more) == Replay(log) && (EveryWriteGood(log) ==> EveryWriteGood(log + more))
    decreases |more|
  {
    hide EveryWriteGood, Replay;
    if more == [] {
      assert log + more == log;
    } else {
      var m := |more| - 1;
      PlainEffects(log, more[..m]);
      assert log + more == log + more[..m] + [more[m]];
      ReplayLast(log + more[..m], more[m]);
      if EveryWriteGood(log) { WritesLast(log + more[..m], more[m]); }
    }
  }

  /** What matters here is the same in c and d, and d tells nothing that matters. */
  ghost predicate Mute(c: Conn, d: Conn) {
    && Told(d) == Told(c) && (EveryWriteGood(c.log) ==> EveryWriteGood(d.log))
    && d.output == c.output && d.tiles == c.tiles
    && (d.sock == -1 || d.sock == c.sock)
    && (d.sock != -1 ==> (WsHeader in d.dirty <==> WsHeader in c.dirty) && (Header in d.dirty <==> Header in c.dirty))
  }

  lemma MuteKeeps(c: Conn, d: Conn)
    requires Mute(c, d) && Streaming(c)
    ensures Streaming(d)
  {
    hide InOrder, Bytes, Replay, EveryWriteGood;
  }

  lemma MuteMute(c: Conn, d: Conn, e: Conn)
    requires Mute(c, d) && Mute(d, e)
    ensures Mute(c, e)
  {
    hide Told, EveryWriteGood;
  }

  lemma MuteUpdatePoll(c: Conn)
    ensures Mute(c, UpdatePoll(c))
  {
    hide Replay, EveryWriteGood, PollFor;
    PlainEffects(c.log, PollEffects(c));
  }

  lemma MuteEmit(c: Conn, e: Effect)
    requires Plain(e)
    ensures Mute(c, Emit(c, e))
  {
    hide Replay, EveryWriteGood;
    PlainEffects(c.log, [e]);
  }

  lemma MuteReportError(c: Conn, t: ErrorTimes)
    ensures Mute(c, ReportError(c, t)) && ReportError(c, t).sock == -1
  {
    hide UpdatePoll, Mute;
    BrokenMute(c, t);
    var d := UpdatePoll(Broken(c, t));
    MuteUpdatePoll(Broken(c, t));
    UpdatePollQuiet(Broken(c, t));
    MuteEmit(d, ErrorReported(d.synced));
    MuteMute(c, Broken(c, t), d);
    MuteMute(c, d, ReportError(c, t));
  }

  lemma BrokenMute(c: Conn, t: ErrorTimes)
    ensures Mute(c, Broken(c, t))
  {
    hide Replay, EveryWriteGood;
  }

  // ---------- queueing and writing ----------

  /** Queued moves, then the ones still waiting. */
  function Moves(c: Conn): seq<Tile> {
    Told(c).moves + c.tiles
  }

  /** The stream is kept up and no move is lost, doubled or put out of order. */
  ghost predicate Carries(c: Conn, d: Conn) {
    && (Streaming(c) ==> Streaming(d))
    && (EveryWriteGood(c.log) ==> EveryWriteGood(d.log))
    && Moves(d) == Moves(c)
  }

  lemma CarriesOn(c: Conn, d: Conn, e: Conn)
    requires Carries(c, d) && Carries(d, e)
    ensures Carries(c, e)
  {
    hide Streaming, EveryWriteGood, Moves;
  }

  lemma MuteCarries(c: Conn, d: Conn)
    requires Mute(c, d)
    ensures Carries(c, d)
  {
    hide Streaming, EveryWriteGood, Told, Mute;
    if Streaming(c) { MuteKeeps(c, d); }
    MuteFields(c, d);
  }

  lemma MuteFields(c: Conn, d: Conn)
    requires Mute(c, d)
    ensures Told(d) == Told(c) && d.tiles == c.tiles && (EveryWriteGood(c.log) ==> EveryWriteGood(d.log))
  {
    hide EveryWriteGood, Replay;
  }

  lemma NextKind(c: Conn)
    requires Named(c) && NextItem(c).Some?
    ensures var item := NextItem(c).value;
            (item.WsRequest? <==> WsHeader in c.dirty)
              && (IsHeader(item) <==> WsHeader !in c.dirty && Header in c.dirty)
  {
  }

  lemma QueueFlags(c: Conn, item: Item)
    ensures var d := Queue(c, item);
            && (WsHeader in d.dirty <==> WsHeader in c.dirty && !item.WsRequest?)
            && (Header in d.dirty <==> Header in c.dirty && !IsHeader(item))
  {
    hide Encode;
  }

  lemma OrderLast(items: seq<Item>, item: Item)
    requires InOrder(items)
    requires (item.WsRequest? <==> |items| == 0) && (IsHeader(item) <==> |items| == 1)
    ensures InOrder(items + [item])
  {
    var all := items + [item];
    assert forall i :: 0 <= i < |items| ==> all[i] == items[i];
  }

  /** The most urgent item goes out when its turn has come in the stream too. */
  lemma QueueOrder(c: Conn, items: seq<Item>)
    requires Named(c) && NextItem(c).Some? && InOrder(items)
    requires (WsHeader in c.dirty <==> |items| < 1) && (Header in c.dirty <==> |items| < 2)
    ensures var item := NextItem(c).value;
            && InOrder(items + [item])
            && var d := Queue(c, item);
               (WsHeader in d.dirty <==> |items| + 1 < 1) && (Header in d.dirty <==> |items| + 1 < 2)
  {
    hide NextItem, Queue, InOrder;
    var item := NextItem(c).value;
    NextKind(c);
    QueueFlags(c, item);
    OrderLast(items, item);
  }

  lemma QueueTold(c: Conn, item: Item)
    requires item.MoveTile? ==> c.tiles != [] && item.tile == c.tiles[0]
    ensures var d := Queue(c, item);
            && Told(d) == Note(Told(c), Queued(item)) && d.output == c.output + Encode(item) && d.sock == c.sock
            && (EveryWriteGood(c.log) ==> EveryWriteGood(d.log)) && Moves(d) == Moves(c)
  {
    hide Replay, EveryWriteGood, Encode, FlagsOf;
    ReplayLast(c.log, Queued(item));
    if EveryWriteGood(c.log) { WritesLast(c.log, Queued(item)); }
    if item.MoveTile? {
      assert c.tiles == [c.tiles[0]] + c.tiles[1..];
    }
  }

  lemma NextMove(c: Conn)
    requires Named(c) && NextItem(c).Some? && NextItem(c).value.MoveTile?
    ensures c.tiles != [] && NextItem(c).value.tile == c.tiles[0]
  {
  }

  lemma QueueCarries(c: Conn)
    requires Named(c) && c.sock != -1 && NextItem(c).Some?
    ensures Carries(c, Queue(c, NextItem(c).value)) && Queue(c, NextItem(c).value).sock == c.sock
  {
    hide Replay, EveryWriteGood, Encode, InOrder, Bytes, NextItem, Queue, Moves;
    var item := NextItem(c).value;
    if item.MoveTile? { NextMove(c); }
    QueueTold(c, item);
    var h := Told(c);
    if Streaming(c) {
      QueueOrder(c, h.items);
      BytesLast(h.items, item);
      assert h.sent + (c.output + Encode(item)) == h.sent + c.output + Encode(item);
    }
  }

  lemma {:induction false} FillCarries(c: Conn)
    requires Named(c) && |c.output| <= BUFFER_SIZE && c.sock != -1
    ensures Carries(c, Fill(c)) && Fill(c).sock == c.sock
    decreases BUFFER_SIZE - |c.output|
  {
    hide Carries, Queue, NextItem, FitsIn, Encode, Named;
    var item := NextItem(c);
    if item.Some? && FitsIn(c, item.value) {
      QueueCarries(c);
      FillCarries(Queue(c, item.value));
      CarriesOn(c, Queue(c, item.value), Fill(Queue(c, item.value)));
    } else {
      CarriesSelf(c);
    }
  }

  lemma CarriesSelf(c: Conn)
    ensures Carries(c, c)
  {
  }

  lemma AcceptTold(c: Conn, n: nat)
    ensures var d, k := Accept(c, n), if n <= |c.output| then n else |c.output|;
            && Told(d) == Note(Told(c), Sent(c.output, k)) && d.output == c.output[k..]
            && d.sock == c.sock && d.dirty == c.dirty && d.tiles == c.tiles && d.log == c.log + [Sent(c.output, k)]
  {
    hide Replay;
    ReplayLast(c.log, Sent(c.output, if n <= |c.output| then n else |c.output|));
  }

  /** A write takes some bytes from the front of the buffer. */
  lemma AcceptCarries(c: Conn, n: nat)
    requires c.sock != -1 && Streaming(c)
    ensures Carries(c, Accept(c, n)) && Accept(c, n).sock == c.sock
  {
    hide Replay, EveryWriteGood, InOrder, Bytes, Accept;
    AcceptTold(c, n);
    var k := if n <= |c.output| then n else |c.output|;
    var h := Told(c);
    if EveryWriteGood(c.log) { WritesLast(c.log, Sent(c.output, k)); }
    assert h.sent + c.output[..k] + c.output[k..] == h.sent + c.output;
  }

  lemma KeepAliveMute(c: Conn, at: int)
    ensures Mute(c, c.(keepAliveAt := at))
  {
    hide Replay, EveryWriteGood;
  }

  lemma HandleWriteCarries(c: Conn, r: WriteResult, t: ErrorTimes)
    requires Named(c) && |c.output| <= BUFFER_SIZE && c.sock != -1 && Streaming(c)
    ensures Carries(c, HandleWrite(c, r, t))
  {
    hide Carries, Fill, Accept, UpdatePoll, ReportError, Streaming, Named;
    var d := Fill(c);
    FillCarries(c);
    CarriesStreaming(c, d);
    match r
    case WriteBlocked =>
      AcceptCarries(d, 0);
      CarriesOn(c, d, Accept(d, 0));
    case WriteFailed =>
      AcceptCarries(d, 0);
      CarriesOn(c, d, Accept(d, 0));
      MuteReportError(Accept(d, 0), t);
      MuteCarries(Accept(d, 0), ReportError(Accept(d, 0), t));
      CarriesOn(c, Accept(d, 0), ReportError(Accept(d, 0), t));
    case Wrote(n) =>
      AcceptCarries(d, n);
      var e := Accept(d, n);
      CarriesOn(c, d, e);
      var f := e.(keepAliveAt := t.retry + KEEP_ALIVE_TIME);
      KeepAliveMute(e, t.retry + KEEP_ALIVE_TIME);
      MuteCarries(e, f);
      CarriesOn(c, e, f);
      MuteUpdatePoll(f);
      MuteCarries(f, UpdatePoll(f));
      CarriesOn(c, f, UpdatePoll(f));
  }

  lemma CarriesStreaming(c: Conn, d: Conn)
    requires Carries(c, d) && Streaming(c)
    ensures Streaming(d)
  {
    hide Streaming, EveryWriteGood, Moves;
  }

  // ---------- everything else ----------

  lemma DeliverMute(c: Conn, payload: seq<byte>, now: Time)
    requires Accepted(payload)
    ensures Mute(c, Deliver(c, payload, now))
  {
    hide Replay, EveryWriteGood, Accepted;
    var d := Absorb(c, payload, now);
    PlainEffects(c.log, [MessageReceived(payload, d.synced)]);
  }

  lemma MuteSelf(c: Conn)
    ensures Mute(c, c)
  {
  }

  lemma {:induction false} DeliverAllMute(c: Conn, payloads: seq<seq<byte>>, now: Time)
    requires AllAccepted(payloads)
    ensures Mute(c, DeliverAll(c, payloads, now))
    decreases |payloads|
  {
    hide Mute, Deliver, Accepted;
    if payloads == [] {
      MuteSelf(c);
    } else {
      var m := |payloads| - 1;
      var d := DeliverAll(c, payloads[..m], now);
      DeliverAllMute(c, payloads[..m], now);
      DeliverMute(d, payloads[m], now);
      MuteMute(c, d, DeliverAll(c, payloads, now));
    }
  }

  lemma InputMute(c: Conn, wsPos: nat, input: seq<byte>)
    ensures Mute(c, c.(wsPos := wsPos, input := input)) && Mute(c, c.(input := input))
  {
    hide Replay, EveryWriteGood;
  }

  lemma PersonMute(c: Conn, person: seq<byte>)
    ensures Mute(c, c.(person := person))
  {
    hide Replay, EveryWriteGood;
  }

  lemma RejectMute(c: Conn, t: Trouble)
    ensures Mute(c, Reject(c, t))
  {
    hide Mute;
    MuteSelf(c);
    if t.Rejected? && |t.payload| >= 9 { PersonMute(c, t.payload[1..9]); }
  }

  lemma ProcessMute(c: Conn, bytes: seq<byte>, now: Time, t: ErrorTimes)
    ensures Mute(c, Process(c, bytes, now, t))
  {
    hide Mute, Parse, DeliverAll, UpdatePoll, ReportError, Reject, AllAccepted;
    ParsedAccepted(bytes);
    var p := Parse(bytes);
    var d := DeliverAll(c, p.payloads, now);
    DeliverAllMute(c, p.payloads, now);
    if p.More? {
      var e := d.(input := p.rest);
      InputMute(d, 0, p.rest);
      MuteMute(c, d, e);
      MuteUpdatePoll(e);
      MuteMute(c, e, UpdatePoll(e));
    } else {
      var e := Reject(d, p.trouble);
      RejectMute(d, p.trouble);
      MuteMute(c, d, e);
      MuteReportError(e, t);
      MuteMute(c, e, ReportError(e, t));
    }
  }

  lemma HaltMute(c: Conn)
    requires Inv(c)
    ensures Mute(c, Halt(c))
  {
    hide Mute, UpdatePoll, Closed, Cancelled, Abandoned, Inv;
    HaltedMute(c);
    match c.state
    case Disconnected => MuteSelf(c);
    case WaitingForReconnect =>
      var d := Cancelled(c);
      MuteUpdatePoll(d);
      MuteMute(c, d, UpdatePoll(d));
    case WaitingForConfiguration =>
    case _ =>
      MuteUpdatePoll(Closed(c));
      MuteMute(c, Closed(c), UpdatePoll(Closed(c)));
  }

  lemma HaltedMute(c: Conn)
    ensures Mute(c, Closed(c)) && Mute(c, Cancelled(c)) && Mute(c, Abandoned(c))
  {
    hide Replay, EveryWriteGood;
  }

  lemma ScheduledMute(c: Conn, at: int, state: RunState)
    ensures Mute(c, c.(timeout := 0, reconnectAt := at, state := state))
  {
    hide Replay, EveryWriteGood;
  }

  lemma StartMute(c: Conn, now: Time)
    ensures Mute(c, StartConnecting(c, now))
  {
    hide Mute, UpdatePoll;
    ScheduledMute(c, now, WaitingForReconnect);
    ScheduledMute(c, NEVER, WaitingForConfiguration);
    var d := c.(timeout := 0, reconnectAt := now, state := WaitingForReconnect);
    MuteUpdatePoll(d);
    MuteMute(c, d, UpdatePoll(d));
  }

  lemma SetRunningMute(c: Conn, running: bool, now: Time)
    requires Inv(c)
    ensures Mute(c, SetRunning(c, running, now))
  {
    hide Mute, Halt, StartConnecting, Inv;
    HaltMute(c);
    StartMute(c, now);
    MuteSelf(c);
    if running != IsRunning(c) {
      var d := SetRunningInternal(c, running, now);
      MuteEmit(d, RunningChanged(running, d.synced));
      MuteMute(c, d, SetRunning(c, running, now));
    }
  }

  lemma DigestMute(c: Conn, input: seq<byte>, now: Time, t: ErrorTimes)
    requires c.wsPos <= 4
    ensures Mute(c, Digest(c, input, now, t))
  {
    hide Mute, Match, Process;
    var (q, n) := Match(c.wsPos, input);
    InputMute(c, q, []);
    InputMute(c, 4, input);
    if q == 4 {
      var d := c.(wsPos := 4, input := input);
      ProcessMute(d, input[n..], now, t);
      MuteMute(c, d, Process(d, input[n..], now, t));
    }
  }

  lemma HandleReadMute(c: Conn, r: ReadResult, now: Time, t: ErrorTimes)
    requires Inv(c) && |c.input| <= BUFFER_SIZE && c.wsPos <= 4
    ensures Mute(c, HandleRead(c, r, now, t))
  {
    hide Mute, Inv, ReportError, SetRunning, Digest, Room;
    MuteSelf(c);
    MuteReportError(c, t);
    SetRunningMute(c, false, t.retry);
    match r
    case ReadBlocked =>
    case ReadFailed =>
    case Got(bytes) =>
      var d := Emit(c, Received(Room(c, bytes)));
      MuteEmit(c, Received(Room(c, bytes)));
      DigestMute(d, c.input + Room(c, bytes), now, t);
      MuteMute(c, d, Digest(d, c.input + Room(c, bytes), now, t));
  }

  lemma ConnectingCarries(c: Conn, fd: nat, done: bool)
    ensures Carries(c, Connecting(c, fd, done))
  {
    hide Replay, EveryWriteGood;
    ReplayLast(c.log, Opened(fd));
    if EveryWriteGood(c.log) { WritesLast(c.log, Opened(fd)); }
  }

  lemma TryingMute(c: Conn, sock: int, t: ErrorTimes)
    requires c.sock == -1
    ensures Mute(c, Broken(Trying(c, sock), t))
  {
    hide Replay, EveryWriteGood;
  }

  lemma FailedTryMute(c: Conn, sock: int, t: ErrorTimes)
    requires c.sock == -1
    ensures Mute(c, ReportError(Trying(c, sock), t))
  {
    hide UpdatePoll, Mute, Broken;
    var d := Broken(Trying(c, sock), t);
    TryingMute(c, sock, t);
    MuteUpdatePoll(d);
    MuteMute(c, d, UpdatePoll(d));
    var e := UpdatePoll(d);
    MuteEmit(e, ErrorReported(e.synced));
    MuteMute(c, e, Emit(e, ErrorReported(e.synced)));
  }

  lemma TryReconnectCarries(c: Conn, r: ConnectResult, t: ErrorTimes)
    requires c.sock == -1
    ensures Carries(c, TryReconnect(c, r, t))
  {
    hide Carries, Mute, UpdatePoll, Connecting, ReportError, Trying;
    match r
    case NoSocket => FailedTryMute(c, -1, t); MuteCarries(c, TryReconnect(c, r, t));
    case NotReady(fd) => FailedTryMute(c, fd, t); MuteCarries(c, TryReconnect(c, r, t));
    case Refused(fd) => FailedTryMute(c, fd, t); MuteCarries(c, TryReconnect(c, r, t));
    case InProgress(fd) => ConnectedCarries(c, fd, false);
    case Connected(fd) => ConnectedCarries(c, fd, true);
  }

  lemma ConnectedCarries(c: Conn, fd: nat, done: bool)
    ensures Carries(c, UpdatePoll(Connecting(c, fd, done)))
  {
    hide Carries, Mute, UpdatePoll, Connecting;
    var d := Connecting(c, fd, done);
    ConnectingCarries(c, fd, done);
    MuteUpdatePoll(d);
    MuteCarries(d, UpdatePoll(d));
    CarriesOn(c, d, UpdatePoll(d));
  }

  lemma AwakeMute(c: Conn, ready: ConnState.Ready, now: Instant)
    ensures Mute(c, Awake(c, ready, now))
  {
    hide Replay, EveryWriteGood;
  }

  lemma WakeUpCarries(c: Conn, ready: ConnState.Ready, w: World)
    requires Inv(c) && Streaming(c)
    ensures Carries(c, WakeUp(c, ready, w))
  {
    hide Inv, Carries, Mute, Streaming, UpdatePoll, Awake, TryReconnect, HandleRead, HandleWrite;
    InvNamed(c);
    if c.sock == -1 {
      if w.now >= c.reconnectAt { TryReconnectCarries(c, w.connect, w.times); } else { CarriesSelf(c); }
    } else {
      var d := Awake(c, ready, w.now);
      AwakeMute(c, ready, w.now);
      MuteCarries(c, d);
      CarriesStreaming(c, d);
      InvAwake(c, ready, w.now);
      InvNamed(d);
      if ready.readable {
        HandleReadMute(d, w.read, w.arrival, w.times);
        MuteCarries(d, WakeUp(c, ready, w));
      } else if ready.writable {
        HandleWriteCarries(d, w.write, w.times);
      } else {
        MuteUpdatePoll(d);
        MuteCarries(d, UpdatePoll(d));
      }
      CarriesOn(c, d, WakeUp(c, ready, w));
    }
  }

  // ---------- whole steps ----------

  /** A request that has been noted; asking for tiles to move is looked at separately. */
  lemma RequestMute(c: Conn, d: Conn)
    requires d ==
             c.(typing := d.typing, dirty := d.dirty, messages := d.messages, nTiles := d.nTiles,
                language := d.language)
    requires (WsHeader in d.dirty <==> WsHeader in c.dirty) && (Header in d.dirty <==> Header in c.dirty)
    ensures Mute(c, d) && Mute(c, UpdatePoll(d))
  {
    hide Replay, EveryWriteGood, UpdatePoll;
    MuteUpdatePoll(d);
  }

  /** Learning more of the configuration. */
  lemma LearnMute(c: Conn, d: Conn, now: Time)
    requires Learns(c, d)
    ensures Mute(c, MaybeStart(d, now))
  {
    hide Replay, EveryWriteGood, StartConnecting;
    StartMute(d, now);
  }

  lemma RequestsMute(c: Conn, op: Op)
    requires Inv(c) && IsRequest(op) && !op.DoMove?
    ensures Mute(c, Step(c, op))
  {
    hide Inv, Mute, Step, Noted, UpdatePoll;
    StepRequest(c, op);
    NotedFields(c, op);
    RequestMute(c, Noted(c, op));
  }

  lemma LearningMute(c: Conn, op: Op)
    requires Inv(c) && IsLearning(op)
    ensures Mute(c, Step(c, op))
  {
    hide Inv, Mute, Step, MaybeStart, Learnt;
    StepLearning(c, op);
    LearntLearns(c, op);
    MuteSelf(c);
    LearnMute(c, Learnt(c, op), TimeOf(op));
  }

  /** Every step but a request for a move and a reset. */
  lemma StepCarries(c: Conn, op: Op)
    requires Inv(c) && Streaming(c) && !op.DoMove? && !op.DoReset?
    ensures Carries(c, Step(c, op))
  {
    hide Inv, Streaming, Carries, Mute, UpdatePoll, WakeUp, MaybeStart, SetRunning;
    if op.DoWakeUp? {
      WakeUpCarries(c, op.ready, op.world);
    } else {
      StepMute(c, op);
      MuteCarries(c, Step(c, op));
    }
  }

  lemma StepMute(c: Conn, op: Op)
    requires Inv(c) && !op.DoMove? && !op.DoReset? && !op.DoWakeUp?
    ensures Mute(c, Step(c, op))
  {
    hide Inv, Mute, UpdatePoll, MaybeStart, SetRunning;
    if IsRequest(op) {
      RequestsMute(c, op);
    } else if IsLearning(op) {
      LearningMute(c, op);
    } else {
      SetRunningMute(c, op.running, op.now);
    }
  }

  /** Requesting a move changes only the moves that wait. */
  lemma MoveStreams(c: Conn, tile: Tile)
    requires Streaming(c) && EveryWriteGood(c.log)
    ensures var d := RequestMove(c, tile);
            Streaming(d) && EveryWriteGood(d.log) && Told(d) == Told(c) && d.tiles == Squash(c.tiles, tile)
  {
    hide Replay, EveryWriteGood, InOrder, Bytes, UpdatePoll, Squash, Mute;
    var d := c.(tiles := Squash(c.tiles, tile));
    MuteUpdatePoll(d);
    MuteFields(d, UpdatePoll(d));
    MuteKeeps(d, UpdatePoll(d));
  }

  lemma ResetStreams(c: Conn)
    requires Streaming(c) && EveryWriteGood(c.log)
    ensures Streaming(Reset(c)) && EveryWriteGood(Reset(c).log)
  {
    hide Replay, EveryWriteGood, InOrder, Bytes, UpdatePoll, Mute;
    var d := Cleared(c);
    assert Streaming(d);
    ClearedStop(d);
    var e := SetRunning(d, false, 0);
    MuteKeeps(d, e);
    MuteFields(d, e);
    MuteUpdatePoll(e);
    MuteKeeps(e, UpdatePoll(e));
    MuteFields(e, UpdatePoll(e));
  }

  lemma ClearedStop(d: Conn)
    requires d.sock == -1
    ensures Mute(d, SetRunning(d, false, 0))
  {
    hide Mute, UpdatePoll, Closed, Cancelled, Abandoned;
    MuteSelf(d);
    HaltedMute(d);
    var closed, waiting := Closed(d), Cancelled(d);
    MuteUpdatePoll(closed);
    MuteMute(d, closed, UpdatePoll(closed));
    MuteUpdatePoll(waiting);
    MuteMute(d, waiting, UpdatePoll(waiting));
    if IsRunning(d) {
      var e := Halt(d);
      MuteEmit(e, RunningChanged(false, e.synced));
      MuteMute(d, e, Emit(e, RunningChanged(false, e.synced)));
    }
  }

  lemma StepStreams(c: Conn, op: Op)
    requires Inv(c) && Streaming(c) && EveryWriteGood(c.log)
    ensures Streaming(Step(c, op)) && EveryWriteGood(Step(c, op).log)
  {
    hide Inv, Streaming, EveryWriteGood, RequestMove, Reset, Moves;
    match op
    case DoMove(tile) => MoveStreams(c, tile);
    case DoReset => ResetStreams(c);
    case _ => StepCarries(c, op);
  }

  lemma NewStreams()
    ensures Streaming(New()) && EveryWriteGood(New().log)
  {
    hide Reset;
    InvReset(Blank());
  }

  // ---------- main results ----------

  /** On every socket ever opened, at every attempt to write, the bytes passed continue one WebSocket request, then
      exactly one header command, then whole commands in the order they were queued; and the output buffer never
      overflows. */
  lemma {:induction false} EverySocketStream(ops: seq<Op>)
    ensures Inv(New())
    ensures var c := Run(New(), ops); Streaming(c) && EveryWriteGood(c.log) && |c.output| <= BUFFER_SIZE
    decreases |ops|
  {
    hide Inv, Streaming, EveryWriteGood, Step, New;
    InvNew();
    if ops == [] {
      NewStreams();
      InvNamed(New());
    } else {
      var m := |ops| - 1;
      EverySocketStream(ops[..m]);
      StepStreams(Run(New(), ops[..m]), ops[m]);
      InvNamed(Run(New(), ops));
    }
  }

  // ---------- moves of tiles ----------

  /** Where the tiles lie after some moves. */
  function Place(board: map<int, (int, int)>, moves: seq<Tile>): map<int, (int, int)> {
    if moves == [] then board
    else
      var t := moves[|moves| - 1];
      Place(board, moves[..|moves| - 1])[t.num := (t.x, t.y)]
  }

  lemma {:induction false} PlaceConcat(board: map<int, (int, int)>, a: seq<Tile>, b: seq<Tile>)
    ensures Place(board, a + b) == Place(Place(board, a), b)
  {
    if b == [] {
      assert a + b == a;
    } else {
      PlaceConcat(board, a, b[..|b| - 1]);
      assert (a + b)[..|a + b| - 1] == a + b[..|b| - 1];
    }
  }

  lemma PlaceOne(board: map<int, (int, int)>, t: Tile)
    ensures Place(board, [t]) == board[t.num := (t.x, t.y)]
  {
    assert [t][..0] == [];
  }

  /** A tile that no later move touches stays where it was put. */
  lemma {:induction false} PlaceOther(board: map<int, (int, int)>, t: Tile, moves: seq<Tile>)
    requires forall i :: 0 <= i < |moves| ==> moves[i].num != t.num
    ensures Place(board[t.num := (t.x, t.y)], moves) == Place(board, moves)[t.num := (t.x, t.y)]
  {
    if moves != [] { PlaceOther(board, t, moves[..|moves| - 1]); }
  }

  /** Taking the new place in the list has the effect of one more move at the end. */
  lemma {:induction false} SquashPlace(board: map<int, (int, int)>, tiles: seq<Tile>, t: Tile)
    requires Distinct(tiles)
    ensures Place(board, Squash(tiles, t)) == Place(board, tiles)[t.num := (t.x, t.y)]
    decreases |tiles|
  {
    if tiles == [] {
      PlaceOne(board, t);
    } else {
      var first, rest := tiles[0], tiles[1..];
      assert tiles == [first] + rest;
      PlaceConcat(board, [first], rest);
      PlaceOne(board, first);
      if first.num == t.num {
        PlaceConcat(board, [t], rest);
        PlaceOne(board, t);
        PlaceOther(board, t, rest);
        PlaceOther(board, first, rest);
      } else {
        PlaceConcat(board, [first], Squash(rest, t));
        SquashPlace(board[first.num := (first.x, first.y)], rest, t);
      }
    }
  }

  /** And nothing else in the list changes: a tile that is not in it goes to the end. */
  lemma {:induction false} SquashInPlace(tiles: seq<Tile>, t: Tile)
    requires Distinct(tiles)
    ensures var after := Squash(tiles, t);
            && (forall i :: 0 <= i < |tiles| ==>
                  i < |after| && after[i] == if tiles[i].num == t.num then t else tiles[i])
            && (if exists i :: 0 <= i < |tiles| && tiles[i].num == t.num then |after| == |tiles|
                else after == tiles + [t])
    decreases |tiles|
  {
    if tiles != [] {
      var rest := tiles[1..];
      assert tiles == [tiles[0]] + rest;
      if tiles[0].num != t.num {
        SquashInPlace(rest, t);
        assert forall i :: 0 <= i < |rest| ==> rest[i] == tiles[i + 1];
        assert [tiles[0]] + (rest + [t]) == tiles + [t];
      }
    }
  }

  /** The moves that were asked for. */
  function Requested(ops: seq<Op>): seq<Tile> {
    if ops == [] then []
    else Requested(ops[..|ops| - 1]) + if ops[|ops| - 1].DoMove? then [ops[|ops| - 1].tile] else []
  }

  ghost predicate NoReset(ops: seq<Op>) {
    forall i :: 0 <= i < |ops| ==> !ops[i].DoReset?
  }

  lemma StepMoves(board: map<int, (int, int)>, c: Conn, op: Op)
    requires Inv(c) && Streaming(c) && EveryWriteGood(c.log) && !op.DoReset?
    ensures Place(board, Moves(Step(c, op))) == Place(Place(board, Moves(c)), if op.DoMove? then [op.tile] else [])
  {
    hide Inv, Streaming, EveryWriteGood, RequestMove, Squash, Told, Place;
    PlaceNothing(Place(board, Moves(c)));
    if op.DoMove? {
      MoveStreams(c, op.tile);
      InvDistinct(c);
      var sent := Told(c).moves;
      PlaceConcat(board, sent, c.tiles);
      PlaceConcat(board, sent, Squash(c.tiles, op.tile));
      SquashPlace(Place(board, sent), c.tiles, op.tile);
      PlaceOne(Place(board, Moves(c)), op.tile);
    } else {
      StepCarries(c, op);
    }
  }

  lemma PlaceNothing(board: map<int, (int, int)>)
    ensures Place(board, []) == board
  {
  }

  /** Without a reset, the moves queued and then those still pending have the effect of all moves requested, on any
      board; and no two pending moves are of the same tile. */
  lemma {:induction false} MovesSquashed(ops: seq<Op>, board: map<int, (int, int)>)
    requires NoReset(ops)
    ensures Inv(New())
    ensures var c := Run(New(), ops);
            Place(board, Told(c).moves + c.tiles) == Place(board, Requested(ops)) && Distinct(c.tiles)
    decreases |ops|
  {
    hide Inv, Streaming, EveryWriteGood, Step, New, Place, Told, Distinct;
    InvNew();
    if ops == [] {
      NewMoves();
      InvDistinct(New());
    } else {
      var m := |ops| - 1;
      var c, d := Run(New(), ops[..m]), Run(New(), ops);
      MovesSquashed(ops[..m], board);
      EverySocketStream(ops[..m]);
      StepMoves(board, c, ops[m]);
      PlaceConcat(board, Requested(ops[..m]), if ops[m].DoMove? then [ops[m].tile] else []);
      InvDistinct(d);
    }
  }

  lemma NewMoves()
    ensures Told(New()).moves + New().tiles == []
  {
    hide PollFor, PollEffects;
  }

  // ---------- priorities ----------

  /** The order of urgency. */
  function Rank(item: Item): nat {
    match item
    case WsRequest => 0
    case Rejoin(_, _) => 1
    case Join(_, _) => 1
    case NewPlayer(_, _) => 1
    case NewPrivate(_, _) => 1
    case StayAlive => 2
    case SetNTiles(_) => 3
    case SetLanguage(_) => 4
    case LeaveGame => 5
    case ShoutOut => 6
    case EndTurn => 7
    case MoveTile(_) => 8
    case Say(_) => 9
    case Type(_) => 10
  }

  /** Something of this rank is waiting. */
  predicate Waiting(c: Conn, rank: nat) {
    match rank
    case 0 => WsHeader in c.dirty
    case 1 => Header in c.dirty
    case 2 => KeepAlive in c.dirty
    case 3 => NTiles in c.dirty
    case 4 => Language in c.dirty
    case 5 => Leave in c.dirty
    case 6 => Shout in c.dirty
    case 7 => Turn in c.dirty
    case 8 => c.tiles != []
    case 9 => c.messages != []
    case 10 => c.typing != c.sentTyping
    case _ => false
  }

  /** What goes next is waiting, and nothing more urgent is. */
  lemma NextIsMostUrgent(c: Conn)
    requires Named(c)
    ensures NextItem(c).None? <==> forall rank: nat :: !Waiting(c, rank)
    ensures NextItem(c).Some? ==> Waiting(c, Rank(NextItem(c).value))
    ensures NextItem(c).Some? ==> forall rank: nat :: rank < Rank(NextItem(c).value) ==> !Waiting(c, rank)
  {
    if NextItem(c).Some? { assert Waiting(c, Rank(NextItem(c).value)); }
  }

  /** Queueing an item makes nothing more urgent wait. */
  lemma QueueWaits(c: Conn, item: Item, rank: nat)
    requires rank < Rank(item) && !Waiting(c, rank)
    ensures !Waiting(Queue(c, item), rank)
  {
    hide Encode;
  }

  /** The items that filling the buffer queues. */
  function Filled(c: Conn): seq<Item>
    requires Named(c) && |c.output| <= BUFFER_SIZE
    decreases BUFFER_SIZE - |c.output|
  {
    hide *;
    var item := NextItem(c);
    if item.None? || !FitsIn(c, item.value) then [] else [item.value] + Filled(Queue(c, item.value))
  }

  ghost predicate ByRank(items: seq<Item>, from: nat) {
    forall i, j :: 0 <= i <= j < |items| ==> from <= Rank(items[i]) <= Rank(items[j])
  }

  lemma ByRankFirst(item: Item, rest: seq<Item>, from: nat)
    requires from <= Rank(item) && ByRank(rest, Rank(item))
    ensures ByRank([item] + rest, from)
  {
    var all := [item] + rest;
    forall i, j | 0 <= i <= j < |all|
      ensures from <= Rank(all[i]) <= Rank(all[j])
    {
      if i > 0 {
        assert all[i] == rest[i - 1] && all[j] == rest[j - 1];
      } else if j > 0 {
        assert all[j] == rest[j - 1];
        assert Rank(item) <= Rank(rest[j - 1]) <= Rank(rest[j - 1]);
      }
    }
  }

  /** Filling the buffer queues the items in order of urgency, and stops only when nothing is waiting or the most urgent
      item does not fit: nothing less urgent overtakes it. */
  lemma {:induction false} NoOvertaking(c: Conn, from: nat)
    requires Named(c) && |c.output| <= BUFFER_SIZE && forall rank: nat :: rank < from ==> !Waiting(c, rank)
    ensures Told(Fill(c)).items == Told(c).items + Filled(c) && ByRank(Filled(c), from)
    ensures var d := Fill(c);
            Named(d) && (NextItem(d).None? || |d.output| + |Encode(NextItem(d).value)| > BUFFER_SIZE)
    decreases BUFFER_SIZE - |c.output|
  {
    hide Queue, NextItem, FitsIn, Encode, Named, Waiting, Rank, ByRank, Replay;
    var item := NextItem(c);
    NextIsMostUrgent(c);
    if item.Some? && FitsIn(c, item.value) {
      var rank, d := Rank(item.value), Queue(c, item.value);
      forall r: nat | r < rank
        ensures !Waiting(d, r)
      {
        QueueWaits(c, item.value, r);
      }
      NoOvertaking(d, rank);
      ByRankFirst(item.value, Filled(d), from);
      QueueItems(c, item.value);
      assert Told(c).items + [item.value] + Filled(d) == Told(c).items + ([item.value] + Filled(d));
    } else {
      NothingFilled(from);
      assert Told(c).items + [] == Told(c).items;
    }
  }

  lemma NothingFilled(from: nat)
    ensures ByRank([], from)
  {
  }

  lemma QueueItems(c: Conn, item: Item)
    ensures Told(Queue(c, item)).items == Told(c).items + [item]
  {
    hide Replay, Encode, FlagsOf;
    ReplayLast(c.log, Queued(item));
  }
}
