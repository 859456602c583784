/** The connection object of client/vsx-connection.c.  Every method does to its fields what the functions of ConnState
    say; the answers of the system and the clock are parameters. */
module Connection {
  import opened Bits
  import opened Options
  import opened Proto
  import opened Framing
  import opened ConnState
  import opened ConnInvariant

  // The fields in groups, so that a method that changes one group leaves the others alone.

  datatype Known = Known(hasAddress: bool, address: int, hasConversation: bool, conversation: seq<byte>,
                         room: Option<seq<byte>>, player: Option<seq<byte>>, hasPerson: bool, person: seq<byte>,
                         language: seq<byte>)
  datatype Game = Game(state: RunState, finished: bool, typing: bool, sentTyping: bool, writeFinished: bool,
                       nextMessage: nat, synced: bool)
  datatype Times = Times(timeout: nat, reconnectAt: int, playerIdAt: int, keepAliveAt: int)
  datatype Waiting = Waiting(dirty: set<Flag>, tiles: seq<Tile>, messages: seq<seq<byte>>, nTiles: int)
  datatype Wire = Wire(sock: int, poll: Poll, output: seq<byte>, input: seq<byte>, wsPos: nat, log: seq<Effect>)

  ghost function Whole(k: Known, g: Game, t: Times, w: Waiting, x: Wire): ConnState.Conn {
    ConnState.Conn(k.hasAddress, k.address, k.hasConversation, k.conversation, k.room, k.player, k.hasPerson, k.person,
                   g.state, g.finished, g.typing, g.sentTyping, g.writeFinished, g.nextMessage,
                   t.timeout, t.reconnectAt, t.playerIdAt, w.dirty, w.tiles, w.messages, w.nTiles, k.language,
                   x.sock, x.poll, g.synced, t.keepAliveAt, x.output, x.input, x.wsPos, x.log)
  }

  class Conn {
    var hasAddress: bool
    var address: int
    var hasConversation: bool
    var conversation: seq<byte>
    var room: Option<seq<byte>>
    var player: Option<seq<byte>>
    var hasPerson: bool
    var person: seq<byte>
    var state: RunState
    var finished: bool
    var typing: bool
    var sentTyping: bool
    var writeFinished: bool
    var nextMessage: nat
    var timeout: nat
    var reconnectAt: int
    var playerIdAt: int
    var dirty: set<Flag>
    var tiles: seq<Tile>
    var messages: seq<seq<byte>>
    var nTiles: int
    var language: seq<byte>
    var sock: int
    var poll: Poll
    var synced: bool
    var keepAliveAt: int
    const outputBuffer: array<byte>
    var outputLength: nat
    const inputBuffer: array<byte>
    var inputLength: nat
    var wsPos: nat
    /** The used parts of the two buffers. */
    ghost var output: seq<byte>
    ghost var input: seq<byte>
    /** What the listeners and the system have been told. */
    ghost var log: seq<Effect>

    ghost predicate Valid()
      reads this`outputLength, this`inputLength, this`output, this`input, outputBuffer, inputBuffer
    {
      && outputBuffer.Length == BUFFER_SIZE && inputBuffer.Length == BUFFER_SIZE && outputBuffer != inputBuffer
      && outputLength <= BUFFER_SIZE && outputBuffer[..outputLength] == output
      && inputLength <= BUFFER_SIZE && inputBuffer[..inputLength] == input
    }

    ghost function KnownNow(): Known
      reads this`hasAddress, this`address, this`hasConversation, this`conversation, this`room, this`player,
            this`hasPerson, this`person, this`language
    {
      Known(hasAddress, address, hasConversation, conversation, room, player, hasPerson, person, language)
    }

    ghost function GameNow(): Game
      reads this`state, this`finished, this`typing, this`sentTyping, this`writeFinished, this`nextMessage, this`synced
    {
      Game(state, finished, typing, sentTyping, writeFinished, nextMessage, synced)
    }

    ghost function TimesNow(): Times
      reads this`timeout, this`reconnectAt, this`playerIdAt, this`keepAliveAt
    {
      Times(timeout, reconnectAt, playerIdAt, keepAliveAt)
    }

    ghost function WaitingNow(): Waiting
      reads this`dirty, this`tiles, this`messages, this`nTiles
    {
      Waiting(dirty, tiles, messages, nTiles)
    }

    ghost function WireNow(): Wire
      reads this`sock, this`poll, this`output, this`input, this`wsPos, this`log
    {
      Wire(sock, poll, output, input, wsPos, log)
    }

    /** The abstract state. */
    ghost function Snapshot(): ConnState.Conn
      reads this
    {
      Whole(KnownNow(), GameNow(), TimesNow(), WaitingNow(), WireNow())
    }

    // ---------- polling ----------

    /** has_pending_data. */
    predicate HasPending()
      reads this`outputLength, this`dirty, this`tiles, this`messages, this`sentTyping, this`typing
    {
      outputLength > 0 || dirty != {} || tiles != [] || messages != [] || sentTyping != typing
    }

    lemma PollNow()
      requires Valid()
      ensures var c := Snapshot();
              && PollFor(c).read == (state == Running)
              && PollFor(c).write == (state == Reconnecting || (state == Running && !writeFinished && HasPending()))
              && ShouldShutDown(c) == (state == Running && !writeFinished && !HasPending() && finished)
              && c.writeFinished == writeFinished && c.log == log && c.sock == sock
    {
    }

    method FinishWriting()
      modifies this`writeFinished, this`log
      ensures GameNow() == old(GameNow()).(writeFinished := true)
      ensures WireNow() == old(WireNow()).(log := old(log) + [ShutDown(sock)])
    {
      log := log + [ShutDown(sock)];
      writeFinished := true;
    }

    lemma SameGroups(writing: bool)
      requires writing == writeFinished
      ensures GameNow().(writeFinished := writing) == GameNow() && WireNow().(log := log + []) == WireNow()
    {
      assert log + [] == log;
    }

    /** What to poll for; when there is nothing left to write the sending half may be shut down. */
    method CalculatePollEvents() returns (read: bool, write: bool)
      requires Valid()
      modifies this`writeFinished, this`log
      ensures var c := old(Snapshot());
              && read == PollFor(c).read && write == PollFor(c).write
              && GameNow() == old(GameNow()).(writeFinished := c.writeFinished || ShouldShutDown(c))
              && WireNow() == old(WireNow()).(log := c.log + if ShouldShutDown(c) then [ShutDown(c.sock)] else [])
    {
      hide Valid, Snapshot, PollFor, ShouldShutDown, GameNow, WireNow, HasPending;
      PollNow();
      SameGroups(writeFinished);
      read, write := false, false;
      match state {
        case Reconnecting => write := true;
        case Running =>
          read := true;
          if !writeFinished {
            if HasPending() {
              write := true;
            } else if finished {
              FinishWriting();
            }
          }
        case _ =>
      }
    }

    /** The part of update_poll that tells the listeners. */
    method AnnouncePoll(read: bool, write: bool)
      modifies this`log, this`poll
      ensures var p := Poll(sock, read, write, Min(Min(NEVER, reconnectAt), keepAliveAt));
              WireNow() ==
                old(WireNow()).(poll := p, log := old(log) + if old(poll) != p then [PollChanged(p, synced)] else [])
    {
      var wakeup := NEVER;
      if reconnectAt < wakeup { wakeup := reconnectAt; }
      if keepAliveAt < wakeup { wakeup := keepAliveAt; }
      if poll.fd != sock || poll.read != read || poll.write != write || poll.wakeup != wakeup {
        poll := Poll(sock, read, write, wakeup);
        log := log + [PollChanged(poll, synced)];
      }
    }

    method UpdatePoll()
      requires Valid()
      modifies this`writeFinished, this`log, this`poll
      ensures Snapshot() == ConnState.UpdatePoll(old(Snapshot()))
    {
      hide Valid, KnownNow, WaitingNow, TimesNow, Whole, PollFor, ShouldShutDown, ConnState.UpdatePoll;
      ghost var k, g, t, w, x := KnownNow(), GameNow(), TimesNow(), WaitingNow(), WireNow();
      WholeFields(k, g, t, w, x);
      TimesFields();
      var read, write := CalculatePollEvents();
      AnnouncePoll(read, write);
      PollWhole(k, g, t, w, x);
    }

    lemma TimesFields()
      ensures TimesNow().reconnectAt == reconnectAt && TimesNow().keepAliveAt == keepAliveAt
      ensures TimesNow().timeout == timeout && TimesNow().playerIdAt == playerIdAt
    {
    }

    /** emit_event and the traces left by system calls. */
    ghost method Tell(e: Effect)
      modifies this`log
      ensures Snapshot() == Emit(old(Snapshot()), e)
    {
      hide KnownNow, WaitingNow, TimesNow, GameNow;
      ghost var x := WireNow();
      log := log + [e];
    }

    // ---------- errors and reconnecting ----------

    method CloseSocket()
      modifies this`sock, this`keepAliveAt
      ensures sock == -1 && keepAliveAt == if old(sock) != -1 then NEVER else old(keepAliveAt)
    {
      if sock != -1 {
        sock := -1;
        keepAliveAt := NEVER;
      }
    }

    method SetReconnectTimestamp(now: Time)
      modifies this`reconnectAt, this`timeout
      ensures reconnectAt == now + old(timeout) && timeout == NextTimeout(old(timeout))
    {
      reconnectAt := now + timeout;
      if timeout == 0 {
        timeout := INITIAL_TIMEOUT;
      } else {
        timeout := timeout * 2;
        if timeout > MAX_TIMEOUT {
          timeout := MAX_TIMEOUT;
        }
      }
    }

    /** The first half of report_error. */
    method Break(t: ErrorTimes)
      modifies this`sock, this`keepAliveAt, this`reconnectAt, this`timeout
      ensures WireNow() == old(WireNow()).(sock := -1)
      ensures TimesNow() == BrokenTimes(old(TimesNow()), old(sock), t)
    {
      hide NextTimeout;
      CloseSocket();
      if t.checked - STABLE_TIME >= playerIdAt {
        timeout := 0;
      }
      SetReconnectTimestamp(t.retry);
    }

    method ReportError(t: ErrorTimes)
      requires Valid()
      modifies this`sock, this`keepAliveAt, this`reconnectAt, this`timeout, this`writeFinished, this`log, this`poll
      ensures Snapshot() == ConnState.ReportError(old(Snapshot()), t)
    {
      hide Valid, KnownNow, GameNow, WaitingNow, TimesNow, Whole, Broken, BrokenTimes, ConnState.UpdatePoll, Emit;
      ghost var k, g, x, w, y := KnownNow(), GameNow(), TimesNow(), WaitingNow(), WireNow();
      Break(t);
      BrokenWhole(k, g, x, w, y, t);
      UpdatePoll();
      Fields();
      Tell(ErrorReported(synced));
    }

    /** The first half of try_reconnect, up to the socket that the system gives. */
    method Attempt(fd: int)
      requires sock == -1
      modifies this`sock, this`keepAliveAt, this`reconnectAt, this`playerIdAt
      ensures WireNow() == old(WireNow()).(sock := fd)
      ensures TimesNow() == old(TimesNow()).(reconnectAt := NEVER, playerIdAt := NEVER)
    {
      reconnectAt := NEVER;
      playerIdAt := NEVER;
      CloseSocket();
      sock := fd;
    }

    method StartOver(done: bool)
      modifies this`state, this`writeFinished, this`synced
      ensures GameNow() ==
              old(GameNow()).(state := if done then Running else Reconnecting, writeFinished := false, synced := false)
    {
      state := if done then Running else Reconnecting;
      writeFinished := false;
      synced := false;
    }

    method Raise(flags: set<Flag>)
      modifies this`dirty
      ensures WaitingNow() == old(WaitingNow()).(dirty := old(WaitingNow()).dirty + flags)
    {
      dirty := dirty + flags;
    }

    method EmptyBuffers()
      requires Valid()
      modifies this`outputLength, this`inputLength, this`wsPos, this`output, this`input
      ensures Valid() && WireNow() == old(WireNow()).(output := [], input := [], wsPos := 0)
    {
      outputLength, inputLength, wsPos := 0, 0, 0;
      output, input := [], [];
    }

    /** The rest of it, when there is a connection or soon will be. */
    method Adopt(fd: nat, done: bool)
      requires Valid()
      modifies this`state, this`dirty, this`outputLength, this`inputLength, this`wsPos, this`writeFinished, this`synced,
               this`output, this`input, this`log
      ensures Valid()
      ensures GameNow() ==
              old(GameNow()).(state := if done then Running else Reconnecting, writeFinished := false, synced := false)
      ensures WaitingNow() == old(WaitingNow()).(dirty := old(WaitingNow()).dirty + {WsHeader, Header})
      ensures var x := old(WireNow());
              WireNow() == x.(output := [], input := [], wsPos := 0).(log := x.log + [Opened(fd)])
    {
      hide Valid, GameNow, WaitingNow;
      StartOver(done);
      Raise({WsHeader, Header});
      EmptyBuffers();
      log := log + [Opened(fd)];
    }

    /** A failed attempt. */
    method FailToConnect(fd: int, t: ErrorTimes)
      requires Valid() && sock == -1
      modifies this`sock, this`keepAliveAt, this`reconnectAt, this`playerIdAt, this`timeout, this`writeFinished,
               this`log, this`poll
      ensures Snapshot() == ConnState.ReportError(Trying(old(Snapshot()), fd), t)
    {
      hide Valid, KnownNow, GameNow, WaitingNow, TimesNow, WireNow, Whole, Trying, ConnState.ReportError;
      ghost var k, g, x, w, y := KnownNow(), GameNow(), TimesNow(), WaitingNow(), WireNow();
      Attempt(fd);
      TryingWhole(k, g, x, w, y, fd);
      ReportError(t);
    }

    /** A successful one, or one that is still going on. */
    method Connect(fd: nat, done: bool)
      requires Valid() && sock == -1
      modifies this`sock, this`keepAliveAt, this`reconnectAt, this`playerIdAt, this`state, this`dirty,
               this`outputLength, this`inputLength, this`wsPos, this`writeFinished, this`synced, this`output,
               this`input, this`log, this`poll
      ensures Valid() && Snapshot() == ConnState.UpdatePoll(Connecting(old(Snapshot()), fd, done))
    {
      hide Valid, KnownNow, GameNow, WaitingNow, TimesNow, WireNow, Whole, Connecting, ConnState.UpdatePoll;
      ghost var k, g, x, w, y := KnownNow(), GameNow(), TimesNow(), WaitingNow(), WireNow();
      QueueFields();
      Attempt(fd);
      SocketField();
      Adopt(fd, done);
      ConnectingWhole(k, g, x, w, y, fd, done);
      UpdatePoll();
    }

    lemma SocketField()
      ensures sock == WireNow().sock && log == WireNow().log
    {
    }

    lemma QueueFields()
      ensures dirty == WaitingNow().dirty && tiles == WaitingNow().tiles && messages == WaitingNow().messages
      ensures typing == GameNow().typing && sentTyping == GameNow().sentTyping && log == WireNow().log
    {
    }

    method TryReconnect(r: ConnectResult, t: ErrorTimes)
      requires Valid() && sock == -1
      modifies this
      ensures Valid() && Snapshot() == ConnState.TryReconnect(old(Snapshot()), r, t)
    {
      hide Valid, Snapshot, ConnState.UpdatePoll, ConnState.ReportError, Connecting, Trying;
      match r {
        case NoSocket => FailToConnect(-1, t);
        case NotReady(fd) => FailToConnect(fd, t);
        case Refused(fd) => FailToConnect(fd, t);
        case Connected(fd) => Connect(fd, true);
        case InProgress(fd) => Connect(fd, false);
      }
    }

    /** Some fields of the abstract state. */
    lemma Fields()
      ensures var c := Snapshot();
              && c.sock == sock && c.state == state && c.synced == synced && c.wsPos == wsPos
              && c.input == input && c.output == output && c.keepAliveAt == keepAliveAt && c.reconnectAt == reconnectAt
              && c.finished == finished
    {
    }

    // ---------- reading ----------

    /** The handlers, of a message that is well formed. */
    method AbsorbMessage(payload: seq<byte>, now: Time)
      requires Accepted(payload)
      modifies this`person, this`hasPerson, this`playerIdAt, this`nextMessage, this`synced, this`finished
      ensures Snapshot() == Absorb(old(Snapshot()), payload, now)
    {
      hide KnownNow, GameNow, WaitingNow, TimesNow, WireNow, Whole, Absorb, OneString, OneChar;
      ghost var k, g, t, w, x := KnownNow(), GameNow(), TimesNow(), WaitingNow(), WireNow();
      AbsorbWhole(k, g, t, w, x, payload, now);
      if payload[0] == PLAYER_ID {
        StorePerson(payload[1..9]);
        KnowPerson(now);
      } else if payload[0] == MESSAGE {
        CountMessage();
      } else if payload[0] == SYNC {
        MarkSynced();
      } else if payload[0] in {END, BAD_PLAYER_ID, BAD_CONVERSATION_ID, CONVERSATION_FULL} {
        MarkFinished();
      }
    }

    method StorePerson(id: seq<byte>)
      modifies this`person
      ensures KnownNow() == old(KnownNow()).(person := id)
    {
      person := id;
    }

    method KnowPerson(now: Time)
      modifies this`hasPerson, this`playerIdAt
      ensures KnownNow() == old(KnownNow()).(hasPerson := true)
      ensures TimesNow() == old(TimesNow()).(playerIdAt := now)
    {
      hasPerson := true;
      playerIdAt := now;
    }

    method CountMessage()
      modifies this`nextMessage
      ensures GameNow() == old(GameNow()).(nextMessage := old(GameNow()).nextMessage + 1)
    {
      nextMessage := nextMessage + 1;
    }

    method MarkSynced()
      modifies this`synced
      ensures GameNow() == old(GameNow()).(synced := true)
    {
      synced := true;
    }

    method MarkFinished()
      modifies this`finished
      ensures GameNow() == old(GameNow()).(finished := true)
    {
      finished := true;
    }

    /** process_message. */
    method ProcessMessage(payload: seq<byte>, now: Time) returns (ok: bool)
      modifies this`person, this`hasPerson, this`playerIdAt, this`nextMessage, this`synced, this`finished, this`log
      ensures ok <==> Accepted(payload)
      ensures ok ==> Snapshot() == Deliver(old(Snapshot()), payload, now)
      ensures !ok ==> Snapshot() == Reject(old(Snapshot()), Rejected(payload))
    {
      hide KnownNow, GameNow, WaitingNow, TimesNow, WireNow, Whole, Accepted, Absorb, Emit;
      ok := Accepted(payload);
      if ok {
        AbsorbMessage(payload, now);
        if PassedOn(payload) {
          Fields();
          Tell(MessageReceived(payload, synced));
        }
      } else if |payload| >= 9 && payload[0] == PLAYER_ID {
        PersonWhole(KnownNow(), GameNow(), TimesNow(), WaitingNow(), WireNow(), payload[1..9]);
        StorePerson(payload[1..9]);
      }
    }

    /** get_payload_length, looking at the input from p on. */
    method GetPayloadLength(p: nat) returns (ok: bool, length: nat, start: nat)
      requires Valid() && p <= inputLength
      ensures var f := FrameAt(input[p..]);
              (ok <==> f.Some?) && (ok ==> f.value == (length, start))
    {
      var n := inputLength - p;
      length, start := 0, 0;
      if n < 2 {
        return false, length, start;
      }
      var code := inputBuffer[p + 1];
      if code == 0x7e {
        if n < 4 {
          return false, length, start;
        }
        length, start := inputBuffer[p + 2] as int * 256 + inputBuffer[p + 3], 4;
      } else if code == 0x7f {
        if n < 6 {
          return false, length, start;
        }
        length := inputBuffer[p + 2] as int * 0x100_0000 + inputBuffer[p + 3] as int * 0x1_0000 +
                  inputBuffer[p + 4] as int * 256 + inputBuffer[p + 5];
        start := 6;
      } else {
        length, start := code, 2;
      }
      ok := true;
    }

    /** Searches for the end of the handshake in the buffer. */
    method FindWsTerminator() returns (found: bool, p: nat)
      requires Valid() && wsPos <= 4
      modifies this`wsPos
      ensures Valid()
      ensures var (q, n) := Match(old(wsPos), input);
              && wsPos == q && (found <==> q == 4) && (found ==> p == n) && p <= inputLength
              && WireNow() == old(WireNow()).(wsPos := q)
    {
      ghost var all := input;
      p := 0;
      assert all[0..] == all;
      while wsPos < 4 && p < inputLength
        invariant p <= inputLength && wsPos <= 4
        invariant Match(old(wsPos), all) == (Match(wsPos, all[p..]).0, p + Match(wsPos, all[p..]).1)
        decreases inputLength - p
      {
        assert all[p..][1..] == all[p + 1..];
        wsPos := MatchByte(wsPos, inputBuffer[p]);
        p := p + 1;
      }
      assert wsPos < 4 ==> all[p..] == [];
      found := wsPos == 4;
    }

    /** Runs over the frames from `start` on and handles those that are messages. */
    method ProcessFrames(start: nat, now: Time) returns (ok: bool, p: nat)
      requires Valid() && start <= inputLength
      modifies this`person, this`hasPerson, this`playerIdAt, this`nextMessage, this`synced, this`finished, this`log
      ensures Valid() && AllAccepted(Parse(input[start..]).payloads)
      ensures var r := Parse(input[start..]);
              && (ok <==> r.More?)
              && (ok ==>
                  p <= inputLength && input[p..] == r.rest
                    && Snapshot() == DeliverAll(old(Snapshot()), r.payloads, now))
              && (!ok ==> Snapshot() == Reject(DeliverAll(old(Snapshot()), r.payloads, now), r.trouble))
    {
      hide Snapshot, Parse, DeliverAll, FrameAt, Accepted, After, Handle, AllAccepted, Reject, Deliver;
      ghost var c, whole := Snapshot(), Parse(input[start..]);
      ghost var done: seq<seq<byte>> := [];
      ParsedAccepted(input[start..]);
      NothingDelivered(c, now, whole);
      p := start;
      while true
        invariant start <= p <= inputLength && AllAccepted(done)
        invariant Snapshot() == DeliverAll(c, done, now)
        invariant After(done, Parse(input[p..])) == whole
        decreases inputLength - p
      {
        var found, length, first := GetPayloadLength(p);
        ghost var s := input[p..];
        ParseStep(s, length, first, done);
        if !found {
          return true, p;
        }
        if length > MAX_PAYLOAD {
          RejectNothing(Snapshot());
          return false, p;
        }
        if p + first + length > inputLength {
          return true, p;
        }
        var payload := inputBuffer[p + first..p + first + length];
        Slices(inputBuffer[..], inputLength, p, first, length);
        if inputBuffer[p] == 0x82 {
          ok := ProcessMessage(payload, now);
          if !ok {
            return false, p;
          }
          DeliverNext(c, done, payload, now);
          done := done + [payload];
        }
        p := p + first + length;
      }
    }

    /** What read puts into the buffer. */
    method TakeIn(got: seq<byte>)
      requires Valid() && inputLength + |got| <= BUFFER_SIZE
      modifies this`inputLength, this`input, this`log, inputBuffer
      ensures Valid()
      ensures var x := old(WireNow()); WireNow() == x.(input := x.input + got, log := x.log + [Received(got)])
    {
      ghost var before := input;
      forall i | 0 <= i < |got| {
        inputBuffer[inputLength + i] := got[i];
      }
      assert inputBuffer[..inputLength] == before;
      assert inputBuffer[..inputLength + |got|] == before + got;
      inputLength := inputLength + |got|;
      input := input + got;
      log := log + [Received(got)];
    }

    method DropInput()
      requires Valid()
      modifies this`inputLength, this`input
      ensures Valid() && WireNow() == old(WireNow()).(input := [])
    {
      inputLength, input := 0, [];
    }

    /** Moves what is left to the front of the buffer. */
    method CompactInput(p: nat)
      requires Valid() && p <= inputLength
      modifies this`inputLength, this`input, inputBuffer
      ensures Valid() && WireNow() == old(WireNow()).(input := old(input)[p..])
    {
      ghost var rest := input[p..];
      var n := inputLength - p;
      forall i | 0 <= i < n {
        inputBuffer[i] := inputBuffer[p + i];
      }
      assert inputBuffer[..n] == rest;
      inputLength, input := n, rest;
    }

    lemma BufferFields()
      requires Valid()
      ensures |input| == inputLength <= BUFFER_SIZE && |output| == outputLength <= BUFFER_SIZE
    {
    }

    /** Handles the frames from p on and keeps what is left. */
    method HandleFrames(p: nat, now: Time, t: ErrorTimes)
      requires Valid() && p <= inputLength
      modifies this, inputBuffer
      ensures Valid() && Snapshot() == Process(old(Snapshot()), old(input)[p..], now, t)
    {
      hide Valid, KnownNow, GameNow, WaitingNow, TimesNow, WireNow, Whole, Parse, DeliverAll, Reject, AllAccepted,
           ConnState.UpdatePoll, ConnState.ReportError;
      BufferFields();
      ghost var c := Snapshot();
      var ok, rest := ProcessFrames(p, now);
      if !ok {
        ReportError(t);
      } else {
        WireInput(KnownNow(), GameNow(), TimesNow(), WaitingNow(), WireNow(), input[rest..]);
        CompactInput(rest);
        UpdatePoll();
      }
    }

    /** What happens to bytes that have been read into the buffer. */
    method DigestInput(now: Time, t: ErrorTimes, ghost c: ConnState.Conn)
      requires Valid() && wsPos <= 4 && Snapshot() == c.(input := input) && c.wsPos == wsPos
      modifies this, inputBuffer
      ensures Valid() && Snapshot() == Digest(c, old(input), now, t)
    {
      hide Valid, KnownNow, GameNow, WaitingNow, TimesNow, WireNow, Whole, Match, Process;
      BufferFields();
      ghost var k, g, x, w, y, all := KnownNow(), GameNow(), TimesNow(), WaitingNow(), WireNow(), input;
      var found, p := FindWsTerminator();
      ghost var q := wsPos;
      WirePos(k, g, x, w, y, q);
      WireInput(k, g, x, w, y.(wsPos := q), []);
      MatchedIs(c, Whole(k, g, x, w, y), Whole(k, g, x, w, y.(wsPos := q)), all, q);
      if !found {
        DropInput();
      } else {
        HandleFrames(p, now, t);
      }
    }

    /** handle_read. */
    method HandleRead(r: ReadResult, now: Time, t: ErrorTimes)
      requires Valid() && wsPos <= 4
      modifies this, inputBuffer
      ensures Valid() && Snapshot() == ConnState.HandleRead(old(Snapshot()), r, now, t)
    {
      hide Valid, KnownNow, GameNow, WaitingNow, TimesNow, WireNow, Whole, Digest,
           ConnState.ReportError, ConnState.SetRunning, ConnState.UpdatePoll;
      ghost var c := Snapshot();
      BufferFields();
      Fields();
      match r {
        case ReadBlocked =>
        case ReadFailed => ReportError(t);
        case Got(bytes) =>
          var got := if |bytes| <= BUFFER_SIZE - inputLength then bytes else bytes[..BUFFER_SIZE - inputLength];
          if got == [] {
            if finished {
              SetRunning(false, t.retry);
            } else {
              ReportError(t);
            }
          } else {
            WireRead(KnownNow(), GameNow(), TimesNow(), WaitingNow(), WireNow(), got);
            WireBuffer();
            TakeIn(got);
            WireBuffer();
            DigestInput(now, t, Emit(c, Received(got)));
          }
      }
    }

    lemma WireBuffer()
      ensures WireNow().input == input && WireNow().wsPos == wsPos && WireNow().log == log && WireNow().output == output
    {
    }

    // ---------- running ----------

    method Close()
      modifies this`state, this`sock, this`keepAliveAt
      ensures GameNow() == old(GameNow()).(state := Disconnected)
      ensures WireNow() == old(WireNow()).(sock := -1)
      ensures var t := old(TimesNow());
              TimesNow() == t.(keepAliveAt := if old(sock) != -1 then NEVER else t.keepAliveAt)
    {
      state := Disconnected;
      CloseSocket();
    }

    method SetState(s: RunState)
      modifies this`state
      ensures GameNow() == old(GameNow()).(state := s)
    {
      state := s;
    }

    method Schedule(at: int)
      modifies this`reconnectAt
      ensures TimesNow() == old(TimesNow()).(reconnectAt := at)
    {
      reconnectAt := at;
    }

    method FirstAttempt(at: int, s: RunState)
      modifies this`timeout, this`reconnectAt, this`state
      ensures TimesNow() == old(TimesNow()).(timeout := 0, reconnectAt := at)
      ensures GameNow() == old(GameNow()).(state := s)
    {
      timeout := 0;
      reconnectAt := at;
      state := s;
    }

    /** start_connecting_running_state. */
    method StartConnecting(now: Time)
      requires Valid()
      modifies this`timeout, this`reconnectAt, this`state, this`writeFinished, this`log, this`poll
      ensures Snapshot() == ConnState.StartConnecting(old(Snapshot()), now)
    {
      hide Valid, KnownNow, GameNow, WaitingNow, TimesNow, WireNow, Whole, ConnState.UpdatePoll, HasConfiguration;
      ghost var k, g, x, w, y := KnownNow(), GameNow(), TimesNow(), WaitingNow(), WireNow();
      ConfigurationNow();
      if hasAddress && (hasPerson || player.Some?) {
        StartWhole(k, g, x, w, y, now, WaitingForReconnect);
        FirstAttempt(now, WaitingForReconnect);
        UpdatePoll();
      } else {
        StartWhole(k, g, x, w, y, NEVER, WaitingForConfiguration);
        FirstAttempt(NEVER, WaitingForConfiguration);
      }
    }

    /** has_configuration. */
    lemma ConfigurationNow()
      ensures HasConfiguration(Snapshot()) == (hasAddress && (hasPerson || player.Some?))
    {
    }

    method Halt()
      requires Valid()
      modifies this`state, this`sock, this`keepAliveAt, this`reconnectAt, this`writeFinished, this`log, this`poll
      ensures Snapshot() == ConnState.Halt(old(Snapshot()))
    {
      hide Valid, KnownNow, GameNow, WaitingNow, TimesNow, WireNow, Whole, ConnState.UpdatePoll, Closed, Cancelled,
           Abandoned;
      ghost var k, g, x, w, y := KnownNow(), GameNow(), TimesNow(), WaitingNow(), WireNow();
      Fields();
      SocketField();
      HaltWhole(k, g, x, w, y);
      match state {
        case Disconnected =>
        case WaitingForReconnect =>
          Schedule(NEVER);
          SetState(Disconnected);
          UpdatePoll();
        case WaitingForConfiguration =>
          SetState(Disconnected);
        case _ =>
          Close();
          UpdatePoll();
      }
    }

    /** vsx_connection_set_running. */
    method SetRunning(running: bool, now: Time)
      requires Valid()
      modifies this`state, this`sock, this`keepAliveAt, this`reconnectAt, this`timeout, this`writeFinished, this`log,
               this`poll
      ensures Snapshot() == ConnState.SetRunning(old(Snapshot()), running, now)
    {
      hide Valid, Snapshot, ConnState.Halt, ConnState.StartConnecting, Emit;
      FieldsHidden();
      if running == (state != Disconnected) {
        return;
      }
      if running {
        StartConnecting(now);
      } else {
        Halt();
      }
      FieldsHidden();
      Tell(RunningChanged(running, synced));
    }

    lemma FieldsHidden()
      ensures Snapshot().state == state && Snapshot().synced == synced
    {
    }

    // ---------- writing ----------

    /** The write function in row i of the table of write_one_item: nothing when its list is empty. */
    method WriteFunction(i: nat) returns (item: Option<Item>)
      requires Named(Snapshot())
      ensures item == ItemAt(Snapshot(), i)
    {
      match i {
        case 0 => item := Some(WsRequest);
        case 1 =>
          if hasPerson {
            item := Some(Rejoin(person, nextMessage));
          } else {
            assert player.Some?;
            if hasConversation {
              item := Some(Join(conversation, player.value));
            } else if room.Some? {
              item := Some(NewPlayer(room.value, player.value));
            } else {
              item := Some(NewPrivate(language, player.value));
            }
          }
        case 2 => item := Some(StayAlive);
        case 3 => item := Some(SetNTiles(nTiles));
        case 4 => item := Some(SetLanguage(language));
        case 5 => item := Some(LeaveGame);
        case 6 => item := Some(ShoutOut);
        case 7 => item := Some(EndTurn);
        case 8 => item := if tiles == [] then None else Some(MoveTile(tiles[0]));
        case 9 => item := if messages == [] then None else Some(Say(messages[0]));
        case 10 => item := if typing == sentTyping then None else Some(Type(typing));
        case _ => item := None;
      }
    }

    /** Copies a whole frame into the output buffer. */
    method PutBytes(bytes: seq<byte>)
      requires Valid() && outputLength + |bytes| <= BUFFER_SIZE
      modifies this`outputLength, this`output, outputBuffer
      ensures Valid() && WireNow() == old(WireNow()).(output := old(WireNow()).output + bytes)
    {
      ghost var before := output;
      forall i | 0 <= i < |bytes| {
        outputBuffer[outputLength + i] := bytes[i];
      }
      assert outputBuffer[..outputLength] == before;
      assert outputBuffer[..outputLength + |bytes|] == before + bytes;
      outputLength := outputLength + |bytes|;
      output := output + bytes;
    }

    /** What the write functions do to the lists and flags once the frame is written. */
    method Unqueue(item: Item)
      modifies this`dirty, this`tiles, this`messages, this`sentTyping
      ensures var w := old(WaitingNow());
              WaitingNow() == w.(dirty := w.dirty - FlagsOf(item),
                                 tiles := if item.MoveTile? && w.tiles != [] then w.tiles[1..] else w.tiles,
                                 messages := if item.Say? && w.messages != [] then w.messages[1..] else w.messages)
      ensures var g := old(GameNow());
              GameNow() == g.(sentTyping := if item.Say? then false else if item.Type? then item.on else g.sentTyping)
    {
      hide FlagsOf;
      dirty := dirty - FlagsOf(item);
      if item.MoveTile? {
        if tiles != [] { tiles := tiles[1..]; }
      } else if item.Say? {
        sentTyping := false;
        if messages != [] { messages := messages[1..]; }
      } else if item.Type? {
        sentTyping := item.on;
      }
    }

    method PutItem(item: Item)
      requires Valid() && outputLength + |Encode(item)| <= BUFFER_SIZE
      modifies this`dirty, this`tiles, this`messages, this`sentTyping, this`outputLength, this`output, this`log,
               outputBuffer
      ensures Valid() && Snapshot() == Queue(old(Snapshot()), item)
    {
      hide Valid, KnownNow, GameNow, WaitingNow, TimesNow, WireNow, Whole, Encode, FlagsOf, Queue, Emit;
      ghost var k, g, t, w, x := KnownNow(), GameNow(), TimesNow(), WaitingNow(), WireNow();
      PutBytes(Encode(item));
      Unqueue(item);
      QueueWhole(k, g, t, w, x, item);
      Tell(Queued(item));
    }

    /** write_one_item: the first row of the table that has something to write. */
    method WriteOneItem() returns (wrote: int)
      requires Valid() && Named(Snapshot())
      modifies this`dirty, this`tiles, this`messages, this`sentTyping, this`outputLength, this`output, this`log,
               outputBuffer
      ensures Valid()
      ensures var c := old(Snapshot());
              match NextItem(c)
              case None => wrote == 0 && Snapshot() == c
              case Some(item) =>
                if FitsIn(c, item) then wrote == |Encode(item)| && Snapshot() == Queue(c, item)
                else wrote == -1 && Snapshot() == c
    {
      hide Valid, Snapshot, Encode, Queue, NextItem, ItemAt, Named;
      ghost var c := Snapshot();
      DirtyField();
      BufferFields();
      for i := 0 to 11
        invariant Valid() && Snapshot() == c && dirty == c.dirty && outputLength == |c.output|
        invariant forall j :: 0 <= j < i ==> Offered(c, j).None?
      {
        var item: Option<Item> := None;
        if FlagAt(i).None? || FlagAt(i).value in dirty {
          item := WriteFunction(i);
        }
        if item.Some? {
          OfferedFirst(c, i);
          if outputLength + |Encode(item.value)| > BUFFER_SIZE {
            return -1;
          }
          wrote := |Encode(item.value)|;
          PutItem(item.value);
          return;
        }
      }
      OfferedNone(c);
      wrote := 0;
    }

    lemma DirtyField()
      ensures Snapshot().dirty == dirty && Snapshot().output == output
    {
    }

    method FillOutputBuffer()
      requires Valid() && Named(Snapshot())
      modifies this`dirty, this`tiles, this`messages, this`sentTyping, this`outputLength, this`output, this`log,
               outputBuffer
      ensures Valid() && |old(Snapshot()).output| <= BUFFER_SIZE && Snapshot() == Fill(old(Snapshot()))
    {
      hide Valid, Snapshot, Encode, Queue, NextItem, Named;
      ghost var c := Snapshot();
      BufferFields();
      DirtyField();
      var wrote := WriteOneItem();
      DirtyField();
      BufferFields();
      while wrote > 0
        invariant Valid() && Named(Snapshot()) && |Snapshot().output| == outputLength <= BUFFER_SIZE
        invariant if wrote > 0 then Fill(Snapshot()) == Fill(c) else Snapshot() == Fill(c)
        decreases wrote > 0, BUFFER_SIZE - outputLength
      {
        wrote := WriteOneItem();
        DirtyField();
        BufferFields();
      }
    }

    /** Moves what the system did not take to the front of the output buffer. */
    method CompactOutput(n: nat)
      requires Valid() && n <= outputLength
      modifies this`outputLength, this`output, this`log, outputBuffer
      ensures Valid()
      ensures var x := old(WireNow());
              n <= |x.output| && WireNow() == x.(output := x.output[n..], log := x.log + [Sent(x.output, n)])
    {
      ghost var rest := output[n..];
      log := log + [Sent(output, n)];
      var left := outputLength - n;
      forall i | 0 <= i < left {
        outputBuffer[i] := outputBuffer[n + i];
      }
      assert outputBuffer[..left] == rest;
      outputLength, output := left, rest;
    }

    /** write: the system takes some of the bytes it is offered. */
    method Offer(n: nat)
      requires Valid()
      modifies this`outputLength, this`output, this`log, outputBuffer
      ensures Valid() && Snapshot() == Accept(old(Snapshot()), n)
    {
      hide Valid, KnownNow, GameNow, WaitingNow, TimesNow, WireNow, Whole;
      BufferFields();
      WireBuffer();
      var taken := if n <= outputLength then n else outputLength;
      SentWhole(KnownNow(), GameNow(), TimesNow(), WaitingNow(), WireNow(), n);
      CompactOutput(taken);
    }

    method KeepAliveFrom(at: int)
      modifies this`keepAliveAt
      ensures Snapshot() == old(Snapshot()).(keepAliveAt := at)
    {
      hide KnownNow, GameNow, WaitingNow, WireNow;
      keepAliveAt := at;
    }

    method HandleWrite(r: WriteResult, t: ErrorTimes)
      requires Valid() && Named(Snapshot())
      modifies this, outputBuffer
      ensures Valid() && |old(Snapshot()).output| <= BUFFER_SIZE
              && Snapshot() == ConnState.HandleWrite(old(Snapshot()), r, t)
    {
      hide Valid, Snapshot, ConnState.UpdatePoll, ConnState.ReportError, Fill, Accept, Named;
      FillOutputBuffer();
      match r {
        case WriteBlocked =>
          Offer(0);
        case WriteFailed =>
          Offer(0);
          ReportError(t);
        case Wrote(n) =>
          Offer(n);
          KeepAliveFrom(t.retry + KEEP_ALIVE_TIME);
          UpdatePoll();
      }
    }

    // ---------- waking up ----------

    method Awaken(ready: ConnState.Ready, now: Instant)
      modifies this`state, this`keepAliveAt, this`dirty
      ensures Snapshot() == Awake(old(Snapshot()), ready, now)
    {
      hide KnownNow, GameNow, WaitingNow, TimesNow, WireNow, Whole, Awake;
      AwakeWhole(KnownNow(), GameNow(), TimesNow(), WaitingNow(), WireNow(), ready, now);
      TimesFields();
      StateField();
      if state == Reconnecting && ready.writable {
        SetState(Running);
      }
      if now >= keepAliveAt {
        StopKeepAlive();
        Raise({KeepAlive});
      }
    }

    lemma StateField()
      ensures GameNow().state == state
    {
    }

    method StopKeepAlive()
      modifies this`keepAliveAt
      ensures TimesNow() == old(TimesNow()).(keepAliveAt := NEVER)
    {
      keepAliveAt := NEVER;
    }

    /** vsx_connection_wake_up. */
    method WakeUp(ready: ConnState.Ready, w: World)
      requires Valid() && Inv(Snapshot())
      modifies this, inputBuffer, outputBuffer
      ensures Valid() && Snapshot() == Step(old(Snapshot()), DoWakeUp(ready, w)) && Inv(Snapshot())
    {
      hide Valid, Snapshot, Inv, ConnState.UpdatePoll, ConnState.TryReconnect, ConnState.HandleRead,
           ConnState.HandleWrite, Awake, Named;
      ghost var c := Snapshot();
      InvNamed(c);
      InvStep(c, DoWakeUp(ready, w));
      Times2();
      if sock == -1 {
        if w.now >= reconnectAt {
          TryReconnect(w.connect, w.times);
        }
        return;
      }
      AwakeNamed(c, ready, w.now);
      Awaken(ready, w.now);
      Times2();
      if ready.readable {
        HandleRead(w.read, w.arrival, w.times);
      } else if ready.writable {
        HandleWrite(w.write, w.times);
      } else {
        UpdatePoll();
      }
    }

    lemma Times2()
      ensures Snapshot().sock == sock && Snapshot().reconnectAt == reconnectAt && Snapshot().wsPos == wsPos
    {
    }

    // ---------- configuration and reset ----------

    method MaybeStart(now: Time)
      requires Valid()
      modifies this`timeout, this`reconnectAt, this`state, this`writeFinished, this`log, this`poll
      ensures Snapshot() == ConnState.MaybeStart(old(Snapshot()), now)
    {
      hide Valid, Snapshot, ConnState.StartConnecting;
      FieldsHidden();
      if state == WaitingForConfiguration {
        StartConnecting(now);
      }
    }

    method SetPersonId(id: seq<byte>, now: Time)
      requires Valid()
      modifies this`hasPerson, this`person, this`timeout, this`reconnectAt, this`state, this`writeFinished, this`log,
               this`poll
      ensures Snapshot() == SetPerson(old(Snapshot()), id, now)
    {
      hide Valid, GameNow, WaitingNow, TimesNow, WireNow, Whole, ConnState.MaybeStart;
      KnownFields();
      if hasPerson {
        return;
      }
      ghost var k := KnownNow().(person := id, hasPerson := true);
      KnownWhole(KnownNow(), GameNow(), TimesNow(), WaitingNow(), WireNow(), k);
      person, hasPerson := id, true;
      assert KnownNow() == k;
      MaybeStart(now);
    }

    method SetPlayerName(name: seq<byte>, now: Time)
      requires Valid()
      modifies this`player, this`timeout, this`reconnectAt, this`state, this`writeFinished, this`log, this`poll
      ensures Snapshot() == SetPlayer(old(Snapshot()), name, now)
    {
      hide Valid, GameNow, WaitingNow, TimesNow, WireNow, Whole, ConnState.MaybeStart;
      KnownFields();
      if player.Some? {
        return;
      }
      ghost var k := KnownNow().(player := Some(name));
      KnownWhole(KnownNow(), GameNow(), TimesNow(), WaitingNow(), WireNow(), k);
      player := Some(name);
      assert KnownNow() == k;
      MaybeStart(now);
    }

    method SetRoom(name: seq<byte>, now: Time)
      requires Valid()
      modifies this`room, this`timeout, this`reconnectAt, this`state, this`writeFinished, this`log, this`poll
      ensures Snapshot() == ConnState.SetRoom(old(Snapshot()), name, now)
    {
      hide Valid, GameNow, WaitingNow, TimesNow, WireNow, Whole, ConnState.MaybeStart;
      KnownFields();
      if room.Some? {
        return;
      }
      ghost var k := KnownNow().(room := Some(name));
      KnownWhole(KnownNow(), GameNow(), TimesNow(), WaitingNow(), WireNow(), k);
      room := Some(name);
      assert KnownNow() == k;
      MaybeStart(now);
    }

    method SetConversationId(id: seq<byte>, now: Time)
      requires Valid()
      modifies this`hasConversation, this`conversation, this`timeout, this`reconnectAt, this`state, this`writeFinished,
               this`log, this`poll
      ensures Snapshot() == SetConversation(old(Snapshot()), id, now)
    {
      hide Valid, GameNow, WaitingNow, TimesNow, WireNow, Whole, ConnState.MaybeStart;
      KnownFields();
      if hasConversation {
        return;
      }
      ghost var k := KnownNow().(hasConversation := true, conversation := id);
      KnownWhole(KnownNow(), GameNow(), TimesNow(), WaitingNow(), WireNow(), k);
      hasConversation, conversation := true, id;
      assert KnownNow() == k;
      MaybeStart(now);
    }

    method SetAddress(a: int, now: Time)
      requires Valid()
      modifies this`hasAddress, this`address, this`timeout, this`reconnectAt, this`state, this`writeFinished, this`log,
               this`poll
      ensures Snapshot() == ConnState.SetAddress(old(Snapshot()), a, now)
    {
      hide Valid, GameNow, WaitingNow, TimesNow, WireNow, Whole, ConnState.MaybeStart;
      KnownFields();
      if hasAddress {
        return;
      }
      ghost var k := KnownNow().(hasAddress := true, address := a);
      KnownWhole(KnownNow(), GameNow(), TimesNow(), WaitingNow(), WireNow(), k);
      hasAddress, address := true, a;
      assert KnownNow() == k;
      MaybeStart(now);
    }

    lemma KnownFields()
      ensures var c := Snapshot();
              && c.hasPerson == hasPerson && c.player == player && c.room == room
              && c.hasConversation == hasConversation
              && c.hasAddress == hasAddress
    {
    }

    method ForgetKnown()
      modifies this`room, this`player, this`hasPerson, this`hasConversation, this`language
      ensures KnownNow() ==
              old(KnownNow()).(room := None, player := None, hasPerson := false, hasConversation := false,
                               language := [])
    {
      room := None;
      player := None;
      hasPerson := false;
      hasConversation := false;
      language := [];
    }

    method ForgetPlay()
      modifies this`finished, this`typing, this`sentTyping, this`nextMessage, this`dirty, this`tiles, this`messages
      ensures GameNow() == old(GameNow()).(finished := false, typing := false, sentTyping := false, nextMessage := 0)
      ensures WaitingNow() == old(WaitingNow()).(dirty := {}, tiles := [], messages := [])
    {
      finished := false;
      typing := false;
      sentTyping := false;
      nextMessage := 0;
      dirty := {};
      tiles := [];
      messages := [];
    }

    method ForgetTimes()
      modifies this`sock, this`keepAliveAt, this`reconnectAt, this`playerIdAt, this`timeout
      ensures TimesNow() == Times(0, NEVER, NEVER, NEVER) && WireNow() == old(WireNow()).(sock := -1)
    {
      CloseSocket();
      keepAliveAt := NEVER;
      reconnectAt := NEVER;
      playerIdAt := NEVER;
      timeout := 0;
    }

    /** Everything vsx_connection_reset does before it stops the connection. */
    method Clear()
      modifies this`room, this`player, this`hasPerson, this`hasConversation, this`language, this`finished, this`typing,
               this`sentTyping, this`nextMessage, this`dirty, this`tiles, this`messages, this`keepAliveAt,
               this`reconnectAt, this`playerIdAt, this`timeout, this`sock
      ensures Snapshot() == Cleared(old(Snapshot()))
    {
      hide KnownNow, GameNow, WaitingNow, TimesNow, WireNow, Whole, Cleared;
      ClearedWhole(KnownNow(), GameNow(), TimesNow(), WaitingNow(), WireNow());
      ForgetTimes();
      ForgetKnown();
      ForgetPlay();
    }

    /** vsx_connection_reset. */
    method Reset()
      requires Valid()
      modifies this
      ensures Valid() && Snapshot() == ConnState.Reset(old(Snapshot()))
    {
      hide Valid, Snapshot, Cleared, ConnState.SetRunning, ConnState.UpdatePoll;
      Clear();
      SetRunning(false, 0);
      UpdatePoll();
    }

    /** vsx_connection_new: everything zero but the socket, then a reset before anyone can listen. */
    constructor ()
      ensures Valid() && fresh(outputBuffer) && fresh(inputBuffer) && Snapshot() == New() && Inv(Snapshot())
    {
      hide ConnState.Reset, Inv;
      hasAddress, address, hasConversation, conversation, room, player := false, 0, false, [], None, None;
      hasPerson, person, state, finished, typing, sentTyping := false, [], Disconnected, false, false, false;
      writeFinished, nextMessage, timeout, reconnectAt, playerIdAt := false, 0, 0, 0, 0;
      dirty, tiles, messages, nTiles, language := {}, [], [], 0, [];
      sock, poll, synced, keepAliveAt := -1, Poll(0, false, false, 0), false, 0;
      outputBuffer := new byte[BUFFER_SIZE];
      inputBuffer := new byte[BUFFER_SIZE];
      outputLength, inputLength, wsPos := 0, 0, 0;
      output, input, log := [], [], [];
      new;
      assert Snapshot() == Blank();
      Reset();
      InvNew();
      Forget();
    }

    ghost method Forget()
      modifies this`log
      ensures Snapshot() == old(Snapshot()).(log := [])
    {
      hide KnownNow, GameNow, WaitingNow, TimesNow;
      log := [];
    }

    // ---------- requests ----------

    /** vsx_connection_set_typing. */
    method SetTyping(on: bool)
      requires Valid()
      modifies this`typing, this`writeFinished, this`log, this`poll
      ensures Snapshot() == ConnState.SetTyping(old(Snapshot()), on)
    {
      hide Valid, KnownNow, WaitingNow, TimesNow, WireNow, ConnState.UpdatePoll;
      if typing != on {
        typing := on;
        UpdatePoll();
      }
    }

    /** vsx_connection_shout, vsx_connection_turn and vsx_connection_leave. */
    method Ask(flag: Flag)
      requires Valid()
      modifies this`dirty, this`writeFinished, this`log, this`poll
      ensures Snapshot() == ConnState.Raise(old(Snapshot()), flag)
    {
      hide Valid, KnownNow, GameNow, WaitingNow, TimesNow, WireNow, Whole, ConnState.UpdatePoll;
      DirtyWhole(KnownNow(), GameNow(), TimesNow(), WaitingNow(), WireNow(), flag);
      Raise({flag});
      UpdatePoll();
    }

    /** Looks for a pending move of the same tile, and changes that one or appends a new one. */
    method SquashMove(tile: Tile)
      modifies this`tiles
      ensures tiles == Squash(old(tiles), tile)
    {
      var i := 0;
      while i < |tiles| && tiles[i].num != tile.num
        invariant i <= |tiles| && forall j :: 0 <= j < i ==> tiles[j].num != tile.num
      {
        i := i + 1;
      }
      SquashAt(tiles, tile, i);
      if i == |tiles| {
        tiles := tiles + [tile];
      } else {
        tiles := tiles[i := tile];
      }
    }

    /** vsx_connection_move_tile. */
    method RequestMove(tile: Tile)
      requires Valid()
      modifies this`tiles, this`writeFinished, this`log, this`poll
      ensures Snapshot() == ConnState.RequestMove(old(Snapshot()), tile)
    {
      hide Valid, KnownNow, GameNow, TimesNow, WireNow, ConnState.UpdatePoll, Squash;
      SquashMove(tile);
      UpdatePoll();
    }

    /** vsx_connection_set_n_tiles. */
    method RequestNTiles(n: int)
      requires Valid()
      modifies this`nTiles, this`dirty, this`writeFinished, this`log, this`poll
      ensures Snapshot() == ConnState.RequestNTiles(old(Snapshot()), n)
    {
      hide Valid, KnownNow, GameNow, TimesNow, WireNow, ConnState.Raise;
      nTiles := n;
      Ask(NTiles);
    }

    /** vsx_connection_set_default_language. */
    method SetDefaultLanguage(code: seq<byte>)
      modifies this`language
      ensures Snapshot() == ConnState.SetDefaultLanguage(old(Snapshot()), code)
    {
      hide GameNow, WaitingNow, TimesNow, WireNow;
      language := if |code| <= 7 then code else code[..7];
    }

    /** vsx_connection_set_language. */
    method RequestLanguage(code: seq<byte>)
      requires Valid()
      modifies this`language, this`dirty, this`writeFinished, this`log, this`poll
      ensures Snapshot() == ConnState.RequestLanguage(old(Snapshot()), code)
    {
      hide Valid, Snapshot, ConnState.SetDefaultLanguage, ConnState.Raise;
      SetDefaultLanguage(code);
      Ask(Language);
    }

    /** vsx_connection_send_message. */
    method SendMessage(text: seq<byte>)
      requires Valid()
      modifies this`messages, this`writeFinished, this`log, this`poll
      ensures Snapshot() == RequestMessage(old(Snapshot()), text)
    {
      hide Valid, KnownNow, GameNow, TimesNow, WireNow, ConnState.UpdatePoll, Clip;
      var end := ClipLength(text);
      var clipped := match end case Some(n) => text[..n] case None => [];
      ClipIs(text);
      messages := messages + [clipped];
      UpdatePoll();
    }
  }

  // ---------- the groups and the functions of ConnState ----------

  lemma WholeFields(k: Known, g: Game, t: Times, w: Waiting, x: Wire)
    ensures var c := Whole(k, g, t, w, x);
            && c.log == x.log && c.sock == x.sock && c.poll == x.poll && c.synced == g.synced
            && c.writeFinished == g.writeFinished
  {
  }

  lemma ClipIs(text: seq<byte>)
    ensures Clip(text) == match ClipEnd(text) case Some(n) => text[..n] case None => []
  {
  }

  lemma PollWhole(k: Known, g: Game, t: Times, w: Waiting, x: Wire)
    ensures var c := Whole(k, g, t, w, x);
            && PollFor(c) ==
               Poll(x.sock, PollFor(c).read, PollFor(c).write, Min(Min(NEVER, t.reconnectAt), t.keepAliveAt))
            && ConnState.UpdatePoll(c) ==
               Whole(k, g.(writeFinished := c.writeFinished || ShouldShutDown(c)), t, w,
                     x.(poll := PollFor(c),
                        log := c.log + (if ShouldShutDown(c) then [ShutDown(c.sock)] else [])
                                     + (if x.poll != PollFor(c) then [PollChanged(PollFor(c), g.synced)] else [])))
  {
    hide ShouldShutDown, HasPendingData;
    PollLog(Whole(k, g, t, w, x));
    hide PollEffects;
  }

  lemma PollLog(c: ConnState.Conn)
    ensures c.log + PollEffects(c) == c.log + (if ShouldShutDown(c) then [ShutDown(c.sock)] else [])
                                            + (if c.poll != PollFor(c) then [PollChanged(PollFor(c), c.synced)] else [])
  {
    hide ShouldShutDown, PollFor;
  }

  function BrokenTimes(t: Times, sock: int, at: ErrorTimes): Times {
    var delay := if at.checked - STABLE_TIME >= t.playerIdAt then 0 else t.timeout;
    Times(NextTimeout(delay), at.retry + delay, t.playerIdAt, if sock != -1 then NEVER else t.keepAliveAt)
  }

  lemma BrokenWhole(k: Known, g: Game, t: Times, w: Waiting, x: Wire, at: ErrorTimes)
    ensures Whole(k, g, BrokenTimes(t, x.sock, at), w, x.(sock := -1)) == Broken(Whole(k, g, t, w, x), at)
  {
    hide NextTimeout;
  }

  lemma TryingWhole(k: Known, g: Game, t: Times, w: Waiting, x: Wire, fd: int)
    ensures Whole(k, g, t.(reconnectAt := NEVER, playerIdAt := NEVER), w, x.(sock := fd)) ==
            Trying(Whole(k, g, t, w, x), fd)
  {
  }

  lemma ConnectingWhole(k: Known, g: Game, t: Times, w: Waiting, x: Wire, fd: nat, done: bool)
    ensures Whole(k, g.(state := if done then Running else Reconnecting, writeFinished := false, synced := false),
                  t.(reconnectAt := NEVER, playerIdAt := NEVER), w.(dirty := w.dirty + {WsHeader, Header}),
                  x.(sock := fd).(output := [], input := [], wsPos := 0).(log := x.(sock := fd).log + [Opened(fd)])) ==
            Connecting(Whole(k, g, t, w, x), fd, done)
  {
  }

  lemma PersonWhole(k: Known, g: Game, t: Times, w: Waiting, x: Wire, id: seq<byte>)
    ensures Whole(k.(person := id), g, t, w, x) == Whole(k, g, t, w, x).(person := id)
  {
  }

  lemma AbsorbWhole(k: Known, g: Game, t: Times, w: Waiting, x: Wire, payload: seq<byte>, now: Time)
    requires Accepted(payload)
    ensures var kind := payload[0];
            Absorb(Whole(k, g, t, w, x), payload, now) ==
            if kind == PLAYER_ID
              then Whole(k.(person := payload[1..9]).(hasPerson := true), g, t.(playerIdAt := now), w, x)
            else if kind == MESSAGE then Whole(k, g.(nextMessage := g.nextMessage + 1), t, w, x)
            else if kind == SYNC then Whole(k, g.(synced := true), t, w, x)
            else if kind in {END, BAD_PLAYER_ID, BAD_CONVERSATION_ID, CONVERSATION_FULL}
              then Whole(k, g.(finished := true), t, w, x)
            else Whole(k, g, t, w, x)
  {
    hide OneString, OneChar;
  }

  lemma WirePos(k: Known, g: Game, t: Times, w: Waiting, x: Wire, q: nat)
    ensures Whole(k, g, t, w, x.(wsPos := q)) == Whole(k, g, t, w, x).(wsPos := q)
  {
  }

  lemma WireInput(k: Known, g: Game, t: Times, w: Waiting, x: Wire, input: seq<byte>)
    ensures Whole(k, g, t, w, x.(input := input)) == Whole(k, g, t, w, x).(input := input)
  {
  }

  lemma WireRead(k: Known, g: Game, t: Times, w: Waiting, x: Wire, got: seq<byte>)
    ensures var c := Emit(Whole(k, g, t, w, x), Received(got));
            && Whole(k, g, t, w, x.(input := x.input + got, log := x.log + [Received(got)])) ==
               c.(input := x.input + got)
            && c.wsPos == x.wsPos
  {
  }

  lemma StartWhole(k: Known, g: Game, t: Times, w: Waiting, x: Wire, at: int, state: RunState)
    ensures Whole(k, g.(state := state), t.(timeout := 0, reconnectAt := at), w, x) ==
            Whole(k, g, t, w, x).(timeout := 0, reconnectAt := at, state := state)
  {
  }

  lemma HaltWhole(k: Known, g: Game, t: Times, w: Waiting, x: Wire)
    ensures Whole(k, g.(state := Disconnected), t.(keepAliveAt := if x.sock != -1 then NEVER else t.keepAliveAt), w,
                  x.(sock := -1)) ==
            Closed(Whole(k, g, t, w, x))
    ensures Whole(k, g.(state := Disconnected), t.(reconnectAt := NEVER), w, x) == Cancelled(Whole(k, g, t, w, x))
    ensures Whole(k, g.(state := Disconnected), t, w, x) == Abandoned(Whole(k, g, t, w, x))
  {
  }

  lemma QueueWhole(k: Known, g: Game, t: Times, w: Waiting, x: Wire, item: Item)
    ensures Queue(Whole(k, g, t, w, x), item) ==
            Emit(Whole(k, g.(sentTyping := if item.Say? then false else if item.Type? then item.on else g.sentTyping),
                       t, w.(dirty := w.dirty - FlagsOf(item),
                          tiles := if item.MoveTile? && w.tiles != [] then w.tiles[1..] else w.tiles,
                          messages := if item.Say? && w.messages != [] then w.messages[1..] else w.messages),
                       x.(output := x.output + Encode(item))), Queued(item))
  {
    hide Encode, FlagsOf;
  }

  lemma SentWhole(k: Known, g: Game, t: Times, w: Waiting, x: Wire, n: nat)
    ensures var taken := if n <= |x.output| then n else |x.output|;
            Accept(Whole(k, g, t, w, x), n) ==
            Whole(k, g, t, w, x.(output := x.output[taken..], log := x.log + [Sent(x.output, taken)]))
  {
  }

  lemma AwakeWhole(k: Known, g: Game, t: Times, w: Waiting, x: Wire, ready: ConnState.Ready, now: Instant)
    ensures Awake(Whole(k, g, t, w, x), ready, now) ==
            Whole(k, if g.state == Reconnecting && ready.writable then g.(state := Running) else g,
                  if now >= t.keepAliveAt then t.(keepAliveAt := NEVER) else t,
                  if now >= t.keepAliveAt then w.(dirty := w.dirty + {KeepAlive}) else w, x)
  {
  }

  lemma KnownWhole(k: Known, g: Game, t: Times, w: Waiting, x: Wire, k': Known)
    ensures Whole(k', g, t, w, x) ==
            Whole(k, g, t, w, x).(hasAddress := k'.hasAddress, address := k'.address,
                                  hasConversation := k'.hasConversation, conversation := k'.conversation,
                                  room := k'.room, player := k'.player, hasPerson := k'.hasPerson, person := k'.person,
                                  language := k'.language)
    ensures var c := Whole(k, g, t, w, x);
            && c.hasAddress == k.hasAddress && c.address == k.address && c.hasConversation == k.hasConversation
            && c.conversation == k.conversation && c.room == k.room && c.player == k.player
            && c.hasPerson == k.hasPerson
            && c.person == k.person && c.language == k.language
  {
  }

  lemma ClearedWhole(k: Known, g: Game, t: Times, w: Waiting, x: Wire)
    ensures Cleared(Whole(k, g, t, w, x)) ==
            Whole(k.(room := None, player := None, hasPerson := false, hasConversation := false, language := []),
                  g.(finished := false, typing := false, sentTyping := false, nextMessage := 0),
                  Times(0, NEVER, NEVER, NEVER), w.(dirty := {}, tiles := [], messages := []), x.(sock := -1))
  {
  }

  lemma DirtyWhole(k: Known, g: Game, t: Times, w: Waiting, x: Wire, flag: Flag)
    ensures var c := Whole(k, g, t, w, x);
            Whole(k, g, t, w.(dirty := w.dirty + {flag}), x) == c.(dirty := c.dirty + {flag})
  {
  }

  // ---------- the table of write_one_item ----------

  function FlagAt(i: nat): Option<Flag> {
    match i
    case 0 => Some(WsHeader)
    case 1 => Some(Header)
    case 2 => Some(KeepAlive)
    case 3 => Some(NTiles)
    case 4 => Some(Language)
    case 5 => Some(Leave)
    case 6 => Some(Shout)
    case 7 => Some(Turn)
    case _ => None
  }

  function ItemAt(c: ConnState.Conn, i: nat): Option<Item>
    requires Named(c)
  {
    match i
    case 0 => Some(WsRequest)
    case 1 => Some(HeaderItem(c))
    case 2 => Some(StayAlive)
    case 3 => Some(SetNTiles(c.nTiles))
    case 4 => Some(SetLanguage(c.language))
    case 5 => Some(LeaveGame)
    case 6 => Some(ShoutOut)
    case 7 => Some(EndTurn)
    case 8 => if c.tiles == [] then None else Some(MoveTile(c.tiles[0]))
    case 9 => if c.messages == [] then None else Some(Say(c.messages[0]))
    case 10 => if c.typing == c.sentTyping then None else Some(Type(c.typing))
    case _ => None
  }

  /** Row i of the table has something to write. */
  function Offered(c: ConnState.Conn, i: nat): Option<Item>
    requires Named(c)
  {
    if FlagAt(i).Some? && FlagAt(i).value !in c.dirty then None else ItemAt(c, i)
  }

  lemma OfferedFirst(c: ConnState.Conn, i: nat)
    requires Named(c) && i < 11 && Offered(c, i).Some? && forall j :: 0 <= j < i ==> Offered(c, j).None?
    ensures NextItem(c) == Offered(c, i)
  {
    hide HeaderItem;
    OfferedRows(c);
  }

  lemma OfferedNone(c: ConnState.Conn)
    requires Named(c) && forall j :: 0 <= j < 11 ==> Offered(c, j).None?
    ensures NextItem(c).None?
  {
    hide HeaderItem;
    OfferedRows(c);
  }

  /** Each row is offered when its flag is up or its list is not empty. */
  lemma OfferedRows(c: ConnState.Conn)
    requires Named(c)
    ensures Offered(c, 0).Some? == (WsHeader in c.dirty) && Offered(c, 1).Some? == (Header in c.dirty)
    ensures Offered(c, 2).Some? == (KeepAlive in c.dirty) && Offered(c, 3).Some? == (NTiles in c.dirty)
    ensures Offered(c, 4).Some? == (Language in c.dirty) && Offered(c, 5).Some? == (Leave in c.dirty)
    ensures Offered(c, 6).Some? == (Shout in c.dirty) && Offered(c, 7).Some? == (Turn in c.dirty)
    ensures Offered(c, 8).Some? == (c.tiles != []) && Offered(c, 9).Some? == (c.messages != [])
    ensures Offered(c, 10).Some? == (c.typing != c.sentTyping)
  {
  }

  lemma AwakeNamed(c: ConnState.Conn, ready: ConnState.Ready, now: Instant)
    ensures Named(Awake(c, ready, now)) == Named(c)
  {
    hide Awake;
  }

  // ---------- moves ----------

  /** The list after the first i entries, none of which is of this tile. */
  lemma {:induction false} SquashPrefix(tiles: seq<Tile>, tile: Tile, i: nat)
    requires i <= |tiles| && forall j :: 0 <= j < i ==> tiles[j].num != tile.num
    ensures Squash(tiles, tile) == tiles[..i] + Squash(tiles[i..], tile)
    decreases i
  {
    if i == 0 {
      assert tiles[..0] == [] && tiles[0..] == tiles;
    } else {
      SquashPrefix(tiles[1..], tile, i - 1);
      hide Squash;
      assert tiles[..i] == [tiles[0]] + tiles[1..][..i - 1];
      assert tiles[i..] == tiles[1..][i - 1..];
    }
  }

  lemma SquashFirst(tiles: seq<Tile>, tile: Tile)
    requires tiles != [] ==> tiles[0].num == tile.num
    ensures Squash(tiles, tile) == [tile] + if tiles == [] then [] else tiles[1..]
  {
  }

  /** Where the search ends decides what happens to the list. */
  lemma SquashAt(tiles: seq<Tile>, tile: Tile, i: nat)
    requires i <= |tiles| && forall j :: 0 <= j < i ==> tiles[j].num != tile.num
    requires i < |tiles| ==> tiles[i].num == tile.num
    ensures Squash(tiles, tile) == if i < |tiles| then tiles[i := tile] else tiles + [tile]
  {
    hide Squash;
    SquashPrefix(tiles, tile, i);
    SquashFirst(tiles[i..], tile);
    if i < |tiles| {
      assert tiles[..i] + ([tile] + tiles[i..][1..]) == tiles[i := tile];
    }
  }

  // ---------- frames ----------

  /** A stretch of the buffer, seen from position p of its used part. */
  lemma Slices(b: seq<byte>, n: nat, p: nat, first: nat, length: nat)
    requires p + first + length <= n <= |b|
    ensures b[..n][p..][first..first + length] == b[p + first..p + first + length]
    ensures b[..n][p..][first + length..] == b[..n][p + first + length..]
  {
    var s := b[..n][p..];
    assert forall k :: 0 <= k < |s| ==> s[k] == b[p + k];
    var l, r := s[first..first + length], b[p + first..p + first + length];
    assert |l| == |r|;
    forall k | 0 <= k < |l|
      ensures l[k] == r[k]
    {
      assert l[k] == s[first + k] == b[p + (first + k)];
    }
    var l', r' := s[first + length..], b[..n][p + first + length..];
    assert |l'| == |r'|;
    forall k | 0 <= k < |l'|
      ensures l'[k] == r'[k]
    {
      assert l'[k] == s[first + length + k] == b[p + (first + length + k)];
    }
  }

  lemma NothingDelivered(c: ConnState.Conn, now: Time, p: Parsed)
    ensures AllAccepted([]) && DeliverAll(c, [], now) == c && After([], p) == p
  {
    AfterNothing(p);
  }

  lemma DeliverNext(c: ConnState.Conn, done: seq<seq<byte>>, payload: seq<byte>, now: Time)
    requires AllAccepted(done) && Accepted(payload)
    ensures AllAccepted(done + [payload])
    ensures DeliverAll(c, done + [payload], now) == Deliver(DeliverAll(c, done, now), payload, now)
  {
    hide Accepted, Deliver;
    assert (done + [payload])[..|done|] == done;
  }

  lemma RejectNothing(c: ConnState.Conn)
    ensures Reject(c, TooLong) == c
  {
  }

  /** One round of the loop, on the parsed stream. */
  lemma ParseStep(s: seq<byte>, length: nat, first: nat, done: seq<seq<byte>>)
    requires FrameAt(s).Some? ==> FrameAt(s).value == (length, first)
    ensures FrameAt(s).None? || (length <= MAX_PAYLOAD && first + length > |s|) ==>
              After(done, Parse(s)) == More(done, s)
    ensures FrameAt(s).Some? && length > MAX_PAYLOAD ==> After(done, Parse(s)) == Stop(done, TooLong)
    ensures FrameAt(s).Some? && length <= MAX_PAYLOAD && first + length <= |s| ==>
              var payload, rest := s[first..first + length], s[first + length..];
              After(done, Parse(s)) ==
              if s[0] != 0x82 then After(done, Parse(rest))
              else if Accepted(payload) then After(done + [payload], Parse(rest))
              else Stop(done, Rejected(payload))
  {
    hide Accepted, FrameAt;
    assert done + [] == done;
    if FrameAt(s).Some? && length <= MAX_PAYLOAD && first + length <= |s| {
      var payload, later := s[first..first + length], Parse(s[first + length..]);
      assert done + ([payload] + later.payloads) == done + [payload] + later.payloads;
    }
  }

  /** The two outcomes of the search for the end of the handshake. */
  lemma MatchedIs(c: ConnState.Conn, d: ConnState.Conn, e: ConnState.Conn, input: seq<byte>, q: nat)
    requires d == c.(input := input) && e == d.(wsPos := q)
    ensures e == c.(wsPos := q, input := input)
    ensures e.(input := []) == c.(wsPos := q, input := [])
  {
  }
}
