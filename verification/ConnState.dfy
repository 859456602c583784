/** The state of a client connection and what every call and wake-up does to it, as functions:
    client/vsx-connection.c.  What the program tells the outside world is collected in a log. */
module ConnState {
  import opened Bits
  import opened Options
  import opened Proto
  import opened Framing

  /** INT64_MAX. */
  const NEVER := 0x7fff_ffff_ffff_ffff

  /** A reading of the monotonic clock. */
  type Instant = t: int | 0 <= t < NEVER

  /** A reading of the monotonic clock, far enough below INT64_MAX that a timeout can be added to it. */
  type Time = t: int | 0 <= t < NEVER - MAX_TIMEOUT

  const INITIAL_TIMEOUT := 16_000_000
  const MAX_TIMEOUT := 512_000_000
  const KEEP_ALIVE_TIME := 150_000_000
  const STABLE_TIME := 15_000_000

  datatype RunState = Disconnected | Reconnecting | Running | WaitingForReconnect | WaitingForConfiguration

  datatype Flag = WsHeader | Header | KeepAlive | Leave | Shout | Turn | NTiles | Language

  datatype Tile = Tile(num: int, x: int, y: int)

  datatype Poll = Poll(fd: int, read: bool, write: bool, wakeup: int)

  /** Something that write_one_item can put into the output buffer. */
  datatype Item =
    | WsRequest
    | Rejoin(person: seq<byte>, next: nat)
    | Join(conversation: seq<byte>, player: seq<byte>)
    | NewPlayer(room: seq<byte>, player: seq<byte>)
    | NewPrivate(language: seq<byte>, player: seq<byte>)
    | StayAlive | SetNTiles(n: int) | SetLanguage(code: seq<byte>) | LeaveGame | ShoutOut | EndTurn
    | MoveTile(tile: Tile) | Say(text: seq<byte>) | Type(on: bool)

  datatype Effect =
    | PollChanged(poll: Poll, synced: bool)
    | ErrorReported(synced: bool)
    | RunningChanged(running: bool, synced: bool)
    | MessageReceived(payload: seq<byte>, synced: bool)
    | Opened(fd: int)
    | Received(bytes: seq<byte>)
    | ShutDown(fd: int)
    | Queued(item: Item)
    | Sent(buffer: seq<byte>, accepted: nat)

  datatype Conn = Conn(
    hasAddress: bool, address: int,
    hasConversation: bool, conversation: seq<byte>,
    room: Option<seq<byte>>, player: Option<seq<byte>>,
    hasPerson: bool, person: seq<byte>,
    state: RunState, finished: bool, typing: bool, sentTyping: bool, writeFinished: bool, nextMessage: nat,
    timeout: nat, reconnectAt: int, playerIdAt: int,
    dirty: set<Flag>, tiles: seq<Tile>, messages: seq<seq<byte>>, nTiles: int, language: seq<byte>,
    sock: int, poll: Poll, synced: bool, keepAliveAt: int,
    output: seq<byte>, input: seq<byte>, wsPos: nat,
    log: seq<Effect>)

  function Emit(c: Conn, e: Effect): Conn {
    c.(log := c.log + [e])
  }

  // ---------- polling ----------

  function Min(a: int, b: int): int {
    if a < b then a else b
  }

  predicate HasPendingData(c: Conn) {
    |c.output| > 0 || c.dirty != {} || c.tiles != [] || c.messages != [] || c.sentTyping != c.typing
  }

  /** When everything is written and the game is over, the sending half is shut down. */
  predicate ShouldShutDown(c: Conn) {
    c.state == Running && !c.writeFinished && !HasPendingData(c) && c.finished
  }

  function PollFor(c: Conn): Poll {
    Poll(c.sock, c.state == Running,
         c.state == Reconnecting || (c.state == Running && !c.writeFinished && HasPendingData(c)),
         Min(Min(NEVER, c.reconnectAt), c.keepAliveAt))
  }

  function PollEffects(c: Conn): seq<Effect> {
    (if ShouldShutDown(c) then [ShutDown(c.sock)] else []) +
    (if c.poll != PollFor(c) then [PollChanged(PollFor(c), c.synced)] else [])
  }

  function UpdatePoll(c: Conn): Conn {
    c.(writeFinished := c.writeFinished || ShouldShutDown(c), poll := PollFor(c), log := c.log + PollEffects(c))
  }

  // ---------- errors and reconnecting ----------

  function NextTimeout(timeout: nat): nat {
    if timeout == 0 then INITIAL_TIMEOUT
    else if 2 * timeout > MAX_TIMEOUT then MAX_TIMEOUT
    else 2 * timeout
  }

  /** The clock is read twice: to see whether the connection was stable, and to schedule the reconnect. */
  datatype ErrorTimes = ErrorTimes(checked: Time, retry: Time)

  /** The delay of the next reconnect: none when the connection was stable. */
  function Delay(c: Conn, t: ErrorTimes): nat {
    if t.checked - STABLE_TIME >= c.playerIdAt then 0 else c.timeout
  }

  /** The connection after an error, before the poll is updated. */
  function Broken(c: Conn, t: ErrorTimes): Conn {
    c.(sock := -1, keepAliveAt := if c.sock != -1 then NEVER else c.keepAliveAt,
       reconnectAt := t.retry + Delay(c, t), timeout := NextTimeout(Delay(c, t)))
  }

  function ReportError(c: Conn, t: ErrorTimes): Conn {
    var c := UpdatePoll(Broken(c, t));
    Emit(c, ErrorReported(c.synced))
  }

  datatype ConnectResult = NoSocket | NotReady(fd: nat) | Refused(fd: nat) | InProgress(fd: nat) | Connected(fd: nat)

  /** A socket that is connected or connecting; everything about the last one is forgotten. */
  function Connecting(c: Conn, fd: nat, done: bool): Conn {
    c.(reconnectAt := NEVER, playerIdAt := NEVER, sock := fd, state := if done then Running else Reconnecting,
       dirty := c.dirty + {WsHeader, Header}, output := [], input := [], wsPos := 0,
       writeFinished := false, synced := false, log := c.log + [Opened(fd)])
  }

  function Trying(c: Conn, sock: int): Conn {
    c.(reconnectAt := NEVER, playerIdAt := NEVER, sock := sock)
  }

  /** Called when there is no socket. */
  function TryReconnect(c: Conn, r: ConnectResult, t: ErrorTimes): Conn {
    match r
    case NoSocket => ReportError(Trying(c, -1), t)
    case NotReady(fd) => ReportError(Trying(c, fd), t)
    case Refused(fd) => ReportError(Trying(c, fd), t)
    case InProgress(fd) => UpdatePoll(Connecting(c, fd, false))
    case Connected(fd) => UpdatePoll(Connecting(c, fd, true))
  }

  // ---------- reading ----------

  /** What an accepted payload changes. */
  function Absorb(c: Conn, payload: seq<byte>, now: Time): Conn
    requires Accepted(payload)
  {
    var kind := payload[0];
    c.(hasPerson := c.hasPerson || kind == PLAYER_ID,
       person := if kind == PLAYER_ID then payload[1..9] else c.person,
       playerIdAt := if kind == PLAYER_ID then now else c.playerIdAt,
       nextMessage := if kind == MESSAGE then c.nextMessage + 1 else c.nextMessage,
       synced := c.synced || kind == SYNC,
       finished := c.finished || kind in {END, BAD_PLAYER_ID, BAD_CONVERSATION_ID, CONVERSATION_FULL})
  }

  /** All messages but the synchronisation and unknown ones are passed on. */
  predicate PassedOn(payload: seq<byte>) {
    payload != [] && payload[0] != SYNC && payload[0] <= CONVERSATION_FULL
  }

  function Deliver(c: Conn, payload: seq<byte>, now: Time): Conn
    requires Accepted(payload)
  {
    var c := Absorb(c, payload, now);
    if PassedOn(payload) then Emit(c, MessageReceived(payload, c.synced)) else c
  }

  ghost function DeliverAll(c: Conn, payloads: seq<seq<byte>>, now: Time): Conn
    requires AllAccepted(payloads)
    decreases |payloads|
  {
    if payloads == [] then c
    else Deliver(DeliverAll(c, payloads[..|payloads| - 1], now), payloads[|payloads| - 1], now)
  }

  /** A player id is stored before the rest of its message is checked. */
  function Reject(c: Conn, t: Trouble): Conn {
    if t.Rejected? && |t.payload| >= 9 && t.payload[0] == PLAYER_ID then c.(person := t.payload[1..9]) else c
  }

  ghost function Process(c: Conn, bytes: seq<byte>, now: Time, t: ErrorTimes): Conn {
    ParsedAccepted(bytes);
    match Parse(bytes)
    case More(payloads, rest) => UpdatePoll(DeliverAll(c, payloads, now).(input := rest))
    case Stop(payloads, trouble) => ReportError(Reject(DeliverAll(c, payloads, now), trouble), t)
  }

  datatype ReadResult = ReadBlocked | ReadFailed | Got(bytes: seq<byte>)

  /** The end of the stream stops a finished game and is an error otherwise. */
  function EndOfStream(c: Conn, t: ErrorTimes): Conn {
    if c.finished then SetRunning(c, false, t.retry) else ReportError(c, t)
  }

  /** As many of the bytes as there is room for. */
  function Room(c: Conn, bytes: seq<byte>): (got: seq<byte>)
    requires |c.input| <= BUFFER_SIZE
    ensures |c.input| + |got| <= BUFFER_SIZE
  {
    if |bytes| <= BUFFER_SIZE - |c.input| then bytes else bytes[..BUFFER_SIZE - |c.input|]
  }

  /** The input buffer holds these bytes. */
  ghost function Digest(c: Conn, input: seq<byte>, now: Time, t: ErrorTimes): Conn
    requires c.wsPos <= 4
  {
    var (q, n) := Match(c.wsPos, input);
    if q < 4 then c.(wsPos := q, input := [])
    else Process(c.(wsPos := 4, input := input), input[n..], now, t)
  }

  /** Reading nothing means the end of the stream. */
  ghost function HandleRead(c: Conn, r: ReadResult, now: Time, t: ErrorTimes): Conn
    requires |c.input| <= BUFFER_SIZE && c.wsPos <= 4
  {
    match r
    case ReadBlocked => c
    case ReadFailed => ReportError(c, t)
    case Got(bytes) =>
      if Room(c, bytes) == [] then EndOfStream(c, t)
      else Digest(Emit(c, Received(Room(c, bytes))), c.input + Room(c, bytes), now, t)
  }

  // ---------- writing ----------

  function Ascii(s: string): seq<byte> {
    seq(|s|, i requires 0 <= i < |s| => s[i] as int % 256)
  }

  const WS_REQUEST: seq<byte> :=
    Ascii("GET / HTTP/1.1\r\n" + "Upgrade: websocket\r\n" + "Connection: Upgrade\r\n" +
          "Sec-WebSocket-Key: dGhlIHNhbXBsZSBub25jZQ==\r\n" + "\r\n")

  function Payload(item: Item): seq<byte> {
    match item
    case WsRequest => []
    case Rejoin(person, next) => [0x81] + person + Integer(next, 2)
    case Join(conversation, player) => [0x8d] + conversation + CString(player)
    case NewPlayer(room, player) => [0x80] + CString(room) + CString(player)
    case NewPrivate(language, player) => [0x8c] + CString(language) + CString(player)
    case StayAlive => [0x83]
    case SetNTiles(n) => [0x8b] + Integer(n, 1)
    case SetLanguage(code) => [0x8e] + CString(code)
    case LeaveGame => [0x84]
    case ShoutOut => [0x8a]
    case EndTurn => [0x89]
    case MoveTile(tile) => [0x88] + Integer(tile.num, 1) + Integer(tile.x, 2) + Integer(tile.y, 2)
    case Say(text) => [0x85] + CString(text)
    case Type(on) => [if on then 0x86 else 0x87]
  }

  /** One WebSocket request, or one whole frame. */
  function Encode(item: Item): (r: seq<byte>)
    ensures |r| > 0
  {
    if item.WsRequest? then WS_REQUEST else Frame(Payload(item))
  }

  /** A person can be created or found again. */
  predicate Named(c: Conn) {
    c.hasPerson || c.player.Some?
  }

  function HeaderItem(c: Conn): Item
    requires Named(c)
  {
    if c.hasPerson then Rejoin(c.person, c.nextMessage)
    else if c.hasConversation then Join(c.conversation, c.player.value)
    else if c.room.Some? then NewPlayer(c.room.value, c.player.value)
    else NewPrivate(c.language, c.player.value)
  }

  /** What is waiting, the most urgent first. */
  function NextItem(c: Conn): Option<Item>
    requires Named(c)
  {
    if WsHeader in c.dirty then Some(WsRequest)
    else if Header in c.dirty then Some(HeaderItem(c))
    else if KeepAlive in c.dirty then Some(StayAlive)
    else if NTiles in c.dirty then Some(SetNTiles(c.nTiles))
    else if Language in c.dirty then Some(SetLanguage(c.language))
    else if Leave in c.dirty then Some(LeaveGame)
    else if Shout in c.dirty then Some(ShoutOut)
    else if Turn in c.dirty then Some(EndTurn)
    else if c.tiles != [] then Some(MoveTile(c.tiles[0]))
    else if c.messages != [] then Some(Say(c.messages[0]))
    else if c.typing != c.sentTyping then Some(Type(c.typing))
    else None
  }

  /** The flag that asks for an item. */
  function FlagsOf(item: Item): set<Flag> {
    match item
    case WsRequest => {WsHeader}
    case StayAlive => {KeepAlive}
    case SetNTiles(_) => {NTiles}
    case SetLanguage(_) => {Language}
    case LeaveGame => {Leave}
    case ShoutOut => {Shout}
    case EndTurn => {Turn}
    case MoveTile(_) => {}
    case Say(_) => {}
    case Type(_) => {}
    case _ => {Header}
  }

  /** The item is no longer waiting.  The server takes a message for the end of typing. */
  function Taken(c: Conn, item: Item): Conn {
    c.(dirty := c.dirty - FlagsOf(item),
       tiles := if item.MoveTile? && c.tiles != [] then c.tiles[1..] else c.tiles,
       messages := if item.Say? && c.messages != [] then c.messages[1..] else c.messages,
       sentTyping := if item.Say? then false else if item.Type? then item.on else c.sentTyping)
  }

  function Queue(c: Conn, item: Item): (r: Conn)
    ensures |r.output| == |c.output| + |Encode(item)| && (Named(c) ==> Named(r))
  {
    hide Encode, FlagsOf;
    var c := Taken(c, item);
    Emit(c.(output := c.output + Encode(item)), Queued(item))
  }

  predicate FitsIn(c: Conn, item: Item)
    ensures FitsIn(c, item) <==> |c.output| + |Encode(item)| <= BUFFER_SIZE
  {
    |c.output| + |Encode(item)| <= BUFFER_SIZE
  }

  /** Items are queued until nothing is waiting or the most urgent one does not fit. */
  function Fill(c: Conn): (r: Conn)
    requires Named(c) && |c.output| <= BUFFER_SIZE
    ensures |r.output| <= BUFFER_SIZE
    decreases BUFFER_SIZE - |c.output|
  {
    hide *;
    var item := NextItem(c);
    if item.None? || !FitsIn(c, item.value) then c else Fill(Queue(c, item.value))
  }

  datatype WriteResult = WriteBlocked | WriteFailed | Wrote(n: nat)

  function Accept(c: Conn, n: nat): Conn {
    var n := if n <= |c.output| then n else |c.output|;
    Emit(c.(output := c.output[n..]), Sent(c.output, n))
  }

  function HandleWrite(c: Conn, r: WriteResult, t: ErrorTimes): Conn
    requires Named(c) && |c.output| <= BUFFER_SIZE
  {
    var c := Fill(c);
    match r
    case WriteBlocked => Accept(c, 0)
    case WriteFailed => ReportError(Accept(c, 0), t)
    case Wrote(n) => UpdatePoll(Accept(c, n).(keepAliveAt := t.retry + KEEP_ALIVE_TIME))
  }

  // ---------- waking up ----------

  datatype Ready = Ready(readable: bool, writable: bool)

  /** What the system answers during one wake-up; only the answers that are asked for matter. */
  datatype World = World(now: Instant, arrival: Time, times: ErrorTimes,
                         connect: ConnectResult, read: ReadResult, write: WriteResult)

  /** The polls that tell that connecting has finished, and the keep-alive. */
  function Awake(c: Conn, ready: Ready, now: Instant): (r: Conn)
    ensures r.output == c.output && r.input == c.input && r.wsPos == c.wsPos
    ensures r.hasPerson == c.hasPerson && r.player == c.player
  {
    c.(state := if c.state == Reconnecting && ready.writable then Running else c.state,
       keepAliveAt := if now >= c.keepAliveAt then NEVER else c.keepAliveAt,
       dirty := if now >= c.keepAliveAt then c.dirty + {KeepAlive} else c.dirty)
  }

  ghost function WakeUp(c: Conn, ready: Ready, w: World): Conn
    requires c.sock != -1 ==> Named(c)
    requires |c.output| <= BUFFER_SIZE && |c.input| <= BUFFER_SIZE && c.wsPos <= 4
  {
    hide Awake;
    if c.sock == -1 then
      if w.now >= c.reconnectAt then TryReconnect(c, w.connect, w.times) else c
    else
      var c := Awake(c, ready, w.now);
      if ready.readable then HandleRead(c, w.read, w.arrival, w.times)
      else if ready.writable then HandleWrite(c, w.write, w.times)
      else UpdatePoll(c)
  }

  // ---------- running, configuration, reset ----------

  predicate HasConfiguration(c: Conn) {
    c.hasAddress && Named(c)
  }

  function StartConnecting(c: Conn, now: Time): Conn {
    if HasConfiguration(c) then UpdatePoll(c.(timeout := 0, reconnectAt := now, state := WaitingForReconnect))
    else c.(timeout := 0, reconnectAt := NEVER, state := WaitingForConfiguration)
  }

  /** Stopped, with the socket closed; a reconnect scheduled by an earlier error is left alone. */
  function Closed(c: Conn): Conn {
    c.(state := Disconnected, sock := -1, keepAliveAt := if c.sock != -1 then NEVER else c.keepAliveAt)
  }

  function Cancelled(c: Conn): Conn {
    c.(reconnectAt := NEVER, state := Disconnected)
  }

  function Abandoned(c: Conn): Conn {
    c.(state := Disconnected)
  }

  function Halt(c: Conn): Conn {
    match c.state
    case Disconnected => c
    case WaitingForReconnect => UpdatePoll(Cancelled(c))
    case WaitingForConfiguration => Abandoned(c)
    case _ => UpdatePoll(Closed(c))
  }

  function SetRunningInternal(c: Conn, running: bool, now: Time): Conn {
    if !running then Halt(c)
    else if c.state == Disconnected then StartConnecting(c, now)
    else c
  }

  predicate IsRunning(c: Conn) {
    c.state != Disconnected
  }

  function SetRunning(c: Conn, running: bool, now: Time): Conn {
    if running == IsRunning(c) then c
    else
      var c := SetRunningInternal(c, running, now);
      Emit(c, RunningChanged(running, c.synced))
  }

  function Cleared(c: Conn): Conn {
    c.(sock := -1, room := None, player := None, hasPerson := false, hasConversation := false,
       finished := false, typing := false, sentTyping := false, nextMessage := 0, language := [],
       dirty := {}, keepAliveAt := NEVER, reconnectAt := NEVER, playerIdAt := NEVER, timeout := 0,
       tiles := [], messages := [])
  }

  /** The clock is not read. */
  function Reset(c: Conn): Conn {
    UpdatePoll(SetRunning(Cleared(c), false, 0))
  }

  /** All zero, as vsx_calloc leaves it, except that there is no socket. */
  function Blank(): Conn {
    Conn(false, 0, false, [], None, None, false, [], Disconnected, false, false, false, false, 0, 0, 0, 0,
         {}, [], [], 0, [], -1, Poll(0, false, false, 0), false, 0, [], [], 0, [])
  }

  /** A new connection; nobody can have been listening yet. */
  function New(): Conn {
    Reset(Blank()).(log := [])
  }

  function MaybeStart(c: Conn, now: Time): Conn {
    if c.state == WaitingForConfiguration then StartConnecting(c, now) else c
  }

  function SetPerson(c: Conn, id: seq<byte>, now: Time): Conn {
    if c.hasPerson then c else MaybeStart(c.(person := id, hasPerson := true), now)
  }

  function SetPlayer(c: Conn, name: seq<byte>, now: Time): Conn {
    if c.player.Some? then c else MaybeStart(c.(player := Some(name)), now)
  }

  function SetRoom(c: Conn, name: seq<byte>, now: Time): Conn {
    if c.room.Some? then c else MaybeStart(c.(room := Some(name)), now)
  }

  function SetConversation(c: Conn, id: seq<byte>, now: Time): Conn {
    if c.hasConversation then c else MaybeStart(c.(hasConversation := true, conversation := id), now)
  }

  function SetAddress(c: Conn, address: int, now: Time): Conn {
    if c.hasAddress then c else MaybeStart(c.(hasAddress := true, address := address), now)
  }

  // ---------- requests ----------

  function SetTyping(c: Conn, typing: bool): Conn {
    if c.typing != typing then UpdatePoll(c.(typing := typing)) else c
  }

  function Raise(c: Conn, flag: Flag): Conn {
    UpdatePoll(c.(dirty := c.dirty + {flag}))
  }

  /** A pending move of the same tile takes the new place. */
  function Squash(tiles: seq<Tile>, tile: Tile): seq<Tile> {
    if tiles == [] then [tile]
    else if tiles[0].num == tile.num then [tile] + tiles[1..]
    else [tiles[0]] + Squash(tiles[1..], tile)
  }

  function RequestMove(c: Conn, tile: Tile): Conn {
    UpdatePoll(c.(tiles := Squash(c.tiles, tile)))
  }

  function RequestNTiles(c: Conn, n: int): Conn {
    Raise(c.(nTiles := n), NTiles)
  }

  /** The language code is kept in eight bytes with its terminating zero. */
  function SetDefaultLanguage(c: Conn, code: seq<byte>): Conn {
    c.(language := if |code| <= 7 then code else code[..7])
  }

  function RequestLanguage(c: Conn, code: seq<byte>): Conn {
    Raise(SetDefaultLanguage(c, code), Language)
  }

  function RequestMessage(c: Conn, text: seq<byte>): Conn {
    UpdatePoll(c.(messages := c.messages + [Clip(text)]))
  }

  // ---------- runs ----------

  datatype Op =
    | DoSetTyping(typing: bool) | DoShout | DoTurn | DoLeave | DoMove(tile: Tile) | DoNTiles(n: int)
    | DoDefaultLanguage(code: seq<byte>) | DoLanguage(code: seq<byte>) | DoMessage(text: seq<byte>)
    | DoSetRunning(running: bool, now: Time) | DoReset
    | DoPerson(id: seq<byte>, now: Time) | DoPlayer(name: seq<byte>, now: Time) | DoRoom(name: seq<byte>, now: Time)
    | DoConversation(id: seq<byte>, now: Time) | DoAddress(address: int, now: Time)
    | DoWakeUp(ready: Ready, world: World)

  /** What holds between calls. */
  ghost predicate Inv(c: Conn) {
    && (c.sock == -1 || c.sock >= 0)
    && |c.output| <= BUFFER_SIZE && |c.input| <= BUFFER_SIZE && c.wsPos <= 4 && c.timeout <= MAX_TIMEOUT
    && 0 <= c.reconnectAt <= NEVER
    && (c.sock != -1 ==> && Live(c) && c.reconnectAt == NEVER && |c.input| < BUFFER_SIZE
                         && Framing.Ready(Reading(c.wsPos, c.input)))
    && (c.sock != -1 || c.reconnectAt != NEVER ==> HasConfiguration(c))
    && (c.state == WaitingForConfiguration ==> c.sock == -1 && c.reconnectAt == NEVER && !HasConfiguration(c))
    && Distinct(c.tiles)
  }

  predicate Live(c: Conn) {
    c.state == Running || c.state == Reconnecting
  }

  ghost predicate Distinct(tiles: seq<Tile>) {
    forall i, j :: 0 <= i < j < |tiles| ==> tiles[i].num != tiles[j].num
  }

  ghost function Step(c: Conn, op: Op): Conn
    requires Inv(c)
  {
    match op
    case DoSetTyping(typing) => SetTyping(c, typing)
    case DoShout => Raise(c, Shout)
    case DoTurn => Raise(c, Turn)
    case DoLeave => Raise(c, Leave)
    case DoMove(tile) => RequestMove(c, tile)
    case DoNTiles(n) => RequestNTiles(c, n)
    case DoDefaultLanguage(code) => SetDefaultLanguage(c, code)
    case DoLanguage(code) => RequestLanguage(c, code)
    case DoMessage(text) => RequestMessage(c, text)
    case DoSetRunning(running, now) => SetRunning(c, running, now)
    case DoReset => Reset(c)
    case DoPerson(id, now) => SetPerson(c, id, now)
    case DoPlayer(name, now) => SetPlayer(c, name, now)
    case DoRoom(name, now) => SetRoom(c, name, now)
    case DoConversation(id, now) => SetConversation(c, id, now)
    case DoAddress(address, now) => SetAddress(c, address, now)
    case DoWakeUp(ready, w) => WakeUp(c, ready, w)
  }
}
