/** The commands to the server and the messages from it, field by field: what is written is read back, and what is
    accepted is what can be written. */
module ConnWire {
  import opened Bits
  import opened Options
  import opened Proto
  import opened ConnState

  // ---------- fields ----------

  /** Two bytes as a number, low byte first. */
  function Two(bytes: seq<byte>, i: nat): nat
    requires i + 2 <= |bytes|
  {
    bytes[i] as int + 256 * bytes[i + 1] as int
  }

  function Signed(v: nat): int {
    if v < 32768 then v else v - 65536
  }

  /** The number that a signed field of two bytes can hold. */
  function Wrapped(x: int): int {
    Signed(x % 65536)
  }

  /** The bytes before the first zero, and those behind it. */
  function Cut(bytes: seq<byte>): (r: Option<(seq<byte>, seq<byte>)>)
  {
    if bytes == [] then None
    else if bytes[0] == 0 then Some(([], bytes[1..]))
    else
      match Cut(bytes[1..])
      case None => None
      case Some((text, rest)) => Some(([bytes[0]] + text, rest))
  }

  lemma {:induction false} CutBack(text: seq<byte>, rest: seq<byte>)
    requires 0 !in text
    ensures Cut(CString(text) + rest) == Some((text, rest))
  {
    if text == [] {
      assert CString(text) + rest == [0] + rest;
    } else {
      CutBack(text[1..], rest);
      assert (CString(text) + rest)[1..] == CString(text[1..]) + rest;
      assert (CString(text) + rest)[0] == text[0] && text == [text[0]] + text[1..];
    }
  }

  lemma TwoBytes(x: int)
    ensures Integer(x, 2) == [x % 65536 % 256, x % 65536 / 256] && Integer(x, 1) == [x % 256]
  {
    assert Pow2(16) == 65536 && Pow2(8) == 256;
    var v := if x >= 0 then x else x % 65536;
    assert LittleEndian(v, 2) == [v % 256] + ([v / 256 % 256] + []);
    Low(v);
    var u := if x >= 0 then x else x % 256;
    assert LittleEndian(u, 1) == [u % 256] + [];
  }

  lemma Low(v: nat)
    ensures v / 256 % 256 == v % 65536 / 256 && v % 256 == v % 65536 % 256
  {
    var q, r := v / 65536, v % 65536;
    assert v == 65536 * q + r;
    assert v / 256 == 256 * q + r / 256;
  }

  // ---------- commands ----------

  /** The bytes are one string and nothing else. */
  function OneText(bytes: seq<byte>): Option<seq<byte>> {
    match Cut(bytes)
    case None => None
    case Some((text, rest)) => if rest == [] then Some(text) else None
  }

  /** Two strings and nothing else. */
  function TwoTexts(bytes: seq<byte>): Option<(seq<byte>, seq<byte>)> {
    match Cut(bytes)
    case None => None
    case Some((a, rest)) =>
      match OneText(rest)
      case None => None
      case Some(b) => Some((a, b))
  }

  /** The commands that consist of their first byte. */
  function Bare(code: byte): Option<Item> {
    if code == 0x83 then Some(StayAlive)
    else if code == 0x84 then Some(LeaveGame)
    else if code == 0x86 then Some(Type(true))
    else if code == 0x87 then Some(Type(false))
    else if code == 0x89 then Some(EndTurn)
    else if code == 0x8a then Some(ShoutOut)
    else None
  }

  /** What the server makes of a command. */
  function ReadCommand(p: seq<byte>): Option<Item> {
    if p == [] then None
    else if p[0] == 0x80 then
      (match TwoTexts(p[1..]) case Some((room, player)) => Some(NewPlayer(room, player)) case None => None)
    else if p[0] == 0x81 then if |p| == 11 then Some(Rejoin(p[1..9], Two(p, 9))) else None
    else if p[0] == 0x85 then (match OneText(p[1..]) case Some(text) => Some(Say(text)) case None => None)
    else if p[0] == 0x88 then
      if |p| == 6 then Some(MoveTile(Tile(p[1], Signed(Two(p, 2)), Signed(Two(p, 4))))) else None
    else if p[0] == 0x8b then if |p| == 2 then Some(SetNTiles(p[1])) else None
    else if p[0] == 0x8c then
      (match TwoTexts(p[1..]) case Some((language, player)) => Some(NewPrivate(language, player)) case None => None)
    else if p[0] == 0x8d then
      if |p| < 9 then None
      else (match OneText(p[9..]) case Some(player) => Some(Join(p[1..9], player)) case None => None)
    else if p[0] == 0x8e then (match OneText(p[1..]) case Some(code) => Some(SetLanguage(code)) case None => None)
    else if |p| == 1 then Bare(p[0])
    else None
  }

  /** Strings end at their first zero, and an identifier has eight bytes. */
  predicate Spelled(item: Item) {
    match item
    case WsRequest => false
    case Rejoin(person, _) => |person| == 8
    case Join(conversation, player) => |conversation| == 8 && 0 !in player
    case NewPlayer(room, player) => 0 !in room && 0 !in player
    case NewPrivate(language, player) => 0 !in language && 0 !in player
    case SetLanguage(code) => 0 !in code
    case Say(text) => 0 !in text
    case _ => true
  }

  /** Numbers are cut to the size of their field. */
  function Sent(item: Item): Item {
    match item
    case Rejoin(person, next) => Rejoin(person, next % 65536)
    case SetNTiles(n) => SetNTiles(n % 256)
    case MoveTile(tile) => MoveTile(Tile(tile.num % 256, Wrapped(tile.x), Wrapped(tile.y)))
    case _ => item
  }

  lemma StringRead(first: byte, text: seq<byte>)
    requires 0 !in text
    ensures Cut(([first] + CString(text))[1..]) == Some((text, []))
  {
    CutBack(text, []);
    assert ([first] + CString(text))[1..] == CString(text) + [];
  }

  lemma TwoStringsRead(first: byte, a: seq<byte>, b: seq<byte>)
    requires 0 !in a && 0 !in b
    ensures Cut(([first] + CString(a) + CString(b))[1..]) == Some((a, CString(b))) && Cut(CString(b)) == Some((b, []))
  {
    CutBack(a, CString(b));
    CutBack(b, []);
    assert ([first] + CString(a) + CString(b))[1..] == CString(a) + CString(b);
    assert CString(b) + [] == CString(b);
  }

  lemma RejoinRead(person: seq<byte>, next: nat)
    requires |person| == 8
    ensures ReadCommand(Payload(Rejoin(person, next))) == Some(Rejoin(person, next % 65536))
  {
    TwoBytes(next);
    var p := Payload(Rejoin(person, next));
    assert p == [0x81] + person + [next % 65536 % 256, next % 65536 / 256];
    assert p[1..9] == person;
  }

  lemma JoinRead(conversation: seq<byte>, player: seq<byte>)
    requires |conversation| == 8 && 0 !in player
    ensures ReadCommand(Payload(Join(conversation, player))) == Some(Join(conversation, player))
  {
    var p := Payload(Join(conversation, player));
    assert p == [0x8d] + conversation + CString(player);
    assert p[1..9] == conversation;
    CutBack(player, []);
    assert p[9..] == CString(player) + [];
  }

  lemma MoveRead(tile: Tile)
    ensures ReadCommand(Payload(MoveTile(tile))) == Some(Sent(MoveTile(tile)))
  {
    TwoBytes(tile.num);
    TwoBytes(tile.x);
    TwoBytes(tile.y);
    var p := Payload(MoveTile(tile));
    var x, y := tile.x % 65536, tile.y % 65536;
    assert p == [0x88, tile.num % 256, x % 256, x / 256, y % 256, y / 256];
  }

  /** Every command is read back from its payload. */
  lemma CommandRead(item: Item)
    requires Spelled(item)
    ensures ReadCommand(Payload(item)) == Some(Sent(item))
  {
    hide Cut, CString, Integer;
    match item
    case Rejoin(person, next) => RejoinRead(person, next);
    case Join(conversation, player) => JoinRead(conversation, player);
    case NewPlayer(room, player) => TwoStringsRead(0x80, room, player);
    case NewPrivate(language, player) => TwoStringsRead(0x8c, language, player);
    case SetLanguage(code) => StringRead(0x8e, code);
    case Say(text) => StringRead(0x85, text);
    case SetNTiles(n) => TwoBytes(n);
    case MoveTile(tile) => MoveRead(tile);
    case _ =>
  }

  /** No message, move or language can block the others: each fits the empty buffer of 1038 bytes. */
  lemma ItemFits(item: Item)
    requires item.Say? ==> |item.text| <= 1000
    requires item.SetLanguage? ==> |item.code| <= 7
    requires !item.WsRequest? && !item.Join? && !item.NewPlayer? && !item.NewPrivate?
    requires item.Rejoin? ==> |item.person| == 8
    ensures |Encode(item)| <= 1038 == BUFFER_SIZE && MAX_MESSAGE == 1000
  {
    hide Integer;
    FrameSize(Payload(item));
  }

  lemma FrameSize(payload: seq<byte>)
    requires |payload| <= 1024
    ensures |Frame(payload)| <= |payload| + 4
  {
  }

  /** The request that starts a connection is closed by an empty line. */
  lemma RequestEnds()
    ensures |WS_REQUEST| > 4 && WS_REQUEST[|WS_REQUEST| - 4..] == [13, 10, 13, 10]
    ensures WS_REQUEST[..5] == ['G' as int, 'E' as int, 'T' as int, 32, '/' as int]
  {
    var key := "Sec-WebSocket-Key: dGhlIHNhbXBsZSBub25jZQ==\r\n";
    assert key[|key| - 2..] == "\r\n";
  }

  // ---------- messages ----------

  /** A string in a message: valid, and without a zero. */
  ghost predicate Text(text: seq<byte>) {
    0 !in text && ValidText(text)
  }

  /** The messages of the server.  The letter of a tile is one character. */
  datatype Message =
    | PlayerId(id: seq<byte>, self: byte) | Shown(player: byte, text: seq<byte>) | TileCount(n: byte)
    | TileAt(num: byte, x: seq<byte>, y: seq<byte>, letter: seq<byte>, player: byte)
    | PlayerName(player: byte, name: seq<byte>) | PlayerFlags(player: byte, flags: byte) | Shouted(player: byte)
    | Synced | Ended | BadPlayerId | ConversationId(id: seq<byte>) | BadConversationId
    | LanguageCode(code: seq<byte>) | ConversationFull

  ghost predicate Proper(m: Message) {
    match m
    case PlayerId(id, _) => |id| == 8
    case ConversationId(id) => |id| == 8
    case Shown(_, text) => Text(text)
    case PlayerName(_, name) => Text(name)
    case LanguageCode(code) => Text(code)
    case TileAt(_, x, y, letter, _) => |x| == 2 && |y| == 2 && Text(letter) && OneChar(letter)
    case _ => true
  }

  function Bytes(m: Message): seq<byte> {
    match m
    case PlayerId(id, self) => [0x00] + id + [self]
    case Shown(player, text) => [0x01, player] + CString(text)
    case TileCount(n) => [0x02, n]
    case TileAt(num, x, y, letter, player) => [0x03, num] + x + y + CString(letter) + [player]
    case PlayerName(player, name) => [0x04, player] + CString(name)
    case PlayerFlags(player, flags) => [0x05, player, flags]
    case Shouted(player) => [0x06, player]
    case Synced => [0x07]
    case Ended => [0x08]
    case BadPlayerId => [0x09]
    case ConversationId(id) => [0x0a] + id
    case BadConversationId => [0x0b]
    case LanguageCode(code) => [0x0c] + CString(code)
    case ConversationFull => [0x0d]
  }

  lemma OneStringIs(bytes: seq<byte>)
    ensures OneString(bytes) <==> |bytes| > 0 && bytes == CString(bytes[..|bytes| - 1]) && Text(bytes[..|bytes| - 1])
  {
    hide ValidText;
  }

  lemma TextIs(text: seq<byte>)
    ensures OneString(CString(text)) <==> Text(text)
  {
    hide ValidText;
    assert CString(text)[..|text|] == text;
  }

  /** Every proper message is accepted. */
  lemma ProperAccepted(m: Message)
    requires Proper(m)
    ensures Accepted(Bytes(m))
  {
    hide Accepted, Bytes, Proper;
    if m.TileAt? {
      TileAccepted(m);
    } else if m.Shown? || m.PlayerName? || m.LanguageCode? {
      TextAccepted(m);
    } else {
      FlatAccepted(m);
    }
  }

  lemma FlatAccepted(m: Message)
    requires Proper(m) && !m.TileAt? && !m.Shown? && !m.PlayerName? && !m.LanguageCode?
    ensures Accepted(Bytes(m))
  {
    hide OneString, ValidText, OneChar, Text;
  }

  lemma TextAccepted(m: Message)
    requires Proper(m) && (m.Shown? || m.PlayerName? || m.LanguageCode?)
    ensures Accepted(Bytes(m))
  {
    hide OneString, ValidText, OneChar, Text, CString;
    var p := Bytes(m);
    match m
    case Shown(_, text) =>
      TextIs(text);
      assert p[2..] == CString(text);
    case PlayerName(_, name) =>
      TextIs(name);
      assert p[2..] == CString(name);
    case LanguageCode(code) =>
      TextIs(code);
      assert p[1..] == CString(code);
  }

  lemma TileAccepted(m: Message)
    requires Proper(m) && m.TileAt?
    ensures Accepted(Bytes(m))
  {
    hide OneString, ValidText, OneChar, Text;
    var p, letter := Bytes(m), m.letter;
    TextIs(letter);
    CharNotEmpty(letter);
    assert p[6..|p| - 1] == CString(letter) && p[6..|p| - 2] == letter;
  }

  lemma CharNotEmpty(letter: seq<byte>)
    requires OneChar(letter)
    ensures letter != []
  {
  }

  /** The message that a payload of a known type is. */
  function Parsed(p: seq<byte>): Message
    requires Accepted(p) && p[0] <= 13
  {
    match p[0]
    case 0 => PlayerId(p[1..9], p[9])
    case 1 => Shown(p[1], p[2..|p| - 1])
    case 2 => TileCount(p[1])
    case 3 => TileAt(p[1], p[2..4], p[4..6], p[6..|p| - 2], p[|p| - 1])
    case 4 => PlayerName(p[1], p[2..|p| - 1])
    case 5 => PlayerFlags(p[1], p[2])
    case 6 => Shouted(p[1])
    case 7 => Synced
    case 8 => Ended
    case 9 => BadPlayerId
    case 10 => ConversationId(p[1..9])
    case 11 => BadConversationId
    case 12 => LanguageCode(p[1..|p| - 1])
    case _ => ConversationFull
  }

  /** And whatever is accepted, of a type that is known, is a proper message. */
  lemma AcceptedProper(p: seq<byte>)
    requires Accepted(p) && p[0] <= 13
    ensures Proper(Parsed(p)) && Bytes(Parsed(p)) == p
  {
    hide Proper, Bytes, Parsed, OneString, OneChar;
    if p[0] == 3 {
      TileProper(p);
    } else if p[0] in {1, 4, 12} {
      TextProper(p);
    } else if p[0] in {0, 10} {
      IdProper(p);
    } else {
      FlatProper(p);
    }
  }

  lemma TextProper(p: seq<byte>)
    requires Accepted(p) && p[0] in {1, 4, 12}
    ensures Proper(Parsed(p)) && Bytes(Parsed(p)) == p
  {
    hide OneString, ValidText, OneChar, Text, CString;
    if p[0] == 12 {
      StringEnd(p, 1);
    } else {
      StringEnd(p, 2);
    }
  }

  /** A payload that ends in a string. */
  lemma StringEnd(p: seq<byte>, i: nat)
    requires 1 <= i <= 2 && i <= |p| && OneString(p[i..])
    ensures i < |p| && Text(p[i..|p| - 1])
    ensures i == 1 ==> p == [p[0]] + CString(p[1..|p| - 1])
    ensures i == 2 ==> p == [p[0], p[1]] + CString(p[2..|p| - 1])
  {
    hide OneString, ValidText, Text;
    var end := p[i..];
    OneStringIs(end);
    assert end[..|end| - 1] == p[i..|p| - 1];
    if i == 1 { assert p == [p[0]] + end; } else { assert p == [p[0], p[1]] + end; }
  }

  lemma IdProper(p: seq<byte>)
    requires Accepted(p) && p[0] in {0, 10}
    ensures Proper(Parsed(p)) && Bytes(Parsed(p)) == p
  {
    hide OneString, ValidText, OneChar, Text;
    if p[0] == 0 {
      assert p == [p[0]] + p[1..9] + [p[9]];
    } else {
      assert p == [p[0]] + p[1..9];
    }
  }

  lemma FlatProper(p: seq<byte>)
    requires Accepted(p) && p[0] in {2, 5, 6, 7, 8, 9, 11, 13}
    ensures Proper(Parsed(p)) && Bytes(Parsed(p)) == p
  {
    hide OneString, ValidText, OneChar, Text;
  }

  lemma TileProper(p: seq<byte>)
    requires Accepted(p) && p[0] == 3
    ensures Proper(Parsed(p)) && Bytes(Parsed(p)) == p
  {
    hide OneString, ValidText, OneChar, Text;
    var middle := p[6..|p| - 1];
    OneStringIs(middle);
    assert middle[..|middle| - 1] == p[6..|p| - 2];
    assert p == [p[0], p[1]] + p[2..4] + p[4..6] + middle + [p[|p| - 1]];
  }

  /** What each message changes; everything but the synchronisation is passed on. */
  lemma MessageMeans(c: Conn, m: Message, now: Time)
    requires Proper(m)
    ensures Accepted(Bytes(m))
    ensures var d := Deliver(c, Bytes(m), now);
            && d.hasPerson == (c.hasPerson || m.PlayerId?)
            && d.person == (if m.PlayerId? then m.id else c.person)
            && d.playerIdAt == (if m.PlayerId? then now else c.playerIdAt)
            && d.nextMessage == (if m.Shown? then c.nextMessage + 1 else c.nextMessage)
            && d.synced == (c.synced || m.Synced?)
            && d.finished == (c.finished || m.Ended? || m.BadPlayerId? || m.BadConversationId? || m.ConversationFull?)
            && d.log == c.log + (if m.Synced? then [] else [MessageReceived(Bytes(m), c.synced)])
  {
    hide Accepted, Proper;
    ProperAccepted(m);
    if m.PlayerId? { FirstId(m.id, m.self); }
    assert c.log + [] == c.log;
  }

  lemma FirstId(id: seq<byte>, self: byte)
    requires Proper(PlayerId(id, self))
    ensures ([0x00] + id + [self])[1..9] == id
  {
  }

  /** A message of an unknown type changes nothing. */
  lemma UnknownIgnored(c: Conn, p: seq<byte>, now: Time)
    requires p != [] && p[0] > 13
    ensures Accepted(p) && Deliver(c, p, now) == c
  {
  }
}
