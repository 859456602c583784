/** The calls of client/vsx-connection.c in two groups, so that what holds of a group is proved once: those that ask for
    something to be sent, and those that complete the configuration. */
module ConnOps {
  import opened Bits
  import opened Options
  import opened Proto
  import opened ConnState

  // ---------- asking for something to be sent ----------

  predicate IsRequest(op: Op) {
    || op.DoSetTyping? || op.DoShout? || op.DoTurn? || op.DoLeave? || op.DoMove?
    || op.DoNTiles? || op.DoDefaultLanguage? || op.DoLanguage? || op.DoMessage?
  }

  /** The flag that a request sets. */
  function FlagFor(op: Op): set<Flag> {
    match op
    case DoShout => {Shout}
    case DoTurn => {Turn}
    case DoLeave => {Leave}
    case DoNTiles(_) => {NTiles}
    case DoLanguage(_) => {Language}
    case _ => {}
  }

  /** The request noted, before the poll is updated. */
  function Noted(c: Conn, op: Op): Conn
    requires IsRequest(op)
  {
    c.(typing := if op.DoSetTyping? then op.typing else c.typing,
       dirty := c.dirty + FlagFor(op),
       tiles := if op.DoMove? then Squash(c.tiles, op.tile) else c.tiles,
       messages := if op.DoMessage? then c.messages + [Clip(op.text)] else c.messages,
       nTiles := if op.DoNTiles? then op.n else c.nTiles,
       language := if op.DoDefaultLanguage? || op.DoLanguage? then SetDefaultLanguage(c, op.code).language
                   else c.language)
  }

  /** Nothing new has to be sent. */
  predicate Silently(c: Conn, op: Op) {
    op.DoDefaultLanguage? || (op.DoSetTyping? && c.typing == op.typing)
  }

  /** The step notes the request and, if there is something new to send, updates the poll. */
  ghost predicate NotesRequest(c: Conn, op: Op)
    requires Inv(c) && IsRequest(op)
  {
    Step(c, op) == if Silently(c, op) then Noted(c, op) else UpdatePoll(Noted(c, op))
  }

  lemma NotesTyping(c: Conn, typing: bool)
    requires Inv(c)
    ensures NotesRequest(c, DoSetTyping(typing))
  {
    hide Inv, UpdatePoll;
    assert c.dirty + {} == c.dirty;
  }

  lemma NotesFlag(c: Conn, op: Op)
    requires Inv(c) && (op.DoShout? || op.DoTurn? || op.DoLeave?)
    ensures NotesRequest(c, op)
  {
    hide Inv, UpdatePoll;
    assert Noted(c, op) == c.(dirty := c.dirty + FlagFor(op));
  }

  lemma NotesMove(c: Conn, tile: Tile)
    requires Inv(c)
    ensures NotesRequest(c, DoMove(tile))
  {
    hide Inv, UpdatePoll, Squash;
    assert c.dirty + {} == c.dirty;
  }

  lemma NotesNTiles(c: Conn, n: int)
    requires Inv(c)
    ensures NotesRequest(c, DoNTiles(n))
  {
    hide Inv, UpdatePoll;
  }

  lemma NotesDefault(c: Conn, code: seq<byte>)
    requires Inv(c)
    ensures NotesRequest(c, DoDefaultLanguage(code))
  {
    hide Inv, UpdatePoll;
    assert c.dirty + {} == c.dirty;
  }

  lemma NotesLanguage(c: Conn, code: seq<byte>)
    requires Inv(c)
    ensures NotesRequest(c, DoLanguage(code))
  {
    hide Inv, UpdatePoll;
  }

  lemma NotesMessage(c: Conn, text: seq<byte>)
    requires Inv(c)
    ensures NotesRequest(c, DoMessage(text))
  {
    hide Inv, UpdatePoll, Clip;
    assert c.dirty + {} == c.dirty;
  }

  lemma StepRequest(c: Conn, op: Op)
    requires Inv(c) && IsRequest(op)
    ensures NotesRequest(c, op)
  {
    hide *;
    match op
    case DoSetTyping(typing) => NotesTyping(c, typing);
    case DoMove(tile) => NotesMove(c, tile);
    case DoNTiles(n) => NotesNTiles(c, n);
    case DoDefaultLanguage(code) => NotesDefault(c, code);
    case DoLanguage(code) => NotesLanguage(c, code);
    case DoMessage(text) => NotesMessage(c, text);
    case DoShout => NotesFlag(c, op);
    case DoTurn => NotesFlag(c, op);
    case DoLeave => NotesFlag(c, op);
    case _ => IsNone(op);
  }

  lemma IsNone(op: Op)
    requires IsRequest(op)
    ensures !(op.DoSetRunning? || op.DoReset? || op.DoPerson? || op.DoPlayer? || op.DoRoom? || op.DoConversation? ||
              op.DoAddress? || op.DoWakeUp?)
  {
  }

  /** A request changes only what is to be sent, and never asks for a header. */
  lemma NotedFields(c: Conn, op: Op)
    requires IsRequest(op)
    ensures var d := Noted(c, op);
            && d == c.(typing := d.typing, dirty := d.dirty, tiles := d.tiles, messages := d.messages,
                       nTiles := d.nTiles, language := d.language)
            && (WsHeader in d.dirty <==> WsHeader in c.dirty) && (Header in d.dirty <==> Header in c.dirty)
            && d.tiles == if op.DoMove? then Squash(c.tiles, op.tile) else c.tiles
  {
    hide Squash, Clip;
  }

  /** What is noted depends only on what waited to be sent. */
  lemma NotedAlike(a: Conn, b: Conn, op: Op)
    requires IsRequest(op)
    requires a.typing == b.typing && a.dirty == b.dirty && a.tiles == b.tiles && a.messages == b.messages
    requires a.language == b.language && (NTiles in a.dirty ==> a.nTiles == b.nTiles)
    ensures var c, d := Noted(a, op), Noted(b, op);
            && c.typing == d.typing && c.dirty == d.dirty && c.tiles == d.tiles && c.messages == d.messages
            && c.language == d.language && (NTiles in c.dirty ==> c.nTiles == d.nTiles)
  {
    hide Squash, Clip, FlagFor;
    FlagForNTiles(op);
    if op.DoMove? {
    } else if op.DoMessage? {
    } else if op.DoDefaultLanguage? || op.DoLanguage? {
    } else if op.DoNTiles? {
    }
  }

  lemma FlagForNTiles(op: Op)
    ensures NTiles in FlagFor(op) <==> op.DoNTiles?
  {
  }

  // ---------- completing the configuration ----------

  predicate IsLearning(op: Op) {
    op.DoPerson? || op.DoPlayer? || op.DoRoom? || op.DoConversation? || op.DoAddress?
  }

  predicate AlreadyKnown(c: Conn, op: Op)
    requires IsLearning(op)
  {
    match op
    case DoPerson(_, _) => c.hasPerson
    case DoPlayer(_, _) => c.player.Some?
    case DoRoom(_, _) => c.room.Some?
    case DoConversation(_, _) => c.hasConversation
    case DoAddress(_, _) => c.hasAddress
  }

  function Learnt(c: Conn, op: Op): Conn
    requires IsLearning(op)
  {
    match op
    case DoPerson(id, _) => c.(person := id, hasPerson := true)
    case DoPlayer(name, _) => c.(player := Some(name))
    case DoRoom(name, _) => c.(room := Some(name))
    case DoConversation(id, _) => c.(hasConversation := true, conversation := id)
    case DoAddress(address, _) => c.(hasAddress := true, address := address)
  }

  function TimeOf(op: Op): Time
    requires IsLearning(op)
  {
    match op
    case DoPerson(_, now) => now
    case DoPlayer(_, now) => now
    case DoRoom(_, now) => now
    case DoConversation(_, now) => now
    case DoAddress(_, now) => now
  }

  lemma StepLearning(c: Conn, op: Op)
    requires Inv(c) && IsLearning(op)
    ensures Step(c, op) == if AlreadyKnown(c, op) then c else MaybeStart(Learnt(c, op), TimeOf(op))
  {
    hide Inv, UpdatePoll, Squash, Clip, WakeUp, SetRunning, Reset, MaybeStart;
    match op
    case DoPerson(_, _) =>
    case DoPlayer(_, _) =>
    case DoRoom(_, _) =>
    case DoConversation(_, _) =>
    case DoAddress(_, _) =>
  }

  /** The two states differ only in the configuration, of which the second one has no less. */
  ghost predicate Learns(c: Conn, d: Conn) {
    && d == c.(hasAddress := d.hasAddress, address := d.address, hasConversation := d.hasConversation,
               conversation := d.conversation, room := d.room, player := d.player,
               hasPerson := d.hasPerson, person := d.person)
    && (c.hasAddress ==> d.hasAddress) && (c.hasPerson ==> d.hasPerson) && (c.player.Some? ==> d.player.Some?)
  }

  lemma LearntLearns(c: Conn, op: Op)
    requires IsLearning(op)
    ensures Learns(c, Learnt(c, op))
  {
  }
}
