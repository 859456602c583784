/** What the log of a connection says about the messages heard, the headers sent and the sending half shut down. */
module ConnTale {
  import opened Bits
  import opened Options
  import opened Proto
  import opened ConnState
  import opened ConnOps
  import opened ConnInvariant
  import opened ConnMoves
  import opened ConnRequests
  import O = ConnOutput

  predicate IsKind(e: Effect, kind: byte) {
    e.MessageReceived? && e.payload != [] && e.payload[0] == kind
  }

  /** How many messages of players were passed on. */
  function Shown(log: seq<Effect>): nat {
    if log == [] then 0 else Shown(log[..|log| - 1]) + if IsKind(log[|log| - 1], 0x01) then 1 else 0
  }

  /** The game is over, or the server refused the player. */
  function Over(log: seq<Effect>): bool {
    log != [] && (Over(log[..|log| - 1]) || Closes(log[|log| - 1]))
  }

  /** The end of the game, a bad player or conversation, or a conversation that is full. */
  predicate Closes(e: Effect) {
    IsKind(e, 0x08) || IsKind(e, 0x09) || IsKind(e, 0x0b) || IsKind(e, 0x0d)
  }

  /** The sending half of the last socket was shut down. */
  function Shut(log: seq<Effect>): bool {
    log != [] && match log[|log| - 1]
                 case ShutDown(_) => true
                 case Opened(_) => false
                 case _ => Shut(log[..|log| - 1])
  }

  /** Everywhere in the log: a header that asks to take up a game again says how many messages were heard before; and a
      sending half is shut down once for each socket, after the end of the game. */
  ghost predicate Told(log: seq<Effect>) {
    forall k :: 0 <= k < |log| ==>
      && (log[k].Queued? && log[k].item.Rejoin? ==> log[k].item.next == Shown(log[..k]))
      && (log[k].ShutDown? ==> Over(log[..k]) && !Shut(log[..k]))
  }

  ghost predicate Good(c: Conn) {
    && c.nextMessage == Shown(c.log) && c.finished == Over(c.log) && c.writeFinished == Shut(c.log) && Told(c.log)
  }

  lemma Next(log: seq<Effect>, e: Effect)
    ensures var all := log + [e];
            && Shown(all) == Shown(log) + (if IsKind(e, 0x01) then 1 else 0)
            && (Over(all) <==> Over(log) || Closes(e))
            && (Shut(all) <==> if e.ShutDown? then true else if e.Opened? then false else Shut(log))
  {
    assert (log + [e])[..|log|] == log;
  }

  lemma ToldNext(log: seq<Effect>, e: Effect)
    requires Told(log) && (e.Queued? && e.item.Rejoin? ==> e.item.next == Shown(log))
    requires e.ShutDown? ==> Over(log) && !Shut(log)
    ensures Told(log + [e])
  {
    hide Shown, Over, Shut;
    var all := log + [e];
    forall k | 0 <= k < |all|
      ensures (all[k].Queued? && all[k].item.Rejoin? ==> all[k].item.next == Shown(all[..k]))
              && (all[k].ShutDown? ==> Over(all[..k]) && !Shut(all[..k]))
    {
      if k < |log| { assert all[..k] == log[..k]; } else { assert all[..k] == log; }
    }
  }

  /** An effect that says nothing of all this. */
  predicate Neutral(e: Effect) {
    !e.MessageReceived? && !e.ShutDown? && !e.Opened? && (e.Queued? ==> !e.item.Rejoin?)
  }

  lemma NeutralNext(log: seq<Effect>, e: Effect)
    requires Neutral(e)
    ensures Shown(log + [e]) == Shown(log) && Over(log + [e]) == Over(log) && Shut(log + [e]) == Shut(log)
    ensures Told(log) ==> Told(log + [e])
  {
    hide Shown, Over, Shut, Told;
    Next(log, e);
    if Told(log) { ToldNext(log, e); }
  }

  // ---------- moves ----------

  /** The fields that matter are the same, and the log is longer by one neutral effect at most. */
  lemma GoodNext(c: Conn, d: Conn, e: Effect)
    requires Good(c) && Neutral(e) && (d.log == c.log || d.log == c.log + [e])
    requires d.nextMessage == c.nextMessage && d.finished == c.finished && d.writeFinished == c.writeFinished
    ensures Good(d)
  {
    hide Shown, Over, Shut, Told;
    NeutralNext(c.log, e);
  }

  lemma GoodShut(c: Conn)
    requires Good(c) && ShouldShutDown(c)
    ensures Good(c.(writeFinished := true, log := c.log + [ShutDown(c.sock)]))
  {
    hide Shown, Over, Shut, Told;
    Next(c.log, ShutDown(c.sock));
    ToldNext(c.log, ShutDown(c.sock));
  }

  lemma GoodPoll(c: Conn)
    requires Good(c)
    ensures Good(UpdatePoll(c))
  {
    hide Good, PollFor, ShouldShutDown;
    var d := if ShouldShutDown(c) then c.(writeFinished := true, log := c.log + [ShutDown(c.sock)]) else c;
    if ShouldShutDown(c) { GoodShut(c); }
    PollTwice(c, d);
    GoodNext(d, UpdatePoll(c), PollChanged(PollFor(c), c.synced));
  }

  lemma PollTwice(c: Conn, d: Conn)
    requires d == if ShouldShutDown(c) then c.(writeFinished := true, log := c.log + [ShutDown(c.sock)]) else c
    ensures var e := UpdatePoll(c);
            && (e.log == d.log || e.log == d.log + [PollChanged(PollFor(c), c.synced)])
            && e.nextMessage == d.nextMessage && e.finished == d.finished && e.writeFinished == d.writeFinished
  {
    hide PollFor, HasPendingData;
    assert c.log + [] == c.log;
  }

  lemma DeliverTells(c: Conn, payload: seq<byte>, now: Time)
    requires Accepted(payload)
    ensures payload != []
    ensures var d := Deliver(c, payload, now);
            var e := MessageReceived(payload, c.synced || payload[0] == SYNC);
            && d.writeFinished == c.writeFinished && (PassedOn(payload) || payload[0] == 0x07 || payload[0] > 0x0d)
            && d.log == (if PassedOn(payload) then c.log + [e] else c.log)
            && d.nextMessage == c.nextMessage + (if IsKind(e, 0x01) then 1 else 0)
            && d.finished == (c.finished || Closes(e))
  {
    hide Accepted;
    PayloadNotEmpty(payload);
  }

  lemma PayloadNotEmpty(payload: seq<byte>)
    requires Accepted(payload)
    ensures payload != []
  {
  }

  lemma GoodDeliver(c: Conn, payload: seq<byte>, now: Time)
    requires Good(c) && Accepted(payload)
    ensures Good(Deliver(c, payload, now))
  {
    hide Shown, Over, Shut, Told, Accepted, Deliver, PassedOn;
    DeliverTells(c, payload, now);
    var e := MessageReceived(payload, c.synced || payload[0] == SYNC);
    Next(c.log, e);
    ToldNext(c.log, e);
  }

  lemma GoodConnect(c: Conn, fd: nat, done: bool)
    requires Good(c)
    ensures Good(Connecting(c, fd, done))
  {
    hide Shown, Over, Shut, Told;
    Next(c.log, Opened(fd));
    ToldNext(c.log, Opened(fd));
  }

  lemma QueueTells(c: Conn, item: Item)
    ensures var d := Queue(c, item);
            && d.log == c.log + [Queued(item)]
            && d.nextMessage == c.nextMessage && d.finished == c.finished && d.writeFinished == c.writeFinished
            && d.room == c.room && d.player == c.player && d.language == c.language
            && d.hasConversation == c.hasConversation && d.conversation == c.conversation
  {
    hide Encode, FlagsOf;
  }

  lemma GoodQueue(c: Conn)
    requires Good(c) && Named(c) && NextItem(c).Some?
    ensures Good(Queue(c, NextItem(c).value))
  {
    hide Shown, Over, Shut, Told, NextItem, Queue;
    var item := NextItem(c).value;
    QueueTells(c, item);
    if item.Rejoin? { NextRejoins(c); }
    Next(c.log, Queued(item));
    ToldNext(c.log, Queued(item));
  }

  lemma NextRejoins(c: Conn)
    requires Named(c) && NextItem(c).Some? && NextItem(c).value.Rejoin?
    ensures NextItem(c).value == Rejoin(c.person, c.nextMessage)
  {
  }

  lemma GoodRuns(c: Conn, running: bool, now: Time)
    requires Good(c)
    ensures Good(SetRunning(c, running, now))
  {
    hide Good, Halt, StartConnecting;
    GoodHalt(c);
    GoodStart(c, now);
    var d := SetRunningInternal(c, running, now);
    if running != IsRunning(c) {
      GoodNext(d, Emit(d, RunningChanged(running, d.synced)), RunningChanged(running, d.synced));
    }
  }

  lemma GoodHalt(c: Conn)
    requires Good(c)
    ensures Good(Halt(c))
  {
    hide Good, UpdatePoll;
    var nothing := ErrorReported(false);
    GoodNext(c, Closed(c), nothing);
    GoodNext(c, Cancelled(c), nothing);
    GoodNext(c, Abandoned(c), nothing);
    GoodPoll(Closed(c));
    GoodPoll(Cancelled(c));
  }

  lemma GoodStart(c: Conn, now: Time)
    requires Good(c)
    ensures Good(StartConnecting(c, now))
  {
    hide Good, UpdatePoll;
    var nothing := ErrorReported(false);
    var d := c.(timeout := 0, reconnectAt := now, state := WaitingForReconnect);
    GoodNext(c, d, nothing);
    GoodNext(c, c.(timeout := 0, reconnectAt := NEVER, state := WaitingForConfiguration), nothing);
    GoodPoll(d);
  }

  lemma GoodFields(c: Conn, m: Move)
    requires Good(c) && CanMake(c, m)
    requires m.Breaks? || m.Tries? || m.Awakes? || m.Buffers? || m.Stores? || m.Renews?
    ensures Good(Make(c, m))
  {
    hide Good;
    GoodNext(c, Make(c, m), ErrorReported(false));
  }

  lemma GoodAccept(c: Conn, n: nat)
    requires Good(c)
    ensures Good(Accept(c, n))
  {
    hide Good;
    GoodNext(c, Accept(c, n), Sent(c.output, if n <= |c.output| then n else |c.output|));
  }

  lemma GoodMove(c: Conn, m: Move)
    requires CanMake(c, m) && Good(c)
    ensures Good(Make(c, m))
  {
    hide Good, UpdatePoll, Deliver, SetRunning, StartConnecting, Queue, NextItem, Connecting, Accept, Broken, Trying,
         Awake;
    match m
    case Polls => GoodPoll(c);
    case Connects(fd, done) => GoodConnect(c, fd, done);
    case Delivers(payload, now) => GoodDeliver(c, payload, now);
    case Queues => GoodQueue(c);
    case Runs(running, now) => GoodRuns(c, running, now);
    case Starts(now) => GoodStart(c, now);
    case Hears(bytes) => GoodNext(c, Emit(c, Received(bytes)), Received(bytes));
    case ReportsError => GoodNext(c, Emit(c, ErrorReported(c.synced)), ErrorReported(c.synced));
    case Accepts(n) => GoodAccept(c, n);
    case _ => GoodFields(c, m);
  }

  lemma GivenGood(c: Conn, op: Op)
    requires Good(c) && !op.DoReset?
    ensures Good(Given(c, op))
  {
    hide Shown, Over, Shut, Told, Given, Noted, Learnt, IsRequest;
    GivenIs(c, op);
    if IsRequest(op) { NotedFields(c, op); } else { GivenLearns(c, op); }
  }

  lemma StepGood(c: Conn, op: Op)
    requires Inv(c) && Good(c) && !op.DoReset?
    ensures Good(Step(c, op))
  {
    hide Inv, Step, Good, Leads, Make, CanMake, Given;
    var d := Given(c, op);
    GivenGood(c, op);
    StepMoves(c, op);
    var good: Conn -> bool := x => Good(x);
    forall x, m | CanMake(x, m) && good(x)
      ensures good(Make(x, m))
    {
      GoodMove(x, m);
    }
    LeadsKeep(d, Step(c, op), good);
  }

  /** In every run without a reset: whenever the connection asks to take up a game again, it says exactly how many
      messages it has passed on; it is finished exactly when the server said so; and it shuts down its half of a socket
      at most once, after that. */
  lemma {:induction false} TaleTold(ops: seq<Op>)
    requires O.NoReset(ops)
    ensures Inv(New())
    ensures var c := Run(New(), ops);
            Told(c.log) && c.nextMessage == Shown(c.log) && c.finished == Over(c.log) && c.writeFinished == Shut(c.log)
    decreases |ops|
  {
    hide Inv, Step, New, Told, Shown, Over, Shut;
    InvNew();
    if ops == [] {
      NewGood();
    } else {
      TaleTold(ops[..|ops| - 1]);
      StepGood(Run(New(), ops[..|ops| - 1]), ops[|ops| - 1]);
    }
  }

  lemma NewGood()
    ensures Good(New())
  {
    hide PollFor, PollEffects;
  }

  // ---------- headers ----------

  /** What was given first since a reset, and the language given last. */
  datatype Configuration = Configuration(room: Option<seq<byte>>, player: Option<seq<byte>>,
                                         conversation: Option<seq<byte>>, language: seq<byte>)

  function Keep<T>(known: Option<T>, x: T): Option<T> {
    if known.Some? then known else Some(x)
  }

  function Configured(ops: seq<Op>): Configuration {
    if ops == [] then Configuration(None, None, None, [])
    else
      var k := Configured(ops[..|ops| - 1]);
      match ops[|ops| - 1]
      case DoRoom(name, _) => k.(room := Keep(k.room, name))
      case DoPlayer(name, _) => k.(player := Keep(k.player, name))
      case DoConversation(id, _) => k.(conversation := Keep(k.conversation, id))
      case DoLanguage(code) => k.(language := code[..if |code| < 7 then |code| else 7])
      case DoDefaultLanguage(code) => k.(language := code[..if |code| < 7 then |code| else 7])
      case DoReset => Configuration(None, None, None, [])
      case _ => k
  }

  function ConfigurationOf(c: Conn): Configuration {
    Configuration(c.room, c.player, if c.hasConversation then Some(c.conversation) else None, c.language)
  }

  /** The header that goes with a configuration: join the conversation if there is one, else the room if there is one,
      else start a private game. */
  predicate Heads(k: Configuration, item: Item) {
    match item
    case Join(conversation, player) => k.conversation == Some(conversation) && k.player == Some(player)
    case NewPlayer(room, player) => k.conversation.None? && k.room == Some(room) && k.player == Some(player)
    case NewPrivate(language, player) =>
      k.conversation.None? && k.room.None? && k.language == language && k.player == Some(player)
    case _ => true
  }

  /** From c to d the configuration stays, and every header queued goes with it. */
  ghost predicate Introduces(c: Conn, d: Conn) {
    var a, b := EverQueued(c.log), EverQueued(d.log);
    && ConfigurationOf(d) == ConfigurationOf(c) && a <= b
    && forall k :: |a| <= k < |b| ==> Heads(ConfigurationOf(c), b[k])
  }

  /** A player that is known is taken up again, and only then. */
  lemma NextHeads(c: Conn)
    requires Named(c) && NextItem(c).Some?
    ensures Heads(ConfigurationOf(c), NextItem(c).value)
    ensures NextItem(c).value.Rejoin? ==> c.hasPerson
    ensures NextItem(c).value.Join? || NextItem(c).value.NewPlayer? || NextItem(c).value.NewPrivate? ==> !c.hasPerson
  {
  }

  lemma PollConfiguration(c: Conn)
    ensures ConfigurationOf(UpdatePoll(c)) == ConfigurationOf(c)
  {
    hide UpdatePoll;
    UpdatePollQuiet(c);
  }

  lemma StartConfiguration(c: Conn, now: Time)
    ensures ConfigurationOf(StartConnecting(c, now)) == ConfigurationOf(c)
  {
    hide UpdatePoll, HasConfiguration;
    PollConfiguration(c.(timeout := 0, reconnectAt := now, state := WaitingForReconnect));
  }

  lemma HaltConfiguration(c: Conn)
    ensures ConfigurationOf(Halt(c)) == ConfigurationOf(c)
  {
    hide UpdatePoll;
    PollConfiguration(Closed(c));
    PollConfiguration(Cancelled(c));
  }

  lemma RunsConfiguration(c: Conn, running: bool, now: Time)
    ensures ConfigurationOf(SetRunning(c, running, now)) == ConfigurationOf(c)
  {
    hide Halt, StartConnecting;
    StartConfiguration(c, now);
    HaltConfiguration(c);
  }

  lemma DeliverConfiguration(c: Conn, payload: seq<byte>, now: Time)
    requires Accepted(payload)
    ensures ConfigurationOf(Deliver(c, payload, now)) == ConfigurationOf(c)
  {
    hide Accepted, Deliver;
    InformedSame(c);
    DeliverInforms(c, c, payload, now);
  }

  lemma FieldsConfiguration(c: Conn, m: Move)
    requires CanMake(c, m) && !m.Queues? && !m.Runs? && !m.Starts? && !m.Polls? && !m.Delivers?
    ensures ConfigurationOf(Make(c, m)) == ConfigurationOf(c)
  {
    hide StartConnecting, SetRunning, UpdatePoll, Deliver, Queue;
  }

  lemma MoveConfiguration(c: Conn, m: Move)
    requires CanMake(c, m) && !m.Queues?
    ensures ConfigurationOf(Make(c, m)) == ConfigurationOf(c)
  {
    hide StartConnecting, SetRunning, UpdatePoll, Deliver, Queue, ConfigurationOf, Connecting, Broken, Trying, Awake,
         Accept;
    match m
    case Polls => PollConfiguration(c);
    case Runs(running, now) => RunsConfiguration(c, running, now);
    case Starts(now) => StartConfiguration(c, now);
    case Delivers(payload, now) => DeliverConfiguration(c, payload, now);
    case _ => FieldsConfiguration(c, m);
  }

  lemma IntroducesMove(c: Conn, x: Conn, m: Move)
    requires CanMake(x, m) && Introduces(c, x)
    ensures Introduces(c, Make(x, m))
  {
    hide ConfigurationOf, EverQueued, Heads, NextItem, Still, Make;
    if m.Queues? {
      IntroducesQueue(c, x);
    } else {
      MoveStill(x, m);
      StillQueued(x, Make(x, m));
      MoveConfiguration(x, m);
    }
  }

  lemma StillQueued(c: Conn, d: Conn)
    requires Still(c, d)
    ensures EverQueued(d.log) == EverQueued(c.log)
  {
  }

  lemma IntroducesQueue(c: Conn, x: Conn)
    requires Introduces(c, x) && CanMake(x, Queues)
    ensures Introduces(c, Make(x, Queues))
  {
    hide EverQueued, Heads, NextItem, Queue;
    var item := NextItem(x).value;
    NextHeads(x);
    QueueTells(x, item);
    QueuedNext(x.log, item);
  }

  lemma StepIntroduces(c: Conn, op: Op)
    requires Inv(c)
    ensures Introduces(Given(c, op), Step(c, op))
  {
    hide Inv, Step, Leads, Make, CanMake, Given, Heads, ConfigurationOf, EverQueued;
    var d := Given(c, op);
    StepMoves(c, op);
    var good: Conn -> bool := x => Introduces(d, x);
    forall x, m | CanMake(x, m) && good(x)
      ensures good(Make(x, m))
    {
      IntroducesMove(d, x, m);
    }
    LeadsKeep(d, Step(c, op), good);
  }

  lemma GivenConfiguration(c: Conn, op: Op)
    ensures var k, d := ConfigurationOf(c), ConfigurationOf(Given(c, op));
            d == match op
                 case DoRoom(name, _) => k.(room := Keep(k.room, name))
                 case DoPlayer(name, _) => k.(player := Keep(k.player, name))
                 case DoConversation(id, _) => k.(conversation := Keep(k.conversation, id))
                 case DoLanguage(code) => k.(language := code[..if |code| < 7 then |code| else 7])
                 case DoDefaultLanguage(code) => k.(language := code[..if |code| < 7 then |code| else 7])
                 case DoReset => Configuration(None, None, None, [])
                 case _ => k
  {
    hide Squash, Clip, FlagFor, Given;
    GivenIs(c, op);
    if IsRequest(op) {
      hide Learnt, Cleared;
      GivenValues(c, op);
    } else {
      hide Noted;
    }
  }

  /** In every run: whatever header is queued during a call goes with what was configured up to then. */
  lemma {:induction false} HeadersFollow(ops: seq<Op>)
    ensures Inv(New())
    ensures ConfigurationOf(Run(New(), ops)) == Configured(ops)
    ensures ops != [] ==>
              var c, d := Run(New(), ops[..|ops| - 1]), Run(New(), ops);
              && EverQueued(c.log) <= EverQueued(d.log)
              && forall k :: |EverQueued(c.log)| <= k < |EverQueued(d.log)| ==>
                   Heads(Configured(ops), EverQueued(d.log)[k])
    decreases |ops|
  {
    hide Inv, Step, New, EverQueued, Given, ConfigurationOf, Heads;
    InvNew();
    if ops == [] {
      NewConfiguration();
    } else {
      var m := |ops| - 1;
      var c := Run(New(), ops[..m]);
      HeadersFollow(ops[..m]);
      GivenConfiguration(c, ops[m]);
      GivenLog(c, ops[m]);
      StepIntroduces(c, ops[m]);
    }
  }

  lemma NewConfiguration()
    ensures ConfigurationOf(New()) == Configuration(None, None, None, [])
  {
    hide PollFor, PollEffects;
  }
}
