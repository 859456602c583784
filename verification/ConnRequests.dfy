/** What is asked to be sent is what is queued: every message once, in order; every other request as often as it was
    outstanding, with the value last given. */
module ConnRequests {
  import opened Bits
  import opened Options
  import opened Proto
  import opened ConnState
  import opened ConnOps
  import opened ConnInvariant
  import opened ConnMoves
  import O = ConnOutput

  /** Everything ever queued, on any socket. */
  function EverQueued(log: seq<Effect>): seq<Item> {
    if log == [] then []
    else
      var last := log[|log| - 1];
      EverQueued(log[..|log| - 1]) + if last.Queued? then [last.item] else []
  }

  /** The texts of the messages. */
  function Texts(items: seq<Item>): seq<seq<byte>> {
    if items == [] then []
    else
      var last := items[|items| - 1];
      Texts(items[..|items| - 1]) + if last.Say? then [last.text] else []
  }

  /** The item carries out a request of this kind. */
  predicate Answers(item: Item, flag: Flag) {
    match flag
    case NTiles => item.SetNTiles?
    case Language => item.SetLanguage?
    case Leave => item.LeaveGame?
    case Shout => item.ShoutOut?
    case Turn => item.EndTurn?
    case _ => false
  }

  function Tally(items: seq<Item>, flag: Flag): nat {
    if items == [] then 0
    else Tally(items[..|items| - 1], flag) + if Answers(items[|items| - 1], flag) then 1 else 0
  }

  /** What the server takes the player to be doing: a message ends typing. */
  function Typing(items: seq<Item>): bool {
    if items == [] then false
    else
      match items[|items| - 1]
      case Type(on) => on
      case Say(_) => false
      case _ => Typing(items[..|items| - 1])
  }

  predicate IsRequestFlag(flag: Flag) {
    flag in {NTiles, Language, Leave, Shout, Turn}
  }

  function Owed(c: Conn, flag: Flag): nat {
    if flag in c.dirty then 1 else 0
  }

  /** The item has the value last asked for. */
  predicate Wanted(c: Conn, item: Item) {
    match item
    case SetNTiles(n) => n == c.nTiles
    case SetLanguage(code) => code == c.language
    case Type(on) => on == c.typing
    case _ => true
  }

  /** No message is lost, made up, doubled or changed. */
  ghost predicate KeepsWords(c: Conn, d: Conn) {
    Texts(EverQueued(d.log)) + d.messages == Texts(EverQueued(c.log)) + c.messages
  }

  /** And no other request. */
  ghost predicate KeepsCounts(c: Conn, d: Conn) {
    forall flag :: IsRequestFlag(flag) ==>
      Tally(EverQueued(d.log), flag) + Owed(d, flag) == Tally(EverQueued(c.log), flag) + Owed(c, flag)
  }

  /** What is queued has the value asked for. */
  ghost predicate KeepsValues(c: Conn, d: Conn) {
    var a, b := EverQueued(c.log), EverQueued(d.log);
    && a <= b && d.typing == c.typing && d.nTiles == c.nTiles && d.language == c.language
    && forall k :: |a| <= k < |b| ==> Wanted(c, b[k])
  }

  ghost predicate KeepsTyping(c: Conn, d: Conn) {
    c.sentTyping == Typing(EverQueued(c.log)) ==> d.sentTyping == Typing(EverQueued(d.log))
  }

  /** From c to d nothing that was asked for is lost, made up, doubled or changed. */
  ghost predicate Serves(c: Conn, d: Conn) {
    KeepsWords(c, d) && KeepsCounts(c, d) && KeepsValues(c, d) && KeepsTyping(c, d)
  }

  // ---------- moves that queue nothing ----------

  ghost predicate Still(c: Conn, d: Conn) {
    && EverQueued(d.log) == EverQueued(c.log) && d.messages == c.messages
    && d.typing == c.typing && d.nTiles == c.nTiles && d.language == c.language && d.sentTyping == c.sentTyping
    && forall flag :: IsRequestFlag(flag) ==> (flag in d.dirty <==> flag in c.dirty)
  }

  lemma StillServes(c: Conn, x: Conn, y: Conn)
    requires Serves(c, x) && Still(x, y)
    ensures Serves(c, y)
  {
    hide EverQueued, Texts, Tally, Typing, Wanted, IsRequestFlag;
  }

  lemma StillStill(c: Conn, d: Conn, e: Conn)
    requires Still(c, d) && Still(d, e)
    ensures Still(c, e)
  {
    hide EverQueued, IsRequestFlag;
  }

  lemma {:induction false} NothingQueued(log: seq<Effect>, more: seq<Effect>)
    requires forall i :: 0 <= i < |more| ==> !more[i].Queued?
    ensures EverQueued(log + more) == EverQueued(log)
    decreases |more|
  {
    if more == [] {
      assert log + more == log;
    } else {
      var m := |more| - 1;
      NothingQueued(log, more[..m]);
      assert (log + more)[..|log + more| - 1] == log + more[..m];
      assert EverQueued(log) + [] == EverQueued(log);
    }
  }

  lemma PollStill(c: Conn)
    ensures Still(c, UpdatePoll(c))
  {
    hide EverQueued, PollFor, ShouldShutDown;
    NothingQueued(c.log, PollEffects(c));
  }

  lemma EmitStill(c: Conn, e: Effect)
    requires !e.Queued?
    ensures Still(c, Emit(c, e))
  {
    hide EverQueued;
    NothingQueued(c.log, [e]);
  }

  lemma RunsStill(c: Conn, running: bool, now: Time)
    ensures Still(c, SetRunning(c, running, now))
  {
    hide Still, Halt, StartConnecting;
    StillSelf(c);
    HaltStill(c);
    StartStill(c, now);
    var d := SetRunningInternal(c, running, now);
    EmitStill(d, RunningChanged(running, d.synced));
    StillStill(c, d, Emit(d, RunningChanged(running, d.synced)));
  }

  lemma StillSelf(c: Conn)
    ensures Still(c, c)
  {
  }

  lemma HaltStill(c: Conn)
    ensures Still(c, Halt(c))
  {
    hide Still, UpdatePoll, Closed, Cancelled, Abandoned;
    HaltedStill(c);
    PollStill(Closed(c));
    PollStill(Cancelled(c));
    StillStill(c, Closed(c), UpdatePoll(Closed(c)));
    StillStill(c, Cancelled(c), UpdatePoll(Cancelled(c)));
  }

  lemma HaltedStill(c: Conn)
    ensures Still(c, c) && Still(c, Closed(c)) && Still(c, Cancelled(c)) && Still(c, Abandoned(c))
  {
    hide EverQueued;
  }

  lemma StartStill(c: Conn, now: Time)
    ensures Still(c, StartConnecting(c, now))
  {
    hide UpdatePoll, EverQueued;
    var d := c.(timeout := 0, reconnectAt := now, state := WaitingForReconnect);
    PollStill(d);
  }

  lemma DeliverStill(c: Conn, payload: seq<byte>, now: Time)
    requires Accepted(payload)
    ensures Still(c, Deliver(c, payload, now))
  {
    hide EverQueued, Accepted;
    var d := Absorb(c, payload, now);
    NothingQueued(d.log, [MessageReceived(payload, d.synced)]);
  }

  lemma ConnectStill(c: Conn, fd: nat, done: bool)
    ensures Still(c, Connecting(c, fd, done))
  {
    hide EverQueued;
    NothingQueued(c.log, [Opened(fd)]);
  }

  lemma AcceptStill(c: Conn, n: nat)
    ensures Still(c, Accept(c, n))
  {
    hide EverQueued;
    NothingQueued(c.log, [Sent(c.output, if n <= |c.output| then n else |c.output|)]);
  }

  lemma FieldsStill(c: Conn, m: Move)
    requires m.Breaks? || m.Tries? || m.Awakes? || m.Buffers? || m.Stores? || m.Renews?
    requires CanMake(c, m)
    ensures Still(c, Make(c, m))
  {
    hide EverQueued;
  }

  lemma MoveStill(c: Conn, m: Move)
    requires CanMake(c, m) && !m.Queues?
    ensures Still(c, Make(c, m))
  {
    hide Still, UpdatePoll, Deliver, SetRunning, StartConnecting, Queue, Broken, Connecting, Awake, Accept, Trying;
    match m
    case Polls => PollStill(c);
    case Runs(running, now) => RunsStill(c, running, now);
    case Starts(now) => StartStill(c, now);
    case Delivers(payload, now) => DeliverStill(c, payload, now);
    case Connects(fd, done) => ConnectStill(c, fd, done);
    case Hears(bytes) => EmitStill(c, Received(bytes));
    case Accepts(n) => AcceptStill(c, n);
    case ReportsError => EmitStill(c, ErrorReported(c.synced));
    case _ => FieldsStill(c, m);
  }

  // ---------- queueing ----------

  lemma QueuedNext(log: seq<Effect>, item: Item)
    ensures EverQueued(log + [Queued(item)]) == EverQueued(log) + [item]
  {
    assert (log + [Queued(item)])[..|log|] == log;
  }

  lemma ItemNext(items: seq<Item>, item: Item)
    ensures var all := items + [item];
            && Texts(all) == Texts(items) + (if item.Say? then [item.text] else [])
            && (forall flag :: Tally(all, flag) == Tally(items, flag) + if Answers(item, flag) then 1 else 0)
            && Typing(all) == match item case Type(on) => on case Say(_) => false case _ => Typing(items)
  {
    assert (items + [item])[..|items|] == items;
  }

  /** What the next item is and what taking it leaves. */
  lemma NextTakes(c: Conn)
    requires Named(c) && NextItem(c).Some?
    ensures var item := NextItem(c).value;
            var d := Queue(c, item);
            && d.log == c.log + [Queued(item)]
            && Wanted(c, item)
            && c.messages == (if item.Say? then [item.text] else []) + d.messages
            && (forall flag :: IsRequestFlag(flag) ==>
                  Owed(c, flag) == Owed(d, flag) + if Answers(item, flag) then 1 else 0)
            && d.typing == c.typing && d.nTiles == c.nTiles && d.language == c.language
            && d.sentTyping == match item case Type(on) => on case Say(_) => false case _ => c.sentTyping
  {
    hide Encode;
    if c.messages != [] { assert c.messages == [c.messages[0]] + c.messages[1..]; }
  }

  lemma QueueWords(c: Conn, x: Conn)
    requires KeepsWords(c, x) && Named(x) && NextItem(x).Some?
    ensures KeepsWords(c, Queue(x, NextItem(x).value))
  {
    hide EverQueued, Texts, NextItem, Queue, Answers, IsRequestFlag, Owed, Wanted, Tally, Typing;
    var item := NextItem(x).value;
    var y := Queue(x, item);
    NextTakes(x);
    QueuedNext(x.log, item);
    TextNext(EverQueued(x.log), item, x.messages, y.messages);
  }

  /** The first of the messages waiting becomes the last of those queued. */
  lemma TextNext(items: seq<Item>, item: Item, before: seq<seq<byte>>, after: seq<seq<byte>>)
    requires before == (if item.Say? then [item.text] else []) + after
    ensures Texts(items + [item]) + after == Texts(items) + before
  {
    hide Tally, Typing, Answers;
    ItemNext(items, item);
    hide Texts;
    var said := if item.Say? then [item.text] else [];
    assert Texts(items) + said + after == Texts(items) + (said + after);
  }

  lemma QueueCounts(c: Conn, x: Conn)
    requires KeepsCounts(c, x) && Named(x) && NextItem(x).Some?
    ensures KeepsCounts(c, Queue(x, NextItem(x).value))
  {
    hide EverQueued, Texts, Tally, NextItem, Queue, Answers, IsRequestFlag, Owed, Wanted, Typing;
    var item := NextItem(x).value;
    NextTakes(x);
    QueuedNext(x.log, item);
    ItemNext(EverQueued(x.log), item);
  }

  lemma QueueValues(c: Conn, x: Conn)
    requires KeepsValues(c, x) && Named(x) && NextItem(x).Some?
    ensures KeepsValues(c, Queue(x, NextItem(x).value))
  {
    hide EverQueued, Texts, Tally, NextItem, Queue, Answers, IsRequestFlag, Owed, Wanted, Typing;
    var item := NextItem(x).value;
    NextTakes(x);
    QueuedNext(x.log, item);
    WantedAlike(c, x, item);
  }

  lemma QueueTyping(c: Conn, x: Conn)
    requires KeepsTyping(c, x) && Named(x) && NextItem(x).Some?
    ensures KeepsTyping(c, Queue(x, NextItem(x).value))
  {
    hide EverQueued, Texts, Tally, NextItem, Queue, Answers, IsRequestFlag, Owed, Wanted, Typing;
    var item := NextItem(x).value;
    NextTakes(x);
    QueuedNext(x.log, item);
    ItemNext(EverQueued(x.log), item);
  }

  lemma QueueServes(c: Conn, x: Conn)
    requires Serves(c, x) && Named(x) && NextItem(x).Some?
    ensures Serves(c, Queue(x, NextItem(x).value))
  {
    hide KeepsWords, KeepsCounts, KeepsValues, KeepsTyping, NextItem, Queue;
    QueueWords(c, x);
    QueueCounts(c, x);
    QueueValues(c, x);
    QueueTyping(c, x);
  }

  lemma WantedAlike(c: Conn, d: Conn, item: Item)
    requires d.typing == c.typing && d.nTiles == c.nTiles && d.language == c.language
    ensures Wanted(c, item) == Wanted(d, item)
  {
  }

  lemma MoveServes(c: Conn, x: Conn, m: Move)
    requires CanMake(x, m) && Serves(c, x)
    ensures Serves(c, Make(x, m))
  {
    hide Serves, Still, Queue, NextItem, UpdatePoll, Deliver, SetRunning, StartConnecting;
    if m.Queues? {
      QueueServes(c, x);
    } else {
      MoveStill(x, m);
      StillServes(c, x, Make(x, m));
    }
  }

  lemma ServesSelf(c: Conn)
    ensures Serves(c, c)
  {
    hide EverQueued, Texts, Tally, Typing;
  }

  /** Whatever a call does after setting what it sets, it serves the requests. */
  lemma StepServes(c: Conn, op: Op)
    requires Inv(c)
    ensures Serves(Given(c, op), Step(c, op))
  {
    hide Inv, Step, Serves, Leads, Make, CanMake, Given;
    var d := Given(c, op);
    StepMoves(c, op);
    ServesSelf(d);
    var good: Conn -> bool := x => Serves(d, x);
    forall x, m | CanMake(x, m) && good(x)
      ensures good(Make(x, m))
    {
      MoveServes(d, x, m);
    }
    LeadsKeep(d, Step(c, op), good);
  }

  // ---------- whole runs ----------

  /** The messages asked for, each clipped. */
  function Spoken(ops: seq<Op>): seq<seq<byte>> {
    if ops == [] then []
    else
      var last := ops[|ops| - 1];
      Spoken(ops[..|ops| - 1]) + if last.DoMessage? then [Clip(last.text)] else []
  }

  lemma GivenMessages(c: Conn, op: Op)
    requires !op.DoReset?
    ensures Given(c, op).messages == c.messages + (if op.DoMessage? then [Clip(op.text)] else [])
  {
    hide Clip, Given, Learnt, Cleared, Noted;
    assert c.messages + [] == c.messages;
    GivenIs(c, op);
    if IsRequest(op) { NotedMessages(c, op); } else { GivenLearns(c, op); }
  }

  lemma NotedMessages(c: Conn, op: Op)
    requires IsRequest(op)
    ensures Noted(c, op).messages == if op.DoMessage? then c.messages + [Clip(op.text)] else c.messages
  {
    hide Squash, Clip, FlagFor;
  }

  lemma NewIs()
    ensures New().log == [] && New().messages == [] && New().dirty == {} && !New().typing && !New().sentTyping
    ensures New().nTiles == 0 && New().language == []
  {
    hide PollFor, PollEffects;
  }

  /** Without a reset, the messages queued and then those still waiting are exactly the messages asked for, clipped, in
      the order of the calls. */
  lemma {:induction false} SaidInOrder(ops: seq<Op>)
    requires O.NoReset(ops)
    ensures Inv(New())
    ensures var c := Run(New(), ops); Texts(EverQueued(c.log)) + c.messages == Spoken(ops)
    decreases |ops|
  {
    hide Inv, Step, New, EverQueued, Texts, Given, Tally, Typing;
    InvNew();
    NewIs();
    if ops == [] {
      NothingYet();
    } else {
      var m := |ops| - 1;
      var c, op := Run(New(), ops[..m]), ops[m];
      SaidInOrder(ops[..m]);
      GivenMessages(c, op);
      GivenLog(c, op);
      StepServes(c, op);
      var said := if op.DoMessage? then [Clip(op.text)] else [];
      assert Texts(EverQueued(c.log)) + (c.messages + said) == Texts(EverQueued(c.log)) + c.messages + said;
    }
  }

  lemma NothingYet()
    ensures Texts(EverQueued([])) + [] == [] && !Typing(EverQueued([]))
    ensures forall flag :: Tally(EverQueued([]), flag) == 0
  {
  }

  /** The call that asks for an item of this kind. */
  predicate Asks(op: Op, flag: Flag) {
    match op
    case DoNTiles(_) => flag == NTiles
    case DoLanguage(_) => flag == Language
    case DoLeave => flag == Leave
    case DoShout => flag == Shout
    case DoTurn => flag == Turn
    case _ => false
  }

  function Askings(ops: seq<Op>, flag: Flag): nat {
    if ops == [] then 0
    else Askings(ops[..|ops| - 1], flag) + if Asks(ops[|ops| - 1], flag) then 1 else 0
  }

  lemma GivenFlags(c: Conn, op: Op, flag: Flag)
    requires IsRequestFlag(flag)
    ensures Owed(Given(c, op), flag) == if op.DoReset? then 0 else if Asks(op, flag) then 1 else Owed(c, flag)
  {
    hide Squash, Clip, Given, Learnt;
    GivenIs(c, op);
    if !IsRequest(op) && !op.DoReset? {
      hide Cleared;
      GivenLearns(c, op);
    }
  }

  /** One call: what was queued of a kind and what is owed add up as before, and asking makes it owed. */
  lemma RequestAccount(c: Conn, op: Op, flag: Flag)
    requires Inv(c) && IsRequestFlag(flag)
    ensures var d := Step(c, op);
            Tally(EverQueued(d.log), flag) + Owed(d, flag) ==
            Tally(EverQueued(c.log), flag) + if op.DoReset? then 0 else if Asks(op, flag) then 1 else Owed(c, flag)
  {
    hide Inv, Step, EverQueued, Texts, Given, Typing, Tally, Owed;
    GivenFlags(c, op, flag);
    GivenLog(c, op);
    StepServes(c, op);
  }

  /** In any run, nothing is queued more often than it was asked for. */
  lemma {:induction false} NothingMadeUp(ops: seq<Op>, flag: Flag)
    requires IsRequestFlag(flag)
    ensures Inv(New())
    ensures var c := Run(New(), ops); Tally(EverQueued(c.log), flag) + Owed(c, flag) <= Askings(ops, flag)
    decreases |ops|
  {
    hide Inv, Step, New, EverQueued, Tally, IsRequestFlag;
    InvNew();
    NewIs();
    if ops == [] {
      NothingYet();
    } else {
      var m := |ops| - 1;
      NothingMadeUp(ops[..m], flag);
      RequestAccount(Run(New(), ops[..m]), ops[m], flag);
    }
  }

  /** The values last given since a reset; a language code is kept in seven bytes. */
  datatype Values = Values(nTiles: int, language: seq<byte>, typing: bool)

  function Latest(ops: seq<Op>): Values {
    if ops == [] then Values(0, [], false)
    else
      var v := Latest(ops[..|ops| - 1]);
      match ops[|ops| - 1]
      case DoNTiles(n) => v.(nTiles := n)
      case DoLanguage(code) => v.(language := code[..if |code| < 7 then |code| else 7])
      case DoDefaultLanguage(code) => v.(language := code[..if |code| < 7 then |code| else 7])
      case DoSetTyping(typing) => v.(typing := typing)
      case DoReset => Values(v.nTiles, [], false)
      case _ => v
  }

  lemma GivenValues(c: Conn, op: Op)
    ensures var d := Given(c, op);
            && d.nTiles == (if op.DoNTiles? then op.n else c.nTiles)
            && d.language == (if op.DoReset? then []
                              else if op.DoLanguage? || op.DoDefaultLanguage? then
                                op.code[..if |op.code| < 7 then |op.code| else 7]
                              else c.language)
            && d.typing == (if op.DoReset? then false else if op.DoSetTyping? then op.typing else c.typing)
  {
    hide Squash, Clip, FlagFor, Given, Learnt;
    GivenIs(c, op);
    if op.DoLanguage? || op.DoDefaultLanguage? {
      assert |op.code| <= 7 ==> op.code[..|op.code|] == op.code;
    }
    if !IsRequest(op) && !op.DoReset? {
      hide Cleared;
      GivenLearns(c, op);
    }
  }

  lemma {:induction false} ValuesKept(ops: seq<Op>)
    ensures Inv(New())
    ensures var c := Run(New(), ops); Values(c.nTiles, c.language, c.typing) == Latest(ops)
    decreases |ops|
  {
    hide Inv, Step, New, EverQueued, Texts, Given, Tally, Typing;
    InvNew();
    NewIs();
    if ops != [] {
      var m := |ops| - 1;
      ValuesKept(ops[..m]);
      GivenValues(Run(New(), ops[..m]), ops[m]);
      StepServes(Run(New(), ops[..m]), ops[m]);
    }
  }

  predicate Up(item: Item, v: Values) {
    match item
    case SetNTiles(n) => n == v.nTiles
    case SetLanguage(code) => code == v.language
    case Type(on) => on == v.typing
    case _ => true
  }

  /** Whatever is queued during a call has the value last asked for, and the server is told of typing what is so. */
  lemma QueuedAsAsked(ops: seq<Op>, op: Op)
    ensures Inv(New())
    ensures var c, d := Run(New(), ops), Run(New(), ops + [op]);
            && EverQueued(c.log) <= EverQueued(d.log)
            && forall k :: |EverQueued(c.log)| <= k < |EverQueued(d.log)| ==>
                 Up(EverQueued(d.log)[k], Latest(ops + [op]))
  {
    hide Inv, Step, New, EverQueued, Texts, Given, Tally, Typing, Latest;
    InvNew();
    assert (ops + [op])[..|ops|] == ops;
    var c := Run(New(), ops);
    ValuesKept(ops + [op]);
    GivenLog(c, op);
    StepServes(c, op);
  }

  /** Without a reset, what is thought to have been told of typing is what the server was told. */
  lemma {:induction false} TypingTold(ops: seq<Op>)
    requires O.NoReset(ops)
    ensures Inv(New())
    ensures var c := Run(New(), ops); c.sentTyping == Typing(EverQueued(c.log))
    decreases |ops|
  {
    hide Inv, Step, New, EverQueued, Texts, Given, Tally, Typing;
    InvNew();
    NewIs();
    if ops == [] {
      NothingYet();
    } else {
      var m := |ops| - 1;
      TypingTold(ops[..m]);
      GivenLog(Run(New(), ops[..m]), ops[m]);
      StepServes(Run(New(), ops[..m]), ops[m]);
    }
  }
}
