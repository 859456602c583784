/** What a connection does when: how long it waits after an error, when it sends something to keep the connection alive,
    and what it asks to be woken for. */
module ConnTime {
  import opened Bits
  import opened Options
  import opened Proto
  import opened Framing
  import opened ConnState
  import opened ConnInvariant
  import opened ConnStop

  // ---------- errors ----------

  const SECOND := 1_000_000

  /** The seconds to wait after n failures in a row and one more: 0, 16, 32, 64, 128, 256, and then 512. */
  function Wait(n: nat): nat {
    if n == 0 then 0 else if n >= 6 then 512 else 8 * Pow2(n)
  }

  /** The connection has failed n times in a row. */
  predicate Failed(c: Conn, n: nat) {
    c.timeout == Wait(n) * SECOND
  }

  lemma WaitNext(n: nat)
    ensures NextTimeout(Wait(n) * SECOND) == Wait(n + 1) * SECOND
  {
    if n < 6 { WaitValues(); }
  }

  lemma WaitValues()
    ensures Wait(0) == 0 && Wait(1) == 16 && Wait(2) == 32 && Wait(3) == 64 && Wait(4) == 128 && Wait(5) == 256
  {
    assert Pow2(1) == 2 && Pow2(2) == 4 && Pow2(3) == 8 && Pow2(4) == 16 && Pow2(5) == 32;
  }

  /** A connection that was told its player at least 15 seconds ago counts as stable: it reconnects at once, and that is
      the first failure in a row.  Any other waits as long as the number of failures says. */
  lemma ErrorWaits(c: Conn, t: ErrorTimes, n: nat)
    requires Failed(c, n)
    ensures var d := ReportError(c, t);
            && d.sock == -1 && d.state == c.state
            && if t.checked >= c.playerIdAt + 15 * SECOND then d.reconnectAt == t.retry && Failed(d, 1)
               else d.reconnectAt == t.retry + Wait(n) * SECOND && Failed(d, n + 1)
  {
    hide UpdatePoll, Wait, NextTimeout;
    WaitNext(n);
    WaitNext(0);
    WaitValues();
    UpdatePollQuiet(Broken(c, t));
  }

  /** An attempt that comes to nothing: at once, or after a while without a word about the player. */
  datatype Attempt = AtOnce(world: World) | Dropped(open: World, drop: World)

  predicate Fails(a: Attempt) {
    match a
    case AtOnce(w) => w.connect.NoSocket? || w.connect.NotReady? || w.connect.Refused?
    case Dropped(open, drop) => (open.connect.InProgress? || open.connect.Connected?) && drop.read == ReadFailed
  }

  function Begins(a: Attempt): Instant {
    match a
    case AtOnce(w) => w.now
    case Dropped(open, _) => open.now
  }

  /** When the clock is read to schedule the next attempt. */
  function Ends(a: Attempt): Time {
    match a
    case AtOnce(w) => w.times.retry
    case Dropped(_, drop) => drop.times.retry
  }

  function Wakes(w: World): Op {
    DoWakeUp(ConnState.Ready(true, false), w)
  }

  function OpsOf(a: Attempt): seq<Op> {
    match a
    case AtOnce(w) => [Wakes(w)]
    case Dropped(open, drop) => [Wakes(open), Wakes(drop)]
  }

  lemma AtOnceWaits(c: Conn, w: World, n: nat)
    requires Inv(c) && c.sock == -1 && Failed(c, n) && w.now >= c.reconnectAt && Fails(AtOnce(w))
    ensures var d := Step(c, Wakes(w));
            d.sock == -1 && d.reconnectAt == w.times.retry + Wait(n) * SECOND && Failed(d, n + 1)
  {
    hide Inv, ReportError, Wait, Trying;
    InvNamed(c);
    match w.connect
    case NoSocket => TryWaits(c, -1, w.times, n);
    case NotReady(fd) => TryWaits(c, fd, w.times, n);
    case Refused(fd) => TryWaits(c, fd, w.times, n);
  }

  lemma TryWaits(c: Conn, fd: int, t: ErrorTimes, n: nat)
    requires Failed(c, n)
    ensures var d := ReportError(Trying(c, fd), t);
            d.sock == -1 && d.reconnectAt == t.retry + Wait(n) * SECOND && Failed(d, n + 1)
  {
    hide ReportError, Wait;
    ErrorWaits(Trying(c, fd), t, n);
  }

  lemma OpensQuietly(c: Conn, open: World, n: nat)
    requires Inv(c) && c.sock == -1 && Failed(c, n) && open.now >= c.reconnectAt
    requires open.connect.InProgress? || open.connect.Connected?
    ensures var d := Step(c, Wakes(open)); d.sock != -1 && Failed(d, n) && d.playerIdAt == NEVER && Live(d)
  {
    hide Inv, UpdatePoll, Wait;
    InvNamed(c);
    UpdatePollQuiet(Connecting(c, open.connect.fd, open.connect.Connected?));
  }

  lemma DropWaits(c: Conn, drop: World, n: nat)
    requires Inv(c) && c.sock != -1 && Failed(c, n) && c.playerIdAt == NEVER && drop.read == ReadFailed
    ensures var d := Step(c, Wakes(drop));
            d.sock == -1 && d.reconnectAt == drop.times.retry + Wait(n) * SECOND && Failed(d, n + 1)
  {
    hide Inv, ReportError, Wait;
    InvNamed(c);
    ErrorWaits(Awake(c, ConnState.Ready(true, false), drop.now), drop.times, n);
  }

  lemma AttemptWaits(c: Conn, a: Attempt, n: nat)
    requires Inv(c) && c.sock == -1 && Failed(c, n) && Begins(a) >= c.reconnectAt && Fails(a)
    ensures var d := Run(c, OpsOf(a));
            d.sock == -1 && d.reconnectAt == Ends(a) + Wait(n) * SECOND && Failed(d, n + 1)
  {
    hide Inv, Step, Wait, Wakes, Run, Failed;
    match a
    case AtOnce(w) =>
      RunOne(c, Wakes(w));
      AtOnceWaits(c, w, n);
    case Dropped(open, drop) =>
      RunOne(c, Wakes(open));
      RunLast(c, [Wakes(open)], Wakes(drop));
      OpensQuietly(c, open, n);
      DropWaits(Step(c, Wakes(open)), drop, n);
      assert [Wakes(open)] + [Wakes(drop)] == [Wakes(open), Wakes(drop)];
  }

  function AllOps(attempts: seq<Attempt>): seq<Op> {
    if attempts == [] then [] else AllOps(attempts[..|attempts| - 1]) + OpsOf(attempts[|attempts| - 1])
  }

  /** Each attempt fails, and none is made before its time. */
  ghost predicate FailInARow(c: Conn, attempts: seq<Attempt>)
    requires Inv(c)
    decreases |attempts|
  {
    attempts == [] ||
    var m := |attempts| - 1;
    && FailInARow(c, attempts[..m]) && Fails(attempts[m])
    && Begins(attempts[m]) >= Run(c, AllOps(attempts[..m])).reconnectAt
  }

  lemma {:induction false} RunConcat(c: Conn, a: seq<Op>, b: seq<Op>)
    requires Inv(c)
    ensures Run(c, a + b) == Run(Run(c, a), b)
    decreases |b|
  {
    hide Inv, Step;
    if b == [] {
      assert a + b == a;
    } else {
      var m := |b| - 1;
      RunConcat(c, a, b[..m]);
      assert (a + b)[..|a + b| - 1] == a + b[..m];
    }
  }

  /** After n failures in a row the next attempt is made 0, 16, 32, 64, 128, 256, 512, 512 and so on seconds after the
      last of them. */
  lemma {:induction false} Backoff(c: Conn, attempts: seq<Attempt>)
    requires Inv(c) && c.sock == -1 && Failed(c, 0) && FailInARow(c, attempts)
    ensures var d, n := Run(c, AllOps(attempts)), |attempts|;
            && d.sock == -1 && Failed(d, n)
            && (n > 0 ==> d.reconnectAt == Ends(attempts[n - 1]) + Wait(n - 1) * SECOND)
    decreases |attempts|
  {
    hide Inv, Step, Wait, Run, Failed, OpsOf, Fails;
    if attempts == [] {
      RunNothing(c);
    } else {
      var m := |attempts| - 1;
      Backoff(c, attempts[..m]);
      RunConcat(c, AllOps(attempts[..m]), OpsOf(attempts[m]));
      AttemptWaits(Run(c, AllOps(attempts[..m])), attempts[m], m);
    }
  }

  /** A connection that is started has not failed yet and is due at once. */
  lemma StartIsFresh(c: Conn, now: Time)
    requires Inv(c) && c.state == Disconnected && HasConfiguration(c)
    ensures var d := Step(c, DoSetRunning(true, now)); d.sock == -1 && Failed(d, 0) && d.reconnectAt == now
  {
    hide UpdatePoll;
    UpdatePollQuiet(c.(timeout := 0, reconnectAt := now, state := WaitingForReconnect));
    InvIdle(c);
  }

  /** Before its time no attempt is made. */
  lemma NotBefore(c: Conn, ready: ConnState.Ready, w: World)
    requires Inv(c) && c.sock == -1 && w.now < c.reconnectAt
    ensures Step(c, DoWakeUp(ready, w)) == c
  {
    hide Inv;
    InvNamed(c);
  }

  /** A connection that drops after it was stable tries again at once. */
  lemma StableAtOnce(c: Conn, drop: World, n: nat)
    requires Inv(c) && c.sock != -1 && Failed(c, n) && drop.read == ReadFailed
    requires drop.times.checked >= c.playerIdAt + 15 * SECOND
    ensures var d := Step(c, Wakes(drop)); d.sock == -1 && d.reconnectAt == drop.times.retry && Failed(d, 1)
  {
    hide Inv, ReportError, Wait;
    InvNamed(c);
    ErrorWaits(Awake(c, ConnState.Ready(true, false), drop.now), drop.times, n);
  }

  /** When the server closes the stream, a finished game is over for good; any other connection has failed. */
  lemma StreamEnds(c: Conn, w: World, n: nat)
    requires Inv(c) && c.sock != -1 && Failed(c, n) && w.read == Got([])
    ensures var d := Step(c, Wakes(w));
            && d.sock == -1
            && if c.finished then d.state == Disconnected && d.reconnectAt == NEVER
               else && IsRunning(d)
                    && (d.reconnectAt == w.times.retry + Wait(n) * SECOND || d.reconnectAt == w.times.retry)
  {
    hide Inv, ReportError, Wait, Halt;
    InvNamed(c);
    InvOpen(c);
    var d := Awake(c, ConnState.Ready(true, false), w.now);
    InvAwake(c, ConnState.Ready(true, false), w.now);
    InvOpen(d);
    InvStop(d, w.times.retry);
    ErrorWaits(d, w.times, n);
  }

  lemma InvOpen(c: Conn)
    requires Inv(c) && c.sock != -1
    ensures Named(c) && Live(c) && c.reconnectAt == NEVER
  {
    hide Framing.Ready, Distinct;
  }

  // ---------- keeping alive ----------

  /** After a write there is nothing to do for 150 seconds. */
  lemma WriteRenews(c: Conn, n: nat, w: World)
    requires Inv(c) && c.sock != -1 && w.write == Wrote(n)
    ensures Step(c, DoWakeUp(ConnState.Ready(false, true), w)).keepAliveAt == w.times.retry + 150 * SECOND
  {
    hide Inv, UpdatePoll, Fill, Accept;
    InvNamed(c);
    var d := Fill(Awake(c, ConnState.Ready(false, true), w.now));
    var e := Accept(d, n).(keepAliveAt := w.times.retry + KEEP_ALIVE_TIME);
    UpdatePollQuiet(e);
  }

  /** A wake-up without anything else to do asks for a sign of life exactly when the time has come, and once. */
  lemma KeepAliveOnce(c: Conn, w: World)
    requires Inv(c) && c.sock != -1
    ensures var d := Step(c, DoWakeUp(ConnState.Ready(false, false), w));
            && d.dirty == (if w.now >= c.keepAliveAt then c.dirty + {KeepAlive} else c.dirty)
            && d.keepAliveAt == (if w.now >= c.keepAliveAt then NEVER else c.keepAliveAt)
            && (c.state == Running && !c.writeFinished && w.now >= c.keepAliveAt ==> d.poll.write)
  {
    hide Inv;
    InvNamed(c);
  }

  // ---------- polling ----------

  /** Something is pending exactly when the output buffer or the list of things to write is not empty. */
  lemma PendingMeans(c: Conn)
    requires Named(c)
    ensures HasPendingData(c) <==> c.output != [] || NextItem(c).Some?
    ensures HasPendingData(c) <==> |c.output| + (if NextItem(c).Some? then |Encode(NextItem(c).value)| else 0) > 0
  {
    hide Encode, HeaderItem;
    if c.dirty != {} {
      var flag :| flag in c.dirty;
      match flag
      case WsHeader =>
      case Header =>
      case KeepAlive =>
      case Leave =>
      case Shout =>
      case Turn =>
      case NTiles =>
      case Language =>
    }
  }

  /** What an open connection asks to be woken for: to read when it is connected; to write when it is connecting, or has
      something to write and has not shut down its half; and by the clock for what comes first. */
  lemma PollMeans(c: Conn)
    requires Inv(c) && c.sock != -1
    ensures Named(c)
    ensures var p := PollFor(c);
            && p.fd == c.sock && (p.read <==> c.state == Running)
            && (p.write <==> (c.state == Reconnecting ||
                              (!c.writeFinished && (c.output != [] || NextItem(c).Some?))))
            && p.wakeup <= c.keepAliveAt && p.wakeup <= NEVER && (p.wakeup == c.keepAliveAt || p.wakeup == NEVER)
  {
    hide Inv, HasPendingData, NextItem;
    InvOpen(c);
    PendingMeans(c);
  }

  /** Between two attempts it asks only to be woken for the next one. */
  lemma PollBetween(c: Conn)
    requires Inv(c) && c.sock == -1 && c.state == WaitingForReconnect && c.keepAliveAt == NEVER
    ensures PollFor(c) == Poll(-1, false, false, c.reconnectAt)
  {
    hide Framing.Ready, Distinct;
  }
}
