/** The incoming stream of client/vsx-connection.c: the end of the handshake, then frames, in whatever pieces it is
    read. */
module Framing {
  import opened Bits
  import opened Options
  import opened Proto

  // ---------- the end of the handshake ----------

  const TERMINATOR: seq<byte> := [13, 10, 13, 10]

  /** One byte of find_ws_terminator: on a mismatch the matcher starts over without looking at the byte again. */
  function MatchByte(pos: nat, b: byte): (q: nat)
    requires pos < 4
    ensures q <= 4
  {
    if b == TERMINATOR[pos] then pos + 1 else 0
  }

  /** The matcher's position after the bytes, and how many of them it took. */
  function Match(pos: nat, s: seq<byte>): (r: (nat, nat))
    requires pos <= 4
    ensures r.0 <= 4 && r.1 <= |s| && (r.0 < 4 ==> r.1 == |s|)
    decreases |s|
  {
    if pos == 4 || s == [] then (pos, 0)
    else
      var (q, n) := Match(MatchByte(pos, s[0]), s[1..]);
      (q, n + 1)
  }

  lemma {:induction false} MatchConcat(pos: nat, a: seq<byte>, b: seq<byte>)
    requires pos <= 4
    ensures var (q, n) := Match(pos, a);
            Match(pos, a + b) == if q == 4 then (q, n) else (Match(q, b).0, |a| + Match(q, b).1)
    decreases |a|
  {
    if pos < 4 {
      if a == [] {
        assert a + b == b;
      } else {
        assert (a + b)[1..] == a[1..] + b;
        MatchConcat(MatchByte(pos, a[0]), a[1..], b);
      }
    }
  }

  /** The terminator lies at position i. */
  predicate TerminatorAt(s: seq<byte>, i: nat) {
    i + 4 <= |s| && s[i] == 13 && s[i + 1] == 10 && s[i + 2] == 13 && s[i + 3] == 10
  }

  /** How many carriage returns the bytes end with. */
  function TrailingReturns(s: seq<byte>): (n: nat)
    ensures n <= |s|
  {
    if s == [] || s[|s| - 1] != 13 then 0 else 1 + TrailingReturns(s[..|s| - 1])
  }

  /** What the matcher's position says about the last bytes it took. */
  ghost predicate Seen(s: seq<byte>, q: nat) {
    && q <= 4 && q <= |s| && s[|s| - q..] == TERMINATOR[..q]
    && (q < 4 ==> (q % 2 == 1 <==> TrailingReturns(s) % 2 == 1))
  }

  lemma TailNext(s: seq<byte>, q: nat, b: byte)
    requires q < 4 && q <= |s| && s[|s| - q..] == TERMINATOR[..q] && b == TERMINATOR[q]
    ensures (s + [b])[|s| - q..] == TERMINATOR[..q + 1]
  {
    assert (s + [b])[|s| - q..] == s[|s| - q..] + [b];
    assert TERMINATOR[..q + 1] == TERMINATOR[..q] + [TERMINATOR[q]];
  }

  lemma SeenNext(s: seq<byte>, q: nat, b: byte)
    requires Seen(s, q) && q < 4
    ensures Seen(s + [b], MatchByte(q, b))
  {
    var t := s + [b];
    assert t[..|s|] == s;
    if b == TERMINATOR[q] {
      TailNext(s, q, b);
      assert |t| - (q + 1) == |s| - q;
    }
  }

  lemma MatchNothing()
    ensures Match(0, []) == (0, 0) && Seen([], 0)
  {
  }

  lemma {:induction false} MatchMeans(s: seq<byte>)
    ensures var (q, n) := Match(0, s); Seen(s[..n], q)
    decreases |s|
  {
    hide Match, Seen;
    if s == [] {
      MatchNothing();
    } else {
      var m := |s| - 1;
      var a, b := s[..m], s[m];
      MatchMeans(a);
      assert a + [b] == s;
      MatchConcat(0, a, [b]);
      var (p, n) := Match(0, a);
      if p < 4 {
        OneByte(p, b);
        assert a[..n] == a && s[..m + 1] == s;
        SeenNext(a, p, b);
      } else {
        assert s[..n] == a[..n];
      }
    }
  }

  lemma OneByte(pos: nat, b: byte)
    requires pos < 4
    ensures Match(pos, [b]) == (MatchByte(pos, b), 1)
  {
    assert [b][1..] == [];
    assert Match(MatchByte(pos, b), []) == (MatchByte(pos, b), 0);
  }

  /** Nothing is taken for the terminator that is not one. */
  lemma MatchSound(s: seq<byte>)
    requires Match(0, s).0 == 4
    ensures Match(0, s).1 >= 4 && TerminatorAt(s, Match(0, s).1 - 4)
  {
    MatchMeans(s);
    var n := Match(0, s).1;
    var t := s[..n];
    var last := t[|t| - 4..];
    assert last[0] == t[n - 4] && last[1] == t[n - 3] && last[2] == t[n - 2] && last[3] == t[n - 1];
  }

  /** The first terminator is found exactly when the number of carriage returns directly before it is even; in
      particular when there is none there, as in a handshake in which a line feed follows every carriage return. */
  lemma MatchFindsFirst(s: seq<byte>, i: nat)
    requires TerminatorAt(s, i) && forall j: nat :: j < i ==> !TerminatorAt(s, j)
    ensures Match(0, s) == (4, i + 4) <==> TrailingReturns(s[..i]) % 2 == 0
  {
    hide Match, TrailingReturns;
    var before, rest := s[..i], s[i..];
    assert before + rest == s;
    MatchMeans(before);
    MatchConcat(0, before, rest);
    var (q, n) := Match(0, before);
    assert before[..n] == before || q == 4;
    if q == 4 {
      MatchSound(before);
      Within(s, i, n - 4);
    } else if q == 2 {
      Overlap(s, i);
    }
    FourBytes(q, rest);
  }

  lemma Within(s: seq<byte>, i: nat, j: nat)
    requires i <= |s| && TerminatorAt(s[..i], j)
    ensures TerminatorAt(s, j) && j < i
  {
  }

  /** Half a terminator directly before a terminator makes an earlier one. */
  lemma Overlap(s: seq<byte>, i: nat)
    requires TerminatorAt(s, i) && Seen(s[..i], 2)
    ensures i >= 2 && TerminatorAt(s, i - 2)
  {
    var t := s[..i];
    var last := t[|t| - 2..];
    assert last[0] == t[i - 2] && last[1] == t[i - 1];
  }

  lemma MatchStep(q: nat, s: seq<byte>, next: nat)
    requires q < 4 && s != [] && next == MatchByte(q, s[0])
    ensures Match(q, s) == (Match(next, s[1..]).0, Match(next, s[1..]).1 + 1)
  {
  }

  lemma FourBytes(q: nat, rest: seq<byte>)
    requires q in {0, 1, 3} && TerminatorAt(rest, 0)
    ensures Match(q, rest) == (4, 4) <==> q == 0
  {
    hide Match;
    var r1 := rest[1..];
    var r2 := r1[1..];
    var r3 := r2[1..];
    var r4 := r3[1..];
    assert r1[0] == 10 && r2[0] == 13 && r3[0] == 10;
    if q == 0 {
      MatchStep(0, rest, 1);
      MatchStep(1, r1, 2);
      MatchStep(2, r2, 3);
      MatchStep(3, r3, 4);
      MatchDone(4, r4);
    } else {
      MatchStep(q, rest, 0);
      MatchStep(0, r1, 0);
      MatchStep(0, r2, 1);
      MatchStep(1, r3, 2);
      MatchDone(2, r4);
    }
  }

  lemma MatchDone(q: nat, s: seq<byte>)
    requires q <= 4
    ensures Match(q, s).0 == 4 && Match(q, s).1 == 0 <==> q == 4
  {
  }

  /** Where it fails: a carriage return just before the terminator. */
  lemma MatchMisses()
    ensures TerminatorAt([13, 13, 10, 13, 10], 1) && Match(0, [13, 13, 10, 13, 10]).0 != 4
  {
    var s := [13, 13, 10, 13, 10];
    assert s[..1] == [13];
    assert [13][..0] == [];
    assert TrailingReturns([13]) == 1;
    MatchFindsFirst(s, 1);
    if Match(0, s).0 == 4 { MatchSound(s); }
  }

  // ---------- frames ----------

  /** get_payload_length: the payload's length and where it starts, once enough of the frame is there.  The second byte
      is a length as it stands, and 0x7f is followed by 32 bits. */
  function FrameAt(s: seq<byte>): (r: Option<(nat, nat)>)
    ensures r.Some? ==> 2 <= r.value.1 <= 6 && r.value.1 <= |s|
    ensures r.None? ==> |s| < 6
  {
    if |s| < 2 then None
    else if s[1] == 0x7e then
      if |s| < 4 then None else Some((s[2] as int * 256 + s[3], 4))
    else if s[1] == 0x7f then
      if |s| < 6 then None
      else Some((s[2] as int * 0x100_0000 + s[3] as int * 0x1_0000 + s[4] as int * 256 + s[5], 6))
    else Some((s[1], 2))
  }

  datatype Trouble = TooLong | Rejected(payload: seq<byte>)

  /** What process_frames makes of some bytes: the payloads handed on, and either the bytes kept for the next read or
      the reason to give up. */
  datatype Parsed = More(payloads: seq<seq<byte>>, rest: seq<byte>) | Stop(payloads: seq<seq<byte>>, trouble: Trouble)

  function Prepend(payload: seq<byte>, p: Parsed): Parsed {
    match p
    case More(payloads, rest) => More([payload] + payloads, rest)
    case Stop(payloads, trouble) => Stop([payload] + payloads, trouble)
  }

  /** Only binary frames are messages; everything else is skipped. */
  function Handle(first: byte, payload: seq<byte>, later: Parsed): (r: Parsed)
    ensures r.More? ==> later.More? && r.rest == later.rest
  {
    if first != 0x82 then later
    else if !Accepted(payload) then Stop([], Rejected(payload))
    else Prepend(payload, later)
  }

  function Parse(s: seq<byte>): (r: Parsed)
    ensures r.More? ==> |r.rest| <= |s|
    decreases |s|
  {
    var f := FrameAt(s);
    if f.None? then More([], s)
    else
      var (length, start) := f.value;
      if length > MAX_PAYLOAD then Stop([], TooLong)
      else if start + length > |s| then More([], s)
      else Handle(s[0], s[start..start + length], Parse(s[start + length..]))
  }

  /** What is kept is an incomplete frame, so there is always room to read at least one more byte. */
  lemma {:induction false} RestSmall(s: seq<byte>)
    ensures Parse(s).More? ==> |Parse(s).rest| < MAX_PAYLOAD + 6 <= BUFFER_SIZE - 8
    decreases |s|
  {
    hide Accepted, Prepend;
    var f := FrameAt(s);
    if f.Some? {
      var (length, start) := f.value;
      if length <= MAX_PAYLOAD && start + length <= |s| { RestSmall(s[start + length..]); }
    }
  }

  ghost predicate AllAccepted(payloads: seq<seq<byte>>) {
    forall i :: 0 <= i < |payloads| ==> Accepted(payloads[i])
  }

  lemma HandleAccepted(first: byte, payload: seq<byte>, later: Parsed)
    requires AllAccepted(later.payloads)
    ensures AllAccepted(Handle(first, payload, later).payloads)
  {
    hide Accepted;
  }

  lemma {:induction false} ParsedAccepted(s: seq<byte>)
    ensures AllAccepted(Parse(s).payloads)
    decreases |s|
  {
    hide Accepted, Handle;
    var f := FrameAt(s);
    if f.Some? {
      var (length, start) := f.value;
      if length <= MAX_PAYLOAD && start + length <= |s| {
        ParsedAccepted(s[start + length..]);
        HandleAccepted(s[0], s[start..start + length], Parse(s[start + length..]));
      }
    }
  }

  /** Payloads of an earlier piece, then what became of a later one. */
  function After(payloads: seq<seq<byte>>, p: Parsed): Parsed {
    match p
    case More(more, rest) => More(payloads + more, rest)
    case Stop(more, trouble) => Stop(payloads + more, trouble)
  }

  lemma FrameAtPrefix(a: seq<byte>, b: seq<byte>)
    requires FrameAt(a).Some?
    ensures FrameAt(a + b) == FrameAt(a)
  {
  }

  lemma AfterNothing(p: Parsed)
    ensures After([], p) == p
  {
    assert [] + p.payloads == p.payloads;
  }

  /** What becomes of a + b, given what became of a. */
  function Continue(p: Parsed, b: seq<byte>): Parsed {
    match p
    case More(payloads, rest) => After(payloads, Parse(rest + b))
    case Stop(_, _) => p
  }

  lemma HandleContinue(first: byte, payload: seq<byte>, p: Parsed, b: seq<byte>)
    ensures Continue(Handle(first, payload, p), b) == Handle(first, payload, Continue(p, b))
  {
    hide Parse, Accepted;
    if p.More? {
      var q := Parse(p.rest + b);
      assert [payload] + (p.payloads + q.payloads) == [payload] + p.payloads + q.payloads;
    }
  }

  /** Parsing may be cut anywhere: what was kept is parsed again together with what follows. */
  lemma {:induction false} ParseConcat(a: seq<byte>, b: seq<byte>)
    ensures Parse(a + b) == Continue(Parse(a), b)
    decreases |a|
  {
    hide Handle, After, FrameAt;
    var f := FrameAt(a);
    AfterNothing(Parse(a + b));
    if f.Some? {
      var (length, start) := f.value;
      FrameAtPrefix(a, b);
      if length <= MAX_PAYLOAD && start + length <= |a| {
        var payload, rest := a[start..start + length], a[start + length..];
        assert (a + b)[start..start + length] == payload && (a + b)[start + length..] == rest + b;
        ParseConcat(rest, b);
        HandleContinue(a[0], payload, Parse(rest), b);
      }
    }
  }

  // ---------- the reader ----------

  /** Position in the terminator and the bytes kept; or a connection that has given up. */
  datatype Reader = Reading(pos: nat, input: seq<byte>) | Failed(trouble: Trouble)

  /** Before the end of the handshake nothing is kept. */
  ghost predicate Ready(r: Reader) {
    r.Reading? ==> r.pos <= 4 && (r.pos < 4 ==> r.input == []) && Parse(r.input) == More([], r.input)
  }

  function Result(p: Parsed): (Reader, seq<seq<byte>>) {
    match p
    case More(payloads, rest) => (Reading(4, rest), payloads)
    case Stop(payloads, trouble) => (Failed(trouble), payloads)
  }

  /** The handling of one successful read. */
  function Feed(r: Reader, bytes: seq<byte>): (Reader, seq<seq<byte>>)
    requires r.Reading? ==> r.pos <= 4
  {
    match r
    case Failed(_) => (r, [])
    case Reading(pos, input) =>
      if pos == 4 then Result(Parse(input + bytes))
      else
        var (q, n) := Match(pos, bytes);
        if q < 4 then (Reading(q, []), []) else Result(Parse(bytes[n..]))
  }

  /** However the bytes are cut in two, the payloads, the state and the first error are those of the whole. */
  lemma FeedConcat(r: Reader, a: seq<byte>, b: seq<byte>)
    requires Ready(r)
    ensures Ready(Feed(r, a).0)
    ensures var (r1, p1) := Feed(r, a);
            var (r2, p2) := Feed(r1, b);
            Feed(r, a + b) == (r2, p1 + p2)
  {
    hide Parse, Match;
    if r.Failed? {
      var nothing: seq<seq<byte>> := [];
      assert nothing + nothing == nothing;
    } else if r.pos == 4 {
      assert r.input + (a + b) == r.input + a + b;
      ParseFeeds(r.input + a, b);
    } else {
      MatchConcat(r.pos, a, b);
      var (q, n) := Match(r.pos, a);
      if q == 4 {
        assert (a + b)[n..] == a[n..] + b;
        ParseFeeds(a[n..], b);
      } else {
        ParseNothing();
        var (q', n') := Match(q, b);
        assert (a + b)[|a| + n'..] == b[n'..];
        assert [] + Feed(Reading(q, []), b).1 == Feed(Reading(q, []), b).1;
      }
    }
  }

  lemma ParseNothing()
    ensures Parse([]) == More([], [])
  {
  }

  lemma ParseFeeds(a: seq<byte>, b: seq<byte>)
    ensures Ready(Result(Parse(a)).0)
    ensures var (r1, p1) := Result(Parse(a));
            var (r2, p2) := Feed(r1, b);
            Result(Parse(a + b)) == (r2, p1 + p2)
  {
    ParseConcat(a, b);
    RestStable(a);
    hide Parse;
    var p := Parse(a);
    if p.Stop? { assert p.payloads + [] == p.payloads; }
  }

  /** What is kept parses to itself. */
  lemma {:induction false} RestStable(s: seq<byte>)
    ensures Parse(s).More? ==> Parse(Parse(s).rest) == More([], Parse(s).rest)
    decreases |s|
  {
    hide Accepted, Prepend;
    var f := FrameAt(s);
    if f.Some? {
      var (length, start) := f.value;
      hide FrameAt;
      if length <= MAX_PAYLOAD && start + length <= |s| { RestStable(s[start + length..]); }
    }
  }

  function Concat(chunks: seq<seq<byte>>): seq<byte> {
    if chunks == [] then [] else chunks[0] + Concat(chunks[1..])
  }

  /** One read after the other. */
  function FeedAll(r: Reader, chunks: seq<seq<byte>>): (Reader, seq<seq<byte>>)
    requires Ready(r)
    decreases |chunks|
  {
    if chunks == [] then (r, [])
    else
      FeedConcat(r, chunks[0], []);
      var (r1, p1) := Feed(r, chunks[0]);
      var (r2, p2) := FeedAll(r1, chunks[1..]);
      (r2, p1 + p2)
  }

  /** However the incoming bytes are split into reads, the payloads and the first error are those of all of them. */
  lemma {:induction false} SplitsAgree(r: Reader, chunks: seq<seq<byte>>)
    requires Ready(r) && chunks != []
    ensures FeedAll(r, chunks) == Feed(r, Concat(chunks))
    decreases |chunks|
  {
    hide Feed, Parse, Match;
    FeedConcat(r, chunks[0], Concat(chunks[1..]));
    var (r1, p1) := Feed(r, chunks[0]);
    if |chunks| == 1 {
      assert chunks[1..] == [] && chunks[0] + [] == chunks[0];
      assert p1 + [] == p1;
    } else {
      SplitsAgree(r1, chunks[1..]);
    }
  }

  /** The input kept between reads never fills the buffer. */
  lemma RoomToRead(r: Reader, bytes: seq<byte>)
    requires Ready(r) && Feed(r, bytes).0.Reading?
    ensures |Feed(r, bytes).0.input| < BUFFER_SIZE
  {
    hide Parse, Match;
    if r.Reading? && r.pos == 4 {
      RestSmall(r.input + bytes);
    } else if r.Reading? {
      var (q, n) := Match(r.pos, bytes);
      if q == 4 { RestSmall(bytes[n..]); }
    }
  }

  // ---------- round trip ----------

  /** A frame written by vsx_proto_write_command is parsed back, as long as the payload is no longer than allowed. */
  lemma ParseFrame(payload: seq<byte>, rest: seq<byte>)
    requires |payload| <= MAX_PAYLOAD && Accepted(payload)
    ensures Parse(Frame(payload) + rest) == Prepend(payload, Parse(rest))
  {
    hide Accepted;
    var s := Frame(payload) + rest;
    HeaderRead(payload, rest);
    hide FrameAt, FrameHeader;
    var (length, start) := FrameAt(s).value;
    assert s[start..start + length] == payload && s[start + length..] == rest;
  }

  lemma HeaderRead(payload: seq<byte>, rest: seq<byte>)
    requires |payload| <= MAX_PAYLOAD
    ensures FrameAt(Frame(payload) + rest) == Some((|payload|, |FrameHeader(|payload|)|))
    ensures (Frame(payload) + rest)[0] == 0x82
  {
    var n := |payload|;
    if n >= 126 {
      assert BigEndian(n, 2) == [n / 256 % 256, n % 256];
    }
  }

  function Frames(payloads: seq<seq<byte>>): seq<byte> {
    if payloads == [] then [] else Frame(payloads[0]) + Frames(payloads[1..])
  }

  /** A stream of frames gives back its payloads. */
  lemma {:induction false} ParseFrames(payloads: seq<seq<byte>>)
    requires forall i :: 0 <= i < |payloads| ==> |payloads[i]| <= MAX_PAYLOAD && Accepted(payloads[i])
    ensures Parse(Frames(payloads)) == More(payloads, [])
  {
    hide Accepted, Frame;
    if payloads != [] {
      ParseFrames(payloads[1..]);
      ParseFrame(payloads[0], Frames(payloads[1..]));
      assert [payloads[0]] + payloads[1..] == payloads;
    }
  }

  /** A length of 1025 is refused as soon as the header is there. */
  lemma TooLongRefused(length: nat, rest: seq<byte>)
    requires MAX_PAYLOAD < length <= 0xffff
    ensures Parse(FrameHeader(length) + rest) == Stop([], TooLong)
  {
    assert BigEndian(length, 2) == [length / 256 % 256, length % 256];
  }

  // ---------- layout ----------

  /** What the writer puts before a payload: an unmasked binary frame, RFC 6455, section 5.2. */
  lemma FrameLayout(payload: seq<byte>)
    requires |payload| < 0x1_0000
    ensures Frame(payload) == [0x82] + (if |payload| < 126 then [|payload|]
                                        else [126, |payload| / 256, |payload| % 256]) + payload
  {
    var n := |payload|;
    assert BigEndian(n / 256, 1) == BigEndian(n / 256 / 256, 0) + [n / 256 % 256];
    assert BigEndian(n, 2) == BigEndian(n / 256, 1) + [n % 256];
  }

  /** A frame of any other kind is passed over. */
  lemma OthersSkipped(first: byte, payload: seq<byte>, rest: seq<byte>)
    requires first != 0x82 && |payload| < 126
    ensures Parse([first, |payload|] + payload + rest) == Parse(rest)
  {
    hide Accepted;
    var s := [first, |payload|] + payload + rest;
    assert s[0] == first && s[1] == |payload| && s[2..2 + |payload|] == payload && s[2 + |payload|..] == rest;
  }

  /** How the reader takes a length: from one byte, or from two or four behind a mark, the highest first. */
  lemma LengthLayout(first: byte, a: byte, b: byte, c: byte, d: byte, rest: seq<byte>)
    ensures a < 126 ==> FrameAt([first, a] + rest) == Some((a as int, 2))
    ensures FrameAt([first, 126, a, b] + rest) == Some((256 * (a as int) + b, 4))
    ensures FrameAt([first, 127, a, b, c, d] + rest) ==
            Some((0x100_0000 * (a as int) + 0x1_0000 * (b as int) + 256 * (c as int) + d, 6))
  {
    var s, t, u := [first, a] + rest, [first, 126, a, b] + rest, [first, 127, a, b, c, d] + rest;
    assert s[1] == a;
    assert t[1] == 126 && t[2] == a && t[3] == b;
    assert u[1] == 127 && u[2] == a && u[3] == b && u[4] == c && u[5] == d;
  }
}
