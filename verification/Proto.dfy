/** The message format shared with the server: common/vsx-proto.c and common/vsx-utf8.c. */
module Proto {
  import opened Bits
  import opened Options

  const MAX_PAYLOAD := 1024
  const MAX_FRAME_HEADER := 14
  const BUFFER_SIZE := MAX_PAYLOAD + MAX_FRAME_HEADER
  const MAX_MESSAGE := 1000

  /** The low k bytes of x, least significant first. */
  function LittleEndian(x: nat, k: nat): (r: seq<byte>)
    ensures |r| == k
    decreases k
  {
    if k == 0 then [] else [x % 256] + LittleEndian(x / 256, k - 1)
  }

  /** The low k bytes of x, most significant first. */
  function BigEndian(x: nat, k: nat): (r: seq<byte>)
    ensures |r| == k
    decreases k
  {
    if k == 0 then [] else BigEndian(x / 256, k - 1) + [x % 256]
  }

  /** A signed or unsigned integer in the bytes of its C type. */
  function Integer(x: int, k: nat): (r: seq<byte>)
    ensures |r| == k
  {
    LittleEndian(if x >= 0 then x else x % Pow2(8 * k), k)
  }

  /** A C string: the bytes and a terminating zero. */
  function CString(text: seq<byte>): seq<byte> {
    text + [0]
  }

  function FrameHeader(length: nat): seq<byte> {
    if length > 0xffff then [0x82, 127] + BigEndian(length, 8)
    else if length >= 126 then [0x82, 126] + BigEndian(length, 2)
    else [0x82, length]
  }

  /** One binary frame. */
  function Frame(payload: seq<byte>): (r: seq<byte>)
    ensures |payload| + 2 <= |r|
  {
    FrameHeader(|payload|) + payload
  }

  /** vsx_proto_write_command: -1 when the whole frame does not fit. */
  predicate Fits(frame: seq<byte>, space: nat) {
    |frame| <= space
  }

  // ---------- text ----------

  predicate Continuation(b: byte) {
    b / 64 == 2
  }

  /** The bytes of one character, and the smallest value it may have in that many bytes; 0 when none starts so. */
  function CharSize(start: byte): (nat, nat) {
    if start < 0x80 then (1, 0)
    else if start / 32 == 6 then (2, 0x80)
    else if start / 16 == 14 then (3, 0x800)
    else if start / 8 == 30 then (4, 0x1_0000)
    else (0, 0)
  }

  function CharValue(text: seq<byte>, size: nat): nat
    requires 1 <= size <= 4 && size <= |text|
  {
    match size
    case 1 => text[0]
    case 2 => (text[0] as int) % 32 * 64 + text[1] % 64
    case 3 => (text[0] as int) % 16 * 0x1000 + (text[1] as int) % 64 * 64 + text[2] % 64
    case _ => (text[0] as int) % 8 * 0x4_0000 + (text[1] as int) % 64 * 0x1000 + (text[2] as int) % 64 * 64 +
              text[3] % 64
  }

  /** vsx_utf8_is_valid_string. */
  predicate ValidText(text: seq<byte>) {
    text == [] ||
    var (size, minimum) := CharSize(text[0]);
    && size > 0 && size <= |text|
    && (forall i :: 1 <= i < size ==> Continuation(text[i]))
    && var ch := CharValue(text, size);
       ch >= minimum && !(0xd800 <= ch <= 0xdfff) && ch <= 0x10_ffff && ValidText(text[size..])
  }

  /** The bytes are exactly one valid C string. */
  predicate OneString(bytes: seq<byte>) {
    |bytes| > 0 && bytes[|bytes| - 1] == 0 && 0 !in bytes[..|bytes| - 1] && ValidText(bytes[..|bytes| - 1])
  }

  // ---------- messages from the server ----------

  const PLAYER_ID := 0x00
  const MESSAGE := 0x01
  const N_TILES := 0x02
  const TILE := 0x03
  const PLAYER_NAME := 0x04
  const PLAYER := 0x05
  const PLAYER_SHOUTED := 0x06
  const SYNC := 0x07
  const END := 0x08
  const BAD_PLAYER_ID := 0x09
  const CONVERSATION_ID := 0x0a
  const BAD_CONVERSATION_ID := 0x0b
  const LANGUAGE := 0x0c
  const CONVERSATION_FULL := 0x0d

  /** The text is one character, and not the empty string. */
  predicate OneChar(text: seq<byte>) {
    text != [] && |text| == CharSize(text[0]).0
  }

  /** process_message accepts the payload; unknown message types are ignored, which is also acceptance. */
  predicate Accepted(p: seq<byte>) {
    p != [] &&
    if p[0] == PLAYER_ID then |p| == 1 + 8 + 1
    else if p[0] == MESSAGE || p[0] == PLAYER_NAME then |p| >= 2 && OneString(p[2..])
    else if p[0] == N_TILES || p[0] == PLAYER_SHOUTED then |p| == 2
    else if p[0] == TILE then |p| >= 8 && OneString(p[6..|p| - 1]) && OneChar(p[6..|p| - 2])
    else if p[0] == PLAYER then |p| == 3
    else if p[0] in {SYNC, END, BAD_PLAYER_ID, BAD_CONVERSATION_ID, CONVERSATION_FULL} then |p| == 1
    else if p[0] == CONVERSATION_ID then |p| == 9
    else p[0] == LANGUAGE ==> OneString(p[1..])
  }

  /** Where vsx_connection_send_message cuts a text that is too long: never before a continuation byte.  None when its
      loop runs below the start of the text. */
  function ClipAt(text: seq<byte>, n: nat): (r: Option<nat>)
    requires n < |text|
    ensures r.Some? ==> r.value <= n && !Continuation(text[r.value])
  {
    if !Continuation(text[n]) then Some(n) else if n == 0 then None else ClipAt(text, n - 1)
  }

  function ClipEnd(text: seq<byte>): (r: Option<nat>)
    ensures r.Some? ==> r.value <= |text| && r.value <= MAX_MESSAGE
  {
    if |text| <= MAX_MESSAGE then Some(|text|) else ClipAt(text, MAX_MESSAGE)
  }

  /** The message that is sent.  Where the source leaves the text nothing is promised, and this model sends nothing. */
  function Clip(text: seq<byte>): (r: seq<byte>)
    ensures |r| <= MAX_MESSAGE && r <= text
  {
    match ClipEnd(text)
    case Some(n) => text[..n]
    case None => []
  }

  /** The loop stays inside a text that is too long exactly when one of the bytes it may look at ends it. */
  lemma ClipInside(text: seq<byte>)
    requires |text| > MAX_MESSAGE
    ensures ClipEnd(text).Some? <==> exists i: nat :: i <= MAX_MESSAGE && !Continuation(text[i])
  {
    ClipAtInside(text, MAX_MESSAGE);
  }

  lemma {:induction false} ClipAtInside(text: seq<byte>, n: nat)
    requires n < |text|
    ensures ClipAt(text, n).Some? <==> exists i: nat :: i <= n && !Continuation(text[i])
  {
    if n > 0 { ClipAtInside(text, n - 1); }
  }

  /** A text on which it does not: 1001 continuation bytes. */
  lemma ClipLeaves() returns (text: seq<byte>)
    ensures |text| == MAX_MESSAGE + 1 && ClipEnd(text).None?
  {
    text := seq(MAX_MESSAGE + 1, _ => 0x80);
    ClipInside(text);
  }

  /** Cutting a valid text at any place that is not before a continuation byte leaves a valid text. */
  lemma {:induction false} PrefixValid(text: seq<byte>, n: nat)
    requires ValidText(text) && n <= |text| && (n < |text| ==> !Continuation(text[n]))
    ensures ValidText(text[..n])
    decreases |text|
  {
    if n > 0 {
      var size := CharSize(text[0]).0;
      if n >= size {
        if n < |text| { assert text[size..][n - size] == text[n]; }
        PrefixValid(text[size..], n - size);
        assert text[..n][size..] == text[size..][..n - size];
        SameChar(text, text[..n], size);
      }
    }
  }

  lemma SameChar(text: seq<byte>, other: seq<byte>, size: nat)
    requires 1 <= size <= 4 && size <= |other| <= |text| && other == text[..|other|]
    ensures CharValue(other, size) == CharValue(text, size)
  {
  }

  /** On a valid message the loop stays inside it, and what is left is valid again. */
  lemma ClipValid(text: seq<byte>)
    requires ValidText(text)
    ensures ClipEnd(text).Some? && ValidText(Clip(text))
  {
    if |text| > MAX_MESSAGE {
      assert !Continuation(text[0]);
      ClipInside(text);
      PrefixValid(text, ClipAt(text, MAX_MESSAGE).value);
    } else {
      assert Clip(text) == text;
    }
  }

  /** No valid text ends before a continuation byte of a longer one. */
  lemma {:induction false} EndsBefore(text: seq<byte>, k: nat)
    requires ValidText(text) && k < |text| && ValidText(text[..k])
    ensures !Continuation(text[k])
    decreases |text|
  {
    if k > 0 {
      var size := CharSize(text[0]).0;
      assert text[..k][size..] == text[size..][..k - size];
      EndsBefore(text[size..], k - size);
    }
  }

  lemma {:induction false} ClipAtLargest(text: seq<byte>, n: nat, i: nat)
    requires i <= n < |text| && !Continuation(text[i])
    ensures ClipAt(text, n).Some? && i <= ClipAt(text, n).value
  {
    if Continuation(text[n]) { ClipAtLargest(text, n - 1, i); }
  }

  /** What is left of a valid message is as much as can be: no valid beginning of at most 1000 bytes is longer. */
  lemma ClipLongest(text: seq<byte>, k: nat)
    requires ValidText(text) && k <= |text| && k <= 1000 && ValidText(text[..k])
    ensures k <= |Clip(text)| <= 1000
  {
    if |text| > MAX_MESSAGE {
      EndsBefore(text, k);
      ClipAtLargest(text, MAX_MESSAGE, k);
    }
  }

  /** The loop of vsx_connection_send_message. */
  method ClipLength(text: seq<byte>) returns (end: Option<nat>)
    ensures end == ClipEnd(text)
  {
    var n: nat := |text|;
    if n > MAX_MESSAGE {
      n := MAX_MESSAGE;
      while Continuation(text[n])
        invariant n <= MAX_MESSAGE < |text| && ClipAt(text, n) == ClipAt(text, MAX_MESSAGE)
        decreases n
      {
        if n == 0 { return None; }
        n := n - 1;
      }
    }
    end := Some(n);
  }
}
