/** What common/vsx-utf8.c accepts is UTF-8 as RFC 3629, section 3, defines it. */
module Utf8 {
  import opened Bits
  import opened Proto

  /** A character: no surrogate, and not beyond the last plane. */
  predicate Scalar(ch: nat) {
    ch < 0xd800 || 0xe000 <= ch < 0x11_0000
  }

  function Tail(ch: nat): byte {
    0x80 + ch % 64
  }

  /** The bytes of a character. */
  function Spell(ch: nat): (r: seq<byte>)
    requires Scalar(ch)
    ensures 1 <= |r| <= 4
  {
    if ch < 0x80 then [ch]
    else if ch < 0x800 then [0xc0 + ch / 64, Tail(ch)]
    else if ch < 0x1_0000 then [0xe0 + ch / 0x1000, Tail(ch / 64), Tail(ch)]
    else [0xf0 + ch / 0x4_0000, Tail(ch / 0x1000), Tail(ch / 64), Tail(ch)]
  }

  ghost predicate Scalars(text: seq<nat>) {
    forall i :: 0 <= i < |text| ==> Scalar(text[i])
  }

  function SpellAll(text: seq<nat>): seq<byte>
    requires Scalars(text)
  {
    if text == [] then [] else Spell(text[0]) + SpellAll(text[1..])
  }

  /** The first character is complete and properly spelled. */
  predicate CharOk(bytes: seq<byte>) {
    bytes != [] &&
    var (size, minimum) := CharSize(bytes[0]);
    && size > 0 && size <= |bytes|
    && (forall i :: 1 <= i < size ==> Continuation(bytes[i]))
    && CharValue(bytes, size) >= minimum && Scalar(CharValue(bytes, size))
  }

  lemma ValidStep(bytes: seq<byte>)
    requires bytes != []
    ensures ValidText(bytes) <==> CharOk(bytes) && ValidText(bytes[CharSize(bytes[0]).0..])
  {
  }

  /** The digits of a character in base 64. */
  lemma Digits(ch: nat)
    ensures ch / 64 * 64 + ch % 64 == ch && ch / 0x1000 == ch / 64 / 64 && ch / 0x4_0000 == ch / 0x1000 / 64
    ensures ch / 0x1000 * 0x1000 + ch / 64 % 64 * 64 + ch % 64 == ch
    ensures ch / 0x4_0000 * 0x4_0000 + ch / 0x1000 % 64 * 0x1000 + ch / 64 % 64 * 64 + ch % 64 == ch
  {
    var a, b := ch / 64, ch / 64 / 64;
    assert a == b * 64 + a % 64 && b == b / 64 * 64 + b % 64;
  }

  lemma Undigits(a: nat, b: nat, c: nat, d: nat)
    requires b < 64 && c < 64 && d < 64
    ensures var ch := a * 0x4_0000 + b * 0x1000 + c * 64 + d;
            ch % 64 == d && ch / 64 % 64 == c && ch / 0x1000 % 64 == b && ch / 0x4_0000 == a
  {
    var ch := a * 0x4_0000 + b * 0x1000 + c * 64 + d;
    Digits(ch);
    assert ch / 64 == a * 0x1000 + b * 64 + c;
    assert ch / 0x1000 == a * 64 + b;
  }

  /** A character that is spelled is read back. */
  lemma SpellRead(ch: nat, rest: seq<byte>)
    requires Scalar(ch)
    ensures var bytes := Spell(ch) + rest;
            CharOk(bytes) && CharSize(bytes[0]).0 == |Spell(ch)| && CharValue(bytes, |Spell(ch)|) == ch
  {
    if ch < 0x80 {
      assert (Spell(ch) + rest)[0] == ch;
    } else if ch < 0x800 {
      TwoRead(ch, rest);
    } else if ch < 0x1_0000 {
      ThreeRead(ch, rest);
    } else {
      FourRead(ch, rest);
    }
  }

  lemma TwoRead(ch: nat, rest: seq<byte>)
    requires 0x80 <= ch < 0x800
    ensures var bytes := Spell(ch) + rest;
            CharOk(bytes) && CharSize(bytes[0]).0 == 2 && CharValue(bytes, 2) == ch
  {
    Digits(ch);
    var bytes := Spell(ch) + rest;
    assert bytes[0] == 0xc0 + ch / 64 && bytes[1] == Tail(ch);
    assert bytes[0] / 32 == 6 && bytes[0] % 32 == ch / 64;
  }

  lemma ThreeRead(ch: nat, rest: seq<byte>)
    requires 0x800 <= ch < 0x1_0000 && Scalar(ch)
    ensures var bytes := Spell(ch) + rest;
            CharOk(bytes) && CharSize(bytes[0]).0 == 3 && CharValue(bytes, 3) == ch
  {
    Digits(ch);
    var bytes := Spell(ch) + rest;
    assert bytes[0] == 0xe0 + ch / 0x1000 && bytes[1] == Tail(ch / 64) && bytes[2] == Tail(ch);
    assert bytes[0] / 32 == 7 && bytes[0] / 16 == 14 && bytes[0] % 16 == ch / 0x1000;
    assert bytes[1] % 64 == ch / 64 % 64 && bytes[2] % 64 == ch % 64;
    hide Scalar, Spell;
    assert CharValue(bytes, 3) == ch;
  }

  lemma FourRead(ch: nat, rest: seq<byte>)
    requires 0x1_0000 <= ch < 0x11_0000
    ensures var bytes := Spell(ch) + rest;
            CharOk(bytes) && CharSize(bytes[0]).0 == 4 && CharValue(bytes, 4) == ch
  {
    Digits(ch);
    var bytes := Spell(ch) + rest;
    assert bytes[0] == 0xf0 + ch / 0x4_0000 && bytes[1] == Tail(ch / 0x1000);
    assert bytes[2] == Tail(ch / 64) && bytes[3] == Tail(ch);
    assert bytes[0] / 32 == 7 && bytes[0] / 16 == 15 && bytes[0] / 8 == 30 && bytes[0] % 8 == ch / 0x4_0000;
    assert bytes[1] % 64 == ch / 0x1000 % 64 && bytes[2] % 64 == ch / 64 % 64 && bytes[3] % 64 == ch % 64;
    hide Spell;
    assert CharValue(bytes, 4) == ch;
  }

  /** And what is accepted as a character is one that is spelled. */
  lemma ReadSpelled(bytes: seq<byte>)
    requires CharOk(bytes)
    ensures var size := CharSize(bytes[0]).0;
            bytes[..size] == Spell(CharValue(bytes, size))
  {
    hide Spell;
    var size := CharSize(bytes[0]).0;
    if size == 1 {
      OneSpelled(bytes);
    } else if size == 2 {
      TwoSpelled(bytes);
    } else if size == 3 {
      ThreeSpelled(bytes);
    } else {
      FourSpelled(bytes);
    }
  }

  lemma OneSpelled(bytes: seq<byte>)
    requires CharOk(bytes) && CharSize(bytes[0]).0 == 1
    ensures bytes[..1] == Spell(CharValue(bytes, 1))
  {
  }

  lemma TwoSpelled(bytes: seq<byte>)
    requires CharOk(bytes) && CharSize(bytes[0]).0 == 2
    ensures bytes[..2] == Spell(CharValue(bytes, 2))
  {
    assert Continuation(bytes[1]);
    Undigits(0, 0, bytes[0] % 32, bytes[1] % 64);
  }

  lemma ThreeSpelled(bytes: seq<byte>)
    requires CharOk(bytes) && CharSize(bytes[0]).0 == 3
    ensures bytes[..3] == Spell(CharValue(bytes, 3))
  {
    assert Continuation(bytes[1]) && Continuation(bytes[2]);
    var a, b, c := bytes[0] % 16, bytes[1] % 64, bytes[2] % 64;
    Undigits(0, a, b, c);
    assert bytes[0] == 0xe0 + a && bytes[1] == 0x80 + b && bytes[2] == 0x80 + c;
    var ch := CharValue(bytes, 3);
    hide CharOk, CharSize, CharValue, Continuation;
    assert Spell(ch) == [0xe0 + ch / 0x1000, Tail(ch / 64), Tail(ch)];
  }

  lemma FourSpelled(bytes: seq<byte>)
    requires CharOk(bytes) && CharSize(bytes[0]).0 == 4
    ensures bytes[..4] == Spell(CharValue(bytes, 4))
  {
    assert Continuation(bytes[1]) && Continuation(bytes[2]) && Continuation(bytes[3]);
    var a, b, c, d := bytes[0] % 8, bytes[1] % 64, bytes[2] % 64, bytes[3] % 64;
    Undigits(a, b, c, d);
    assert bytes[0] == 0xf0 + a && bytes[1] == 0x80 + b && bytes[2] == 0x80 + c && bytes[3] == 0x80 + d;
    var ch := CharValue(bytes, 4);
    hide CharOk, CharSize, CharValue, Continuation;
    assert Spell(ch) == [0xf0 + ch / 0x4_0000, Tail(ch / 0x1000), Tail(ch / 64), Tail(ch)];
  }

  lemma {:induction false} SpelledValid(text: seq<nat>)
    requires Scalars(text)
    ensures ValidText(SpellAll(text))
    decreases |text|
  {
    hide Spell, CharValue, CharOk, ValidText, Scalar;
    if text == [] {
      EmptyValid();
    } else {
      var rest := SpellAll(text[1..]);
      var bytes := Spell(text[0]) + rest;
      SpelledValid(text[1..]);
      SpellRead(text[0], rest);
      ValidStep(bytes);
      assert bytes[|Spell(text[0])|..] == rest;
    }
  }

  lemma EmptyValid()
    ensures ValidText([])
  {
  }

  lemma {:induction false} ValidSpelled(bytes: seq<byte>) returns (text: seq<nat>)
    requires ValidText(bytes)
    ensures Scalars(text) && SpellAll(text) == bytes
    decreases |bytes|
  {
    hide Spell, CharValue, ValidText;
    if bytes == [] {
      text := [];
    } else {
      ValidStep(bytes);
      var size := CharSize(bytes[0]).0;
      var rest := ValidSpelled(bytes[size..]);
      ReadSpelled(bytes);
      text := [CharValue(bytes, size)] + rest;
      assert text[1..] == rest && bytes[..size] + bytes[size..] == bytes;
    }
  }

  /** The texts accepted are exactly the spellings of strings of characters. */
  lemma ValidIsUtf8(bytes: seq<byte>)
    ensures ValidText(bytes) <==> exists text: seq<nat> :: Scalars(text) && SpellAll(text) == bytes
  {
    hide ValidText, Scalars, SpellAll;
    if ValidText(bytes) {
      var text := ValidSpelled(bytes);
    }
    forall text: seq<nat> | Scalars(text) && SpellAll(text) == bytes
      ensures ValidText(bytes)
    {
      SpelledValid(text);
    }
  }
}
