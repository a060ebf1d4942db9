/** UTF-8: strict and lossy decoding of byte strings, as `str::from_utf8` and `String::from_utf8_lossy` do. */
module Utf8 {
  import opened Wrappers

  newtype byte = x: int | 0 <= x < 256

  /** The encoding of one scalar value. */
  function EncodeChar(c: char): (r: seq<byte>)
    ensures 1 <= |r| <= 4
  {
    var n := c as int;
    if n < 0x80 then [n as byte]
    else if n < 0x800 then [(0xC0 + n / 64) as byte, (0x80 + n % 64) as byte]
    else if n < 0x1_0000 then
      [(0xE0 + n / 4096) as byte, (0x80 + n / 64 % 64) as byte, (0x80 + n % 64) as byte]
    else
      [(0xF0 + n / 0x4_0000) as byte, (0x80 + n / 4096 % 64) as byte,
       (0x80 + n / 64 % 64) as byte, (0x80 + n % 64) as byte]
  }

  function Encode(s: string): seq<byte> {
    if s == "" then [] else EncodeChar(s[0]) + Encode(s[1..])
  }

  /** How many bytes a sequence with this first byte has, 0 when no sequence starts with it. */
  function Width(lead: byte): int {
    if lead < 0x80 then 1
    else if 0xC2 <= lead <= 0xDF then 2
    else if 0xE0 <= lead <= 0xEF then 3
    else if 0xF0 <= lead <= 0xF4 then 4
    else 0
  }

  /** The second byte excludes overlong forms, surrogates and values above U+10FFFF. */
  predicate SecondOk(lead: byte, second: byte) {
    if lead == 0xE0 then 0xA0 <= second <= 0xBF
    else if lead == 0xED then 0x80 <= second <= 0x9F
    else if lead == 0xF0 then 0x90 <= second <= 0xBF
    else if lead == 0xF4 then 0x80 <= second <= 0x8F
    else Continues(second)
  }

  predicate Continues(b: byte) {
    0x80 <= b <= 0xBF
  }

  /** The first character and its width, or how many bytes the malformed start has. */
  function Front(s: seq<byte>): (r: (Option<char>, nat))
    requires s != []
    ensures 1 <= r.1 <= |s|
  {
    var width := Width(s[0]);
    if width == 0 then (None, 1)
    else if width == 1 then (Some(s[0] as int as char), 1)
    else if |s| < 2 || !SecondOk(s[0], s[1]) then (None, 1)
    else if width == 2 then (Some(((s[0] as int - 0xC0) * 64 + (s[1] as int - 0x80)) as char), 2)
    else if |s| < 3 || !Continues(s[2]) then (None, 2)
    else if width == 3 then
      (Some(((s[0] as int - 0xE0) * 4096 + (s[1] as int - 0x80) * 64 + (s[2] as int - 0x80)) as char), 3)
    else if |s| < 4 || !Continues(s[3]) then (None, 3)
    else
      (Some(((s[0] as int - 0xF0) * 0x4_0000 + (s[1] as int - 0x80) * 4096
             + (s[2] as int - 0x80) * 64 + (s[3] as int - 0x80)) as char), 4)
  }

  const REPLACEMENT: char := '\U{FFFD}'

  function Lossy(s: seq<byte>): string {
    if s == [] then ""
    else
      var (c, n) := Front(s);
      [if c.Some? then c.value else REPLACEMENT] + Lossy(s[n..])
  }

  function Strict(s: seq<byte>): Option<string> {
    if s == [] then Some("")
    else
      var (c, n) := Front(s);
      if c.None? then None
      else
        var rest := Strict(s[n..]);
        if rest.None? then None else Some([c.value] + rest.value)
  }

  lemma {:induction false} DivideTwice(n: nat)
    ensures n / 64 / 64 == n / 4096
  {
    var a, b := n / 64, n / 64 / 64;
    assert a == b * 64 + a % 64 && n == a * 64 + n % 64;
    assert 0 <= n - b * 4096 < 4096;
  }

  /** The digits of n in base 64 below its leading part. */
  lemma {:induction false} Digits(n: nat)
    ensures n == n / 64 * 64 + n % 64
    ensures n == n / 4096 * 4096 + n / 64 % 64 * 64 + n % 64
    ensures n == n / 0x4_0000 * 0x4_0000 + n / 4096 % 64 * 4096 + n / 64 % 64 * 64 + n % 64
  {
    DivideTwice(n);
    DivideTwice(n / 64);
    assert n / 64 == n / 4096 * 64 + n / 64 % 64;
    assert n / 4096 == n / 4096 / 64 * 64 + n / 4096 % 64;
    var a, b := n / 4096, n / 4096 / 64;
    assert 0 <= n - b * 0x4_0000 < 0x4_0000;
    assert n / 0x4_0000 == b;
  }

  lemma {:induction false} FromDigits(a: nat, b: nat, c: nat, d: nat)
    requires b < 64 && c < 64 && d < 64
    ensures var n := a * 0x4_0000 + b * 4096 + c * 64 + d;
            n % 64 == d && n / 64 % 64 == c && n / 4096 % 64 == b && n / 0x4_0000 == a
  {
    var n := a * 0x4_0000 + b * 4096 + c * 64 + d;
    assert n / 64 == a * 4096 + b * 64 + c;
    assert n / 4096 == a * 64 + b;
  }

  lemma {:induction false} FrontOfEncoded(c: char, rest: seq<byte>)
    ensures Front(EncodeChar(c) + rest) == (Some(c), |EncodeChar(c)|)
  {
    var n := c as int;
    Digits(n);
    if n < 0x80 {
    } else if n < 0x800 {
      assert 2 <= n / 64 < 32;
    } else if n < 0x1_0000 {
      FrontOfThree(c, rest);
    } else {
      FrontOfFour(c, rest);
    }
  }

  lemma {:induction false} FrontOfThree(c: char, rest: seq<byte>)
    requires 0x800 <= c as int < 0x1_0000
    ensures Front(EncodeChar(c) + rest) == (Some(c), 3)
  {
    var n := c as int;
    Digits(n);
    var b0, b1, b2 := (0xE0 + n / 4096) as byte, (0x80 + n / 64 % 64) as byte, (0x80 + n % 64) as byte;
    assert EncodeChar(c) == [b0, b1, b2];
    assert SecondOk(b0, b1) && Continues(b2) && Width(b0) == 3;
    assert EncodeChar(c) + rest == [b0, b1, b2] + rest;
  }

  lemma {:induction false} FrontOfFour(c: char, rest: seq<byte>)
    requires 0x1_0000 <= c as int
    ensures Front(EncodeChar(c) + rest) == (Some(c), 4)
  {
    var n := c as int;
    Digits(n);
    var b0, b1 := (0xF0 + n / 0x4_0000) as byte, (0x80 + n / 4096 % 64) as byte;
    var b2, b3 := (0x80 + n / 64 % 64) as byte, (0x80 + n % 64) as byte;
    assert EncodeChar(c) == [b0, b1, b2, b3];
    assert SecondOk(b0, b1) && Continues(b2) && Continues(b3) && Width(b0) == 4;
    assert EncodeChar(c) + rest == [b0, b1, b2, b3] + rest;
  }

  /** Encoded text decodes to itself, strictly and lossily. */
  lemma {:induction false} RoundTrip(s: string)
    ensures Strict(Encode(s)) == Some(s) && Lossy(Encode(s)) == s
    decreases |s|
  {
    if s != "" {
      var rest := Encode(s[1..]);
      FrontOfEncoded(s[0], rest);
      assert Encode(s)[|EncodeChar(s[0])|..] == rest;
      RoundTrip(s[1..]);
      assert s == [s[0]] + s[1..];
    }
  }

  lemma {:induction false} EncodeInjective(a: string, b: string)
    requires Encode(a) == Encode(b)
    ensures a == b
  {
    RoundTrip(a);
    RoundTrip(b);
  }

  lemma {:induction false} StrictFirst(s: seq<byte>)
    requires s != [] && Strict(s).Some?
    ensures Front(s).0.Some? && Strict(s[Front(s).1..]).Some?
    ensures Strict(s).value == [Front(s).0.value] + Strict(s[Front(s).1..]).value
    ensures Lossy(s) == [Front(s).0.value] + Lossy(s[Front(s).1..])
  {
  }

  lemma {:induction false} EncodeFirst(c: char, rest: string)
    ensures Encode([c] + rest) == EncodeChar(c) + Encode(rest)
  {
    assert ([c] + rest)[1..] == rest;
  }

  lemma {:induction false} Rejoin(s: seq<byte>, n: nat)
    requires n <= |s|
    ensures s[..n] + s[n..] == s
  {
  }

  /** Strictly decodable bytes are the encoding of what they decode to, and lossy decoding agrees there. */
  lemma {:induction false} StrictIsEncoded(s: seq<byte>)
    requires Strict(s).Some?
    ensures Encode(Strict(s).value) == s && Lossy(s) == Strict(s).value
    decreases |s|
  {
    if s != [] {
      var n := Front(s).1;
      StrictFirst(s);
      StrictIsEncoded(s[n..]);
      FrontIsEncoded(s);
      EncodeFirst(Front(s).0.value, Strict(s[n..]).value);
      Rejoin(s, n);
    }
  }

  lemma {:induction false} FrontIsEncoded(s: seq<byte>)
    requires s != [] && Front(s).0.Some?
    ensures EncodeChar(Front(s).0.value) == s[..Front(s).1]
  {
    var width := Front(s).1;
    assert Width(s[0]) == width;
    if width == 2 {
      FromDigits(0, 0, s[0] as int - 0xC0, s[1] as int - 0x80);
    } else if width == 3 {
      ThreeIsEncoded(s);
    } else if width == 4 {
      FourIsEncoded(s);
    }
  }

  lemma {:induction false} ThreeIsEncoded(s: seq<byte>)
    requires s != [] && Front(s).0.Some? && Front(s).1 == 3
    ensures EncodeChar(Front(s).0.value) == s[..3]
  {
    var a, b, c := s[0] as int - 0xE0, s[1] as int - 0x80, s[2] as int - 0x80;
    FromDigits(0, a, b, c);
    assert s[..3] == [s[0], s[1], s[2]];
    assert Front(s).0.value as int == a * 4096 + b * 64 + c;
  }

  lemma {:induction false} FourIsEncoded(s: seq<byte>)
    requires s != [] && Front(s).0.Some? && Front(s).1 == 4
    ensures EncodeChar(Front(s).0.value) == s[..4]
  {
    var a, b, c, d := s[0] as int - 0xF0, s[1] as int - 0x80, s[2] as int - 0x80, s[3] as int - 0x80;
    FromDigits(a, b, c, d);
    assert s[..4] == [s[0], s[1], s[2], s[3]];
    assert Front(s).0.value as int == a * 0x4_0000 + b * 4096 + c * 64 + d;
  }

  // ---------------------------------------------------------------- malformed bytes

  /** The bytes begin the encoding of some character. */
  ghost predicate Begins(s: seq<byte>) {
    exists c: char :: s <= EncodeChar(c)
  }

  lemma {:induction false} WellFormedIsEncoded(s: seq<byte>)
    requires s != []
    ensures Front(s).0.Some? ==> EncodeChar(Front(s).0.value) <= s
  {
    if Front(s).0.Some? {
      FrontIsEncoded(s);
    }
  }

  /** The malformed start ends before the first byte that no character has there. */
  lemma {:induction false} LongerBeginsNothing(s: seq<byte>, m: nat, c: char)
    requires s != [] && Front(s).0.None? && Front(s).1 < m <= |s|
    ensures !(s[..m] <= EncodeChar(c))
  {
    if s[..m] <= EncodeChar(c) {
      var t := EncodeChar(c);
      assert t + [] == t;
      FrontOfEncoded(c, []);
      assert forall i :: 0 <= i < m ==> t[i] == s[..m][i] == s[i];
    }
  }

  lemma {:induction false} StartBegins(s: seq<byte>)
    requires s != [] && Front(s).0.None? && Front(s).1 > 1
    ensures Begins(s[..Front(s).1])
  {
    var n := Front(s).1;
    var whole := s[..n] + if n == 2 && Width(s[0]) == 4 then [0x80, 0x80] else [0x80];
    assert forall i :: 0 <= i < n ==> whole[i] == s[i];
    assert Front(whole).0.Some? && Front(whole).1 == |whole|;
    FrontIsEncoded(whole);
    assert whole[..|whole|] == whole;
    assert s[..n] <= EncodeChar(Front(whole).0.value);
  }

  /**
   * Lossy decoding keeps encoded text before and after what is malformed, and puts one replacement character for each
   * malformed start: the longest stretch that begins a character, or one byte where nothing begins.
   */
  lemma {:induction false} LossyReplaces(text: string, s: seq<byte>)
    requires s != [] && forall c: char :: !(EncodeChar(c) <= s)
    ensures var n := Front(s).1;
            && Lossy(Encode(text) + s) == text + [REPLACEMENT] + Lossy(s[n..])
            && Strict(Encode(text) + s) == None
            && (n > 1 ==> Begins(s[..n]))
            && forall m :: n < m <= |s| ==> !Begins(s[..m])
    decreases |text|
  {
    WellFormedIsEncoded(s);
    NotStrictAfter(text, s);
    AfterText(text, s);
    MalformedStart(s);
  }

  lemma {:induction false} MalformedStart(s: seq<byte>)
    requires s != [] && Front(s).0.None?
    ensures Lossy(s) == [REPLACEMENT] + Lossy(s[Front(s).1..])
    ensures Front(s).1 > 1 ==> Begins(s[..Front(s).1])
    ensures forall m :: Front(s).1 < m <= |s| ==> !Begins(s[..m])
  {
    if Front(s).1 > 1 {
      StartBegins(s);
    }
    forall m | Front(s).1 < m <= |s|
      ensures !Begins(s[..m])
    {
      forall c: char
        ensures !(s[..m] <= EncodeChar(c))
      {
        LongerBeginsNothing(s, m, c);
      }
    }
  }

  /** Encoded text in front is decoded first. */
  lemma {:induction false} AfterText(text: string, s: seq<byte>)
    ensures Lossy(Encode(text) + s) == text + Lossy(s)
    decreases |text|
  {
    if text == "" {
      assert Encode(text) + s == s;
    } else {
      AfterFirst(text, s);
      AfterText(text[1..], s);
      FirstAndRest(text, Lossy(s));
    }
  }

  lemma {:induction false} FirstAndRest(text: string, more: string)
    requires text != ""
    ensures text + more == [text[0]] + (text[1..] + more)
  {
  }

  lemma {:induction false} AfterFirst(text: string, s: seq<byte>)
    requires text != ""
    ensures Lossy(Encode(text) + s) == [text[0]] + Lossy(Encode(text[1..]) + s)
    ensures Strict(Encode(text[1..]) + s).None? ==> Strict(Encode(text) + s).None?
  {
    var rest := Encode(text[1..]) + s;
    assert Encode(text) + s == EncodeChar(text[0]) + rest;
    AfterChar(text[0], rest);
  }

  lemma {:induction false} AfterChar(c: char, rest: seq<byte>)
    ensures Lossy(EncodeChar(c) + rest) == [c] + Lossy(rest)
    ensures Strict(rest).None? ==> Strict(EncodeChar(c) + rest).None?
  {
    FrontOfEncoded(c, rest);
    assert (EncodeChar(c) + rest)[|EncodeChar(c)|..] == rest;
  }

  lemma {:induction false} NotStrictAfter(text: string, s: seq<byte>)
    requires Strict(s).None?
    ensures Strict(Encode(text) + s).None?
    decreases |text|
  {
    if text == "" {
      assert Encode(text) + s == s;
    } else {
      NotStrictAfter(text[1..], s);
      AfterFirst(text, s);
    }
  }
}
