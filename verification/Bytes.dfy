// Bytes on the wire: little-endian 32-bit sizes and UTF-8.
module Bytes {
  import opened Outcomes

  type Byte = b: int | 0 <= b < 256

  const LIMIT := 0x1_0000_0000

  // struct.pack("<I", n)
  function U32(n: nat): (b: seq<Byte>)
    requires n < LIMIT
    ensures |b| == 4
  {
    [n % 256, n / 256 % 256, n / 65536 % 256, n / 16777216 % 256]
  }

  // struct.unpack("<I", b), which takes four bytes.
  function FromU32(b: seq<Byte>): (n: nat)
    requires |b| == 4
    ensures n < LIMIT
  {
    var w: int, x: int, y: int, z: int := b[0], b[1], b[2], b[3];
    w + 256 * x + 65536 * y + 16777216 * z
  }

  lemma SizeRoundTrip(n: nat)
    requires n < LIMIT
    ensures FromU32(U32(n)) == n
  {
    assert n / 65536 == n / 256 / 256;
    assert n / 16777216 == n / 65536 / 256;
  }

  // The least significant byte comes first.
  lemma SizeBytes(n: nat)
    requires n < LIMIT
    ensures U32(n)[0] == n % 256 && U32(n / 256) == U32(n)[1..] + [0]
  {
    assert n / 256 / 256 == n / 65536 && n / 256 / 65536 == n / 16777216;
    assert n / 256 / 16777216 == 0;
  }

  // Any four bytes are a size, and of one number only.
  lemma SizeOnto(b: seq<Byte>)
    requires |b| == 4
    ensures U32(FromU32(b)) == b
  {
    var n, x: int, y: int, z: int := FromU32(b), b[1], b[2], b[3];
    assert n / 256 == x + 256 * y + 65536 * z;
    assert n / 65536 == n / 256 / 256 && n / 256 / 256 == y + 256 * z;
    assert n / 16777216 == n / 65536 / 256;
  }

  lemma SmallSize(n: Byte)
    ensures U32(n) == [n, 0, 0, 0] && FromU32([n, 0, 0, 0]) == n
  {
  }

  // ----- UTF-8 -----

  function EncodeChar(c: char): (b: seq<Byte>)
    ensures 1 <= |b| <= 4
  {
    var n := c as int;
    if n < 0x80 then [n]
    else if n < 0x800 then [0xC0 + n / 64, 0x80 + n % 64]
    else if n < 0x10000 then [0xE0 + n / 4096, 0x80 + n / 64 % 64, 0x80 + n % 64]
    else [0xF0 + n / 262144, 0x80 + n / 4096 % 64, 0x80 + n / 64 % 64, 0x80 + n % 64]
  }

  predicate Continues(b: Byte) {
    0x80 <= b < 0xC0
  }

  // A code point, unless it is written too long, a surrogate or out of range.
  function Scalar(n: int, least: int): Option<char> {
    if n < least || 0xD800 <= n < 0xE000 || n >= 0x110000 || n < 0 then None else Some(n as char)
  }

  function Two(w: int, x: int): int {
    (w - 0xC0) * 64 + (x - 0x80)
  }

  function Three(w: int, x: int, y: int): int {
    (w - 0xE0) * 4096 + (x - 0x80) * 64 + (y - 0x80)
  }

  function Four(w: int, x: int, y: int, z: int): int {
    (w - 0xF0) * 262144 + (x - 0x80) * 4096 + (y - 0x80) * 64 + (z - 0x80)
  }

  // The first character and the number of its bytes.
  function DecodeChar(b: seq<Byte>): (r: Option<(char, nat)>)
    requires b != []
    ensures r.Some? ==> 1 <= r.value.1 <= |b|
  {
    if b[0] < 0x80 then
      Some((b[0] as char, 1))
    else if 0xC0 <= b[0] < 0xE0 && |b| >= 2 && Continues(b[1]) then
      Sized(Scalar(Two(b[0], b[1]), 0x80), 2)
    else if 0xE0 <= b[0] < 0xF0 && |b| >= 3 && Continues(b[1]) && Continues(b[2]) then
      Sized(Scalar(Three(b[0], b[1], b[2]), 0x800), 3)
    else if 0xF0 <= b[0] < 0xF8 && |b| >= 4 && Continues(b[1]) && Continues(b[2]) && Continues(b[3]) then
      Sized(Scalar(Four(b[0], b[1], b[2], b[3]), 0x10000), 4)
    else
      None
  }

  function Sized(c: Option<char>, size: nat): Option<(char, nat)> {
    if c.Some? then Some((c.value, size)) else None
  }

  // str.encode
  function Encode(s: string): seq<Byte> {
    if s == "" then [] else EncodeChar(s[0]) + Encode(s[1..])
  }

  // bytes.decode
  function Decode(b: seq<Byte>): Option<string>
    decreases |b|
  {
    if b == [] then Some("")
    else
      var first := DecodeChar(b);
      if first == None then None
      else
        var rest := Decode(b[first.value.1..]);
        if rest == None then None else Some([first.value.0] + rest.value)
  }

  lemma CharRoundTrip(c: char, rest: seq<Byte>)
    ensures DecodeChar(EncodeChar(c) + rest) == Some((c, |EncodeChar(c)|))
  {
    var n := c as int;
    var b := EncodeChar(c) + rest;
    assert n / 4096 == n / 64 / 64;
    assert n / 262144 == n / 4096 / 64;
    assert forall i :: 0 <= i < |EncodeChar(c)| ==> b[i] == EncodeChar(c)[i];
  }

  lemma {:induction false} TextRoundTrip(s: string)
    ensures Decode(Encode(s)) == Some(s)
    decreases |s|
  {
    if s != "" {
      CharRoundTrip(s[0], Encode(s[1..]));
      TextRoundTrip(s[1..]);
      assert (EncodeChar(s[0]) + Encode(s[1..]))[|EncodeChar(s[0])|..] == Encode(s[1..]);
      assert [s[0]] + s[1..] == s;
    }
  }

  lemma {:induction false} EncodeConcat(s: string, t: string)
    ensures Encode(s + t) == Encode(s) + Encode(t)
    decreases |s|
  {
    if s == "" {
      assert s + t == t;
    } else {
      assert (s + t)[1..] == s[1..] + t;
      EncodeConcat(s[1..], t);
    }
  }

  // One character of each length, as RFC 3629 has them.
  lemma CharExamples()
    ensures EncodeChar('A') == [0x41] && EncodeChar('\U{E9}') == [0xC3, 0xA9]
    ensures EncodeChar('\U{20AC}') == [0xE2, 0x82, 0xAC] && EncodeChar('\U{1F600}') == [0xF0, 0x9F, 0x98, 0x80]
  {
  }

  // The order of byte strings.
  predicate Below(a: seq<Byte>, b: seq<Byte>) {
    b != [] && (a == [] || a[0] < b[0] || (a[0] == b[0] && Below(a[1..], b[1..])))
  }

  lemma Digits(m: nat, n: nat)
    requires m < n
    ensures m / 64 < n / 64 || (m / 64 == n / 64 && m % 64 < n % 64)
  {
  }

  // A longer encoding starts with a greater byte.
  lemma LengthOrder(c: char, d: char)
    requires c < d
    ensures |EncodeChar(c)| <= |EncodeChar(d)|
    ensures |EncodeChar(c)| < |EncodeChar(d)| ==> EncodeChar(c)[0] < EncodeChar(d)[0]
  {
  }

  lemma TwoOrder(c: char, d: char)
    requires c < d && |EncodeChar(c)| == |EncodeChar(d)| == 2
    ensures Below(EncodeChar(c), EncodeChar(d))
  {
    Digits(c as int, d as int);
    BelowUpTo(EncodeChar(c), EncodeChar(d));
  }

  lemma ThreeOrder(c: char, d: char)
    requires c < d && |EncodeChar(c)| == |EncodeChar(d)| == 3
    ensures Below(EncodeChar(c), EncodeChar(d))
  {
    var m: nat, n: nat := c as int, d as int;
    assert m / 4096 == m / 64 / 64 && n / 4096 == n / 64 / 64;
    Digits(m, n);
    if m / 64 < n / 64 {
      Digits(m / 64, n / 64);
    }
    BelowUpTo(EncodeChar(c), EncodeChar(d));
  }

  lemma FourOrder(c: char, d: char)
    requires c < d && |EncodeChar(c)| == |EncodeChar(d)| == 4
    ensures Below(EncodeChar(c), EncodeChar(d))
  {
    var m: nat, n: nat := c as int, d as int;
    assert m / 4096 == m / 64 / 64 && n / 4096 == n / 64 / 64;
    assert m / 262144 == m / 4096 / 64 && n / 262144 == n / 4096 / 64;
    Digits(m, n);
    if m / 64 < n / 64 {
      Digits(m / 64, n / 64);
      if m / 4096 < n / 4096 {
        Digits(m / 4096, n / 4096);
      }
    }
    BelowUpTo(EncodeChar(c), EncodeChar(d));
  }

  // Characters are ordered as their bytes are: the most significant bits come first.
  lemma CharOrder(c: char, d: char)
    requires c < d
    ensures Below(EncodeChar(c), EncodeChar(d))
  {
    LengthOrder(c, d);
    if |EncodeChar(c)| == |EncodeChar(d)| == 2 {
      TwoOrder(c, d);
    } else if |EncodeChar(c)| == |EncodeChar(d)| == 3 {
      ThreeOrder(c, d);
    } else if |EncodeChar(c)| == |EncodeChar(d)| == 4 {
      FourOrder(c, d);
    }
  }

  lemma BelowUpTo(a: seq<Byte>, b: seq<Byte>)
    requires 1 <= |a| <= 4 && 1 <= |b| <= 4
    requires
      || a[0] < b[0]
      || (a[0] == b[0] && |a| > 1 && |b| > 1 &&
            (a[1] < b[1] || (a[1] == b[1] && |a| > 2 && |b| > 2 &&
               (a[2] < b[2] || (a[2] == b[2] && |a| > 3 && |b| > 3 && a[3] < b[3])))))
    ensures Below(a, b)
  {
    if a[0] == b[0] {
      assert a[1..][0] == a[1] && b[1..][0] == b[1];
      if a[1] == b[1] {
        assert a[1..][1..][0] == a[2] && b[1..][1..][0] == b[2];
        if a[2] == b[2] {
          assert a[1..][1..][1..][0] == a[3] && b[1..][1..][1..][0] == b[3];
          assert Below(a[1..][1..][1..], b[1..][1..][1..]);
        }
        assert Below(a[1..][1..], b[1..][1..]);
      }
      assert Below(a[1..], b[1..]);
    }
  }

  // Only the encoding of a text decodes to it.
  lemma TwoExact(w: int, x: int)
    requires 0x80 <= x < 0xC0
    ensures 0xC0 + Two(w, x) / 64 == w && 0x80 + Two(w, x) % 64 == x
  {
  }

  lemma ThreeExact(w: int, x: int, y: int)
    requires 0x80 <= x < 0xC0 && 0x80 <= y < 0xC0
    ensures 0xE0 + Three(w, x, y) / 4096 == w && 0x80 + Three(w, x, y) / 64 % 64 == x && 0x80 + Three(w, x, y) % 64 == y
  {
    assert Three(w, x, y) / 64 == (w - 0xE0) * 64 + (x - 0x80);
  }

  lemma Digit(q: int, r: int)
    requires 0 <= r < 64
    ensures (q * 64 + r) / 64 == q && (q * 64 + r) % 64 == r
  {
  }

  lemma FourExact(w: int, x: int, y: int, z: int)
    requires 0x80 <= x < 0xC0 && 0x80 <= y < 0xC0 && 0x80 <= z < 0xC0
    ensures 0xF0 + Four(w, x, y, z) / 262144 == w && 0x80 + Four(w, x, y, z) / 4096 % 64 == x
    ensures 0x80 + Four(w, x, y, z) / 64 % 64 == y && 0x80 + Four(w, x, y, z) % 64 == z
  {
    var n, a := Four(w, x, y, z), w - 0xF0;
    var b := a * 64 + (x - 0x80);
    var c := b * 64 + (y - 0x80);
    assert n == c * 64 + (z - 0x80);
    Digit(a, x - 0x80);
    Digit(b, y - 0x80);
    Digit(c, z - 0x80);
    assert n / 4096 == n / 64 / 64;
    assert n / 262144 == n / 4096 / 64;
  }

  lemma CharExact(b: seq<Byte>)
    requires b != [] && DecodeChar(b).Some?
    ensures b[..DecodeChar(b).value.1] == EncodeChar(DecodeChar(b).value.0)
  {
    hide Two, Three, Four;
    var k := DecodeChar(b).value.1;
    if k == 2 {
      TwoExact(b[0], b[1]);
    } else if k == 3 {
      ThreeExact(b[0], b[1], b[2]);
    } else if k == 4 {
      FourExact(b[0], b[1], b[2], b[3]);
    }
  }

  lemma EncodeDecoded(b: seq<Byte>)
    requires b != [] && Decode(b).Some?
    ensures DecodeChar(b).Some? && Decode(b[DecodeChar(b).value.1..]).Some?
    ensures Encode(Decode(b).value) ==
            EncodeChar(DecodeChar(b).value.0) + Encode(Decode(b[DecodeChar(b).value.1..]).value)
  {
    hide DecodeChar, EncodeChar;
    assert Decode(b).value[1..] == Decode(b[DecodeChar(b).value.1..]).value;
  }

  lemma {:induction false} TextExact(b: seq<Byte>)
    requires Decode(b).Some?
    ensures Encode(Decode(b).value) == b
    decreases |b|
  {
    hide DecodeChar, EncodeChar;
    if b != [] {
      var k := DecodeChar(b).value.1;
      CharExact(b);
      TextExact(b[k..]);
      EncodeDecoded(b);
      assert b == b[..k] + b[k..];
    }
  }
}
