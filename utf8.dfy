/** `str.encode('utf-8')` and the strict `bytes.decode('utf-8')`, which the
    configuration encryption applies on both sides of the cipher. */
module Utf8 {
  import opened Py

  newtype byte = x: int | 0 <= x < 256

  /** A continuation byte `10xxxxxx`. */
  predicate Cont(b: byte) { 0x80 <= b < 0xC0 }

  /** The shortest UTF-8 form of one scalar value. */
  function EncodeChar(c: char): (r: seq<byte>)
    ensures 1 <= |r| <= 4
    ensures |r| == 1 <==> (c as int) < 0x80
    ensures |r| == 1 ==> r[0] as int == c as int
    ensures forall i :: 1 <= i < |r| ==> Cont(r[i])
  {
    var n := c as int;
    if n < 0x80 then [n as byte]
    else if n < 0x800 then [(0xC0 + n / 64) as byte, (0x80 + n % 64) as byte]
    else if n < 0x10000 then
      [(0xE0 + n / 4096) as byte, (0x80 + n / 64 % 64) as byte, (0x80 + n % 64) as byte]
    else
      [(0xF0 + n / 262144) as byte, (0x80 + n / 4096 % 64) as byte,
       (0x80 + n / 64 % 64) as byte, (0x80 + n % 64) as byte]
  }

  /** `s.encode('utf-8')`. */
  function Encode(s: string): (r: seq<byte>)
    ensures |r| >= |s|
    ensures r == [] <==> s == []
  {
    if s == [] then [] else EncodeChar(s[0]) + Encode(s[1..])
  }

  /** The first character of a strict decode and the number of bytes it
      takes; `None` for a malformed, overlong, surrogate or out-of-range
      sequence, exactly the inputs the strict decoder refuses. */
  function DecodeFirst(b: seq<byte>): (r: Option<(char, nat)>)
    requires |b| > 0
    ensures r.Some? ==> 1 <= r.value.1 <= |b| && r.value.1 <= 4
    ensures r.Some? && r.value.1 == 1 <==> b[0] < 0x80
  {
    var b0 := b[0] as int;
    if b0 < 0x80 then Some((b0 as char, 1))
    else if 0xC0 <= b0 < 0xE0 then
      if |b| >= 2 && Cont(b[1]) then
        var v := (b0 - 0xC0) * 64 + (b[1] as int - 0x80);
        if v >= 0x80 then Some((v as char, 2)) else None
      else None
    else if 0xE0 <= b0 < 0xF0 then
      if |b| >= 3 && Cont(b[1]) && Cont(b[2]) then
        var v := (b0 - 0xE0) * 4096 + (b[1] as int - 0x80) * 64 + (b[2] as int - 0x80);
        if v >= 0x800 && !(0xD800 <= v < 0xE000) then Some((v as char, 3)) else None
      else None
    else if 0xF0 <= b0 < 0xF8 then
      if |b| >= 4 && Cont(b[1]) && Cont(b[2]) && Cont(b[3]) then
        var v := (b0 - 0xF0) * 262144 + (b[1] as int - 0x80) * 4096
                 + (b[2] as int - 0x80) * 64 + (b[3] as int - 0x80);
        if 0x10000 <= v < 0x110000 then Some((v as char, 4)) else None
      else None
    else None
  }

  /** `b.decode('utf-8')`; `None` where Python raises `UnicodeDecodeError`. */
  function Decode(b: seq<byte>): Option<string>
    decreases |b|
  {
    if b == [] then Some([])
    else match DecodeFirst(b)
      case None => None
      case Some((c, k)) =>
        match Decode(b[k..])
        case None => None
        case Some(rest) => Some([c] + rest)
  }

  /** Encoding is concatenation of the characters' encodings. */
  lemma {:induction false} EncodeAppend(s: string, t: string)
    ensures Encode(s + t) == Encode(s) + Encode(t)
    decreases |s|
  {
    if s == [] {
      assert s + t == t;
    } else {
      assert (s + t)[0] == s[0];
      assert (s + t)[1..] == s[1..] + t;
      EncodeAppend(s[1..], t);
      assert Encode(s + t) == EncodeChar(s[0]) + (Encode(s[1..]) + Encode(t));
    }
  }

  /** A value splits into its base-64 digits. */
  lemma Digits64(n: nat)
    ensures n / 4096 == n / 64 / 64 && n / 262144 == n / 4096 / 64
    ensures n == (n / 64) * 64 + n % 64
    ensures n / 64 == (n / 4096) * 64 + n / 64 % 64
    ensures n / 4096 == (n / 262144) * 64 + n / 4096 % 64
  {
  }

  /** Each encoded character is read back whole, whatever follows it. */
  lemma DecodeFirstEncodeChar(c: char, t: seq<byte>)
    ensures DecodeFirst(EncodeChar(c) + t) == Some((c, |EncodeChar(c)|))
  {
    var n := c as int;
    var b := EncodeChar(c) + t;
    Digits64(n);
    if n < 0x80 {
    } else if n < 0x800 {
      assert b[0] as int == 0xC0 + n / 64 && b[1] as int == 0x80 + n % 64;
    } else if n < 0x10000 {
      assert b[0] as int == 0xE0 + n / 4096;
      assert b[1] as int == 0x80 + n / 64 % 64 && b[2] as int == 0x80 + n % 64;
    } else {
      assert b[0] as int == 0xF0 + n / 262144;
      assert b[1] as int == 0x80 + n / 4096 % 64;
      assert b[2] as int == 0x80 + n / 64 % 64 && b[3] as int == 0x80 + n % 64;
    }
  }

  /** Decoding an encoded string followed by any bytes decodes those bytes
      after it: the encoded prefix never fails and never swallows what
      follows. */
  lemma {:induction false} DecodeAppend(s: string, t: seq<byte>)
    ensures Decode(Encode(s) + t) == match Decode(t)
      case None => None
      case Some(u) => Some(s + u)
    decreases |s|
  {
    if s == [] {
      assert Encode(s) + t == t;
      if Decode(t).Some? {
        assert s + Decode(t).value == Decode(t).value;
      }
    } else {
      var e := EncodeChar(s[0]);
      assert Encode(s) + t == e + (Encode(s[1..]) + t);
      DecodeFirstEncodeChar(s[0], Encode(s[1..]) + t);
      assert (e + (Encode(s[1..]) + t))[|e|..] == Encode(s[1..]) + t;
      DecodeAppend(s[1..], t);
      assert Decode(Encode(s) + t) == match Decode(Encode(s[1..]) + t)
        case None => None
        case Some(rest) => Some([s[0]] + rest);
      if Decode(t).Some? {
        assert [s[0]] + (s[1..] + Decode(t).value) == s + Decode(t).value;
      }
    }
  }

  /** `s.encode('utf-8').decode('utf-8') == s`. */
  lemma DecodeEncode(s: string)
    ensures Decode(Encode(s)) == Some(s)
  {
    DecodeAppend(s, []);
    assert Encode(s) + [] == Encode(s);
    assert s + [] == s;
  }

  /** `n` copies of `x`, as `b'x' * n` or `'x' * n`. */
  function Repeat<T>(x: T, n: nat): (r: seq<T>)
    ensures |r| == n && forall i :: 0 <= i < n ==> r[i] == x
  {
    if n == 0 then [] else [x] + Repeat(x, n - 1)
  }

  /** An ASCII character repeated encodes to its byte repeated. */
  lemma {:induction false} EncodeRepeat(c: char, n: nat)
    requires (c as int) < 0x80
    ensures Encode(Repeat(c, n)) == Repeat(c as int as byte, n)
    decreases n
  {
    if n > 0 {
      assert Repeat(c, n)[1..] == Repeat(c, n - 1);
      EncodeRepeat(c, n - 1);
    }
  }
}
