/** The standard base64 encoding, section 4 of RFC 4648, on byte strings. */
module Base64 {
  import opened Prelude

  const PAD: Byte := 61

  function Symbol(v: int): Byte
    requires 0 <= v < 64
  {
    if v < 26 then 65 + v
    else if v < 52 then 97 + (v - 26)
    else if v < 62 then 48 + (v - 52)
    else if v == 62 then 43
    else 47
  }

  function SymbolValue(b: Byte): (r: Option<int>)
    ensures r.Some? ==> 0 <= r.value < 64
  {
    if 65 <= b < 91 then Some(b - 65)
    else if 97 <= b < 123 then Some(b - 97 + 26)
    else if 48 <= b < 58 then Some(b - 48 + 52)
    else if b == 43 then Some(62)
    else if b == 47 then Some(63)
    else None
  }

  lemma SymbolRoundTrip(v: int)
    requires 0 <= v < 64
    ensures SymbolValue(Symbol(v)) == Some(v)
    ensures Symbol(v) != PAD
  {
  }

  function Encode(bs: Bytes): Bytes {
    if bs == [] then []
    else if |bs| == 1 then
      [Symbol(bs[0] / 4), Symbol(bs[0] % 4 * 16), PAD, PAD]
    else if |bs| == 2 then
      [Symbol(bs[0] / 4), Symbol(bs[0] % 4 * 16 + bs[1] / 16), Symbol(bs[1] % 16 * 4), PAD]
    else
      [Symbol(bs[0] / 4), Symbol(bs[0] % 4 * 16 + bs[1] / 16), Symbol(bs[1] % 16 * 4 + bs[2] / 64), Symbol(bs[2] % 64)]
      + Encode(bs[3..])
  }

  /** Four sextets as three bytes. */
  function Joined(x: int, y: int, z: int, w: int): Bytes
    requires 0 <= x < 64 && 0 <= y < 64 && 0 <= z < 64 && 0 <= w < 64
  {
    [x * 4 + y / 16, y % 16 * 16 + z / 4, z % 4 * 64 + w]
  }

  /** Decoding fails on a length that is not a multiple of four, on a foreign symbol
      and on padding anywhere but at the end. */
  function Decode(s: Bytes): Option<Bytes> {
    if s == [] then Some([])
    else if |s| < 4 then None
    else
      var a, b := SymbolValue(s[0]), SymbolValue(s[1]);
      if a.None? || b.None? then None
      else if |s| == 4 && s[3] == PAD then
        if s[2] == PAD then Some([a.value * 4 + b.value / 16])
        else
          var c := SymbolValue(s[2]);
          if c.None? then None
          else Some([a.value * 4 + b.value / 16, b.value % 16 * 16 + c.value / 4])
      else
        var c, d := SymbolValue(s[2]), SymbolValue(s[3]);
        if c.None? || d.None? then None
        else
          match Decode(s[4..])
          case None => None
          case Some(rest) =>
            Some(Joined(a.value, b.value, c.value, d.value) + rest)
  }

  /** Three bytes, or fewer with zeros, cut into four sextets and put together again. */
  lemma Sextets(a: int, b: int, c: int)
    requires 0 <= a < 256 && 0 <= b < 256 && 0 <= c < 256
    ensures var x, y, z, w := a / 4, a % 4 * 16 + b / 16, b % 16 * 4 + c / 64, c % 64;
      && 0 <= x < 64 && 0 <= y < 64 && 0 <= z < 64 && 0 <= w < 64
      && x * 4 + y / 16 == a && y % 16 * 16 + z / 4 == b && z % 4 * 64 + w == c
  {
    SextetPair(a % 4, b / 16);
    SextetPair(b % 16, c / 64);
    assert a == 4 * (a / 4) + a % 4 && b == 16 * (b / 16) + b % 16 && c == 64 * (c / 64) + c % 64;
    assert (b % 16 * 4 + c / 64) / 4 == b % 16 && (b % 16 * 4 + c / 64) % 4 == c / 64;
  }

  lemma SextetPair(high: int, low: int)
    ensures 0 <= low < 16 ==> (high * 16 + low) / 16 == high && (high * 16 + low) % 16 == low
  {
  }

  lemma OneByte(a: Byte)
    ensures Decode(Encode([a])) == Some([a])
  {
    Sextets(a, 0, 0);
    SymbolRoundTrip(a / 4);
    SymbolRoundTrip(a % 4 * 16);
    hide Symbol, SymbolValue;
    assert Encode([a]) == [Symbol(a / 4), Symbol(a % 4 * 16), PAD, PAD];
  }

  lemma TwoBytes(a: Byte, b: Byte)
    ensures Decode(Encode([a, b])) == Some([a, b])
  {
    var x, y, z := a / 4, a % 4 * 16 + b / 16, b % 16 * 4;
    Sextets(a, b, 0);
    SymbolRoundTrip(x);
    SymbolRoundTrip(y);
    SymbolRoundTrip(z);
    hide Symbol, SymbolValue;
    assert Encode([a, b]) == [Symbol(x), Symbol(y), Symbol(z), PAD];
  }

  lemma DecodeFour(x: int, y: int, z: int, w: int, tail: Bytes)
    requires 0 <= x < 64 && 0 <= y < 64 && 0 <= z < 64 && 0 <= w < 64
    requires Decode(tail).Some?
    ensures Decode([Symbol(x), Symbol(y), Symbol(z), Symbol(w)] + tail) == Some(Joined(x, y, z, w) + Decode(tail).value)
  {
    SymbolRoundTrip(x);
    SymbolRoundTrip(y);
    SymbolRoundTrip(z);
    SymbolRoundTrip(w);
    hide Symbol, SymbolValue, Joined;
    var s := [Symbol(x), Symbol(y), Symbol(z), Symbol(w)] + tail;
    assert s[0] == Symbol(x) && s[1] == Symbol(y) && s[2] == Symbol(z) && s[3] == Symbol(w);
    assert s[4..] == tail;
  }

  lemma ThreeBytes(a: Byte, b: Byte, c: Byte, rest: Bytes)
    requires Decode(Encode(rest)) == Some(rest)
    ensures Decode(Encode([a, b, c] + rest)) == Some([a, b, c] + rest)
  {
    var x, y, z, w := a / 4, a % 4 * 16 + b / 16, b % 16 * 4 + c / 64, c % 64;
    Sextets(a, b, c);
    assert Joined(x, y, z, w) == [a, b, c];
    hide Symbol, Decode, Joined, Encode;
    EncodeThree(a, b, c, rest);
    DecodeFour(x, y, z, w, Encode(rest));
  }

  lemma EncodeThree(a: Byte, b: Byte, c: Byte, rest: Bytes)
    ensures Encode([a, b, c] + rest) ==
      [Symbol(a / 4), Symbol(a % 4 * 16 + b / 16), Symbol(b % 16 * 4 + c / 64), Symbol(c % 64)] + Encode(rest)
  {
    hide Symbol;
    var bs := [a, b, c] + rest;
    assert bs[0] == a && bs[1] == b && bs[2] == c && bs[3..] == rest;
  }

  lemma {:induction false} RoundTrip(bs: Bytes)
    ensures Decode(Encode(bs)) == Some(bs)
  {
    if bs == [] {
    } else if |bs| == 1 {
      OneByte(bs[0]);
      assert bs == [bs[0]];
    } else if |bs| == 2 {
      TwoBytes(bs[0], bs[1]);
      assert bs == [bs[0], bs[1]];
    } else {
      RoundTrip(bs[3..]);
      ThreeBytes(bs[0], bs[1], bs[2], bs[3..]);
      assert bs == [bs[0], bs[1], bs[2]] + bs[3..];
    }
  }

  lemma EncodeInjective(a: Bytes, b: Bytes)
    requires Encode(a) == Encode(b)
    ensures a == b
  {
    RoundTrip(a);
    RoundTrip(b);
  }

  lemma {:induction false} EncodeLonger(bs: Bytes)
    requires bs != []
    ensures |Encode(bs)| > |bs|
  {
    if |bs| > 3 { EncodeLonger(bs[3..]); }
  }
}
