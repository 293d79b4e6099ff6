/** The hand-written base64 codec and the nonce framing around it.

    Text is a sequence of characters standing for the bytes of a UTF-8 string;
    shifts and masks on the 24-bit groups are written as division and
    remainder. */
module Crypto {
  import opened Types

  type byte = x: int | 0 <= x < 256

  // ----- the alphabet (section 4 of RFC 4648) -----

  /** Entry `i` of the 64-character table: A-Z, a-z, 0-9, + and /. */
  function Symbol(i: int): char
    requires 0 <= i < 64
  {
    if i < 26 then ('A' as int + i) as char
    else if i < 52 then ('a' as int + i - 26) as char
    else if i < 62 then ('0' as int + i - 52) as char
    else if i == 62 then '+'
    else '/'
  }

  /** The position of a character in the alphabet. */
  function Value(c: char): (v: Option<nat>)
    ensures v.Some? ==> v.value < 64 && Symbol(v.value) == c
  {
    if 'A' <= c <= 'Z' then Some(c as int - 'A' as int)
    else if 'a' <= c <= 'z' then Some(c as int - 'a' as int + 26)
    else if '0' <= c <= '9' then Some(c as int - '0' as int + 52)
    else if c == '+' then Some(62)
    else if c == '/' then Some(63)
    else None
  }

  predicate IsSymbol(c: char) {
    Value(c).Some?
  }

  lemma ValueOfSymbol(i: int)
    requires 0 <= i < 64
    ensures Value(Symbol(i)) == Some(i) && !IsSkipped(Symbol(i))
  {
  }

  // ----- encoding -----

  /** The 24-bit group of three bytes. */
  function Group(b0: byte, b1: byte, b2: byte): (n: nat)
    ensures n < 16777216
  {
    (b0 as int) * 65536 + (b1 as int) * 256 + b2 as int
  }

  function GroupOf(chunk: seq<byte>): (n: nat)
    requires 1 <= |chunk| <= 3
    ensures n < 16777216
  {
    Group(chunk[0], if |chunk| > 1 then chunk[1] else 0, if |chunk| > 2 then chunk[2] else 0)
  }

  function EncodeChunk(chunk: seq<byte>): (quad: string)
    requires 1 <= |chunk| <= 3
    ensures |quad| == 4
  {
    var n := GroupOf(chunk);
    [Symbol(n / 262144 % 64),
     Symbol(n / 4096 % 64),
     if |chunk| > 1 then Symbol(n / 64 % 64) else '=',
     if |chunk| > 2 then Symbol(n % 64) else '=']
  }

  function Encode(data: seq<byte>): string {
    if data == [] then []
    else if |data| <= 3 then EncodeChunk(data)
    else EncodeChunk(data[..3]) + Encode(data[3..])
  }

  lemma {:induction false} EncodeAppend(front: seq<byte>, chunk: seq<byte>)
    requires |front| % 3 == 0 && 1 <= |chunk| <= 3
    ensures Encode(front + chunk) == Encode(front) + EncodeChunk(chunk)
  {
    if front == [] {
      assert front + chunk == chunk;
    } else {
      var whole := front + chunk;
      assert whole[..3] == front[..3] && whole[3..] == front[3..] + chunk;
      EncodeAppend(front[3..], chunk);
      if |front| == 3 {
        assert front[..3] == front && front[3..] == [];
      }
    }
  }

  lemma NextMultiple(i: nat)
    requires i % 3 == 0
    ensures (i + 3) % 3 == 0
  {
  }

  lemma EncodeUpTo(data: seq<byte>, i: nat, end: nat)
    requires i % 3 == 0 && i < end <= i + 3 && end <= |data|
    ensures Encode(data[..end]) == Encode(data[..i]) + EncodeChunk(data[i..end])
  {
    assert data[..end] == data[..i] + data[i..end];
    EncodeAppend(data[..i], data[i..end]);
  }

  method Base64Encode(data: seq<byte>) returns (result: string)
    ensures result == Encode(data)
  {
    result := [];
    var i := 0;
    while i < |data|
      invariant 0 <= i <= |data|
      invariant i % 3 == 0 || i == |data|
      invariant result == Encode(data[..i])
    {
      var end := if i + 3 <= |data| then i + 3 else |data|;
      var quad := EncodeOneChunk(data[i..end]);
      EncodeUpTo(data, i, end);
      result := result + quad;
      assert end == |data| || end % 3 == 0 by {
        NextMultiple(i);
      }
      i := end;
    }
    assert data[..i] == data;
  }

  /** The body of the encoder's loop. */
  method EncodeOneChunk(chunk: seq<byte>) returns (quad: string)
    requires 1 <= |chunk| <= 3
    ensures quad == EncodeChunk(chunk)
  {
    var b0 := chunk[0];
    var b1 := if |chunk| > 1 then chunk[1] else 0;
    var b2 := if |chunk| > 2 then chunk[2] else 0;
    var n := Group(b0, b1, b2);
    quad := [Symbol(n / 262144 % 64), Symbol(n / 4096 % 64)];
    if |chunk| > 1 {
      quad := quad + [Symbol(n / 64 % 64)];
    } else {
      quad := quad + ['='];
    }
    if |chunk| > 2 {
      quad := quad + [Symbol(n % 64)];
    } else {
      quad := quad + ['='];
    }
  }

  // ----- decoding -----

  predicate IsSkipped(c: char) {
    c == '\n' || c == '\r' || c == ' ' || c == '='
  }

  function Strip(s: string): string {
    if s == [] then []
    else Strip(s[..|s| - 1]) + (if IsSkipped(s[|s| - 1]) then [] else [s[|s| - 1]])
  }

  datatype Acc = Acc(n: nat, valid: nat)

  function Pow64(k: nat): nat {
    if k == 0 then 1 else if k == 1 then 64 else if k == 2 then 4096 else if k == 3 then 262144
    else 16777216
  }

  /** One chunk's accumulator; a character outside the alphabet takes its slot
      in the chunk but contributes nothing. */
  function Accumulate(chunk: string): (a: Acc)
    requires |chunk| <= 4
    ensures a.valid <= |chunk| && a.n < Pow64(a.valid)
  {
    if chunk == [] then Acc(0, 0)
    else
      var a := Accumulate(chunk[..|chunk| - 1]);
      match Value(chunk[|chunk| - 1])
      case Some(v) => Acc(a.n * 64 + v, a.valid + 1)
      case None => a
  }

  function BytesOf(a: Acc): seq<byte>
    requires a.valid <= 4 && a.n < Pow64(a.valid)
  {
    var n := a.n * Pow64(4 - a.valid);
    (if a.valid >= 2 then [n / 65536 % 256] else [])
    + (if a.valid >= 3 then [n / 256 % 256] else [])
    + (if a.valid >= 4 then [n % 256] else [])
  }

  function DecodeChunk(chunk: string): seq<byte>
    requires |chunk| <= 4
  {
    BytesOf(Accumulate(chunk))
  }

  function DecodeChunks(s: string): seq<byte> {
    if |s| <= 4 then DecodeChunk(s)
    else DecodeChunk(s[..4]) + DecodeChunks(s[4..])
  }

  function Decode(s: string): seq<byte> {
    DecodeChunks(Strip(s))
  }

  lemma {:induction false} DecodeAppend(front: string, chunk: string)
    requires |front| % 4 == 0 && |chunk| <= 4
    ensures DecodeChunks(front + chunk) == DecodeChunks(front) + DecodeChunk(chunk)
  {
    if front == [] {
      assert front + chunk == chunk;
      assert DecodeChunk([]) == [];
    } else {
      var whole := front + chunk;
      if chunk == [] {
        assert whole == front;
        assert DecodeChunk([]) == [];
      } else {
        assert whole[..4] == front[..4] && whole[4..] == front[4..] + chunk;
        DecodeAppend(front[4..], chunk);
        if |front| == 4 {
          assert front[..4] == front && front[4..] == [];
          assert DecodeChunks([]) == [];
        }
      }
    }
  }

  method Base64Decode(s: string) returns (result: seq<byte>)
    ensures result == Decode(s)
  {
    var t := Strip(s);
    result := [];
    var i := 0;
    assert DecodeChunks([]) == [];
    while i < |t|
      invariant 0 <= i <= |t|
      invariant i % 4 == 0 || i == |t|
      invariant result == DecodeChunks(t[..i])
    {
      var end := if i + 4 <= |t| then i + 4 else |t|;
      var bytes := DecodeOneChunk(t[i..end]);
      assert t[..end] == t[..i] + t[i..end];
      DecodeAppend(t[..i], t[i..end]);
      result := result + bytes;
      i := end;
    }
    assert t[..i] == t;
  }

  /** The body of the decoder's loop. */
  method DecodeOneChunk(chunk: string) returns (bytes: seq<byte>)
    requires |chunk| <= 4
    ensures bytes == DecodeChunk(chunk)
  {
    var a := Acc(0, 0);
    var j := 0;
    while j < |chunk|
      invariant 0 <= j <= |chunk|
      invariant a == Accumulate(chunk[..j])
    {
      assert chunk[..j + 1][..j] == chunk[..j];
      match Value(chunk[j]) {
        case Some(v) => a := Acc(a.n * 64 + v, a.valid + 1);
        case None =>
      }
      j := j + 1;
    }
    assert chunk[..j] == chunk;
    bytes := BytesOf(a);
  }

  // ----- round trips -----

  lemma {:induction false} StripAppend(a: string, b: string)
    ensures Strip(a + b) == Strip(a) + Strip(b)
  {
    if b == [] {
      assert a + b == a;
    } else {
      var n := |b| - 1;
      assert (a + b)[..|a + b| - 1] == a + b[..n];
      StripAppend(a, b[..n]);
    }
  }

  /** Decoding is unchanged by inserting padding, spaces or line breaks
      anywhere. */
  lemma DecodeIgnoresSkipped(a: string, c: char, b: string)
    requires IsSkipped(c)
    ensures Decode(a + [c] + b) == Decode(a + b)
  {
    StripAppend(a + [c], b);
    StripAppend(a, [c]);
    StripAppend(a, b);
    assert [c][..0] == [];
    assert Strip([c]) == [];
    assert Strip(a) + [] == Strip(a);
  }

  lemma {:induction false} StripOfSymbols(s: string)
    requires forall i :: 0 <= i < |s| ==> !IsSkipped(s[i])
    ensures Strip(s) == s
  {
    if s != [] {
      StripOfSymbols(s[..|s| - 1]);
    }
  }

  lemma Accumulate2(a: char, b: char)
    requires IsSymbol(a) && IsSymbol(b)
    ensures Accumulate([a, b]) == Acc(Value(a).value * 64 + Value(b).value, 2)
  {
    assert [a, b][..1] == [a];
    assert [a][..0] == [];
  }

  lemma Accumulate3(a: char, b: char, c: char)
    requires IsSymbol(a) && IsSymbol(b) && IsSymbol(c)
    ensures Accumulate([a, b, c])
         == Acc(Value(a).value * 4096 + Value(b).value * 64 + Value(c).value, 3)
  {
    Accumulate2(a, b);
    assert [a, b, c][..2] == [a, b];
  }

  lemma Accumulate4(a: char, b: char, c: char, d: char)
    requires IsSymbol(a) && IsSymbol(b) && IsSymbol(c) && IsSymbol(d)
    ensures Accumulate([a, b, c, d])
         == Acc(Value(a).value * 262144 + Value(b).value * 4096 + Value(c).value * 64 + Value(d).value, 4)
  {
    Accumulate3(a, b, c);
    assert [a, b, c, d][..3] == [a, b, c];
  }

  lemma SymbolsOfGroup(n: nat)
    ensures var x, y, z, w := n / 262144 % 64, n / 4096 % 64, n / 64 % 64, n % 64;
            && Value(Symbol(x)) == Some(x) && !IsSkipped(Symbol(x))
            && Value(Symbol(y)) == Some(y) && !IsSkipped(Symbol(y))
            && Value(Symbol(z)) == Some(z) && !IsSkipped(Symbol(z))
            && Value(Symbol(w)) == Some(w) && !IsSkipped(Symbol(w))
  {
    ValueOfSymbol(n / 262144 % 64);
    ValueOfSymbol(n / 4096 % 64);
    ValueOfSymbol(n / 64 % 64);
    ValueOfSymbol(n % 64);
  }

  /** The part of an encoded chunk that is not padding. */
  lemma StripOfChunk(chunk: seq<byte>)
    requires 1 <= |chunk| <= 3
    ensures Strip(EncodeChunk(chunk)) == EncodeChunk(chunk)[..|chunk| + 1]
  {
    var e := EncodeChunk(chunk);
    var k := |chunk| + 1;
    assert e == e[..k] + e[k..];
    StripAppend(e[..k], e[k..]);
    SymbolsOfGroup(GroupOf(chunk));
    StripOfSymbols(e[..k]);
    PaddingStripsAway(e[k..]);
  }

  lemma {:induction false} PaddingStripsAway(s: string)
    requires forall i :: 0 <= i < |s| ==> s[i] == '='
    ensures Strip(s) == []
  {
    if s != [] {
      PaddingStripsAway(s[..|s| - 1]);
    }
  }

  lemma Sextets(n: nat)
    requires n < 16777216
    ensures (n / 262144 % 64) * 262144 + (n / 4096 % 64) * 4096 + (n / 64 % 64) * 64 + n % 64 == n
    ensures n % 65536 == 0 ==> n / 64 % 64 == 0 && n % 64 == 0
    ensures n % 256 == 0 ==> n % 64 == 0
  {
    assert n / 64 / 64 == n / 4096;
    assert n / 4096 / 64 == n / 262144;
    if n % 65536 == 0 {
      var k := n / 65536;
      assert n / 64 == k * 1024;
    }
  }

  lemma HighByte(b0: byte, b1: byte, b2: byte)
    ensures Group(b0, b1, b2) / 65536 == b0
  {
    var low: int := b1 * 256 + b2;
    assert 0 <= low < 65536;
    assert Group(b0, b1, b2) == b0 * 65536 + low;
  }

  lemma MiddleByte(b0: byte, b1: byte, b2: byte)
    ensures Group(b0, b1, b2) / 256 == b0 * 256 + b1
  {
    var high: int := b0 * 256 + b1;
    assert Group(b0, b1, b2) == high * 256 + b2;
  }

  lemma BytesOfGroup(b0: byte, b1: byte, b2: byte)
    ensures var n := Group(b0, b1, b2); n / 65536 % 256 == b0 && n / 256 % 256 == b1 && n % 256 == b2
  {
    HighByte(b0, b1, b2);
    MiddleByte(b0, b1, b2);
  }

  lemma ChunkRoundTrip1(b0: byte)
    ensures DecodeChunk(EncodeChunk([b0])[..2]) == [b0]
  {
    var n := Group(b0, 0, 0);
    var x, y := Symbol(n / 262144 % 64), Symbol(n / 4096 % 64);
    SymbolsOfGroup(n);
    assert EncodeChunk([b0])[..2] == [x, y];
    Accumulate2(x, y);
    Sextets(n);
    BytesOfGroup(b0, 0, 0);
    assert BytesOf(Accumulate([x, y])) == [n / 65536 % 256];
  }

  lemma ChunkRoundTrip2(b0: byte, b1: byte)
    ensures DecodeChunk(EncodeChunk([b0, b1])[..3]) == [b0, b1]
  {
    var n := Group(b0, b1, 0);
    var x, y, z := Symbol(n / 262144 % 64), Symbol(n / 4096 % 64), Symbol(n / 64 % 64);
    SymbolsOfGroup(n);
    assert EncodeChunk([b0, b1])[..3] == [x, y, z];
    Accumulate3(x, y, z);
    Sextets(n);
    BytesOfGroup(b0, b1, 0);
    assert BytesOf(Accumulate([x, y, z])) == [n / 65536 % 256, n / 256 % 256];
  }

  lemma ChunkRoundTrip3(b0: byte, b1: byte, b2: byte)
    ensures DecodeChunk(EncodeChunk([b0, b1, b2])) == [b0, b1, b2]
  {
    var n := Group(b0, b1, b2);
    var x, y, z, w := Symbol(n / 262144 % 64), Symbol(n / 4096 % 64), Symbol(n / 64 % 64), Symbol(n % 64);
    SymbolsOfGroup(n);
    assert EncodeChunk([b0, b1, b2]) == [x, y, z, w];
    Accumulate4(x, y, z, w);
    Sextets(n);
    BytesOfGroup(b0, b1, b2);
    assert BytesOf(Accumulate([x, y, z, w])) == [n / 65536 % 256, n / 256 % 256, n % 256];
  }

  lemma ChunkRoundTrip(chunk: seq<byte>)
    requires 1 <= |chunk| <= 3
    ensures DecodeChunk(EncodeChunk(chunk)[..|chunk| + 1]) == chunk
  {
    if |chunk| == 1 {
      ChunkRoundTrip1(chunk[0]);
      assert chunk == [chunk[0]];
    } else if |chunk| == 2 {
      ChunkRoundTrip2(chunk[0], chunk[1]);
      assert chunk == [chunk[0], chunk[1]];
    } else {
      ChunkRoundTrip3(chunk[0], chunk[1], chunk[2]);
      assert chunk == [chunk[0], chunk[1], chunk[2]];
      assert EncodeChunk(chunk)[..4] == EncodeChunk(chunk);
    }
  }

  /** Section 4 of RFC 4648: decoding an encoding gives the data back. */
  lemma {:induction false} DecodeAfterEncode(data: seq<byte>)
    ensures Decode(Encode(data)) == data
  {
    if data == [] {
      assert DecodeChunks([]) == [];
    } else if |data| <= 3 {
      StripOfChunk(data);
      ChunkRoundTrip(data);
    } else {
      var chunk, rest := data[..3], data[3..];
      DecodeAfterEncode(rest);
      StripAppend(EncodeChunk(chunk), Encode(rest));
      StripOfChunk(chunk);
      ChunkRoundTrip(chunk);
      var e := EncodeChunk(chunk);
      assert e[..4] == e;
      DecodeQuad(e, Strip(Encode(rest)));
      assert data == chunk + rest;
    }
  }

  lemma DecodeQuad(quad: string, rest: string)
    requires |quad| == 4
    ensures DecodeChunks(quad + rest) == DecodeChunk(quad) + DecodeChunks(rest)
  {
    if rest == [] {
      assert quad + rest == quad;
      assert DecodeChunks(rest) == [];
    } else {
      assert (quad + rest)[..4] == quad && (quad + rest)[4..] == rest;
    }
  }

  // ----- canonical text (section 3.5 of RFC 4648) -----

  /** A full quad, or a padded one whose unused bits are zero. */
  predicate CanonicalLast(q: string)
    requires |q| == 4
  {
    && IsSymbol(q[0]) && IsSymbol(q[1])
    && (|| (q[2] == '=' && q[3] == '=' && Value(q[1]).value % 16 == 0)
        || (IsSymbol(q[2]) && q[3] == '=' && Value(q[2]).value % 4 == 0)
        || (IsSymbol(q[2]) && IsSymbol(q[3])))
  }

  predicate Canonical(s: string) {
    if s == [] then true
    else if |s| < 4 then false
    else if |s| == 4 then CanonicalLast(s)
    else (forall i :: 0 <= i < 4 ==> IsSymbol(s[i])) && Canonical(s[4..])
  }

  lemma {:induction false} EncodeIsCanonical(data: seq<byte>)
    ensures Canonical(Encode(data))
    ensures data != [] ==> |Encode(data)| >= 4
  {
    if data == [] {
    } else if |data| <= 3 {
      ChunkIsCanonical(data);
    } else {
      ChunkIsCanonical(data[..3]);
      EncodeIsCanonical(data[3..]);
      var e := EncodeChunk(data[..3]);
      assert (e + Encode(data[3..]))[4..] == Encode(data[3..]);
      assert forall i :: 0 <= i < 4 ==> (e + Encode(data[3..]))[i] == e[i];
    }
  }

  lemma ChunkIsCanonical(chunk: seq<byte>)
    requires 1 <= |chunk| <= 3
    ensures CanonicalLast(EncodeChunk(chunk))
    ensures |chunk| == 3 ==> forall i :: 0 <= i < 4 ==> IsSymbol(EncodeChunk(chunk)[i])
  {
    SymbolsOfGroup(GroupOf(chunk));
    UnusedBitsAreZero(chunk[0], if |chunk| > 1 then chunk[1] else 0);
  }

  lemma FourBitsAreZero(b: nat)
    ensures b * 16 % 64 % 16 == 0
  {
    var k, r := b / 4, b % 4;
    assert b * 16 == k * 64 + r * 16;
    assert b * 16 % 64 == r * 16;
  }

  lemma TwoBitsAreZero(b: nat)
    ensures b * 4 % 64 % 4 == 0
  {
    var k, r := b / 16, b % 16;
    assert b * 4 == k * 64 + r * 4;
    assert b * 4 % 64 == r * 4;
  }

  lemma UnusedBitsAreZero(b0: byte, b1: byte)
    ensures Group(b0, 0, 0) / 4096 % 64 % 16 == 0
    ensures Group(b0, b1, 0) / 64 % 64 % 4 == 0
  {
    assert Group(b0, 0, 0) == (b0 * 16) * 4096;
    assert Group(b0, b1, 0) == (b0 * 256 + b1) * 4 * 64;
    FourBitsAreZero(b0);
    TwoBitsAreZero(b0 * 256 + b1);
  }

  lemma Recompose(n: nat)
    requires n < 16777216
    ensures Group(n / 65536 % 256, n / 256 % 256, n % 256) == n
  {
  }

  lemma Digits(a: nat, b: nat, c: nat, d: nat)
    requires a < 64 && b < 64 && c < 64 && d < 64
    ensures var n := a * 262144 + b * 4096 + c * 64 + d;
            n / 262144 % 64 == a && n / 4096 % 64 == b && n / 64 % 64 == c && n % 64 == d
  {
  }

  lemma QuadFull(q: string)
    requires |q| == 4 && forall i :: 0 <= i < 4 ==> IsSymbol(q[i])
    ensures |DecodeChunk(q)| == 3 && EncodeChunk(DecodeChunk(q)) == q
  {
    var a, b, c, d := Value(q[0]).value, Value(q[1]).value, Value(q[2]).value, Value(q[3]).value;
    Accumulate4(q[0], q[1], q[2], q[3]);
    assert q == [q[0], q[1], q[2], q[3]];
    Digits(a, b, c, d);
    QuadOfGroup(q, a * 262144 + b * 4096 + c * 64 + d);
  }

  lemma QuadOfGroup(q: string, n: nat)
    requires |q| == 4 && n < 16777216 && Accumulate(q) == Acc(n, 4)
    requires q[0] == Symbol(n / 262144 % 64) && q[1] == Symbol(n / 4096 % 64)
    requires q[2] == Symbol(n / 64 % 64) && q[3] == Symbol(n % 64)
    ensures |DecodeChunk(q)| == 3 && EncodeChunk(DecodeChunk(q)) == q
  {
    assert DecodeChunk(q) == [n / 65536 % 256, n / 256 % 256, n % 256];
    Recompose(n);
  }

  lemma QuadOnePad(q: string)
    requires |q| == 4 && IsSymbol(q[0]) && IsSymbol(q[1]) && IsSymbol(q[2]) && q[3] == '='
    requires Value(q[2]).value % 4 == 0
    ensures |DecodeChunk(q[..3])| == 2 && EncodeChunk(DecodeChunk(q[..3])) == q
  {
    var a, b, c := Value(q[0]).value, Value(q[1]).value, Value(q[2]).value;
    Accumulate3(q[0], q[1], q[2]);
    assert q[..3] == [q[0], q[1], q[2]];
    var n := (a * 4096 + b * 64 + c) * 64;
    assert DecodeChunk(q[..3]) == [n / 65536 % 256, n / 256 % 256];
    LowByteZero(a, b, c);
    Recompose(n);
    Digits(a, b, c, 0);
  }

  lemma LowByteZero(a: nat, b: nat, c: nat)
    requires c % 4 == 0
    ensures (a * 4096 + b * 64 + c) * 64 % 256 == 0
  {
    var k := c / 4;
    var m := a * 1024 + b * 16 + k;
    assert (a * 4096 + b * 64 + c) * 64 == m * 256;
    MultipleOf256(m);
  }

  lemma MultipleOf256(m: nat)
    ensures m * 256 % 256 == 0 && m * 256 / 256 == m
  {
  }

  lemma LowBytesZero(a: nat, b: nat)
    requires b % 16 == 0
    ensures (a * 64 + b) * 4096 % 256 == 0 && (a * 64 + b) * 4096 / 256 % 256 == 0
  {
    var m := a * 4 + b / 16;
    assert (a * 64 + b) * 4096 == m * 256 * 256;
    MultipleOf256(m * 256);
    MultipleOf256(m);
  }

  lemma QuadTwoPad(q: string)
    requires |q| == 4 && IsSymbol(q[0]) && IsSymbol(q[1]) && q[2] == '=' && q[3] == '='
    requires Value(q[1]).value % 16 == 0
    ensures |DecodeChunk(q[..2])| == 1 && EncodeChunk(DecodeChunk(q[..2])) == q
  {
    var a, b := Value(q[0]).value, Value(q[1]).value;
    Accumulate2(q[0], q[1]);
    assert q[..2] == [q[0], q[1]];
    var n := (a * 64 + b) * 4096;
    assert DecodeChunk(q[..2]) == [n / 65536 % 256];
    LowBytesZero(a, b);
    Recompose(n);
    Digits(a, b, 0, 0);
  }

  lemma LastQuadFull(q: string)
    requires |q| == 4 && forall i :: 0 <= i < 4 ==> IsSymbol(q[i])
    ensures Decode(q) == DecodeChunk(q)
  {
    StripOfSymbols(q);
  }

  lemma LastQuadPadded(q: string, k: nat)
    requires |q| == 4 && k < 4
    requires forall i :: 0 <= i < k ==> IsSymbol(q[i])
    requires forall i :: k <= i < 4 ==> q[i] == '='
    ensures Decode(q) == DecodeChunk(q[..k])
  {
    assert q == q[..k] + q[k..];
    StripAppend(q[..k], q[k..]);
    StripOfSymbols(q[..k]);
    PaddingStripsAway(q[k..]);
    assert Strip(q) == q[..k];
  }

  lemma LastQuad(q: string)
    requires |q| == 4 && CanonicalLast(q)
    ensures 1 <= |Decode(q)| <= 3 && EncodeChunk(Decode(q)) == q
  {
    if q[2] == '=' {
      LastQuadPadded(q, 2);
      QuadTwoPad(q);
    } else if q[3] == '=' {
      LastQuadPadded(q, 3);
      QuadOnePad(q);
    } else {
      LastQuadFull(q);
      QuadFull(q);
    }
  }

  lemma EncodeOfDecodedQuad(q: string, rest: seq<byte>)
    requires |q| == 4 && forall i :: 0 <= i < 4 ==> IsSymbol(q[i])
    ensures rest != [] ==> Encode(DecodeChunk(q) + rest) == q + Encode(rest)
  {
    QuadFull(q);
    var d := DecodeChunk(q);
    assert (d + rest)[..3] == d && (d + rest)[3..] == rest;
  }

  lemma EncodeAfterQuad(q: string, rest: string)
    requires |q| == 4 && forall i :: 0 <= i < 4 ==> IsSymbol(q[i])
    requires Encode(Decode(rest)) == rest && Decode(rest) != []
    ensures Encode(Decode(q + rest)) == q + rest && Decode(q + rest) != []
  {
    StripAppend(q, rest);
    StripOfSymbols(q);
    DecodeQuad(q, Strip(rest));
    EncodeOfDecodedQuad(q, Decode(rest));
  }

  lemma {:induction false} EncodeAfterDecode(s: string)
    requires Canonical(s)
    ensures Encode(Decode(s)) == s
    ensures s != [] ==> Decode(s) != []
  {
    if s == [] {
      assert DecodeChunks([]) == [];
    } else if |s| == 4 {
      LastQuad(s);
    } else {
      assert s == s[..4] + s[4..];
      EncodeAfterDecode(s[4..]);
      EncodeAfterQuad(s[..4], s[4..]);
    }
  }

  /** Re-encoding reproduces a text exactly when the text is canonical. */
  lemma CanonicalIffReencodes(s: string)
    ensures Encode(Decode(s)) == s <==> Canonical(s)
  {
    if Canonical(s) {
      EncodeAfterDecode(s);
    }
    EncodeIsCanonical(Decode(s));
  }

  // ----- nonce framing -----

  const NONCE_LEN: nat := 12

  /** An authenticated cipher, left abstract. */
  datatype Aead = Aead(
    seal: (seq<byte>, seq<byte>, seq<byte>) -> seq<byte>,
    open: (seq<byte>, seq<byte>, seq<byte>) -> Option<seq<byte>>)

  ghost predicate IsInversePair(c: Aead, key: seq<byte>) {
    forall nonce: seq<byte>, plain: seq<byte> ::
      c.open(key, nonce, c.seal(key, nonce, plain)) == Some(plain)
  }

  datatype CryptoError = KeyNotSet | TooShort | AuthenticationFailed | NotUtf8
  datatype CryptoResult<T> = Ok(value: T) | Err(error: CryptoError)

  function Encrypt(c: Aead, key: Option<seq<byte>>, nonce: seq<byte>, plain: seq<byte>): CryptoResult<string> {
    if key.None? then Err(KeyNotSet)
    else Ok(Encode(nonce + c.seal(key.value, nonce, plain)))
  }

  function Decrypt(c: Aead, utf8: seq<byte> -> bool, key: Option<seq<byte>>, text: string): CryptoResult<seq<byte>> {
    if key.None? then Err(KeyNotSet)
    else
      var combined := Decode(text);
      if |combined| < NONCE_LEN then Err(TooShort)
      else
        match c.open(key.value, combined[..NONCE_LEN], combined[NONCE_LEN..])
        case None => Err(AuthenticationFailed)
        case Some(plain) => if utf8(plain) then Ok(plain) else Err(NotUtf8)
  }

  /** Decrypting an encryption gives the plaintext back, for every 12-byte nonce,
      also after spaces, line breaks or padding were added to the text. */
  lemma DecryptAfterEncrypt(c: Aead, utf8: seq<byte> -> bool, key: seq<byte>, nonce: seq<byte>, plain: seq<byte>,
                            text: string)
    requires IsInversePair(c, key) && |nonce| == 12 && utf8(plain)
    requires Strip(text) == Strip(Encrypt(c, Some(key), nonce, plain).value)
    ensures Decrypt(c, utf8, Some(key), text) == Ok(plain)
  {
    var body := c.seal(key, nonce, plain);
    DecodeAfterEncode(nonce + body);
    assert (nonce + body)[..NONCE_LEN] == nonce && (nonce + body)[NONCE_LEN..] == body;
  }
}
