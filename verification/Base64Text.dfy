/** The text of an encoding, character by character, as section 4 of RFC 4648 lays
    it out. */
module Base64Text {
  import opened Crypto

  const UPPER: string := "ABCDEFGHIJKLMNOPQRSTUVWXYZ"
  const LOWER: string := "abcdefghijklmnopqrstuvwxyz"
  const DIGITS: string := "0123456789"
  const ALPHABET: string := UPPER + LOWER + DIGITS + "+/"

  lemma SymbolIsInTable(i: int)
    requires 0 <= i < 64
    ensures |ALPHABET| == 64 && Symbol(i) == ALPHABET[i]
  {
    assert |UPPER| == 26 && |LOWER| == 26 && |DIGITS| == 10;
    if i < 26 {
      assert ALPHABET[i] == UPPER[i];
    } else if i < 52 {
      assert ALPHABET[i] == LOWER[i - 26];
    } else if i < 62 {
      assert ALPHABET[i] == DIGITS[i - 52];
    }
  }

  /** The byte at a position, nothing beyond the end. */
  function ByteAt(data: seq<byte>, j: nat): byte {
    if j < |data| then data[j] else 0
  }

  /** The bits 6k to 6k + 5 of the data, most significant first. */
  function SixBits(data: seq<byte>, k: nat): int {
    var j := k / 4 * 3;
    match k % 4
    case 0 => ByteAt(data, j) / 4
    case 1 => ByteAt(data, j) % 4 * 16 + ByteAt(data, j + 1) / 16
    case 2 => ByteAt(data, j + 1) % 16 * 4 + ByteAt(data, j + 2) / 64
    case _ => ByteAt(data, j + 2) % 64
  }

  lemma SecondSextet(b0: byte, b1: byte, b2: byte)
    ensures Group(b0, b1, b2) / 4096 % 64 == b0 % 4 * 16 + b1 / 16
  {
    var n, q, p: int := Group(b0, b1, b2), b1 / 16, b0 / 4;
    assert n == (b0 * 16 + q) * 4096 + (b1 % 16 * 256 + b2);
    assert n / 4096 == p * 64 + (b0 % 4 * 16 + q);
  }

  lemma ThirdSextet(b0: byte, b1: byte, b2: byte)
    ensures Group(b0, b1, b2) / 64 % 64 == b1 % 16 * 4 + b2 / 64
  {
    var n, q, p: int := Group(b0, b1, b2), b2 / 64, b1 / 16;
    assert n == (b0 * 1024 + b1 * 4 + q) * 64 + b2 % 64;
    assert n / 64 == (b0 * 16 + p) * 64 + (b1 % 16 * 4 + q);
  }

  lemma FirstAndLastSextet(b0: byte, b1: byte, b2: byte)
    ensures Group(b0, b1, b2) / 262144 % 64 == b0 / 4 && Group(b0, b1, b2) % 64 == b2 % 64
  {
    var n := Group(b0, b1, b2);
    assert n == b0 / 4 * 262144 + (b0 % 4 * 65536 + b1 * 256 + b2);
    assert n == (b0 * 1024 + b1 * 4) * 64 + b2;
  }

  lemma SixBitsAreSmall(data: seq<byte>, k: nat)
    ensures 0 <= SixBits(data, k) < 64
  {
  }

  /** The k-th of the four digits of a group. */
  function Sextet(n: nat, k: nat): int {
    match k
    case 0 => n / 262144 % 64
    case 1 => n / 4096 % 64
    case 2 => n / 64 % 64
    case _ => n % 64
  }

  lemma SextetIsSixBits(b0: byte, b1: byte, b2: byte, k: nat)
    requires k < 4
    ensures Sextet(Group(b0, b1, b2), k) == SixBits([b0, b1, b2], k)
  {
    if k == 1 {
      SecondSextet(b0, b1, b2);
    } else if k == 2 {
      ThirdSextet(b0, b1, b2);
    } else {
      FirstAndLastSextet(b0, b1, b2);
    }
  }

  lemma ChunkIs(chunk: seq<byte>, k: nat)
    requires 1 <= |chunk| <= 3 && k < 4
    ensures 0 <= SixBits(chunk, k) < 64
    ensures EncodeChunk(chunk)[k] == if k <= |chunk| then Symbol(SixBits(chunk, k)) else '='
  {
    SixBitsAreSmall(chunk, k);
    SextetIsSixBits(chunk[0], ByteAt(chunk, 1), ByteAt(chunk, 2), k);
    assert SixBits([chunk[0], ByteAt(chunk, 1), ByteAt(chunk, 2)], k) == SixBits(chunk, k);
  }

  lemma SixBitsOfParts(data: seq<byte>, k: nat)
    requires |data| > 3
    ensures k < 4 ==> SixBits(data, k) == SixBits(data[..3], k)
    ensures k >= 4 ==> SixBits(data, k) == SixBits(data[3..], k - 4)
  {
    if k >= 4 {
      assert (k - 4) / 4 == k / 4 - 1 && (k - 4) % 4 == k % 4;
    }
  }

  /** How many groups of three bytes are begun. */
  function Groups(n: nat): nat {
    (n + 2) / 3
  }

  lemma GroupsAre(n: nat)
    ensures n == 0 ==> Groups(n) == 0
    ensures 0 < n <= 3 ==> Groups(n) == 1
    ensures n > 3 ==> Groups(n) == 1 + Groups(n - 3)
  {
  }

  lemma {:induction false} EncodedLength(data: seq<byte>)
    ensures |Encode(data)| == 4 * Groups(|data|)
  {
    GroupsAre(|data|);
    if |data| > 3 {
      EncodedLength(data[3..]);
      assert |Encode(data)| == 4 + |Encode(data[3..])|;
    } else if data != [] {
      assert |Encode(data)| == 4;
    }
  }

  lemma {:induction false} EncodingIsSymbols(data: seq<byte>, k: nat)
    requires k < |Encode(data)|
    ensures 0 <= SixBits(data, k) < 64
    ensures Encode(data)[k] == if 6 * k < 8 * |data| then Symbol(SixBits(data, k)) else '='
  {
    SixBitsAreSmall(data, k);
    if |data| > 3 {
      SixBitsOfParts(data, k);
      if k < 4 {
        ChunkIs(data[..3], k);
        assert Encode(data)[k] == EncodeChunk(data[..3])[k];
      } else {
        EncodingIsSymbols(data[3..], k - 4);
        assert Encode(data)[k] == Encode(data[3..])[k - 4];
      }
    } else {
      ChunkIs(data, k);
    }
  }

  /** The encoding has four characters for each three bytes begun; the k-th stands
      for the k-th six bits, or is padding where the data has none left. */
  lemma EncodingIs(data: seq<byte>, k: nat)
    ensures |Encode(data)| == 4 * Groups(|data|)
    ensures k < |Encode(data)| ==>
              && 0 <= SixBits(data, k) < 64 == |ALPHABET|
              && Encode(data)[k] == if 6 * k < 8 * |data| then ALPHABET[SixBits(data, k)] else '='
  {
    EncodedLength(data);
    if k < |Encode(data)| {
      EncodingIsSymbols(data, k);
      SymbolIsInTable(SixBits(data, k));
    }
  }
}
