/**
  The branch-free base64 and hexadecimal codecs of WireGuard keys, against sections 4 and 8 of RFC 4648.

  Bytes are bv8, the 16-bit units of a Java string are bv16 and ints are bv32, so that every operator is the
  one of the source. On bv32, `>>` shifts zeros in.
 */
module KeyCodec {
  datatype Format = BASE64 | BINARY | HEX
  datatype Fault = LENGTH | CONTENTS
  datatype Result<T> = Ok(value: T) | KeyFormatException(format: Format, fault: Fault)

  // A key holds its own copy of the bytes and never changes.
  type Key = bytes: seq<bv8> | |bytes| == 32 witness seq(32, i => 0)

  // A string whose characters are all below 256.
  predicate Narrow(s: seq<bv16>) {
    forall k :: 0 <= k < |s| ==> s[k] < 256
  }

  // Widening a byte to an int keeps its sign.
  function Widen(b: bv8): bv32 {
    if b & 0x80 == 0 then b as bv32 else 0xFFFF_FF00 | (b as bv32)
  }

  /* ---------- RFC 4648, section 4 ---------- */

  function Symbol(v: bv32): bv16
    requires v < 64
  {
    var w := v as bv16;
    if w < 26 then w + 65 else if w < 52 then w + 71 else if w < 62 then w - 4 else if w == 62 then 43 else 47
  }

  predicate IsSymbol(c: bv16) {
    65 <= c <= 90 || 97 <= c <= 122 || 48 <= c <= 57 || c == 43 || c == 47
  }

  // Three bytes as four symbols.
  function Quad(a: bv8, b: bv8, c: bv8): (r: seq<bv16>)
    ensures |r| == 4
  {
    var n := Word(a, b, c);
    [Symbol(Six(n, 18)), Symbol(Six(n, 12)), Symbol(Six(n, 6)), Symbol(Six(n, 0))]
  }

  function Word(a: bv8, b: bv8, c: bv8): bv32 {
    ((a as bv32) << 16) | ((b as bv32) << 8) | (c as bv32)
  }

  function Six(n: bv32, shift: bv8): (r: bv32)
    requires shift <= 18
    ensures r < 64
  {
    (n >> shift) & 63
  }

  const PAD: bv16 := 61

  function Encode(bytes: seq<bv8>): seq<bv16> {
    if |bytes| == 0 then []
    else if |bytes| == 1 then Quad(bytes[0], 0, 0)[..2] + [PAD, PAD]
    else if |bytes| == 2 then Quad(bytes[0], bytes[1], 0)[..3] + [PAD]
    else Quad(bytes[0], bytes[1], bytes[2]) + Encode(bytes[3..])
  }

  lemma {:induction false} EncodeAppend(a: seq<bv8>, b: seq<bv8>)
    requires |a| % 3 == 0
    ensures Encode(a + b) == Encode(a) + Encode(b)
    ensures |Encode(a)| == |a| / 3 * 4
    decreases |a|
  {
    hide Quad;
    if |a| == 0 {
      assert a + b == b;
    } else {
      EncodeAppend(a[3..], b);
      assert (a + b)[3..] == a[3..] + b;
    }
  }

  // The test vectors of section 10 of RFC 4648 with one, two and six bytes: f, fo and foobar.
  lemma TestVectors()
    ensures Encode([0x66]) == [90, 103, PAD, PAD] && Encode([0x66, 0x6F]) == [90, 109, 56, PAD]
    ensures Encode([0x66, 0x6F, 0x6F, 0x62, 0x61, 0x72]) == [90, 109, 57, 118, 89, 109, 70, 121]
  {
    assert [0x66 as bv8, 0x6F, 0x6F, 0x62, 0x61, 0x72][3..] == [0x62, 0x61, 0x72];
    assert [0x62 as bv8, 0x61, 0x72][3..] == [];
  }

  /* ---------- decoding ---------- */

  // The value of one character: its sextet, or a negative number.
  function Sextet(c: bv16): bv32 {
    var c := c as bv32;
    0xFFFF_FFFF
    + ((((64 - c) & (c - 91)) >> 8) & (c - 64))
    + ((((96 - c) & (c - 123)) >> 8) & (c - 70))
    + ((((47 - c) & (c - 58)) >> 8) & (c + 5))
    + ((((42 - c) & (c - 44)) >> 8) & 63)
    + ((((46 - c) & (c - 48)) >> 8) & 64)
  }

  function Sextets(a: bv16, b: bv16, c: bv16, d: bv16): bv32 {
    Combine(Sextet(a), Sextet(b), Sextet(c), Sextet(d))
  }

  function Combine(a: bv32, b: bv32, c: bv32, d: bv32): bv32 {
    (a << 18) | (b << 12) | (c << 6) | d
  }

  // x << (18 - 6 * i) for the four characters of a chunk.
  function Place(x: bv32, i: nat): bv32
    requires i < 4
  {
    if i == 0 then x << 18 else if i == 1 then x << 12 else if i == 2 then x << 6 else x
  }

  // The first n sextets in their places.
  function Gathered(src: seq<bv16>, n: nat): bv32
    requires n <= 4 && n <= |src|
  {
    if n == 0 then 0 else Join(Gathered(src, n - 1), Place(Sextet(src[n - 1]), n - 1))
  }

  function Join(val: bv32, x: bv32): bv32 {
    val | x
  }

  lemma GatheredAll(src: seq<bv16>)
    requires |src| == 4
    ensures Gathered(src, 4) == Sextets(src[0], src[1], src[2], src[3])
  {
    hide Sextet, Place, Sextets, Join;
    assert Gathered(src, 1) == Join(0, Place(Sextet(src[0]), 0));
    assert Gathered(src, 2) == Join(Join(0, Place(Sextet(src[0]), 0)), Place(Sextet(src[1]), 1));
    SextetsPlaced(src[0], src[1], src[2], src[3]);
  }

  lemma SextetsPlaced(a: bv16, b: bv16, c: bv16, d: bv16)
    ensures Join(Join(Join(Join(0, Place(Sextet(a), 0)), Place(Sextet(b), 1)), Place(Sextet(c), 2)), Place(Sextet(d), 3))
         == Sextets(a, b, c, d)
  {
    hide Sextet;
  }

  method DecodeBase64(src: array<bv16>, srcOffset: nat) returns (val: bv32)
    requires srcOffset + 4 <= src.Length
    ensures val == Sextets(src[srcOffset], src[srcOffset + 1], src[srcOffset + 2], src[srcOffset + 3])
  {
    hide Sextet, Sextets, Place, Join;
    ghost var chunk := src[srcOffset..srcOffset + 4];
    val := 0;
    for i := 0 to 4
      invariant val == Gathered(chunk, i)
    {
      var c := src[i + srcOffset];
      assert c == chunk[i];
      val := Join(val, Place(Sextet(c), i));
    }
    GatheredAll(chunk);
  }

  lemma SextetOfSymbol(v: bv32)
    requires v < 64
    ensures Sextet(Symbol(v)) == v && IsSymbol(Symbol(v)) && Symbol(v) < 256
  {
  }

  // Below 256 the arithmetic tells the 64 symbols from every other character.
  lemma SextetExact(c: bv16)
    requires c < 256
    ensures IsSymbol(c) ==> Sextet(c) < 64 && Symbol(Sextet(c)) == c
    ensures !IsSymbol(c) ==> Sextet(c) == 0xFFFF_FFFF
  {
  }

  // Every character, wide ones too, has a sextet or the value -1.
  lemma SextetRange(c: bv16)
    ensures Sextet(c) < 64 || Sextet(c) == 0xFFFF_FFFF
  {
    if c < 256 {
      SextetExact(c);
    }
  }

  function Byte(v: bv32, shift: bv8): bv8
    requires shift <= 24
  {
    ((v >> shift) & 0xFF) as bv8
  }

  // The sign bit of a decoded chunk tells a character that is not a symbol.
  predicate Negative(v: bv32) {
    v >> 31 != 0
  }

  // A chunk of characters below 256 decodes without a fault exactly when it is four symbols, and then the three
  // bytes encode to it.
  lemma ChunkSound(a: bv16, b: bv16, c: bv16, d: bv16)
    requires a < 256 && b < 256 && c < 256 && d < 256
    requires !Negative(Sextets(a, b, c, d))
    ensures var v := Sextets(a, b, c, d);
            Quad(Byte(v, 16), Byte(v, 8), Byte(v, 0)) == [a, b, c, d]
  {
    hide Sextet, Symbol, Combine, Byte, Negative, Word, Six;
    SextetExact(a);
    SextetExact(b);
    SextetExact(c);
    SextetExact(d);
    NoFault(Sextet(a), Sextet(b), Sextet(c), Sextet(d));
    Regroup(Sextet(a), Sextet(b), Sextet(c), Sextet(d));
  }

  lemma NoFault(a: bv32, b: bv32, c: bv32, d: bv32)
    requires (a < 64 || a == 0xFFFF_FFFF) && (b < 64 || b == 0xFFFF_FFFF)
    requires (c < 64 || c == 0xFFFF_FFFF) && (d < 64 || d == 0xFFFF_FFFF)
    ensures !Negative(Combine(a, b, c, d)) <==> a < 64 && b < 64 && c < 64 && d < 64
  {
  }

  lemma Regroup(a: bv32, b: bv32, c: bv32, d: bv32)
    requires a < 64 && b < 64 && c < 64 && d < 64
    ensures var v := Combine(a, b, c, d);
            var n := Word(Byte(v, 16), Byte(v, 8), Byte(v, 0));
            Six(n, 18) == a && Six(n, 12) == b && Six(n, 6) == c && Six(n, 0) == d
  {
  }

  lemma ChunkComplete(x: bv8, y: bv8, z: bv8)
    ensures var q := Quad(x, y, z);
            var v := Sextets(q[0], q[1], q[2], q[3]);
            !Negative(v) && Byte(v, 16) == x && Byte(v, 8) == y && Byte(v, 0) == z && Narrow(q)
  {
    hide Sextet, Symbol, Combine, Byte, Negative, Word, Six;
    var n := Word(x, y, z);
    SextetOfSymbol(Six(n, 18));
    SextetOfSymbol(Six(n, 12));
    SextetOfSymbol(Six(n, 6));
    SextetOfSymbol(Six(n, 0));
    Split(x, y, z);
  }

  lemma Split(x: bv8, y: bv8, z: bv8)
    ensures var n := Word(x, y, z);
            var v := Combine(Six(n, 18), Six(n, 12), Six(n, 6), Six(n, 0));
            !Negative(v) && Byte(v, 16) == x && Byte(v, 8) == y && Byte(v, 0) == z
  {
  }

  /* ---------- encoding ---------- */

  // The character of a sextet, computed without branches.
  function SymbolOf(v: bv8): bv16 {
    var x := Widen(v);
    ((x + 65 + (((25 - x) >> 8) & 6) - (((51 - x) >> 8) & 75) - (((61 - x) >> 8) & 15) + (((62 - x) >> 8) & 3)) & 0xFFFF) as bv16
  }

  method EncodeBase64(src: array<bv8>, srcOffset: nat, dest: array<bv16>, destOffset: nat)
    requires srcOffset + 3 <= src.Length && destOffset + 4 <= dest.Length
    modifies dest
    ensures dest[destOffset..destOffset + 4] == Quad(src[srcOffset], src[srcOffset + 1], src[srcOffset + 2])
    ensures forall k :: 0 <= k < destOffset || destOffset + 4 <= k < dest.Length ==> dest[k] == old(dest[k])
  {
    hide SymbolOf, Quad;
    var a, b, c := src[srcOffset], src[srcOffset + 1], src[srcOffset + 2];
    var input := InputSextets(a, b, c);
    SymbolsOfInput(a, b, c);
    for i := 0 to 4
      invariant forall k :: 0 <= k < i ==> dest[destOffset + k] == SymbolOf(input[k])
      invariant forall k :: 0 <= k < destOffset || destOffset + i <= k < dest.Length ==> dest[k] == old(dest[k])
    {
      dest[i + destOffset] := SymbolOf(input[i]);
    }
    assert dest[destOffset..destOffset + 4]
        == [dest[destOffset], dest[destOffset + 1], dest[destOffset + 2], dest[destOffset + 3]];
  }

  // The four sextets of three bytes, taken from ints that keep the bytes' signs.
  function InputSextets(a: bv8, b: bv8, c: bv8): (r: seq<bv8>)
    ensures |r| == 4
  {
    [((Widen(a) >> 2) & 63) as bv8,
     (((Widen(a) << 4) | ((Widen(b) & 0xFF) >> 4)) & 63) as bv8,
     (((Widen(b) << 2) | ((Widen(c) & 0xFF) >> 6)) & 63) as bv8,
     (Widen(c) & 63) as bv8]
  }

  lemma SymbolsOfInput(a: bv8, b: bv8, c: bv8)
    ensures var s := InputSextets(a, b, c);
            Quad(a, b, c) == [SymbolOf(s[0]), SymbolOf(s[1]), SymbolOf(s[2]), SymbolOf(s[3])]
  {
    hide SymbolOf, Symbol, Word, Six;
    InputIsQuad(a, b, c);
    var s := InputSextets(a, b, c);
    SymbolExact(s[0]);
    SymbolExact(s[1]);
    SymbolExact(s[2]);
    SymbolExact(s[3]);
  }

  lemma InputIsQuad(a: bv8, b: bv8, c: bv8)
    ensures var n := Word(a, b, c);
            var s := InputSextets(a, b, c);
            && s[0] as bv32 == Six(n, 18) && s[1] as bv32 == Six(n, 12)
            && s[2] as bv32 == Six(n, 6) && s[3] as bv32 == Six(n, 0)
  {
  }

  lemma SymbolExact(v: bv8)
    requires v < 64
    ensures SymbolOf(v) == Symbol(v as bv32)
  {
  }

  /* ---------- whole keys in base64 ---------- */

  const LETTER_A: bv16 := 65

  function ChunkAt(str: seq<bv16>, j: nat): bv32
    requires 4 * j + 4 <= |str|
  {
    Sextets(str[4 * j], str[4 * j + 1], str[4 * j + 2], str[4 * j + 3])
  }

  function EndSegment(str: seq<bv16>): bv32
    requires |str| == 44
  {
    Sextets(str[40], str[41], str[42], LETTER_A)
  }

  // No chunk is faulty and the four bits that the last symbol has to spare are zero.
  predicate Accepted(str: seq<bv16>)
    requires |str| == 44
  {
    && (forall j :: 0 <= j < 10 ==> !Negative(ChunkAt(str, j)))
    && !Negative(EndSegment(str)) && Byte(EndSegment(str), 0) == 0
  }

  // Each of the 43 characters before the padding has a sextet, and the last has its two low bits clear.
  predicate Readable(str: seq<bv16>)
    requires |str| == 44
  {
    (forall k :: 0 <= k < 43 ==> Sextet(str[k]) < 64) && Sextet(str[42]) & 3 == 0
  }

  // Acceptance character by character, for all characters of 16 bits.
  lemma AcceptedExact(str: seq<bv16>)
    requires |str| == 44
    ensures Accepted(str) <==> Readable(str)
  {
    hide Sextet, ChunkAt, EndSegment, Negative, Byte, ChunkReadable;
    EndReadable(str);
    forall j | 0 <= j < 10
      ensures !Negative(ChunkAt(str, j)) <==> ChunkReadable(str, j)
    {
      ChunkFaultAt(str, j);
    }
    ChunksReadable(str);
  }

  // The same of the four characters of a chunk.
  predicate ChunkReadable(str: seq<bv16>, j: nat)
    requires 4 * j + 4 <= |str|
  {
    Sextet(str[4 * j]) < 64 && Sextet(str[4 * j + 1]) < 64 && Sextet(str[4 * j + 2]) < 64 && Sextet(str[4 * j + 3]) < 64
  }

  lemma ChunksReadable(str: seq<bv16>)
    requires |str| == 44
    ensures (forall j :: 0 <= j < 10 ==> ChunkReadable(str, j)) <==> forall k :: 0 <= k < 40 ==> Sextet(str[k]) < 64
  {
    hide Sextet;
    if forall j :: 0 <= j < 10 ==> ChunkReadable(str, j) {
      forall k | 0 <= k < 40
        ensures Sextet(str[k]) < 64
      {
        assert ChunkReadable(str, k / 4);
        assert k == 4 * (k / 4) || k == 4 * (k / 4) + 1 || k == 4 * (k / 4) + 2 || k == 4 * (k / 4) + 3;
      }
    }
  }

  lemma ChunkFaultAt(str: seq<bv16>, j: nat)
    requires 4 * j + 4 <= |str|
    ensures !Negative(ChunkAt(str, j)) <==> ChunkReadable(str, j)
  {
    hide Sextet, Sextets, Negative;
    ChunkFault(str[4 * j], str[4 * j + 1], str[4 * j + 2], str[4 * j + 3]);
  }

  lemma EndReadable(str: seq<bv16>)
    requires |str| == 44
    ensures !Negative(EndSegment(str)) && Byte(EndSegment(str), 0) == 0
       <==> Sextet(str[40]) < 64 && Sextet(str[41]) < 64 && Sextet(str[42]) < 64 && Sextet(str[42]) & 3 == 0
  {
    hide Sextet, Sextets, Negative, Byte;
    ChunkFault(str[40], str[41], str[42], LETTER_A);
    EndFault(str[40], str[41], str[42]);
  }

  lemma ChunkFault(a: bv16, b: bv16, c: bv16, d: bv16)
    ensures !Negative(Sextets(a, b, c, d)) <==> Sextet(a) < 64 && Sextet(b) < 64 && Sextet(c) < 64 && Sextet(d) < 64
  {
    hide Sextet, Combine, Negative;
    SextetRange(a);
    SextetRange(b);
    SextetRange(c);
    SextetRange(d);
    NoFault(Sextet(a), Sextet(b), Sextet(c), Sextet(d));
  }

  lemma EndFault(a: bv16, b: bv16, c: bv16)
    ensures Sextet(LETTER_A) == 0
    ensures Byte(Sextets(a, b, c, LETTER_A), 0) == 0 <==> Sextet(c) & 3 == 0
  {
    assert Sextet(LETTER_A) == 0;
    SpareBits(Sextet(a), Sextet(b), Sextet(c));
  }

  lemma SpareBits(a: bv32, b: bv32, c: bv32)
    ensures Byte(Combine(a, b, c, 0), 0) == 0 <==> c & 3 == 0
  {
  }

  ghost predicate DecodesTo(str: seq<bv16>, bytes: seq<bv8>) {
    && |str| == 44 && |bytes| == 32
    && (forall j :: 0 <= j < 10 ==> Three(bytes, j, ChunkAt(str, j)))
    && bytes[30] == Byte(EndSegment(str), 16) && bytes[31] == Byte(EndSegment(str), 8)
  }

  ghost predicate Three(bytes: seq<bv8>, j: nat, v: bv32)
    requires 3 * j + 3 <= |bytes|
  {
    bytes[3 * j] == Byte(v, 16) && bytes[3 * j + 1] == Byte(v, 8) && bytes[3 * j + 2] == Byte(v, 0)
  }

  method ToBase64(key: Key) returns (str: seq<bv16>)
    ensures str == Encode(key)
  {
    hide Quad, Encode;
    var src := new bv8[32](i requires 0 <= i < 32 => key[i]);
    var output := new bv16[44];
    EncodeChunks(src, output);
    assert src[..] == key;
    var endSegment := new bv8[3];
    endSegment[0], endSegment[1], endSegment[2] := src[30], src[31], 0;
    ghost var done := output[..40];
    EncodeBase64(endSegment, 0, output, 40);
    ghost var last := output[40..44];
    output[43] := PAD;
    assert output[..] == done + (last[..3] + [PAD]);
    EncodeEnd(key);
    str := output[..];
  }

  // The loop of toBase64 over the ten whole chunks.
  method EncodeChunks(src: array<bv8>, output: array<bv16>)
    requires src.Length == 32 && output.Length == 44
    modifies output
    ensures output[..40] == Encode(src[..30])
  {
    hide Quad;
    ghost var key := src[..];
    for i := 0 to 10
      invariant src[..] == key
      invariant output[..4 * i] == Encode(key[..3 * i])
    {
      ghost var done := output[..4 * i];
      EncodeBase64(src, i * 3, output, i * 4);
      assert output[..4 * (i + 1)] == done + output[4 * i..4 * i + 4];
      EncodeThree(key, i);
    }
    assert key[..30] == src[..30];
  }

  lemma EncodeThree(key: seq<bv8>, i: nat)
    requires 3 * i + 3 <= |key|
    ensures Encode(key[..3 * i + 3]) == Encode(key[..3 * i]) + Quad(key[3 * i], key[3 * i + 1], key[3 * i + 2])
    ensures |Encode(key[..3 * i])| == 4 * i
  {
    hide Quad;
    var three := key[3 * i..3 * i + 3];
    assert key[..3 * i + 3] == key[..3 * i] + three;
    EncodeAppend(key[..3 * i], three);
    assert three[3..] == [];
    assert Encode(three) == Quad(three[0], three[1], three[2]) + Encode(three[3..]);
  }

  lemma EncodeEnd(key: Key)
    ensures Encode(key) == Encode(key[..30]) + (Quad(key[30], key[31], 0)[..3] + [PAD])
    ensures |Encode(key)| == 44 && |Encode(key[..30])| == 40
  {
    hide Quad;
    assert key == key[..30] + key[30..];
    EncodeAppend(key[..30], key[30..]);
  }

  method FromBase64(str: seq<bv16>) returns (r: Result<Key>)
    ensures |str| != 44 || str[43] != PAD ==> r == KeyFormatException(BASE64, LENGTH)
    ensures |str| == 44 && str[43] == PAD ==>
              && (r.Ok? <==> Accepted(str))
              && (!r.Ok? ==> r == KeyFormatException(BASE64, CONTENTS))
    ensures r.Ok? <==> |str| == 44 && str[43] == PAD && Readable(str)
    ensures r.Ok? ==> DecodesTo(str, r.value)
    ensures r.Ok? ==> (Encode(r.value) == str <==> Narrow(str))
    ensures !r.Ok? ==> forall k: Key :: Encode(k) != str
  {
    hide Sextets, Negative, Byte, Encode, Sextet, Readable;
    if |str| == 44 {
      AcceptedExact(str);
    }
    forall k: Key ensures |Encode(k)| == 44 && Encode(k)[43] == PAD && Accepted(Encode(k)) {
      Complete(k);
    }
    if |str| != 44 || str[43] != PAD {
      return KeyFormatException(BASE64, LENGTH);
    }
    var input := new bv16[44](i requires 0 <= i < 44 => str[i]);
    var key := new bv8[32];
    assert input[..] == str;
    var ret := DecodeChunks(input, key);
    assert input[..] == str;
    ret := DecodeEnd(input, key, ret);
    if ret != 0 {
      return KeyFormatException(BASE64, CONTENTS);
    }
    ghost var bytes := key[..];
    if Narrow(str) {
      Sound(str, bytes);
    } else {
      Complete(bytes);
    }
    r := Ok(key[..]);
  }

  // The loop of fromBase64 over the ten whole chunks.
  method DecodeChunks(input: array<bv16>, key: array<bv8>) returns (ret: bv32)
    requires input.Length == 44 && key.Length == 32
    modifies key
    ensures ret == 0 <==> forall j :: 0 <= j < 10 ==> !Negative(ChunkAt(input[..], j))
    ensures forall j :: 0 <= j < 10 ==> Three(key[..], j, ChunkAt(input[..], j))
  {
    hide Sextets, Negative, Byte, Flag;
    ghost var str := input[..];
    ret := 0;
    assert Flag(0, 0) == 0 by { RaiseFlag(0, 0); NotNegative(); }
    for i := 0 to 10
      invariant input[..] == str
      invariant ret == 0 <==> forall j :: 0 <= j < i ==> !Negative(ChunkAt(str, j))
      invariant forall j :: 0 <= j < i ==> Three(key[..], j, ChunkAt(str, j))
    {
      ghost var before := key[..];
      var val := DecodeBase64(input, i * 4);
      assert val == ChunkAt(str, i);
      RaiseFlag(ret, val);
      ret := Flag(ret, val);
      key[i * 3] := Byte(val, 16);
      key[i * 3 + 1] := Byte(val, 8);
      key[i * 3 + 2] := Byte(val, 0);
      forall j | 0 <= j <= i ensures Three(key[..], j, ChunkAt(str, j)) {
        if j < i {
          assert Three(before, j, ChunkAt(str, j));
        }
      }
    }
  }

  lemma NotNegative()
    ensures !Negative(0)
  {
  }

  // The end of fromBase64: the last two bytes, from three symbols.
  method DecodeEnd(input: array<bv16>, key: array<bv8>, ret: bv32) returns (ret': bv32)
    requires input.Length == 44 && key.Length == 32
    modifies key
    ensures ret' == 0 <==> ret == 0 && !Negative(EndSegment(input[..])) && Byte(EndSegment(input[..]), 0) == 0
    ensures key[..30] == old(key[..30])
    ensures key[30] == Byte(EndSegment(input[..]), 16) && key[31] == Byte(EndSegment(input[..]), 8)
  {
    hide Sextets, Negative, Byte, FlagEnd, Flag;
    var endSegment := new bv16[4];
    endSegment[0], endSegment[1], endSegment[2], endSegment[3] := input[40], input[41], input[42], LETTER_A;
    var val := DecodeBase64(endSegment, 0);
    assert val == EndSegment(input[..]);
    RaiseFlag(ret, val);
    ret' := FlagEnd(ret, val);
    key[30] := Byte(val, 16);
    key[31] := Byte(val, 8);
  }

  // ret |= val >>> 31, and the same with the low byte of val.
  function Flag(ret: bv32, val: bv32): bv32 {
    ret | (val >> 31)
  }

  function FlagEnd(ret: bv32, val: bv32): bv32 {
    ret | (val >> 31) | (val & 0xFF)
  }

  lemma RaiseFlag(ret: bv32, val: bv32)
    ensures Flag(ret, val) == 0 <==> ret == 0 && !Negative(val)
    ensures FlagEnd(ret, val) == 0 <==> ret == 0 && !Negative(val) && Byte(val, 0) == 0
  {
  }

  // What fromBase64 accepts below 256 is the encoding of what it returns.
  lemma Sound(str: seq<bv16>, bytes: seq<bv8>)
    requires |str| == 44 && str[43] == PAD && Narrow(str)
    requires Accepted(str) && DecodesTo(str, bytes)
    ensures Encode(bytes) == str
  {
    hide Quad, Sextets, Negative, Byte, Encode;
    SoundChunks(str, bytes, 10);
    EncodeEnd(bytes);
    var v := EndSegment(str);
    ChunkSound(str[40], str[41], str[42], LETTER_A);
    assert Quad(bytes[30], bytes[31], 0) == [str[40], str[41], str[42], LETTER_A];
    assert str == str[..40] + ([str[40], str[41], str[42]] + [PAD]);
  }

  lemma {:induction false} SoundChunks(str: seq<bv16>, bytes: seq<bv8>, n: nat)
    requires |str| == 44 && Narrow(str) && n <= 10
    requires Accepted(str) && DecodesTo(str, bytes)
    ensures Encode(bytes[..3 * n]) == str[..4 * n]
  {
    hide Quad, Sextets, Negative, Byte, Encode, Three;
    if n == 0 {
      NothingEncoded();
      assert bytes[..0] == [] && str[..0] == [];
    } else {
      var j := n - 1;
      SoundChunks(str, bytes, j);
      EncodeThree(bytes, j);
      assert !Negative(ChunkAt(str, j)) && Three(bytes, j, ChunkAt(str, j));
      SoundChunk(str, bytes, j);
      assert str[..4 * n] == str[..4 * j] + str[4 * j..4 * j + 4];
    }
  }

  lemma NothingEncoded()
    ensures Encode([]) == []
  {
  }

  lemma SoundChunk(str: seq<bv16>, bytes: seq<bv8>, j: nat)
    requires Narrow(str) && 4 * j + 4 <= |str| && 3 * j + 3 <= |bytes|
    requires !Negative(ChunkAt(str, j)) && Three(bytes, j, ChunkAt(str, j))
    ensures Quad(bytes[3 * j], bytes[3 * j + 1], bytes[3 * j + 2]) == str[4 * j..4 * j + 4]
  {
    hide Quad, Sextets, Negative, Byte;
    ChunkSound(str[4 * j], str[4 * j + 1], str[4 * j + 2], str[4 * j + 3]);
  }

  // fromBase64 accepts every encoding and gives the key back.
  lemma Complete(key: Key)
    ensures var str := Encode(key);
            |str| == 44 && str[43] == PAD && Narrow(str) && Accepted(str) && DecodesTo(str, key)
  {
    hide Quad, Sextets, Negative, Byte, Encode, Sextet;
    var str := Encode(key);
    EncodeEnd(key);
    forall j | 0 <= j < 10
      ensures !Negative(ChunkAt(str, j)) && Three(key, j, ChunkAt(str, j))
      ensures Narrow(str[4 * j..4 * j + 4])
    {
      ChunkOf(key, j);
      ChunkComplete(key[3 * j], key[3 * j + 1], key[3 * j + 2]);
    }
    var q := Quad(key[30], key[31], 0);
    ChunkComplete(key[30], key[31], 0);
    EndIsA(key[30], key[31]);
    assert str[40..43] == q[..3] && str[43] == PAD;
    forall k | 0 <= k < 44 ensures str[k] < 256 {
      if k < 40 {
        assert str[k] == str[4 * (k / 4)..4 * (k / 4) + 4][k % 4];
      } else if k < 43 {
        assert str[k] == q[k - 40];
      }
    }
  }

  lemma ChunkOf(key: Key, j: nat)
    requires j < 10
    ensures |Encode(key)| == 44
    ensures Encode(key)[4 * j..4 * j + 4] == Quad(key[3 * j], key[3 * j + 1], key[3 * j + 2])
  {
    hide Quad;
    EncodeEnd(key);
    EncodeThree(key, j);
    var head, tail := key[..3 * j + 3], key[3 * j + 3..];
    assert key == head + tail;
    EncodeAppend(head, tail);
  }

  lemma EndIsA(a: bv8, b: bv8)
    ensures Quad(a, b, 0)[3] == LETTER_A
  {
  }

  // fromBase64(toBase64(k)) == k
  method RoundTrip(key: Key) returns (r: Result<Key>)
    ensures r == Ok(key)
  {
    var str := ToBase64(key);
    Complete(key);
    r := FromBase64(str);
    DecodesToOne(str, key, r.value);
  }

  lemma DecodesToOne(str: seq<bv16>, a: seq<bv8>, b: seq<bv8>)
    requires DecodesTo(str, a) && DecodesTo(str, b)
    ensures a == b
  {
    hide Sextets, Byte;
    forall k | 0 <= k < 32 ensures a[k] == b[k] {
      if k < 30 {
        var j := k / 3;
        assert Three(a, j, ChunkAt(str, j)) && Three(b, j, ChunkAt(str, j));
        assert k == 3 * j || k == 3 * j + 1 || k == 3 * j + 2;
      }
    }
  }

  // The bytes that an accepted string decodes to.
  function Decoded(str: seq<bv16>): (r: seq<bv8>)
    requires |str| == 44
    ensures |r| == 32
  {
    seq(32, i requires 0 <= i < 32 =>
      Byte(if i < 30 then ChunkAt(str, i / 3) else EndSegment(str), if i % 3 == 0 then 16 else if i % 3 == 1 then 8 else 0))
  }

  lemma DecodedIsOne(str: seq<bv16>)
    requires |str| == 44
    ensures DecodesTo(str, Decoded(str))
  {
    hide Sextets, Byte;
    forall j | 0 <= j < 10
      ensures Three(Decoded(str), j, ChunkAt(str, j))
    {
      assert (3 * j) / 3 == j && (3 * j + 1) / 3 == j && (3 * j + 2) / 3 == j;
    }
  }

  // The encodings of RFC 4648 are exactly the accepted strings of characters below 256. So fromBase64 departs from
  // it exactly at the strings that are readable and hold a wider character.
  lemma DeparturesExact(str: seq<bv16>)
    ensures (exists key: Key :: Encode(key) == str) <==> |str| == 44 && str[43] == PAD && Readable(str) && Narrow(str)
  {
    hide Encode, Sextet, DecodesTo, Accepted, Readable, Decoded;
    if |str| == 44 {
      AcceptedExact(str);
      if str[43] == PAD && Readable(str) && Narrow(str) {
        DecodedIsOne(str);
        Sound(str, Decoded(str));
      }
    }
    if key: Key :| Encode(key) == str {
      Complete(key);
    }
  }

  // Above 256 the range tests are not exact: a string with the character U+022B where an 'A' belongs is accepted.
  lemma WideCharacterAccepted(key: Key)
    requires key[0] < 4
    ensures var str := Encode(key)[0 := 0x22B];
            |str| == 44 && str[43] == PAD && Accepted(str) && DecodesTo(str, key) && Encode(key) != str
  {
    hide Quad, Sextets, Sextet, Negative, Byte, Encode;
    Complete(key);
    ChunkOf(key, 0);
    WideSextet(key[0], key[1], key[2]);
    var good := Encode(key);
    var str := good[0 := 0x22B];
    assert good[0] == good[0..4][0];
    SameSextet(0x22B, LETTER_A, str[1], str[2], str[3]);
    assert ChunkAt(str, 0) == ChunkAt(good, 0);
    assert EndSegment(str) == EndSegment(good);
    forall j | 0 <= j < 10 ensures ChunkAt(str, j) == ChunkAt(good, j) {
    }
  }

  lemma SameSextet(a: bv16, a': bv16, b: bv16, c: bv16, d: bv16)
    requires Sextet(a) == Sextet(a')
    ensures Sextets(a, b, c, d) == Sextets(a', b, c, d)
  {
    hide Sextet, Combine;
  }

  lemma WideSextet(a: bv8, b: bv8, c: bv8)
    requires a < 4
    ensures Quad(a, b, c)[0] == LETTER_A && Sextet(LETTER_A) == 0 == Sextet(0x22B)
  {
  }

  /* ---------- hexadecimal: RFC 4648, section 8 ---------- */

  predicate IsHexDigit(c: bv16) {
    48 <= c <= 57 || 65 <= c <= 70 || 97 <= c <= 102
  }

  function LowerCase(c: bv16): bv16 {
    if 65 <= c <= 90 then c + 32 else c
  }

  function LowerCased(s: seq<bv16>): seq<bv16> {
    seq(|s|, i requires 0 <= i < |s| => LowerCase(s[i]))
  }

  function HexDigit(v: bv8): bv16
    requires v < 16
  {
    if v < 10 then 48 + v as bv16 else 87 + v as bv16
  }

  function HexPair(b: bv8): seq<bv16> {
    [HexDigit(b >> 4), HexDigit(b & 15)]
  }

  function HexEncode(bytes: seq<bv8>): (r: seq<bv16>)
    ensures |r| == 2 * |bytes|
    ensures forall i :: 0 <= i < |bytes| ==> r[2 * i..2 * i + 2] == HexPair(bytes[i])
  {
    if |bytes| == 0 then []
    else
      var n := |bytes| - 1;
      HexEncode(bytes[..n]) + HexPair(bytes[n])
  }

  // Arithmetic shift right.
  function Sar(x: bv32, k: bv8): bv32
    requires k < 32
  {
    if x & 0x8000_0000 == 0 then x >> k else !((!x) >> k)
  }

  // The character of a half byte, computed without branches.
  function HexCharacter(x: bv32): bv16 {
    ((87 + (x & 0xF) + (Sar((x & 0xF) - 10, 8) & !38)) & 0xFFFF) as bv16
  }

  lemma HexCharacterExact(b: bv8)
    ensures [HexCharacter(Sar(Widen(b), 4)), HexCharacter(Widen(b))] == HexPair(b)
  {
  }

  method ToHex(key: Key) returns (str: seq<bv16>)
    ensures str == HexEncode(key)
  {
    hide HexCharacter, HexPair, Widen, Sar;
    var output := new bv16[64];
    for i := 0 to 32
      invariant output[..2 * i] == HexEncode(key[..i])
    {
      ghost var done := output[..2 * i];
      HexCharacterExact(key[i]);
      output[i * 2] := HexCharacter(Sar(Widen(key[i]), 4));
      output[i * 2 + 1] := HexCharacter(Widen(key[i]));
      assert output[..2 * (i + 1)] == done + HexPair(key[i]);
      assert key[..i + 1][..i] == key[..i];
    }
    assert key[..32] == key;
    str := output[..];
  }

  function Numeric(c: bv32): bv32 {
    (((c ^ 48) - 10) >> 8) & 0xFF
  }

  function Alphabetic(c: bv32): bv32 {
    var alpha := (c & !32) - 55;
    (((alpha - 10) ^ (alpha - 16)) >> 8) & 0xFF
  }

  // Zero for a character taken as a digit.
  function HexFault(c: bv16): bv32 {
    var c := c as bv32;
    ((Numeric(c) | Alphabetic(c)) - 1) >> 8
  }

  function HexValue(c: bv16): bv32 {
    var c := c as bv32;
    (Numeric(c) & (c ^ 48)) | (Alphabetic(c) & ((c & !32) - 55))
  }

  function HexByte(a: bv16, b: bv16): bv8 {
    (((HexValue(a) * 16) | HexValue(b)) & 0xFF) as bv8
  }

  // Which characters pass the test: the hexadecimal digits, and every character from U+0100 up but ten.
  lemma HexFaultExact(c: bv16)
    ensures HexFault(c) == 0 <==> IsHexDigit(c) || (c >= 256 && !(0x130 <= c <= 0x139))
  {
  }

  lemma HexValueExact(c: bv16)
    requires IsHexDigit(c)
    ensures HexValue(c) < 16 && HexDigit(HexValue(c) as bv8) == LowerCase(c)
  {
  }

  lemma HexValueOfDigit(v: bv8)
    requires v < 16
    ensures IsHexDigit(HexDigit(v)) && HexValue(HexDigit(v)) == v as bv32 && LowerCase(HexDigit(v)) == HexDigit(v)
  {
  }

  lemma HexPairOfByte(a: bv16, b: bv16)
    requires IsHexDigit(a) && IsHexDigit(b)
    ensures HexPair(HexByte(a, b)) == [LowerCase(a), LowerCase(b)]
  {
    hide HexValue, HexDigit;
    HexValueExact(a);
    HexValueExact(b);
    Halves(HexValue(a), HexValue(b));
  }

  lemma Halves(x: bv32, y: bv32)
    requires x < 16 && y < 16
    ensures var b := (((x * 16) | y) & 0xFF) as bv8; b >> 4 == x as bv8 && b & 15 == y as bv8
  {
  }

  lemma HexByteOfPair(b: bv8)
    ensures var p := HexPair(b); IsHexDigit(p[0]) && IsHexDigit(p[1]) && HexByte(p[0], p[1]) == b
  {
    hide HexValue, HexDigit;
    HexValueOfDigit(b >> 4);
    HexValueOfDigit(b & 15);
    JoinHalves(b);
  }

  lemma JoinHalves(b: bv8)
    ensures ((((b >> 4) as bv32 * 16) | ((b & 15) as bv32)) & 0xFF) as bv8 == b
  {
  }

  // The characters that fromHex lets pass.
  predicate HexPasses(c: bv16) {
    HexFault(c) == 0
  }

  method FromHex(str: seq<bv16>) returns (r: Result<Key>)
    ensures |str| != 64 ==> r == KeyFormatException(HEX, LENGTH)
    ensures |str| == 64 ==>
              && (r.Ok? <==> forall k :: 0 <= k < 64 ==> HexPasses(str[k]))
              && (!r.Ok? ==> r == KeyFormatException(HEX, CONTENTS))
    ensures r.Ok? <==> |str| == 64 && forall k :: 0 <= k < 64 ==> IsHexDigit(str[k]) || (str[k] >= 256 && !(0x130 <= str[k] <= 0x139))
    ensures r.Ok? ==> forall i :: 0 <= i < 32 ==> r.value[i] == HexByte(str[2 * i], str[2 * i + 1])
    ensures r.Ok? ==> (HexEncode(r.value) == LowerCased(str) <==> Narrow(str))
  {
    hide HexFault, HexValue, HexByte, HexEncode, IsHexDigit, LowerCased;
    forall k | 0 <= k < |str|
      ensures HexPasses(str[k]) <==> IsHexDigit(str[k]) || (str[k] >= 256 && !(0x130 <= str[k] <= 0x139))
    {
      HexFaultExact(str[k]);
    }
    if |str| != 64 {
      return KeyFormatException(HEX, LENGTH);
    }
    var key := new bv8[32];
    var ret: bv32 := 0;
    for i := 0 to 32
      invariant ret == 0 <==> forall k :: 0 <= k < 2 * i ==> HexPasses(str[k])
      invariant forall j :: 0 <= j < i ==> key[j] == HexByte(str[2 * j], str[2 * j + 1])
    {
      OrZero(ret, HexFault(str[i * 2]));
      ret := Or(ret, HexFault(str[i * 2]));
      OrZero(ret, HexFault(str[i * 2 + 1]));
      ret := Or(ret, HexFault(str[i * 2 + 1]));
      key[i] := HexByte(str[i * 2], str[i * 2 + 1]);
    }
    if ret != 0 {
      return KeyFormatException(HEX, CONTENTS);
    }
    HexPrints(str, key[..]);
    r := Ok(key[..]);
  }

  // What fromHex accepts prints as itself in lower case exactly where it holds no wide character.
  lemma HexPrints(str: seq<bv16>, bytes: seq<bv8>)
    requires |str| == 64 && |bytes| == 32 && forall k :: 0 <= k < 64 ==> HexPasses(str[k])
    requires forall i :: 0 <= i < 32 ==> bytes[i] == HexByte(str[2 * i], str[2 * i + 1])
    ensures HexEncode(bytes) == LowerCased(str) <==> Narrow(str)
  {
    hide HexFault, HexByte, HexPair, LowerCase, IsHexDigit;
    var printed := HexEncode(bytes);
    forall k | 0 <= k < 64
      ensures IsHexDigit(str[k]) ==> IsHexDigit(str[2 * (k / 2)]) && IsHexDigit(str[2 * (k / 2) + 1]) ==> printed[k] == LowerCase(str[k])
      ensures printed[k] < 256
      ensures LowerCase(str[k]) < 256 <==> str[k] < 256
      ensures IsHexDigit(str[k]) <==> str[k] < 256
    {
      var i := k / 2;
      HexFaultExact(str[k]);
      LowerNarrow(str[k]);
      HexPairNarrow(bytes[i]);
      if IsHexDigit(str[2 * i]) && IsHexDigit(str[2 * i + 1]) {
        HexPairOfByte(str[2 * i], str[2 * i + 1]);
      }
      assert printed[2 * i..2 * i + 2] == HexPair(bytes[i]);
      assert printed[k] == printed[2 * i..2 * i + 2][k - 2 * i];
    }
    if Narrow(str) {
      forall k | 0 <= k < 64
        ensures printed[k] == LowerCase(str[k])
      {
        assert IsHexDigit(str[2 * (k / 2)]) && IsHexDigit(str[2 * (k / 2) + 1]) && IsHexDigit(str[k]);
      }
      assert printed == LowerCased(str);
    } else {
      var k :| 0 <= k < 64 && str[k] >= 256;
      assert printed[k] != LowerCased(str)[k];
    }
  }

  lemma LowerNarrow(c: bv16)
    ensures LowerCase(c) < 256 <==> c < 256
    ensures IsHexDigit(c) ==> c < 256
  {
  }

  lemma HexPairNarrow(b: bv8)
    ensures |HexPair(b)| == 2 && HexPair(b)[0] < 256 && HexPair(b)[1] < 256
  {
  }

  function Or(a: bv32, b: bv32): bv32 {
    a | b
  }

  lemma OrZero(a: bv32, b: bv32)
    ensures Or(a, b) == 0 <==> a == 0 && b == 0
  {
  }

  // For characters below 256, fromHex accepts exactly 64 hexadecimal digits. Printing what it returns gives the
  // string in lower case, unless it holds a wider character.
  method ParseThenPrint(str: seq<bv16>) returns (r: Result<Key>, printed: seq<bv16>)
    ensures Narrow(str) ==> (r.Ok? <==> |str| == 64 && forall k :: 0 <= k < 64 ==> IsHexDigit(str[k]))
    ensures r.Ok? ==> (printed == LowerCased(str) <==> Narrow(str))
  {
    hide IsHexDigit, HexByte, LowerCased;
    r := FromHex(str);
    printed := [];
    if r.Ok? {
      printed := ToHex(r.value);
    }
  }

  // fromHex(toHex(k)) == k
  method HexRoundTrip(key: Key) returns (r: Result<Key>)
    ensures r == Ok(key)
  {
    hide HexFault, IsHexDigit, HexByte, HexPair;
    var str := ToHex(key);
    forall i | 0 <= i < 32
      ensures HexPasses(str[2 * i]) && HexPasses(str[2 * i + 1]) && HexByte(str[2 * i], str[2 * i + 1]) == key[i]
    {
      HexByteOfPair(key[i]);
      assert str[2 * i..2 * i + 2] == HexPair(key[i]);
      assert str[2 * i] == str[2 * i..2 * i + 2][0] && str[2 * i + 1] == str[2 * i..2 * i + 2][1];
      HexFaultExact(str[2 * i]);
      HexFaultExact(str[2 * i + 1]);
    }
    forall k | 0 <= k < 64 ensures HexPasses(str[k]) {
      assert k == 2 * (k / 2) || k == 2 * (k / 2) + 1;
    }
    r := FromHex(str);
    assert r.value == key;
  }

  // So above 256 the claim fails: sixty-four times the character U+0100 is accepted.
  lemma WideHexAccepted(str: seq<bv16>)
    requires |str| == 64 && forall k :: 0 <= k < 64 ==> str[k] == 0x100
    ensures forall k :: 0 <= k < 64 ==> HexPasses(str[k]) && !IsHexDigit(str[k])
  {
    HexFaultExact(0x100);
  }
}
