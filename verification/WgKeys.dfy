/**
  The key leaf of a configuration is the base64 codec of keys: what RoundTrip assumes of the texts of keys holds of
  it, and of exactly the encodings.
 */
module WgKeys {
  import opened Options
  import opened WgText
  import opened WgConfig
  import R = WgRoundTrip
  import K = KeyCodec

  // A character of a text as UTF-16 units.
  function UnitsOf(c: char): seq<bv16> {
    var n := c as int;
    if n < 0x10000 then
      [n as bv16]
    else
      [(0xD800 + (n - 0x10000) / 0x400) as bv16, (0xDC00 + (n - 0x10000) % 0x400) as bv16]
  }

  function Units(s: string): seq<bv16> {
    if s == "" then [] else UnitsOf(s[0]) + Units(s[1..])
  }

  function CharOf(u: bv16): char
    requires u < 256
  {
    u as int as char
  }

  // The text of units below 256.
  function TextOf(units: seq<bv16>): string
    requires K.Narrow(units)
  {
    seq(|units|, i requires 0 <= i < |units| => CharOf(units[i]))
  }

  // toBase64, as a text.
  function KeyText(key: K.Key): string {
    K.Complete(key);
    TextOf(K.Encode(key))
  }

  // fromBase64, and the text of the key that it returns.
  function KeyLeaf(s: string): Option<string> {
    var str := Units(s);
    if |str| == 44 && str[43] == K.PAD && K.Readable(str) then Some(KeyText(K.Decoded(str))) else None
  }

  lemma CharUnit(u: bv16)
    requires u < 256
    ensures UnitsOf(CharOf(u)) == [u]
  {
  }

  // The characters of base64 are solid.
  lemma SymbolSolid(u: bv16)
    requires K.IsSymbol(u) || u == K.PAD
    ensures u < 256
    ensures CharOf(u) > ' ' && CharOf(u) != ',' && CharOf(u) != '#'
  {
  }

  lemma {:induction false} UnitsOfText(units: seq<bv16>)
    requires K.Narrow(units)
    ensures Units(TextOf(units)) == units
  {
    hide UnitsOf, CharOf;
    if units != [] {
      CharUnit(units[0]);
      UnitsOfText(units[1..]);
      assert TextOf(units)[1..] == TextOf(units[1..]);
    }
  }

  lemma KeyTextSolid(key: K.Key)
    ensures Solid(KeyText(key))
  {
    hide K.Encode, K.DecodesTo, K.Accepted, K.Sextet, K.IsSymbol, CharOf;
    var str := K.Encode(key);
    K.Complete(key);
    K.AcceptedExact(str);
    forall k | 0 <= k < 44
      ensures str[k] < 256 && CharOf(str[k]) > ' ' && CharOf(str[k]) != ',' && CharOf(str[k]) != '#'
    {
      if k < 43 {
        K.SextetExact(str[k]);
        assert K.Sextet(str[k]) < 64;
      }
      SymbolSolid(str[k]);
    }
  }

  ghost predicate EncodesKey(text: string) {
    exists key: K.Key :: text == KeyText(key)
  }

  // A text is good for the leaf, that is solid and parsed to itself, if and only if it is the encoding of a key.
  lemma GoodKeysExact(text: string)
    ensures R.GoodText(KeyLeaf, text) <==> EncodesKey(text)
  {
    hide K.Encode, K.DecodesTo, K.Accepted, K.Readable, K.Decoded, Units;
    if KeyLeaf(text) == Some(text) {
      assert text == KeyText(K.Decoded(Units(text)));
    }
    if key: K.Key :| text == KeyText(key) {
      var str := K.Encode(key);
      K.Complete(key);
      K.AcceptedExact(str);
      UnitsOfText(str);
      K.DecodedIsOne(str);
      K.DecodesToOne(str, key, K.Decoded(str));
      KeyTextSolid(key);
    }
  }

  // The leaf is what fromBase64 makes of a text and toBase64 of the key.
  method ReadKey(s: string) returns (r: Option<string>)
    ensures r == KeyLeaf(s)
  {
    hide K.Encode, K.DecodesTo, K.Accepted, K.Readable, K.Decoded, Units, TextOf;
    var key := K.FromBase64(Units(s));
    if key.KeyFormatException? {
      return None;
    }
    K.DecodedIsOne(Units(s));
    K.DecodesToOne(Units(s), key.value, K.Decoded(Units(s)));
    var str := K.ToBase64(key.value);
    K.Complete(key.value);
    r := Some(TextOf(str));
  }

  // The keys of a configuration are keys, in the texts that they print as.
  ghost predicate KeysEncoded(c: Config) {
    && c.interfaze.privateKey.Some? && EncodesKey(c.interfaze.privateKey.value)
    && forall k :: 0 <= k < |c.peers| ==>
         var p := c.peers[k];
         p.publicKey.Some? && EncodesKey(p.publicKey.value) && (p.preSharedKey.Some? ==> EncodesKey(p.preSharedKey.value))
  }

  // The round trip of configurations whose keys are read by fromBase64 and printed by toBase64.
  lemma RoundTripOfKeys(leaves: Leaves, c: Config)
    requires leaves.key == KeyLeaf && KeysEncoded(c)
    requires R.GoodFields(leaves, c.interfaze) && forall k :: 0 <= k < |c.peers| ==> R.GoodPeerFields(leaves, c.peers[k])
    ensures ParseConfig(leaves, R.Unlines(R.ConfigText(c))) == Ok(c)
       <==> (c.interfaze.dnsServers != [] || c.interfaze.dnsSearchDomains == []) && R.DnsListable(leaves, c.interfaze)
            && Listable(c.interfaze.excluded) && Listable(c.interfaze.included)
  {
    hide KeyLeaf, EncodesKey, R.GoodText, R.GoodFields, R.GoodPeerFields, ParseConfig, R.Unlines, R.ConfigText, Listable,
      R.DnsListable;
    GoodKeysExact(c.interfaze.privateKey.value);
    forall k | 0 <= k < |c.peers|
      ensures R.GoodPeer(leaves, c.peers[k])
    {
      var p := c.peers[k];
      GoodKeysExact(p.publicKey.value);
      if p.preSharedKey.Some? {
        GoodKeysExact(p.preSharedKey.value);
      }
    }
    R.RoundTrip(leaves, c);
  }
}
