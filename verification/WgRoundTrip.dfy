/**
  Printing wg-quick configurations (toWgQuickString of Config.java, Interface.java and Peer.java), and what becomes of
  a configuration that is printed and parsed again.
 */
module WgRoundTrip {
  import opened Options
  import opened WgText
  import opened WgConfig
  import opened WgNames
  import opened WgParsed
  import opened WgDomains

  function Line(key: string, value: string): string {
    key + " = " + value
  }

  function Listed(key: string, values: seq<string>): seq<string> {
    if values == [] then [] else [Line(key, Joined(values))]
  }

  function Numbered(key: string, n: Option<nat>): seq<string> {
    if n.None? then [] else [Line(key, PrintInt(n.value))]
  }

  function Named(key: string, text: Option<string>): seq<string> {
    if text.None? then [] else [Line(key, text.value)]
  }

  // Search domains are printed after the servers, and only with them.
  function InterfaceText(i: Interface): seq<string> {
    Listed("Address", i.addresses)
    + (if i.dnsServers == [] then [] else Listed("DNS", i.dnsServers + i.dnsSearchDomains))
    + Listed("ExcludedApplications", i.excluded) + Listed("IncludedApplications", i.included)
    + Numbered("ListenPort", i.listenPort) + Numbered("MTU", i.mtu) + Named("PrivateKey", i.privateKey)
  }

  function PeerText(p: Peer): seq<string> {
    Listed("AllowedIPs", p.allowedIps) + Named("Endpoint", p.endpoint)
    + Numbered("PersistentKeepalive", p.persistentKeepalive) + Named("PreSharedKey", p.preSharedKey)
    + Named("PublicKey", p.publicKey)
  }

  function PeersText(peers: seq<Peer>): seq<string> {
    if peers == [] then [] else ["", "[Peer]"] + PeerText(peers[0]) + PeersText(peers[1..])
  }

  function ConfigText(c: Config): seq<string> {
    ["[Interface]"] + InterfaceText(c.interfaze) + PeersText(c.peers)
  }

  function Unlines(lines: seq<string>): string {
    if lines == [] then "" else lines[0] + "\n" + Unlines(lines[1..])
  }

  // The lines of an interface and a peer of which everything is given, in their order.
  lemma PrintedInFull(i: Interface, p: Peer)
    requires i.addresses != [] && i.dnsServers != [] && i.excluded != [] && i.included != []
    requires i.listenPort.Some? && i.mtu.Some? && i.privateKey.Some?
    requires p.allowedIps != [] && p.endpoint.Some? && p.persistentKeepalive.Some? && p.preSharedKey.Some? && p.publicKey.Some?
    ensures ConfigText(Config(i, [p]))
         == ["[Interface]", "Address = " + Joined(i.addresses), "DNS = " + Joined(i.dnsServers + i.dnsSearchDomains),
             "ExcludedApplications = " + Joined(i.excluded), "IncludedApplications = " + Joined(i.included),
             "ListenPort = " + PrintInt(i.listenPort.value), "MTU = " + PrintInt(i.mtu.value),
             "PrivateKey = " + i.privateKey.value, "",
             "[Peer]", "AllowedIPs = " + Joined(p.allowedIps), "Endpoint = " + p.endpoint.value,
             "PersistentKeepalive = " + PrintInt(p.persistentKeepalive.value),
             "PreSharedKey = " + p.preSharedKey.value, "PublicKey = " + p.publicKey.value]
  {
    hide Joined, PrintInt, Line;
    Spelled("Address", "Address = ", Joined(i.addresses));
    Spelled("DNS", "DNS = ", Joined(i.dnsServers + i.dnsSearchDomains));
    Spelled("ExcludedApplications", "ExcludedApplications = ", Joined(i.excluded));
    Spelled("IncludedApplications", "IncludedApplications = ", Joined(i.included));
    Spelled("ListenPort", "ListenPort = ", PrintInt(i.listenPort.value));
    Spelled("MTU", "MTU = ", PrintInt(i.mtu.value));
    Spelled("PrivateKey", "PrivateKey = ", i.privateKey.value);
    Spelled("AllowedIPs", "AllowedIPs = ", Joined(p.allowedIps));
    Spelled("Endpoint", "Endpoint = ", p.endpoint.value);
    Spelled("PersistentKeepalive", "PersistentKeepalive = ", PrintInt(p.persistentKeepalive.value));
    Spelled("PreSharedKey", "PreSharedKey = ", p.preSharedKey.value);
    Spelled("PublicKey", "PublicKey = ", p.publicKey.value);
    assert PeersText([p]) == ["", "[Peer]"] + PeerText(p);
  }

  lemma Spelled(key: string, start: string, value: string)
    requires start == key + " = "
    ensures Line(key, value) == start + value
  {
  }

  lemma {:induction false} UnlinesAppend(a: seq<string>, b: seq<string>)
    ensures Unlines(a + b) == Unlines(a) + Unlines(b)
  {
    if a == [] {
      assert a + b == b;
    } else {
      UnlinesAppend(a[1..], b);
      assert (a + b)[1..] == a[1..] + b;
    }
  }

  // Appends one line: a key, an equals sign between spaces, a value and the end of the line.
  method AppendLine(sb: string, ghost lines: seq<string>, key: string, value: string) returns (sb': string)
    requires sb == Unlines(lines)
    ensures sb' == Unlines(lines + [Line(key, value)])
  {
    sb' := sb + key;
    sb' := sb' + " = ";
    sb' := sb' + value;
    sb' := sb' + "\n";
    UnlinesAppend(lines, [Line(key, value)]);
    assert Unlines([Line(key, value)]) == Line(key, value) + "\n" + "";
  }

  method AppendList(sb: string, ghost lines: seq<string>, key: string, values: seq<string>) returns (sb': string)
    requires sb == Unlines(lines)
    ensures sb' == Unlines(lines + Listed(key, values))
  {
    sb' := sb;
    if values != [] {
      var text := Join(values);
      sb' := AppendLine(sb, lines, key, text);
    } else {
      assert lines + [] == lines;
    }
  }

  method AppendNumber(sb: string, ghost lines: seq<string>, key: string, n: Option<nat>) returns (sb': string)
    requires sb == Unlines(lines)
    ensures sb' == Unlines(lines + Numbered(key, n))
  {
    sb' := sb;
    if n.Some? {
      sb' := AppendLine(sb, lines, key, PrintInt(n.value));
    } else {
      assert lines + [] == lines;
    }
  }

  method AppendName(sb: string, ghost lines: seq<string>, key: string, text: Option<string>) returns (sb': string)
    requires sb == Unlines(lines)
    ensures sb' == Unlines(lines + Named(key, text))
  {
    sb' := sb;
    if text.Some? {
      sb' := AppendLine(sb, lines, key, text.value);
    } else {
      assert lines + [] == lines;
    }
  }

  method InterfaceToWgQuickString(i: Interface) returns (sb: string)
    ensures sb == Unlines(InterfaceText(i))
  {
    hide Unlines, Listed, Numbered, Named;
    sb := "";
    ghost var lines := [];
    assert sb == Unlines(lines) by { NoLines(); }
    sb := AppendList(sb, lines, "Address", i.addresses);
    lines := lines + Listed("Address", i.addresses);
    if i.dnsServers != [] {
      sb := AppendList(sb, lines, "DNS", i.dnsServers + i.dnsSearchDomains);
      lines := lines + Listed("DNS", i.dnsServers + i.dnsSearchDomains);
    } else {
      assert lines + [] == lines;
    }
    sb := AppendList(sb, lines, "ExcludedApplications", i.excluded);
    lines := lines + Listed("ExcludedApplications", i.excluded);
    sb := AppendList(sb, lines, "IncludedApplications", i.included);
    lines := lines + Listed("IncludedApplications", i.included);
    sb := AppendNumber(sb, lines, "ListenPort", i.listenPort);
    lines := lines + Numbered("ListenPort", i.listenPort);
    sb := AppendNumber(sb, lines, "MTU", i.mtu);
    lines := lines + Numbered("MTU", i.mtu);
    sb := AppendName(sb, lines, "PrivateKey", i.privateKey);
    lines := lines + Named("PrivateKey", i.privateKey);
    assert lines == InterfaceText(i);
  }

  lemma NoLines()
    ensures Unlines([]) == ""
  {
  }

  method PeerToWgQuickString(p: Peer) returns (sb: string)
    ensures sb == Unlines(PeerText(p))
  {
    hide Unlines, Listed, Numbered, Named;
    sb := "";
    ghost var lines := [];
    assert sb == Unlines(lines) by { NoLines(); }
    sb := AppendList(sb, lines, "AllowedIPs", p.allowedIps);
    lines := lines + Listed("AllowedIPs", p.allowedIps);
    sb := AppendName(sb, lines, "Endpoint", p.endpoint);
    lines := lines + Named("Endpoint", p.endpoint);
    sb := AppendNumber(sb, lines, "PersistentKeepalive", p.persistentKeepalive);
    lines := lines + Numbered("PersistentKeepalive", p.persistentKeepalive);
    sb := AppendName(sb, lines, "PreSharedKey", p.preSharedKey);
    lines := lines + Named("PreSharedKey", p.preSharedKey);
    sb := AppendName(sb, lines, "PublicKey", p.publicKey);
    lines := lines + Named("PublicKey", p.publicKey);
    assert lines == PeerText(p);
  }

  method ToWgQuickString(c: Config) returns (sb: string)
    ensures sb == Unlines(ConfigText(c))
  {
    hide Unlines, InterfaceText, PeerText, PeersText;
    ghost var lines := ["[Interface]"] + InterfaceText(c.interfaze);
    var text := InterfaceToWgQuickString(c.interfaze);
    sb := "[Interface]\n" + text;
    HeaderLine(InterfaceText(c.interfaze));
    assert c.peers[0..] == c.peers;
    var k := 0;
    while k < |c.peers|
      invariant 0 <= k <= |c.peers|
      invariant sb == Unlines(lines) && ConfigText(c) == lines + PeersText(c.peers[k..])
    {
      var text := PeerToWgQuickString(c.peers[k]);
      PeersTextStep(c.peers, k);
      PeerBlock(lines, PeerText(c.peers[k]));
      sb := sb + "\n[Peer]\n";
      sb := sb + text;
      lines := lines + (["", "[Peer]"] + PeerText(c.peers[k]));
      k := k + 1;
    }
    PeersTextEnd(c.peers[k..]);
    assert lines + [] == lines;
  }

  lemma HeaderLine(rest: seq<string>)
    ensures "[Interface]\n" + Unlines(rest) == Unlines(["[Interface]"] + rest)
  {
    assert (["[Interface]"] + rest)[1..] == rest;
    assert "[Interface]" + "\n" == "[Interface]\n";
  }

  lemma PeerBlock(lines: seq<string>, rest: seq<string>)
    ensures Unlines(lines) + "\n[Peer]\n" + Unlines(rest) == Unlines(lines + (["", "[Peer]"] + rest))
  {
    UnlinesAppend(lines, ["", "[Peer]"] + rest);
    assert (["", "[Peer]"] + rest)[1..] == ["[Peer]"] + rest && (["[Peer]"] + rest)[1..] == rest;
    assert "" + "\n" + ("[Peer]" + "\n" + Unlines(rest)) == "\n[Peer]\n" + Unlines(rest);
  }

  lemma PeersTextStep(peers: seq<Peer>, k: nat)
    requires k < |peers|
    ensures PeersText(peers[k..]) == ["", "[Peer]"] + PeerText(peers[k]) + PeersText(peers[k + 1..])
  {
    assert peers[k..][1..] == peers[k + 1..];
  }

  lemma PeersTextEnd(peers: seq<Peer>)
    requires peers == []
    ensures PeersText(peers) == []
  {
  }

  // Text that stays what it is as an attribute's value: no whitespace or control character at its ends, no comment
  // sign and no end of line in it.
  predicate Neat(s: string) {
    && s != "" && s[0] > ' ' && s[|s| - 1] > ' '
    && forall i :: 0 <= i < |s| ==> s[i] != '#' && s[i] != '\n' && s[i] != '\r'
  }

  lemma {:induction false} JoinedNeat(values: seq<string>)
    requires values != [] && AllSolid(values)
    ensures Neat(Joined(values))
  {
    if |values| > 1 {
      JoinedNeat(values[1..]);
      assert Solid(values[0]);
    } else {
      assert Solid(values[0]);
    }
  }

  predicate IsKey(key: string) {
    key != "" && forall i :: 0 <= i < |key| ==> IsWord(key[i])
  }

  lemma {:induction false} WordLengthOf(key: string, rest: string)
    requires (forall i :: 0 <= i < |key| ==> IsWord(key[i])) && (rest == "" || !IsWord(rest[0]))
    ensures WordLength(key + rest) == |key|
  {
    if key == "" {
      assert key + rest == rest;
    } else {
      WordLengthOf(key[1..], rest);
      assert (key + rest)[1..] == key[1..] + rest;
    }
  }

  lemma {:induction false} UncommentNone(s: string)
    requires '#' !in s
    ensures Uncomment(s) == s
  {
    if s != "" {
      UncommentNone(s[1..]);
      assert [s[0]] + s[1..] == s;
    }
  }

  lemma SkipToValue(value: string)
    requires value != "" && value[0] > ' '
    ensures SkipSpace(" = " + value) == "= " + value && SkipSpace(" " + value) == value
  {
    assert (" = " + value)[1..] == "= " + value && (" " + value)[1..] == value;
    assert !IsSpace(value[0]);
  }

  // A printed line is read as it stands and yields its key and its value.
  lemma LineParses(key: string, value: string)
    requires IsKey(key) && Neat(value)
    ensures ParseAttribute(Line(key, value)) == Some(Attribute(key, value))
  {
    hide WordLength, SkipSpace, IsWord;
    var line, rest := Line(key, value), " = " + value;
    assert line == key + rest && line[|key|..] == rest && line[..|key|] == key;
    assert !IsWord(' ') by { SpaceIsNoWord(); }
    WordLengthOf(key, rest);
    SkipToValue(value);
    assert ("= " + value)[1..] == " " + value;
  }

  lemma SpaceIsNoWord()
    ensures !IsWord(' ')
  {
  }

  // A line that cleaning leaves alone, that is no header and that is one line.
  predicate Kept(line: string) {
    line != "" && Clean(line) == line && '\n' !in line && '\r' !in line
  }

  lemma LineKept(key: string, value: string)
    requires IsKey(key) && Neat(value)
    ensures Kept(Line(key, value)) && !IsHeader(Line(key, value))
  {
    hide Uncomment;
    var line := Line(key, value);
    assert IsWord(line[0]) && line[|line| - 1] == value[|value| - 1];
    forall i | 0 <= i < |line|
      ensures line[i] != '#' && line[i] != '\n' && line[i] != '\r'
    {
      assert i < |key| ==> line[i] == key[i] && IsWord(key[i]);
      assert i >= |key| + 3 ==> line[i] == value[i - |key| - 3];
    }
    UncommentNone(line);
    assert !Trimmable(line[0]);
  }

  ghost predicate Attributes(lines: seq<string>) {
    forall i :: 0 <= i < |lines| ==> Kept(lines[i]) && !IsHeader(lines[i])
  }

  lemma {:induction false} LineEndOf(line: string, rest: string)
    requires '\n' !in line && '\r' !in line
    ensures LineEnd(line + "\n" + rest) == |line|
  {
    if line == "" {
    } else {
      LineEndOf(line[1..], rest);
      assert (line + "\n" + rest)[1..] == line[1..] + "\n" + rest;
    }
  }

  lemma {:induction false} ReadUnlines(lines: seq<string>)
    requires AllOneLine(lines)
    ensures ReadLines(Unlines(lines)) == lines
  {
    if lines != [] {
      var rest := Unlines(lines[1..]);
      LineEndOf(lines[0], rest);
      ReadUnlines(lines[1..]);
      var text := lines[0] + "\n" + rest;
      assert text[..|lines[0]|] == lines[0] && text[|lines[0]| + 1..] == rest;
    }
  }

  lemma {:induction false} CleanAppend(a: seq<string>, b: seq<string>)
    ensures CleanLines(a + b) == CleanLines(a) + CleanLines(b)
  {
    hide Clean, CleanLines, CleanOf;
    if a == [] {
      assert a + b == b;
      NoneClean();
      assert [] + CleanLines(b) == CleanLines(b);
    } else {
      CleanAppend(a[1..], b);
      CleanFirst(a[0], a[1..]);
      CleanFirst(a[0], a[1..] + b);
      assert [a[0]] + a[1..] == a && [a[0]] + (a[1..] + b) == a + b;
    }
  }

  lemma CleanFirst(line: string, rest: seq<string>)
    ensures CleanLines([line] + rest) == CleanOf(line) + CleanLines(rest)
  {
    hide Clean;
    assert ([line] + rest)[1..] == rest;
  }

  function CleanOf(line: string): seq<string> {
    if Clean(line) == "" then [] else [Clean(line)]
  }

  lemma {:induction false} CleanKept(lines: seq<string>)
    requires forall i :: 0 <= i < |lines| ==> Kept(lines[i])
    ensures CleanLines(lines) == lines
  {
    hide Clean;
    if lines != [] {
      assert Kept(lines[0]);
      CleanKept(lines[1..]);
    }
  }

  lemma {:induction false} BodyLengthOf(body: seq<string>, rest: seq<string>)
    requires forall i :: 0 <= i < |body| ==> !IsHeader(body[i])
    requires rest == [] || IsHeader(rest[0])
    ensures BodyLength(body + rest) == |body|
  {
    if body == [] {
      assert body + rest == rest;
    } else {
      BodyLengthOf(body[1..], rest);
      assert (body + rest)[1..] == body[1..] + rest;
    }
  }

  lemma BlocksOf(header: string, body: seq<string>, rest: seq<string>)
    requires IsHeader(header) && forall i :: 0 <= i < |body| ==> !IsHeader(body[i])
    requires rest == [] || IsHeader(rest[0])
    ensures Blocks([header] + body + rest) == [Block(header, body)] + Blocks(rest)
  {
    var lines := [header] + body + rest;
    assert lines[1..] == body + rest;
    BodyLengthOf(body, rest);
    assert (body + rest)[..|body|] == body && (body + rest)[|body|..] == rest;
  }

  lemma NoneClean()
    ensures CleanLines([]) == []
  {
  }

  // Values that the leaf parser gives back, each once.
  ghost predicate GoodList(parse: string -> Option<string>, values: seq<string>) {
    AllSolid(values) && NoneTwice(values) && forall i :: 0 <= i < |values| ==> parse(values[i]) == Some(values[i])
  }

  ghost predicate GoodText(parse: string -> Option<string>, text: string) {
    Solid(text) && parse(text) == Some(text)
  }

  // An interface as the builder makes it, of leaves that round-trip and print as solid text; search domains and names
  // of applications are any texts.
  ghost predicate GoodInterface(leaves: Leaves, i: Interface) {
    GoodFields(leaves, i) && i.privateKey.Some? && GoodText(leaves.key, i.privateKey.value)
  }

  // All of that but the key.
  ghost predicate GoodFields(leaves: Leaves, i: Interface) {
    && GoodList(leaves.network, i.addresses) && GoodList(leaves.address, i.dnsServers)
    && NoneTwice(i.dnsSearchDomains) && NoneTwice(i.excluded) && NoneTwice(i.included)
    && (i.included == [] || i.excluded == [])
    && (i.listenPort.Some? ==> 0 < i.listenPort.value <= MAX_PORT)
    && (i.mtu.Some? ==> 0 < i.mtu.value < 0x8000_0000)
  }

  ghost predicate GoodPeer(leaves: Leaves, p: Peer) {
    && GoodPeerFields(leaves, p)
    && (p.preSharedKey.Some? ==> GoodText(leaves.key, p.preSharedKey.value))
    && p.publicKey.Some? && GoodText(leaves.key, p.publicKey.value)
  }

  ghost predicate GoodPeerFields(leaves: Leaves, p: Peer) {
    && GoodList(leaves.network, p.allowedIps)
    && (p.endpoint.Some? ==> GoodText(leaves.endpoint, p.endpoint.value))
    && (p.persistentKeepalive.Some? ==> 0 < p.persistentKeepalive.value <= MAX_PORT)
  }

  ghost predicate GoodConfig(leaves: Leaves, c: Config) {
    GoodInterface(leaves, c.interfaze) && forall k :: 0 <= k < |c.peers| ==> GoodPeer(leaves, c.peers[k])
  }

  lemma {:induction false} ParseEachAll(parse: string -> Option<string>, before: seq<string>, values: seq<string>)
    requires NoneTwice(before + values) && forall i :: 0 <= i < |values| ==> parse(values[i]) == Some(values[i])
    ensures ParseEach(parse, before, values) == Some(before + values)
    decreases |values|
  {
    if values == [] {
      assert before + values == before;
    } else {
      NotBefore(before, values);
      ParseEachAll(parse, before + [values[0]], values[1..]);
      assert before + [values[0]] + values[1..] == before + values;
    }
  }

  lemma {:induction false} InterfaceAppend(leaves: Leaves, i: Interface, a: seq<string>, b: seq<string>)
    ensures AfterInterfaceLines(leaves, i, a + b)
         == match AfterInterfaceLines(leaves, i, a)
            case Err(e) => Err(e)
            case Ok(j) => AfterInterfaceLines(leaves, j, b)
    decreases |a|
  {
    hide AfterInterfaceAttribute, ParseAttribute;
    if a == [] {
      assert a + b == b;
    } else {
      assert (a + b)[0] == a[0] && (a + b)[1..] == a[1..] + b;
      var attribute := ParseAttribute(a[0]);
      if attribute.Some? {
        var next := AfterInterfaceAttribute(leaves, i, attribute.value);
        if next.Ok? {
          InterfaceAppend(leaves, next.value, a[1..], b);
        }
      }
    }
  }

  lemma {:induction false} PeerAppend(leaves: Leaves, p: Peer, a: seq<string>, b: seq<string>)
    ensures AfterPeerLines(leaves, p, a + b)
         == match AfterPeerLines(leaves, p, a)
            case Err(e) => Err(e)
            case Ok(q) => AfterPeerLines(leaves, q, b)
    decreases |a|
  {
    hide AfterPeerAttribute, ParseAttribute;
    if a == [] {
      assert a + b == b;
    } else {
      assert (a + b)[0] == a[0] && (a + b)[1..] == a[1..] + b;
      var attribute := ParseAttribute(a[0]);
      if attribute.Some? {
        var next := AfterPeerAttribute(leaves, p, attribute.value);
        if next.Ok? {
          PeerAppend(leaves, next.value, a[1..], b);
        }
      }
    }
  }

  // One printed line, read back.
  lemma InterfaceLine(leaves: Leaves, i: Interface, key: string, value: string)
    requires IsKey(key) && Neat(value)
    ensures AfterInterfaceLines(leaves, i, [Line(key, value)]) == AfterInterfaceAttribute(leaves, i, Attribute(key, value))
  {
    hide AfterInterfaceAttribute, ParseAttribute;
    LineParses(key, value);
    var next := AfterInterfaceAttribute(leaves, i, Attribute(key, value));
    assert [Line(key, value)][1..] == [];
    if next.Ok? {
      assert AfterInterfaceLines(leaves, next.value, []) == Ok(next.value);
    }
  }

  lemma PeerLine(leaves: Leaves, p: Peer, key: string, value: string)
    requires IsKey(key) && Neat(value)
    ensures AfterPeerLines(leaves, p, [Line(key, value)]) == AfterPeerAttribute(leaves, p, Attribute(key, value))
  {
    hide AfterPeerAttribute, ParseAttribute;
    LineParses(key, value);
    var next := AfterPeerAttribute(leaves, p, Attribute(key, value));
    assert [Line(key, value)][1..] == [];
    if next.Ok? {
      assert AfterPeerLines(leaves, next.value, []) == Ok(next.value);
    }
  }

  lemma NoInterfaceLine(leaves: Leaves, i: Interface)
    ensures AfterInterfaceLines(leaves, i, []) == Ok(i)
  {
  }

  lemma NoPeerLine(leaves: Leaves, p: Peer)
    ensures AfterPeerLines(leaves, p, []) == Ok(p)
  {
  }

  // A printed list is read as its values.
  lemma ListedParses(values: seq<string>)
    requires values != [] && AllSolid(values)
    ensures Neat(Joined(values)) && Split(Joined(values)) == values
  {
    hide Joined, Split, Neat;
    JoinedNeat(values);
    SolidListable(values);
    SplitJoined(values);
  }

  lemma SolidNeat(s: string)
    requires Solid(s)
    ensures Neat(s)
  {
  }

  lemma NumberParses(n: nat)
    requires n < 0x8000_0000
    ensures Neat(PrintInt(n)) && ParseInt(PrintInt(n)) == Some(n)
  {
    hide PrintInt, ParseInt;
    PrintIntParses(n);
    SolidNeat(PrintInt(n));
  }

  // The keys in lower case, a few at a time.
  lemma LowerShort()
    ensures ToLower("Address") == "address" && ToLower("DNS") == "dns" && ToLower("MTU") == "mtu"
  {
  }

  lemma LowerListenPort()
    ensures ToLower("ListenPort") == "listenport"
  {
  }

  lemma LowerPrivateKey()
    ensures ToLower("PrivateKey") == "privatekey"
  {
  }

  lemma LowerExcluded()
    ensures ToLower("ExcludedApplications") == "excludedapplications"
  {
  }

  lemma LowerIncluded()
    ensures ToLower("IncludedApplications") == "includedapplications"
    ensures "includedapplications" != "excludedapplications"
  {
    assert "includedapplications"[0] != "excludedapplications"[0];
  }

  lemma LowerPeerKeys()
    ensures ToLower("AllowedIPs") == "allowedips" && ToLower("Endpoint") == "endpoint"
  {
  }

  lemma LowerPersistentKeepalive()
    ensures ToLower("PersistentKeepalive") == "persistentkeepalive"
  {
  }

  lemma LowerPreSharedKey()
    ensures ToLower("PreSharedKey") == "presharedkey"
  {
  }

  lemma LowerPublicKey()
    ensures ToLower("PublicKey") == "publickey"
  {
  }

  // The printed lines of an interface, each read back into the field it was printed from.
  lemma ReadAddresses(leaves: Leaves, i: Interface, values: seq<string>)
    requires i.addresses == [] && GoodList(leaves.network, values)
    ensures AfterInterfaceLines(leaves, i, Listed("Address", values)) == Ok(i.(addresses := values))
  {
    hide ToLower, AfterInterfaceLines, ParseEach, ParseDns, AddAll, Split, Joined, Neat, PrintInt, ParseInt;
    NoInterfaceLine(leaves, i);
    if values != [] {
      ListedParses(values);
      InterfaceLine(leaves, i, "Address", Joined(values));
      LowerShort();
      ParseEachAll(leaves.network, [], values);
      assert [] + values == values;
    }
  }

  // Trimming the end of a text that ends in another one.
  lemma {:induction false} TrimTail(a: string, b: string)
    ensures TrimRight(a + b) == if TrimRight(b) == "" then TrimRight(a) else a + TrimRight(b)
    decreases |b|
  {
    if b == "" {
      assert a + b == a;
    } else if Trimmable(b[|b| - 1]) {
      TrimTail(a, b[..|b| - 1]);
      assert (a + b)[..|a + b| - 1] == a + b[..|b| - 1];
    }
  }

  lemma TrimKey(key: string)
    requires IsKey(key)
    ensures TrimRight(key + " = ") == key + " ="
  {
    assert (key + " = ")[..|key| + 2] == key + " =";
  }

  // Cleaning a line takes off the space at its end only, for it begins with its key.
  lemma NamesClean(key: string, text: string)
    requires IsKey(key) && Unmarred(text)
    ensures var line := Line(key, text);
            && WgParsed.OneLine(line) && !IsHeader(Clean(line)) && Clean(line) != ""
            && Clean(line) == if TrimRight(text) == "" then key + " =" else key + " = " + TrimRight(text)
  {
    hide Uncomment, TrimRight;
    var line := Line(key, text);
    forall i | 0 <= i < |line|
      ensures line[i] != '#' && line[i] != '\n' && line[i] != '\r'
    {
      assert i < |key| ==> line[i] == key[i] && IsWord(key[i]);
      assert i >= |key| + 3 ==> line[i] == text[i - |key| - 3];
    }
    UncommentNone(line);
    assert line[0] == key[0] && IsWord(key[0]) && !Trimmable(line[0]);
    TrimTail(key + " = ", text);
    TrimKey(key);
  }

  lemma EmptyAttribute(key: string)
    requires IsKey(key)
    ensures ParseAttribute(key + " =").None?
  {
    hide WordLength, IsWord;
    SpaceIsNoWord();
    WordLengthOf(key, " =");
    assert (key + " =")[|key|..] == " =" && " ="[1..] == "=" && "="[1..] == "";
  }

  lemma NamesParse(key: string, text: string)
    requires IsKey(key) && Unmarred(text) && SkipSpace(text) != ""
    ensures ParseAttribute(key + " = " + text) == Some(Attribute(key, SkipSpace(text)))
  {
    hide WordLength, IsWord, SkipSpace, Unmarred;
    var rest := " = " + text;
    assert key + " = " + text == key + rest && (key + rest)[|key|..] == rest && (key + rest)[..|key|] == key;
    SpaceIsNoWord();
    WordLengthOf(key, rest);
    SkipOnto(text);
    assert ("= " + text)[1..] == " " + text;
    SkipUnmarred(text);
    NoSign(SkipSpace(text));
  }

  lemma NoSign(text: string)
    requires Unmarred(text)
    ensures '#' !in text
  {
  }

  lemma SkipOnto(text: string)
    ensures SkipSpace(" = " + text) == "= " + text && SkipSpace(" " + text) == SkipSpace(text)
  {
    assert (" = " + text)[1..] == "= " + text && (" " + text)[1..] == text;
  }

  // A line of names, read: the attribute that ReadBack speaks of, or none.
  lemma NamesRead(key: string, values: seq<string>)
    requires IsKey(key) && values != [] && AllTame(values)
    ensures var line, printed := Line(key, Joined(values)), TrimRight(Joined(values));
            && WgParsed.OneLine(line) && !IsHeader(Clean(line)) && CleanLines([line]) == [Clean(line)]
            && ParseAttribute(Clean(line)) == if printed == "" then None else Some(Attribute(key, SkipSpace(printed)))
  {
    hide Joined, Clean, ParseAttribute, TrimRight, SkipSpace, IsHeader;
    var text := Joined(values);
    JoinedTame(values);
    NamesClean(key, text);
    var line, printed := Line(key, text), TrimRight(text);
    assert [line][1..] == [];
    NoneClean();
    if printed == "" {
      EmptyAttribute(key);
    } else {
      TrimEnds(text);
      SliceUnmarred(text, 0, |printed|);
      assert text[0..|printed|] == printed;
      SpacesTrim(printed[|printed| - 1]);
      SkipEnds(printed);
      NamesParse(key, printed);
    }
  }

  lemma OneInterfaceLine(leaves: Leaves, i: Interface, line: string)
    ensures AfterInterfaceLines(leaves, i, [line])
         == match ParseAttribute(line)
            case None => Err(BadConfig(INTERFACE, TOP_LEVEL, SYNTAX_ERROR))
            case Some(a) => AfterInterfaceAttribute(leaves, i, a)
  {
    hide AfterInterfaceAttribute, ParseAttribute;
    assert [line][1..] == [];
    var a := ParseAttribute(line);
    if a.Some? {
      var next := AfterInterfaceAttribute(leaves, i, a.value);
      if next.Ok? {
        NoInterfaceLine(leaves, next.value);
      }
    }
  }

  // The line of servers and search domains.
  function DnsLines(i: Interface): seq<string> {
    if i.dnsServers == [] then [] else Listed("DNS", i.dnsServers + i.dnsSearchDomains)
  }

  lemma ReadDnsLine(leaves: Leaves, base: Interface, i: Interface)
    requires GoodInterface(leaves, i) && TameNames(Printed(i))
    ensures AfterInterfaceLines(leaves, base, CleanLines(DnsLines(i)))
         == match ReadDns(leaves, base, i)
            case None => Err(BadConfig(INTERFACE, DNS, INVALID_VALUE))
            case Some(j) => Ok(j)
  {
    hide ToLower, AfterInterfaceLines, ParseEach, ParseDns, AddAll, Split, Joined, ParseInt, ParseAttribute, TrimRight, SkipSpace, Clean, Tame, Solid;
    NoInterfaceLine(leaves, base);
    NoneClean();
    if i.dnsServers != [] {
      var values := i.dnsServers + i.dnsSearchDomains;
      var line := Line("DNS", Joined(values));
      AllValuesTame(i.dnsServers, i.dnsSearchDomains);
      SolidStart(values);
      NamesRead("DNS", values);
      OneInterfaceLine(leaves, base, Clean(line));
      LowerShort();
    }
  }

  lemma ReadExcluded(leaves: Leaves, i: Interface, values: seq<string>)
    requires i.excluded == [] && AllTame(values)
    ensures AfterInterfaceLines(leaves, i, CleanLines(Listed("ExcludedApplications", values)))
         == match ReadBack(values)
            case None => Err(BadConfig(INTERFACE, TOP_LEVEL, SYNTAX_ERROR))
            case Some(v) => Ok(i.(excluded := v))
  {
    hide ToLower, AfterInterfaceLines, ParseEach, ParseDns, AddAll, Split, Joined, ParseInt, ParseAttribute, TrimRight, SkipSpace, Clean, Tame;
    NoInterfaceLine(leaves, i);
    NoneClean();
    if values != [] {
      var line := Line("ExcludedApplications", Joined(values));
      NamesRead("ExcludedApplications", values);
      OneInterfaceLine(leaves, i, Clean(line));
      LowerExcluded();
    }
  }

  lemma ReadIncluded(leaves: Leaves, i: Interface, values: seq<string>)
    requires i.included == [] && AllTame(values)
    ensures AfterInterfaceLines(leaves, i, CleanLines(Listed("IncludedApplications", values)))
         == match ReadBack(values)
            case None => Err(BadConfig(INTERFACE, TOP_LEVEL, SYNTAX_ERROR))
            case Some(v) => Ok(i.(included := v))
  {
    hide ToLower, AfterInterfaceLines, ParseEach, ParseDns, AddAll, Split, Joined, ParseInt, ParseAttribute, TrimRight, SkipSpace, Clean, Tame;
    NoInterfaceLine(leaves, i);
    NoneClean();
    if values != [] {
      var line := Line("IncludedApplications", Joined(values));
      NamesRead("IncludedApplications", values);
      OneInterfaceLine(leaves, i, Clean(line));
      LowerIncluded();
    }
  }

  lemma ReadListenPort(leaves: Leaves, i: Interface, n: Option<nat>)
    requires i.listenPort.None? && (n.Some? ==> 0 < n.value <= MAX_PORT)
    ensures AfterInterfaceLines(leaves, i, Numbered("ListenPort", n)) == Ok(i.(listenPort := n))
  {
    hide ToLower, AfterInterfaceLines, ParseEach, ParseDns, AddAll, Split, Joined, Neat, PrintInt, ParseInt;
    NoInterfaceLine(leaves, i);
    if n.Some? {
      NumberParses(n.value);
      InterfaceLine(leaves, i, "ListenPort", PrintInt(n.value));
      LowerListenPort();
    }
  }

  lemma ReadMtu(leaves: Leaves, i: Interface, n: Option<nat>)
    requires i.mtu.None? && (n.Some? ==> 0 < n.value < 0x8000_0000)
    ensures AfterInterfaceLines(leaves, i, Numbered("MTU", n)) == Ok(i.(mtu := n))
  {
    hide ToLower, AfterInterfaceLines, ParseEach, ParseDns, AddAll, Split, Joined, Neat, PrintInt, ParseInt;
    NoInterfaceLine(leaves, i);
    if n.Some? {
      NumberParses(n.value);
      InterfaceLine(leaves, i, "MTU", PrintInt(n.value));
      LowerShort();
    }
  }

  lemma ReadPrivateKey(leaves: Leaves, i: Interface, key: Option<string>)
    requires i.privateKey.None? && (key.Some? ==> GoodText(leaves.key, key.value))
    ensures AfterInterfaceLines(leaves, i, Named("PrivateKey", key)) == Ok(i.(privateKey := key))
  {
    hide ToLower, AfterInterfaceLines, ParseEach, ParseDns, AddAll, Split, Joined, Neat, PrintInt, ParseInt;
    NoInterfaceLine(leaves, i);
    if key.Some? {
      SolidNeat(key.value);
      InterfaceLine(leaves, i, "PrivateKey", key.value);
      LowerPrivateKey();
    }
  }

  // What comes back of an interface with tame names.
  function ReadInterface(leaves: Leaves, i: Interface): Result<Interface> {
    match ReadDns(leaves, NO_INTERFACE.(addresses := i.addresses), i)
    case None => Err(BadConfig(INTERFACE, DNS, INVALID_VALUE))
    case Some(j) =>
      match ReadBack(i.excluded)
      case None => Err(BadConfig(INTERFACE, TOP_LEVEL, SYNTAX_ERROR))
      case Some(excluded) =>
        match ReadBack(i.included)
        case None => Err(BadConfig(INTERFACE, TOP_LEVEL, SYNTAX_ERROR))
        case Some(included) =>
          BuildInterface(i.(dnsServers := j.dnsServers, dnsSearchDomains := j.dnsSearchDomains,
                            excluded := excluded, included := included))
  }

  // The lines after the names.
  function LinesAfter(i: Interface): seq<string> {
    Numbered("ListenPort", i.listenPort) + Numbered("MTU", i.mtu) + Named("PrivateKey", i.privateKey)
  }

  lemma ReadAfter(leaves: Leaves, j: Interface, i: Interface)
    requires GoodInterface(leaves, i) && j.listenPort.None? && j.mtu.None? && j.privateKey.None?
    ensures AfterInterfaceLines(leaves, j, LinesAfter(i))
         == Ok(j.(listenPort := i.listenPort, mtu := i.mtu, privateKey := i.privateKey))
  {
    hide AfterInterfaceLines, Numbered, Named;
    var j1, j2 := j.(listenPort := i.listenPort), j.(listenPort := i.listenPort, mtu := i.mtu);
    var t1, t2, t3 := Numbered("ListenPort", i.listenPort), Numbered("MTU", i.mtu), Named("PrivateKey", i.privateKey);
    ReadListenPort(leaves, j, i.listenPort);
    ReadMtu(leaves, j1, i.mtu);
    ReadPrivateKey(leaves, j2, i.privateKey);
    InterfaceAppend(leaves, j, t1, t2);
    InterfaceAppend(leaves, j, t1 + t2, t3);
  }

  lemma FivePieces(leaves: Leaves, i: Interface, a: seq<string>, b: seq<string>, c: seq<string>, d: seq<string>, e: seq<string>)
    ensures AfterInterfaceLines(leaves, i, a + b + c + d + e)
         == match AfterInterfaceLines(leaves, i, a + b)
            case Err(e) => Err(e)
            case Ok(i2) =>
              match AfterInterfaceLines(leaves, i2, c)
              case Err(e) => Err(e)
              case Ok(i3) =>
                match AfterInterfaceLines(leaves, i3, d)
                case Err(e) => Err(e)
                case Ok(i4) => AfterInterfaceLines(leaves, i4, e)
  {
    hide AfterInterfaceLines;
    InterfaceAppend(leaves, i, a + b, c);
    InterfaceAppend(leaves, i, a + b + c, d);
    InterfaceAppend(leaves, i, a + b + c + d, e);
  }

  // An interface with tame names that is printed and read again.
  lemma TameInterfaceReadsBack(leaves: Leaves, i: Interface)
    requires GoodInterface(leaves, i) && TameNames(Printed(i))
    ensures ParseInterface(leaves, CleanLines(InterfaceText(i))) == ReadInterface(leaves, i)
  {
    hide AfterInterfaceLines, LinesAfter, DnsLines, ReadBack, ReadDns, CleanLines, InterfaceText, AllTame, GoodInterface, Listed;
    var addresses, dns, after := Listed("Address", i.addresses), CleanLines(DnsLines(i)), LinesAfter(i);
    var excluded, included := CleanLines(Listed("ExcludedApplications", i.excluded)), CleanLines(Listed("IncludedApplications", i.included));
    var i1 := NO_INTERFACE.(addresses := i.addresses);
    InterfaceCleans(leaves, i);
    FivePieces(leaves, NO_INTERFACE, addresses, dns, excluded, included, after);
    InterfaceAppend(leaves, NO_INTERFACE, addresses, dns);
    GoodAddresses(leaves, i);
    ReadDnsLine(leaves, i1, i);
    ReadDnsAlone(leaves, i1, i);
    if ReadDns(leaves, i1, i).Some? {
      var i2 := ReadDns(leaves, i1, i).value;
      ReadExcluded(leaves, i2, i.excluded);
      if ReadBack(i.excluded).Some? {
        var i3 := i2.(excluded := ReadBack(i.excluded).value);
        ReadIncluded(leaves, i3, i.included);
        if ReadBack(i.included).Some? {
          ReadAfter(leaves, i3.(included := ReadBack(i.included).value), i);
        }
      }
    }
  }

  lemma GoodAddresses(leaves: Leaves, i: Interface)
    requires GoodInterface(leaves, i)
    ensures AfterInterfaceLines(leaves, NO_INTERFACE, Listed("Address", i.addresses)) == Ok(NO_INTERFACE.(addresses := i.addresses))
  {
    hide AfterInterfaceLines, Listed;
    ReadAddresses(leaves, NO_INTERFACE, i.addresses);
  }

  // The DNS line is read into servers and search domains only.
  lemma ReadDnsAlone(leaves: Leaves, base: Interface, i: Interface)
    ensures var j := ReadDns(leaves, base, i);
            j.Some? ==> j.value == base.(dnsServers := j.value.dnsServers, dnsSearchDomains := j.value.dnsSearchDomains)
  {
    hide ParseDns, TextsRead;
    if i.dnsServers != [] {
      ParseDnsAdds(leaves, base, TextsRead(i.dnsServers + i.dnsSearchDomains));
    }
  }

  lemma ReadAllowedIps(leaves: Leaves, p: Peer, values: seq<string>)
    requires p.allowedIps == [] && GoodList(leaves.network, values)
    ensures AfterPeerLines(leaves, p, Listed("AllowedIPs", values)) == Ok(p.(allowedIps := values))
  {
    hide ToLower, AfterPeerLines, ParseEach, Split, Joined, Neat, PrintInt, ParseInt;
    NoPeerLine(leaves, p);
    if values != [] {
      ListedParses(values);
      PeerLine(leaves, p, "AllowedIPs", Joined(values));
      LowerPeerKeys();
      ParseEachAll(leaves.network, [], values);
      assert [] + values == values;
    }
  }

  lemma ReadEndpoint(leaves: Leaves, p: Peer, text: Option<string>)
    requires p.endpoint.None? && (text.Some? ==> GoodText(leaves.endpoint, text.value))
    ensures AfterPeerLines(leaves, p, Named("Endpoint", text)) == Ok(p.(endpoint := text))
  {
    hide ToLower, AfterPeerLines, ParseEach, Split, Joined, Neat, PrintInt, ParseInt;
    NoPeerLine(leaves, p);
    if text.Some? {
      SolidNeat(text.value);
      PeerLine(leaves, p, "Endpoint", text.value);
      LowerPeerKeys();
    }
  }

  lemma ReadKeepalive(leaves: Leaves, p: Peer, n: Option<nat>)
    requires p.persistentKeepalive.None? && (n.Some? ==> 0 < n.value <= MAX_PORT)
    ensures AfterPeerLines(leaves, p, Numbered("PersistentKeepalive", n)) == Ok(p.(persistentKeepalive := n))
  {
    hide ToLower, AfterPeerLines, ParseEach, Split, Joined, Neat, PrintInt, ParseInt;
    NoPeerLine(leaves, p);
    if n.Some? {
      NumberParses(n.value);
      PeerLine(leaves, p, "PersistentKeepalive", PrintInt(n.value));
      LowerPersistentKeepalive();
    }
  }

  lemma ReadPreSharedKey(leaves: Leaves, p: Peer, text: Option<string>)
    requires p.preSharedKey.None? && (text.Some? ==> GoodText(leaves.key, text.value))
    ensures AfterPeerLines(leaves, p, Named("PreSharedKey", text)) == Ok(p.(preSharedKey := text))
  {
    hide ToLower, AfterPeerLines, ParseEach, Split, Joined, Neat, PrintInt, ParseInt;
    NoPeerLine(leaves, p);
    if text.Some? {
      SolidNeat(text.value);
      PeerLine(leaves, p, "PreSharedKey", text.value);
      LowerPreSharedKey();
    }
  }

  lemma ReadPublicKey(leaves: Leaves, p: Peer, text: Option<string>)
    requires p.publicKey.None? && (text.Some? ==> GoodText(leaves.key, text.value))
    ensures AfterPeerLines(leaves, p, Named("PublicKey", text)) == Ok(p.(publicKey := text))
  {
    hide ToLower, AfterPeerLines, ParseEach, Split, Joined, Neat, PrintInt, ParseInt;
    NoPeerLine(leaves, p);
    if text.Some? {
      SolidNeat(text.value);
      PeerLine(leaves, p, "PublicKey", text.value);
      LowerPublicKey();
    }
  }

  lemma PeerReadsBack(leaves: Leaves, p: Peer)
    requires GoodPeer(leaves, p)
    ensures ParsePeer(leaves, PeerText(p)) == Ok(p)
  {
    hide AfterPeerLines, Listed, Numbered, Named;
    var p1 := NO_PEER.(allowedIps := p.allowedIps);
    var p2 := p1.(endpoint := p.endpoint);
    var p3 := p2.(persistentKeepalive := p.persistentKeepalive);
    var p4 := p3.(preSharedKey := p.preSharedKey);
    var t1, t2 := Listed("AllowedIPs", p.allowedIps), Named("Endpoint", p.endpoint);
    var t3, t4 := Numbered("PersistentKeepalive", p.persistentKeepalive), Named("PreSharedKey", p.preSharedKey);
    var t5 := Named("PublicKey", p.publicKey);
    ReadAllowedIps(leaves, NO_PEER, p.allowedIps);
    ReadEndpoint(leaves, p1, p.endpoint);
    ReadKeepalive(leaves, p2, p.persistentKeepalive);
    ReadPreSharedKey(leaves, p3, p.preSharedKey);
    ReadPublicKey(leaves, p4, p.publicKey);
    PeerAppend(leaves, NO_PEER, t1, t2);
    PeerAppend(leaves, NO_PEER, t1 + t2, t3);
    PeerAppend(leaves, NO_PEER, t1 + t2 + t3, t4);
    PeerAppend(leaves, NO_PEER, t1 + t2 + t3 + t4, t5);
  }

  // Printed attributes are lines of their own.
  lemma ListedLines(key: string, values: seq<string>)
    requires IsKey(key) && AllSolid(values)
    ensures Attributes(Listed(key, values))
  {
    hide Joined, Neat, Kept;
    if values != [] {
      JoinedNeat(values);
      LineKept(key, Joined(values));
    }
  }

  lemma NumberedLines(key: string, n: Option<nat>)
    requires IsKey(key) && (n.Some? ==> n.value < 0x8000_0000)
    ensures Attributes(Numbered(key, n))
  {
    hide PrintInt, Neat, Kept;
    if n.Some? {
      NumberParses(n.value);
      LineKept(key, PrintInt(n.value));
    }
  }

  lemma NamedLines(key: string, text: Option<string>)
    requires IsKey(key) && (text.Some? ==> Solid(text.value))
    ensures Attributes(Named(key, text))
  {
    hide Neat, Kept, Solid;
    if text.Some? {
      SolidNeat(text.value);
      LineKept(key, text.value);
    }
  }

  lemma NamesLines(key: string, values: seq<string>)
    requires IsKey(key) && AllTame(values)
    ensures AllOneLine(Listed(key, values)) && NoHeaders(CleanLines(Listed(key, values)))
  {
    hide Joined, Clean, ParseAttribute, IsHeader, Tame, CleanLines;
    NoneClean();
    if values != [] {
      NamesRead(key, values);
    }
  }

  ghost predicate NoHeaders(lines: seq<string>) {
    forall i :: 0 <= i < |lines| ==> !IsHeader(lines[i])
  }

  lemma OtherLines(leaves: Leaves, i: Interface)
    requires GoodInterface(leaves, i)
    ensures Attributes(Listed("Address", i.addresses)) && Attributes(LinesAfter(i))
  {
    hide Listed, Numbered, Named, Kept, IsHeader;
    ListedLines("Address", i.addresses);
    NumberedLines("ListenPort", i.listenPort);
    NumberedLines("MTU", i.mtu);
    NamedLines("PrivateKey", i.privateKey);
  }

  lemma DnsLinesKept(leaves: Leaves, i: Interface)
    requires GoodInterface(leaves, i) && TameNames(Printed(i))
    ensures AllOneLine(DnsLines(i)) && NoHeaders(CleanLines(DnsLines(i)))
  {
    hide Listed, IsHeader, CleanLines, Solid, Tame;
    NoneClean();
    if i.dnsServers != [] {
      AllValuesTame(i.dnsServers, i.dnsSearchDomains);
      NamesLines("DNS", i.dnsServers + i.dnsSearchDomains);
    }
  }

  lemma AttributesKept(lines: seq<string>)
    requires Attributes(lines)
    ensures AllOneLine(lines) && NoHeaders(lines) && CleanLines(lines) == lines
  {
    hide Clean, IsHeader;
    CleanKept(lines);
  }

  // The lines of an interface, cleaned.
  lemma InterfaceCleans(leaves: Leaves, i: Interface)
    requires GoodInterface(leaves, i) && TameNames(Printed(i))
    ensures var text := InterfaceText(i);
            && AllOneLine(text) && NoHeaders(CleanLines(text))
            && CleanLines(text) == Listed("Address", i.addresses) + CleanLines(DnsLines(i))
                                   + CleanLines(Listed("ExcludedApplications", i.excluded))
                                   + CleanLines(Listed("IncludedApplications", i.included)) + LinesAfter(i)
  {
    hide Listed, Numbered, Named, IsHeader, CleanLines, Kept, Attributes, GoodInterface, Clean, WgParsed.OneLine, AllTame, DnsLines;
    var addresses, dns, after := Listed("Address", i.addresses), DnsLines(i), LinesAfter(i);
    var excluded, included := Listed("ExcludedApplications", i.excluded), Listed("IncludedApplications", i.included);
    OtherLines(leaves, i);
    AttributesKept(addresses);
    AttributesKept(after);
    DnsLinesKept(leaves, i);
    NamesLines("ExcludedApplications", i.excluded);
    NamesLines("IncludedApplications", i.included);
    TextInPieces(i);
    CleanAppend(addresses, dns);
    CleanAppend(addresses + dns, excluded);
    CleanAppend(addresses + dns + excluded, included);
    CleanAppend(addresses + dns + excluded + included, after);
  }

  lemma TextInPieces(i: Interface)
    ensures InterfaceText(i) == Listed("Address", i.addresses) + DnsLines(i) + Listed("ExcludedApplications", i.excluded)
                                + Listed("IncludedApplications", i.included) + LinesAfter(i)
  {
    hide Listed, Numbered, Named;
  }

  lemma PeerLinesKept(leaves: Leaves, p: Peer)
    requires GoodPeer(leaves, p)
    ensures Attributes(PeerText(p))
  {
    hide Listed, Numbered, Named, Kept, IsHeader;
    ListedLines("AllowedIPs", p.allowedIps);
    NamedLines("Endpoint", p.endpoint);
    NumberedLines("PersistentKeepalive", p.persistentKeepalive);
    NamedLines("PreSharedKey", p.preSharedKey);
    NamedLines("PublicKey", p.publicKey);
  }

  lemma HeadersKept()
    ensures Kept("[Interface]") && Kept("[Peer]") && Clean("") == ""
    ensures IsHeader("[Interface]") && IsHeader("[Peer]")
    ensures IsInterfaceHeader("[Interface]") && IsPeerHeader("[Peer]") && !IsInterfaceHeader("[Peer]")
  {
    hide Clean;
    HeaderCleans("[Interface]");
    HeaderCleans("[Peer]");
    assert Clean("") == "" by { NothingCleans(); }
  }

  lemma NothingCleans()
    ensures Clean("") == ""
  {
  }

  lemma HeaderCleans(header: string)
    requires header == "[Interface]" || header == "[Peer]"
    ensures Clean(header) == header
  {
    hide Uncomment;
    UncommentNone(header);
  }

  // The peers of a file as it is read: cleaned lines, then blocks, then peers.
  function PeerHeaders(peers: seq<Peer>): seq<string> {
    if peers == [] then [] else ["[Peer]"] + PeerText(peers[0]) + PeerHeaders(peers[1..])
  }

  lemma {:induction false} PeersRead(leaves: Leaves, peers: seq<Peer>)
    requires forall k :: 0 <= k < |peers| ==> GoodPeer(leaves, peers[k])
    ensures AllOneLine(PeersText(peers)) && CleanLines(PeersText(peers)) == PeerHeaders(peers)
    ensures PeerHeaders(peers) == [] || IsHeader(PeerHeaders(peers)[0])
    ensures var blocks := Blocks(PeerHeaders(peers));
            && ParsePeers(leaves, blocks) == Ok(peers) && InterfaceBodies(blocks) == []
  {
    hide PeerText, GoodPeer, ParsePeer, Clean, Kept, IsInterfaceHeader, IsPeerHeader, IsHeader, Blocks;
    if peers == [] {
      NoBlocks();
    } else {
      var text, rest := PeerText(peers[0]), peers[1..];
      HeadersKept();
      PeersRead(leaves, rest);
      PeerLinesKept(leaves, peers[0]);
      PeerReadsBack(leaves, peers[0]);
      PeerCleans(text, PeersText(rest));
      BlocksOf("[Peer]", text, PeerHeaders(rest));
      var blocks := Blocks(PeerHeaders(rest));
      assert ([Block("[Peer]", text)] + blocks)[1..] == blocks;
      assert [peers[0]] + rest == peers;
    }
  }

  lemma NoBlocks()
    ensures Blocks([]) == []
  {
  }

  lemma PeerCleans(text: seq<string>, rest: seq<string>)
    requires Attributes(text) && AllOneLine(rest)
    ensures CleanLines(["", "[Peer]"] + text + rest) == ["[Peer]"] + text + CleanLines(rest)
    ensures AllOneLine(["", "[Peer]"] + text + rest)
  {
    hide CleanLines, Clean;
    HeadersKept();
    assert ["", "[Peer]"] + text + rest == [""] + ((["[Peer]"] + text) + rest);
    CleanFirst("", (["[Peer]"] + text) + rest);
    assert CleanOf("") == [];
    CleanAppend(["[Peer]"] + text, rest);
    CleanKept(["[Peer]"] + text);
  }

  // What comes back of a configuration with tame names.
  lemma TameReadsBack(leaves: Leaves, c: Config)
    requires GoodConfig(leaves, c) && TameNames(Printed(c.interfaze))
    ensures ParseConfig(leaves, Unlines(ConfigText(c)))
         == match ReadInterface(leaves, c.interfaze)
            case Err(e) => Err(e)
            case Ok(i) => Ok(Config(i, c.peers))
  {
    hide Unlines, InterfaceText, PeersText, PeerHeaders, GoodInterface, GoodPeer, ParseInterface, ParsePeers, Clean, Kept,
      IsInterfaceHeader, IsPeerHeader, IsHeader, Blocks, CleanLines, ReadLines, ReadInterface, TameNames, WgParsed.OneLine;
    var text, peers := InterfaceText(c.interfaze), PeersText(c.peers);
    var lines := CleanLines(text);
    HeadersKept();
    InterfaceCleans(leaves, c.interfaze);
    PeersRead(leaves, c.peers);
    var headers := PeerHeaders(c.peers);
    FileCleans(text, peers);
    ReadUnlines(ConfigText(c));
    BlocksOf("[Interface]", lines, headers);
    BodyLengthOf([], ["[Interface]"] + lines + headers);
    assert [] + (["[Interface]"] + lines + headers) == ["[Interface]"] + lines + headers;
    FinishThen(leaves, false, [], [], Block("[Interface]", lines), Blocks(headers));
    TameInterfaceReadsBack(leaves, c.interfaze);
    assert [] + lines == lines && lines + [] == lines && [] + c.peers == c.peers;
  }

  lemma FileCleans(text: seq<string>, rest: seq<string>)
    requires AllOneLine(text) && AllOneLine(rest)
    ensures CleanLines(["[Interface]"] + text + rest) == ["[Interface]"] + CleanLines(text) + CleanLines(rest)
    ensures AllOneLine(["[Interface]"] + text + rest)
  {
    hide CleanLines, Clean;
    HeadersKept();
    CleanAppend(["[Interface]"] + text, rest);
    CleanFirst("[Interface]", text);
  }

  // The servers and search domains that are printed come back.
  predicate DnsListable(leaves: Leaves, i: Interface) {
    i.dnsSearchDomains == [] || (Listable(i.dnsServers + i.dnsSearchDomains) && Searchable(leaves, i.dnsSearchDomains))
  }

  // A configuration of the builders that is printed and parsed comes back, but for the search domains of an
  // interface without a DNS server, where what is printed is listable. It comes back whole if and only if the names of
  // applications are listable, and so are the servers with the search domains, which are host names and no addresses,
  // or there are no search domains.
  lemma RoundTrip(leaves: Leaves, c: Config)
    requires GoodConfig(leaves, c)
    ensures (c.interfaze.dnsServers == [] || DnsListable(leaves, c.interfaze))
            && Listable(c.interfaze.excluded) && Listable(c.interfaze.included)
        ==> ParseConfig(leaves, Unlines(ConfigText(c))) == Ok(Config(Printed(c.interfaze), c.peers))
    ensures ParseConfig(leaves, Unlines(ConfigText(c))) == Ok(c)
       <==> (c.interfaze.dnsServers != [] || c.interfaze.dnsSearchDomains == []) && DnsListable(leaves, c.interfaze)
            && Listable(c.interfaze.excluded) && Listable(c.interfaze.included)
  {
    hide Unlines, ConfigText, ParseConfig, ReadBack, ReadDns, Listable, Searchable, AllTame, GoodPeer;
    var i := c.interfaze;
    ListableTame(i);
    if TameNames(Printed(i)) {
      TameReadsBack(leaves, c);
      ReadInterfaceExact(leaves, i);
    } else {
      ParsedTame(leaves, Unlines(ConfigText(c)));
    }
  }

  lemma ReadInterfaceExact(leaves: Leaves, i: Interface)
    requires GoodInterface(leaves, i) && TameNames(Printed(i))
    ensures (i.dnsServers == [] || DnsListable(leaves, i)) && Listable(i.excluded) && Listable(i.included)
        ==> ReadInterface(leaves, i) == Ok(Printed(i))
    ensures ReadInterface(leaves, i) == Ok(i)
       <==> (i.dnsServers != [] || i.dnsSearchDomains == []) && DnsListable(leaves, i)
            && Listable(i.excluded) && Listable(i.included)
  {
    hide ReadBack, ReadDns, Listable, Searchable, AllTame;
    ReadBackExact(i.excluded);
    ReadBackExact(i.included);
    ReadDnsExact(leaves, i);
    ReadDnsAlone(leaves, NO_INTERFACE.(addresses := i.addresses), i);
  }

  lemma ReadDnsExact(leaves: Leaves, i: Interface)
    requires GoodInterface(leaves, i) && TameNames(Printed(i))
    ensures var base := NO_INTERFACE.(addresses := i.addresses);
            var all := base.(dnsServers := i.dnsServers, dnsSearchDomains := i.dnsSearchDomains);
            && (i.dnsServers == [] ==> ReadDns(leaves, base, i) == Some(base))
            && (i.dnsServers != [] ==> (ReadDns(leaves, base, i) == Some(all) <==> DnsListable(leaves, i)))
  {
    hide ParseDns, TextsRead, Listable, Searchable, Solid, Tame;
    if i.dnsServers != [] {
      DnsExact(leaves, NO_INTERFACE.(addresses := i.addresses), i.dnsServers, i.dnsSearchDomains);
      if i.dnsSearchDomains == [] {
        assert i.dnsServers + i.dnsSearchDomains == i.dnsServers;
        SolidListable(i.dnsServers);
        NoDomains(leaves);
      }
    }
  }

  // An interface that is printed and parsed comes back whole in exactly these cases, whatever its names are.
  lemma InterfaceReadsBack(leaves: Leaves, i: Interface)
    requires GoodInterface(leaves, i)
    ensures ParseInterface(leaves, CleanLines(ReadLines(Unlines(InterfaceText(i))))) == Ok(i)
       <==> (i.dnsServers != [] || i.dnsSearchDomains == []) && DnsListable(leaves, i)
            && Listable(i.excluded) && Listable(i.included)
  {
    hide Unlines, InterfaceText, ReadLines, CleanLines, AfterInterfaceLines, ReadInterface, Listable, Searchable, AllTame;
    ListableTame(i);
    var lines := ReadLines(Unlines(InterfaceText(i)));
    if TameNames(Printed(i)) {
      InterfaceCleans(leaves, i);
      ReadUnlines(InterfaceText(i));
      TameInterfaceReadsBack(leaves, i);
      ReadInterfaceExact(leaves, i);
    } else {
      ReadLinesOneLine(Unlines(InterfaceText(i)));
      CleanLinesUnmarred(lines);
      LinesTame(leaves, NO_INTERFACE, CleanLines(lines));
    }
  }

  lemma ListableTame(i: Interface)
    ensures Listable(i.excluded) ==> AllTame(i.excluded)
    ensures Listable(i.included) ==> AllTame(i.included)
    ensures Listable(i.dnsServers + i.dnsSearchDomains) ==> AllTame(i.dnsSearchDomains)
    ensures AllTame([])
  {
    hide Tame;
    var values := i.dnsServers + i.dnsSearchDomains;
    if Listable(values) {
      forall k | 0 <= k < |i.dnsSearchDomains|
        ensures Tame(i.dnsSearchDomains[k])
      {
        var n := |i.dnsServers| + k;
        assert ListableAt(values[n], n == |values| - 1);
      }
    }
  }

  // A search domain that is an address comes back as a server.
  lemma AddressDomain(leaves: Leaves, c: Config, d: string)
    requires GoodConfig(leaves, c) && GoodText(leaves.address, d)
    requires c.interfaze.dnsServers != [] && d !in c.interfaze.dnsServers && c.interfaze.dnsSearchDomains == [d]
    requires Listable(c.interfaze.excluded) && Listable(c.interfaze.included)
    ensures var i := c.interfaze.(dnsServers := c.interfaze.dnsServers + [d], dnsSearchDomains := []);
            ParseConfig(leaves, Unlines(ConfigText(c))) == Ok(Config(i, c.peers)) != Ok(c)
  {
    hide Unlines, ParseConfig, Listable, GoodPeer, Solid, Listed, Numbered, Named;
    var i := c.interfaze;
    var other := Config(i.(dnsServers := i.dnsServers + [d], dnsSearchDomains := []), c.peers);
    assert i.dnsServers + [d] + [] == i.dnsServers + [d];
    RoundTrip(leaves, other);
  }
}
