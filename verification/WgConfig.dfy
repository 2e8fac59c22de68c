/**
  wg-quick configurations: parsing and printing of interfaces, peers and files (Interface.java, Peer.java, Config.java).

  Addresses, networks, endpoints and keys are leaves: each is represented by the text it prints as, and parsing one is
  a function from a text to that text. Sets keep the order in which their elements were added.
 */
module WgConfig {
  import opened Options
  import opened WgText

  datatype Section = CONFIG | INTERFACE | PEER

  datatype Location = TOP_LEVEL | ADDRESS | ALLOWED_IPS | DNS | ENDPOINT | INCLUDED_APPLICATIONS | LISTEN_PORT
                    | MTU | PERSISTENT_KEEPALIVE | PRE_SHARED_KEY | PRIVATE_KEY | PUBLIC_KEY

  datatype Reason = INVALID_KEY | INVALID_NUMBER | INVALID_VALUE | MISSING_ATTRIBUTE | MISSING_SECTION
                  | SYNTAX_ERROR | UNKNOWN_ATTRIBUTE | UNKNOWN_SECTION

  datatype BadConfig = BadConfig(section: Section, location: Location, reason: Reason)

  datatype Result<T> = Ok(value: T) | Err(error: BadConfig)

  datatype Leaves = Leaves(network: string -> Option<string>, address: string -> Option<string>,
                           endpoint: string -> Option<string>, key: string -> Option<string>, isHostname: string -> bool)

  // An interface as it is built; a finished one has its private key.
  datatype Interface = Interface(addresses: seq<string>, dnsServers: seq<string>, dnsSearchDomains: seq<string>,
                                 excluded: seq<string>, included: seq<string>, privateKey: Option<string>,
                                 listenPort: Option<nat>, mtu: Option<nat>)

  datatype Peer = Peer(allowedIps: seq<string>, endpoint: Option<string>, persistentKeepalive: Option<nat>,
                       preSharedKey: Option<string>, publicKey: Option<string>)

  datatype Config = Config(interfaze: Interface, peers: seq<Peer>)

  const NO_INTERFACE := Interface([], [], [], [], [], None, None, None)
  const NO_PEER := Peer([], None, None, None, None)
  const MAX_PORT := 65535

  function AddNew(values: seq<string>, x: string): seq<string> {
    if x in values then values else values + [x]
  }

  function AddAll(values: seq<string>, more: seq<string>): seq<string>
    decreases |more|
  {
    if more == [] then values else AddAll(AddNew(values, more[0]), more[1..])
  }

  // The elements of a list parsed and added one by one.
  function ParseEach(parse: string -> Option<string>, values: seq<string>, texts: seq<string>): Option<seq<string>>
    decreases |texts|
  {
    if texts == [] then Some(values)
    else
      match parse(texts[0])
      case None => None
      case Some(v) => ParseEach(parse, AddNew(values, v), texts[1..])
  }

  // An element of a DNS list that is no address is a search domain if it is a host name.
  function ParseDns(leaves: Leaves, i: Interface, texts: seq<string>): Option<Interface>
    decreases |texts|
  {
    if texts == [] then Some(i)
    else
      match leaves.address(texts[0])
      case Some(v) => ParseDns(leaves, i.(dnsServers := AddNew(i.dnsServers, v)), texts[1..])
      case None =>
        if leaves.isHostname(texts[0])
        then ParseDns(leaves, i.(dnsSearchDomains := AddNew(i.dnsSearchDomains, texts[0])), texts[1..])
        else None
  }

  function AfterListenPort(i: Interface, n: int): Result<Interface> {
    if n < 0 || n > MAX_PORT then Err(BadConfig(INTERFACE, LISTEN_PORT, INVALID_VALUE))
    else Ok(i.(listenPort := if n == 0 then None else Some(n)))
  }

  function AfterMtu(i: Interface, n: int): Result<Interface> {
    if n < 0 then Err(BadConfig(INTERFACE, LISTEN_PORT, INVALID_VALUE))
    else Ok(i.(mtu := if n == 0 then None else Some(n)))
  }

  function AfterInterfaceAttribute(leaves: Leaves, i: Interface, a: Attribute): Result<Interface> {
    var key := ToLower(a.key);
    if key == "address" then
      match ParseEach(leaves.network, i.addresses, Split(a.value))
      case Some(values) => Ok(i.(addresses := values))
      case None => Err(BadConfig(INTERFACE, ADDRESS, INVALID_VALUE))
    else if key == "dns" then
      match ParseDns(leaves, i, Split(a.value))
      case Some(j) => Ok(j)
      case None => Err(BadConfig(INTERFACE, DNS, INVALID_VALUE))
    else if key == "excludedapplications" then Ok(i.(excluded := AddAll(i.excluded, Split(a.value))))
    else if key == "includedapplications" then Ok(i.(included := AddAll(i.included, Split(a.value))))
    else if key == "listenport" then
      match ParseInt(a.value)
      case Some(n) => AfterListenPort(i, n)
      case None => Err(BadConfig(INTERFACE, LISTEN_PORT, INVALID_NUMBER))
    else if key == "mtu" then
      match ParseInt(a.value)
      case Some(n) => AfterMtu(i, n)
      case None => Err(BadConfig(INTERFACE, MTU, INVALID_NUMBER))
    else if key == "privatekey" then
      match leaves.key(a.value)
      case Some(k) => Ok(i.(privateKey := Some(k)))
      case None => Err(BadConfig(INTERFACE, PRIVATE_KEY, INVALID_KEY))
    else Err(BadConfig(INTERFACE, TOP_LEVEL, UNKNOWN_ATTRIBUTE))
  }

  function AfterInterfaceLines(leaves: Leaves, i: Interface, lines: seq<string>): Result<Interface>
    decreases |lines|
  {
    if lines == [] then Ok(i)
    else
      match ParseAttribute(lines[0])
      case None => Err(BadConfig(INTERFACE, TOP_LEVEL, SYNTAX_ERROR))
      case Some(a) =>
        match AfterInterfaceAttribute(leaves, i, a)
        case Err(e) => Err(e)
        case Ok(j) => AfterInterfaceLines(leaves, j, lines[1..])
  }

  function BuildInterface(i: Interface): Result<Interface> {
    if i.privateKey.None? then Err(BadConfig(INTERFACE, PRIVATE_KEY, MISSING_ATTRIBUTE))
    else if i.included != [] && i.excluded != [] then Err(BadConfig(INTERFACE, INCLUDED_APPLICATIONS, INVALID_KEY))
    else Ok(i)
  }

  function ParseInterface(leaves: Leaves, lines: seq<string>): Result<Interface> {
    match AfterInterfaceLines(leaves, NO_INTERFACE, lines)
    case Err(e) => Err(e)
    case Ok(i) => BuildInterface(i)
  }

  function AfterKeepalive(p: Peer, n: int): Result<Peer> {
    if n < 0 || n > MAX_PORT then Err(BadConfig(PEER, PERSISTENT_KEEPALIVE, INVALID_VALUE))
    else Ok(p.(persistentKeepalive := if n == 0 then None else Some(n)))
  }

  function AfterPeerAttribute(leaves: Leaves, p: Peer, a: Attribute): Result<Peer> {
    var key := ToLower(a.key);
    if key == "allowedips" then
      match ParseEach(leaves.network, p.allowedIps, Split(a.value))
      case Some(values) => Ok(p.(allowedIps := values))
      case None => Err(BadConfig(PEER, ALLOWED_IPS, INVALID_VALUE))
    else if key == "endpoint" then
      match leaves.endpoint(a.value)
      case Some(e) => Ok(p.(endpoint := Some(e)))
      case None => Err(BadConfig(PEER, ENDPOINT, INVALID_VALUE))
    else if key == "persistentkeepalive" then
      match ParseInt(a.value)
      case Some(n) => AfterKeepalive(p, n)
      case None => Err(BadConfig(PEER, PERSISTENT_KEEPALIVE, INVALID_NUMBER))
    else if key == "presharedkey" then
      match leaves.key(a.value)
      case Some(k) => Ok(p.(preSharedKey := Some(k)))
      case None => Err(BadConfig(PEER, PRE_SHARED_KEY, INVALID_KEY))
    else if key == "publickey" then
      match leaves.key(a.value)
      case Some(k) => Ok(p.(publicKey := Some(k)))
      case None => Err(BadConfig(PEER, PUBLIC_KEY, INVALID_KEY))
    else Err(BadConfig(PEER, TOP_LEVEL, UNKNOWN_ATTRIBUTE))
  }

  function AfterPeerLines(leaves: Leaves, p: Peer, lines: seq<string>): Result<Peer>
    decreases |lines|
  {
    if lines == [] then Ok(p)
    else
      match ParseAttribute(lines[0])
      case None => Err(BadConfig(PEER, TOP_LEVEL, SYNTAX_ERROR))
      case Some(a) =>
        match AfterPeerAttribute(leaves, p, a)
        case Err(e) => Err(e)
        case Ok(q) => AfterPeerLines(leaves, q, lines[1..])
  }

  function ParsePeer(leaves: Leaves, lines: seq<string>): Result<Peer> {
    match AfterPeerLines(leaves, NO_PEER, lines)
    case Err(e) => Err(e)
    case Ok(p) => if p.publicKey.None? then Err(BadConfig(PEER, PUBLIC_KEY, MISSING_ATTRIBUTE)) else Ok(p)
  }

  // The loop over the elements of a list of networks: those before the first that does not parse are added.
  method ParseNetworks(network: string -> Option<string>, values: seq<string>, texts: seq<string>)
      returns (ok: bool, added: seq<string>)
    ensures var after := ParseEach(network, values, texts);
            ok == after.Some? && (ok ==> added == after.value)
  {
    added := values;
    var i := 0;
    while i < |texts|
      invariant 0 <= i <= |texts|
      invariant ParseEach(network, values, texts) == ParseEach(network, added, texts[i..])
    {
      assert texts[i..][1..] == texts[i + 1..];
      match network(texts[i]) {
        case None => return false, added;
        case Some(v) => added := AddNew(added, v);
      }
      i := i + 1;
    }
    ok := true;
  }

  class InterfaceBuilder {
    const leaves: Leaves
    var addresses: seq<string>
    var dnsServers: seq<string>
    var dnsSearchDomains: seq<string>
    var excludedApplications: seq<string>
    var includedApplications: seq<string>
    var keyPair: Option<string>
    var listenPort: Option<nat>
    var mtu: Option<nat>

    function Built(): Interface
      reads this
    {
      Interface(addresses, dnsServers, dnsSearchDomains, excludedApplications, includedApplications, keyPair, listenPort, mtu)
    }

    constructor (leaves: Leaves)
      ensures Built() == NO_INTERFACE && this.leaves == leaves
    {
      this.leaves := leaves;
      addresses, dnsServers, dnsSearchDomains, excludedApplications, includedApplications := [], [], [], [], [];
      keyPair, listenPort, mtu := None, None, None;
    }

    method ParseAddresses(texts: seq<string>) returns (ok: bool)
      modifies this
      ensures var after := ParseEach(leaves.network, old(addresses), texts);
              ok == after.Some? && (ok ==> Built() == old(Built()).(addresses := after.value))
    {
      ok, addresses := ParseNetworks(leaves.network, addresses, texts);
    }

    method ParseDnsServers(texts: seq<string>) returns (ok: bool)
      modifies this
      ensures var after := ParseDns(leaves, old(Built()), texts);
              ok == after.Some? && (ok ==> Built() == after.value)
    {
      var i := 0;
      while i < |texts|
        invariant 0 <= i <= |texts|
        invariant ParseDns(leaves, old(Built()), texts) == ParseDns(leaves, Built(), texts[i..])
      {
        assert texts[i..][1..] == texts[i + 1..];
        match leaves.address(texts[i]) {
          case Some(v) => dnsServers := AddNew(dnsServers, v);
          case None =>
            if !leaves.isHostname(texts[i]) {
              return false;
            }
            dnsSearchDomains := AddNew(dnsSearchDomains, texts[i]);
        }
        i := i + 1;
      }
      ok := true;
    }

    method SetListenPort(n: int) returns (error: Option<BadConfig>)
      modifies this
      ensures Outcome(error, Built()) == AfterListenPort(old(Built()), n)
    {
      if n < 0 || n > MAX_PORT {
        return Some(BadConfig(INTERFACE, LISTEN_PORT, INVALID_VALUE));
      }
      listenPort := if n == 0 then None else Some(n);
      return None;
    }

    method SetMtu(n: int) returns (error: Option<BadConfig>)
      modifies this
      ensures Outcome(error, Built()) == AfterMtu(old(Built()), n)
    {
      if n < 0 {
        return Some(BadConfig(INTERFACE, LISTEN_PORT, INVALID_VALUE));
      }
      mtu := if n == 0 then None else Some(n);
      return None;
    }

    // One attribute of an [Interface] block.
    method Add(a: Attribute) returns (error: Option<BadConfig>)
      modifies this
      ensures Outcome(error, Built()) == AfterInterfaceAttribute(leaves, old(Built()), a)
    {
      var key := ToLower(a.key);
      error := None;
      if key == "address" {
        var ok := ParseAddresses(Split(a.value));
        if !ok {
          error := Some(BadConfig(INTERFACE, ADDRESS, INVALID_VALUE));
        }
      } else if key == "dns" {
        var ok := ParseDnsServers(Split(a.value));
        if !ok {
          error := Some(BadConfig(INTERFACE, DNS, INVALID_VALUE));
        }
      } else if key == "excludedapplications" {
        excludedApplications := AddAll(excludedApplications, Split(a.value));
      } else if key == "includedapplications" {
        includedApplications := AddAll(includedApplications, Split(a.value));
      } else if key == "listenport" {
        match ParseInt(a.value) {
          case Some(n) => error := SetListenPort(n);
          case None => error := Some(BadConfig(INTERFACE, LISTEN_PORT, INVALID_NUMBER));
        }
      } else if key == "mtu" {
        match ParseInt(a.value) {
          case Some(n) => error := SetMtu(n);
          case None => error := Some(BadConfig(INTERFACE, MTU, INVALID_NUMBER));
        }
      } else if key == "privatekey" {
        match leaves.key(a.value) {
          case Some(k) => keyPair := Some(k);
          case None => error := Some(BadConfig(INTERFACE, PRIVATE_KEY, INVALID_KEY));
        }
      } else {
        error := Some(BadConfig(INTERFACE, TOP_LEVEL, UNKNOWN_ATTRIBUTE));
      }
    }

    method Build() returns (r: Result<Interface>)
      ensures r == BuildInterface(Built())
    {
      if keyPair.None? {
        return Err(BadConfig(INTERFACE, PRIVATE_KEY, MISSING_ATTRIBUTE));
      }
      if includedApplications != [] && excludedApplications != [] {
        return Err(BadConfig(INTERFACE, INCLUDED_APPLICATIONS, INVALID_KEY));
      }
      return Ok(Built());
    }
  }

  // An exception leaves nothing of what was being built.
  function Outcome<T>(error: Option<BadConfig>, built: T): Result<T> {
    match error
    case None => Ok(built)
    case Some(e) => Err(e)
  }

  method InterfaceOf(leaves: Leaves, lines: seq<string>) returns (r: Result<Interface>)
    ensures r == ParseInterface(leaves, lines)
  {
    hide AfterInterfaceAttribute, ParseAttribute;
    var builder := new InterfaceBuilder(leaves);
    var i := 0;
    while i < |lines|
      invariant 0 <= i <= |lines| && builder.leaves == leaves
      invariant AfterInterfaceLines(leaves, NO_INTERFACE, lines) == AfterInterfaceLines(leaves, builder.Built(), lines[i..])
    {
      assert lines[i..][1..] == lines[i + 1..];
      var attribute := ParseAttribute(lines[i]);
      if attribute.None? {
        return Err(BadConfig(INTERFACE, TOP_LEVEL, SYNTAX_ERROR));
      }
      var error := builder.Add(attribute.value);
      if error.Some? {
        return Err(error.value);
      }
      i := i + 1;
    }
    r := builder.Build();
  }

  class PeerBuilder {
    const leaves: Leaves
    var allowedIps: seq<string>
    var endpoint: Option<string>
    var persistentKeepalive: Option<nat>
    var preSharedKey: Option<string>
    var publicKey: Option<string>

    function Built(): Peer
      reads this
    {
      Peer(allowedIps, endpoint, persistentKeepalive, preSharedKey, publicKey)
    }

    constructor (leaves: Leaves)
      ensures Built() == NO_PEER && this.leaves == leaves
    {
      this.leaves := leaves;
      allowedIps, endpoint, persistentKeepalive, preSharedKey, publicKey := [], None, None, None, None;
    }

    method ParseAllowedIPs(texts: seq<string>) returns (ok: bool)
      modifies this
      ensures var after := ParseEach(leaves.network, old(allowedIps), texts);
              ok == after.Some? && (ok ==> Built() == old(Built()).(allowedIps := after.value))
    {
      ok, allowedIps := ParseNetworks(leaves.network, allowedIps, texts);
    }

    method SetPersistentKeepalive(n: int) returns (error: Option<BadConfig>)
      modifies this
      ensures Outcome(error, Built()) == AfterKeepalive(old(Built()), n)
    {
      if n < 0 || n > MAX_PORT {
        return Some(BadConfig(PEER, PERSISTENT_KEEPALIVE, INVALID_VALUE));
      }
      persistentKeepalive := if n == 0 then None else Some(n);
      return None;
    }

    // One attribute of a [Peer] block.
    method Add(a: Attribute) returns (error: Option<BadConfig>)
      modifies this
      ensures Outcome(error, Built()) == AfterPeerAttribute(leaves, old(Built()), a)
    {
      var key := ToLower(a.key);
      error := None;
      if key == "allowedips" {
        var ok := ParseAllowedIPs(Split(a.value));
        if !ok {
          error := Some(BadConfig(PEER, ALLOWED_IPS, INVALID_VALUE));
        }
      } else if key == "endpoint" {
        match leaves.endpoint(a.value) {
          case Some(e) => endpoint := Some(e);
          case None => error := Some(BadConfig(PEER, ENDPOINT, INVALID_VALUE));
        }
      } else if key == "persistentkeepalive" {
        match ParseInt(a.value) {
          case Some(n) => error := SetPersistentKeepalive(n);
          case None => error := Some(BadConfig(PEER, PERSISTENT_KEEPALIVE, INVALID_NUMBER));
        }
      } else if key == "presharedkey" {
        match leaves.key(a.value) {
          case Some(k) => preSharedKey := Some(k);
          case None => error := Some(BadConfig(PEER, PRE_SHARED_KEY, INVALID_KEY));
        }
      } else if key == "publickey" {
        match leaves.key(a.value) {
          case Some(k) => publicKey := Some(k);
          case None => error := Some(BadConfig(PEER, PUBLIC_KEY, INVALID_KEY));
        }
      } else {
        error := Some(BadConfig(PEER, TOP_LEVEL, UNKNOWN_ATTRIBUTE));
      }
    }
  }

  method PeerOf(leaves: Leaves, lines: seq<string>) returns (r: Result<Peer>)
    ensures r == ParsePeer(leaves, lines)
  {
    hide AfterPeerAttribute, ParseAttribute;
    var builder := new PeerBuilder(leaves);
    var i := 0;
    while i < |lines|
      invariant 0 <= i <= |lines| && builder.leaves == leaves
      invariant AfterPeerLines(leaves, NO_PEER, lines) == AfterPeerLines(leaves, builder.Built(), lines[i..])
    {
      assert lines[i..][1..] == lines[i + 1..];
      var attribute := ParseAttribute(lines[i]);
      if attribute.None? {
        return Err(BadConfig(PEER, TOP_LEVEL, SYNTAX_ERROR));
      }
      var error := builder.Add(attribute.value);
      if error.Some? {
        return Err(error.value);
      }
      i := i + 1;
    }
    if builder.publicKey.None? {
      return Err(BadConfig(PEER, PUBLIC_KEY, MISSING_ATTRIBUTE));
    }
    return Ok(builder.Built());
  }

  function Clean(line: string): string {
    Trim(Uncomment(line))
  }

  // The lines that say something, without comments and outer whitespace.
  function CleanLines(lines: seq<string>): seq<string> {
    if lines == [] then []
    else (if Clean(lines[0]) == "" then [] else [Clean(lines[0])]) + CleanLines(lines[1..])
  }

  predicate IsHeader(line: string) {
    line != "" && line[0] == '['
  }

  predicate IsInterfaceHeader(line: string) {
    EqualsIgnoreCase("[Interface]", line)
  }

  predicate IsPeerHeader(line: string) {
    EqualsIgnoreCase("[Peer]", line)
  }

  // How many lines come before the next header.
  function BodyLength(lines: seq<string>): (n: nat)
    ensures n <= |lines| && (n < |lines| ==> IsHeader(lines[n]))
  {
    if lines == [] || IsHeader(lines[0]) then 0 else 1 + BodyLength(lines[1..])
  }

  datatype Block = Block(header: string, body: seq<string>)

  // Lines that start with a header, cut at the headers.
  function Blocks(lines: seq<string>): seq<Block>
    decreases |lines|
  {
    if lines == [] then []
    else
      var n := BodyLength(lines[1..]);
      [Block(lines[0], lines[1..][..n])] + Blocks(lines[1..][n..])
  }

  // All [Interface] blocks of a file, put together.
  function InterfaceBodies(blocks: seq<Block>): seq<string> {
    if blocks == [] then []
    else (if IsInterfaceHeader(blocks[0].header) then blocks[0].body else []) + InterfaceBodies(blocks[1..])
  }

  predicate HasInterface(blocks: seq<Block>) {
    exists i :: 0 <= i < |blocks| && IsInterfaceHeader(blocks[i].header)
  }

  // The [Peer] blocks one by one, in the order of the file, up to the first that is wrong.
  function ParsePeers(leaves: Leaves, blocks: seq<Block>): Result<seq<Peer>>
    decreases |blocks|
  {
    if blocks == [] then Ok([])
    else if IsInterfaceHeader(blocks[0].header) then ParsePeers(leaves, blocks[1..])
    else if IsPeerHeader(blocks[0].header) then
      match ParsePeer(leaves, blocks[0].body)
      case Err(e) => Err(e)
      case Ok(p) =>
        match ParsePeers(leaves, blocks[1..])
        case Err(e) => Err(e)
        case Ok(ps) => Ok([p] + ps)
    else Err(BadConfig(CONFIG, TOP_LEVEL, UNKNOWN_SECTION))
  }

  // What is left to do with blocks after some interface lines and peers.
  function Finish(leaves: Leaves, seen: bool, interfaceLines: seq<string>, peers: seq<Peer>, blocks: seq<Block>): Result<Config> {
    match ParsePeers(leaves, blocks)
    case Err(e) => Err(e)
    case Ok(more) =>
      if !seen && !HasInterface(blocks) then Err(BadConfig(CONFIG, TOP_LEVEL, MISSING_SECTION))
      else
        match ParseInterface(leaves, interfaceLines + InterfaceBodies(blocks))
        case Err(e) => Err(e)
        case Ok(i) => Ok(Config(i, peers + more))
  }

  // A file: nothing before the first header, peers in order, the interface last, from all of its blocks together.
  function ParseConfig(leaves: Leaves, text: string): Result<Config> {
    var lines := CleanLines(ReadLines(text));
    if BodyLength(lines) > 0 then Err(BadConfig(CONFIG, TOP_LEVEL, UNKNOWN_SECTION))
    else Finish(leaves, false, [], [], Blocks(lines))
  }

  datatype Within = Top | InInterface | InPeer(lines: seq<string>)

  // What parsing comes to from within a section, with these lines still to read.
  function Resume(leaves: Leaves, within: Within, seen: bool, interfaceLines: seq<string>, peers: seq<Peer>, lines: seq<string>): Result<Config> {
    var n := BodyLength(lines);
    var body, blocks := lines[..n], Blocks(lines[n..]);
    match within
    case Top => if n > 0 then Err(BadConfig(CONFIG, TOP_LEVEL, UNKNOWN_SECTION)) else Finish(leaves, seen, interfaceLines, peers, blocks)
    case InInterface => Finish(leaves, seen, interfaceLines + body, peers, blocks)
    case InPeer(peerLines) =>
      match ParsePeer(leaves, peerLines + body)
      case Err(e) => Err(e)
      case Ok(p) => Finish(leaves, seen, interfaceLines, peers + [p], blocks)
  }

  lemma ResumeBody(leaves: Leaves, within: Within, seen: bool, interfaceLines: seq<string>, peers: seq<Peer>, lines: seq<string>)
    requires lines != [] && !IsHeader(lines[0])
    ensures Resume(leaves, within, seen, interfaceLines, peers, lines)
         == match within
            case Top => Err(BadConfig(CONFIG, TOP_LEVEL, UNKNOWN_SECTION))
            case InInterface => Resume(leaves, within, seen, interfaceLines + [lines[0]], peers, lines[1..])
            case InPeer(peerLines) => Resume(leaves, InPeer(peerLines + [lines[0]]), seen, interfaceLines, peers, lines[1..])
  {
    hide Finish, ParsePeer, Blocks;
    var n := BodyLength(lines);
    assert lines[..n] == [lines[0]] + lines[1..][..n - 1];
    assert lines[n..] == lines[1..][n - 1..];
    assert interfaceLines + lines[..n] == interfaceLines + [lines[0]] + lines[1..][..n - 1];
    if within.InPeer? {
      assert within.lines + lines[..n] == within.lines + [lines[0]] + lines[1..][..n - 1];
    }
  }

  // One block more at the front.
  lemma FinishThen(leaves: Leaves, seen: bool, interfaceLines: seq<string>, peers: seq<Peer>, first: Block, rest: seq<Block>)
    ensures Finish(leaves, seen, interfaceLines, peers, [first] + rest)
         == if IsInterfaceHeader(first.header) then Finish(leaves, true, interfaceLines + first.body, peers, rest)
            else if IsPeerHeader(first.header) then
              (match ParsePeer(leaves, first.body)
               case Err(e) => Err(e)
               case Ok(p) => Finish(leaves, seen, interfaceLines, peers + [p], rest))
            else Err(BadConfig(CONFIG, TOP_LEVEL, UNKNOWN_SECTION))
  {
    hide ParsePeer, ParseInterface, IsInterfaceHeader, IsPeerHeader, HasInterface;
    assert ([first] + rest)[1..] == rest;
    HasInterfaceThen(first, rest);
    if IsInterfaceHeader(first.header) {
      assert interfaceLines + (first.body + InterfaceBodies(rest)) == interfaceLines + first.body + InterfaceBodies(rest);
    } else {
      assert [] + InterfaceBodies(rest) == InterfaceBodies(rest);
      var p, more := ParsePeer(leaves, first.body), ParsePeers(leaves, rest);
      assert p.Ok? && more.Ok? ==> peers + ([p.value] + more.value) == peers + [p.value] + more.value;
    }
  }

  // After a header, with the peer before it done.
  lemma ResumeHeader(leaves: Leaves, seen: bool, interfaceLines: seq<string>, peers: seq<Peer>, lines: seq<string>)
    requires lines != [] && IsHeader(lines[0])
    ensures Finish(leaves, seen, interfaceLines, peers, Blocks(lines))
         == if IsInterfaceHeader(lines[0]) then Resume(leaves, InInterface, true, interfaceLines, peers, lines[1..])
            else if IsPeerHeader(lines[0]) then Resume(leaves, InPeer([]), seen, interfaceLines, peers, lines[1..])
            else Err(BadConfig(CONFIG, TOP_LEVEL, UNKNOWN_SECTION))
  {
    hide Finish, ParsePeer, ParseInterface, IsInterfaceHeader, IsPeerHeader;
    var n := BodyLength(lines[1..]);
    var first, rest := Block(lines[0], lines[1..][..n]), Blocks(lines[1..][n..]);
    FinishThen(leaves, seen, interfaceLines, peers, first, rest);
    assert [] + first.body == first.body;
  }

  lemma HasInterfaceThen(first: Block, rest: seq<Block>)
    ensures HasInterface([first] + rest) <==> IsInterfaceHeader(first.header) || HasInterface(rest)
  {
    var all := [first] + rest;
    if HasInterface(rest) {
      var i :| 0 <= i < |rest| && IsInterfaceHeader(rest[i].header);
      assert IsInterfaceHeader(all[i + 1].header);
    }
    if HasInterface(all) {
      var i :| 0 <= i < |all| && IsInterfaceHeader(all[i].header);
      assert i > 0 ==> IsInterfaceHeader(rest[i - 1].header);
    }
    assert all[0] == first;
  }

  class ConfigBuilder {
    const leaves: Leaves
    var peers: seq<Peer>
    var interfaze: Option<Interface>

    constructor (leaves: Leaves)
      ensures this.leaves == leaves && peers == [] && interfaze == None
    {
      this.leaves := leaves;
      peers, interfaze := [], None;
    }

    method AddPeerOf(lines: seq<string>) returns (error: Option<BadConfig>)
      modifies this
      ensures interfaze == old(interfaze)
      ensures match ParsePeer(leaves, lines)
              case Ok(p) => error == None && peers == old(peers) + [p]
              case Err(e) => error == Some(e)
    {
      var r := PeerOf(leaves, lines);
      match r {
        case Ok(p) =>
          peers := peers + [p];
          error := None;
        case Err(e) => error := Some(e);
      }
    }

    method SetInterfaceOf(lines: seq<string>) returns (error: Option<BadConfig>)
      modifies this
      ensures peers == old(peers)
      ensures match ParseInterface(leaves, lines)
              case Ok(i) => error == None && interfaze == Some(i)
              case Err(e) => error == Some(e)
    {
      var r := InterfaceOf(leaves, lines);
      match r {
        case Ok(i) =>
          interfaze := Some(i);
          error := None;
        case Err(e) => error := Some(e);
      }
    }
  }

  function WithinOf(inInterface: bool, inPeer: bool, peerLines: seq<string>): Within {
    if inInterface then InInterface else if inPeer then InPeer(peerLines) else Top
  }

  method Parse(leaves: Leaves, text: string) returns (r: Result<Config>)
    ensures r == ParseConfig(leaves, text)
  {
    hide ParseConfig, Resume, Finish, ParsePeer, ParseInterface, Clean, CleanLines, ReadLines, Blocks, IsInterfaceHeader, IsPeerHeader;
    var builder := new ConfigBuilder(leaves);
    var interfaceLines, peerLines := [], [];
    var inInterfaceSection, inPeerSection, seenInterfaceSection := false, false, false;
    var lines := ReadLines(text);
    ResumeTop(leaves, text);
    var k := 0;
    while k < |lines|
      invariant 0 <= k <= |lines|
      invariant !(inInterfaceSection && inPeerSection)
      invariant !inPeerSection ==> peerLines == []
      invariant builder.leaves == leaves
      invariant ParseConfig(leaves, text)
             == Resume(leaves, WithinOf(inInterfaceSection, inPeerSection, peerLines), seenInterfaceSection,
                       interfaceLines, builder.peers, CleanLines(lines[k..]))
    {
      ghost var rest := CleanLines(lines[k..]);
      ghost var within := WithinOf(inInterfaceSection, inPeerSection, peerLines);
      CleanStep(lines, k);
      var line := Clean(lines[k]);
      k := k + 1;
      if line == "" {
        continue;
      }
      if line[0] == '[' {
        ResumeAtHeader(leaves, within, seenInterfaceSection, interfaceLines, builder.peers, rest);
        if inPeerSection {
          var error := builder.AddPeerOf(peerLines);
          if error.Some? {
            return Err(error.value);
          }
          peerLines := [];
        }
        ResumeHeader(leaves, seenInterfaceSection, interfaceLines, builder.peers, rest);
        if IsInterfaceHeader(line) {
          inInterfaceSection, inPeerSection, seenInterfaceSection := true, false, true;
        } else if IsPeerHeader(line) {
          inInterfaceSection, inPeerSection := false, true;
        } else {
          return Err(BadConfig(CONFIG, TOP_LEVEL, UNKNOWN_SECTION));
        }
      } else {
        ResumeBody(leaves, within, seenInterfaceSection, interfaceLines, builder.peers, rest);
        if inInterfaceSection {
          interfaceLines := interfaceLines + [line];
        } else if inPeerSection {
          peerLines := peerLines + [line];
        } else {
          return Err(BadConfig(CONFIG, TOP_LEVEL, UNKNOWN_SECTION));
        }
      }
    }
    assert lines[k..] == [];
    CleanNone();
    ResumeEnd(leaves, WithinOf(inInterfaceSection, inPeerSection, peerLines), seenInterfaceSection, interfaceLines, builder.peers);
    if inPeerSection {
      var error := builder.AddPeerOf(peerLines);
      if error.Some? {
        return Err(error.value);
      }
    }
    FinishEnd(leaves, seenInterfaceSection, interfaceLines, builder.peers);
    if !seenInterfaceSection {
      return Err(BadConfig(CONFIG, TOP_LEVEL, MISSING_SECTION));
    }
    var error := builder.SetInterfaceOf(interfaceLines);
    if error.Some? {
      return Err(error.value);
    }
    return Ok(Config(builder.interfaze.value, builder.peers));
  }

  lemma CleanStep(lines: seq<string>, k: nat)
    requires k < |lines|
    ensures var rest, after := CleanLines(lines[k..]), CleanLines(lines[k + 1..]);
            if Clean(lines[k]) == "" then rest == after else rest == [Clean(lines[k])] + after && rest[1..] == after
  {
    hide Clean;
    assert lines[k..][1..] == lines[k + 1..];
    assert [] + CleanLines(lines[k + 1..]) == CleanLines(lines[k + 1..]);
  }

  lemma CleanNone()
    ensures CleanLines([]) == []
  {
  }

  lemma ResumeTop(leaves: Leaves, text: string)
    ensures var lines := ReadLines(text);
            ParseConfig(leaves, text) == Resume(leaves, Top, false, [], [], CleanLines(lines[0..]))
  {
    hide Finish, Blocks, CleanLines, ReadLines;
    assert ReadLines(text)[0..] == ReadLines(text);
    var lines := CleanLines(ReadLines(text));
    assert lines[0..] == lines;
  }

  // A header ends the peer it comes after, if any.
  lemma ResumeAtHeader(leaves: Leaves, within: Within, seen: bool, interfaceLines: seq<string>, peers: seq<Peer>, lines: seq<string>)
    requires lines != [] && IsHeader(lines[0])
    ensures Resume(leaves, within, seen, interfaceLines, peers, lines)
         == match within
            case InPeer(peerLines) =>
              (match ParsePeer(leaves, peerLines)
               case Err(e) => Err(e)
               case Ok(p) => Finish(leaves, seen, interfaceLines, peers + [p], Blocks(lines)))
            case _ => Finish(leaves, seen, interfaceLines, peers, Blocks(lines))
  {
    hide Finish, ParsePeer, Blocks;
    assert BodyLength(lines) == 0 && lines[..0] == [] && lines[0..] == lines;
    assert interfaceLines + [] == interfaceLines;
    if within.InPeer? {
      assert within.lines + [] == within.lines;
    }
  }

  lemma ResumeEnd(leaves: Leaves, within: Within, seen: bool, interfaceLines: seq<string>, peers: seq<Peer>)
    ensures Resume(leaves, within, seen, interfaceLines, peers, [])
         == match within
            case InPeer(peerLines) =>
              (match ParsePeer(leaves, peerLines)
               case Err(e) => Err(e)
               case Ok(p) => Finish(leaves, seen, interfaceLines, peers + [p], []))
            case _ => Finish(leaves, seen, interfaceLines, peers, [])
  {
    hide Finish, ParsePeer;
    assert interfaceLines + [] == interfaceLines;
    if within.InPeer? {
      assert within.lines + [] == within.lines;
    }
  }

  lemma FinishEnd(leaves: Leaves, seen: bool, interfaceLines: seq<string>, peers: seq<Peer>)
    ensures Finish(leaves, seen, interfaceLines, peers, [])
         == if !seen then Err(BadConfig(CONFIG, TOP_LEVEL, MISSING_SECTION))
            else match ParseInterface(leaves, interfaceLines)
                 case Err(e) => Err(e)
                 case Ok(i) => Ok(Config(i, peers))
  {
    hide ParseInterface;
    assert interfaceLines + [] == interfaceLines && peers + [] == peers;
  }
}
