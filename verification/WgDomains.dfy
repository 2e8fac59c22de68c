/**
  What becomes of the servers and search domains of an interface, which share one line: search domains are texts of
  any kind, and only their reading tells them from servers.
 */
module WgDomains {
  import opened Options
  import opened WgText
  import opened WgConfig
  import opened WgNames

  // What is kept of an interface that is printed: search domains get lost where there is no server.
  function Printed(i: Interface): Interface {
    if i.dnsServers == [] then i.(dnsSearchDomains := []) else i
  }

  // The DNS line of an interface, read into another one.
  function ReadDns(leaves: Leaves, base: Interface, i: Interface): Option<Interface> {
    if i.dnsServers == [] then Some(base) else ParseDns(leaves, base, TextsRead(i.dnsServers + i.dnsSearchDomains))
  }

  // Host names that are no addresses.
  predicate Searchable(leaves: Leaves, domains: seq<string>) {
    forall k :: 0 <= k < |domains| ==> leaves.address(domains[k]) == None && leaves.isHostname(domains[k])
  }

  predicate AllAddresses(leaves: Leaves, servers: seq<string>) {
    forall k :: 0 <= k < |servers| ==> leaves.address(servers[k]) == Some(servers[k])
  }

  lemma NotBefore(before: seq<string>, values: seq<string>)
    requires values != [] && NoneTwice(before + values)
    ensures values[0] !in before && AddNew(before, values[0]) == before + [values[0]]
    ensures NoneTwice(before + [values[0]] + values[1..])
  {
    var all := before + values;
    assert before + [values[0]] + values[1..] == all;
    forall i | 0 <= i < |before|
      ensures before[i] != values[0]
    {
      assert all[i] == before[i] && all[|before|] == values[0];
    }
  }

  lemma {:induction false} ParseServers(leaves: Leaves, i: Interface, servers: seq<string>, more: seq<string>)
    requires NoneTwice(i.dnsServers + servers) && AllAddresses(leaves, servers)
    ensures ParseDns(leaves, i, servers + more) == ParseDns(leaves, i.(dnsServers := i.dnsServers + servers), more)
    decreases |servers|
  {
    if servers == [] {
      assert servers + more == more && i.dnsServers + servers == i.dnsServers;
    } else {
      NotBefore(i.dnsServers, servers);
      ParseServers(leaves, i.(dnsServers := i.dnsServers + [servers[0]]), servers[1..], more);
      assert (servers + more)[1..] == servers[1..] + more;
      assert i.dnsServers + [servers[0]] + servers[1..] == i.dnsServers + servers;
    }
  }

  lemma {:induction false} ParseDomains(leaves: Leaves, i: Interface, domains: seq<string>)
    requires NoneTwice(i.dnsSearchDomains + domains) && Searchable(leaves, domains)
    ensures ParseDns(leaves, i, domains) == Some(i.(dnsSearchDomains := i.dnsSearchDomains + domains))
    decreases |domains|
  {
    if domains == [] {
      assert i.dnsSearchDomains + domains == i.dnsSearchDomains;
    } else {
      NotBefore(i.dnsSearchDomains, domains);
      ParseDomains(leaves, i.(dnsSearchDomains := i.dnsSearchDomains + [domains[0]]), domains[1..]);
      assert i.dnsSearchDomains + [domains[0]] + domains[1..] == i.dnsSearchDomains + domains;
    }
  }

  // Reading adds no more elements than there are, and touches nothing else.
  lemma {:induction false} ParseDnsAdds(leaves: Leaves, i: Interface, texts: seq<string>)
    ensures var j := ParseDns(leaves, i, texts);
            j.Some? ==>
              && j.value == i.(dnsServers := j.value.dnsServers, dnsSearchDomains := j.value.dnsSearchDomains)
              && |j.value.dnsServers| + |j.value.dnsSearchDomains| <= |i.dnsServers| + |i.dnsSearchDomains| + |texts|
              && |i.dnsServers| <= |j.value.dnsServers|
    decreases |texts|
  {
    if texts != [] {
      match leaves.address(texts[0])
      case Some(v) => ParseDnsAdds(leaves, i.(dnsServers := AddNew(i.dnsServers, v)), texts[1..]);
      case None => ParseDnsAdds(leaves, i.(dnsSearchDomains := AddNew(i.dnsSearchDomains, texts[0])), texts[1..]);
    }
  }

  // Where each of the elements has become a search domain, none is an address and all are host names.
  lemma {:induction false} AllDomains(leaves: Leaves, i: Interface, texts: seq<string>)
    requires ParseDns(leaves, i, texts).Some?
    requires var j := ParseDns(leaves, i, texts).value;
             |j.dnsServers| == |i.dnsServers| && |j.dnsSearchDomains| == |i.dnsSearchDomains| + |texts|
    ensures ParseDns(leaves, i, texts).value.dnsSearchDomains == i.dnsSearchDomains + texts && Searchable(leaves, texts)
    decreases |texts|
  {
    if texts == [] {
      assert i.dnsSearchDomains + texts == i.dnsSearchDomains;
    } else {
      match leaves.address(texts[0])
      case Some(v) =>
        ParseDnsAdds(leaves, i.(dnsServers := AddNew(i.dnsServers, v)), texts[1..]);
        assert false;
      case None =>
        var next := i.(dnsSearchDomains := AddNew(i.dnsSearchDomains, texts[0]));
        ParseDnsAdds(leaves, next, texts[1..]);
        AllDomains(leaves, next, texts[1..]);
        assert i.dnsSearchDomains + [texts[0]] + texts[1..] == i.dnsSearchDomains + texts;
    }
  }

  /* ---------- what the printed line is read as ---------- */

  // Nothing is taken off the front of a line that begins with solid text.
  lemma SolidStart(values: seq<string>)
    requires values != [] && Solid(values[0])
    ensures var printed := TrimRight(Joined(values));
            printed != "" && SkipSpace(printed) == printed && !Trimmable(printed[|printed| - 1])
  {
    hide Joined;
    var j := Joined(values);
    JoinedBegins(values);
    JoinedFirst(values);
    assert !Trimmable(j[0]);
    TrimEnds(j);
    TrimSome(j);
  }

  lemma JoinedBegins(values: seq<string>)
    requires values != [] && values[0] != ""
    ensures Joined(values) != ""
  {
  }

  lemma {:induction false} TrimSome(s: string)
    requires s != "" && !Trimmable(s[0])
    ensures TrimRight(s) != "" && TrimRight(s)[0] == s[0]
  {
    if Trimmable(s[|s| - 1]) {
      TrimSome(s[..|s| - 1]);
    }
  }

  // A solid element before the last is read as itself, if no empty element is dropped.
  lemma SolidElement(values: seq<string>, k: nat)
    requires AllTame(values) && k < |values| - 1 && Solid(values[0]) && Solid(values[k])
    requires |TextsRead(values)| == |values|
    ensures TextsRead(values)[k] == values[k]
  {
    hide Joined, Pieces, TrimRight, SkipSpace, CutSpace, Solid, Tame, DropEmptyTail, IsSpace, Trimmable;
    var j := Joined(values);
    var v := TrimRight(j);
    SolidStart(values);
    TameNoComma(values);
    PiecesOfList(values);
    TrimKeepsPieces(j);
    var pieces := Pieces(v);
    assert pieces[k] == pieces[..|values| - 1][k] == Spaced(values)[..|values| - 1][k] == Spaced(values)[k];
    PiecesEnds(v);
    ManyPieces(v);
    DropShort(StripAll(pieces));
    SolidAt(values[k]);
    SkipOne(values[k], false);
  }

  lemma ManyPieces(v: string)
    requires |Pieces(v)| > 1
    ensures ',' in v
  {
    if ',' !in v {
      PiecesNone(v);
    }
  }

  lemma SolidAt(s: string)
    requires Solid(s)
    ensures ListableAt(s, false) && Tame(s)
  {
  }

  // A line of servers and search domains is read as these if and only if they are listable and the domains are host
  // names that are no addresses.
  lemma DnsExact(leaves: Leaves, base: Interface, servers: seq<string>, domains: seq<string>)
    requires servers != [] && AllSolid(servers) && NoneTwice(servers) && AllAddresses(leaves, servers)
    requires AllTame(domains) && NoneTwice(domains) && base.dnsServers == [] && base.dnsSearchDomains == []
    ensures ParseDns(leaves, base, TextsRead(servers + domains)) == Some(base.(dnsServers := servers, dnsSearchDomains := domains))
       <==> Listable(servers + domains) && Searchable(leaves, domains)
  {
    hide TextsRead, ParseDns, Listable, Searchable, AllSolid, AllTame, AllAddresses, NoneTwice;
    var values := servers + domains;
    if Listable(values) && Searchable(leaves, domains) {
      ListableRead(servers, domains);
      ServersThenDomains(leaves, base, servers, domains);
    }
    if ParseDns(leaves, base, TextsRead(values)) == Some(base.(dnsServers := servers, dnsSearchDomains := domains)) {
      ReadListable(leaves, base, servers, domains);
    }
  }

  lemma ServersThenDomains(leaves: Leaves, base: Interface, servers: seq<string>, domains: seq<string>)
    requires NoneTwice(servers) && AllAddresses(leaves, servers) && NoneTwice(domains) && Searchable(leaves, domains)
    requires base.dnsServers == [] && base.dnsSearchDomains == []
    ensures ParseDns(leaves, base, servers + domains) == Some(base.(dnsServers := servers, dnsSearchDomains := domains))
  {
    hide ParseDns, NoneTwice, AllAddresses, Searchable;
    assert [] + servers == servers && [] + domains == domains;
    ParseServers(leaves, base, servers, domains);
    ParseDomains(leaves, base.(dnsServers := servers), domains);
  }

  lemma ListableRead(servers: seq<string>, domains: seq<string>)
    requires servers != [] && AllSolid(servers) && Listable(servers + domains)
    ensures TextsRead(servers + domains) == servers + domains
  {
    hide Joined, Split, TrimRight, SkipSpace, Solid, IsSpace, Trimmable, Tame;
    var values := servers + domains;
    assert values[0] == servers[0] && Solid(servers[0]);
    var last := |values| - 1;
    assert ListableAt(values[last], true);
    JoinedLast(values);
    SolidStart(values);
    NothingToTrim(Joined(values));
    SplitJoined(values);
  }

  lemma NothingToTrim(s: string)
    requires s == "" || !Trimmable(s[|s| - 1])
    ensures TrimRight(s) == s
  {
  }

  lemma ReadListable(leaves: Leaves, base: Interface, servers: seq<string>, domains: seq<string>)
    requires servers != [] && AllSolid(servers) && NoneTwice(servers) && AllAddresses(leaves, servers)
    requires AllTame(domains) && base.dnsServers == [] && base.dnsSearchDomains == []
    requires ParseDns(leaves, base, TextsRead(servers + domains)) == Some(base.(dnsServers := servers, dnsSearchDomains := domains))
    ensures Listable(servers + domains) && Searchable(leaves, domains)
  {
    hide TextsRead, ParseDns, Listable, Searchable, NoneTwice, AllSolid, AllTame, AllAddresses, Solid, Tame;
    var values := servers + domains;
    var texts := TextsRead(values);
    ParseDnsAdds(leaves, base, texts);
    AllValuesTame(servers, domains);
    FewTexts(values);
    if domains == [] {
      assert values == servers;
      SolidListable(servers);
      NoDomains(leaves);
    } else {
      ServersRead(servers, domains);
      var rest := texts[|servers|..];
      assert texts == servers + rest && [] + servers == servers && [] + rest == rest;
      ParseServers(leaves, base, servers, rest);
      AllDomains(leaves, base.(dnsServers := servers), rest);
      assert texts == values;
      WholeListable(values);
    }
  }

  lemma NoDomains(leaves: Leaves)
    ensures Searchable(leaves, [])
  {
  }

  lemma AllValuesTame(servers: seq<string>, domains: seq<string>)
    requires AllSolid(servers) && AllTame(domains)
    ensures AllTame(servers + domains)
    ensures servers != [] ==> Solid((servers + domains)[0])
  {
    hide Solid, Tame;
    var values := servers + domains;
    forall k | 0 <= k < |values|
      ensures Tame(values[k])
    {
      if k < |servers| {
        assert Solid(servers[k]);
        SolidAt(servers[k]);
      }
    }
  }

  lemma FewTexts(values: seq<string>)
    requires values != [] && AllTame(values) && Solid(values[0])
    ensures |TextsRead(values)| <= |values|
  {
    hide Joined, Pieces, Split, TrimRight, SkipSpace, Tame, Solid;
    var j := Joined(values);
    SolidStart(values);
    TameNoComma(values);
    PiecesOfList(values);
    TrimKeepsPieces(j);
    SplitShort(TrimRight(j));
  }

  lemma ServersRead(servers: seq<string>, domains: seq<string>)
    requires servers != [] && domains != [] && AllSolid(servers) && AllTame(servers + domains)
    requires |TextsRead(servers + domains)| == |servers + domains|
    ensures TextsRead(servers + domains)[..|servers|] == servers
  {
    hide TextsRead, Solid, Tame;
    var values := servers + domains;
    assert Solid(servers[0]) && values[0] == servers[0];
    forall k | 0 <= k < |servers|
      ensures TextsRead(values)[k] == servers[k]
    {
      assert Solid(servers[k]) && values[k] == servers[k];
      SolidElement(values, k);
    }
  }

  // A list that is read as itself is listable.
  lemma WholeListable(values: seq<string>)
    requires values != [] && AllTame(values) && Solid(values[0]) && TextsRead(values) == values
    ensures Listable(values)
  {
    hide Joined, Pieces, Split, TrimRight, SkipSpace, Tame, IsSpace, Trimmable;
    var j := Joined(values);
    var v := TrimRight(j);
    SolidStart(values);
    JoinedTame(values);
    TrimEnds(j);
    JoinedBegins(values);
    JoinedFirst(values);
    FirstSolid(values[0]);
    TameNoComma(values);
    PiecesOfList(values);
    TrimKeepsPieces(j);
    SplitListable(v);
  }

  lemma FirstSolid(s: string)
    requires Solid(s)
    ensures !IsSpace(s[0])
  {
  }
}
