/**
  What the names of applications and the search domains in a parsed configuration look like, whatever the file: no
  comma, no comment sign and no end of line is in them.
 */
module WgParsed {
  import opened WgText
  import opened WgConfig
  import opened WgNames

  predicate TameNames(i: Interface) {
    AllTame(i.excluded) && AllTame(i.included) && AllTame(i.dnsSearchDomains)
  }

  predicate OneLine(line: string) {
    '\n' !in line && '\r' !in line
  }

  predicate AllOneLine(lines: seq<string>) {
    forall i :: 0 <= i < |lines| ==> OneLine(lines[i])
  }

  predicate AllUnmarred(lines: seq<string>) {
    forall i :: 0 <= i < |lines| ==> Unmarred(lines[i])
  }

  lemma {:induction false} LineEndFirst(text: string)
    ensures OneLine(text[..LineEnd(text)])
  {
    if text != "" && text[0] != '\n' && text[0] != '\r' {
      LineEndFirst(text[1..]);
      var n := LineEnd(text[1..]);
      assert text[..n + 1] == [text[0]] + text[1..][..n];
    }
  }

  lemma {:induction false} ReadLinesOneLine(text: string)
    ensures AllOneLine(ReadLines(text))
    decreases |text|
  {
    hide LineEnd, OneLine;
    if text != "" {
      var n := LineEnd(text);
      LineEndFirst(text);
      if n == |text| {
        assert text[..n] == text;
      } else {
        var after := if text[n] == '\r' && n + 1 < |text| && text[n + 1] == '\n' then n + 2 else n + 1;
        ReadLinesOneLine(text[after..]);
      }
    }
  }

  lemma {:induction false} UncommentUnmarred(line: string)
    requires OneLine(line)
    ensures Unmarred(Uncomment(line))
  {
    if line != "" && line[0] != '#' {
      UncommentUnmarred(line[1..]);
    }
  }

  lemma {:induction false} TrimLeftSlice(s: string)
    ensures |TrimLeft(s)| <= |s| && TrimLeft(s) == s[|s| - |TrimLeft(s)|..]
  {
    if s != "" && Trimmable(s[0]) {
      TrimLeftSlice(s[1..]);
    }
  }

  lemma SliceUnmarred(s: string, a: nat, b: nat)
    requires Unmarred(s) && a <= b <= |s|
    ensures Unmarred(s[a..b])
  {
  }

  lemma CleanUnmarred(line: string)
    requires OneLine(line)
    ensures Unmarred(Clean(line))
  {
    hide Uncomment, TrimLeft, TrimRight, Unmarred, OneLine;
    var s := Uncomment(line);
    UncommentUnmarred(line);
    TrimLeftSlice(s);
    var t := TrimLeft(s);
    SliceUnmarred(s, |s| - |t|, |s|);
    assert s[|s| - |t|..|s|] == t;
    TrimEnds(t);
    SliceUnmarred(t, 0, |TrimRight(t)|);
    assert t[0..|TrimRight(t)|] == TrimRight(t);
  }

  lemma {:induction false} CleanLinesUnmarred(lines: seq<string>)
    requires AllOneLine(lines)
    ensures AllUnmarred(CleanLines(lines))
  {
    hide Clean, Unmarred, OneLine;
    if lines != [] {
      CleanUnmarred(lines[0]);
      CleanLinesUnmarred(lines[1..]);
    }
  }

  lemma {:induction false} BodiesUnmarred(lines: seq<string>)
    requires AllUnmarred(lines)
    ensures AllUnmarred(InterfaceBodies(Blocks(lines)))
    decreases |lines|
  {
    hide Unmarred, IsInterfaceHeader, BodyLength;
    if lines != [] {
      var n := BodyLength(lines[1..]);
      var rest := lines[1..][n..];
      BodiesUnmarred(rest);
      var first, blocks := Block(lines[0], lines[1..][..n]), Blocks(rest);
      assert Blocks(lines) == [first] + blocks && ([first] + blocks)[1..] == blocks;
    }
  }

  lemma ValueUnmarred(line: string)
    requires Unmarred(line) && ParseAttribute(line).Some?
    ensures Unmarred(ParseAttribute(line).value.value)
  {
    hide WordLength, SkipSpace, Unmarred;
    var n := WordLength(line);
    SliceUnmarred(line, n, |line|);
    assert line[n..|line|] == line[n..];
    SkipUnmarred(line[n..]);
    var rest := SkipSpace(line[n..]);
    SliceUnmarred(rest, 1, |rest|);
    assert rest[1..|rest|] == rest[1..];
    SkipUnmarred(rest[1..]);
  }

  lemma SkipUnmarred(s: string)
    requires Unmarred(s)
    ensures Unmarred(SkipSpace(s))
  {
    hide SkipSpace, Unmarred;
    SkipEnds(s);
    var n := |s| - |SkipSpace(s)|;
    SliceUnmarred(s, n, |s|);
    assert s[n..|s|] == s[n..];
  }

  lemma {:induction false} DropTame(pieces: seq<string>)
    requires AllTame(pieces)
    ensures AllTame(DropEmptyTail(pieces))
  {
    hide Tame;
    if pieces != [] && pieces[|pieces| - 1] == "" {
      DropTame(pieces[..|pieces| - 1]);
    }
  }

  lemma StripTame(pieces: seq<string>)
    requires AllTame(pieces)
    ensures AllTame(StripAll(pieces))
  {
    hide SkipSpace, CutSpace, Tame;
    forall i | 0 <= i < |pieces|
      ensures Tame(StripAll(pieces)[i])
    {
      var left := if i > 0 then SkipSpace(pieces[i]) else pieces[i];
      SkippedTame(pieces[i]);
      CutTame(left);
    }
  }

  lemma SkippedTame(s: string)
    requires Tame(s)
    ensures Tame(SkipSpace(s))
  {
    hide SkipSpace, IsSpace, Tame;
    SkippedListable(s);
  }

  lemma CutTame(s: string)
    requires Tame(s)
    ensures Tame(CutSpace(s))
  {
    hide CutSpace, Tame;
    CutEnds(s);
    SliceTame(s, 0, |CutSpace(s)|);
    assert s[0..|CutSpace(s)|] == CutSpace(s);
  }

  lemma SplitTame(v: string)
    requires Unmarred(v)
    ensures AllTame(Split(v))
  {
    hide Pieces, StripAll, DropEmptyTail;
    PiecesTame(v);
    StripTame(Pieces(v));
    DropTame(StripAll(Pieces(v)));
    if ',' !in v {
      assert Tame(v);
    }
  }

  lemma {:induction false} AddAllTame(values: seq<string>, more: seq<string>)
    requires AllTame(values) && AllTame(more)
    ensures AllTame(AddAll(values, more))
    decreases |more|
  {
    hide Tame;
    if more != [] {
      AddAllTame(AddNew(values, more[0]), more[1..]);
    }
  }

  lemma {:induction false} ParseDnsTame(leaves: Leaves, i: Interface, texts: seq<string>)
    requires TameNames(i) && AllTame(texts)
    ensures var j := ParseDns(leaves, i, texts); j.Some? ==> TameNames(j.value)
    decreases |texts|
  {
    hide Tame;
    if texts != [] {
      match leaves.address(texts[0])
      case Some(v) => ParseDnsTame(leaves, i.(dnsServers := AddNew(i.dnsServers, v)), texts[1..]);
      case None => ParseDnsTame(leaves, i.(dnsSearchDomains := AddNew(i.dnsSearchDomains, texts[0])), texts[1..]);
    }
  }

  lemma AttributeTame(leaves: Leaves, i: Interface, a: Attribute)
    requires TameNames(i) && Unmarred(a.value)
    ensures var j := AfterInterfaceAttribute(leaves, i, a); j.Ok? ==> TameNames(j.value)
  {
    hide Split, AddAll, ParseDns, ParseEach, ParseInt, ToLower, Tame, Unmarred;
    SplitTame(a.value);
    AddAllTame(i.excluded, Split(a.value));
    AddAllTame(i.included, Split(a.value));
    ParseDnsTame(leaves, i, Split(a.value));
  }

  lemma {:induction false} LinesTame(leaves: Leaves, i: Interface, lines: seq<string>)
    requires TameNames(i) && AllUnmarred(lines)
    ensures var j := AfterInterfaceLines(leaves, i, lines); j.Ok? ==> TameNames(j.value)
    decreases |lines|
  {
    hide AfterInterfaceAttribute, ParseAttribute, TameNames, Unmarred;
    if lines != [] && ParseAttribute(lines[0]).Some? {
      var a := ParseAttribute(lines[0]).value;
      ValueUnmarred(lines[0]);
      AttributeTame(leaves, i, a);
      var j := AfterInterfaceAttribute(leaves, i, a);
      if j.Ok? {
        LinesTame(leaves, j.value, lines[1..]);
      }
    }
  }

  // Whatever the file, if it parses its names are tame.
  lemma ParsedTame(leaves: Leaves, text: string)
    ensures ParseConfig(leaves, text).Ok? ==> TameNames(ParseConfig(leaves, text).value.interfaze)
  {
    hide AfterInterfaceLines, CleanLines, ReadLines, Blocks, InterfaceBodies, ParsePeers, BodyLength, HasInterface, Unmarred, OneLine, Tame;
    ReadLinesOneLine(text);
    var lines := CleanLines(ReadLines(text));
    CleanLinesUnmarred(ReadLines(text));
    BodiesUnmarred(lines);
    var bodies := InterfaceBodies(Blocks(lines));
    assert [] + bodies == bodies;
    LinesTame(leaves, NO_INTERFACE, bodies);
  }
}
