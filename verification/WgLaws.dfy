/**
  Which texts are configurations: section headers, attributes, lists, numbers, comments and the case of letters, each
  against its own definition and for every text.
 */
module WgLaws {
  import opened Options
  import opened WgText
  import opened WgConfig
  import opened WgNames

  /* ---------- section headers ---------- */

  // Letters that count as the same: the two cases of an ASCII letter, and four more characters for an i, an s or a k.
  lemma LettersAlike(c: char, d: char)
    ensures Fold(c) == Fold(d)
       <==> || c == d
            || (65 <= c as int <= 90 && d as int == c as int + 32) || (65 <= d as int <= 90 && c as int == d as int + 32)
            || ((c == 'i' || c == 'I' || c == '\U{130}' || c == '\U{131}') && (d == 'i' || d == 'I' || d == '\U{130}' || d == '\U{131}'))
            || ((c == 's' || c == 'S' || c == '\U{17F}') && (d == 's' || d == 'S' || d == '\U{17F}'))
            || ((c == 'k' || c == 'K' || c == '\U{212A}') && (d == 'k' || d == 'K' || d == '\U{212A}'))
  {
  }

  // The capital i with a dot, and the small one without, count as an i here.
  lemma InterfaceHeaderExact(line: string)
    ensures IsInterfaceHeader(line)
       <==> && |line| == 11 && line[0] == '[' && line[10] == ']'
            && (line[1] == 'I' || line[1] == 'i' || line[1] == '\U{130}' || line[1] == '\U{131}')
            && (line[2] == 'N' || line[2] == 'n') && (line[3] == 'T' || line[3] == 't') && (line[4] == 'E' || line[4] == 'e')
            && (line[5] == 'R' || line[5] == 'r') && (line[6] == 'F' || line[6] == 'f') && (line[7] == 'A' || line[7] == 'a')
            && (line[8] == 'C' || line[8] == 'c') && (line[9] == 'E' || line[9] == 'e')
  {
    if |line| == 11 {
      hide IsInterfaceHeader;
      InterfaceLetters(line);
      LettersOf(line[0], '[', '[');
      LettersOf(line[1], 'I', 'i');
      LettersOf(line[2], 'N', 'n');
      LettersOf(line[3], 'T', 't');
      LettersOf(line[4], 'E', 'e');
      LettersOf(line[5], 'R', 'r');
      LettersOf(line[6], 'F', 'f');
      LettersOf(line[7], 'A', 'a');
      LettersOf(line[8], 'C', 'c');
      LettersOf(line[9], 'E', 'e');
      LettersOf(line[10], ']', ']');
    }
  }

  lemma InterfaceLetters(line: string)
    requires |line| == 11
    ensures IsInterfaceHeader(line)
       <==> && Fold(line[0]) == Fold('[') && Fold(line[1]) == Fold('i') && Fold(line[2]) == Fold('n') && Fold(line[3]) == Fold('t')
            && Fold(line[4]) == Fold('e') && Fold(line[5]) == Fold('r') && Fold(line[6]) == Fold('f') && Fold(line[7]) == Fold('a')
            && Fold(line[8]) == Fold('c') && Fold(line[9]) == Fold('e') && Fold(line[10]) == Fold(']')
  {
    hide Fold;
    var header := "[Interface]";
    SameI();
    assert IsInterfaceHeader(line) <==>
        && Fold(header[0]) == Fold(line[0]) && Fold(header[1]) == Fold(line[1]) && Fold(header[2]) == Fold(line[2])
        && Fold(header[3]) == Fold(line[3]) && Fold(header[4]) == Fold(line[4]) && Fold(header[5]) == Fold(line[5])
        && Fold(header[6]) == Fold(line[6]) && Fold(header[7]) == Fold(line[7]) && Fold(header[8]) == Fold(line[8])
        && Fold(header[9]) == Fold(line[9]) && Fold(header[10]) == Fold(line[10]);
  }

  lemma SameI()
    ensures Fold('I') == Fold('i')
  {
  }

  // The characters that count as this letter, or as this bracket.
  lemma LettersOf(c: char, upper: char, lower: char)
    requires ('A' <= upper <= 'Z' && lower as int == upper as int + 32) || (upper == lower && (upper == '[' || upper == ']'))
    ensures Fold(c) == Fold(lower)
       <==> || c == upper || c == lower
            || (lower == 'i' && (c == '\U{130}' || c == '\U{131}')) || (lower == 's' && c == '\U{17F}') || (lower == 'k' && c == '\U{212A}')
  {
  }

  lemma PeerHeaderExact(line: string)
    ensures IsPeerHeader(line)
       <==> && |line| == 6 && line[0] == '[' && line[5] == ']' && (line[1] == 'P' || line[1] == 'p')
            && (line[2] == 'E' || line[2] == 'e') && (line[3] == 'E' || line[3] == 'e') && (line[4] == 'R' || line[4] == 'r')
  {
    var header := "[Peer]";
    if |line| == 6 {
      assert IsPeerHeader(line) <==>
          && Fold(header[0]) == Fold(line[0]) && Fold(header[1]) == Fold(line[1]) && Fold(header[2]) == Fold(line[2])
          && Fold(header[3]) == Fold(line[3]) && Fold(header[4]) == Fold(line[4]) && Fold(header[5]) == Fold(line[5]);
    }
  }

  // Two characters that are equal or the two cases of an ASCII letter.
  predicate SameLetter(x: char, y: char) {
    || x == y
    || ('A' <= x <= 'Z' && y as int == x as int + 32)
    || ('A' <= y <= 'Z' && x as int == y as int + 32)
  }

  predicate Recased(a: string, b: string) {
    |a| == |b| && forall i :: 0 <= i < |a| ==> SameLetter(a[i], b[i])
  }

  lemma SameLetterFolds(x: char, y: char)
    requires SameLetter(x, y)
    ensures Fold(x) == Fold(y) && Lower(x) == Lower(y) && (x == '[' <==> y == '[')
  {
  }

  lemma RecasedHeader(a: string, b: string)
    requires Recased(a, b)
    ensures IsInterfaceHeader(a) <==> IsInterfaceHeader(b)
    ensures IsPeerHeader(a) <==> IsPeerHeader(b)
    ensures ToLower(a) == ToLower(b)
  {
    hide Fold, Lower, SameLetter;
    forall i | 0 <= i < |a|
      ensures Fold(a[i]) == Fold(b[i]) && Lower(a[i]) == Lower(b[i])
    {
      SameLetterFolds(a[i], b[i]);
    }
  }

  /* ---------- one line ---------- */

  // Space is the blank and the characters from tab to carriage return; trimming takes off every control character too.
  lemma CharactersExact(c: char)
    ensures IsSpace(c) <==> c as int == 32 || 9 <= c as int <= 13
    ensures Trimmable(c) <==> c as int <= 32
    ensures IsWord(c) <==> 48 <= c as int <= 57 || 65 <= c as int <= 90 || 97 <= c as int <= 122 || c as int == 95
  {
  }

  predicate AllSpace(s: string) {
    forall i :: 0 <= i < |s| ==> IsSpace(s[i])
  }

  predicate AllWord(s: string) {
    forall i :: 0 <= i < |s| ==> ('a' <= s[i] <= 'z' || 'A' <= s[i] <= 'Z' || '0' <= s[i] <= '9' || s[i] == '_')
  }

  // A line is an attribute exactly if it is a word, an equals sign with any space about it, and a value that begins with
  // no space and has no comment sign.
  ghost predicate IsAttribute(line: string, key: string, before: string, after: string, value: string) {
    && line == key + before + "=" + after + value
    && key != "" && AllWord(key) && AllSpace(before) && AllSpace(after)
    && value != "" && !IsSpace(value[0]) && '#' !in value
  }

  lemma AttributeExact(line: string, key: string, value: string)
    ensures ParseAttribute(line) == Some(Attribute(key, value))
       <==> exists before, after :: IsAttribute(line, key, before, after, value)
  {
    hide ParseAttribute, IsAttribute;
    if ParseAttribute(line) == Some(Attribute(key, value)) {
      var before, after := PiecesOfAttribute(line, key, value);
    }
    if before, after :| IsAttribute(line, key, before, after, value) {
      AttributeOfPieces(line, key, before, after, value);
    }
  }

  lemma PiecesOfAttribute(line: string, key: string, value: string) returns (before: string, after: string)
    requires ParseAttribute(line) == Some(Attribute(key, value))
    ensures IsAttribute(line, key, before, after, value)
  {
    hide WordLength, SkipSpace, IsSpace, AllSpace, AllWord;
    WordLengthExact(line);
    var tail := line[|key|..];
    var rest := SkipSpace(tail);
    before := Skipped(tail);
    after := Skipped(rest[1..]);
    assert line == key + tail && rest == "=" + rest[1..];
    Reassembled(key, before, after, rest[1..], value);
  }

  // The space that is skipped.
  lemma Skipped(s: string) returns (space: string)
    ensures s == space + SkipSpace(s) && AllSpace(space)
    ensures SkipSpace(s) != "" ==> !IsSpace(SkipSpace(s)[0])
  {
    hide SkipSpace, IsSpace;
    SkipIs(s);
    space := s[..|s| - |SkipSpace(s)|];
  }

  lemma Reassembled(key: string, before: string, after: string, rest: string, value: string)
    requires rest == after + value
    ensures key + (before + ("=" + rest)) == key + before + "=" + after + value
  {
  }

  lemma AttributeOfPieces(line: string, key: string, before: string, after: string, value: string)
    requires IsAttribute(line, key, before, after, value)
    ensures ParseAttribute(line) == Some(Attribute(key, value))
  {
    hide WordLength, SkipSpace, IsSpace, AllWord;
    var tail := before + "=" + after + value;
    assert line == key + tail && tail == before + ("=" + after + value);
    EqualsIsNoSpace();
    assert tail[0] == if before == "" then '=' else before[0];
    WordThen(key, tail);
    assert line[..|key|] == key && line[|key|..] == tail;
    SpaceThen(before, "=" + after + value);
    assert ("=" + after + value)[1..] == after + value;
    SpaceThen(after, value);
  }

  lemma EqualsIsNoSpace()
    ensures !IsSpace('=')
  {
  }

  lemma {:induction false} WordLengthExact(s: string)
    ensures AllWord(s[..WordLength(s)])
  {
    if s != "" && IsWord(s[0]) {
      WordLengthExact(s[1..]);
      assert s[..WordLength(s)] == [s[0]] + s[1..][..WordLength(s[1..])];
    }
  }

  lemma {:induction false} WordThen(key: string, tail: string)
    requires AllWord(key) && tail != "" && (IsSpace(tail[0]) || tail[0] == '=')
    ensures WordLength(key + tail) == |key|
  {
    if key == "" {
      assert key + tail == tail;
    } else {
      WordThen(key[1..], tail);
      assert (key + tail)[1..] == key[1..] + tail;
    }
  }

  lemma {:induction false} SkipIs(s: string)
    ensures |SkipSpace(s)| <= |s| && SkipSpace(s) == s[|s| - |SkipSpace(s)|..] && AllSpace(s[..|s| - |SkipSpace(s)|])
    ensures SkipSpace(s) != "" ==> !IsSpace(SkipSpace(s)[0])
  {
    if s != "" && IsSpace(s[0]) {
      SkipIs(s[1..]);
    }
  }

  lemma {:induction false} SpaceThen(space: string, rest: string)
    requires AllSpace(space) && rest != "" && !IsSpace(rest[0])
    ensures SkipSpace(space + rest) == rest
  {
    if space == "" {
      assert space + rest == rest;
    } else {
      SpaceThen(space[1..], rest);
      assert (space + rest)[1..] == space[1..] + rest;
    }
  }

  predicate AllBlank(s: string) {
    forall i :: 0 <= i < |s| ==> s[i] <= ' '
  }

  // What a line says is what is left between blanks and before a comment.
  lemma CleanExact(left: string, body: string, right: string, comment: string)
    requires AllBlank(left) && AllBlank(right) && '#' !in left + body + right
    requires body == "" || (body[0] > ' ' && body[|body| - 1] > ' ')
    ensures Clean(left + body + right) == body && Clean(left + body + right + "#" + comment) == body
  {
    hide Uncomment, TrimLeft, TrimRight;
    var said := left + body + right;
    BeforeComment(said, comment);
    AllBefore(said);
    NothingTrims();
    if body == "" {
      assert said == left + right;
      BlankLeft(left, right);
    } else {
      assert said == left + (body + right) && (body + right)[0] == body[0];
      BlankLeft(left, body + right);
      BlankRight(body, right);
    }
  }

  lemma NothingTrims()
    ensures TrimRight("") == "" && TrimLeft("") == ""
  {
  }

  lemma {:induction false} BeforeComment(s: string, comment: string)
    requires '#' !in s
    ensures Uncomment(s + "#" + comment) == s
  {
    var line := s + "#" + comment;
    if s == "" {
      assert line[0] == '#';
    } else {
      BeforeComment(s[1..], comment);
      assert line[1..] == s[1..] + "#" + comment && line[0] == s[0];
    }
  }

  lemma {:induction false} AllBefore(s: string)
    requires '#' !in s
    ensures Uncomment(s) == s
  {
    if s != "" {
      AllBefore(s[1..]);
    }
  }

  lemma {:induction false} BlankLeft(blank: string, rest: string)
    requires AllBlank(blank) && (rest == "" || rest[0] > ' ' || AllBlank(rest))
    ensures TrimLeft(blank + rest) == if AllBlank(rest) then "" else rest
    decreases |blank| + |rest|
  {
    var s := blank + rest;
    if blank != "" {
      BlankLeft(blank[1..], rest);
      assert s[1..] == blank[1..] + rest;
    } else if rest != "" && AllBlank(rest) {
      BlankLeft(rest[1..], "");
      assert s == rest && rest[1..] + "" == rest[1..];
    } else {
      assert s == rest;
    }
  }

  lemma {:induction false} BlankRight(body: string, blank: string)
    requires AllBlank(blank) && (body == "" || body[|body| - 1] > ' ')
    ensures TrimRight(body + blank) == body
    decreases |blank|
  {
    var s := body + blank;
    if blank == "" {
      assert s == body;
    } else {
      BlankRight(body, blank[..|blank| - 1]);
      assert s[..|s| - 1] == body + blank[..|blank| - 1];
    }
  }

  /* ---------- texts that say the same ---------- */

  predicate SameAttribute(a: Option<Attribute>, b: Option<Attribute>) {
    (a.None? <==> b.None?) && (a.Some? ==> Recased(a.value.key, b.value.key) && a.value.value == b.value.value)
  }

  // Two lines that say the same: nothing, a section header in another case, or an attribute with its name in another
  // case and other space about its equals sign.
  predicate SameLine(a: string, b: string) {
    || (a == "" && b == "")
    || (IsHeader(a) && IsHeader(b) && Recased(a, b))
    || (a != "" && b != "" && !IsHeader(a) && !IsHeader(b) && SameAttribute(ParseAttribute(a), ParseAttribute(b)))
  }

  // Line by line; comments and blanks about a line do not matter.
  predicate SameText(a: seq<string>, b: seq<string>) {
    |a| == |b| && forall k :: 0 <= k < |a| ==> SameLine(Clean(a[k]), Clean(b[k]))
  }

  predicate SameLines(a: seq<string>, b: seq<string>) {
    |a| == |b| && forall k :: 0 <= k < |a| ==> a[k] != "" && SameLine(a[k], b[k])
  }

  lemma {:induction false} SameCleaned(a: seq<string>, b: seq<string>)
    requires SameText(a, b)
    ensures SameLines(CleanLines(a), CleanLines(b))
  {
    hide Clean, SameLine;
    if a != [] {
      SameCleaned(a[1..], b[1..]);
      NothingAlike(Clean(a[0]), Clean(b[0]));
      var x, y := CleanLines(a[1..]), CleanLines(b[1..]);
      var p, q := [Clean(a[0])] + x, [Clean(b[0])] + y;
      if Clean(a[0]) != "" {
        assert forall k :: 1 <= k < |p| ==> p[k] == x[k - 1] && q[k] == y[k - 1];
      }
    }
  }

  lemma NothingAlike(a: string, b: string)
    requires SameLine(a, b)
    ensures a == "" <==> b == ""
    ensures IsHeader(a) <==> IsHeader(b)
  {
  }

  lemma {:induction false} SameBody(a: seq<string>, b: seq<string>)
    requires SameLines(a, b)
    ensures BodyLength(a) == BodyLength(b)
  {
    hide SameLine, IsHeader;
    if a != [] {
      NothingAlike(a[0], b[0]);
      SameBody(a[1..], b[1..]);
    }
  }

  predicate SameBlocks(a: seq<Block>, b: seq<Block>) {
    |a| == |b| && forall k :: 0 <= k < |a| ==> Recased(a[k].header, b[k].header) && SameLines(a[k].body, b[k].body)
  }

  lemma {:induction false} SameCut(a: seq<string>, b: seq<string>)
    requires SameLines(a, b) && (a != [] ==> IsHeader(a[0]))
    ensures SameBlocks(Blocks(a), Blocks(b))
    decreases |a|
  {
    hide SameLine, IsHeader, BodyLength, Recased;
    if a != [] {
      var n := BodyLength(a[1..]);
      SameBody(a[1..], b[1..]);
      HeadersAlike(a[0], b[0]);
      SameCut(a[1..][n..], b[1..][n..]);
    }
  }

  lemma HeadersAlike(a: string, b: string)
    requires SameLine(a, b) && IsHeader(a)
    ensures Recased(a, b)
  {
  }

  lemma {:induction false} SameInterfaceBodies(a: seq<Block>, b: seq<Block>)
    requires SameBlocks(a, b)
    ensures SameLines(InterfaceBodies(a), InterfaceBodies(b))
    ensures HasInterface(a) <==> HasInterface(b)
  {
    hide SameLine, Recased, IsInterfaceHeader;
    forall k | 0 <= k < |a|
      ensures IsInterfaceHeader(a[k].header) <==> IsInterfaceHeader(b[k].header)
    {
      RecasedHeader(a[k].header, b[k].header);
    }
    if a != [] {
      SameInterfaceBodies(a[1..], b[1..]);
    }
  }

  lemma {:induction false} SameInterface(leaves: Leaves, i: Interface, a: seq<string>, b: seq<string>)
    requires SameLines(a, b) && forall k :: 0 <= k < |a| ==> !IsHeader(a[k])
    ensures AfterInterfaceLines(leaves, i, a) == AfterInterfaceLines(leaves, i, b)
    decreases |a|
  {
    hide ParseAttribute, AfterInterfaceAttribute, Recased;
    if a != [] {
      var x, y := ParseAttribute(a[0]), ParseAttribute(b[0]);
      if x.Some? {
        RecasedHeader(x.value.key, y.value.key);
        SameOnInterface(leaves, i, x.value, y.value);
        var next := AfterInterfaceAttribute(leaves, i, x.value);
        if next.Ok? {
          SameInterface(leaves, next.value, a[1..], b[1..]);
        }
      }
    }
  }

  lemma SameOnInterface(leaves: Leaves, i: Interface, a: Attribute, b: Attribute)
    requires ToLower(a.key) == ToLower(b.key) && a.value == b.value
    ensures AfterInterfaceAttribute(leaves, i, a) == AfterInterfaceAttribute(leaves, i, b)
  {
    hide ToLower, Split, ParseEach, ParseDns, ParseInt;
  }

  lemma {:induction false} SamePeer(leaves: Leaves, p: Peer, a: seq<string>, b: seq<string>)
    requires SameLines(a, b) && forall k :: 0 <= k < |a| ==> !IsHeader(a[k])
    ensures AfterPeerLines(leaves, p, a) == AfterPeerLines(leaves, p, b)
    decreases |a|
  {
    hide ParseAttribute, AfterPeerAttribute, Recased;
    if a != [] {
      var x, y := ParseAttribute(a[0]), ParseAttribute(b[0]);
      if x.Some? {
        RecasedHeader(x.value.key, y.value.key);
        SameOnPeer(leaves, p, x.value, y.value);
        var next := AfterPeerAttribute(leaves, p, x.value);
        if next.Ok? {
          SamePeer(leaves, next.value, a[1..], b[1..]);
        }
      }
    }
  }

  lemma SameOnPeer(leaves: Leaves, p: Peer, a: Attribute, b: Attribute)
    requires ToLower(a.key) == ToLower(b.key) && a.value == b.value
    ensures AfterPeerAttribute(leaves, p, a) == AfterPeerAttribute(leaves, p, b)
  {
    hide ToLower, Split, ParseEach, ParseInt;
  }

  ghost predicate PlainBodies(blocks: seq<Block>) {
    forall k :: 0 <= k < |blocks| ==> PlainBody(blocks[k].body)
  }

  predicate PlainBody(lines: seq<string>) {
    forall k :: 0 <= k < |lines| ==> !IsHeader(lines[k])
  }

  lemma {:induction false} BodyPlain(lines: seq<string>)
    ensures PlainBody(lines[..BodyLength(lines)])
  {
    if lines != [] && !IsHeader(lines[0]) {
      BodyPlain(lines[1..]);
    }
  }

  lemma {:induction false} CutPlain(lines: seq<string>)
    ensures PlainBodies(Blocks(lines)) && PlainBody(InterfaceBodies(Blocks(lines)))
    decreases |lines|
  {
    hide IsHeader, IsInterfaceHeader, BodyLength;
    if lines != [] {
      var n := BodyLength(lines[1..]);
      BodyPlain(lines[1..]);
      CutPlain(lines[1..][n..]);
    }
  }

  lemma {:induction false} SamePeers(leaves: Leaves, a: seq<Block>, b: seq<Block>)
    requires SameBlocks(a, b) && PlainBodies(a)
    ensures ParsePeers(leaves, a) == ParsePeers(leaves, b)
    decreases |a|
  {
    hide AfterPeerLines, Recased, IsInterfaceHeader, IsPeerHeader, SameLine;
    if a != [] {
      RecasedHeader(a[0].header, b[0].header);
      SamePeers(leaves, a[1..], b[1..]);
      SamePeer(leaves, NO_PEER, a[0].body, b[0].body);
    }
  }

  // Texts that say the same line by line, with section headers and attribute names in any case, parse the same.
  lemma ParseSame(leaves: Leaves, a: string, b: string)
    requires SameText(ReadLines(a), ReadLines(b))
    ensures ParseConfig(leaves, a) == ParseConfig(leaves, b)
  {
    hide ReadLines, CleanLines, SameLines, Blocks, ParsePeers, InterfaceBodies, AfterInterfaceLines, BodyLength, HasInterface,
      SameBlocks, PlainBodies, IsHeader, SameText;
    var x, y := CleanLines(ReadLines(a)), CleanLines(ReadLines(b));
    SameCleaned(ReadLines(a), ReadLines(b));
    SameBody(x, y);
    if BodyLength(x) == 0 {
      StartsWithHeader(x);
      SameCut(x, y);
      CutPlain(x);
      var p, q := Blocks(x), Blocks(y);
      SamePeers(leaves, p, q);
      SameInterfaceBodies(p, q);
      SameInterface(leaves, NO_INTERFACE, InterfaceBodies(p), InterfaceBodies(q));
      assert [] + InterfaceBodies(p) == InterfaceBodies(p) && [] + InterfaceBodies(q) == InterfaceBodies(q);
    }
  }

  lemma StartsWithHeader(lines: seq<string>)
    requires BodyLength(lines) == 0
    ensures lines != [] ==> IsHeader(lines[0])
  {
  }

  /* ---------- sections ---------- */

  // What a file must be to parse: its first line that says anything is a section header, every header is one of the
  // two, and there is an [Interface].
  lemma SectionsNeeded(leaves: Leaves, text: string)
    ensures var lines, r := CleanLines(ReadLines(text)), ParseConfig(leaves, text);
            && (lines != [] && !IsHeader(lines[0]) ==> r == Err(BadConfig(CONFIG, TOP_LEVEL, UNKNOWN_SECTION)))
            && (r.Ok? ==>
                  && lines != [] && IsHeader(lines[0])
                  && (forall k :: 0 <= k < |Blocks(lines)| ==> IsInterfaceHeader(Blocks(lines)[k].header) || IsPeerHeader(Blocks(lines)[k].header))
                  && exists k :: 0 <= k < |Blocks(lines)| && IsInterfaceHeader(Blocks(lines)[k].header))
  {
    hide CleanLines, ReadLines, IsInterfaceHeader, IsPeerHeader, ParsePeer, ParseInterface, Blocks;
    var lines := CleanLines(ReadLines(text));
    NoneAtAll();
    if lines != [] && IsHeader(lines[0]) {
      KnownHeaders(leaves, Blocks(lines));
    }
  }

  lemma NoneAtAll()
    ensures Blocks([]) == []
  {
  }

  lemma {:induction false} KnownHeaders(leaves: Leaves, blocks: seq<Block>)
    ensures ParsePeers(leaves, blocks).Ok?
        ==> forall k :: 0 <= k < |blocks| ==> IsInterfaceHeader(blocks[k].header) || IsPeerHeader(blocks[k].header)
    decreases |blocks|
  {
    hide IsInterfaceHeader, IsPeerHeader, ParsePeer;
    if blocks != [] {
      KnownHeaders(leaves, blocks[1..]);
      assert forall k :: 1 <= k < |blocks| ==> blocks[k] == blocks[1..][k - 1];
    }
  }

  // A file of peers alone lacks its [Interface].
  lemma InterfaceMissing(leaves: Leaves, text: string)
    requires var lines := CleanLines(ReadLines(text));
             BodyLength(lines) == 0 && ParsePeers(leaves, Blocks(lines)).Ok?
             && forall k :: 0 <= k < |Blocks(lines)| ==> !IsInterfaceHeader(Blocks(lines)[k].header)
    ensures ParseConfig(leaves, text) == Err(BadConfig(CONFIG, TOP_LEVEL, MISSING_SECTION))
  {
    hide CleanLines, ReadLines, IsInterfaceHeader, ParsePeers, Blocks, BodyLength;
  }

  // All [Interface] sections of a file are one, wherever they stand; each [Peer] is its own.
  lemma InterfacesAreOne(leaves: Leaves, seen: bool, lines: seq<string>, peers: seq<Peer>, a: seq<string>, b: seq<string>,
                         p: seq<string>, rest: seq<Block>)
    ensures var one, two, peer := Block("[Interface]", a), Block("[Interface]", b), Block("[Peer]", p);
            && Finish(leaves, seen, lines, peers, [one] + ([two] + rest))
               == Finish(leaves, seen, lines, peers, [Block("[Interface]", a + b)] + rest)
            && Finish(leaves, seen, lines, peers, [peer] + ([one] + rest)) == Finish(leaves, seen, lines, peers, [one] + ([peer] + rest))
  {
    hide Finish, ParsePeer, ParseInterface, IsInterfaceHeader, IsPeerHeader;
    var one, two, peer := Block("[Interface]", a), Block("[Interface]", b), Block("[Peer]", p);
    InterfaceHeaderExact("[Interface]");
    InterfaceHeaderExact("[Peer]");
    PeerHeaderExact("[Peer]");
    FinishThen(leaves, seen, lines, peers, one, [two] + rest);
    FinishThen(leaves, true, lines + a, peers, two, rest);
    FinishThen(leaves, seen, lines, peers, Block("[Interface]", a + b), rest);
    assert lines + a + b == lines + (a + b);
    FinishThen(leaves, seen, lines, peers, peer, [one] + rest);
    FinishThen(leaves, seen, lines, peers, one, [peer] + rest);
    FinishThen(leaves, true, lines + a, peers, peer, rest);
    if ParsePeer(leaves, p).Ok? {
      FinishThen(leaves, seen, lines, peers + [ParsePeer(leaves, p).value], one, rest);
    }
  }

  /* ---------- attributes ---------- */

  ghost predicate AllParse(parse: string -> Option<string>, texts: seq<string>) {
    forall k :: 0 <= k < |texts| ==> parse(texts[k]).Some?
  }

  // A list parses exactly if each of its elements does; they are added in order, each once.
  lemma {:induction false} ParseEachExact(parse: string -> Option<string>, values: seq<string>, texts: seq<string>)
    requires NoneTwice(values)
    ensures ParseEach(parse, values, texts).Some? <==> AllParse(parse, texts)
    ensures var r := ParseEach(parse, values, texts);
            r.Some? ==>
              && values <= r.value && NoneTwice(r.value)
              && forall x :: x in r.value <==> x in values || exists k :: 0 <= k < |texts| && parse(texts[k]) == Some(x)
    decreases |texts|
  {
    if texts != [] && parse(texts[0]).Some? {
      var v := parse(texts[0]).value;
      AddedOnce(values, v);
      ParseEachExact(parse, AddNew(values, v), texts[1..]);
      assert forall k :: 1 <= k < |texts| ==> texts[k] == texts[1..][k - 1];
      assert parse(texts[0]) == Some(v);
      forall x | exists k :: 0 <= k < |texts| && parse(texts[k]) == Some(x)
        ensures x == v || exists k :: 0 <= k < |texts[1..]| && parse(texts[1..][k]) == Some(x)
      {
        var k :| 0 <= k < |texts| && parse(texts[k]) == Some(x);
        if k > 0 {
          assert parse(texts[1..][k - 1]) == Some(x);
        }
      }
      forall k | 0 <= k < |texts[1..]|
        ensures texts[1..][k] == texts[k + 1]
      {
      }
    }
  }

  lemma AddedOnce(values: seq<string>, x: string)
    requires NoneTwice(values)
    ensures NoneTwice(AddNew(values, x)) && values <= AddNew(values, x)
    ensures forall y :: y in AddNew(values, x) <==> y in values || y == x
  {
  }

  lemma {:induction false} AddAllExact(values: seq<string>, more: seq<string>)
    requires NoneTwice(values)
    ensures var r := AddAll(values, more);
            values <= r && NoneTwice(r) && forall x :: x in r <==> x in values || x in more
    decreases |more|
  {
    if more != [] {
      AddedOnce(values, more[0]);
      AddAllExact(AddNew(values, more[0]), more[1..]);
      assert more == [more[0]] + more[1..];
    }
  }

  // Of an element that is an address a server is made, of any other host name a search domain.
  lemma {:induction false} ParseDnsExact(leaves: Leaves, i: Interface, texts: seq<string>)
    requires NoneTwice(i.dnsServers) && NoneTwice(i.dnsSearchDomains)
    ensures ParseDns(leaves, i, texts).Some?
       <==> forall k :: 0 <= k < |texts| ==> leaves.address(texts[k]).Some? || leaves.isHostname(texts[k])
    ensures var r := ParseDns(leaves, i, texts);
            r.Some? ==>
              && r.value == i.(dnsServers := r.value.dnsServers, dnsSearchDomains := r.value.dnsSearchDomains)
              && NoneTwice(r.value.dnsServers) && NoneTwice(r.value.dnsSearchDomains)
              && (forall x :: x in r.value.dnsSearchDomains <==> x in i.dnsSearchDomains || (x in texts && leaves.address(x) == None))
    decreases |texts|
  {
    if texts != [] {
      var x := texts[0];
      assert texts == [x] + texts[1..];
      if leaves.address(x).Some? {
        AddedOnce(i.dnsServers, leaves.address(x).value);
        ParseDnsExact(leaves, i.(dnsServers := AddNew(i.dnsServers, leaves.address(x).value)), texts[1..]);
      } else if leaves.isHostname(x) {
        AddedOnce(i.dnsSearchDomains, x);
        ParseDnsExact(leaves, i.(dnsSearchDomains := AddNew(i.dnsSearchDomains, x)), texts[1..]);
      }
    }
  }

  datatype Verdict = Fine | Fault(location: Location, reason: Reason)

  // Whether the builder of an interface takes an attribute, by its name in lower case.
  ghost function OnInterface(leaves: Leaves, a: Attribute): Verdict {
    var key, n := ToLower(a.key), ParseInt(a.value);
    if key == "address" then if AllParse(leaves.network, Split(a.value)) then Fine else Fault(ADDRESS, INVALID_VALUE)
    else if key == "dns" then
      if forall t :: t in Split(a.value) ==> leaves.address(t).Some? || leaves.isHostname(t) then Fine else Fault(DNS, INVALID_VALUE)
    else if key == "excludedapplications" || key == "includedapplications" then Fine
    else if key == "listenport" then
      if n.None? then Fault(LISTEN_PORT, INVALID_NUMBER) else if 0 <= n.value <= 65535 then Fine else Fault(LISTEN_PORT, INVALID_VALUE)
    else if key == "mtu" then
      // The builder names the port where the number is negative.
      if n.None? then Fault(MTU, INVALID_NUMBER) else if 0 <= n.value then Fine else Fault(LISTEN_PORT, INVALID_VALUE)
    else if key == "privatekey" then if leaves.key(a.value).Some? then Fine else Fault(PRIVATE_KEY, INVALID_KEY)
    else Fault(TOP_LEVEL, UNKNOWN_ATTRIBUTE)
  }

  ghost function OnPeer(leaves: Leaves, a: Attribute): Verdict {
    var key, n := ToLower(a.key), ParseInt(a.value);
    if key == "allowedips" then if AllParse(leaves.network, Split(a.value)) then Fine else Fault(ALLOWED_IPS, INVALID_VALUE)
    else if key == "endpoint" then if leaves.endpoint(a.value).Some? then Fine else Fault(ENDPOINT, INVALID_VALUE)
    else if key == "persistentkeepalive" then
      if n.None? then Fault(PERSISTENT_KEEPALIVE, INVALID_NUMBER)
      else if 0 <= n.value <= 65535 then Fine else Fault(PERSISTENT_KEEPALIVE, INVALID_VALUE)
    else if key == "presharedkey" then if leaves.key(a.value).Some? then Fine else Fault(PRE_SHARED_KEY, INVALID_KEY)
    else if key == "publickey" then if leaves.key(a.value).Some? then Fine else Fault(PUBLIC_KEY, INVALID_KEY)
    else Fault(TOP_LEVEL, UNKNOWN_ATTRIBUTE)
  }

  lemma InterfaceFaults(leaves: Leaves, i: Interface, a: Attribute)
    requires BuiltLists(i)
    ensures match OnInterface(leaves, a)
            case Fine => AfterInterfaceAttribute(leaves, i, a).Ok?
            case Fault(location, reason) => AfterInterfaceAttribute(leaves, i, a) == Err(BadConfig(INTERFACE, location, reason))
  {
    hide ToLower, Split, ParseEach, ParseDns, ParseInt, AddAll, AllParse, NoneTwice;
    var texts := Split(a.value);
    ParseEachExact(leaves.network, i.addresses, texts);
    ParseDnsExact(leaves, i, texts);
    assert (forall t :: t in texts ==> leaves.address(t).Some? || leaves.isHostname(t))
      <==> forall k :: 0 <= k < |texts| ==> leaves.address(texts[k]).Some? || leaves.isHostname(texts[k]);
  }

  lemma PeerFaults(leaves: Leaves, p: Peer, a: Attribute)
    requires NoneTwice(p.allowedIps)
    ensures match OnPeer(leaves, a)
            case Fine => AfterPeerAttribute(leaves, p, a).Ok?
            case Fault(location, reason) => AfterPeerAttribute(leaves, p, a) == Err(BadConfig(PEER, location, reason))
  {
    hide ToLower, Split, ParseEach, ParseInt, AllParse, NoneTwice;
    ParseEachExact(leaves.network, p.allowedIps, Split(a.value));
  }

  /* ---------- what a builder makes ---------- */

  predicate BuiltLists(i: Interface) {
    && NoneTwice(i.addresses) && NoneTwice(i.dnsServers) && NoneTwice(i.dnsSearchDomains)
    && NoneTwice(i.excluded) && NoneTwice(i.included)
  }

  predicate BuiltNumbers(i: Interface) {
    && (i.listenPort.Some? ==> 0 < i.listenPort.value <= 65535)
    && (i.mtu.Some? ==> 0 < i.mtu.value < 0x8000_0000)
  }

  predicate BuiltPeer(p: Peer) {
    && NoneTwice(p.allowedIps) && p.publicKey.Some?
    && (p.persistentKeepalive.Some? ==> 0 < p.persistentKeepalive.value <= 65535)
  }

  lemma AttributeBuilt(leaves: Leaves, i: Interface, a: Attribute)
    requires BuiltLists(i) && BuiltNumbers(i)
    ensures var j := AfterInterfaceAttribute(leaves, i, a); j.Ok? ==> BuiltLists(j.value) && BuiltNumbers(j.value)
  {
    hide ToLower, Split, ParseEach, ParseDns, AddAll, NoneTwice, AllDigits, DigitsValue;
    ParseEachExact(leaves.network, i.addresses, Split(a.value));
    ParseDnsExact(leaves, i, Split(a.value));
    AddAllExact(i.excluded, Split(a.value));
    AddAllExact(i.included, Split(a.value));
  }

  lemma {:induction false} LinesBuilt(leaves: Leaves, i: Interface, lines: seq<string>)
    requires BuiltLists(i) && BuiltNumbers(i)
    ensures var j := AfterInterfaceLines(leaves, i, lines); j.Ok? ==> BuiltLists(j.value) && BuiltNumbers(j.value)
    decreases |lines|
  {
    hide AfterInterfaceAttribute, ParseAttribute, BuiltLists, BuiltNumbers;
    if lines != [] && ParseAttribute(lines[0]).Some? {
      var a := ParseAttribute(lines[0]).value;
      AttributeBuilt(leaves, i, a);
      var j := AfterInterfaceAttribute(leaves, i, a);
      if j.Ok? {
        LinesBuilt(leaves, j.value, lines[1..]);
      }
    }
  }

  lemma {:induction false} PeerLinesBuilt(leaves: Leaves, p: Peer, lines: seq<string>)
    requires NoneTwice(p.allowedIps) && (p.persistentKeepalive.Some? ==> 0 < p.persistentKeepalive.value <= 65535)
    ensures var q := AfterPeerLines(leaves, p, lines);
            q.Ok? ==> NoneTwice(q.value.allowedIps) && (q.value.persistentKeepalive.Some? ==> 0 < q.value.persistentKeepalive.value <= 65535)
    decreases |lines|
  {
    hide ParseAttribute, ToLower, Split, ParseEach, ParseInt, NoneTwice;
    if lines != [] && ParseAttribute(lines[0]).Some? {
      var a := ParseAttribute(lines[0]).value;
      ParseEachExact(leaves.network, p.allowedIps, Split(a.value));
      var q := AfterPeerAttribute(leaves, p, a);
      if q.Ok? {
        PeerLinesBuilt(leaves, q.value, lines[1..]);
      }
    }
  }

  lemma {:induction false} PeersBuilt(leaves: Leaves, blocks: seq<Block>)
    ensures var r := ParsePeers(leaves, blocks); r.Ok? ==> forall k :: 0 <= k < |r.value| ==> BuiltPeer(r.value[k])
    decreases |blocks|
  {
    hide AfterPeerLines, IsInterfaceHeader, IsPeerHeader, NoneTwice;
    if blocks != [] {
      PeersBuilt(leaves, blocks[1..]);
      NothingTwice();
      PeerLinesBuilt(leaves, NO_PEER, blocks[0].body);
    }
  }

  lemma NothingTwice()
    ensures NoneTwice([])
  {
  }

  // Whatever the file, what is parsed is something the builders make: no list holds anything twice, numbers are in
  // range and none is zero, applications are excluded or included but not both, and every key that must be is there.
  lemma ParsedIsBuilt(leaves: Leaves, text: string)
    ensures var r := ParseConfig(leaves, text);
            r.Ok? ==>
              var i := r.value.interfaze;
              && BuiltLists(i) && BuiltNumbers(i) && i.privateKey.Some? && (i.included == [] || i.excluded == [])
              && forall k :: 0 <= k < |r.value.peers| ==> BuiltPeer(r.value.peers[k])
  {
    hide AfterInterfaceLines, CleanLines, ReadLines, Blocks, InterfaceBodies, ParsePeers, BodyLength, HasInterface, NoneTwice;
    var lines := CleanLines(ReadLines(text));
    NothingTwice();
    PeersBuilt(leaves, Blocks(lines));
    LinesBuilt(leaves, NO_INTERFACE, [] + InterfaceBodies(Blocks(lines)));
  }

  /* ---------- numbers and lists ---------- */

  // A number may have a sign, and must fit an int.
  lemma SignedParses(n: nat)
    ensures var r := ParseInt("-" + PrintInt(n)); (r.Some? <==> n <= 0x8000_0000) && (r.Some? ==> r.value + n == 0)
    ensures ParseInt("+" + PrintInt(n)) == (if n < 0x8000_0000 then Some(n) else None)
    ensures ParseInt(PrintInt(n)) == (if n < 0x8000_0000 then Some(n) else None)
  {
    hide DigitsValue, PrintInt;
    PrintIntDigits(n);
    assert ("-" + PrintInt(n))[1..] == PrintInt(n) && ("+" + PrintInt(n))[1..] == PrintInt(n);
  }

  // Nothing else is a number.
  lemma NumberIsDigits(s: string)
    ensures ParseInt(s).Some? ==>
              var digits := if s != "" && (s[0] == '-' || s[0] == '+') then s[1..] else s;
              digits != "" && forall k :: 0 <= k < |digits| ==> '0' <= digits[k] <= '9'
  {
    hide DigitsValue;
  }

  // Elements with any space about the commas between them.
  function Glued(values: seq<string>, before: string, after: string): string {
    if values == [] then "" else if |values| == 1 then values[0] else values[0] + before + "," + after + Glued(values[1..], before, after)
  }

  function GluedPieces(values: seq<string>, before: string, after: string): (r: seq<string>)
    ensures |r| == |values|
  {
    seq(|values|, i requires 0 <= i < |values| =>
      (if i == 0 then "" else after) + values[i] + (if i == |values| - 1 then "" else before))
  }

  lemma {:induction false} PiecesOfGlued(prefix: string, values: seq<string>, before: string, after: string)
    requires values != [] && ',' !in prefix && ',' !in before && ',' !in after && forall i :: 0 <= i < |values| ==> ',' !in values[i]
    ensures Pieces(prefix + Glued(values, before, after)) == [prefix + GluedPieces(values, before, after)[0]] + GluedPieces(values, before, after)[1..]
    decreases |values|
  {
    hide Pieces, GluedPieces;
    GluedStep(values, before, after);
    if |values| == 1 {
      PiecesNone(prefix + values[0]);
    } else {
      var rest := Glued(values[1..], before, after);
      PiecesOfGlued(after, values[1..], before, after);
      PiecesOf(prefix + values[0] + before, after + rest);
      Regrouped(prefix, values[0], before, after, rest);
    }
  }

  lemma Regrouped(prefix: string, x: string, before: string, after: string, rest: string)
    ensures prefix + (x + before + "," + after + rest) == prefix + x + before + "," + (after + rest)
    ensures prefix + x + before == prefix + (x + before)
  {
  }

  lemma GluedStep(values: seq<string>, before: string, after: string)
    requires values != []
    ensures var all := GluedPieces(values, before, after);
            if |values| == 1 then all == [values[0]]
            else
              var rest := GluedPieces(values[1..], before, after);
              all == [values[0] + before] + ([after + rest[0]] + rest[1..])
  {
    var all := GluedPieces(values, before, after);
    if |values| == 1 {
      assert all[0] == "" + values[0] + "" == values[0];
    } else {
      var rest := GluedPieces(values[1..], before, after);
      assert all[0] == "" + values[0] + before == values[0] + before;
      forall i | 1 <= i < |all|
        ensures all[i] == ([after + rest[0]] + rest[1..])[i - 1]
      {
        assert values[1..][i - 1] == values[i];
        if i == 1 {
          assert rest[0] == "" + values[1] + (if |values| == 2 then "" else before);
          assert after + rest[0] == after + values[1] + (if |values| == 2 then "" else before);
        }
      }
    }
  }

  // They are read as they are, whatever that space.
  lemma SplitGlued(values: seq<string>, before: string, after: string)
    requires |values| > 1 && Listable(values) && AllSpace(before) && AllSpace(after)
    ensures Split(Glued(values, before, after)) == values
  {
    hide Pieces, StripAll, IsSpace, ListableAt, GluedPieces, Glued, AllSpace;
    forall i | 0 <= i < |values| ensures ',' !in values[i] {
      ListableNoComma(values[i], i == |values| - 1);
    }
    SpaceNoComma(before);
    SpaceNoComma(after);
    var pieces := GluedPieces(values, before, after);
    PiecesOfGlued("", values, before, after);
    assert "" + Glued(values, before, after) == Glued(values, before, after) && "" + pieces[0] == pieces[0];
    GluedHasComma(values, before, after);
    forall i | 0 <= i < |values|
      ensures StripAll(pieces)[i] == values[i]
    {
      StripGlued(values, before, after, i);
    }
    assert StripAll(pieces) == values;
    assert [pieces[0]] + pieces[1..] == pieces;
    LastNotEmpty(values);
  }

  lemma GluedHasComma(values: seq<string>, before: string, after: string)
    requires |values| > 1
    ensures ',' in Glued(values, before, after)
  {
    assert Glued(values, before, after)[|values[0] + before|] == ',';
  }

  lemma ListableNoComma(s: string, last: bool)
    requires ListableAt(s, last)
    ensures ',' !in s
  {
  }

  lemma SpaceNoComma(s: string)
    requires AllSpace(s)
    ensures ',' !in s
  {
  }

  lemma LastNotEmpty(values: seq<string>)
    requires values != [] && Listable(values)
    ensures values[|values| - 1] != ""
  {
    assert ListableAt(values[|values| - 1], true);
  }

  lemma StripGlued(values: seq<string>, before: string, after: string, i: nat)
    requires |values| > 1 && Listable(values) && AllSpace(before) && AllSpace(after) && i < |values|
    ensures StripAll(GluedPieces(values, before, after))[i] == values[i]
  {
    hide SkipSpace, CutSpace, IsSpace, Tame, Trimmable;
    var last := |values| - 1;
    var x := values[i];
    assert ListableAt(x, i == last);
    var piece := (if i == 0 then "" else after) + x + (if i == last then "" else before);
    var tail := x + if i == last then "" else before;
    assert piece == (if i == 0 then "" else after) + tail;
    if i > 0 {
      if tail == "" || !IsSpace(tail[0]) {
        SkipBefore(after, tail);
        CutAfter(x, if i == last then "" else before);
      } else {
        assert x == "";
        SkipAll(after + tail);
        assert CutSpace("") == "" by { CutNothing(); }
      }
    } else {
      assert piece == tail;
      CutAfter(x, before);
    }
    assert x + "" == x;
  }

  lemma CutNothing()
    ensures CutSpace("") == "" && SkipSpace("") == ""
  {
  }

  lemma {:induction false} SkipBefore(space: string, rest: string)
    requires AllSpace(space) && (rest == "" || !IsSpace(rest[0]))
    ensures SkipSpace(space + rest) == rest
  {
    if space == "" {
      assert space + rest == rest;
    } else {
      SkipBefore(space[1..], rest);
      assert (space + rest)[1..] == space[1..] + rest;
    }
  }

  lemma {:induction false} SkipAll(space: string)
    requires AllSpace(space)
    ensures SkipSpace(space) == ""
  {
    if space != "" {
      SkipAll(space[1..]);
    }
  }

  lemma {:induction false} CutAfter(x: string, space: string)
    requires AllSpace(space) && (x == "" || !IsSpace(x[|x| - 1]))
    ensures CutSpace(x + space) == x
    decreases |space|
  {
    var s := x + space;
    if space == "" {
      assert s == x;
    } else {
      CutAfter(x, space[..|space| - 1]);
      assert s[..|s| - 1] == x + space[..|space| - 1];
    }
  }
}
