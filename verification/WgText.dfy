/**
  The text of wg-quick configurations: lines, comments, attributes, lists and numbers (Config.java, Attribute.java).
 */
module WgText {
  import opened Options

  // Whitespace of Java's regular expressions.
  predicate IsSpace(c: char) {
    c in " \t\n\r" || c as int == 0x0B || c as int == 0x0C
  }

  // What String.trim takes off.
  predicate Trimmable(c: char) {
    c <= ' '
  }

  predicate IsWord(c: char) {
    'a' <= c <= 'z' || 'A' <= c <= 'Z' || '0' <= c <= '9' || c == '_'
  }

  predicate IsDigit(c: char) {
    '0' <= c <= '9'
  }

  // Text without whitespace, control characters, commas and comment signs, and not empty.
  predicate Solid(s: string) {
    s != "" && forall i :: 0 <= i < |s| ==> s[i] > ' ' && s[i] != ',' && s[i] != '#'
  }

  function Lower(c: char): char {
    if 'A' <= c <= 'Z' then (c as int + 32) as char else c
  }

  function ToLower(s: string): (r: string)
    ensures |r| == |s| && forall i :: 0 <= i < |s| ==> r[i] == Lower(s[i])
  {
    seq(|s|, i requires 0 <= i < |s| => Lower(s[i]))
  }

  // Characters that equalsIgnoreCase takes for equal: beside ASCII letters, the dotted and dotless i, the long s and
  // the Kelvin sign stand for i, s and k.
  function Fold(c: char): char {
    if c == '\U{130}' || c == '\U{131}' then 'i' else if c == '\U{17F}' then 's' else if c == '\U{212A}' then 'k' else Lower(c)
  }

  predicate EqualsIgnoreCase(a: string, b: string) {
    |a| == |b| && forall i :: 0 <= i < |a| ==> Fold(a[i]) == Fold(b[i])
  }

  function TrimLeft(s: string): string {
    if s == "" || !Trimmable(s[0]) then s else TrimLeft(s[1..])
  }

  function TrimRight(s: string): string {
    if s == "" || !Trimmable(s[|s| - 1]) then s else TrimRight(s[..|s| - 1])
  }

  function Trim(s: string): string {
    TrimRight(TrimLeft(s))
  }

  function SkipSpace(s: string): string {
    if s == "" || !IsSpace(s[0]) then s else SkipSpace(s[1..])
  }

  function CutSpace(s: string): string {
    if s == "" || !IsSpace(s[|s| - 1]) then s else CutSpace(s[..|s| - 1])
  }

  function Uncomment(line: string): string {
    if line == "" || line[0] == '#' then "" else [line[0]] + Uncomment(line[1..])
  }

  // The position of the first end of line.
  function LineEnd(text: string): (n: nat)
    ensures n <= |text|
  {
    if text == "" || text[0] == '\n' || text[0] == '\r' then 0 else 1 + LineEnd(text[1..])
  }

  // Lines end with \n, \r or both; nothing follows the last end of line.
  function ReadLines(text: string): seq<string>
    decreases |text|
  {
    if text == "" then []
    else
      var n := LineEnd(text);
      if n == |text| then [text]
      else
        var after := if text[n] == '\r' && n + 1 < |text| && text[n + 1] == '\n' then n + 2 else n + 1;
        [text[..n]] + ReadLines(text[after..])
  }

  datatype Attribute = Attribute(key: string, value: string)

  function WordLength(s: string): (n: nat)
    ensures n <= |s|
  {
    if s == "" || !IsWord(s[0]) then 0 else 1 + WordLength(s[1..])
  }

  // A word, an equals sign with any space about it, and a value that starts with no space and holds no '#'.
  function ParseAttribute(line: string): Option<Attribute> {
    var n := WordLength(line);
    var rest := SkipSpace(line[n..]);
    if n == 0 || rest == "" || rest[0] != '=' then None
    else
      var value := SkipSpace(rest[1..]);
      if value == "" || '#' in value then None else Some(Attribute(line[..n], value))
  }

  // The pieces between commas.
  function Pieces(s: string): (r: seq<string>)
    ensures r != []
  {
    if s == "" then [""]
    else
      var rest := Pieces(s[1..]);
      if s[0] == ',' then [""] + rest else [[s[0]] + rest[0]] + rest[1..]
  }

  // Space next to a comma belongs to the separator.
  function StripAll(pieces: seq<string>): (r: seq<string>)
    ensures |r| == |pieces|
  {
    seq(|pieces|, i requires 0 <= i < |pieces| =>
      var left := if i > 0 then SkipSpace(pieces[i]) else pieces[i];
      if i < |pieces| - 1 then CutSpace(left) else left)
  }

  function DropEmptyTail(pieces: seq<string>): seq<string> {
    if pieces == [] || pieces[|pieces| - 1] != "" then pieces else DropEmptyTail(pieces[..|pieces| - 1])
  }

  // A text without comma is its own only element; otherwise empty elements at the end are dropped.
  function Split(value: string): seq<string> {
    if ',' !in value then [value] else DropEmptyTail(StripAll(Pieces(value)))
  }

  function Joined(values: seq<string>): string {
    if values == [] then "" else if |values| == 1 then values[0] else values[0] + ", " + Joined(values[1..])
  }

  // What join appends for the values from i on.
  function Tail(values: seq<string>, i: nat): string
    requires i <= |values|
  {
    if i == |values| then "" else ", " + Joined(values[i..])
  }

  lemma JoinedStep(values: seq<string>, i: nat)
    requires i < |values|
    ensures Joined(values[i..]) == values[i] + Tail(values, i + 1)
  {
    assert values[i..][1..] == values[i + 1..];
  }

  method Join(values: seq<string>) returns (text: string)
    ensures text == Joined(values)
  {
    hide Joined;
    if values == [] {
      JoinedNone();
      return "";
    }
    text := values[0];
    JoinedStep(values, 0);
    assert values[0..] == values;
    var i := 1;
    while i < |values|
      invariant 1 <= i <= |values|
      invariant Joined(values) == text + Tail(values, i)
    {
      JoinedStep(values, i);
      text := text + ", ";
      text := text + values[i];
      i := i + 1;
    }
  }

  lemma JoinedNone()
    ensures Joined([]) == ""
  {
  }

  function DigitsValue(s: string): int {
    if s == "" then 0 else 10 * DigitsValue(s[..|s| - 1]) + (s[|s| - 1] as int - '0' as int)
  }

  predicate AllDigits(s: string) {
    s != "" && forall i :: 0 <= i < |s| ==> IsDigit(s[i])
  }

  // Integer.parseInt on ASCII digits.
  function ParseInt(s: string): Option<int> {
    var negative := s != "" && s[0] == '-';
    var digits := if s != "" && (s[0] == '-' || s[0] == '+') then s[1..] else s;
    if !AllDigits(digits) then None
    else
      var n := if negative then -DigitsValue(digits) else DigitsValue(digits);
      if -0x8000_0000 <= n < 0x8000_0000 then Some(n) else None
  }

  function PrintInt(n: nat): string {
    (if n < 10 then "" else PrintInt(n / 10)) + [('0' as int + n % 10) as char]
  }

  lemma {:induction false} PrintIntDigits(n: nat)
    ensures AllDigits(PrintInt(n)) && DigitsValue(PrintInt(n)) == n
  {
    if n >= 10 {
      PrintIntDigits(n / 10);
      assert PrintInt(n)[..|PrintInt(n)| - 1] == PrintInt(n / 10);
    } else {
      assert PrintInt(n)[..0] == "";
    }
  }

  // Numbers of an int print and parse back, and print as solid text.
  lemma PrintIntParses(n: nat)
    requires n < 0x8000_0000
    ensures ParseInt(PrintInt(n)) == Some(n) && Solid(PrintInt(n))
  {
    hide DigitsValue, PrintInt;
    PrintIntDigits(n);
  }

  lemma {:induction false} PiecesOf(x: string, rest: string)
    requires ',' !in x
    ensures Pieces(x + "," + rest) == [x] + Pieces(rest)
  {
    if x == "" {
      assert (x + "," + rest)[1..] == rest;
    } else {
      PiecesOf(x[1..], rest);
      assert (x + "," + rest)[1..] == x[1..] + "," + rest;
      assert [x[0]] + x[1..] == x;
    }
  }

  lemma {:induction false} PiecesNone(x: string)
    requires ',' !in x
    ensures Pieces(x) == [x]
  {
    if x != "" {
      PiecesNone(x[1..]);
      assert [x[0]] + x[1..] == x;
    }
  }

  predicate AllSolid(values: seq<string>) {
    forall i :: 0 <= i < |values| ==> Solid(values[i])
  }

  function Spaced(values: seq<string>): (r: seq<string>)
    ensures |r| == |values|
  {
    seq(|values|, i requires 0 <= i < |values| => if i == 0 then values[i] else " " + values[i])
  }

  lemma {:induction false} PiecesJoined(prefix: string, values: seq<string>)
    requires values != [] && ',' !in prefix && forall i :: 0 <= i < |values| ==> ',' !in values[i]
    ensures Pieces(prefix + Joined(values)) == [prefix + values[0]] + Spaced(values)[1..]
    decreases |values|
  {
    var x := prefix + values[0];
    if |values| == 1 {
      PiecesNone(x);
    } else {
      PiecesJoined(" ", values[1..]);
      PiecesOf(x, " " + Joined(values[1..]));
      assert prefix + Joined(values) == x + "," + (" " + Joined(values[1..]));
      assert [" " + values[1]] + Spaced(values[1..])[1..] == Spaced(values)[1..];
    }
  }

  lemma PiecesOfList(values: seq<string>)
    requires values != [] && forall i :: 0 <= i < |values| ==> ',' !in values[i]
    ensures Pieces(Joined(values)) == Spaced(values)
  {
    hide Pieces, Joined;
    PiecesJoined("", values);
    assert "" + Joined(values) == Joined(values) && "" + values[0] == values[0];
  }

  // No comma, comment sign or end of line.
  predicate Tame(s: string) {
    forall i :: 0 <= i < |s| ==> s[i] != ',' && s[i] != '#' && s[i] != '\n' && s[i] != '\r'
  }

  // An element that a list can hold and give back: no comma, comment sign or end of line in it and no space at its
  // ends; the last one is not empty and ends with no control character either.
  predicate ListableAt(s: string, last: bool) {
    && Tame(s)
    && (s != "" ==> !IsSpace(s[0]) && !IsSpace(s[|s| - 1]))
    && (last ==> s != "" && !Trimmable(s[|s| - 1]))
  }

  predicate Listable(values: seq<string>) {
    forall i :: 0 <= i < |values| ==> ListableAt(values[i], i == |values| - 1)
  }

  lemma SolidListable(values: seq<string>)
    requires AllSolid(values)
    ensures Listable(values)
  {
    forall i | 0 <= i < |values|
      ensures ListableAt(values[i], i == |values| - 1)
    {
      assert Solid(values[i]);
    }
  }

  // A list of such texts that is joined splits into itself.
  lemma SplitJoined(values: seq<string>)
    requires values != [] && Listable(values)
    ensures Split(Joined(values)) == values
  {
    hide Pieces, Joined, StripAll;
    forall i | 0 <= i < |values|
      ensures ',' !in values[i]
    {
      assert ListableAt(values[i], i == |values| - 1);
    }
    PiecesOfList(values);
    if |values| == 1 {
      JoinedOne(values);
    } else {
      JoinedHasComma(values);
      StripSpaced(values);
      assert ListableAt(values[|values| - 1], true);
    }
  }

  lemma SkipOne(x: string, last: bool)
    requires ListableAt(x, last)
    ensures SkipSpace(" " + x) == x && SkipSpace(x) == x && CutSpace(x) == x
  {
    assert (" " + x)[1..] == x;
  }

  lemma StripSpaced(values: seq<string>)
    requires values != [] && Listable(values)
    ensures StripAll(Spaced(values)) == values
  {
    hide SkipSpace, CutSpace, ListableAt;
    forall i | 0 <= i < |values|
      ensures StripAll(Spaced(values))[i] == values[i]
    {
      SkipOne(values[i], i == |values| - 1);
    }
  }

  lemma JoinedOne(values: seq<string>)
    requires |values| == 1 && ',' !in values[0]
    ensures Joined(values) == values[0] && ',' !in Joined(values)
  {
  }

  lemma JoinedHasComma(values: seq<string>)
    requires |values| > 1
    ensures ',' in Joined(values)
  {
    assert Joined(values)[|values[0]|] == ',';
  }
}
