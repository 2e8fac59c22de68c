/**
  Which lists survive being printed on one line and read back: names of applications are texts of any kind.
 */
module WgNames {
  import opened Options
  import opened WgText
  import opened WgConfig

  predicate AllTame(values: seq<string>) {
    forall i :: 0 <= i < |values| ==> Tame(values[i])
  }

  // The elements that are read of a printed list.
  function TextsRead(values: seq<string>): seq<string> {
    Split(SkipSpace(TrimRight(Joined(values))))
  }

  // What comes back of a list of tame names, each once: None where the line no longer is an attribute.
  function ReadBack(values: seq<string>): Option<seq<string>> {
    if values == [] then Some([])
    else if TrimRight(Joined(values)) == "" then None
    else Some(AddAll([], TextsRead(values)))
  }

  /* ---------- what a printed list looks like ---------- */

  lemma {:induction false} JoinedTame(values: seq<string>)
    requires AllTame(values)
    ensures forall i :: 0 <= i < |Joined(values)| ==> Joined(values)[i] != '#' && Joined(values)[i] != '\n' && Joined(values)[i] != '\r'
  {
    if |values| > 1 {
      JoinedTame(values[1..]);
      var head, rest := values[0] + ", ", Joined(values[1..]);
      assert Joined(values) == head + rest && Tame(values[0]);
      forall i | 0 <= i < |head + rest|
        ensures (head + rest)[i] != '#' && (head + rest)[i] != '\n' && (head + rest)[i] != '\r'
      {
        assert i < |values[0]| ==> head[i] == values[0][i];
        assert i >= |head| ==> (head + rest)[i] == rest[i - |head|];
      }
    } else if |values| == 1 {
      assert Tame(values[0]);
    }
  }

  lemma {:induction false} JoinedLast(values: seq<string>)
    requires values != [] && values[|values| - 1] != ""
    ensures var j, last := Joined(values), values[|values| - 1];
            j != "" && j[|j| - 1] == last[|last| - 1]
  {
    if |values| > 1 {
      JoinedLast(values[1..]);
    }
  }

  lemma JoinedFirst(values: seq<string>)
    requires values != [] && Joined(values) != ""
    ensures Joined(values)[0] == if values[0] == "" then ',' else values[0][0]
  {
  }

  // A listable list is printed as it is and comes back.
  lemma ListableReadsBack(values: seq<string>)
    requires values != [] && Listable(values) && NoneTwice(values)
    ensures ReadBack(values) == Some(values)
  {
    hide Joined, Split, AddAll;
    var last := |values| - 1;
    assert ListableAt(values[last], true) && ListableAt(values[0], 0 == last);
    JoinedLast(values);
    JoinedFirst(values);
    var j := Joined(values);
    assert TrimRight(j) == j && SkipSpace(j) == j;
    SplitJoined(values);
    AddAllOnce([], values);
    assert [] + values == values;
  }

  predicate NoneTwice(values: seq<string>) {
    forall i, j :: 0 <= i < j < |values| ==> values[i] != values[j]
  }

  lemma {:induction false} AddAllOnce(before: seq<string>, values: seq<string>)
    requires NoneTwice(before + values)
    ensures AddAll(before, values) == before + values
    decreases |values|
  {
    if values == [] {
      assert before + values == before;
    } else {
      var all := before + values;
      assert forall i :: 0 <= i < |before| ==> all[i] == before[i];
      assert all[|before|] == values[0];
      assert before + [values[0]] + values[1..] == all;
      AddAllOnce(before + [values[0]], values[1..]);
    }
  }

  /* ---------- what a list that was read looks like ---------- */

  // Adding gives as many elements as were added only if it adds them all.
  lemma {:induction false} AddAllShort(before: seq<string>, values: seq<string>)
    ensures |AddAll(before, values)| <= |before| + |values|
    ensures |AddAll(before, values)| == |before| + |values| ==> AddAll(before, values) == before + values
    decreases |values|
  {
    if values == [] {
      assert before + values == before;
    } else {
      AddAllShort(AddNew(before, values[0]), values[1..]);
      assert before + [values[0]] + values[1..] == before + values;
    }
  }

  lemma {:induction false} DropShort(pieces: seq<string>)
    ensures |DropEmptyTail(pieces)| <= |pieces|
    ensures |DropEmptyTail(pieces)| == |pieces| ==> DropEmptyTail(pieces) == pieces && (pieces == [] || pieces[|pieces| - 1] != "")
  {
    if pieces != [] && pieces[|pieces| - 1] == "" {
      DropShort(pieces[..|pieces| - 1]);
    }
  }

  // Taking space off the ends takes no comma away.
  lemma {:induction false} SkipKeepsCount(s: string)
    ensures |Pieces(SkipSpace(s))| == |Pieces(s)|
  {
    if s != "" && IsSpace(s[0]) {
      SkipKeepsCount(s[1..]);
    }
  }

  lemma PiecesStep(s: string)
    requires s != ""
    ensures var rest := Pieces(s[1..]);
            Pieces(s) == if s[0] == ',' then [""] + rest else [[s[0]] + rest[0]] + rest[1..]
  {
  }

  lemma NoPieces()
    ensures Pieces("") == [""]
  {
  }

  lemma {:induction false} PiecesSnoc(s: string, c: char)
    ensures |Pieces(s + [c])| == |Pieces(s)| + if c == ',' then 1 else 0
  {
    hide Pieces;
    NoPieces();
    PiecesStep(s + [c]);
    if s == "" {
      assert s + [c] == [c] && [c][1..] == "";
    } else {
      PiecesSnoc(s[1..], c);
      PiecesStep(s);
      assert (s + [c])[1..] == s[1..] + [c] && (s + [c])[0] == s[0];
    }
  }

  lemma {:induction false} PiecesGrow(s: string, c: char)
    requires c != ','
    ensures var n := |Pieces(s)| - 1; |Pieces(s + [c])| == n + 1 && Pieces(s + [c])[..n] == Pieces(s)[..n]
  {
    hide Pieces;
    PiecesSnoc(s, c);
    PiecesStep(s + [c]);
    if s == "" {
      NoPieces();
    } else {
      PiecesGrow(s[1..], c);
      PiecesStep(s);
      assert (s + [c])[1..] == s[1..] + [c] && (s + [c])[0] == s[0];
      GrowFirst(s[0], Pieces(s[1..]), Pieces(s[1..] + [c]));
    }
  }

  lemma GrowFirst(c: char, a: seq<string>, b: seq<string>)
    requires a != [] && |a| == |b| && a[..|a| - 1] == b[..|a| - 1]
    ensures ([""] + a)[..|a|] == ([""] + b)[..|a|]
    ensures ([[c] + a[0]] + a[1..])[..|a| - 1] == ([[c] + b[0]] + b[1..])[..|a| - 1]
  {
    assert ([""] + a)[..|a|] == [""] + a[..|a| - 1] && ([""] + b)[..|a|] == [""] + b[..|a| - 1];
    forall k | 0 <= k < |a| - 1
      ensures a[k] == b[k]
    {
      assert a[..|a| - 1][k] == b[..|a| - 1][k];
    }
  }

  // Space at the end of a text belongs to its last piece.
  lemma {:induction false} TrimKeepsPieces(s: string)
    ensures var n := |Pieces(s)| - 1; |Pieces(TrimRight(s))| == n + 1 && Pieces(TrimRight(s))[..n] == Pieces(s)[..n]
  {
    hide Pieces;
    if s != "" && Trimmable(s[|s| - 1]) {
      var before := s[..|s| - 1];
      TrimKeepsPieces(before);
      PiecesGrow(before, s[|s| - 1]);
      assert before + [s[|s| - 1]] == s;
    }
  }

  lemma {:induction false} TrimEnds(s: string)
    ensures TrimRight(s) != "" ==> !Trimmable(TrimRight(s)[|TrimRight(s)| - 1])
    ensures |TrimRight(s)| <= |s| && TrimRight(s) == s[..|TrimRight(s)|]
  {
    if s != "" && Trimmable(s[|s| - 1]) {
      TrimEnds(s[..|s| - 1]);
    }
  }

  lemma {:induction false} SkipEnds(s: string)
    ensures |SkipSpace(s)| <= |s| && SkipSpace(s) == s[|s| - |SkipSpace(s)|..]
    ensures SkipSpace(s) != "" ==> !IsSpace(SkipSpace(s)[0])
    ensures s != "" && !IsSpace(s[|s| - 1]) ==> SkipSpace(s) != ""
  {
    if s != "" && IsSpace(s[0]) {
      SkipEnds(s[1..]);
    }
  }

  lemma {:induction false} CutEnds(s: string)
    ensures |CutSpace(s)| <= |s| && CutSpace(s) == s[..|CutSpace(s)|]
    ensures CutSpace(s) != "" ==> !IsSpace(CutSpace(s)[|CutSpace(s)| - 1])
  {
    if s != "" && IsSpace(s[|s| - 1]) {
      CutEnds(s[..|s| - 1]);
    }
  }

  predicate Unmarred(s: string) {
    '#' !in s && '\n' !in s && '\r' !in s
  }

  // Pieces of a text without comment signs and ends of lines are tame.
  lemma {:induction false} PiecesTame(s: string)
    requires Unmarred(s)
    ensures AllTame(Pieces(s))
  {
    hide Pieces;
    NoPieces();
    if s != "" {
      PiecesTame(s[1..]);
      PiecesStep(s);
      assert Tame(Pieces(s[1..])[0]);
    }
  }

  // The first piece begins and the last ends as the text does.
  lemma {:induction false} PiecesEnds(s: string)
    ensures var p := Pieces(s)[0]; |p| <= |s| && p == s[..|p|]
    ensures var p := Pieces(s)[|Pieces(s)| - 1]; |p| <= |s| && p == s[|s| - |p|..]
    ensures |Pieces(s)| == 1 ==> Pieces(s)[0] == s
  {
    hide Pieces;
    NoPieces();
    if s != "" {
      PiecesEnds(s[1..]);
      PiecesStep(s);
      var rest := Pieces(s[1..]);
      assert [s[0]] + s[1..] == s;
      if s[0] == ',' || |rest| > 1 {
        assert Pieces(s)[|Pieces(s)| - 1] == rest[|rest| - 1];
        SuffixOfTail(s, rest[|rest| - 1]);
      }
      if s[0] != ',' {
        assert Pieces(s)[0] == [s[0]] + rest[0];
        PrefixOfTail(s, rest[0]);
      }
    }
  }

  lemma SuffixOfTail(s: string, p: string)
    requires s != "" && |p| < |s| && p == s[1..][|s| - 1 - |p|..]
    ensures p == s[|s| - |p|..]
  {
  }

  lemma PrefixOfTail(s: string, p: string)
    requires s != "" && |p| < |s| && p == s[1..][..|p|]
    ensures [s[0]] + p == s[..|p| + 1]
  {
  }

  // A value that was read, of which no empty element was dropped, gives a listable list.
  lemma SplitListable(v: string)
    requires v != "" && Unmarred(v) && !IsSpace(v[0]) && !Trimmable(v[|v| - 1])
    requires |Split(v)| == |Pieces(v)|
    ensures Listable(Split(v))
  {
    hide Pieces, SkipSpace, CutSpace, IsSpace;
    SpacesTrim(v[|v| - 1]);
    PiecesTame(v);
    PiecesEnds(v);
    if ',' in v {
      var pieces := Pieces(v);
      DropShort(StripAll(pieces));
      var last := |pieces| - 1;
      forall i | 0 <= i <= last
        ensures ListableAt(Split(v)[i], i == last)
      {
        assert Tame(pieces[i]);
        PieceListable(v, pieces[i], i == 0, i == last);
      }
    } else {
      assert ListableAt(v, true);
    }
  }

  lemma SpacesTrim(c: char)
    ensures !Trimmable(c) ==> !IsSpace(c)
  {
  }

  lemma PieceListable(v: string, piece: string, first: bool, last: bool)
    requires v != "" && !IsSpace(v[0]) && !Trimmable(v[|v| - 1]) && Tame(piece)
    requires first ==> |piece| <= |v| && piece == v[..|piece|]
    requires last ==> |piece| <= |v| && piece == v[|v| - |piece|..]
    ensures var left := if first then piece else SkipSpace(piece);
            var s := if last then left else CutSpace(left);
            (last && s == "") || ListableAt(s, last)
  {
    hide SkipSpace, CutSpace, IsSpace, Tame, Trimmable, ListableAt;
    var left := if first then piece else SkipSpace(piece);
    if first {
      assert piece != "" ==> piece[0] == v[0];
    } else {
      SkippedListable(piece);
    }
    if last {
      if left != "" {
        LastListable(v, piece, left);
      }
    } else {
      CutListable(left);
    }
  }

  lemma SkippedListable(piece: string)
    requires Tame(piece)
    ensures var left := SkipSpace(piece); Tame(left) && (left != "" ==> !IsSpace(left[0]))
    ensures var left := SkipSpace(piece); |left| <= |piece| && left == piece[|piece| - |left|..]
  {
    hide SkipSpace, IsSpace, Tame;
    SkipEnds(piece);
    var n := |piece| - |SkipSpace(piece)|;
    SliceTame(piece, n, |piece|);
    assert piece[n..|piece|] == piece[n..];
  }

  lemma CutListable(left: string)
    requires Tame(left) && (left != "" ==> !IsSpace(left[0]))
    ensures ListableAt(CutSpace(left), false)
  {
    hide CutSpace, IsSpace, Tame;
    var s := CutSpace(left);
    CutEnds(left);
    SliceTame(left, 0, |s|);
    assert s == left[0..|s|];
    assert s != "" ==> s[0] == left[0];
  }

  lemma LastListable(v: string, piece: string, left: string)
    requires v != "" && !Trimmable(v[|v| - 1]) && Tame(left) && left != "" && !IsSpace(left[0])
    requires |piece| <= |v| && piece == v[|v| - |piece|..]
    requires |left| <= |piece| && left == piece[|piece| - |left|..]
    ensures ListableAt(left, true)
  {
    hide IsSpace, Tame, Trimmable;
    assert left[|left| - 1] == piece[|piece| - 1] == v[|v| - 1];
    SpacesTrim(v[|v| - 1]);
  }

  lemma SliceTame(s: string, a: nat, b: nat)
    requires Tame(s) && a <= b <= |s|
    ensures Tame(s[a..b])
  {
  }

  // A tame list that comes back from one line is listable.
  lemma ReadBackListable(values: seq<string>)
    requires AllTame(values) && ReadBack(values) == Some(values)
    ensures Listable(values)
  {
    hide Joined, Pieces, Split, AddAll, SkipSpace, TrimRight, Tame;
    if values != [] {
      var j := Joined(values);
      var printed := TrimRight(j);
      var v := SkipSpace(printed);
      JoinedTame(values);
      TrimEnds(j);
      SkipEnds(printed);
      SpacesTrim(printed[|printed| - 1]);
      TrimKeepsPieces(j);
      SkipKeepsCount(printed);
      TameNoComma(values);
      PiecesOfList(values);
      SplitShort(v);
      AddAllShort([], Split(v));
      assert [] + Split(v) == Split(v);
      SplitListable(v);
    }
  }

  lemma TameNoComma(values: seq<string>)
    requires AllTame(values)
    ensures forall i :: 0 <= i < |values| ==> ',' !in values[i]
  {
    forall i | 0 <= i < |values|
      ensures ',' !in values[i]
    {
      assert Tame(values[i]);
    }
  }

  lemma SplitShort(v: string)
    ensures |Split(v)| <= |Pieces(v)|
  {
    hide Pieces, StripAll;
    DropShort(StripAll(Pieces(v)));
  }

  // Of tame names, each once, exactly the listable lists come back.
  lemma ReadBackExact(values: seq<string>)
    requires AllTame(values) && NoneTwice(values)
    ensures ReadBack(values) == Some(values) <==> Listable(values)
  {
    hide ReadBack;
    if values == [] {
      NothingReadsBack();
    } else if Listable(values) {
      ListableReadsBack(values);
    } else if ReadBack(values) == Some(values) {
      ReadBackListable(values);
    }
  }

  lemma NothingReadsBack()
    ensures ReadBack([]) == Some([])
  {
  }
}
