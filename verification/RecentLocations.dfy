/**
  The table of recent locations (location_storage.rs): at most two, the newest first, each place once.
 */
module RecentLocations {
  import opened VpnSession
  import opened Options

  const RECENT_LIMIT := 2

  datatype Recent = Recent(id: nat, location: Location)

  function WithoutCode(rows: seq<Recent>, code: string): seq<Recent> {
    if rows == [] then []
    else (if rows[0].location.code == code then [] else [rows[0]]) + WithoutCode(rows[1..], code)
  }

  function KeepIds(rows: seq<Recent>, ids: set<nat>): seq<Recent> {
    if rows == [] then []
    else (if rows[0].id in ids then [rows[0]] else []) + KeepIds(rows[1..], ids)
  }

  // The ids of the query for the highest ones; rows lie in the order of their ids.
  function HighestIds(rows: seq<Recent>): set<nat> {
    var from := if |rows| <= RECENT_LIMIT then 0 else |rows| - RECENT_LIMIT;
    set i | from <= i < |rows| :: rows[i].id
  }

  predicate Ascending(rows: seq<Recent>, last: nat) {
    && (forall i, j :: 0 <= i < j < |rows| ==> rows[i].id < rows[j].id)
    && (forall i :: 0 <= i < |rows| ==> rows[i].id <= last)
  }

  // What was added, newest first, each place with its latest record only.
  function Newest(history: seq<Location>): seq<Location> {
    if history == [] then []
    else
      var last := history[|history| - 1];
      [last.(estimate := None)] + Others(Newest(history[..|history| - 1]), last.code)
  }

  function Others(locations: seq<Location>, code: string): seq<Location> {
    if locations == [] then []
    else (if locations[0].code == code then [] else [locations[0]]) + Others(locations[1..], code)
  }

  function Take(locations: seq<Location>): seq<Location> {
    if |locations| <= RECENT_LIMIT then locations else locations[..RECENT_LIMIT]
  }

  function NewestFirst(rows: seq<Recent>): seq<Location> {
    if rows == [] then [] else [rows[|rows| - 1].location] + NewestFirst(rows[..|rows| - 1])
  }

  predicate Distinct(locations: seq<Location>) {
    forall i, j :: 0 <= i < j < |locations| ==> locations[i].code != locations[j].code
  }

  class LocationStorage {
    var rows: seq<Recent>
    var lastId: nat
    ghost var history: seq<Location>

    ghost predicate Valid()
      reads this
    {
      Ascending(rows, lastId) && NewestFirst(rows) == Take(Newest(history))
    }

    constructor ()
      ensures Valid() && history == []
    {
      rows, lastId, history := [], 0, [];
    }

    // Ids are assigned by the database, each higher than all before it. The estimate is not stored.
    method AddRecent(location: Location)
      requires Valid()
      modifies this
      ensures Valid() && history == old(history) + [location]
    {
      hide KeepIds, WithoutCode, HighestIds;
      rows := WithoutCode(rows, location.code);
      WithoutCodeKeeps(old(rows), location.code, lastId);
      NewestFirstWithout(old(rows), location.code);
      lastId := lastId + 1;
      rows := rows + [Recent(lastId, location.(estimate := None))];
      ghost var added := rows;
      rows := KeepIds(rows, HighestIds(rows));
      KeepHighest(added, lastId);
      history := history + [location];
      assert history[..|history| - 1] == old(history);
      assert added[..|added| - 1] == WithoutCode(old(rows), location.code);
      NewestDistinct(old(history));
      TakeOthers(Newest(old(history)), location.(estimate := None));
    }

    // Distinct places in descending order of id: of several rows of one place one would be given, but there is one.
    method RecentLocations() returns (recent: seq<Location>)
      requires Valid()
      ensures recent == Take(Newest(history))
      ensures |recent| <= 2 && Distinct(recent)
      ensures |recent| == 2 || forall l :: l in Newest(history) ==> l in recent
    {
      hide Newest, Take, Distinct, Ascending;
      recent := [];
      var i := |rows|;
      assert rows[..i] == rows;
      NewestTaken(history);
      while i > 0
        invariant 0 <= i <= |rows|
        invariant recent + NewestFirst(rows[..i]) == NewestFirst(rows)
      {
        assert rows[..i][..i - 1] == rows[..i - 1];
        i := i - 1;
        recent := recent + [rows[i].location];
      }
      assert recent + [] == recent;
    }
  }

  lemma NewestTaken(history: seq<Location>)
    ensures var all, taken := Newest(history), Take(Newest(history));
            |taken| <= 2 && Distinct(taken) && (|taken| == 2 || forall l :: l in all ==> l in taken)
  {
    hide Newest;
    NewestDistinct(history);
  }

  lemma {:induction false} WithoutCodeWithin(rows: seq<Recent>, code: string)
    ensures forall r :: r in WithoutCode(rows, code) ==> r in rows
  {
    if rows != [] {
      WithoutCodeWithin(rows[1..], code);
    }
  }

  lemma {:induction false} WithoutCodeKeeps(rows: seq<Recent>, code: string, last: nat)
    requires Ascending(rows, last)
    ensures Ascending(WithoutCode(rows, code), last)
  {
    if rows != [] {
      var rest := WithoutCode(rows[1..], code);
      AscendingRest(rows, last);
      hide Ascending;
      WithoutCodeKeeps(rows[1..], code, last);
      WithoutCodeWithin(rows[1..], code);
      WithoutFirst(rows, code);
      hide WithoutCode;
      AscendingFirst(rows[0], rows[1..], rest, last);
    }
  }

  lemma WithoutFirst(rows: seq<Recent>, code: string)
    requires rows != []
    ensures WithoutCode(rows, code) == WithoutCode(rows[1..], code) || WithoutCode(rows, code) == [rows[0]] + WithoutCode(rows[1..], code)
  {
  }

  lemma AscendingRest(rows: seq<Recent>, last: nat)
    requires rows != [] && Ascending(rows, last)
    ensures Ascending(rows[1..], last) && rows[0].id <= last && forall r :: r in rows[1..] ==> rows[0].id < r.id
  {
  }

  lemma AscendingFirst(first: Recent, rows: seq<Recent>, rest: seq<Recent>, last: nat)
    requires Ascending(rest, last) && first.id <= last
    requires forall r :: r in rows ==> first.id < r.id
    requires forall r :: r in rest ==> r in rows
    ensures Ascending([first] + rest, last)
  {
    forall i | 0 <= i < |rest|
      ensures first.id < rest[i].id
    {
      assert rest[i] in rows;
    }
  }

  lemma {:induction false} KeepIdsAll(rows: seq<Recent>, ids: set<nat>)
    requires forall i :: 0 <= i < |rows| ==> rows[i].id in ids
    ensures KeepIds(rows, ids) == rows
  {
    if rows != [] {
      KeepIdsAll(rows[1..], ids);
    }
  }

  // Keeping the highest ids keeps the last rows.
  lemma {:induction false} KeepTail(rows: seq<Recent>, n: nat, ids: set<nat>)
    requires n <= |rows|
    requires forall i :: 0 <= i < |rows| ==> (rows[i].id in ids <==> n <= i)
    ensures KeepIds(rows, ids) == rows[n..]
  {
    if n == 0 {
      KeepIdsAll(rows, ids);
    } else {
      KeepTail(rows[1..], n - 1, ids);
    }
  }

  lemma KeepHighest(rows: seq<Recent>, last: nat)
    requires Ascending(rows, last)
    ensures var kept := KeepIds(rows, HighestIds(rows));
            Ascending(kept, last) && NewestFirst(kept) == Take(NewestFirst(rows))
  {
    var n := if |rows| <= RECENT_LIMIT then 0 else |rows| - RECENT_LIMIT;
    forall i | 0 <= i < |rows|
      ensures rows[i].id in HighestIds(rows) <==> n <= i
    {
    }
    KeepTail(rows, n, HighestIds(rows));
    NewestFirstTail(rows, n);
  }

  lemma {:induction false} NewestFirstLength(rows: seq<Recent>)
    ensures |NewestFirst(rows)| == |rows|
  {
    if rows != [] {
      NewestFirstLength(rows[..|rows| - 1]);
    }
  }

  lemma {:induction false} NewestFirstTail(rows: seq<Recent>, n: nat)
    requires n <= |rows|
    ensures |NewestFirst(rows)| == |rows| && NewestFirst(rows[n..]) == NewestFirst(rows)[..|rows| - n]
    decreases |rows|
  {
    NewestFirstLength(rows);
    if n < |rows| {
      var before, last := rows[..|rows| - 1], rows[|rows| - 1];
      NewestFirstTail(before, n);
      var tail := rows[n..];
      assert tail[..|tail| - 1] == before[n..] && tail[|tail| - 1] == last;
      assert NewestFirst(tail) == [last.location] + NewestFirst(before[n..]);
      assert NewestFirst(rows) == [last.location] + NewestFirst(before);
    } else {
      assert rows[n..] == [];
    }
  }

  lemma {:induction false} NewestFirstWithout(rows: seq<Recent>, code: string)
    ensures NewestFirst(WithoutCode(rows, code)) == Others(NewestFirst(rows), code)
  {
    if rows != [] {
      var before, last := rows[..|rows| - 1], rows[|rows| - 1];
      NewestFirstWithout(before, code);
      WithoutSnoc(before, last, code);
      assert rows == before + [last];
      var rest := WithoutCode(before, code);
      if last.location.code == code {
        assert rest + [] == rest;
      } else {
        assert (rest + [last])[..|rest|] == rest;
      }
    }
  }

  lemma {:induction false} WithoutSnoc(rows: seq<Recent>, last: Recent, code: string)
    ensures WithoutCode(rows + [last], code)
         == WithoutCode(rows, code) + if last.location.code == code then [] else [last]
  {
    if rows == [] {
      assert rows + [last] == [last] && [last][1..] == [];
    } else {
      WithoutSnoc(rows[1..], last, code);
      assert (rows + [last])[1..] == rows[1..] + [last] && (rows + [last])[0] == rows[0];
    }
  }

  lemma {:induction false} OthersDistinct(locations: seq<Location>, code: string)
    requires Distinct(locations)
    ensures Distinct(Others(locations, code))
    ensures forall l :: l in Others(locations, code) ==> l in locations && l.code != code
  {
    if locations != [] {
      OthersDistinct(locations[1..], code);
      assert forall l :: l in Others(locations[1..], code) ==> l.code != locations[0].code;
    }
  }

  lemma {:induction false} NewestDistinct(history: seq<Location>)
    ensures Distinct(Newest(history))
  {
    if history != [] {
      var before := history[..|history| - 1];
      NewestDistinct(before);
      OthersDistinct(Newest(before), history[|history| - 1].code);
    }
  }

  // The i-th addition is the last one of its place.
  predicate LastOfPlace(history: seq<Location>, i: nat) {
    i < |history| && forall j :: i < j < |history| ==> history[j].code != history[i].code
  }

  ghost predicate IsLatest(history: seq<Location>, l: Location) {
    exists i: nat :: LastOfPlace(history, i) && l == history[i].(estimate := None)
  }

  // What is kept in mind is the last addition of each place, without its estimate, the latest first.
  lemma {:induction false} NewestExact(history: seq<Location>)
    ensures forall l :: l in Newest(history) <==> exists i: nat :: LastOfPlace(history, i) && l == history[i].(estimate := None)
    ensures history != [] ==> Newest(history)[0] == history[|history| - 1].(estimate := None)
  {
    hide LastOfPlace;
    if history == [] {
      NoneLatest();
    } else {
      var before, last := history[..|history| - 1], history[|history| - 1];
      NewestExact(before);
      OthersExact(Newest(before), last.code);
      assert forall l :: l in Newest(before) <==> IsLatest(before, l);
      forall l
        ensures l in Newest(history) <==> IsLatest(history, l)
      {
        hide Others, IsLatest;
        LatestStep(history, l);
      }
    }
  }

  lemma NoneLatest()
    ensures forall i: nat :: !LastOfPlace([], i)
  {
  }

  lemma LatestStep(history: seq<Location>, l: Location)
    requires history != []
    ensures var before, last := history[..|history| - 1], history[|history| - 1];
            IsLatest(history, l) <==> l == last.(estimate := None) || (IsLatest(before, l) && l.code != last.code)
  {
    hide LastOfPlace;
    var n := |history| - 1;
    var before := history[..n];
    LastIsLatest(history);
    PlaceWithin(history);
    PlaceWithin(before);
    if IsLatest(history, l) {
      var i: nat :| LastOfPlace(history, i) && l == history[i].(estimate := None);
      if i != n {
        LatestBefore(history, i);
        assert l == before[i].(estimate := None);
      }
    }
    if IsLatest(before, l) && l.code != history[n].code {
      var i: nat :| LastOfPlace(before, i) && l == before[i].(estimate := None);
      LatestBefore(history, i);
    }
  }

  lemma LastIsLatest(history: seq<Location>)
    requires history != []
    ensures LastOfPlace(history, |history| - 1)
  {
  }

  lemma PlaceWithin(history: seq<Location>)
    ensures forall i: nat :: LastOfPlace(history, i) ==> i < |history|
  {
  }

  lemma LatestBefore(history: seq<Location>, i: nat)
    requires i < |history| - 1
    ensures LastOfPlace(history, i) <==> LastOfPlace(history[..|history| - 1], i) && history[i].code != history[|history| - 1].code
  {
    var before := history[..|history| - 1];
    if LastOfPlace(history, i) {
      assert forall j :: i < j < |before| ==> before[j] == history[j];
    }
  }

  lemma {:induction false} OthersExact(locations: seq<Location>, code: string)
    ensures forall l :: l in Others(locations, code) <==> l in locations && l.code != code
  {
    if locations != [] {
      OthersExact(locations[1..], code);
    }
  }

  lemma {:induction false} OthersAll(locations: seq<Location>, code: string)
    requires forall l :: l in locations ==> l.code != code
    ensures Others(locations, code) == locations
  {
    if locations != [] {
      OthersAll(locations[1..], code);
    }
  }

  // Forgetting all but the newest two does not show: the next two newest are among them and the one added.
  lemma TakeOthers(all: seq<Location>, added: Location)
    requires Distinct(all)
    ensures Take([added] + Others(Take(all), added.code)) == Take([added] + Others(all, added.code))
  {
    if |all| > RECENT_LIMIT {
      var a, b := all[0], all[1];
      assert all[..2] == [a, b] && all[1..][0] == b && all[1..][1..] == all[2..];
      assert [a, b][1..] == [b] && [b][1..] == [];
      if a.code == added.code {
        assert Others(all, added.code)[0] == b;
      } else {
        assert Others(all, added.code)[0] == a;
      }
    }
  }
}
