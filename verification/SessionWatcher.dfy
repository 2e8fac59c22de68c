/**
  The Android watcher of one session (VPNSessionWatcher.kt): hands on every status it polls, repeated or not, until
  the session is ready or over. This is what the orchestrator can be sent after a session is accepted.
 */
module SessionWatcher {
  import opened Options
  import opened OrchestratorRuns
  import S = VpnSession

  // A poll that fails brings None.
  function Polled(polls: seq<Option<S.VpnSessionStatus>>): seq<S.VpnSessionStatus> {
    if polls == [] then []
    else (if polls[0].Some? then [polls[0].value] else []) + Polled(polls[1..])
  }

  // Up to the first status that ends the watch, and that one with it.
  function UpToEnd(statuses: seq<S.VpnSessionStatus>): seq<S.VpnSessionStatus> {
    if statuses == [] then []
    else [statuses[0]] + if EndsWatch(statuses[0]) then [] else UpToEnd(statuses[1..])
  }

  // The watch over as many polls as there are: what is handed on, whether the watch is done, and whether the row of
  // the session was deleted.
  method Watch(polls: seq<Option<S.VpnSessionStatus>>)
      returns (handed: seq<S.VpnSessionStatus>, done: bool, deleted: bool)
    ensures handed == UpToEnd(Polled(polls))
    ensures forall i :: 0 <= i < |handed| - 1 ==> !EndsWatch(handed[i])
    ensures done <==> handed != [] && EndsWatch(handed[|handed| - 1])
    ensures deleted <==> handed != [] && (handed[|handed| - 1].Failed? || handed[|handed| - 1].Ended?)
  {
    hide Polled, UpToEnd, EndsWatch, Watched;
    handed, done, deleted := [], false, false;
    var i := 0;
    Nothing();
    assert polls[0..] == polls;
    while !done && i < |polls|
      invariant 0 <= i <= |polls|
      invariant Watched(handed, done, deleted)
      invariant UpToEnd(Polled(polls)) == handed + if done then [] else UpToEnd(Polled(polls[i..]))
    {
      PolledStep(polls, i);
      var status := polls[i];
      i := i + 1;
      if status.Some? {
        HandOn(handed, deleted, status.value, Polled(polls[i..]));
        handed := handed + [status.value];
        done := EndsWatch(status.value);
        if status.value.Failed? || status.value.Ended? {
          deleted := true;
        }
      }
    }
    assert !done ==> polls[i..] == [];
    assert handed + [] == handed;
    WatchedMeans(handed, done, deleted);
  }

  // Only the last status may end the watch, and it says what has become of the watch and of the row.
  predicate Watched(handed: seq<S.VpnSessionStatus>, done: bool, deleted: bool) {
    && (forall i :: 0 <= i < |handed| - 1 ==> !EndsWatch(handed[i]))
    && (done <==> handed != [] && EndsWatch(handed[|handed| - 1]))
    && (deleted <==> handed != [] && (handed[|handed| - 1].Failed? || handed[|handed| - 1].Ended?))
  }

  lemma WatchedMeans(handed: seq<S.VpnSessionStatus>, done: bool, deleted: bool)
    requires Watched(handed, done, deleted)
    ensures forall i :: 0 <= i < |handed| - 1 ==> !EndsWatch(handed[i])
    ensures done <==> handed != [] && EndsWatch(handed[|handed| - 1])
    ensures deleted <==> handed != [] && (handed[|handed| - 1].Failed? || handed[|handed| - 1].Ended?)
  {
  }

  lemma HandOn(handed: seq<S.VpnSessionStatus>, deleted: bool, s: S.VpnSessionStatus, rest: seq<S.VpnSessionStatus>)
    requires Watched(handed, false, deleted)
    ensures !deleted && Watched(handed + [s], EndsWatch(s), s.Failed? || s.Ended?)
    ensures handed + UpToEnd([s] + rest) == handed + [s] + if EndsWatch(s) then [] else UpToEnd(rest)
  {
    hide UpToEnd, EndsWatch;
    UpToEndStep(s, rest);
    OverEnds(s);
    if handed != [] {
      OverEnds(handed[|handed| - 1]);
    }
  }

  lemma Nothing()
    ensures Polled([]) == [] && UpToEnd([]) == [] && Watched([], false, false)
  {
  }

  lemma PolledStep(polls: seq<Option<S.VpnSessionStatus>>, i: nat)
    requires i < |polls|
    ensures Polled(polls[i..]) == if polls[i].Some? then [polls[i].value] + Polled(polls[i + 1..]) else Polled(polls[i + 1..])
  {
    assert polls[i..][1..] == polls[i + 1..];
  }

  lemma UpToEndStep(s: S.VpnSessionStatus, rest: seq<S.VpnSessionStatus>)
    ensures UpToEnd([s] + rest) == [s] + if EndsWatch(s) then [] else UpToEnd(rest)
  {
    assert ([s] + rest)[1..] == rest;
  }

  // The statuses handed on are the first ones, up to one that says ready, failed or ended, or all.
  lemma {:induction false} UpToEndExact(statuses: seq<S.VpnSessionStatus>)
    ensures var handed := UpToEnd(statuses);
            && handed <= statuses && (statuses != [] ==> handed != [])
            && (forall i :: 0 <= i < |handed| - 1 ==> !handed[i].ServerReady? && !handed[i].Failed? && !handed[i].Ended?)
            && (handed == statuses
                || var last := handed[|handed| - 1]; last.ServerReady? || last.Failed? || last.Ended?)
  {
    if statuses != [] && !EndsWatch(statuses[0]) {
      UpToEndExact(statuses[1..]);
    }
  }

  lemma OverEnds(s: S.VpnSessionStatus)
    ensures s.Failed? || s.Ended? ==> EndsWatch(s)
  {
  }
}
