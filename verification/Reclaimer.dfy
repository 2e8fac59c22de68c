/**
  The reclaimer (vpn_session/reclaimer.rs): ends on the server the sessions whose rows are marked for deletion and
  deletes the rows it gets an answer about.
 */
module Reclaimer {
  import opened Options
  import opened VpnSession

  // The server's answer to an end call, retries included.
  datatype EndAnswer = Ended | Server(message: string) | Connection | VpnSessionServiceDown

  // An answer of the server, be it an error, settles a session; a call that does not reach the server is repeated.
  predicate Settles(answer: EndAnswer) {
    answer.Ended? || answer.Server?
  }

  predicate IsReclaimed(rows: Rows, id: Uuid, answer: SessionInfo -> EndAnswer)
    requires id in rows
  {
    rows[id].markForDeletion && rows[id].sessionUuid.Some? && Settles(answer(SessionInfo(id, rows[id].sessionUuid.value)))
  }

  function AfterReclaim(rows: Rows, answer: SessionInfo -> EndAnswer): Rows {
    map id | id in rows && !IsReclaimed(rows, id, answer) :: rows[id]
  }

  class Reclaimer {
    const storage: VpnSessionStorage
    var endCalls: seq<SessionInfo>

    constructor (storage: VpnSessionStorage)
      ensures this.storage == storage && endCalls == []
    {
      this.storage := storage;
      endCalls := [];
    }

    // One pass. Without a signed-in device nothing happens. Every marked session with a uuid gets exactly one end
    // call, and its row goes exactly when the answer settles it; no other row is touched.
    method Reclaim(device: Option<Uuid>, answer: SessionInfo -> EndAnswer)
      modifies this, storage
      ensures device.None? ==> storage.rows == old(storage.rows) && endCalls == old(endCalls)
      ensures device.Some? ==>
                && storage.rows == AfterReclaim(old(storage.rows), answer)
                && old(endCalls) <= endCalls
                && (set i | |old(endCalls)| <= i < |endCalls| :: endCalls[i]) == ToReclaim(old(storage.rows))
                && |endCalls| == |old(endCalls)| + |ToReclaim(old(storage.rows))|
    {
      hide Removed, IsReclaimed, AfterReclaim, ToReclaim;
      ghost var rows, calls := storage.rows, endCalls;
      var sessions := storage.SessionsToReclaim();
      if device.None? {
        return;
      }
      NoneRemoved(rows, answer);
      for i := 0 to |sessions|
        invariant endCalls == calls + sessions[..i]
        invariant storage.rows == Removed(rows, sessions[..i], answer)
      {
        var session := sessions[i];
        RemovedStep(rows, sessions, i, answer);
        endCalls := endCalls + [session];
        match answer(session) {
          case Ended =>
            storage.Delete(session.requestId);
          case VpnSessionServiceDown =>
          case Connection =>
          case Server(_) =>
            storage.Delete(session.requestId);
        }
      }
      assert sessions[..|sessions|] == sessions;
      AllRemoved(rows, sessions, answer);
      CallsCounted(calls, sessions, ToReclaim(rows));
    }
  }

  // The rows left when the sessions done have been ended.
  function Removed(rows: Rows, done: seq<SessionInfo>, answer: SessionInfo -> EndAnswer): Rows {
    map id | id in rows && !(IsReclaimed(rows, id, answer) && SessionInfo(id, rows[id].sessionUuid.value) in done) :: rows[id]
  }

  lemma NoneRemoved(rows: Rows, answer: SessionInfo -> EndAnswer)
    ensures Removed(rows, [], answer) == rows
  {
  }

  lemma RemovedStep(rows: Rows, sessions: seq<SessionInfo>, i: nat, answer: SessionInfo -> EndAnswer)
    requires i < |sessions| && sessions[i] in ToReclaim(rows)
    ensures Removed(rows, sessions[..i + 1], answer)
         == Removed(rows, sessions[..i], answer) - if Settles(answer(sessions[i])) then {sessions[i].requestId} else {}
  {
    assert forall info :: info in sessions[..i + 1] <==> info in sessions[..i] || info == sessions[i];
  }

  lemma AllRemoved(rows: Rows, sessions: seq<SessionInfo>, answer: SessionInfo -> EndAnswer)
    requires forall info :: info in sessions <==> info in ToReclaim(rows)
    ensures Removed(rows, sessions, answer) == AfterReclaim(rows, answer)
  {
  }

  lemma CallsCounted(calls: seq<SessionInfo>, sessions: seq<SessionInfo>, all: set<SessionInfo>)
    requires forall info :: info in sessions <==> info in all
    requires forall i, j :: 0 <= i < j < |sessions| ==> sessions[i].requestId != sessions[j].requestId
    ensures var made := calls + sessions;
            (set i | |calls| <= i < |made| :: made[i]) == all && |made| == |calls| + |all|
  {
    var made := calls + sessions;
    DistinctCount(sessions);
    assert all == set info | info in sessions;
    forall info | info in all
      ensures info in (set i | |calls| <= i < |made| :: made[i])
    {
      var i :| 0 <= i < |sessions| && sessions[i] == info;
      assert made[|calls| + i] == info;
    }
  }

  // A sequence of sessions for different requests has as many sessions as it is long.
  lemma {:induction false} DistinctCount(sessions: seq<SessionInfo>)
    requires forall i, j :: 0 <= i < j < |sessions| ==> sessions[i].requestId != sessions[j].requestId
    ensures |set info | info in sessions| == |sessions|
  {
    if sessions == [] {
    } else {
      var last := |sessions| - 1;
      DistinctCount(sessions[..last]);
      assert (set info | info in sessions) == (set info | info in sessions[..last]) + {sessions[last]};
    }
  }

  // A marked row is among those to reclaim exactly if it has a uuid.
  lemma ReclaimableExact(rows: Rows, id: Uuid)
    requires id in rows && rows[id].markForDeletion
    ensures (exists info :: info in ToReclaim(rows) && info.requestId == id) <==> rows[id].sessionUuid.Some?
  {
    if rows[id].sessionUuid.Some? {
      assert SessionInfo(id, rows[id].sessionUuid.value) in ToReclaim(rows);
    }
  }

  // A row goes in a pass exactly if it is marked, has a uuid and the server answers about its session, be it with an
  // error of its own; without uuid it stays, whatever the answers.
  lemma RemovableExact(rows: Rows, id: Uuid, answer: SessionInfo -> EndAnswer)
    requires id in rows
    ensures id !in AfterReclaim(rows, answer)
       <==> && rows[id].markForDeletion && rows[id].sessionUuid.Some?
            && var a := answer(SessionInfo(id, rows[id].sessionUuid.value)); a.Ended? || a.Server?
    ensures id in AfterReclaim(rows, answer) ==> AfterReclaim(rows, answer)[id] == rows[id]
  {
  }
}
