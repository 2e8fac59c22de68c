/**
  The watcher of one session (vpn_session/watcher.rs): polls the server once a second and sends the daemon each
  status that differs from the one before, until a final one.
 */
module Watcher {
  import opened Options
  import opened VpnSession
  import opened Daemon

  // What a poll brings; one that fails, or does not reach the server, brings nothing and is not the end.
  datatype Poll = Status(status: VpnSessionStatus) | Failure

  // One turn of the loop: a tick of the clock, with its poll and whether the daemon still receives, or a shutdown.
  datatype Turn = Tick(poll: Poll, delivered: bool) | Shutdown

  predicate Final(status: VpnSessionStatus) {
    status.Failed? || status.ServerReady? || status.ClientConnected? || status.Ended?
  }

  // A watch goes on past these.
  predicate GoesOn(s: VpnSessionStatus) {
    s.Accepted? || s.ServerCreated? || s.ServerRunning?
  }

  // The statuses that the polls before a shutdown bring.
  function Polled(turns: seq<Turn>): seq<VpnSessionStatus> {
    if turns == [] || turns[0].Shutdown? then []
    else (if turns[0].poll.Status? then [turns[0].poll.status] else []) + Polled(turns[1..])
  }

  function UpToFinal(statuses: seq<VpnSessionStatus>): seq<VpnSessionStatus> {
    if statuses == [] then [] else if Final(statuses[0]) then [statuses[0]]
    else [statuses[0]] + UpToFinal(statuses[1..])
  }

  // The sequence without each element that equals the one right before it.
  function Stutterless<T(==)>(s: seq<T>): seq<T> {
    if s == [] then []
    else
      var last := |s| - 1;
      Stutterless(s[..last]) + if last > 0 && s[last] == s[last - 1] then [] else [s[last]]
  }

  predicate NoneFinal(statuses: seq<VpnSessionStatus>) {
    forall i :: 0 <= i < |statuses| ==> !Final(statuses[i])
  }

  predicate AllDelivered(turns: seq<Turn>) {
    forall i :: 0 <= i < |turns| && turns[i].Tick? ==> turns[i].delivered
  }

  class Watcher {
    var lastWatch: Option<VpnSessionStatus>
    var sent: seq<VpnSessionStatus>

    constructor ()
      ensures lastWatch == None && sent == []
    {
      lastWatch, sent := None, [];
    }

    // The watch ends at a new final status, or when the daemon no longer receives.
    method WatchEnded(poll: Poll, delivered: bool) returns (ended: bool)
      modifies this
      ensures lastWatch == if poll.Status? then Some(poll.status) else old(lastWatch)
      ensures var new' := poll.Status? && old(lastWatch) != Some(poll.status);
              && sent == old(sent) + (if new' && delivered then [poll.status] else [])
              && (ended <==> new' && (!delivered || !GoesOn(poll.status)))
    {
      match poll {
        case Status(status) =>
          var last := lastWatch;
          lastWatch := Some(status);
          if last == Some(status) {
            return false;
          }
          if !delivered {
            return true;
          }
          sent := sent + [status];
          match status {
            case Failed(_, _) => return true;
            case ServerReady(_, _, _) => return true;
            case ClientConnected(_, _, _) => return true;
            case Ended(_, _, _) => return true;
            case _ =>
          }
        case Failure =>
      }
      return false;
    }

    // What has been sent is what has been polled, without stutter and up to the first final status; all of it, or
    // the beginning of it where the daemon stopped receiving.
    method Run(turns: seq<Turn>)
      requires lastWatch == None && sent == []
      modifies this
      ensures sent <= Stutterless(UpToFinal(Polled(turns)))
      ensures AllDelivered(turns) ==> sent == Stutterless(UpToFinal(Polled(turns)))
    {
      hide Polled, UpToFinal, Stutterless, Final, NoneFinal, LastOf;
      ghost var seen := [];
      Nothing();
      assert turns[0..] == turns;
      var i := 0;
      while i < |turns|
        invariant 0 <= i <= |turns|
        invariant Polled(turns) == seen + Polled(turns[i..]) && NoneFinal(seen)
        invariant sent == Stutterless(seen) && lastWatch == LastOf(seen)
      {
        ghost var before, rest := seen, Polled(turns[i..]);
        PolledStep(turns, i);
        CutLater(before, rest);
        match turns[i] {
          case Tick(poll, delivered) =>
            if poll.Status? {
              seen := before + [poll.status];
              FinalExact(poll.status);
              Polls(before, poll.status, Polled(turns[i + 1..]));
            }
            var ended := WatchEnded(poll, delivered);
            if ended {
              StutterlessPrefix(before, UpToFinal(rest));
              return;
            }
            if poll.Status? {
              NotFinalYet(before, poll.status);
            }
          case Shutdown =>
            assert seen + [] == seen;
            return;
        }
        i := i + 1;
      }
      assert turns[i..] == [];
      CutLater(seen, []);
      assert seen + [] == seen;
    }
  }

  // The status that the next poll is compared with.
  function LastOf(statuses: seq<VpnSessionStatus>): Option<VpnSessionStatus> {
    if statuses == [] then None else Some(statuses[|statuses| - 1])
  }

  // What one more status does to the statuses seen, to those sent of them, and to what is cut after them.
  lemma Polls(before: seq<VpnSessionStatus>, s: VpnSessionStatus, rest: seq<VpnSessionStatus>)
    requires NoneFinal(before)
    ensures before + ([s] + rest) == before + [s] + rest
    ensures Stutterless(before + [s]) == Stutterless(before) + if LastOf(before) == Some(s) then [] else [s]
    ensures LastOf(before + [s]) == Some(s)
    ensures Final(s) ==> UpToFinal([s] + rest) == [s]
  {
    hide UpToFinal, Stutterless, Final;
    StutterlessSnoc(before, s);
    CutStep(s, rest);
  }

  lemma FinalExact(s: VpnSessionStatus)
    ensures Final(s) <==> !GoesOn(s)
  {
  }

  // A status that is no news is not final, for it was seen before.
  lemma NotFinalYet(before: seq<VpnSessionStatus>, s: VpnSessionStatus)
    requires NoneFinal(before) && (LastOf(before) == Some(s) || !Final(s))
    ensures NoneFinal(before + [s])
  {
    hide Final;
    if LastOf(before) == Some(s) {
      assert !Final(before[|before| - 1]);
    }
  }

  lemma Nothing()
    ensures Polled([]) == [] && UpToFinal([]) == [] && Stutterless<VpnSessionStatus>([]) == []
    ensures NoneFinal([]) && LastOf([]) == None
  {
  }

  lemma PolledStep(turns: seq<Turn>, i: nat)
    requires i < |turns|
    ensures Polled(turns[i..]) == match turns[i]
                                  case Shutdown => []
                                  case Tick(poll, _) => (if poll.Status? then [poll.status] else []) + Polled(turns[i + 1..])
    ensures turns[i].Tick? && turns[i].poll.Failure? ==> Polled(turns[i..]) == Polled(turns[i + 1..])
  {
    assert turns[i..][1..] == turns[i + 1..];
  }

  lemma CutStep(s: VpnSessionStatus, rest: seq<VpnSessionStatus>)
    ensures UpToFinal([s] + rest) == [s] + if Final(s) then [] else UpToFinal(rest)
  {
    assert ([s] + rest)[1..] == rest;
  }

  lemma StutterlessSnoc<T>(s: seq<T>, x: T)
    ensures Stutterless(s + [x]) == Stutterless(s) + if s != [] && x == s[|s| - 1] then [] else [x]
  {
    assert (s + [x])[..|s|] == s;
  }

  // Without stutter no two neighbours are equal, and nothing else is lost.
  lemma {:induction false} StutterlessExact<T>(s: seq<T>)
    ensures var t := Stutterless(s);
            && (forall i :: 0 < i < |t| ==> t[i] != t[i - 1])
            && (forall x :: x in t <==> x in s)
            && (s != [] ==> t != [] && t[0] == s[0] && t[|t| - 1] == s[|s| - 1])
  {
    if s != [] {
      var before, last := s[..|s| - 1], s[|s| - 1];
      StutterlessExact(before);
      assert s == before + [last];
      assert before != [] ==> before[0] == s[0] && before[|before| - 1] == s[|s| - 2];
    }
  }

  lemma {:induction false} CutLater(s: seq<VpnSessionStatus>, t: seq<VpnSessionStatus>)
    requires NoneFinal(s)
    ensures UpToFinal(s + t) == s + UpToFinal(t)
  {
    if s == [] {
      assert s + t == t;
    } else {
      CutLater(s[1..], t);
      assert (s + t)[1..] == s[1..] + t;
      assert (s + t)[0] == s[0];
    }
  }

  lemma {:induction false} StutterlessPrefix<T>(s: seq<T>, t: seq<T>)
    ensures Stutterless(s) <= Stutterless(s + t)
  {
    if t == [] {
      assert s + t == s;
    } else {
      StutterlessPrefix(s, t[..|t| - 1]);
      assert (s + t)[..|s + t| - 1] == s + t[..|t| - 1];
    }
  }

  // The daemon fed with statuses, one after the other.
  function Feed(d: DaemonModel, statuses: seq<VpnSessionStatus>): DaemonModel {
    if statuses == [] then d else AfterStatus(Feed(d, statuses[..|statuses| - 1]), statuses[|statuses| - 1])
  }

  // The same state, whatever was said on the way.
  predicate Same(d: DaemonModel, e: DaemonModel) {
    d.status == e.status && d.rows == e.rows && d.notifications == e.notifications
  }

  lemma SameAfter(d: DaemonModel, e: DaemonModel, status: VpnSessionStatus)
    requires Same(d, e)
    ensures Same(AfterStatus(d, status), AfterStatus(e, status))
    ensures Same(AfterStatus(AfterStatus(d, status), status), AfterStatus(d, status))
  {
  }

  // The watcher's silence about repeated statuses costs nothing: the daemon ends in the state it would be in had it
  // been sent every poll.
  lemma {:induction false} StutterDoesNotMatter(d: DaemonModel, statuses: seq<VpnSessionStatus>)
    ensures Same(Feed(d, statuses), Feed(d, Stutterless(statuses)))
  {
    hide AfterStatus;
    if statuses != [] {
      var last := |statuses| - 1;
      var before, s := statuses[..last], statuses[last];
      StutterDoesNotMatter(d, before);
      var e := Feed(d, Stutterless(before));
      if last > 0 && s == statuses[last - 1] {
        SameAfter(Feed(d, before[..last - 1]), Feed(d, before[..last - 1]), s);
        assert Stutterless(before) + [] == Stutterless(before);
      } else {
        SameAfter(Feed(d, before), e, s);
        assert (Stutterless(before) + [s])[..|Stutterless(before)|] == Stutterless(before);
      }
    }
  }

  const CONNECT := SendTunnelCommand(TunnelCommand.Connect)

  // The polls reach a ready server of this session before anything else that ends the watch.
  ghost predicate ReachesReady(statuses: seq<VpnSessionStatus>, k: nat) {
    k < |statuses| && statuses[k].ServerReady? && forall i :: 0 <= i < k ==> GoesOn(statuses[i])
  }

  // Of all that one watcher sends, the daemon tells the tunnel to connect once where the polls reach a ready server
  // and its row is live, and never otherwise.
  lemma OneConnect(d: DaemonModel, statuses: seq<VpnSessionStatus>)
    ensures var log := Feed(d, Stutterless(UpToFinal(statuses))).log;
            && d.log <= log
            && multiset(log[|d.log|..])[CONNECT]
               == if exists k: nat :: ReachesReady(statuses, k) && Unmarked(d.rows, statuses[k].requestId) then 1 else 0
  {
    hide Feed, Stutterless, UpToFinal, AfterStatus;
    var cut := UpToFinal(statuses);
    var sent := Stutterless(cut);
    CutExact(statuses);
    FinalIsLast(statuses);
    StutterlessKeeps(cut);
    SameEnd(cut);
    if sent == [] {
      FedNothing(d);
    } else {
      var before, last := sent[..|sent| - 1], sent[|sent| - 1];
      assert before + [last] == sent;
      FeedThen(d, before, last);
      QuietFeed(d, before);
      ConnectsAtReady(Feed(d, before), last);
      var mid, log := Feed(d, before).log, Feed(d, sent).log;
      assert log[|d.log|..] == mid[|d.log|..] + log[|mid|..];
      if k: nat :| ReachesReady(statuses, k) && Unmarked(d.rows, statuses[k].requestId) {
        assert last == statuses[k];
      }
      if last.ServerReady? {
        assert ReachesReady(statuses, |cut| - 1);
      }
    }
  }

  // The cut ends at the first status that ends the watch.
  lemma {:induction false} CutExact(statuses: seq<VpnSessionStatus>)
    ensures var cut := UpToFinal(statuses);
            && cut <= statuses && (statuses != [] ==> cut != [])
            && (forall i :: 0 <= i < |cut| - 1 ==> GoesOn(cut[i]))
            && (cut == statuses || !GoesOn(cut[|cut| - 1]))
  {
    if statuses != [] && !Final(statuses[0]) {
      CutExact(statuses[1..]);
    }
  }

  lemma {:induction false} SameEnd(s: seq<VpnSessionStatus>)
    ensures s != [] ==> Stutterless(s) != [] && Stutterless(s)[|Stutterless(s)| - 1] == s[|s| - 1]
    ensures s == [] ==> Stutterless(s) == []
  {
    if |s| > 1 {
      SameEnd(s[..|s| - 1]);
    }
  }

  lemma FedNothing(d: DaemonModel)
    ensures Feed(d, []) == d
  {
  }

  lemma FeedThen(d: DaemonModel, before: seq<VpnSessionStatus>, last: VpnSessionStatus)
    ensures Feed(d, before + [last]) == AfterStatus(Feed(d, before), last)
  {
    hide AfterStatus;
    assert (before + [last])[..|before|] == before;
  }

  lemma ConnectsAtReady(d: DaemonModel, status: VpnSessionStatus)
    ensures var log := AfterStatus(d, status).log;
            && d.log <= log
            && multiset(log[|d.log|..])[CONNECT] == if status.ServerReady? && Unmarked(d.rows, status.requestId) then 1 else 0
  {
    var processed := AfterServerStatus(d.rows, status);
    if processed.vpnStatus.Some? {
      var shown := BroadcastStatus(processed.vpnStatus.value);
      var note := if processed.notification.Some? then [BroadcastNotification(processed.notification.value)] else [];
      var rest := if status.ServerReady? then [CONNECT] else [];
      assert AfterStatus(d, status).log[|d.log|..] == note + [shown] + rest;
    } else {
      assert AfterStatus(d, status).log[|d.log|..] == [];
    }
  }

  lemma {:induction false} FinalIsLast(statuses: seq<VpnSessionStatus>)
    ensures var cut := UpToFinal(statuses); cut == [] || NoneFinal(cut[..|cut| - 1])
  {
    hide Final;
    if statuses != [] && !Final(statuses[0]) {
      var cut := UpToFinal(statuses[1..]);
      FinalIsLast(statuses[1..]);
      if cut != [] {
        assert ([statuses[0]] + cut)[..|cut|] == [statuses[0]] + cut[..|cut| - 1];
      }
    }
  }

  // Where only the last status can be final, so it is without the stutter.
  lemma {:induction false} StutterlessKeeps(s: seq<VpnSessionStatus>)
    ensures s == [] || NoneFinal(s[..|s| - 1]) ==>
              var t := Stutterless(s); t == [] || NoneFinal(t[..|t| - 1])
    ensures NoneFinal(s) ==> NoneFinal(Stutterless(s))
  {
    if s != [] {
      var before := s[..|s| - 1];
      StutterlessKeeps(before);
    }
  }

  // Before the status that ends the watch nothing is said to the tunnel and no row goes or is marked.
  lemma {:induction false} QuietFeed(d: DaemonModel, statuses: seq<VpnSessionStatus>)
    requires NoneFinal(statuses)
    ensures var after := Feed(d, statuses);
            && d.log <= after.log && multiset(after.log[|d.log|..])[CONNECT] == 0
            && forall id :: Unmarked(after.rows, id) <==> Unmarked(d.rows, id)
  {
    hide AfterStatus;
    if statuses == [] {
      assert d.log[|d.log|..] == [];
    } else {
      var before, last := statuses[..|statuses| - 1], statuses[|statuses| - 1];
      QuietFeed(d, before);
      ConnectsAtReady(Feed(d, before), last);
      QuietStatus(Feed(d, before), last);
      var mid, log := Feed(d, before).log, Feed(d, statuses).log;
      assert log[|d.log|..] == mid[|d.log|..] + log[|mid|..];
    }
  }

  lemma QuietStatus(d: DaemonModel, status: VpnSessionStatus)
    requires !Final(status)
    ensures forall id :: Unmarked(AfterStatus(d, status).rows, id) <==> Unmarked(d.rows, id)
  {
  }
}
