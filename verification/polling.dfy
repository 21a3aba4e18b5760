/**
 * The new-session detection of `monitor_new_sessions`, independent of what identifies
 * a session (a `(name, pid)` pair in coremix.py, a process name in chatmix.py).
 * The loop starts from one snapshot that is not treated as new; every cycle it takes
 * a fresh snapshot, the new sessions are those absent from the known set, and the known
 * set is then replaced wholesale. A cycle whose enumeration raised NoSuchProcess
 * changes nothing.
 */
module Polling {

  /** One cycle's enumeration: the identities present, or a failed enumeration. */
  datatype Poll<T> = Seen(current: set<T>) | Failed

  /** The known set after the cycles: the latest successful snapshot, or the initial one. */
  function KnownAfter<T>(initial: set<T>, polls: seq<Poll<T>>): (r: set<T>)
    ensures (forall i :: 0 <= i < |polls| ==> polls[i].Failed?) ==> r == initial
    ensures r == initial || exists i :: 0 <= i < |polls| && polls[i].Seen? && r == polls[i].current
  {
    if polls == [] then initial
    else
      match polls[|polls| - 1]
      case Seen(current) => current
      case Failed =>
        var front := polls[..|polls| - 1];
        assert forall i :: 0 <= i < |front| ==> front[i] == polls[i];
        KnownAfter(initial, front)
  }

  /** The sessions the last cycle finds new: in its snapshot and not in the known set before it. */
  function NewAt<T>(initial: set<T>, polls: seq<Poll<T>>): (r: set<T>)
    requires polls != []
    ensures r !! KnownAfter(initial, polls[..|polls| - 1])
    ensures polls[|polls| - 1].Failed? ==> r == {}
    ensures polls[|polls| - 1].Seen? ==> r <= polls[|polls| - 1].current
  {
    match polls[|polls| - 1]
    case Seen(current) => current - KnownAfter(initial, polls[..|polls| - 1])
    case Failed => {}
  }

  /** Every session that some cycle found new. */
  function Arrivals<T>(initial: set<T>, polls: seq<Poll<T>>): set<T> {
    if polls == [] then {}
    else Arrivals(initial, polls[..|polls| - 1]) + NewAt(initial, polls)
  }

  /** How many new sessions the cycles found, counted per cycle. */
  function ArrivalCount<T>(initial: set<T>, polls: seq<Poll<T>>): nat {
    if polls == [] then 0
    else ArrivalCount(initial, polls[..|polls| - 1]) + |NewAt(initial, polls)|
  }

  /** One more cycle: what it finds new, what it leaves known, and the running totals. */
  lemma NextCycle<T>(initial: set<T>, polls: seq<Poll<T>>, i: nat)
    requires i < |polls|
    ensures var front, upto := polls[..i], polls[..i + 1];
      NewAt(initial, upto) == (if polls[i].Seen? then polls[i].current - KnownAfter(initial, front) else {}) &&
      KnownAfter(initial, upto) == (if polls[i].Seen? then polls[i].current else KnownAfter(initial, front)) &&
      Arrivals(initial, upto) == Arrivals(initial, front) + NewAt(initial, upto) &&
      ArrivalCount(initial, upto) == ArrivalCount(initial, front) + |NewAt(initial, upto)|
  {
    assert polls[..i + 1][..i] == polls[..i];
    assert polls[..i + 1][i] == polls[i];
  }

  /** After a successful snapshot and only failed cycles since, the known set is that snapshot. */
  lemma {:induction false} KnownIsLatestSeen<T>(initial: set<T>, polls: seq<Poll<T>>, i: nat)
    requires i < |polls| && polls[i].Seen?
    requires forall k :: i < k < |polls| ==> polls[k].Failed?
    ensures KnownAfter(initial, polls) == polls[i].current
    decreases |polls|
  {
    if i < |polls| - 1 {
      var front := polls[..|polls| - 1];
      assert polls[|polls| - 1].Failed?;
      forall k | i < k < |front| ensures front[k].Failed? {
        assert front[k] == polls[k];
      }
      assert front[i] == polls[i];
      KnownIsLatestSeen(initial, front, i);
    }
  }

  /** What the first cycles found new stays among what all the cycles found new. */
  lemma {:induction false} ArrivalsGrow<T>(initial: set<T>, polls: seq<Poll<T>>, n: nat)
    requires n <= |polls|
    ensures Arrivals(initial, polls[..n]) <= Arrivals(initial, polls)
    decreases |polls|
  {
    if n < |polls| {
      var front := polls[..|polls| - 1];
      assert front[..n] == polls[..n];
      ArrivalsGrow(initial, front, n);
    } else {
      assert polls[..n] == polls;
    }
  }

  /**
   * A session that a successful snapshot did not show, and that the next successful
   * snapshot shows, is counted as new, even when it had been known before.
   */
  lemma ReturningSessionArrives<T>(initial: set<T>, polls: seq<Poll<T>>, x: T, i: nat, j: nat)
    requires i < j < |polls|
    requires polls[i].Seen? && x !in polls[i].current
    requires forall k :: i < k < j ==> polls[k].Failed?
    requires polls[j].Seen? && x in polls[j].current
    ensures x in Arrivals(initial, polls)
  {
    var front := polls[..j];
    forall k | i < k < |front| ensures front[k].Failed? {
      assert front[k] == polls[k];
    }
    assert front[i] == polls[i];
    KnownIsLatestSeen(initial, front, i);
    var upto := polls[..j + 1];
    assert upto[..|upto| - 1] == front && upto[|upto| - 1] == polls[j];
    assert x in NewAt(initial, upto);
    ArrivalsGrow(initial, polls, j + 1);
  }

  /**
   * A session in the initial snapshot that every successful later snapshot still shows
   * is never counted as new.
   */
  lemma {:induction false} PresentSessionNeverArrives<T>(initial: set<T>, polls: seq<Poll<T>>, x: T)
    requires x in initial
    requires forall i :: 0 <= i < |polls| && polls[i].Seen? ==> x in polls[i].current
    ensures x in KnownAfter(initial, polls)
    ensures x !in Arrivals(initial, polls)
    decreases |polls|
  {
    if polls != [] {
      var front := polls[..|polls| - 1];
      forall i | 0 <= i < |front| && front[i].Seen? ensures x in front[i].current {
        assert front[i] == polls[i];
      }
      PresentSessionNeverArrives(initial, front, x);
    }
  }

  /** A session counts as new only where a successful snapshot shows it and the one before did not. */
  lemma {:induction false} ArrivalsWereSeen<T>(initial: set<T>, polls: seq<Poll<T>>, x: T)
    requires x in Arrivals(initial, polls)
    ensures exists i :: 0 <= i < |polls| && polls[i].Seen? && x in polls[i].current && x !in KnownAfter(initial, polls[..i])
    decreases |polls|
  {
    var n := |polls| - 1;
    var front := polls[..n];
    if x in Arrivals(initial, front) {
      ArrivalsWereSeen(initial, front, x);
      var i :| 0 <= i < |front| && front[i].Seen? && x in front[i].current && x !in KnownAfter(initial, front[..i]);
      assert polls[i] == front[i] && front[..i] == polls[..i];
    } else {
      assert x in NewAt(initial, polls);
      assert polls[n].Seen? && x in polls[n].current && x !in KnownAfter(initial, polls[..n]);
    }
  }

  /** Cycles whose snapshots all equal the initial one find nothing new. */
  lemma {:induction false} SteadyPollsFindNothing<T>(initial: set<T>, polls: seq<Poll<T>>)
    requires forall i :: 0 <= i < |polls| && polls[i].Seen? ==> polls[i].current == initial
    ensures Arrivals(initial, polls) == {} && ArrivalCount(initial, polls) == 0
    decreases |polls|
  {
    if polls != [] {
      var front := polls[..|polls| - 1];
      forall i | 0 <= i < |front| && front[i].Seen? ensures front[i].current == initial {
        assert front[i] == polls[i];
      }
      SteadyPollsFindNothing(initial, front);
    }
  }

  /** Cycles find no new session at all exactly when their per-cycle count is zero. */
  lemma {:induction false} NoArrivalsIffZeroCount<T>(initial: set<T>, polls: seq<Poll<T>>)
    ensures Arrivals(initial, polls) == {} <==> ArrivalCount(initial, polls) == 0
    decreases |polls|
  {
    if polls != [] {
      NoArrivalsIffZeroCount(initial, polls[..|polls| - 1]);
    }
  }
}
