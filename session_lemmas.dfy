/** Properties of the session lifecycle over whole sequences of operations, stated
    on the snapshot each SessionManager operation is specified against, and
    properties of the sampling decision. */
module SessionLemmas {
  import opened Sessions

  /** One operation on a manager after construction. */
  datatype Event = HitAt(at: Time) | EndSession | NewSessionAt(startedAt: Time)

  function Step(s: SessionState, e: Event): SessionState {
    match e
    case HitAt(t) => AfterHit(s, t)
    case EndSession => AfterEnd(s)
    case NewSessionAt(t) => AfterNewSession(s, t)
  }

  /** The snapshot after the events, applied oldest first. */
  function Replay(s: SessionState, events: seq<Event>): SessionState
    decreases |events|
  {
    if events == [] then s
    else Step(Replay(s, events[..|events| - 1]), events[|events| - 1])
  }

  function NewSessionCount(events: seq<Event>): nat
    decreases |events|
  {
    if events == [] then 0
    else NewSessionCount(events[..|events| - 1]) + (if events[|events| - 1].NewSessionAt? then 1 else 0)
  }

  predicate HasNewSession(events: seq<Event>) {
    exists i :: 0 <= i < |events| && events[i].NewSessionAt?
  }

  /** Hits after the last new session in `events` (all of them when there is none). */
  function HitsInCurrentSession(events: seq<Event>): nat
    decreases |events|
  {
    if events == [] then 0
    else
      match events[|events| - 1]
      case HitAt(_) => HitsInCurrentSession(events[..|events| - 1]) + 1
      case EndSession => HitsInCurrentSession(events[..|events| - 1])
      case NewSessionAt(_) => 0
  }

  /** The session number goes up by exactly one per new session and by nothing else. */
  lemma {:induction false} ReplaySessionNumber(s: SessionState, events: seq<Event>)
    ensures Replay(s, events).sessionNumber == s.sessionNumber + NewSessionCount(events)
    decreases |events|
  {
    if events != [] {
      ReplaySessionNumber(s, events[..|events| - 1]);
    }
  }

  /** Session numbers never go down along a run. */
  lemma {:induction false} ReplaySessionNumberMonotone(s: SessionState, events: seq<Event>, k: nat)
    requires k <= |events|
    ensures Replay(s, events[..k]).sessionNumber <= Replay(s, events).sessionNumber
    decreases |events|
  {
    if k < |events| {
      var init := events[..|events| - 1];
      assert events[..k] == init[..k];
      ReplaySessionNumberMonotone(s, init, k);
    } else {
      assert events[..k] == events;
    }
  }

  /** The visitor, its sampling status and the referrer are never changed by
      hits, session ends or new sessions. */
  lemma {:induction false} ReplayKeepsVisitor(s: SessionState, events: seq<Event>)
    ensures Replay(s, events).visitorId == s.visitorId
    ensures Replay(s, events).firstVisitAt == s.firstVisitAt
    ensures Replay(s, events).visitorStatus == s.visitorStatus
    ensures Replay(s, events).referrer == s.referrer
    decreases |events|
  {
    if events != [] {
      ReplayKeepsVisitor(s, events[..|events| - 1]);
    }
  }

  /** The hit count is the number of hits since the last new session, on top of
      the restored count when no new session was started. */
  lemma {:induction false} ReplayHitCount(s: SessionState, events: seq<Event>)
    ensures Replay(s, events).sessionHitCount ==
            (if HasNewSession(events) then 0 else s.sessionHitCount) + HitsInCurrentSession(events)
    decreases |events|
  {
    if events != [] {
      var init := events[..|events| - 1];
      var last := events[|events| - 1];
      ReplayHitCount(s, init);
      if last.NewSessionAt? {
        assert HasNewSession(events);
      } else {
        assert HasNewSession(events) <==> HasNewSession(init) by {
          if HasNewSession(events) {
            var i :| 0 <= i < |events| && events[i].NewSessionAt?;
            assert init[i] == events[i];
          }
          if HasNewSession(init) {
            var i :| 0 <= i < |init| && init[i].NewSessionAt?;
            assert events[i] == init[i];
          }
        }
      }
    }
  }

  /** Snapshots that meet the data model's invariants keep meeting them. */
  lemma {:induction false} ReplayPreservesWellFormed(s: SessionState, events: seq<Event>)
    requires WellFormed(s)
    ensures WellFormed(Replay(s, events))
    decreases |events|
  {
    if events != [] {
      ReplayPreservesWellFormed(s, events[..|events| - 1]);
    }
  }

  /** Starting sessions at each of `times`, one after another. */
  function NewSessions(times: seq<Time>): (r: seq<Event>)
    ensures |r| == |times|
    ensures forall i :: 0 <= i < |r| ==> r[i] == NewSessionAt(times[i])
    decreases |times|
  {
    if times == [] then [] else NewSessions(times[..|times| - 1]) + [NewSessionAt(times[|times| - 1])]
  }

  /** After N new sessions the number is N higher, the current session started
      at the last time given, the previous one at the time before it (or at the
      original session's start after a single call), and it has no hits yet. */
  lemma {:induction false} NewSessionsRollOver(s: SessionState, times: seq<Time>)
    requires |times| > 0
    ensures Replay(s, NewSessions(times)).sessionNumber == s.sessionNumber + |times|
    ensures Replay(s, NewSessions(times)).sessionStartedAt == times[|times| - 1]
    ensures Replay(s, NewSessions(times)).previousSessionStartedAt ==
            if |times| == 1 then s.sessionStartedAt else times[|times| - 2]
    ensures Replay(s, NewSessions(times)).sessionHitCount == 0
    ensures Replay(s, NewSessions(times)).sessionStatus == Starting
    decreases |times|
  {
    var evs := NewSessions(times);
    assert evs[..|evs| - 1] == NewSessions(times[..|times| - 1]);
    if |times| == 1 {
      assert evs[..|evs| - 1] == [];
    } else {
      NewSessionsRollOver(s, times[..|times| - 1]);
    }
  }

  /** A hit never leaves the session Ending, and what the status is after a run
      depends only on the last event. */
  lemma LastEventDecidesStatus(s: SessionState, events: seq<Event>)
    requires events != []
    ensures events[|events| - 1] == EndSession ==> Replay(s, events).sessionStatus == Ending
    ensures events[|events| - 1].NewSessionAt? ==> Replay(s, events).sessionStatus == Starting
    ensures events[|events| - 1].HitAt? ==> Replay(s, events).sessionStatus != Ending
  {
  }

  /** For rates in [0, 100] and draws in [0, 100), the two special cases agree with
      comparing the draw with the rate, except that a rate of 0 excludes a draw of
      exactly 0. */
  lemma SamplingIsDrawAtMostRate(sampleRate: real, draw: real)
    requires 0.0 <= sampleRate <= 100.0 && 0.0 <= draw < 100.0
    ensures !(sampleRate == 0.0 && draw == 0.0) ==>
            (ShouldTrackThisNewVisitor(sampleRate, draw) <==> draw <= sampleRate)
    ensures sampleRate == 0.0 && draw == 0.0 ==> !ShouldTrackThisNewVisitor(sampleRate, draw)
  {
  }

  /** Raising the rate never excludes a visitor that a lower rate would track. */
  lemma SamplingMonotone(low: real, high: real, draw: real)
    requires 0.0 <= low <= high <= 100.0
    ensures ShouldTrackThisNewVisitor(low, draw) ==> ShouldTrackThisNewVisitor(high, draw)
  {
  }

  /** Without saved state the sampling decision is made again even for a visitor
      whose id is already stored: the same id can come back tracked or sampled out,
      depending only on the draw. */
  lemma StoredVisitorIsSampledAgain(values: map<string, Guid>, g1: Guid, g2: Guid, t1: Time, t2: Time,
                                    sampleRate: real, low: real, high: real)
    requires GuidKey in values
    requires 0.0 < sampleRate < 100.0 && low <= sampleRate < high
    ensures FreshState(values, g1, t1, sampleRate, low).visitorId ==
            FreshState(values, g2, t2, sampleRate, high).visitorId == values[GuidKey]
    ensures FreshState(values, g1, t1, sampleRate, low).visitorStatus == VisitorStatus.Active
    ensures FreshState(values, g2, t2, sampleRate, high).visitorStatus == SampledOut
  {
  }

  /** Once the visitor id has been stored, later fresh starts reuse it whatever
      new id they would have created, and leave the store as it is. */
  lemma VisitorIdIsCreatedOnce(values: map<string, Guid>, g1: Guid, g2: Guid)
    ensures AcquireVisitorId(AcquireVisitorId(values, g1).1, g2) == AcquireVisitorId(values, g1)
  {
  }
}
