/** The session/visitor lifecycle of the CSharpAnalytics client: who the visitor is,
    which session they are in, how hits move the session status along, and the flat
    snapshot that lets all of it be saved and restored across process restarts.

    Time is a parameter (ticks of a DateTimeOffset), the random draw of the sample
    selector is an injected value, and the platform key-value store is a small class
    holding a map. */
module Sessions {

  datatype Option<+T> = None | Some(value: T)

  /** A point in time, as ticks of a DateTimeOffset. */
  type Time = int

  /** A 128-bit globally unique identifier. */
  type Guid = bv128

  type Uri = string

  type HitId = string

  /** Key under which the visitor id is kept in the local settings store. */
  const GuidKey: string := "GuidKey"

  datatype SessionStatus = Starting | Active | Ending

  datatype VisitorStatus = Active | OptedOut | SampledOut

  /** Identity of one installation; never changes once created. */
  datatype Visitor = Visitor(clientId: Guid, firstVisitAt: Time)

  /** One continuous period of engagement. */
  datatype Session = Session(startedAt: Time, number: int, hitCount: int, hitId: Option<HitId>)

  /** Flat, storable snapshot of every field of a SessionManager. */
  datatype SessionState = SessionState(
    visitorId: Guid,
    firstVisitAt: Time,
    sessionStartedAt: Time,
    sessionNumber: int,
    sessionHitCount: int,
    hitId: Option<HitId>,
    previousSessionStartedAt: Time,
    lastActivityAt: Time,
    referrer: Option<Uri>,
    sessionStatus: SessionStatus,
    visitorStatus: VisitorStatus)

  /** Sessions are numbered from 1 and hit counts are never negative. */
  predicate WellFormed(s: SessionState) {
    s.sessionNumber >= 1 && s.sessionHitCount >= 0
  }

  /** Whether a visitor constructed without saved state takes part in tracking. `draw` is the value the
      sample selector returns, a number in [0, 100) for the default selector; it is
      only consulted when the rate is neither 100 nor 0. */
  function ShouldTrackThisNewVisitor(sampleRate: real, draw: real): (r: bool)
    ensures sampleRate == 100.0 ==> r
    ensures sampleRate == 0.0 ==> !r
    ensures sampleRate != 100.0 && sampleRate != 0.0 ==> (r <==> draw <= sampleRate)
  {
    if sampleRate == 100.0 then true
    else if sampleRate == 0.0 then false
    else draw <= sampleRate
  }

  /** The status a hit moves the session to: a session that was ending starts
      again, a starting one becomes active, an active one stays active. */
  function NextSessionStatus(status: SessionStatus): (r: SessionStatus)
    ensures r != Ending
    ensures r == Starting <==> status == Ending
    ensures r == SessionStatus.Active <==> status != Ending
  {
    match status
    case Ending => Starting
    case Starting => SessionStatus.Active
    case Active => status
  }

  /** Acquire-or-create of the visitor id in the local settings store: returns the
      id and the store's contents afterwards. */
  function AcquireVisitorId(values: map<string, Guid>, newGuid: Guid): (r: (Guid, map<string, Guid>))
    ensures GuidKey in r.1 && r.1[GuidKey] == r.0
    ensures GuidKey in values ==> r.0 == values[GuidKey] && r.1 == values
    ensures GuidKey !in values ==> r.0 == newGuid
    ensures r.1.Keys == values.Keys + {GuidKey}
    ensures forall k :: k in values && k != GuidKey ==> r.1[k] == values[k]
  {
    if GuidKey in values then (values[GuidKey], values)
    else (newGuid, values[GuidKey := newGuid])
  }

  /** The snapshot of a freshly constructed manager (no saved state), given what
      the store held, the id to use if it held none, the construction time, the
      sample rate and the selector's draw. */
  function FreshState(values: map<string, Guid>, newGuid: Guid, now: Time,
                      sampleRate: real, draw: real): (r: SessionState)
    ensures WellFormed(r)
    ensures r.sessionNumber == 1 && r.sessionHitCount == 0 && r.hitId == None
    ensures r.sessionStatus == Starting
    ensures r.previousSessionStartedAt == r.sessionStartedAt
    ensures r.firstVisitAt == now && r.sessionStartedAt == now && r.lastActivityAt == now
    ensures r.visitorStatus == VisitorStatus.Active <==> ShouldTrackThisNewVisitor(sampleRate, draw)
    ensures r.visitorStatus == SampledOut <==> !ShouldTrackThisNewVisitor(sampleRate, draw)
    ensures r.visitorStatus != OptedOut
    ensures GuidKey in values ==> r.visitorId == values[GuidKey]
    ensures GuidKey !in values ==> r.visitorId == newGuid
    ensures r.referrer == None
  {
    var id := AcquireVisitorId(values, newGuid).0;
    SessionState(id, now, now, 1, 0, None, now, now, None, Starting,
                 if ShouldTrackThisNewVisitor(sampleRate, draw) then VisitorStatus.Active else SampledOut)
  }

  /** Snapshot after a hit at time `now`. */
  function AfterHit(s: SessionState, now: Time): (r: SessionState)
    ensures r.sessionHitCount == s.sessionHitCount + 1
    ensures r.lastActivityAt == now
    ensures r.sessionStatus == NextSessionStatus(s.sessionStatus)
    ensures r.(sessionHitCount := s.sessionHitCount, lastActivityAt := s.lastActivityAt,
               sessionStatus := s.sessionStatus) == s
    ensures WellFormed(s) ==> WellFormed(r)
  {
    s.(lastActivityAt := now,
       sessionStatus := NextSessionStatus(s.sessionStatus),
       sessionHitCount := s.sessionHitCount + 1)
  }

  /** Snapshot after the session is ended: only the status changes. */
  function AfterEnd(s: SessionState): (r: SessionState)
    ensures r.sessionStatus == Ending
    ensures r.(sessionStatus := s.sessionStatus) == s
    ensures WellFormed(s) ==> WellFormed(r)
  {
    s.(sessionStatus := Ending)
  }

  /** Snapshot after a new session is started at `startedAt`. */
  function AfterNewSession(s: SessionState, startedAt: Time): (r: SessionState)
    ensures r.previousSessionStartedAt == s.sessionStartedAt
    ensures r.sessionStartedAt == startedAt
    ensures r.sessionNumber == s.sessionNumber + 1
    ensures r.sessionHitCount == 0 && r.hitId == None
    ensures r.sessionStatus == Starting
    ensures r.visitorId == s.visitorId && r.firstVisitAt == s.firstVisitAt
    ensures r.visitorStatus == s.visitorStatus && r.referrer == s.referrer
    ensures r.lastActivityAt == s.lastActivityAt
    ensures WellFormed(s) ==> WellFormed(r)
  {
    s.(previousSessionStartedAt := s.sessionStartedAt,
       sessionStartedAt := startedAt,
       sessionNumber := s.sessionNumber + 1,
       sessionHitCount := 0,
       hitId := None,
       sessionStatus := Starting)
  }

  /** The platform's local settings: a key-value store that outlives the process. */
  class LocalSettings {
    var values: map<string, Guid>

    constructor (values: map<string, Guid>)
      ensures this.values == values
    {
      this.values := values;
    }
  }

  /** Manages the visitor and the current session so that they can be saved,
      restored and moved from one session to the next. */
  class SessionManager {
    const visitor: Visitor
    var session: Session
    var sessionStatus: SessionStatus
    var visitorStatus: VisitorStatus
    var previousSessionStartedAt: Time
    var referrer: Option<Uri>
    var lastActivityAt: Time

    /** Restores from `sessionState` when there is one; otherwise acquires or
        creates the visitor id in `store` (using `newGuid` if none is kept there),
        starts the first session at `now` and decides whether the visitor is sampled
        in, from `sampleRate` and the selector's `draw`. */
    constructor (sessionState: Option<SessionState>, sampleRate: real := 100.0,
                 store: LocalSettings, newGuid: Guid, now: Time, draw: real)
      modifies store
      ensures sessionState.Some? ==> GetState() == sessionState.value && unchanged(store)
      ensures sessionState.None? ==>
        (visitor.clientId, store.values) == AcquireVisitorId(old(store.values), newGuid)
      ensures sessionState.None? ==>
        GetState() == FreshState(old(store.values), newGuid, now, sampleRate, draw)
    {
      if sessionState.Some? {
        var st := sessionState.value;
        visitor := Visitor(st.visitorId, st.firstVisitAt);
        session := Session(st.sessionStartedAt, st.sessionNumber, st.sessionHitCount, st.hitId);
        referrer := st.referrer;
        previousSessionStartedAt := st.previousSessionStartedAt;
        lastActivityAt := st.lastActivityAt;
        sessionStatus := st.sessionStatus;
        visitorStatus := st.visitorStatus;
      } else {
        var guid: Guid := 0;
        if GuidKey in store.values {
          guid := store.values[GuidKey];
        } else {
          guid := newGuid;
          store.values := store.values[GuidKey := guid];
        }
        visitor := Visitor(guid, now);
        var firstSession := Session(now, 1, 0, None);
        session := firstSession;
        previousSessionStartedAt := firstSession.startedAt;
        sessionStatus := Starting;
        var willTrackThisVisitor := ShouldTrackThisNewVisitor(sampleRate, draw);
        visitorStatus := if willTrackThisVisitor then VisitorStatus.Active else SampledOut;
        referrer := None;
        lastActivityAt := now;
      }
    }

    /** A snapshot of every field, for storing and later restoring. */
    function GetState(): SessionState
      reads this
    {
      SessionState(
        visitor.clientId, visitor.firstVisitAt,
        session.startedAt, session.number, session.hitCount, session.hitId,
        previousSessionStartedAt, lastActivityAt, referrer,
        sessionStatus, visitorStatus)
    }

    /** Records a hit at time `now`. */
    method Hit(now: Time)
      modifies this
      ensures GetState() == AfterHit(old(GetState()), now)
    {
      lastActivityAt := now;
      MoveToNextSessionStatus();
      session := session.(hitCount := session.hitCount + 1);
    }

    /** Moves along the status table: Ending to Starting, Starting to Active. */
    method MoveToNextSessionStatus()
      modifies this`sessionStatus
      ensures sessionStatus == NextSessionStatus(old(sessionStatus))
    {
      match sessionStatus {
        case Ending => sessionStatus := Starting;
        case Starting => sessionStatus := SessionStatus.Active;
        case Active =>
      }
    }

    /** Marks the current session as ending; nothing else changes. */
    method End()
      modifies this`sessionStatus
      ensures GetState() == AfterEnd(old(GetState()))
    {
      sessionStatus := Ending;
    }

    /** Replaces the current session by the next one, started at `startedAt`. */
    method StartNewSession(startedAt: Time)
      modifies this
      ensures GetState() == AfterNewSession(old(GetState()), startedAt)
    {
      previousSessionStartedAt := session.startedAt;
      session := Session(startedAt, session.number + 1, 0, None);
      sessionStatus := Starting;
    }
  }

  /** Two managers with the same snapshot agree on every field: the snapshot
      loses nothing. */
  lemma SnapshotIsLossless(m1: SessionManager, m2: SessionManager)
    requires m1.GetState() == m2.GetState()
    ensures m1.visitor == m2.visitor && m1.session == m2.session
    ensures m1.sessionStatus == m2.sessionStatus && m1.visitorStatus == m2.visitorStatus
    ensures m1.previousSessionStartedAt == m2.previousSessionStartedAt
    ensures m1.referrer == m2.referrer && m1.lastActivityAt == m2.lastActivityAt
  {
  }
}
