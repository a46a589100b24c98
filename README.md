# CSharpAnalytics session lifecycle in Dafny

A model of `SessionManager`, the part of the CSharpAnalytics client library that owns
the visitor (one installation's identity) and the current session. It makes the
sampling decision each time it is constructed without a saved state, also when the
store already holds the visitor id; the decision persists only through the saved
visitor status. It moves the session status
along as hits arrive (Ending to Starting, Starting to Active, Active stays Active),
counts hits, ends sessions and starts new ones. It also produces a flat
`SessionState` snapshot that can be stored and restored without loss.

- `sessions.dfy`, module `Sessions`: the two status enums, and `Visitor`, `Session`
  and `SessionState` as records. It holds the pure functions that give the snapshot
  after each operation (`AfterHit`, `AfterEnd`, `AfterNewSession`, `FreshState`),
  the sampling decision, and the acquire-or-create of the visitor id. The
  `SessionManager` class has the source's fields; its constructor and methods
  update them in place. The postconditions of `Hit`, `End` and `StartNewSession`
  tie `GetState()` afterwards to the matching function of `GetState()` before.
  `MoveToNextSessionStatus` sets the status to `NextSessionStatus` of the old
  status. The constructor's snapshot is the saved state when one is given, and
  otherwise `FreshState` of the store's old contents. The platform key-value store
  is a `LocalSettings` object whose map the constructor writes.
- `session_lemmas.dfy`, module `SessionLemmas`: runs of hits, ends and new sessions
  replayed on the snapshot, with inductive lemmas about the session number, hit
  count, visitor identity and well-formedness. It also holds lemmas about sampling
  and about the visitor id.

Inputs from the environment are parameters:
- Clock reads are `now` / `startedAt` values of type `Time`, ticks of a `DateTimeOffset`.
- The sample selector's random draw is a `real` argument `draw`.
- The freshly generated `Guid` is an argument `newGuid`.

## Model

| member | source | states |
|---|---|---|
| Sessions.ShouldTrackThisNewVisitor | Source/CSharpAnalytics/Sessions/SessionManager.cs:75-81 | rate 100 always tracks, rate 0 never does, any other rate tracks exactly when the draw is at most the rate |
| SessionLemmas.SamplingIsDrawAtMostRate | Source/CSharpAnalytics/Sessions/SessionManager.cs:75-81 | for rates in [0,100] and draws in [0,100), the decision equals "draw <= rate" except that rate 0 excludes a draw of exactly 0 |
| SessionLemmas.SamplingMonotone | Source/CSharpAnalytics/Sessions/SessionManager.cs:75-81 | a higher rate tracks every visitor a lower rate tracks |
| Sessions.AcquireVisitorId | Source/CSharpAnalytics/Sessions/SessionManager.cs:49-57 | a stored "GuidKey" value is used unchanged and the store is not written; otherwise the new id is used and written under that key; either way the store then maps "GuidKey" to the id, and other keys keep their values |
| SessionLemmas.VisitorIdIsCreatedOnce | Source/CSharpAnalytics/Sessions/SessionManager.cs:49-57 | once an id is stored, a later fresh start returns the same id and leaves the store unchanged, whatever new id it would have made |
| SessionLemmas.StoredVisitorIsSampledAgain | Source/CSharpAnalytics/Sessions/SessionManager.cs:47-64 | a construction without saved state reuses a stored visitor id but still draws again: with the same stored id and rate, a draw at most the rate gives Active and a draw above it gives SampledOut |
| Sessions.FreshState | Source/CSharpAnalytics/Sessions/SessionManager.cs:24-67 | a fresh manager is at session 1 with no hits, status Starting; its first visit, session start, previous-session start and last activity are all the construction time; the visitor status is Active exactly when sampling says so and SampledOut otherwise (never OptedOut); the id is the stored one if present, else the new one |
| Sessions.SessionManager.constructor | Source/CSharpAnalytics/Sessions/SessionManager.cs:35-68 | with a saved state, the snapshot afterwards equals that state in every field and the store is untouched (restore then GetState is the identity); without one, the store and visitor id follow AcquireVisitorId and the snapshot is FreshState; the sample rate defaults to 100 |
| Sessions.NextSessionStatus | Source/CSharpAnalytics/Sessions/SessionManager.cs:170-181 | a hit never leaves the status Ending; the result is Starting exactly when it was Ending and Active otherwise |
| Sessions.SessionManager.MoveToNextSessionStatus | Source/CSharpAnalytics/Sessions/SessionManager.cs:170-181 | the status becomes NextSessionStatus of the old status (Ending to Starting, Starting to Active, Active stays); only the status field may change |
| Sessions.AfterHit | Source/CSharpAnalytics/Sessions/SessionManager.cs:160-165 | a hit raises the hit count by exactly one, sets the last activity time to the given time, advances the status by the table, and changes nothing else |
| Sessions.SessionManager.Hit | Source/CSharpAnalytics/Sessions/SessionManager.cs:160-165 | the manager's snapshot after a hit is AfterHit of its snapshot before |
| Sessions.AfterEnd | Source/CSharpAnalytics/Sessions/SessionManager.cs:186-189 | ending sets the status to Ending and leaves every other field unchanged |
| Sessions.SessionManager.End | Source/CSharpAnalytics/Sessions/SessionManager.cs:186-189 | only the status field may change, and the snapshot afterwards is AfterEnd of the snapshot before |
| Sessions.AfterNewSession | Source/CSharpAnalytics/Sessions/SessionManager.cs:195-203 | the previous-session start becomes the old session's start (not the new time); the new session starts at the given time with number one higher, no hits and no hit id; the status is Starting; visitor, visitor status, referrer and last activity are unchanged |
| Sessions.SessionManager.StartNewSession | Source/CSharpAnalytics/Sessions/SessionManager.cs:195-203 | the manager's snapshot after starting a session is AfterNewSession of its snapshot before |
| Sessions.SessionManager.GetState | Source/CSharpAnalytics/Sessions/SessionManager.cs:139-155 | builds the snapshot from every field; it has no ensures of its own: its round-trip meaning is the constructor's restore postcondition (restoring a state and taking the snapshot gives that state back) together with SnapshotIsLossless |
| Sessions.SnapshotIsLossless | Source/CSharpAnalytics/Sessions/SessionManager.cs:139-155 | two managers with equal snapshots agree on every field, so GetState loses nothing |
| SessionLemmas.ReplaySessionNumber | Source/CSharpAnalytics/Sessions/SessionManager.cs:195-203 | over any run of hits, ends and new sessions, the session number rises by exactly the number of new sessions |
| SessionLemmas.ReplaySessionNumberMonotone | Source/CSharpAnalytics/Sessions/SessionManager.cs:200 | the session number after a prefix of a run is never above the number after the whole run |
| SessionLemmas.NewSessionsRollOver | Source/CSharpAnalytics/Sessions/SessionManager.cs:195-203 | after N new sessions the number is N higher and the status Starting; the session started at the last time given with no hits; the previous-session start is the time before the last (after calls at t2 then t3 it is t2), or the original session's start after one call |
| SessionLemmas.ReplayHitCount | Source/CSharpAnalytics/Sessions/SessionManager.cs:160-203 | the hit count after a run is the number of hits since the last new session, added to the starting count only when no new session was started |
| SessionLemmas.ReplayKeepsVisitor | Source/CSharpAnalytics/Sessions/SessionManager.cs:160-203 | no run of hits, ends and new sessions changes the visitor id, first-visit time, visitor status or referrer |
| SessionLemmas.ReplayPreservesWellFormed | Source/CSharpAnalytics/Sessions/SessionManager.cs:160-203 | a snapshot with session number at least 1 and a non-negative hit count keeps both properties through any run |
| SessionLemmas.LastEventDecidesStatus | Source/CSharpAnalytics/Sessions/SessionManager.cs:160-203 | after a run the status is Ending if the run ended with End, Starting if it ended with a new session, and not Ending if it ended with a hit |

## Left out

- Clock reads (`DateTimeOffset.Now`, SessionManager.cs:24, 102, 162) become time parameters. The parameterless `StartNewSession()` overload (SessionManager.cs:100-103) is `StartNewSession(now)` with the time supplied by the caller.
- On the fresh path, the visitor's first visit, the first session's start and the initial last-activity time are three separate clock reads in the source. The model uses one instant `now` for all three.
- `System.Random` and the settable `SampleSelector` property (SessionManager.cs:21, 90-94) are replaced by the injected `draw`. The sample rate and the draw are exact reals, not IEEE doubles.
- The `lock` in `StartNewSession` (SessionManager.cs:197) exists for concurrency. The model is sequential and each operation is one atomic step.
- `Debug.WriteLine` (SessionManager.cs:66) is logging only.
- `ApplicationData.Current.LocalSettings` (SessionManager.cs:49) is a `LocalSettings` object holding a map from keys to `Guid` values. A stored value that is not a `Guid` (the cast at line 52 would throw) is not modelled. A store write that fails is not modelled either.
- The source of `Visitor`, `Session` and `SessionState` is not shown. They are modelled as records with the fields the manager reads and writes. Assumptions:
  - `new Visitor(guid)` has its first visit at construction time.
  - `new Visitor(id, firstVisitAt)` and the four-argument `new Session(startedAt, number, hitCount, hitId)` (SessionManager.cs:39-40) store their arguments unchanged. The restore round trip holds for the source only if they do.
  - `new Session()` is session 1 started now, with no hits and no hit id.
  - `new Session(t, n)` starts at `t` with no hits and no hit id.
  - `IncreaseHitCount` only adds 1 and leaves the hit id alone.
- Sessions.AfterHit: the hit count is an unbounded integer. The width of `Session.HitCount` is not shown, so a 32-bit wrap-around is not modelled.
- Sessions.AfterNewSession: the session number is an unbounded integer. The width of `Session.Number` is not shown, so a 32-bit wrap-around is not modelled.
- The `internal set` accessors of `VisitorStatus` and `Referrer` (SessionManager.cs:113, 133) let other code in the assembly change these two fields. Those callers are not shown and are not part of this model. No operation here changes either field.
- The inactivity timeout that decides when the analytics client calls `StartNewSession` belongs to that client, which is not part of this model. So does the `SessionManager(TimeSpan, SessionState)` constructor used by Source/CSharpAnalytics.Tests/Protocols/Measurement/MeasurementTestHelpers.cs:13, which has no counterpart in SessionManager.cs.
- The source does not check that the sample rate lies in [0, 100]. The model does not clamp it or reject it either.
