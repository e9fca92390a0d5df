/**
 The session rows and the SQL statements over them (backend/app/workflow/repository.py).

 Every statement is given twice: as a function on the table, which the protocol of
 SessionProtocol interleaves, and as a method of class Repository that performs it.
 */
module SessionTable {
  import opened Prelude
  import opened StateMachine

  type SessionId = string
  type WorkerId = string
  type Time = int

  datatype Row = Row(
    status: State,
    lease: Option<WorkerId>,
    heartbeat: Option<Time>,
    phase: Option<string>,
    trust: Option<string>)

  type Rows = map<SessionId, Row>

  const NEW_ROW := Row(Created, None, None, None, None)

  /** A column that an UPDATE either leaves alone or sets. */
  datatype Column<+T> = Keep | Set(value: T)

  /** The extra_values of an UPDATE. */
  datatype Values = Values(
    lease: Column<Option<WorkerId>>,
    heartbeat: Column<Option<Time>>,
    phase: Column<Option<string>>,
    trust: Column<Option<string>>)

  const NO_VALUES := Values(Keep, Keep, Keep, Keep)

  /** The extra WHERE clauses of transition_state. */
  datatype LeaseGuard = AnyLease | NullLease | HeldBy(worker: WorkerId)

  const LEASE_ACQUIRABLE_STATES: set<State> := {UploadedPendingReview, FailedRetriable}

  function Assign<T>(column: Column<T>, current: T): T {
    if column.Set? then column.value else current
  }

  function Written(row: Row, status: State, v: Values): Row {
    Row(status, Assign(v.lease, row.lease), Assign(v.heartbeat, row.heartbeat),
        Assign(v.phase, row.phase), Assign(v.trust, row.trust))
  }

  predicate LeaseAllows(guard: LeaseGuard, lease: Option<WorkerId>) {
    match guard
    case AnyLease => true
    case NullLease => lease == None
    case HeldBy(w) => lease == Some(w)
  }

  /** The WHERE clause of the compare-and-set UPDATE. */
  predicate CasMatches(rows: Rows, id: SessionId, observed: State, guard: LeaseGuard) {
    id in rows && rows[id].status == observed && LeaseAllows(guard, rows[id].lease)
  }

  function CasRows(rows: Rows, id: SessionId, observed: State, guard: LeaseGuard, next: State, v: Values): Rows {
    if CasMatches(rows, id, observed, guard) then rows[id := Written(rows[id], next, v)] else rows
  }

  /** A VERIFYING row whose heartbeat is set and older than the cutoff. */
  predicate Stale(row: Row, cutoff: Time) {
    row.status == Verifying && row.heartbeat.Some? && row.heartbeat.value < cutoff
  }

  function SweptRow(row: Row, cutoff: Time): Row {
    if Stale(row, cutoff) then row.(status := AbandonedVerifying, lease := None) else row
  }

  function SweptRows(rows: Rows, cutoff: Time): Rows {
    map id | id in rows :: SweptRow(rows[id], cutoff)
  }

  function StaleIds(rows: Rows, cutoff: Time): set<SessionId> {
    set id | id in rows && Stale(rows[id], cutoff)
  }

  /** The rows an UPDATE guarded by `lease_id == worker` reaches. */
  predicate Holds(rows: Rows, id: SessionId, worker: WorkerId) {
    id in rows && rows[id].lease == Some(worker)
  }

  function BeatRows(rows: Rows, id: SessionId, worker: WorkerId, now: Time): Rows {
    if Holds(rows, id, worker) then rows[id := rows[id].(heartbeat := Some(now))] else rows
  }

  function PhasedRows(rows: Rows, id: SessionId, worker: WorkerId, phase: string): Rows {
    if Holds(rows, id, worker) then rows[id := rows[id].(phase := Some(phase))] else rows
  }

  function AcquireValues(worker: WorkerId): Values {
    NO_VALUES.(lease := Set(Some(worker)))
  }

  function CompleteValues(outcome: string): Values {
    Values(Set(None), Set(None), Set(Some("COMPLETED")), Set(Some(outcome)))
  }

  const FAIL_VALUES := Values(Set(None), Set(None), Set(Some("FAILED")), Set(None))

  /**
   The status was observed in an earlier table and validated against that; if the write matches,
   the step it takes from the row's present status is one the table allows, whatever happened in between.
   */
  lemma StaleReadStillValid(
    before: Rows, now: Rows, id: SessionId, next: State, guard: LeaseGuard, v: Values)
    requires id in before && ValidTransition(before[id].status, next)
    ensures var after := CasRows(now, id, before[id].status, guard, next, v);
            && after.Keys == now.Keys
            && forall k :: k in now ==>
                 && (after[k] != now[k] ==> k == id && ValidTransition(now[k].status, after[k].status))
  {
  }

  /** After a sweep no VERIFYING row carries a heartbeat older than the cutoff, and a second sweep finds nothing. */
  lemma SweepLeavesNoStaleRow(rows: Rows, cutoff: Time)
    ensures StaleIds(SweptRows(rows, cutoff), cutoff) == {}
    ensures SweptRows(SweptRows(rows, cutoff), cutoff) == SweptRows(rows, cutoff)
    ensures forall id :: id in rows && id !in StaleIds(rows, cutoff) ==> SweptRows(rows, cutoff)[id] == rows[id]
  {
  }

  datatype TransitionResult = Moved(previous: State) | SessionNotFound | InvalidTransition | Conflict

  /** What transition_state answers when nothing runs between its read and its write. */
  function TransitionOutcome(rows: Rows, id: SessionId, next: State, guard: LeaseGuard): TransitionResult {
    if id !in rows then SessionNotFound
    else if !ValidTransition(rows[id].status, next) then InvalidTransition
    else if !LeaseAllows(guard, rows[id].lease) then Conflict
    else Moved(rows[id].status)
  }

  class Repository {
    var rows: Rows

    constructor ()
      ensures rows == map[]
    {
      rows := map[];
    }

    method GetSessionState(id: SessionId) returns (state: Option<State>)
      ensures state == if id in rows then Some(rows[id].status) else None
    {
      if id in rows {
        state := Some(rows[id].status);
      } else {
        state := None;
      }
    }

    /** The UPDATE ... WHERE status = observed ... RETURNING id of transition_state. */
    method CompareAndSet(id: SessionId, observed: State, guard: LeaseGuard, next: State, v: Values)
      returns (updated: bool)
      modifies this
      ensures updated == CasMatches(old(rows), id, observed, guard)
      ensures rows == CasRows(old(rows), id, observed, guard, next, v)
    {
      updated := CasMatches(rows, id, observed, guard);
      if updated {
        rows := rows[id := Written(rows[id], next, v)];
      }
    }

    method TransitionState(id: SessionId, next: State, guard: LeaseGuard, v: Values)
      returns (result: TransitionResult)
      modifies this
      ensures result == TransitionOutcome(old(rows), id, next, guard)
      ensures result.Moved? ==> rows == old(rows)[id := Written(old(rows)[id], next, v)]
      ensures !result.Moved? ==> rows == old(rows)
    {
      var current := GetSessionState(id);
      if current == None {
        return SessionNotFound;
      }
      if !ValidTransition(current.value, next) {
        return InvalidTransition;
      }
      var updated := CompareAndSet(id, current.value, guard, next, v);
      if !updated {
        return Conflict;
      }
      return Moved(current.value);
    }

    method AcquireLease(id: SessionId, worker: WorkerId) returns (acquired: bool)
      modifies this
      ensures acquired <==>
              id in old(rows) && old(rows)[id].status in LEASE_ACQUIRABLE_STATES && old(rows)[id].lease == None
      ensures acquired ==> Holds(rows, id, worker) && rows[id].status == Verifying
      ensures rows == if acquired
                      then old(rows)[id := Written(old(rows)[id], Verifying, AcquireValues(worker))]
                      else old(rows)
    {
      var state := GetSessionState(id);
      if state == None || state.value !in LEASE_ACQUIRABLE_STATES {
        return false;
      }
      var result := TransitionState(id, Verifying, NullLease, AcquireValues(worker));
      return result.Moved?;
    }

    method UpdateWorkerPhase(id: SessionId, worker: WorkerId, phase: string)
      modifies this
      ensures rows == PhasedRows(old(rows), id, worker, phase)
    {
      if id in rows && rows[id].lease == Some(worker) {
        rows := rows[id := rows[id].(phase := Some(phase))];
      }
    }

    method UpdateHeartbeat(id: SessionId, worker: WorkerId, now: Time) returns (rowcount: nat)
      modifies this
      ensures rows == BeatRows(old(rows), id, worker, now)
      ensures rowcount == if Holds(old(rows), id, worker) then 1 else 0
    {
      rowcount := 0;
      if id in rows && rows[id].lease == Some(worker) {
        rows := rows[id := rows[id].(heartbeat := Some(now))];
        rowcount := 1;
      }
    }

    method MarkStaleSessions(now: Time, timeout: Time) returns (rowcount: nat)
      modifies this
      ensures rows == SweptRows(old(rows), now - timeout)
      ensures rowcount == |StaleIds(old(rows), now - timeout)|
      ensures StaleIds(rows, now - timeout) == {}
    {
      var cutoff := now - timeout;
      rowcount := |StaleIds(rows, cutoff)|;
      rows := map id | id in rows :: SweptRow(rows[id], cutoff);
    }

    method CompleteProcessing(id: SessionId, outcomeState: State, outcome: string) returns (result: TransitionResult)
      modifies this
      ensures result == TransitionOutcome(old(rows), id, outcomeState, AnyLease)
      ensures rows == if result.Moved?
                      then old(rows)[id := Row(outcomeState, None, None, Some("COMPLETED"), Some(outcome))]
                      else old(rows)
    {
      result := TransitionState(id, outcomeState, AnyLease, CompleteValues(outcome));
    }

    method FailProcessing(id: SessionId, failureState: State) returns (result: TransitionResult)
      modifies this
      ensures result == TransitionOutcome(old(rows), id, failureState, AnyLease)
      ensures rows == if result.Moved?
                      then old(rows)[id := Row(failureState, None, None, Some("FAILED"), None)]
                      else old(rows)
    {
      result := TransitionState(id, failureState, AnyLease, FAIL_VALUES);
    }
  }
}
