/** Trip status updates under optimistic concurrency, with an audit row per committed change. */
module Trips {
  import opened Common
  import opened TripStateMachine
  import opened Audit

  /** A stored trip; `details` stands for the columns this core never writes. */
  datatype Trip = Trip(id: string, organizerId: UserId, status: TripStatus, version: int, details: string)

  /** The three exceptions `updateTripStatus` throws, with what their messages report. */
  datatype TripError =
    | TripNotFound                              // NotFoundException "Trip not found"
    | VersionConflict(currentVersion: int)      // ConflictException "Version mismatch. Current version is ..."
    | InvalidTransition(from: TripStatus, to: TripStatus)  // ForbiddenException "Invalid status transition from ... to ..."

  /** `findUnique({ where: { id } })` on the trip table. */
  function Lookup(trips: map<string, Trip>, id: string): (r: Option<Trip>)
    ensures r.Some? <==> id in trips
    ensures r.Some? ==> r.value == trips[id]
  {
    if id in trips then Some(trips[id]) else None
  }

  /** The decision `updateTripStatus` takes about the trip it found (None when the lookup found nothing). */
  function StatusUpdate(found: Option<Trip>, newStatus: TripStatus, expectedVersion: int): (r: Result<Trip, TripError>)
    ensures r.Success? <==>
              found.Some? && found.value.version == expectedVersion && newStatus in AllowedNext(found.value.status)
    ensures found.None? ==> r == Failure(TripNotFound)
    ensures found.Some? && found.value.version != expectedVersion ==> r == Failure(VersionConflict(found.value.version))
    ensures found.Some? && found.value.version == expectedVersion && newStatus !in AllowedNext(found.value.status)
            ==> r == Failure(InvalidTransition(found.value.status, newStatus))
    ensures r.Success? ==> r.value.status == newStatus && r.value.version == expectedVersion + 1
    ensures r.Success? ==> r.value.id == found.value.id && r.value.organizerId == found.value.organizerId
                           && r.value.details == found.value.details
  {
    match found
    case None => Failure(TripNotFound)
    case Some(trip) =>
      if trip.version != expectedVersion then Failure(VersionConflict(trip.version))
      else if newStatus !in AllowedNext(trip.status) then Failure(InvalidTransition(trip.status, newStatus))
      else Success(trip.(status := newStatus, version := trip.version + 1))
  }

  /** The STATUS_UPDATED row written in the same transaction as the update. */
  function StatusEntry(userId: UserId, tripId: string, before: Trip, after: Trip): AuditEntry {
    AuditEntry(STATUS_UPDATED, Some(userId), None, None, None, Some("Trip"), Some(tripId),
               Some(Snapshot(before.status, before.version)), Some(Snapshot(after.status, after.version)))
  }

  /** A committed update follows an edge of the state machine and moves the version forward by one. */
  lemma CommittedUpdateFollowsTable(t: Trip, newStatus: TripStatus, expectedVersion: int)
    requires StatusUpdate(Some(t), newStatus, expectedVersion).Success?
    ensures var u := StatusUpdate(Some(t), newStatus, expectedVersion).value;
      u.status in AllowedNext(t.status) && Rank(t.status) < Rank(u.status) && u.version == t.version + 1
  {
  }

  /** A COMPLETED or CANCELLED trip rejects every request, whatever version it names. */
  lemma TerminalTripRejectsEveryUpdate(t: Trip, newStatus: TripStatus, expectedVersion: int)
    requires IsTerminal(t.status)
    ensures StatusUpdate(Some(t), newStatus, expectedVersion).Failure?
    ensures t.version == expectedVersion ==>
              StatusUpdate(Some(t), newStatus, expectedVersion) == Failure(InvalidTransition(t.status, newStatus))
  {
  }

  /** One call to `updateTripStatus` as the controller passes it on. */
  datatype StatusRequest = StatusRequest(newStatus: TripStatus, expectedVersion: int)

  /** Runs a series of requests against one trip; returns the final trip and the statuses committed. */
  function Replay(t: Trip, reqs: seq<StatusRequest>): (Trip, seq<TripStatus>)
    decreases |reqs|
  {
    if reqs == [] then (t, [])
    else match StatusUpdate(Some(t), reqs[0].newStatus, reqs[0].expectedVersion)
      case Success(next) =>
        var rest := Replay(next, reqs[1..]);
        (rest.0, [next.status] + rest.1)
      case Failure(_) => Replay(t, reqs[1..])
  }

  lemma {:induction false} ReplayWalksTable(t: Trip, reqs: seq<StatusRequest>)
    ensures var (last, history) := Replay(t, reqs);
      && ValidPath([t.status] + history)
      && last.version == t.version + |history|
      && last.status == ([t.status] + history)[|history|]
      && last.id == t.id && last.organizerId == t.organizerId && last.details == t.details
    decreases |reqs|
  {
    if reqs != [] {
      var r := StatusUpdate(Some(t), reqs[0].newStatus, reqs[0].expectedVersion);
      if r.Success? {
        ReplayWalksTable(r.value, reqs[1..]);
        var history := Replay(r.value, reqs[1..]).1;
        assert ([t.status] + ([r.value.status] + history))[1..] == [r.value.status] + history;
      } else {
        ReplayWalksTable(t, reqs[1..]);
      }
    }
  }

  /** However many requests arrive, a trip commits at most five status changes, each one version apart. */
  lemma AtMostFiveCommits(t: Trip, reqs: seq<StatusRequest>)
    ensures var (last, history) := Replay(t, reqs);
      |history| <= 5 && last.version == t.version + |history| && ValidPath([t.status] + history)
  {
    ReplayWalksTable(t, reqs);
    PathIsShort([t.status] + Replay(t, reqs).1);
  }

  /** The trips table together with the audit table, as one transaction sees them. */
  class TripsService {
    var trips: map<string, Trip>
    var audit: seq<AuditEntry>

    ghost predicate Valid()
      reads this
    {
      forall id | id in trips :: trips[id].id == id
    }

    constructor (initial: map<string, Trip>)
      requires forall id | id in initial :: initial[id].id == id
      ensures Valid() && trips == initial && audit == []
    {
      trips := initial;
      audit := [];
    }

    /** `getTripById`: a read-only lookup. */
    function GetTripById(id: string): (r: Option<Trip>)
      reads this
      requires Valid()
      ensures r.Some? <==> id in trips
      ensures r.Some? ==> r.value == trips[id] && r.value.id == id
    {
      Lookup(trips, id)
    }

    /** `updateTripStatus`: check presence, version and transition, then update and audit, all or nothing. */
    method UpdateTripStatus(tripId: string, newStatus: TripStatus, expectedVersion: int, userId: UserId)
      returns (r: Result<Trip, TripError>)
      requires Valid()
      modifies this
      ensures Valid()
      ensures r == StatusUpdate(Lookup(old(trips), tripId), newStatus, expectedVersion)
      ensures r.Failure? ==> trips == old(trips) && audit == old(audit)
      ensures r.Success? ==>
                && trips == old(trips)[tripId := r.value]
                && audit == old(audit) + [StatusEntry(userId, tripId, old(trips)[tripId], r.value)]
    {
      if tripId !in trips {
        return Failure(TripNotFound);
      }
      var trip := trips[tripId];
      if trip.version != expectedVersion {
        return Failure(VersionConflict(trip.version));
      }
      var allowedTransitions := AllowedNext(trip.status);
      if newStatus !in allowedTransitions {
        return Failure(InvalidTransition(trip.status, newStatus));
      }
      var updatedTrip := trip.(status := newStatus, version := trip.version + 1);
      trips := trips[tripId := updatedTrip];
      audit := audit + [StatusEntry(userId, tripId, trip, updatedTrip)];
      r := Success(updatedTrip);
    }
  }

  /** The three request scenarios for a trip at SUBMITTED, version 3. */
  lemma SubmittedTripScenarios(t: Trip)
    requires t.status == SUBMITTED && t.version == 3
    ensures StatusUpdate(Some(t), VERIFIED, 3) == Success(t.(status := VERIFIED, version := 4))
    ensures StatusUpdate(Some(t), PAID, 3) == Failure(InvalidTransition(SUBMITTED, PAID))
    ensures StatusUpdate(Some(t), VERIFIED, 2) == Failure(VersionConflict(3))
  {
  }

  /** The three SUBMITTED, version-3 requests driven through the service, with the audit row they leave. */
  method SubmittedTripThroughService(t: Trip, actor: UserId)
    returns (invalid: Result<Trip, TripError>, stale: Result<Trip, TripError>, committed: Result<Trip, TripError>,
             entries: seq<AuditEntry>)
    requires t.status == SUBMITTED && t.version == 3
    ensures invalid == Failure(InvalidTransition(SUBMITTED, PAID))
    ensures stale == Failure(VersionConflict(3))
    ensures committed == Success(t.(status := VERIFIED, version := 4))
    ensures |entries| == 1 && entries[0].action == STATUS_UPDATED
    ensures entries[0].userId == Some(actor) && entries[0].entityId == Some(t.id)
    ensures entries[0].previousState == Some(Snapshot(SUBMITTED, 3))
    ensures entries[0].newState == Some(Snapshot(VERIFIED, 4))
  {
    var service := new TripsService(map[t.id := t]);
    invalid := service.UpdateTripStatus(t.id, PAID, 3, actor);
    stale := service.UpdateTripStatus(t.id, VERIFIED, 2, actor);
    assert service.trips[t.id] == t && service.audit == [];
    committed := service.UpdateTripStatus(t.id, VERIFIED, 3, actor);
    entries := service.audit;
  }
}
