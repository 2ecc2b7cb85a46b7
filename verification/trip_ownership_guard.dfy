/** The ownership guard in front of the trip routes: only a trip's organizer may act on it. */
module TripOwnershipGuard {
  import opened Common
  import opened TripStateMachine
  import opened Trips

  /** `request.params.id` is truthy: present and not the empty string. */
  predicate Provided(tripId: Option<string>) {
    tripId.Some? && tripId.value != ""
  }

  /** `TripOwnershipGuard.canActivate`: a lookup in the trip table and comparisons, nothing written. */
  function CanActivate(tripId: Option<string>, trips: map<string, Trip>, userId: UserId): (r: GuardResult)
    ensures !Provided(tripId) ==> r == Forbidden(TripIdNotProvided)
    ensures r == NotFound <==> Provided(tripId) && tripId.value !in trips
    ensures r == Forbidden(NotTripOwner) <==>
              Provided(tripId) && tripId.value in trips && trips[tripId.value].organizerId != userId
    ensures r == Allow <==>
              Provided(tripId) && tripId.value in trips && trips[tripId.value].organizerId == userId
  {
    if !Provided(tripId) then Forbidden(TripIdNotProvided)
    else match Lookup(trips, tripId.value)
      case None => NotFound
      case Some(trip) => if trip.organizerId != userId then Forbidden(NotTripOwner) else Allow
  }

  /**
   * On the status route the guard runs first: a request it lets through reaches `updateTripStatus`
   * for a trip that exists and that the acting user organizes, so only the version and transition checks remain.
   */
  lemma GuardedUpdateFindsOwnTrip(tripId: string, trips: map<string, Trip>, userId: UserId,
                                  newStatus: TripStatus, expectedVersion: int)
    requires CanActivate(Some(tripId), trips, userId) == Allow
    ensures tripId in trips && trips[tripId].organizerId == userId
    ensures StatusUpdate(Lookup(trips, tripId), newStatus, expectedVersion) != Failure(TripNotFound)
  {
  }
}
