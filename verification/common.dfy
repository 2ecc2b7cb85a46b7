/** Small shared vocabulary: optional values, results, user identities and guard outcomes. */
module Common {

  datatype Option<+T> = None | Some(value: T)

  /** A success value or the error an operation reports instead of throwing. */
  datatype Result<+T, +E> = Success(value: T) | Failure(error: E)

  /** User ids are generated by the persistence layer; the model numbers them. */
  type UserId = nat

  /** A value of the persisted `Role` enumeration. */
  type Role = string

  /** The `user` object that the JWT strategy attaches to an authenticated request. */
  datatype RequestUser = RequestUser(userId: UserId, role: Role)

  /** The message a guard puts into the `ForbiddenException` it throws. */
  datatype Denial =
    | AccessDenied             // "Access denied"
    | InsufficientPermissions  // "Insufficient permissions"
    | TripIdNotProvided        // "Trip ID not provided"
    | NotTripOwner             // "You do not own this trip"

  /** What a guard's `canActivate` does: return true, or throw one of two exceptions. */
  datatype GuardResult = Allow | Forbidden(denial: Denial) | NotFound
}
