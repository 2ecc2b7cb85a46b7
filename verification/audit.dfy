/** Rows of the append-only audit log that both services write. */
module Audit {
  import opened Common
  import opened TripStateMachine

  /** The values of the persisted `AuditAction` enumeration that the core writes. */
  datatype AuditAction =
    | STATUS_UPDATED
    | LOGIN_SUCCESS
    | LOGIN_FAILED
    | ACCOUNT_LOCKED
    | TOKEN_REFRESH
    | LOGOUT

  /** The `{ status, version }` snapshot stored in `previousState` and `newState`. */
  datatype Snapshot = Snapshot(status: TripStatus, version: int)

  /** One audit row; `metadata` is the `reason` string of the structured metadata the core writes. */
  datatype AuditEntry = AuditEntry(
    action: AuditAction,
    userId: Option<UserId>,
    metadata: Option<string>,
    ipAddress: Option<string>,
    userAgent: Option<string>,
    entityType: Option<string>,
    entityId: Option<string>,
    previousState: Option<Snapshot>,
    newState: Option<Snapshot>)

  /** The row `logEvent` creates: no entity and no snapshots. */
  function Event(action: AuditAction, userId: Option<UserId>, metadata: Option<string>,
                 ipAddress: Option<string>, userAgent: Option<string>): AuditEntry
  {
    AuditEntry(action, userId, metadata, ipAddress, userAgent, None, None, None, None)
  }
}
