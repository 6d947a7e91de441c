/**
 * The unit status build_unit_status derives from the replica-set status the
 * database driver reports for this unit's address.
 */
module ReplicaStatus {
  import opened Results
  import opened Status

  /**
   * What asking the driver for the replica-set status gives: the state of
   * each member by address, or the failure the driver raised.
   * ServerSelectionTimeoutError is itself a subclass of AutoReconnect in the
   * driver, so it has its own case only because its except clause comes
   * first; the AutoReconnect case stands for every other exception of that
   * hierarchy (NotPrimaryError and NetworkTimeout among them), and
   * OtherFailure for exceptions outside it.
   */
  datatype ReplsetQuery =
    | Reported(states: map<string, string>)
    | SelectionTimeout            // ServerSelectionTimeoutError
    | AutoReconnect               // any other AutoReconnect
    | OtherFailure(name: string)  // any exception that is not an AutoReconnect

  /** The member states reported while a member is still catching up. */
  const SyncingStates := ["STARTUP", "STARTUP2", "ROLLBACK", "RECOVERING"]

  const MemberBeingAdded := "Member being added.."
  const MemberSyncing := "Member is syncing..."
  const MemberRemoving := "Member is removing..."
  const AwaitingReElection := "Waiting for primary re-election.."
  const AwaitingReconnect := "Waiting to reconnect to unit.."

  /** The states the status table names; every other state blocks the unit. */
  predicate Known(state: string)
  {
    state == "PRIMARY" || state == "SECONDARY" || state in SyncingStates || state == "REMOVED"
  }

  /**
   * The status of a member that the replica set reports in the given state.
   * Each status it gives comes from exactly one row of the table, and a
   * blocked status carries the unrecognised state as its message.
   */
  function MemberStatus(state: string): (r: UnitStatus)
    ensures r == Active("Primary") <==> state == "PRIMARY"
    ensures r == Active("") <==> state == "SECONDARY"
    ensures r == Waiting(MemberSyncing) <==> state in SyncingStates
    ensures r == Waiting(MemberRemoving) <==> state == "REMOVED"
    ensures r.Blocked? <==> !Known(state)
    ensures r.Blocked? ==> r.message == state
    ensures !r.Maintenance?
    ensures r.Waiting? ==> r.message != MemberBeingAdded && r.message != AwaitingReElection
                           && r.message != AwaitingReconnect
  {
    if state == "PRIMARY" then Active("Primary")
    else if state == "SECONDARY" then Active("")
    else if state in SyncingStates then Waiting(MemberSyncing)
    else if state == "REMOVED" then Waiting(MemberRemoving)
    else Blocked(state)
  }

  /**
   * build_unit_status: the status of the unit at address `unitIp`. The two
   * recognised connection failures become waiting statuses; any other
   * failure propagates as the exception.
   */
  function BuildUnitStatus(query: ReplsetQuery, unitIp: string): (r: Result<UnitStatus>)
    ensures r.Raised? <==> query.OtherFailure?
    ensures r.Raised? ==> r.error == DriverError(query.name)
    ensures r.Ok? ==> !r.value.Maintenance?
    ensures query.Reported? && unitIp in query.states ==> r == Ok(MemberStatus(query.states[unitIp]))
  {
    match query
    case Reported(states) =>
      if unitIp !in states then Ok(Waiting(MemberBeingAdded)) else Ok(MemberStatus(states[unitIp]))
    case SelectionTimeout => Ok(Waiting(AwaitingReElection))
    case AutoReconnect => Ok(Waiting(AwaitingReconnect))
    case OtherFailure(name) => Raised(DriverError(name))
  }

  /**
   * Each waiting message names its one cause: the unit missing from the
   * report, a server-selection timeout, a lost connection, or the member's
   * own syncing or removal state.
   */
  lemma WaitingCauses(query: ReplsetQuery, unitIp: string)
    ensures BuildUnitStatus(query, unitIp) == Ok(Waiting(MemberBeingAdded))
      <==> query.Reported? && unitIp !in query.states
    ensures BuildUnitStatus(query, unitIp) == Ok(Waiting(AwaitingReElection)) <==> query.SelectionTimeout?
    ensures BuildUnitStatus(query, unitIp) == Ok(Waiting(AwaitingReconnect)) <==> query.AutoReconnect?
    ensures BuildUnitStatus(query, unitIp) == Ok(Waiting(MemberSyncing))
      <==> query.Reported? && unitIp in query.states && query.states[unitIp] in SyncingStates
    ensures BuildUnitStatus(query, unitIp) == Ok(Waiting(MemberRemoving))
      <==> query.Reported? && unitIp in query.states && query.states[unitIp] == "REMOVED"
  {
    if query.Reported? && unitIp in query.states {
      var s := MemberStatus(query.states[unitIp]);
      assert s.Waiting? ==> s.message != MemberBeingAdded;
    }
  }

  /**
   * The unit is active exactly when the report lists it as primary or
   * secondary, and blocked exactly when the report lists it in a state the
   * table does not name, which the status then carries.
   */
  lemma ActiveAndBlocked(query: ReplsetQuery, unitIp: string)
    ensures BuildUnitStatus(query, unitIp).Ok? && BuildUnitStatus(query, unitIp).value.Active?
      <==> query.Reported? && unitIp in query.states
           && (query.states[unitIp] == "PRIMARY" || query.states[unitIp] == "SECONDARY")
    ensures BuildUnitStatus(query, unitIp).Ok? && BuildUnitStatus(query, unitIp).value.Blocked?
      <==> query.Reported? && unitIp in query.states && !Known(query.states[unitIp])
    ensures BuildUnitStatus(query, unitIp).Ok? && BuildUnitStatus(query, unitIp).value.Blocked?
      ==> BuildUnitStatus(query, unitIp).value.message == query.states[unitIp]
  {
    if query.Reported? && unitIp in query.states {
      var s := MemberStatus(query.states[unitIp]);
      assert s.Active? ==> s == Active("Primary") || s == Active("");
    }
  }
}
