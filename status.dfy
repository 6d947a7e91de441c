/** The unit-status vocabulary the charm reports to Juju (ops.model's status classes). */
module Status {

  datatype UnitStatus =
    | Active(message: string)       // ActiveStatus
    | Waiting(message: string)      // WaitingStatus
    | Blocked(message: string)      // BlockedStatus
    | Maintenance(message: string)  // MaintenanceStatus
}
