/** The errors the VM table operations report. */
module ModelErrors {
  import Common
  import Vms

  /** The kind of entity a failed lookup was for. */
  datatype EntityType = Vm

  /** What the database itself rejects: a second row with an existing primary
      key, or an update whose target row does not exist. */
  datatype DatabaseError = UniqueViolation | RecordNotFound

  datatype Error =
    | NotFound(entity: EntityType, id: Common.Uuid)
    | InvalidRequest(reason: Vms.NormalizeError)
    | Database(cause: DatabaseError)
}
