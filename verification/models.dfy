/** The domain values the client passes to the server. The enumerations are
    defined alongside the server and are not part of this model, so each member
    is an opaque wire token; the uploaded file is an opaque stream handle. */
module Models {

  /** A member of `BackupType` (single-file or folder targets). */
  datatype BackupType = BackupType(token: string)

  /** A member of `BackupRecycleCriteria` (what triggers recycling). */
  datatype RecycleCriteria = RecycleCriteria(token: string)

  /** A member of `BackupRecycleAction` (what recycling does). */
  datatype RecycleAction = RecycleAction(token: string)

  /** The open file object handed to an upload; the model never reads it. */
  datatype FileStream = FileStream(handle: nat)

  /** The mutable settings of a target: every field `new_target` and
      `edit_target` both send. `backup_type` is not among them because it is
      fixed when the target is created. */
  datatype TargetSettings = TargetSettings(
    name: string,
    recycleCriteria: RecycleCriteria,
    recycleValue: int,
    recycleAction: RecycleAction,
    location: string,
    nameTemplate: string,
    deduplicate: bool)
}
