/** Small shared datatypes. */
module Basics {

  datatype Option<+T> = None | Some(value: T)

  /** What one call to a fallible collaborator yields.
      `Died` stands for a crash of the process, or a storage error, at or inside the call: the caller
      never sees a value and only durable state survives. */
  datatype Reply<+T> = Done(value: T) | Refused(code: FailureCode) | Died

  /** The failure codes the worktree driver tells apart. */
  datatype FailureCode = OperationFailed | WorktreeConflict | ResultUnknown | InvalidMainWorkspace
}
