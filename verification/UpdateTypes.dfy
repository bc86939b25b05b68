/** Phases and states shared by update tasks and node update tasks (api/v1beta1/types.go).
    Both are open string types in the source: the last constructor of each stands for any
    text other than the declared constants. */
module UpdateTypes {

  datatype Phase = Update | Abort | OtherPhase(text: string)

  // Unknown is the empty string: the state of an object whose status was never written.
  datatype State = Unknown | InProgress | Failed | Updated | Aborted | OtherState(text: string)

  predicate IsTerminated(s: State) {
    s.Failed? || s.Updated? || s.Aborted?
  }

  // The two terminal states that let a rollout go on to its next machine.
  predicate IsSettled(s: State) {
    s.Updated? || s.Aborted?
  }
}
