/** Everything that can happen to one call across a process boundary. */
module Faults {

  /** `Lost` commits but the caller sees an error; the `Dies` cases end the
      calling process before or after the commit. */
  datatype Fate = Done | Refused | Lost | DiesBefore | DiesAfter {
    predicate Commits() {
      Done? || Lost? || DiesAfter?
    }

    predicate Dies() {
      DiesBefore? || DiesAfter?
    }
  }

  datatype Reply = Ok | Error | Dead

  /** The caller's view of a call whose precondition holds at the server iff `fits`. */
  function ReplyTo(fate: Fate, fits: bool): Reply {
    if fate.Dies() then Dead else if fate.Done? && fits then Ok else Error
  }
}
