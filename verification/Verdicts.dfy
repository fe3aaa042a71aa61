/** The words the response engine and the store exchange. */
module Verdicts {

  datatype Status = Known | Unknown | Suspicious | Paused | Killed | NoStatus

  datatype Action =
    | TrustedAllow | KnownSafe
    | ObserveLog | ObserveAlert | ObserveCritical
    | PauseLog | PausedSigstop | PauseFailedLog | AlreadyPaused
    | LogOnly | LogElevated
    | CriuVerify | CriuVerifyFailedLog | VerifiedKill | VerifiedBenign
    | ProtectedLogOnly | Kill | KillFailed

  predicate Kills(action: Action) {
    action == Kill || action == VerifiedKill
  }
}
