/** What the daemon emits besides its replies: notifications pushed to the client
    app through `PrivTasksCallback.sendRequest`, error log lines through `logE`, and
    stack traces printed locally. Only their kind and count are modelled; the text of
    log lines is not. */
module Effects {

  /** Notification identifiers sent to the client app. */
  datatype Notice =
    | WrongArgsReceived
    | OpNumInconsistency
    | OpToDefModeNotFound
    | GetPermGrpInfoListFailed
    | SetAppOpsModeFailed
    | ResetAppOpsFailed
    | GrantPermFailed
    | RevokePermFailed
    | SetPermFlagsFailed
    | EnablePkgFailed
    | DisablePkgFailed
    | GetInstalledPkgsFailed
    | GetPkgInfoFailed
    | OpenAppInfoFailed
    | GetUsersFailed

  datatype Effect =
    | Notify(notice: Notice)
    | LogE
    | StackTrace

  /** The notices among a run of effects, in order. */
  function Notices(effects: seq<Effect>): (ns: seq<Notice>)
    ensures |ns| <= |effects|
    ensures forall n :: n in ns <==> Notify(n) in effects
  {
    if |effects| == 0 then []
    else
      var rest := Notices(effects[1..]);
      assert forall e :: e in effects <==> e == effects[0] || e in effects[1..];
      match effects[0]
      case Notify(n) => [n] + rest
      case _ => rest
  }
}
