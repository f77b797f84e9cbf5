/**
 * The app's entry component: on mount it starts the database and logs
 * whether that worked.
 */
module App {
  import opened Database

  /** The JavaScript values the start-up check can see. Calling an `async`
      function hands back a promise at once, whatever it later settles to. */
  datatype JsValue = Undefined | Null | Boolean(b: bool) | Promise(settlesTo: Status)

  /** JavaScript truthiness on these values: every object, a promise
      included, is truthy. */
  predicate Truthy(v: JsValue) {
    match v
    case Undefined => false
    case Null => false
    case Boolean(b) => b
    case Promise(_) => true
  }

  /** What `initDatabase()` returns to a caller that does not await it:
      the promise of the start-up, which settles to `status`. */
  function InitDatabaseCall(status: Status): JsValue {
    Promise(status)
  }

  /** The line the start-up logs about the database. */
  datatype StartupLog = LoggedSuccess | LoggedFailure

  /** The check as written: the `if` looks at the truthiness of the value
      `initDatabase()` returns, without awaiting it. */
  function StartupLogAsWritten(status: Status): (log: StartupLog)
    ensures log == LoggedSuccess
  {
    if Truthy(InitDatabaseCall(status)) then LoggedSuccess else LoggedFailure
  }

  /** The evidently intended check: await the start-up and log what it settled to. */
  function StartupLogFor(status: Status): (log: StartupLog)
    ensures log == LoggedSuccess <==> status.Success?
  {
    if status.Success? then LoggedSuccess else LoggedFailure
  }

  /** Every failed start-up, a database that fails to open included, is
      logged as a success by the check as written, and as a failure by
      the intended one. */
  lemma StartupLogReportsFailureAsSuccess(status: Status)
    requires status.Failure?
    ensures StartupLogAsWritten(status) == LoggedSuccess
    ensures StartupLogFor(status) == LoggedFailure
  {
  }
}
