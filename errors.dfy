/** The errors the dispatch code throws, one constructor per thrown `Error`. */
module Errors {
  import opened Wrappers
  import opened Js

  datatype Error =
      /** `Missing path param: <key>` from interpolatePath. */
    | MissingPathParam(key: string)
      /** A non-2xx response: its status and the first 500 characters of its body. */
    | HttpStatus(status: int, snippet: string)
      /** A 2xx JSON response whose body did not parse; carries status and snippet too. */
    | ParseFailure(status: int, snippet: string)
      /** `fetch` itself rejected (no response, so no status). */
    | NetworkFailure
      /** `throw lastError` reached while lastError is still undefined. */
    | NothingThrown
      /** `Resource <name> does not support listing for resolution.` */
    | NotListable(resource: string)
      /** `Resource <name> requires 'orgId' to resolve.` */
    | OrgRequired(resource: string)
      /** A property read on null or undefined (a TypeError). */
    | NullProperty
      /** An array method called on, or a spread of, a value that is not an array (a TypeError). */
    | NotAnArray
      /** `Job polling is not configured for this API.` */
    | PollingNotConfigured
      /** `Job failed with status=<status>`, with the response attached as `data`. */
    | JobFailed(jobStatus: Json, data: Json)
      /** `Polling timeout exceeded`, with the last response attached as `data`. */
    | PollTimeout(data: Json)

  /** `e?.status`: only errors built from a response carry a status. */
  function StatusOf(e: Error): Option<int> {
    match e
    case HttpStatus(s, _) => Some(s)
    case ParseFailure(s, _) => Some(s)
    case _ => None
  }
}
