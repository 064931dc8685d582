/**
 * What a route handler sends back: an HTTP status and a JSON body. A body is either the
 * handler's own payload, `{ error }`, or the `{ error, message }` pair that the premium checks
 * send (with `upgrade_required: true` on the free-tier limit).
 */
module Http {

  datatype Body<+T> =
    | Json(value: T)
    | Error(error: string)
    | Refusal(error: string, message: string, upgradeRequired: bool)

  datatype Response<+T> = Response(status: nat, body: Body<T>) {

    predicate IsOk() {
      status == 200 && body.Json?
    }
  }

  function Ok<T>(v: T): Response<T> {
    Response(200, Json(v))
  }

  function Created<T>(v: T): Response<T> {
    Response(201, Json(v))
  }

  function Fail<T>(status: nat, error: string): Response<T> {
    Response(status, Error(error))
  }
}
