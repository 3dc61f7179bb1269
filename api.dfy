/** The errors an RPC procedure can end with, and the input rules shared by its routers. */
module Api {
  import opened Wrappers

  /** The codes of the RPC layer's typed errors. */
  datatype ErrorCode = BadRequest | Unauthorized | Forbidden | NotFound | InternalServerError

  /** How a procedure fails. */
  datatype ApiError =
    | TrpcError(code: ErrorCode, message: string)  // a typed RPC error thrown by the procedure
    | Thrown(message: string)                      // a plain `Error`; the RPC layer reports it as INTERNAL_SERVER_ERROR
    | InvalidInput(field: string)                  // the input schema rejected a field; reported as BAD_REQUEST
    | RecordNotFound                               // the ORM found no row to update or delete
    | UniqueViolation(target: seq<string>)         // the ORM refused a row whose unique key is taken

  /** The page size a listing procedure uses when the caller gives none. */
  const DefaultLimit: nat := 10
  const MaxLimit: nat := 100

  /** The `limit` rule of the paginated procedures: between 1 and 100, 10 when absent. */
  function ParseLimit(raw: Option<int>): (r: Result<nat, ApiError>)
    ensures r.Ok? ==> 1 <= r.value <= MaxLimit
    ensures raw.None? ==> r == Ok(DefaultLimit)
    ensures raw.Some? ==> (r.Ok? <==> 1 <= raw.value <= MaxLimit)
    ensures raw.Some? && r.Ok? ==> r.value == raw.value
    ensures r.Err? ==> r.error == InvalidInput("limit")
  {
    match raw
    case None => Ok(DefaultLimit)
    case Some(n) => if 1 <= n <= MaxLimit then Ok(n) else Err(InvalidInput("limit"))
  }
}
