/** JSON-RPC messages as the proxy sees them after decoding. */
module Messages {

  datatype Option<+T> = None | Some(value: T)

  datatype Result<+T> = Ok(value: T) | Err(error: string)

  /** The `id` of a message: absent, a number or a string. */
  datatype MsgId = NoId | IntId(n: int) | StrId(s: string)

  /** A dynamically typed value.  YAML gives `VInt` for a whole number, JSON gives `VFloat`;
      the two never compare equal. */
  datatype Val =
    | VNull
    | VBool(b: bool)
    | VInt(n: int)
    | VFloat(r: real)
    | VStr(s: string)
    | VList(items: seq<Val>)
    | VMap(fields: map<string, Val>)

  datatype RpcError = RpcError(code: int, message: string, data: Val)

  datatype Msg = Msg(version: string, id: MsgId, verb: string, params: Val, result: Val, error: Option<RpcError>)
  {
    /** The copy differs in its id alone. */
    function CloneWithID(newId: MsgId): (copy: Msg)
      ensures copy.id == newId && copy.version == version && copy.verb == verb
      ensures copy.params == params && copy.result == result && copy.error == error
    {
      this.(id := newId)
    }
  }

  /** A refusal is an error under the id of the request, without a result. */
  function UnauthorizedResponse(req: Msg): (reply: Msg)
    ensures reply.id == req.id && reply.result == VNull
    ensures reply.error.Some? && reply.error.value.code == 401 && reply.error.value.message == "unauthorized access"
  {
    Msg("2.0", req.id, "", VNull, VNull, Some(RpcError(401, "unauthorized access", VNull)))
  }

  function EmptyResult(req: Msg): (reply: Msg)
    ensures reply.id == req.id && reply.error.None? && reply.result.VMap? && reply.result.fields == map[]
  {
    Msg("2.0", req.id, "", VNull, VMap(map[]), None)
  }

  function WithResult(req: Msg, result: Val): (reply: Msg)
    ensures reply.id == req.id && reply.error.None? && reply.result == result
  {
    Msg("2.0", req.id, "", VNull, result, None)
  }

  function ErrorResponse(req: Msg, code: int, message: string): (reply: Msg)
    ensures reply.id == req.id && reply.result == VNull
    ensures reply.error.Some? && reply.error.value.code == code && reply.error.value.message == message
  {
    Msg("2.0", req.id, "", VNull, VNull, Some(RpcError(code, message, VNull)))
  }
}
