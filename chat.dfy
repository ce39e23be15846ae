/** Chat messages as the interview simulator and the formatter keep them. */
module Chat {
  import opened Wrappers
  import opened Engine

  datatype Role = Human | AI

  datatype Message = Message(role: Role, content: string)

  /** messages[-1]: the last message, or an index error on an empty list. */
  function Last(ms: seq<Message>): (r: Result<Message, Cause>)
    ensures r.Success? <==> |ms| > 0
    ensures r.Success? ==> r.value == ms[|ms| - 1]
  {
    if |ms| == 0 then Failure(IndexOutOfRange(-1, 0)) else Success(ms[|ms| - 1])
  }
}
