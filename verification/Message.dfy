/** The in-flight message shared by daemon, client and federation. */
module Messages {

  /** Body lines carry no line terminator and are not dot-stuffed. */
  datatype Message = Message(typeName: string, msgId: string, origin: string, body: seq<string>)

  /** What a body counts against `max_message_bytes`: each line plus one octet. */
  function BodySize(body: seq<string>): nat
  {
    if body == [] then 0 else BodySize(body[..|body| - 1]) + |body[|body| - 1]| + 1
  }
}
