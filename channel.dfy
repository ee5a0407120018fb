/**
  The request/response shapes shared by the two platform-channel plugins:
  a method call carries a method name and an argument value, and every call
  is answered with exactly one reply (a value, a coded error, or the
  "not implemented" marker).
 */
module Channel {

  datatype Option<+T> = None | Some(value: T)

  newtype byte = b: int | 0 <= b < 256

  type Bytes = seq<byte>

  /** One entry of a call's argument dictionary, by the distinctions the plugins make. */
  datatype Arg =
    | StringArg(text: string)       // a String
    | TypedDataArg(data: Bytes)     // a FlutterStandardTypedData
    | OtherArg                      // a number, a list, null, ...

  /** `call.arguments`: a `[String: Any]` dictionary, or anything else. */
  datatype Arguments = Dictionary(entries: map<string, Arg>) | NotADictionary

  datatype MethodCall = MethodCall(name: string, arguments: Arguments)

  /** `call.arguments as? [String: Any]` followed by `args[key] as? String`. */
  function StringArgument(a: Arguments, key: string): (r: Option<string>)
    ensures r.Some? <==> a.Dictionary? && key in a.entries && a.entries[key].StringArg?
    ensures r.Some? ==> r.value == a.entries[key].text
  {
    if a.Dictionary? && key in a.entries && a.entries[key].StringArg? then Some(a.entries[key].text) else None
  }

  /** `call.arguments as? [String: Any]` followed by `args[key] as? FlutterStandardTypedData`. */
  function TypedDataArgument(a: Arguments, key: string): (r: Option<Bytes>)
    ensures r.Some? <==> a.Dictionary? && key in a.entries && a.entries[key].TypedDataArg?
    ensures r.Some? ==> r.value == a.entries[key].data
  {
    if a.Dictionary? && key in a.entries && a.entries[key].TypedDataArg? then Some(a.entries[key].data) else None
  }

  datatype ErrorCode =
    | InvalidArgs
    | BookmarkFailed
    | InvalidBookmark
    | ResolveFailed
    | AccessDenied
    | WriteFailed

  /** The code string each error is reported with. */
  function Code(e: ErrorCode): (s: string)
  {
    match e
    case InvalidArgs => "INVALID_ARGS"
    case BookmarkFailed => "BOOKMARK_FAILED"
    case InvalidBookmark => "INVALID_BOOKMARK"
    case ResolveFailed => "RESOLVE_FAILED"
    case AccessDenied => "ACCESS_DENIED"
    case WriteFailed => "WRITE_FAILED"
  }

  /** No two errors share a code string, so the caller can tell every error apart by its code. */
  lemma CodesDistinct(e1: ErrorCode, e2: ErrorCode)
    ensures Code(e1) == Code(e2) <==> e1 == e2
  {
  }

  /** The values a successful reply carries. */
  datatype Value =
    | Null
    | BoolValue(b: bool)
    | IntValue(i: int)
    | StringValue(s: string)
    | DataValue(data: Bytes)
    | PathInfo(path: string, isStale: bool)   // the dictionary ["path": ..., "isStale": ...]

  /** What `result(...)` is called with: a value, a `FlutterError`, or `FlutterMethodNotImplemented`. */
  datatype Reply = Success(value: Value) | Failure(code: ErrorCode) | NotImplemented

  /** What a plugin's `handle` makes of a call before doing any work. */
  datatype Route<Op> = Invoke(op: Op) | RejectArgs | Unknown

  /** What a rejected or unknown route answers. */
  function RouteReply<Op>(r: Route<Op>): (reply: Reply)
    requires !r.Invoke?
    ensures reply == Failure(InvalidArgs) <==> r.RejectArgs?
    ensures reply == NotImplemented <==> r.Unknown?
  {
    if r.RejectArgs? then Failure(InvalidArgs) else NotImplemented
  }
}
