/**
  The clipboard plugin of macos/Runner/ClipboardPlugin.swift, over an
  abstract general pasteboard.

  The pasteboard holds at most one item per type tag. The plugin's reads are
  ordered selections over those items; its writes clear the pasteboard and
  then set a single item. What AppKit does itself (whether a set is accepted,
  the change count, turning TIFF data into PNG data) is given per request by
  a `Host`.
 */
module Clipboard {
  import opened Channel

  /** Pasteboard type tags: .png, .tiff, .string, and any other type some other app wrote. */
  datatype PasteType = Png | Tiff | PlainString | Other(uti: string)

  /** An item as it was written: raw data (`setData`) or a string (`setString`). */
  datatype Item = Blob(data: Bytes) | Text(text: string)

  type Contents = map<PasteType, Item>

  /** `pasteboard.data(forType:)`. */
  function DataFor(c: Contents, t: PasteType): Option<Bytes>
  {
    if t in c && c[t].Blob? then Some(c[t].data) else None
  }

  /** `pasteboard.string(forType:)`. */
  function StringFor(c: Contents, t: PasteType): Option<string>
  {
    if t in c && c[t].Text? then Some(c[t].text) else None
  }

  /**
    `readImage`: PNG data as it is when there is any; otherwise TIFF data
    converted to PNG, when there is TIFF data and the conversion succeeds;
    otherwise nothing.
   */
  function ReadImage(c: Contents, tiffToPng: Bytes -> Option<Bytes>): (r: Option<Bytes>)
    ensures DataFor(c, Png).Some? ==> r == DataFor(c, Png)
    ensures DataFor(c, Png).None? && DataFor(c, Tiff).Some? ==> r == tiffToPng(DataFor(c, Tiff).value)
    ensures r.None? <==> DataFor(c, Png).None? && (DataFor(c, Tiff).None? || tiffToPng(DataFor(c, Tiff).value).None?)
  {
    match DataFor(c, Png)
    case Some(png) => Some(png)
    case None =>
      match DataFor(c, Tiff)
      case Some(tiff) => tiffToPng(tiff)
      case None => None
  }

  /** `readText`: the string item when there is one, else nothing. */
  function ReadText(c: Contents): (r: Option<string>)
    ensures r.Some? <==> PlainString in c && c[PlainString].Text?
    ensures r.Some? ==> c[PlainString] == Text(r.value)
  {
    StringFor(c, PlainString)
  }

  /**
    The pasteboard after `clearContents()` followed by a set of one item:
    that item alone when the set was accepted, nothing when it was not.
   */
  function Written(t: PasteType, item: Item, accepted: bool): (c: Contents)
    ensures c.Keys == if accepted then {t} else {}
    ensures accepted ==> c[t] == item
  {
    if accepted then map[t := item] else map[]
  }

  /** The reply of a write: true, or WRITE_FAILED when the set was refused. */
  function WriteReply(accepted: bool): (r: Reply)
    ensures r.Success? <==> accepted
    ensures r.Success? ==> r.value == BoolValue(true)
    ensures r.Failure? ==> r.code == WriteFailed
  {
    if accepted then Success(BoolValue(true)) else Failure(WriteFailed)
  }

  /** The shared general pasteboard. */
  class Pasteboard {
    var contents: Contents

    constructor (initial: Contents)
      ensures contents == initial
    {
      contents := initial;
    }

    method ClearContents()
      modifies this
      ensures contents == map[]
    {
      contents := map[];
    }

    /** `setData(_:forType:)`, which answers whether AppKit accepted the data. */
    method SetData(data: Bytes, t: PasteType, accepted: bool) returns (ok: bool)
      modifies this
      ensures ok == accepted
      ensures contents == if accepted then old(contents)[t := Blob(data)] else old(contents)
    {
      if accepted {
        contents := contents[t := Blob(data)];
      }
      ok := accepted;
    }

    /** `setString(_:forType:)`, which answers whether AppKit accepted the string. */
    method SetString(text: string, t: PasteType, accepted: bool) returns (ok: bool)
      modifies this
      ensures ok == accepted
      ensures contents == if accepted then old(contents)[t := Text(text)] else old(contents)
    {
      if accepted {
        contents := contents[t := Text(text)];
      }
      ok := accepted;
    }
  }

  /** `writeImage`: clear the pasteboard, then set the data as PNG. */
  method WriteImage(pb: Pasteboard, data: Bytes, accepted: bool) returns (r: Reply)
    modifies pb
    ensures pb.contents == Written(Png, Blob(data), accepted)
    ensures r == WriteReply(accepted)
  {
    pb.ClearContents();
    var success := pb.SetData(data, Png, accepted);
    if success {
      r := Success(BoolValue(true));
    } else {
      r := Failure(WriteFailed);
    }
  }

  /** `writeText`: clear the pasteboard, then set the string. */
  method WriteText(pb: Pasteboard, text: string, accepted: bool) returns (r: Reply)
    modifies pb
    ensures pb.contents == Written(PlainString, Text(text), accepted)
    ensures r == WriteReply(accepted)
  {
    pb.ClearContents();
    var success := pb.SetString(text, PlainString, accepted);
    if success {
      r := Success(BoolValue(true));
    } else {
      r := Failure(WriteFailed);
    }
  }

  /** What AppKit answers during one request. */
  datatype Host = Host(
    changeCount: int,                   // NSPasteboard.general.changeCount
    tiffToPng: Bytes -> Option<Bytes>,  // NSImage(data:) followed by pngData()
    accepts: bool)                      // what setData / setString answer

  /** The operations `handle` dispatches to. */
  datatype Op =
    | GetChangeCount
    | ImageRead
    | TextRead
    | ImageWrite(data: Bytes)
    | TextWrite(text: string)

  const Methods: set<string> := {"getChangeCount", "readImage", "readText", "writeImage", "writeText"}

  /**
    `handle`'s switch on the method name: the reads and the change count take
    no arguments, `writeImage` needs typed data under "data", `writeText` a
    String under "text", and any other name is not implemented.
   */
  function Dispatch(call: MethodCall): (r: Route<Op>)
    ensures r.Unknown? <==> call.name !in Methods
    ensures r.RejectArgs? <==>
      || (call.name == "writeImage" && TypedDataArgument(call.arguments, "data").None?)
      || (call.name == "writeText" && StringArgument(call.arguments, "text").None?)
    ensures call.name == "getChangeCount" ==> r == Invoke(GetChangeCount)
    ensures call.name == "readImage" ==> r == Invoke(ImageRead)
    ensures call.name == "readText" ==> r == Invoke(TextRead)
    ensures r.Invoke? && r.op.ImageWrite? ==>
      call.name == "writeImage" && TypedDataArgument(call.arguments, "data") == Some(r.op.data)
    ensures r.Invoke? && r.op.TextWrite? ==>
      call.name == "writeText" && StringArgument(call.arguments, "text") == Some(r.op.text)
    ensures r == Invoke(GetChangeCount) ==> call.name == "getChangeCount"
    ensures r == Invoke(ImageRead) ==> call.name == "readImage"
    ensures r == Invoke(TextRead) ==> call.name == "readText"
    ensures call.name == "writeImage" && TypedDataArgument(call.arguments, "data").Some? ==>
      r == Invoke(ImageWrite(TypedDataArgument(call.arguments, "data").value))
    ensures call.name == "writeText" && StringArgument(call.arguments, "text").Some? ==>
      r == Invoke(TextWrite(StringArgument(call.arguments, "text").value))
  {
    match call.name
    case "getChangeCount" => Invoke(GetChangeCount)
    case "readImage" => Invoke(ImageRead)
    case "readText" => Invoke(TextRead)
    case "writeImage" =>
      (match TypedDataArgument(call.arguments, "data")
       case Some(data) => Invoke(ImageWrite(data))
       case None => RejectArgs)
    case "writeText" =>
      (match StringArgument(call.arguments, "text")
       case Some(text) => Invoke(TextWrite(text))
       case None => RejectArgs)
    case _ => Unknown
  }

  /** A reply together with the pasteboard it leaves. */
  datatype Served = Served(reply: Reply, after: Contents)

  /**
    One dispatched operation. Reads and the change count never fail and
    leave the pasteboard as it was; a write leaves only its own item, or an
    empty pasteboard when AppKit refused it.
   */
  function Apply(c: Contents, op: Op, h: Host): (r: Served)
    ensures !op.ImageWrite? && !op.TextWrite? ==> r.after == c && r.reply.Success?
    ensures op.ImageWrite? ==> r.after == Written(Png, Blob(op.data), h.accepts) && r.reply == WriteReply(h.accepts)
    ensures op.TextWrite? ==> r.after == Written(PlainString, Text(op.text), h.accepts) && r.reply == WriteReply(h.accepts)
    ensures op == ImageRead ==> (r.reply == Success(Null) <==> ReadImage(c, h.tiffToPng).None?)
    ensures op == TextRead ==> (r.reply == Success(Null) <==> ReadText(c).None?)
    ensures op == GetChangeCount ==> r.reply == Success(IntValue(h.changeCount))
    ensures op == ImageRead && ReadImage(c, h.tiffToPng).Some? ==> r.reply == Success(DataValue(ReadImage(c, h.tiffToPng).value))
    ensures op == TextRead && ReadText(c).Some? ==> r.reply == Success(StringValue(ReadText(c).value))
  {
    match op
    case GetChangeCount => Served(Success(IntValue(h.changeCount)), c)
    case ImageRead =>
      (match ReadImage(c, h.tiffToPng)
       case Some(png) => Served(Success(DataValue(png)), c)
       case None => Served(Success(Null), c))
    case TextRead =>
      (match ReadText(c)
       case Some(text) => Served(Success(StringValue(text)), c)
       case None => Served(Success(Null), c))
    case ImageWrite(data) => Served(WriteReply(h.accepts), Written(Png, Blob(data), h.accepts))
    case TextWrite(text) => Served(WriteReply(h.accepts), Written(PlainString, Text(text), h.accepts))
  }

  /**
    `handle`: one method call against the pasteboard. A call the switch
    rejects or does not know leaves the pasteboard untouched; only a write
    changes it, and the only errors are INVALID_ARGS and WRITE_FAILED.
   */
  function Serve(c: Contents, call: MethodCall, h: Host): (r: Served)
    ensures Dispatch(call).RejectArgs? ==> r == Served(Failure(InvalidArgs), c)
    ensures Dispatch(call).Unknown? ==> r == Served(NotImplemented, c)
    ensures r.after != c ==> call.name in {"writeImage", "writeText"}
    ensures r.reply.Failure? ==> r.reply.code in {InvalidArgs, WriteFailed}
  {
    match Dispatch(call)
    case Invoke(op) => Apply(c, op, h)
    case RejectArgs => Served(RouteReply(Dispatch(call)), c)
    case Unknown => Served(RouteReply(Dispatch(call)), c)
  }

  method Handle(pb: Pasteboard, call: MethodCall, h: Host) returns (r: Reply)
    modifies pb
    ensures Served(r, pb.contents) == Serve(old(pb.contents), call, h)
  {
    var route := Dispatch(call);
    match route {
      case Invoke(op) =>
        match op {
          case GetChangeCount => r := Success(IntValue(h.changeCount));
          case ImageRead =>
            var image := ReadImage(pb.contents, h.tiffToPng);
            r := if image.Some? then Success(DataValue(image.value)) else Success(Null);
          case TextRead =>
            var text := ReadText(pb.contents);
            r := if text.Some? then Success(StringValue(text.value)) else Success(Null);
          case ImageWrite(data) => r := WriteImage(pb, data, h.accepts);
          case TextWrite(text) => r := WriteText(pb, text, h.accepts);
        }
      case RejectArgs => r := Failure(InvalidArgs);
      case Unknown => r := NotImplemented;
    }
  }

  /** PNG data wins whatever TIFF data is present and whatever the conversion would give. */
  lemma PngPreferred(c: Contents, tiff: Item, f: Bytes -> Option<Bytes>, g: Bytes -> Option<Bytes>)
    requires DataFor(c, Png).Some?
    ensures ReadImage(c, f) == ReadImage(c[Tiff := tiff], g) == DataFor(c, Png)
  {
  }

  /** An empty pasteboard, or one holding only other types, gives no image and no text, and no error. */
  lemma ForeignContentsReadAbsent(c: Contents, h: Host)
    requires forall t :: t in c ==> t.Other?
    ensures Apply(c, ImageRead, h) == Served(Success(Null), c)
    ensures Apply(c, TextRead, h) == Served(Success(Null), c)
  {
  }

  /** After a successful `writeText(t)`, `readText()` answers `t` and `readImage()` nothing. */
  lemma WriteTextThenRead(c: Contents, text: string, h: Host, h2: Host)
    requires h.accepts
    ensures var after := Apply(c, TextWrite(text), h).after;
      && Apply(after, TextRead, h2).reply == Success(StringValue(text))
      && Apply(after, ImageRead, h2).reply == Success(Null)
  {
  }

  /** After a successful `writeImage(d)`, `readImage()` answers `d` unconverted and `readText()` nothing. */
  lemma WriteImageThenRead(c: Contents, data: Bytes, h: Host, h2: Host)
    requires h.accepts
    ensures var after := Apply(c, ImageWrite(data), h).after;
      && Apply(after, ImageRead, h2).reply == Success(DataValue(data))
      && Apply(after, TextRead, h2).reply == Success(Null)
  {
  }

  /** A refused write leaves the pasteboard cleared: both reads answer nothing. */
  lemma RefusedWriteClears(c: Contents, op: Op, h: Host, h2: Host)
    requires op.ImageWrite? || op.TextWrite?
    requires !h.accepts
    ensures Apply(c, op, h) == Served(Failure(WriteFailed), map[])
    ensures Apply(map[], ImageRead, h2).reply == Success(Null)
    ensures Apply(map[], TextRead, h2).reply == Success(Null)
  {
  }
}
