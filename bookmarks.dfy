/**
  The security-scoped bookmark plugin of macos/Runner/BookmarkPlugin.swift.

  The plugin's one piece of state is `accessedURLs`, a dictionary from a
  resolved folder path to the URL whose security-scoped access was started.
  The Foundation calls it makes (minting bookmark data, base64, resolving
  bookmark data, starting access) are opaque: each request is given a `Host`
  holding the answers those calls give at that moment.

  Alongside the real dictionary the model keeps, as ghost state, the
  multiset `starts` of paths whose OS-level access was started and not yet
  stopped. The dictionary keeps a path's entry only while at least one such
  start is outstanding; the code does not keep one start per entry, because a
  second successful resolve of a tracked path replaces its URL without
  stopping the old one.
 */
module Bookmarks {
  import opened Channel

  type Path = string

  /**
    A resolved file URL. `id` stands for everything about the URL value other
    than its path (the security scope it carries), so that two resolutions of
    one path can give different URLs.
   */
  datatype Url = Url(path: Path, id: nat)

  /** What `URL(resolvingBookmarkData:options:relativeTo:bookmarkDataIsStale:)` gives. */
  datatype Resolution = Resolved(url: Url, isStale: bool) | Threw

  /** The answers of the foreign calls one request may make. */
  datatype Host = Host(
    bookmarkData: Path -> Option<Bytes>,  // URL(fileURLWithPath:).bookmarkData(options: .withSecurityScope, ...); None when it throws
    base64Encode: Bytes -> string,        // Data.base64EncodedString()
    base64Decode: string -> Option<Bytes>,// Data(base64Encoded:)
    resolve: Bytes -> Resolution,         // URL(resolvingBookmarkData: ...)
    startAccessing: Url -> bool)          // URL.startAccessingSecurityScopedResource()

  /** The tracker's state: the `accessedURLs` dictionary and the outstanding starts. */
  datatype Tracker = Tracker(accessed: map<Path, Url>, starts: multiset<Path>)

  /** The tracker the plugin starts with: nothing accessed, nothing started. */
  const Empty := Tracker(map[], multiset{})

  /**
    The invariant the code keeps: every entry is keyed by its URL's path and
    holds at least one start that has not been stopped.
   */
  ghost predicate Tracked(t: Tracker)
  {
    forall p :: p in t.accessed ==> t.accessed[p].path == p && t.starts[p] >= 1
  }

  /** A reply together with the tracker it leaves. */
  datatype Outcome = Outcome(reply: Reply, after: Tracker)

  /** The operations `handle` dispatches to. */
  datatype Op =
    | SaveBookmark(path: Path)
    | ResolveBookmark(bookmarkData: string)
    | StopAccess(path: Path)
    | StopAllAccess

  /** Method names `handle` knows. */
  const Methods: set<string> := {"saveBookmark", "resolveBookmark", "stopAccess", "stopAllAccess"}

  /**
    `handle`'s switch on the method name: the three operations that take an
    argument need it as a String in an argument dictionary, `stopAllAccess`
    ignores its arguments, and any other name is not implemented.
   */
  function Dispatch(call: MethodCall): (r: Route<Op>)
    ensures r.Unknown? <==> call.name !in Methods
    ensures r.RejectArgs? <==>
      || (call.name in {"saveBookmark", "stopAccess"} && StringArgument(call.arguments, "path").None?)
      || (call.name == "resolveBookmark" && StringArgument(call.arguments, "bookmarkData").None?)
    ensures call.name == "stopAllAccess" ==> r == Invoke(StopAllAccess)
    ensures r.Invoke? && r.op.SaveBookmark? ==>
      call.name == "saveBookmark" && StringArgument(call.arguments, "path") == Some(r.op.path)
    ensures r.Invoke? && r.op.StopAccess? ==>
      call.name == "stopAccess" && StringArgument(call.arguments, "path") == Some(r.op.path)
    ensures r.Invoke? && r.op.ResolveBookmark? ==>
      call.name == "resolveBookmark" && StringArgument(call.arguments, "bookmarkData") == Some(r.op.bookmarkData)
    ensures r.Invoke? && r.op.StopAllAccess? ==> call.name == "stopAllAccess"
    ensures call.name == "saveBookmark" && StringArgument(call.arguments, "path").Some? ==>
      r == Invoke(SaveBookmark(StringArgument(call.arguments, "path").value))
    ensures call.name == "stopAccess" && StringArgument(call.arguments, "path").Some? ==>
      r == Invoke(StopAccess(StringArgument(call.arguments, "path").value))
    ensures call.name == "resolveBookmark" && StringArgument(call.arguments, "bookmarkData").Some? ==>
      r == Invoke(ResolveBookmark(StringArgument(call.arguments, "bookmarkData").value))
  {
    match call.name
    case "saveBookmark" =>
      (match StringArgument(call.arguments, "path")
       case Some(path) => Invoke(SaveBookmark(path))
       case None => RejectArgs)
    case "resolveBookmark" =>
      (match StringArgument(call.arguments, "bookmarkData")
       case Some(data) => Invoke(ResolveBookmark(data))
       case None => RejectArgs)
    case "stopAccess" =>
      (match StringArgument(call.arguments, "path")
       case Some(path) => Invoke(StopAccess(path))
       case None => RejectArgs)
    case "stopAllAccess" => Invoke(StopAllAccess)
    case _ => Unknown
  }

  /**
    `saveBookmark`: mint bookmark data for the path and answer it base64
    encoded, or BOOKMARK_FAILED when minting throws. The tracker is never
    touched.
   */
  function Save(t: Tracker, path: Path, h: Host): (r: Outcome)
    ensures r.after == t
    ensures r.reply.Failure? <==> h.bookmarkData(path).None?
    ensures r.reply.Failure? ==> r.reply.code == BookmarkFailed
    ensures r.reply.Success? ==> r.reply.value == StringValue(h.base64Encode(h.bookmarkData(path).value))
    ensures !r.reply.NotImplemented?
  {
    match h.bookmarkData(path)
    case None => Outcome(Failure(BookmarkFailed), t)
    case Some(data) => Outcome(Success(StringValue(h.base64Encode(data))), t)
  }

  /**
    `resolveBookmark`: decode the token, resolve it, and only when the
    resolution is not stale and access starts, record the URL under its path
    (replacing any URL already recorded there, without stopping it).
   */
  function Resolve(t: Tracker, token: string, h: Host): (r: Outcome)
    ensures h.base64Decode(token).None? ==> r == Outcome(Failure(InvalidBookmark), t)
    ensures r.reply.Success? || r.reply.Failure?
    ensures r.reply.Failure? ==> r.after == t && r.reply.code in {InvalidBookmark, ResolveFailed, AccessDenied}
    ensures r.reply.Success? ==> r.reply.value.PathInfo?
    ensures r.reply.Success? && r.reply.value.isStale ==> r.after == t
    ensures r.reply.Success? && !r.reply.value.isStale ==>
      var p := r.reply.value.path;
      && p in r.after.accessed && r.after.accessed[p].path == p
      && r.after.accessed.Keys == t.accessed.Keys + {p}
      && (forall q :: q in t.accessed && q != p ==> r.after.accessed[q] == t.accessed[q])
      && r.after.starts == t.starts + multiset{p}
    ensures r.reply.Success? ==>
      && h.base64Decode(token).Some? && h.resolve(h.base64Decode(token).value).Resolved?
      && var res := h.resolve(h.base64Decode(token).value);
      && r.reply.value == PathInfo(res.url.path, res.isStale)
      && (!res.isStale ==> h.startAccessing(res.url) && r.after.accessed == t.accessed[res.url.path := res.url])
    ensures Tracked(t) ==> Tracked(r.after)
  {
    match h.base64Decode(token)
    case None => Outcome(Failure(InvalidBookmark), t)
    case Some(data) =>
      match h.resolve(data)
      case Threw => Outcome(Failure(ResolveFailed), t)
      case Resolved(url, isStale) =>
        if isStale then
          Outcome(Success(PathInfo(url.path, true)), t)
        else if h.startAccessing(url) then
          Outcome(Success(PathInfo(url.path, false)),
                  Tracker(t.accessed[url.path := url], t.starts + multiset{url.path}))
        else
          Outcome(Failure(AccessDenied), t)
  }

  /**
    `stopAccess`: remove the path's entry and stop its URL if there was one;
    always answers nil. On a tracked state exactly that path loses exactly one
    outstanding start, and only when it had an entry.
   */
  function Stop(t: Tracker, path: Path): (r: Outcome)
    ensures r.reply == Success(Null)
    ensures r.after.accessed == t.accessed - {path}
    ensures path !in t.accessed ==> r.after == t
    ensures Tracked(t) ==> forall q :: r.after.starts[q] + (if q == path && path in t.accessed then 1 else 0) == t.starts[q]
    ensures Tracked(t) ==> Tracked(r.after)
  {
    if path in t.accessed then
      Outcome(Success(Null), Tracker(t.accessed - {path}, t.starts - multiset{t.accessed[path].path}))
    else
      Outcome(Success(Null), t)
  }

  /**
    `stopAllAccess`: stop every recorded URL once and empty the dictionary;
    always answers nil. Each path loses one outstanding start if it had an
    entry, and no other path is stopped.
   */
  function StopAll(t: Tracker): (r: Outcome)
    ensures r.reply == Success(Null)
    ensures r.after.accessed == map[]
    ensures Tracked(t) ==> forall q :: r.after.starts[q] + (if q in t.accessed then 1 else 0) == t.starts[q]
    ensures Tracked(r.after)
  {
    Outcome(Success(Null), Tracker(map[], t.starts - multiset(t.accessed.Keys)))
  }

  /** One dispatched operation. */
  function Apply(t: Tracker, op: Op, h: Host): (r: Outcome)
    ensures Tracked(t) ==> Tracked(r.after)
    ensures op.SaveBookmark? ==> r.after == t
  {
    match op
    case SaveBookmark(path) => Save(t, path, h)
    case ResolveBookmark(token) => Resolve(t, token, h)
    case StopAccess(path) => Stop(t, path)
    case StopAllAccess => StopAll(t)
  }

  /**
    `handle`: one method call against the tracker. A call the switch rejects
    or does not know leaves the tracker as it was.
   */
  function Step(t: Tracker, call: MethodCall, h: Host): (r: Outcome)
    ensures Dispatch(call).RejectArgs? ==> r == Outcome(Failure(InvalidArgs), t)
    ensures Dispatch(call).Unknown? ==> r == Outcome(NotImplemented, t)
    ensures Tracked(t) ==> Tracked(r.after)
  {
    match Dispatch(call)
    case Invoke(op) => Apply(t, op, h)
    case RejectArgs => Outcome(RouteReply(Dispatch(call)), t)
    case Unknown => Outcome(RouteReply(Dispatch(call)), t)
  }

  /**
    The plugin object. `accessedUrls` is the Swift `accessedURLs` dictionary;
    `starts` is ghost bookkeeping of the OS starts that have not been stopped.
   */
  class BookmarkPlugin {
    var accessedUrls: map<Path, Url>
    ghost var starts: multiset<Path>

    ghost function State(): Tracker
      reads this
    {
      Tracker(accessedUrls, starts)
    }

    ghost predicate Valid()
      reads this
    {
      Tracked(State())
    }

    constructor ()
      ensures Valid()
      ensures State() == Empty
    {
      accessedUrls := map[];
      starts := multiset{};
    }

    /** Mints a token; changes nothing. */
    method SaveBookmark(path: Path, h: Host) returns (r: Reply)
      ensures r == Save(State(), path, h).reply
    {
      var minted := h.bookmarkData(path);
      match minted {
        case None => r := Failure(BookmarkFailed);
        case Some(data) =>
          var encoded := h.base64Encode(data);
          r := Success(StringValue(encoded));
      }
    }

    method ResolveBookmark(bookmarkData: string, h: Host) returns (r: Reply)
      requires Valid()
      modifies this
      ensures Valid()
      ensures Outcome(r, State()) == Resolve(old(State()), bookmarkData, h)
    {
      var decoded := h.base64Decode(bookmarkData);
      if decoded.None? {
        return Failure(InvalidBookmark);
      }
      var resolution := h.resolve(decoded.value);
      if resolution.Threw? {
        return Failure(ResolveFailed);
      }
      var url := resolution.url;
      if resolution.isStale {
        return Success(PathInfo(url.path, true));
      }
      var success := h.startAccessing(url);
      if success {
        starts := starts + multiset{url.path};
        accessedUrls := accessedUrls[url.path := url];
        r := Success(PathInfo(url.path, false));
      } else {
        r := Failure(AccessDenied);
      }
    }

    method StopAccess(path: Path) returns (r: Reply)
      requires Valid()
      modifies this
      ensures Valid()
      ensures Outcome(r, State()) == Stop(old(State()), path)
    {
      if path in accessedUrls {
        var url := accessedUrls[path];
        accessedUrls := accessedUrls - {path};
        starts := starts - multiset{url.path};  // url.stopAccessingSecurityScopedResource()
      }
      r := Success(Null);
    }

    method StopAllAccess() returns (r: Reply)
      requires Valid()
      modifies this
      ensures Valid()
      ensures Outcome(r, State()) == StopAll(old(State()))
    {
      ghost var left := StopEach(accessedUrls, starts);
      starts := left;
      accessedUrls := map[];
      r := Success(Null);
    }

    method Handle(call: MethodCall, h: Host) returns (r: Reply)
      requires Valid()
      modifies this
      ensures Valid()
      ensures Outcome(r, State()) == Step(old(State()), call, h)
    {
      var route := Dispatch(call);
      match route {
        case Invoke(op) =>
          match op {
            case SaveBookmark(path) => r := SaveBookmark(path, h);
            case ResolveBookmark(token) => r := ResolveBookmark(token, h);
            case StopAccess(path) => r := StopAccess(path);
            case StopAllAccess => r := StopAllAccess();
          }
        case RejectArgs => r := Failure(InvalidArgs);
        case Unknown => r := NotImplemented;
      }
    }
  }

  /**
    The loop of `stopAllAccess`: calls stop on each recorded URL once, in
    whatever order the dictionary is walked. `left` is what remains of the
    outstanding starts.
   */
  method StopEach(entries: map<Path, Url>, ghost starts: multiset<Path>) returns (ghost left: multiset<Path>)
    requires forall p :: p in entries ==> entries[p].path == p
    ensures left == starts - multiset(entries.Keys)
  {
    var pending := entries.Keys;
    ghost var done: set<Path> := {};
    left := starts;
    while pending != {}
      invariant done <= entries.Keys && pending == entries.Keys - done
      invariant left == starts - multiset(done)
      decreases pending
    {
      var path :| path in pending;
      var url := entries[path];
      left := left - multiset{url.path};  // url.stopAccessingSecurityScopedResource()
      StopOneMore(starts, done, path);
      done := done + {path};
      pending := pending - {path};
    }
    assert done == entries.Keys;
  }

  /** Stopping one more path of a set of stopped paths. */
  lemma StopOneMore(s: multiset<Path>, done: set<Path>, p: Path)
    requires p !in done
    ensures s - multiset(done) - multiset{p} == s - multiset(done + {p})
  {
  }
}
