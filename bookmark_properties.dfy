/**
  Properties of the bookmark tracker of module Bookmarks that relate several
  calls, or one call under different answers of the foreign calls.
 */
module BookmarkProperties {
  import opened Channel
  import opened Bookmarks

  /** A token whose base64 decoding fails is answered INVALID_BOOKMARK without consulting the resolver or the start call. */
  lemma InvalidTokenSkipsResolver(t: Tracker, token: string, h: Host, resolve: Bytes -> Resolution, start: Url -> bool)
    requires h.base64Decode(token).None?
    ensures Resolve(t, token, h) == Outcome(Failure(InvalidBookmark), t)
    ensures Resolve(t, token, h) == Resolve(t, token, h.(resolve := resolve, startAccessing := start))
  {
  }

  /**
    A stale resolution is answered with its path and `isStale: true`, leaves
    the tracker as it was (an entry already recorded for that path included),
    and does not depend on what the start call would answer.
   */
  lemma StaleSkipsStart(t: Tracker, token: string, h: Host, start: Url -> bool)
    requires h.base64Decode(token).Some?
    requires h.resolve(h.base64Decode(token).value).Resolved?
    requires h.resolve(h.base64Decode(token).value).isStale
    ensures var url := h.resolve(h.base64Decode(token).value).url;
      Resolve(t, token, h) == Outcome(Success(PathInfo(url.path, true)), t)
    ensures Resolve(t, token, h) == Resolve(t, token, h.(startAccessing := start))
  {
  }

  /** A resolver that throws is answered RESOLVE_FAILED, the tracker unchanged and the start call not consulted. */
  lemma ThrowingResolverFails(t: Tracker, token: string, h: Host, start: Url -> bool)
    requires h.base64Decode(token).Some?
    requires h.resolve(h.base64Decode(token).value).Threw?
    ensures Resolve(t, token, h) == Outcome(Failure(ResolveFailed), t)
    ensures Resolve(t, token, h) == Resolve(t, token, h.(startAccessing := start))
  {
  }

  /** A fresh resolution whose start is refused is answered ACCESS_DENIED and records nothing. */
  lemma RefusedStartDenied(t: Tracker, token: string, h: Host)
    requires h.base64Decode(token).Some?
    requires h.resolve(h.base64Decode(token).value).Resolved?
    requires !h.resolve(h.base64Decode(token).value).isStale
    requires !h.startAccessing(h.resolve(h.base64Decode(token).value).url)
    ensures Resolve(t, token, h) == Outcome(Failure(AccessDenied), t)
  {
  }

  /**
    A fresh resolution whose start succeeds is answered with the resolved
    URL's path, records that URL under its path and adds one start for it,
    whether or not the path was already tracked.
   */
  lemma StartedResolveRecords(t: Tracker, token: string, h: Host)
    requires h.base64Decode(token).Some?
    requires h.resolve(h.base64Decode(token).value).Resolved?
    requires !h.resolve(h.base64Decode(token).value).isStale
    requires h.startAccessing(h.resolve(h.base64Decode(token).value).url)
    ensures var url := h.resolve(h.base64Decode(token).value).url;
      Resolve(t, token, h)
        == Outcome(Success(PathInfo(url.path, false)), Tracker(t.accessed[url.path := url], t.starts + multiset{url.path}))
  {
  }

  /**
    A non-stale, started resolution of a path that already has an entry
    replaces the entry's URL and adds a start: the dictionary keeps one entry
    for the path while two or more starts for it are outstanding.
   */
  lemma ResolveOverwritesWithoutStop(t: Tracker, token: string, h: Host)
    requires Tracked(t)
    requires h.base64Decode(token).Some?
    requires h.resolve(h.base64Decode(token).value).Resolved?
    requires !h.resolve(h.base64Decode(token).value).isStale
    requires h.startAccessing(h.resolve(h.base64Decode(token).value).url)
    requires h.resolve(h.base64Decode(token).value).url.path in t.accessed
    ensures var url := h.resolve(h.base64Decode(token).value).url;
      var r := Resolve(t, token, h);
      && r.reply == Success(PathInfo(url.path, false))
      && r.after.accessed == t.accessed[url.path := url]
      && |r.after.accessed| == |t.accessed|
      && r.after.starts[url.path] == t.starts[url.path] + 1 >= 2
  {
  }

  /**
    The duplicate-start policy the code has: resolving one path twice with
    success and then stopping it removes its entry but leaves one start of it
    outstanding, and stopping it again stops nothing more.
   */
  lemma DoubleResolveLeavesOneStart(t: Tracker, token1: string, h1: Host, token2: string, h2: Host, p: Path)
    requires Tracked(t)
    requires Resolve(t, token1, h1).reply == Success(PathInfo(p, false))
    requires Resolve(Resolve(t, token1, h1).after, token2, h2).reply == Success(PathInfo(p, false))
    ensures var stopped := Stop(Resolve(Resolve(t, token1, h1).after, token2, h2).after, p).after;
      && p !in stopped.accessed
      && stopped.starts[p] == t.starts[p] + 1
      && Stop(stopped, p).after == stopped
  {
  }

  /** Round trip: a token saved for a path resolves back to that path and starts it, when the environment has not moved it. */
  lemma SaveThenResolve(t: Tracker, path: Path, h: Host, url: Url)
    requires h.bookmarkData(path).Some?
    requires h.base64Decode(h.base64Encode(h.bookmarkData(path).value)) == h.bookmarkData(path)
    requires h.resolve(h.bookmarkData(path).value) == Resolved(url, false) && url.path == path
    requires h.startAccessing(url)
    ensures Save(t, path, h).reply.Success? && Save(t, path, h).reply.value.StringValue?
    ensures var token := Save(t, path, h).reply.value.s;
      Resolve(Save(t, path, h).after, token, h)
        == Outcome(Success(PathInfo(path, false)), Tracker(t.accessed[path := url], t.starts + multiset{path}))
  {
  }

  /** Stopping a path twice is the same as stopping it once. */
  lemma StopIdempotent(t: Tracker, p: Path)
    ensures Stop(Stop(t, p).after, p) == Stop(t, p)
  {
  }

  /** After stopping everything, stopping any path is a no-op on the empty dictionary. */
  lemma StopAllThenStop(t: Tracker, p: Path)
    ensures StopAll(t).after.accessed == map[]
    ensures Stop(StopAll(t).after, p) == StopAll(t)
  {
  }

  /** One request: a method call and the answers its foreign calls give. */
  datatype Request = Request(call: MethodCall, host: Host)

  /** The tracker after `handle` has served the requests in order. */
  function Run(t: Tracker, requests: seq<Request>): Tracker
    decreases |requests|
  {
    if requests == [] then t
    else Run(Step(t, requests[0].call, requests[0].host).after, requests[1..])
  }

  /** Every sequence of requests keeps each recorded path backed by an outstanding start. */
  lemma {:induction false} RunKeepsTracked(t: Tracker, requests: seq<Request>)
    requires Tracked(t)
    ensures Tracked(Run(t, requests))
    decreases |requests|
  {
    if requests != [] {
      RunKeepsTracked(Step(t, requests[0].call, requests[0].host).after, requests[1..]);
    }
  }

  /** Exactly one outstanding start per entry, and none for a path without an entry. */
  ghost predicate Paired(t: Tracker)
  {
    Tracked(t) && t.starts == multiset(t.accessed.Keys)
  }

  /** The request is a resolve that starts access to a path that already has an entry. */
  ghost predicate Overwrites(t: Tracker, req: Request)
  {
    var route := Dispatch(req.call);
    && route.Invoke? && route.op.ResolveBookmark?
    && var r := Resolve(t, route.op.bookmarkData, req.host);
    && r.reply.Success? && !r.reply.value.isStale
    && r.reply.value.path in t.accessed
  }

  /** No request of the run resolves an already tracked path with success. */
  ghost predicate NoOverwrite(t: Tracker, requests: seq<Request>)
    decreases |requests|
  {
    requests != [] ==>
      && !Overwrites(t, requests[0])
      && NoOverwrite(Step(t, requests[0].call, requests[0].host).after, requests[1..])
  }

  /** A resolve that does not land on an already tracked path keeps one start per entry. */
  lemma ResolveKeepsPaired(t: Tracker, token: string, h: Host)
    requires Paired(t)
    requires var r := Resolve(t, token, h); r.reply.Success? && !r.reply.value.isStale ==> r.reply.value.path !in t.accessed
    ensures Paired(Resolve(t, token, h).after)
  {
  }

  /** `stopAccess` keeps one start per entry. */
  lemma StopKeepsPaired(t: Tracker, p: Path)
    requires Paired(t)
    ensures Paired(Stop(t, p).after)
  {
  }

  /** A request that does not overwrite keeps one start per entry. */
  lemma StepKeepsPaired(t: Tracker, req: Request)
    requires Paired(t) && !Overwrites(t, req)
    ensures Paired(Step(t, req.call, req.host).after)
  {
  }

  /** An overwriting request breaks the one-start-per-entry pairing. */
  lemma OverwriteBreaksPairing(t: Tracker, req: Request)
    requires Paired(t) && Overwrites(t, req)
    ensures !Paired(Step(t, req.call, req.host).after)
  {
  }

  /** A run without overwriting resolves keeps one start per entry. */
  lemma {:induction false} RunKeepsPaired(t: Tracker, requests: seq<Request>)
    requires Paired(t) && NoOverwrite(t, requests)
    ensures Paired(Run(t, requests))
    decreases |requests|
  {
    if requests != [] {
      StepKeepsPaired(t, requests[0]);
      RunKeepsPaired(Step(t, requests[0].call, requests[0].host).after, requests[1..]);
    }
  }

  /**
    Teardown: from a fresh plugin, after any run without overwriting
    resolves, `stopAllAccess` stops every start that was made.
   */
  lemma CleanRunTeardownReleasesAll(requests: seq<Request>)
    requires NoOverwrite(Empty, requests)
    ensures StopAll(Run(Empty, requests)).after == Empty
  {
    RunKeepsPaired(Empty, requests);
    var t := Run(Empty, requests);
    assert t.starts - multiset(t.accessed.Keys) == multiset{};
  }
}
