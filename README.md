# clip-pix macOS plugins: security-scoped bookmarks and the clipboard bridge

This project models the two macOS platform-channel plugins of clip-pix. Both are written in Dafny and proved.

- **BookmarkPlugin** turns a folder path into a durable security-scoped bookmark token (base64 text). Later, often after a restart, it resolves such a token back to a path and starts OS-level access to it. It records each started URL in its `accessedURLs` dictionary under the URL's path. `stopAccess` and `stopAllAccess` remove entries and stop their URLs. A second started resolve of a path that is already recorded replaces the entry, and the replaced URL is never stopped.
- **ClipboardPlugin** reads images (PNG preferred, TIFF converted to PNG as a fallback) and text from the general pasteboard. It writes an image or a text by clearing the pasteboard and then setting one item.

Files:

- `channel.dfy` (module `Channel`): the shapes of a method call and its reply, and the error codes (`INVALID_ARGS`, `BOOKMARK_FAILED`, `INVALID_BOOKMARK`, `RESOLVE_FAILED`, `ACCESS_DENIED`, `WRITE_FAILED`).
- `bookmarks.dfy` (module `Bookmarks`): the tracker state and one specification function per operation. It also holds the class `BookmarkPlugin`. The class has the real `accessedUrls` map and a ghost multiset `starts` of OS starts not yet stopped. Its methods are proved equal to the specification functions. `StopAllAccess` stops the entries with a loop over them (`StopEach`).
- `bookmark_properties.dfy` (module `BookmarkProperties`): lemmas that relate several calls, runs of many requests, and the duplicate-start policy.
- `clipboard.dfy` (module `Clipboard`): the `Pasteboard` class. The reads are functions over its contents. The writes are methods that call `ClearContents` and then `SetData`/`SetString`. It also holds the dispatcher and the read-after-write lemmas.

The foreign calls are given to each request as a `Host` value of answers. For bookmarks these are bookmark minting, base64 encode and decode, bookmark resolution, and the start call. For the clipboard they are the change count, the TIFF→PNG conversion, and whether AppKit accepts a set. A statement that an operation "does not consult" a foreign call is proved as independence: the outcome stays the same when that answer is replaced by any other.

**Duplicate starts.** The comment on `accessedURLs` (BookmarkPlugin.swift:12) says its URLs need `stopAccessingSecurityScopedResource` on cleanup, which reads as one outstanding start per entry. The code does not keep that. A second successful resolve of a path that already has an entry overwrites the entry (BookmarkPlugin.swift:116) without stopping the old URL. The model follows the code. The invariant it proves for every run is the weaker one: each entry has at least one outstanding start (`Tracked`). The exact pairing (`Paired`) is proved only for runs with no overwriting resolve (`RunKeepsPaired`, `CleanRunTeardownReleasesAll`). `DoubleResolveLeavesOneStart` shows the leak: after two resolves and a stop, no entry is left but one start is.

## Model

| member | source | states |
|---|---|---|
| Channel.StringArgument | macos/Runner/BookmarkPlugin.swift:27-28 | The String argument is found exactly when the arguments are a dictionary holding a String under the key, and it is that String. |
| Channel.TypedDataArgument | macos/Runner/ClipboardPlugin.swift:33-34 | The typed data argument is found exactly when the arguments are a dictionary holding typed data under the key, and it is those bytes. |
| Channel.RouteReply | macos/Runner/BookmarkPlugin.swift:29-55 | A rejected call answers INVALID_ARGS and an unknown one not-implemented, each in both directions. |
| Channel.CodesDistinct | macos/Runner/BookmarkPlugin.swift:31-130 | Two errors have the same code string exactly when they are the same error. |
| Bookmarks.Dispatch | macos/Runner/BookmarkPlugin.swift:24-56 | Unknown names route to not-implemented. `saveBookmark`/`stopAccess` without a String `path`, or `resolveBookmark` without a String `bookmarkData`, are rejected (both directions). `stopAllAccess` always runs, whatever its arguments. A well-formed call invokes the operation its name names, with exactly the argument found, and each operation is reached only from its own name. |
| Bookmarks.Save | macos/Runner/BookmarkPlugin.swift:62-80 | The tracker is unchanged on both paths. The reply is BOOKMARK_FAILED exactly when minting throws. Otherwise it is the base64 encoding of the minted data. |
| Bookmarks.Resolve | macos/Runner/BookmarkPlugin.swift:84-135 | A decode failure gives INVALID_BOOKMARK with no change. Every error (INVALID_BOOKMARK, RESOLVE_FAILED, ACCESS_DENIED) leaves the tracker unchanged. A stale answer leaves it unchanged. A success answers the resolved URL's path and staleness. A non-stale success happens only after a granted start, records the resolver's URL under its path, adds exactly one start for it, and keeps every other entry. The invariant is preserved. |
| Bookmarks.Stop | macos/Runner/BookmarkPlugin.swift:138-143 | Always answers nil. Removes exactly key `p`. On a tracked state, `p` loses exactly one start if and only if it had an entry, and no other path changes. An absent path is a no-op. |
| Bookmarks.StopAll | macos/Runner/BookmarkPlugin.swift:146-152 | Always answers nil and empties the dictionary. On a tracked state, each path with an entry loses exactly one start and every other count stays. |
| Bookmarks.Apply | macos/Runner/BookmarkPlugin.swift:24-56 | Every dispatched operation preserves the invariant, and saving never changes the tracker. |
| Bookmarks.Step | macos/Runner/BookmarkPlugin.swift:24-56 | A rejected call answers INVALID_ARGS and an unknown one not-implemented. Neither changes the tracker. Every call preserves the invariant. |
| Bookmarks.BookmarkPlugin.constructor | macos/Runner/BookmarkPlugin.swift:13 | The plugin starts with an empty dictionary and no outstanding starts. |
| Bookmarks.BookmarkPlugin.SaveBookmark | macos/Runner/BookmarkPlugin.swift:62-80 | Changes no field and answers the reply of `Save`. |
| Bookmarks.BookmarkPlugin.ResolveBookmark | macos/Runner/BookmarkPlugin.swift:84-135 | The reply and the new dictionary and starts are those of `Resolve` on the old state. The invariant is kept. |
| Bookmarks.BookmarkPlugin.StopAccess | macos/Runner/BookmarkPlugin.swift:138-143 | The reply and the new state are those of `Stop`. |
| Bookmarks.BookmarkPlugin.StopAllAccess | macos/Runner/BookmarkPlugin.swift:146-152 | Stops every entry through `StopEach`, then clears the dictionary. Reply and state are those of `StopAll`. |
| Bookmarks.StopEach | macos/Runner/BookmarkPlugin.swift:147-149 | The `for` loop stops each entry's URL exactly once, in any order. Each entry's path loses one outstanding start. |
| Bookmarks.BookmarkPlugin.Handle | macos/Runner/BookmarkPlugin.swift:24-56 | The reply and the new state are those of `Step`. |
| BookmarkProperties.InvalidTokenSkipsResolver | macos/Runner/BookmarkPlugin.swift:85-92 | An undecodable token answers INVALID_BOOKMARK with no change, whatever the resolver and the start call would answer. |
| BookmarkProperties.StaleSkipsStart | macos/Runner/BookmarkPlugin.swift:103-111 | A stale resolution answers `{path, isStale: true}`. The tracker stays unchanged, an existing entry for that path included. The outcome does not depend on the start call. |
| BookmarkProperties.ThrowingResolverFails | macos/Runner/BookmarkPlugin.swift:128-134 | A resolver that throws is answered RESOLVE_FAILED with the tracker unchanged, whatever the start call would answer. |
| BookmarkProperties.RefusedStartDenied | macos/Runner/BookmarkPlugin.swift:113-127 | A fresh resolution whose start is refused is answered ACCESS_DENIED and records nothing. |
| BookmarkProperties.StartedResolveRecords | macos/Runner/BookmarkPlugin.swift:113-120 | A fresh resolution whose start succeeds answers `{url.path, isStale: false}`, records the resolver's URL under `url.path` and adds exactly one start for it. |
| BookmarkProperties.ResolveOverwritesWithoutStop | macos/Runner/BookmarkPlugin.swift:114-120 | A started resolve of an already tracked path replaces its URL. The entry count stays the same while the path's starts grow to at least two. |
| BookmarkProperties.DoubleResolveLeavesOneStart | macos/Runner/BookmarkPlugin.swift:114-143 | After two successful resolves of one path and a stop, the entry is gone but one start more than before is still outstanding. A second stop does nothing. |
| BookmarkProperties.SaveThenResolve | macos/Runner/BookmarkPlugin.swift:62-120 | Round trip: when base64 decode inverts encode and the path has not moved, resolving a saved token answers `{path, isStale: false}` and records exactly one new start for the path. |
| BookmarkProperties.StopIdempotent | macos/Runner/BookmarkPlugin.swift:138-143 | Stopping a path twice equals stopping it once. |
| BookmarkProperties.StopAllThenStop | macos/Runner/BookmarkPlugin.swift:138-152 | After `stopAllAccess` the dictionary is empty and any `stopAccess` is a no-op. |
| BookmarkProperties.RunKeepsTracked | macos/Runner/BookmarkPlugin.swift:24-152 | Any sequence of requests keeps every entry keyed by its URL's path and backed by at least one outstanding start. |
| BookmarkProperties.ResolveKeepsPaired | macos/Runner/BookmarkPlugin.swift:84-135 | A resolve that does not land on a tracked path keeps exactly one start per entry. |
| BookmarkProperties.StopKeepsPaired | macos/Runner/BookmarkPlugin.swift:138-143 | `stopAccess` keeps exactly one start per entry. |
| BookmarkProperties.StepKeepsPaired | macos/Runner/BookmarkPlugin.swift:24-152 | Every request other than an overwriting resolve keeps exactly one start per entry. |
| BookmarkProperties.OverwriteBreaksPairing | macos/Runner/BookmarkPlugin.swift:116 | An overwriting resolve always breaks the one-start-per-entry pairing. |
| BookmarkProperties.RunKeepsPaired | macos/Runner/BookmarkPlugin.swift:24-152 | A run without overwriting resolves keeps exactly one start per entry. |
| BookmarkProperties.CleanRunTeardownReleasesAll | macos/Runner/BookmarkPlugin.swift:146-152 | From a fresh plugin, after any run without overwriting resolves, `stopAllAccess` leaves no start outstanding. |
| Clipboard.Dispatch | macos/Runner/ClipboardPlugin.swift:21-51 | Unknown names route to not-implemented. `writeImage` without typed `data`, or `writeText` without a String `text`, are rejected (both directions). The reads and `getChangeCount` need no arguments. Each name reaches only its own operation, and a well-formed write invokes that write with exactly the argument found. |
| Clipboard.ReadImage | macos/Runner/ClipboardPlugin.swift:55-74 | PNG data is returned as it is whenever present. Only without PNG is TIFF data converted. The result is absent exactly when there is no PNG and either no TIFF or a failed conversion. |
| Clipboard.ReadText | macos/Runner/ClipboardPlugin.swift:76-84 | The string item if present, else absent (both directions). |
| Clipboard.Written | macos/Runner/ClipboardPlugin.swift:88-110 | After clearing and one set, the pasteboard holds exactly the set item when it was accepted, and nothing when it was refused. |
| Clipboard.WriteReply | macos/Runner/ClipboardPlugin.swift:92-97 | A write answers true exactly when the set was accepted, and WRITE_FAILED otherwise. |
| Clipboard.WriteImage | macos/Runner/ClipboardPlugin.swift:88-98 | After clear-then-set, the pasteboard holds only the PNG item and the reply is true. A refused set leaves it empty and answers WRITE_FAILED. |
| Clipboard.WriteText | macos/Runner/ClipboardPlugin.swift:100-110 | After clear-then-set, the pasteboard holds only the string item and the reply is true. A refused set leaves it empty and answers WRITE_FAILED. |
| Clipboard.Apply | macos/Runner/ClipboardPlugin.swift:21-110 | Reads and the change count always succeed and change nothing. A write leaves only its own item, or nothing when refused. A read answers nil exactly when nothing was found, and otherwise the image data or the string found. The change count answers the supplied number. |
| Clipboard.Serve | macos/Runner/ClipboardPlugin.swift:21-51 | Rejected calls answer INVALID_ARGS and unknown ones not-implemented, both with the pasteboard untouched. Only the two writes change the pasteboard. The only error codes are INVALID_ARGS and WRITE_FAILED. |
| Clipboard.Handle | macos/Runner/ClipboardPlugin.swift:21-51 | The reply and the new pasteboard are those of `Serve`. |
| Clipboard.PngPreferred | macos/Runner/ClipboardPlugin.swift:58-62 | With PNG data present, the image read is that data, whatever the TIFF item and the conversion. |
| Clipboard.ForeignContentsReadAbsent | macos/Runner/ClipboardPlugin.swift:55-84 | An empty or foreign-only pasteboard reads as nil for both image and text, never as an error. |
| Clipboard.WriteTextThenRead | macos/Runner/ClipboardPlugin.swift:76-110 | After a successful `writeText(t)`, `readText` answers `t` and `readImage` nil. |
| Clipboard.WriteImageThenRead | macos/Runner/ClipboardPlugin.swift:55-98 | After a successful `writeImage(d)`, `readImage` answers `d` unconverted and `readText` nil. |
| Clipboard.RefusedWriteClears | macos/Runner/ClipboardPlugin.swift:88-110 | A refused write answers WRITE_FAILED and leaves an empty pasteboard, on which both reads answer nil. |

## Left out

- macos/Runner/AppDelegate.swift is not part of this model. It only handles the app lifecycle and plugin registration.
- `register(with:)`, the channel names and the `FlutterResult` callback are not modelled. Replies are return values.
- The content of bookmark data and the OS semantics of `bookmarkData`, `URL(resolvingBookmarkData:)` and `startAccessingSecurityScopedResource` are not modelled. They are Foundation calls, so they are answers supplied in `Host`.
- The base64 codec is abstract. The model has no concrete base64 of section 4 of RFC 4648. Encode and decode are supplied answers, and the round-trip lemma assumes decode inverts encode.
- `stopAccessingSecurityScopedResource` is modelled only by its effect on the ghost count of outstanding starts. What the OS does with an unbalanced stop is not modelled.
- A URL is its path plus an abstract `id`. Nothing else about Foundation's `URL` is modelled.
- Bookmarks.Resolve: dictionary keys are compared as exact character sequences. Swift compares `String` keys by canonical equivalence, so a precomposed and a decomposed spelling of one accented path share one entry in the code. The model keeps two entries for them, and a second resolve in the other spelling is not an overwrite there.
- Bookmarks.Stop: for the same reason, `stopAccess` with a path spelled in another Unicode normalization form than the recorded key removes and stops the entry in the code. The model leaves the entry and its start in place.
- Bookmarks.StopEach: the model does not fix the Swift dictionary's iteration order. The loop may stop entries in any order, and only the resulting state is specified.
- The TIFF→PNG conversion (`NSImage(data:)` at ClipboardPlugin.swift:66 and `pngData` at ClipboardPlugin.swift:115-123) is one supplied partial function, because it is image codec work inside AppKit.
- `getChangeCount` answers a supplied number. Its monotonicity is an AppKit guarantee that this code does not enforce. Nothing in the model increments it.
- Clipboard.StringFor: text written to `.string` as raw data by another app is not decoded as a string. Only an item set with `setString` reads as text.
- There is no concurrency or locking. The code has none, and calls arrive one at a time on the channel's thread.
- Error messages, including those built from `localizedDescription`, are left out. Only the error codes are modelled.
