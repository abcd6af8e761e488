# Albums: fetch-and-decode pipeline, feed mapper and list controllers

A Dafny model of the core of the Albums app. The app downloads the iTunes "top albums" feed and turns it into `Album` values. It then downloads one PNG of artwork per album. Both downloads use the same three-stage shape:

- an **operation** (`NetworkJSONOperation`, `NetworkImageOperation`) asks a session for the payload and response, then hands both to a handler;
- a **handler** (`NetworkJSONHandler`, `NetworkImageHandler`) checks the MIME type, case-insensitively. It passes payload and response to the status-code gate `NetworkDataHandler`, then decodes what the gate returns. The JSON pipeline decodes with `JSONSerialization`; the image pipeline decodes with `NetworkImageSerialization`, which makes an image source and then the image at index 0;
- every collaborator error becomes the stage's own `Error`: a `code` plus the collaborator's original error as `underlying`. A stage's own refusals carry no `underlying`: `mimeTypeError` in the handlers, and `imageSourceError` and `imageError` in the image decoder. A MIME failure therefore reaches the caller as `jsonHandlerError(underlying: mimeTypeError)`: two layers, not one.

On top of the pipelines sit:

- `Albums(_:)`, which walks `feed.entry` and keeps the entries that have all four strings;
- `AlbumsListModel.requestAlbums()`, which replaces the held list on success;
- `AlbumsListRowModel.requestImage()`, which stores the artwork on success.

Both controllers leave their state alone on failure and rethrow the operation's error unchanged.

How the Swift code is rendered:

- Every collaborator is a function parameter whose outcome is an input: the session, the data handler, the JSON parser, the two image-source calls, `URL(string:)`, and the operations the controllers call.
- Each pipeline stage returns `Traced(result, calls)`. `calls` is the ordered list of collaborator calls the stage made, with their arguments. This makes "the parser is never called" and "the data handler receives the original response" statable.
- Swift's `throws` becomes `Result`. The existential `Swift.Error` becomes one `Error` datatype: one constructor per error struct, plus `Foreign(id)` for an error raised outside the model.
- `Albums(_:)` is a method with a loop, proved equal to the specification `MapFeed`. `MapFeed` is `Collect` over the per-entry outcomes `Extract`.
- The unchecked subscript `[2]` on `im:image` is the explicit outcome `IndexOutOfRange`. It makes the mapping `Crashed` and the controller request `Trapped`.
- The controllers are classes whose `requestAlbums`/`requestImage` change their one field.
- `Pipelines` composes the stages the way the app wires them, and states every outcome of a whole fetch.

Two behaviours of the code are easy to misread:

- An entry whose artist and name labels are strings, and whose `im:image` is an array of dictionaries with fewer than three elements, is not skipped: the `[2]` subscript traps. If any element of `im:image` is not a dictionary, the cast fails and the entry is skipped.
- The status-code gate refuses a response with no status code (a non-HTTP response). Its tests show this; it does not skip the check.

## Model

| member | source | states |
|---|---|---|
| `Foundation.Lowercased` | Albums/NetworkJSONHandler.swift:53 | `lowercased()` of a MIME type: the result is all lower case and equals the input up to letter case |
| `Foundation.LowercasedMatchesIgnoringCase` | Albums/NetworkJSONHandler.swift:52-54 | comparing `lowercased()` with an all-lower-case constant is exactly case-insensitive equality, both directions |
| `Foundation.HasMimeType` | Albums/NetworkImageHandler.swift:49-51 | the handlers' MIME guard: against an all-lower-case expected type it passes iff a MIME type is present and equals the expected one up to letter case |
| `Errors.WrapKeepsRoot` | Albums/NetworkJSONOperation.swift:80-97 | building a stage error around a cause adds exactly one level to the `underlying` chain and keeps its root cause |
| `NetworkDataHandler.DataWith` | AlbumsTests/NetworkDataHandlerTests.swift:21-98 | succeeds iff the response has a status code in 200...299, then returns the payload unchanged; otherwise fails with `statusCodeError` and no underlying error |
| `NetworkDataHandler.RefusesOutOfRangeCodes` | AlbumsTests/NetworkDataHandlerTests.swift:40-71 | every code in 100...199 or 300...599 gives `statusCodeError` with nil `underlying` |
| `NetworkDataHandler.RefusesResponseWithoutStatus` | AlbumsTests/NetworkDataHandlerTests.swift:21-36 | a response without a status code fails with `statusCodeError`; it is not waved through |
| `NetworkJSONHandler.JSON` | Albums/NetworkJSONHandler.swift:47-85 | wrong or missing MIME type: `mimeTypeError`, nil underlying, no collaborator called. Otherwise the data handler is called first with the original data and response. Its error becomes `dataHandlerError(underlying: it)` and the parser is not called. The parser receives the data handler's output with empty options. Its error becomes `jsonSerializationError(underlying: it)`; its value is returned unchanged. Every error is a `NetworkJSONHandler.Error` |
| `NetworkJSONHandler.SucceedsIffEveryStepSucceeds` | Albums/NetworkJSONHandler.swift:52-84 | the handler returns a value iff the MIME guard, the data handler and the parser all succeed, and that value is the parser's |
| `NetworkJSONHandler.AcceptsUpperCaseMimeType` | AlbumsTests/NetworkJSONHandlerTests.swift:119 | `TEXT/JAVASCRIPT` passes the JSON handler's guard |
| `NetworkJSONHandler.RefusesOtherMimeTypes` | AlbumsTests/NetworkJSONHandlerTests.swift:83-110 | `IMAGE/PNG` and a missing MIME type fail the JSON handler's guard |
| `NetworkJSONHandler.GuardIgnoresCase` | Albums/NetworkJSONHandler.swift:52-54 | for every response, the JSON handler's guard passes iff a MIME type is declared and equals `text/javascript` up to letter case |
| `NetworkImageHandler.Image` | Albums/NetworkImageHandler.swift:44-79 | as for the JSON handler, with `image/png`. The decoder receives the data handler's output. Failures are `mimeTypeError` (nil underlying), `dataHandlerError` or `imageSerializationError`, each wrapping the exact collaborator error. The decoder's image is returned unchanged |
| `NetworkImageHandler.SucceedsIffEveryStepSucceeds` | Albums/NetworkImageHandler.swift:49-78 | the handler returns an image iff guard, data handler and decoder all succeed, and that image is the decoder's |
| `NetworkImageHandler.AcceptsUpperCaseMimeType` | AlbumsTests/NetworkImageHandlerTests.swift:108 | `IMAGE/PNG` passes the image handler's guard |
| `NetworkImageHandler.RefusesOtherMimeTypes` | AlbumsTests/NetworkImageHandlerTests.swift:73-99 | `TEXT/JAVASCRIPT` and a missing MIME type fail the image handler's guard |
| `NetworkImageHandler.GuardIgnoresCase` | Albums/NetworkImageHandler.swift:49-51 | for every response, the image handler's guard passes iff a MIME type is declared and equals `image/png` up to letter case |
| `NetworkImageSerialization.Image` | Albums/NetworkImageSerialization.swift:37-56 | the source is made from the payload with nil options. No source: `imageSourceError` and no image call. Otherwise the image at index 0 of exactly that source, with nil options; no image gives `imageError`. The image is returned unchanged. No error carries an underlying error |
| `NetworkImageSerialization.ErrorsAreRoots` | Albums/NetworkImageSerialization.swift:43-54 | a decoding error has an empty `underlying` chain: it is its own root cause |
| `NetworkJSONOperation.JSON` | Albums/NetworkJSONOperation.swift:47-78 | the session is called first with exactly the request. Its failure gives `sessionError(underlying: it)` and the handler is never called. The handler receives exactly the session's data and response. Its error gives `jsonHandlerError(underlying: it)`, nested and not flattened; its value is returned unchanged. Every error has one of the two codes and a non-nil underlying |
| `NetworkJSONOperation.FailureWrapsOnce` | Albums/NetworkJSONOperation.swift:56-76 | a failure's `underlying` is exactly the failing collaborator's error, one level deeper, with the same root cause |
| `NetworkImageOperation.Image` | Albums/NetworkImageOperation.swift:47-78 | as for the JSON operation, with `imageHandlerError`; the handler's image is returned unchanged |
| `NetworkImageOperation.FailureWrapsOnce` | Albums/NetworkImageOperation.swift:56-76 | a failure's `underlying` is exactly the failing collaborator's error, one level deeper, with the same root cause |
| `AlbumsList.Entries` | Albums/AlbumsListModel.swift:47 | the entries are every element of `feed.entry`, in order, when the path exists and every element is a dictionary; otherwise there are none |
| `AlbumsList.Extract` | Albums/AlbumsListModel.swift:49-59 | one entry's four `if let` bindings; an entry traps only when its `im:image` is an array of dictionaries with fewer than three elements (what it keeps is stated by `ExtractKeptIff`) |
| `AlbumsList.Collect` | Albums/AlbumsListModel.swift:48-61 | each kept entry appends one album, so there are never more albums than entries |
| `AlbumsList.MapFeed` | Albums/AlbumsListModel.swift:45-64 | the specification of `Albums(_:)`: never more albums than entries, and a crash iff some entry of `feed.entry` reaches the `[2]` subscript with a short `im:image` |
| `AlbumsList.CollectAppend` | Albums/AlbumsListModel.swift:48-61 | mapping splits over concatenation: a skipped entry does not stop later entries, and later albums follow earlier ones |
| `AlbumsList.CollectCrashesIff` | Albums/AlbumsListModel.swift:51 | the mapping crashes iff some entry's `[2]` subscript on `im:image` is out of range |
| `AlbumsList.Albums` | Albums/AlbumsListModel.swift:45-64 | the loop that appends album by album computes exactly `MapFeed(json)` |
| `AlbumsList.ExtractKeptIff` | Albums/AlbumsListModel.swift:49-59 | an entry yields `album` iff it holds `im:artist.label`, `im:name.label`, `im:image[2].label` (in an array of dictionaries) and `id.attributes.im:id` as that album's four strings |
| `AlbumsList.ExtractCrashesIff` | Albums/AlbumsListModel.swift:49-51 | an entry traps iff its artist and name labels are strings and `im:image` is an array of dictionaries with fewer than 3 elements |
| `AlbumsList.MissingEntriesMapToNothing` | Albums/AlbumsListModel.swift:45-63 | a non-object input, a missing or non-object `feed`, or an `entry` that is not an array whose every element is a dictionary gives the empty list, not a failure |
| `AlbumsList.CollectPreservesOrder` | Albums/AlbumsListModel.swift:48-60 | the k-th album is the album of the k-th kept entry. Kept positions strictly increase, and every other entry was skipped |
| `AlbumsList.KeptIndicesIncrease` | Albums/AlbumsListModel.swift:48 | the entries that yield albums are visited once each, front to back: their positions are in range and strictly increasing |
| `AlbumsList.KeptIndicesMatchAlbums` | Albums/AlbumsListModel.swift:48-60 | there is one album per kept entry, and the k-th album is the one built from the k-th kept entry |
| `AlbumsList.UnkeptAreSkipped` | Albums/AlbumsListModel.swift:49-60 | when the mapping does not trap, every entry that yields no album failed one of the four `if let` bindings |
| `AlbumsList.MapFeedPreservesOrder` | Albums/AlbumsListModel.swift:47-60 | the same, for the entries of `feed.entry`: every album equals the four fields of its source entry, in entry order |
| `AlbumsList.FeedOfRoundTrip` | Albums/AlbumsListModel.swift:47-59 | mapping the feed document built from any album list gives back exactly that list |
| `AlbumsList.SingleEntryFeed` | Albums/AlbumsListModel.swift:47-59 | the one-entry "Rubber Soul" feed maps to `Album(id: "1", artist: "Beatles", name: "Rubber Soul", image: "http://x/rs.jpg")` |
| `AlbumsList.MiddleEntrySkipped` | Albums/AlbumsListModel.swift:48-61 | of three entries where the second lacks `im:name`, the first and third give the two albums, in that order |
| `AlbumsList.AlbumsListModel.constructor` | Albums/AlbumsListModel.swift:41-42 | `albums` starts empty |
| `AlbumsList.AlbumsListModel.RequestAlbums` | Albums/AlbumsListModel.swift:66-73 | requests exactly the fixed feed URL when `URL(string:)` accepts it; otherwise does nothing. Success replaces `albums` with `MapFeed(json)`. Failure rethrows the operation's own error and keeps `albums`. A crashing entry traps |
| `AlbumsListRow.AlbumsListRowModel.constructor` | Albums/AlbumsListRowModel.swift:26-34 | the row holds the given album, and `image` starts absent |
| `AlbumsListRow.AlbumsListRowModel.Artist` | Albums/AlbumsListRowModel.swift:36-40 | the row's artist is its album's; the album is a constant, so this never changes |
| `AlbumsListRow.AlbumsListRowModel.Name` | Albums/AlbumsListRowModel.swift:42-46 | the row's name is its album's; the album is a constant, so this never changes |
| `AlbumsListRow.AlbumsListRowModel.RequestImage` | Albums/AlbumsListRowModel.swift:48-55 | requests exactly `album.image` when it parses as a URL; otherwise no request, no error, `image` unchanged. Success stores the operation's image. Failure rethrows the operation's own error and keeps `image` |
| `AlbumsListRow.AccessorsOutliveRequests` | Albums/AlbumsListRowModel.swift:29-46 | a row built from an album reports that album's artist and name even after an image request, however the request ends |
| `Pipelines.FeedFetch` | Albums/AlbumsListModel.swift:22 | the feed fetch the list model is wired to: the session is asked first for exactly the request; a value is only ever the parse of the session's payload; every failure is a `NetworkJSONOperation.Error` with a cause |
| `Pipelines.ImageFetch` | Albums/AlbumsListRowModel.swift:22 | the artwork fetch a row is wired to: the session is asked first for exactly the request; an image is only ever frame 0 of a source made from the session's payload; every failure is a `NetworkImageOperation.Error` with a cause |
| `Pipelines.FeedFetchOutcomes` | Albums/NetworkJSONOperation.swift:47-77 | every outcome of the wired feed fetch: session error wrapped once. MIME error `jsonHandlerError(mimeTypeError)`. Status error `jsonHandlerError(dataHandlerError(statusCodeError))`. Parse error `jsonHandlerError(jsonSerializationError(e))`. Otherwise the parsed value |
| `Pipelines.ImageFetchOutcomes` | Albums/NetworkImageOperation.swift:47-77 | every outcome of the wired image fetch, including `imageHandlerError(imageSerializationError(imageSourceError))` and `...(imageError)` three layers deep, and success with frame 0 of the source |
| `Pipelines.FeedFetchRootCause` | Albums/NetworkJSONOperation.swift:56-76 | a failed feed fetch's root cause is one of: the session's root cause, the parser's root cause, the MIME error, or the status-code error |

## Left out

- Transport: `NetworkSession`, `URLSession` and the network. Each awaited session call is one step whose outcome is a parameter.
- Concurrency: `async`/`await`, `@MainActor` isolation, and re-entrancy across the suspension in `requestAlbums`/`requestImage`.
- Combine publication (`@Published`, `objectWillChange`). The model states the new field values, not the notifications.
- `JSONSerialization`, ImageIO (`NetworkImageSource`) and `URL(string:)` are external libraries. They are parameters, and nothing is assumed about what they return.
- `NetworkDataHandler.swift` is not part of this model. `NetworkDataHandler.DataWith` is the contract its tests fix. Codes the tests do not exercise (below 100, 600 and above) are treated as refused, like every code outside 200...299.
- `Foundation.Lowercased`: models only ASCII `A`-`Z` lower-casing, not Swift's full Unicode case mapping.
- `Foundation.LowercasedMatchesIgnoringCase`: models only ASCII `A`-`Z` lower-casing. Swift's `lowercased()` is full Unicode case mapping, which the MIME types compared here never need.
- Object identity (`XCTAssertIdentical`) is value equality of errors, images and responses.
- `CFData` bridging and `Data` internals: a payload is a byte sequence.
- The `calls` lists are a modelling device. They record the collaborator calls the code makes; the Swift code keeps no such log.
- `AlbumsList.AlbumsListModel.RequestAlbums`: a trap ends the program. The model reports `Trapped` and keeps the old list, but nothing runs after a trap.
- `Album`'s `Hashable` and `Identifiable` conformances are datatype equality over all four fields. The identity is the `id` field.
- `AlbumsListView.swift`: SwiftUI rendering, previews and drawing are presentation code.
- The composed pipelines are stated only as far as one fetch goes. The controllers take the operation as a parameter, so the feed pipeline and the list model are proved separately.
