# soundcloud-rp activity update, in Dafny

soundcloud-rp shows the SoundCloud track a browser is playing as a Discord
"rich presence". Each report of the player position arrives at the
activity procedure (`src/procedures/activity.js`). The procedure does these
things:

- It guards the request: `url` and `pos` present, the presence connection
  up, no update already in flight (the `LOCKED` flag).
- If the stored activity is already about the requested track, it
  recomputes only the timestamps and pushes again.
- Otherwise it fetches the track metadata. It resolves the track artwork,
  then the artist artwork: on a cache miss it uploads the image to the
  application's asset store, evicting the oldest asset when full. It
  advances a rotating "page" of status text, picks the large and small
  image, pushes the activity and schedules its clearing 15 seconds after
  the track ends.

The model has five modules:

- `Interfaces` (`interfaces.dfy`) holds the values exchanged with the
  collaborators:
  - the configuration;
  - the request and track records;
  - the pre-drawn outcome of every remote call (`World`, `ArtworkOutcomes`);
  - the record of the calls made (`Call`).

  A collaborator's answer is an input. The order and arguments of the calls
  are part of every result.
- `JsText` (`text.dfy`) holds the JavaScript string operations the
  procedure relies on:
  - `split(/[-&]/)`, which keeps empty pieces;
  - `trim()`, over ECMAScript's white-space set;
  - `startsWith`;
  - the decimal rendering of an integer in a template literal.
- `Paging` (`paging.dfy`) holds the page list `nextPage` rotates through and
  the modular arithmetic of its cursor.
- `Artwork` (`artwork.dfy`) models `processArtwork` in two forms:
  - `Resolve`, a specification function giving the result and the calls
    made;
  - `ProcessArtwork`, a method with the asset-list scan as a loop, proved
    equal to it.

  It also holds the key derivation and `setArtwork`.
- `Activity` (`activity.dfy`) holds the request handler as a `Session`
  class, with these fields:
  - the closure state `pageCounter` and `pageCount`;
  - the `LOCKED` flag.

  The stored activity the fast path edits in place is a `StoredActivity`
  object. The handler has two parts:
  - `Admit`, the synchronous guards, which take the lock;
  - `Settle`, the asynchronous rest, which releases it on every exit.

  `Update` runs both.

The constants `ARTWORK_TRACK`, `ARTWORK_ARTIST` and `MAX_ARTWORK` come from
`src/helpers/artwork.js`, which is not part of this model. They are fields
of `ArtworkConstants`. The lemmas about the slot layout assume 1 and 2,
which the indexing `keys[ARTWORK_TRACK-1]` / `keys[ARTWORK_ARTIST-1]`
implies. The current time is the parameter `nowMs`, in milliseconds.

The model follows the code as written:

- Pages are split only at `-` and `&`.
- `customMessages` is a single fragment.
- `setArtwork` chooses the large image by the thresholds `pageCount - 3`
  and `pageCount - 2`, with no `"default"` fallback. When neither
  configured image is enabled it gives nothing (`None`).
- With uploading off, `processArtwork` returns the URL as given (even
  `null`) for any non-zero kind.
- Only a `null` URL, not an empty one, selects a placeholder.
- There is no backwards paging.

## Model

| member | source | states |
|---|---|---|
| JsText.TrimStartCutsLeadingSpace | src/procedures/activity.js:19 | the leading trim keeps a suffix of the input, removes only white space and stops at a non-space |
| JsText.TrimEndCutsTrailingSpace | src/procedures/activity.js:19 | the trailing trim keeps a prefix of the input, removes only white space and stops at a non-space |
| JsText.Trim | src/procedures/activity.js:19 | trimming never lengthens what the leading trim left; its meaning is stated by `TrimCutsOuterSpace` |
| JsText.TrimCutsOuterSpace | src/procedures/activity.js:19 | `trim()` gives a slice of the input with only white space cut at both ends, and the result starts and ends with a non-space |
| JsText.TrimKeepsTrimmed | src/procedures/activity.js:19 | a string that neither starts nor ends with white space is its own trim |
| JsText.Split | src/procedures/activity.js:19 | `split(/[-&]/)` gives one more piece than the string has delimiters, empty pieces kept |
| JsText.SplitPiecesArePlain | src/procedures/activity.js:19 | no piece of a split holds a delimiter |
| JsText.SplitJoin | src/procedures/activity.js:19 | the pieces rejoined with the delimiters in order rebuild the string: splitting loses nothing |
| JsText.SplitPrefix | src/procedures/activity.js:19 | a delimiter-free prefix joins the first piece of what follows it |
| JsText.SplitAfterDelimiter | src/procedures/activity.js:19 | a leading delimiter yields an empty first piece |
| JsText.SplitUnique | src/procedures/activity.js:19 | delimiter-free pieces joined by delimiters split back into exactly those pieces |
| JsText.SplitWithoutDelimiter | src/procedures/activity.js:19 | a string without delimiters is one piece, itself |
| JsText.SplitWithDelimiter | src/procedures/activity.js:19 | a string with a delimiter is at least two pieces |
| JsText.StartsWithIsPrefix | src/procedures/activity.js:89 | `s.startsWith(p)` holds exactly when `s` is `p` followed by the rest of `s` |
| JsText.NatToDecimal | src/procedures/activity.js:56 | the rendering of an integer id is a non-empty string of digits |
| JsText.DecimalRoundTrip | src/procedures/activity.js:56 | reading back the decimal rendering gives the number |
| JsText.IntToStringDigits | src/procedures/activity.js:56 | `${id}` starts with a minus sign exactly for a negative id, and the rest is a string of digits whose value is the magnitude of the id |
| JsText.IntToStringInjective | src/procedures/activity.js:56 | distinct ids render as distinct strings |
| Paging.PieceCount | src/procedures/activity.js:19-20 | every fragment yields at least one page, so there are at least as many pages as fragments |
| Paging.Pages | src/procedures/activity.js:19-20 | the page list has one page per piece of every fragment |
| Paging.PagesIsPipeline | src/procedures/activity.js:19 | the fragment-by-fragment page list equals split-all, flatten, then trim-all, the order the code chains them in |
| Paging.PagesOfThree | src/procedures/activity.js:198-202 | the pages of the three fragments are the title's, then the artist's, then the messages' |
| Paging.PageCountOfThree | src/procedures/activity.js:198-202 | the page count of the three fragments is the sum of their piece counts |
| Paging.Step | src/procedures/activity.js:23 | one advance of the cursor, `(cursor + 1) % pageCount`, always lands inside the page list |
| Paging.AdvancedIsModularSum | src/procedures/activity.js:23 | k successive advances move the cursor by k modulo the page count; a cursor left over from a longer list is brought back into range |
| Activity.Session.NextPage | src/procedures/activity.js:17-26 | the page count becomes the number of pieces (at least the number of fragments); the cursor becomes the old cursor plus one modulo that count, and is in range even when the old one was not; the page returned is the one under the new cursor |
| Activity.Session.RotatePages | src/procedures/activity.js:17-26 | k consecutive `nextPage` calls over the same fragments leave the cursor at `Advanced` of k steps from the start, which `AdvancedIsModularSum` shows is the start plus k modulo the page count, and the pages shown are those under the intermediate cursors, in order |
| Artwork.ArtworkKeyShape | src/procedures/activity.js:56 | the key is `track_` for the track kind, else `artist_`, followed by the decimal rendering of the id |
| Artwork.ArtworkKeyIdentifiesSubject | src/procedures/activity.js:56 | equal keys mean the same kind (track or not) and the same id |
| Artwork.PlaceholderIndex | src/procedures/activity.js:91 | `id % 11` truncates toward zero: it has the sign of the id, is below 11 in magnitude and differs from the id by a multiple of 11 |
| Artwork.Resolve | src/procedures/activity.js:52-123 | with uploading off: no call, the URL for a non-zero kind, else "default". With uploading on: the asset list is fetched first and the only value resolved is the key; a failed listing rejects with its error after that one call; a hit resolves to the key with no delete and no upload; a full but empty list rejects with TypeError; when the list is full the second call deletes the first asset, and a refused delete rejects with its error; a miss whose image load fails rejects with the loader's error after exactly the calls listing, eviction if full, image load; a miss resolves only after a successful upload, and a miss that reaches the upload makes exactly the calls listing, eviction if full, image load, upload, and resolves to the key exactly when the upload succeeds; every failure carries the failing step's error (a delete's error only when a delete was made), TypeError only for a full, empty list |
| Artwork.LoadCalls | src/procedures/activity.js:74-117 | the calls of a miss up to the image load start with the listing and end with the load from the source `ImageSourceFor` chooses |
| Artwork.UploadCalls | src/procedures/activity.js:74-118 | the calls of a miss that reaches the upload start with the listing and number at least three |
| Artwork.DeleteOnlyWhenEvicting | src/procedures/activity.js:111-118 | a delete happens only when the key is missing and the list is full, and only as the second call; with `Resolve` this makes the delete happen exactly when evicting |
| Artwork.ImageSourceFor | src/procedures/activity.js:89-96 | the placeholder is chosen exactly when the URL is null or starts with the default avatar URL, and it is placeholder `id % 11`; otherwise the image comes from the URL itself |
| Artwork.ImageFromChosenSource | src/procedures/activity.js:89-96 | the image is loaded from placeholder `id % 11` when the URL is null or the default avatar, else from the URL |
| Artwork.UploadLastUnderKey | src/procedures/activity.js:98-108 | at most one upload, the last call, right after a successful image load, of that image under the key |
| Artwork.ProcessArtwork | src/procedures/activity.js:52-123 | the scan of the asset list and the steps after it give exactly the result and calls of `Resolve` |
| Artwork.Lookup | src/procedures/activity.js:31-40 | `keys[i]` is the element at `i` inside the array and nothing (`undefined`) outside it, so any image it gives is one of the keys |
| Artwork.Fallback | src/procedures/activity.js:43-49 | the big image URL if it is enabled, else the small image URL if that is enabled, else nothing |
| Artwork.SetArtwork | src/procedures/activity.js:28-50 | a slot other than the large one shows its own key whatever the page; the large slot shows the track key at `pageCount - 3`, the artist key at `pageCount - 2`, else the big image if enabled, else the small one, else nothing; every image shown is a key or a configured image |
| Activity.RoundSeconds | src/procedures/activity.js:167-168 | `Math.round(ms / 1000)` is the whole second within half a second of `ms`, halves rounded up |
| Activity.RpcInfo | src/procedures/activity.js:198-202 | three fragments: the title, the microphone followed by the username, and the custom messages |
| Activity.StoredActivity.constructor | src/procedures/activity.js:164-168 | the stored activity `rpc.getActivity()` hands out holds the track URL, the cached duration and the two timestamps the fast path reads and rewrites in place |
| Activity.Session.constructor | src/procedures/activity.js:13-14 | a new handler starts at cursor 0 of 0 pages, unlocked |
| Activity.Session.Admit | src/procedures/activity.js:132-162 | missing `url`/`pos`, then a disconnected presence connection, then LOCKED, each refuse the request with its own error and leave LOCKED as it was; otherwise LOCKED is taken and the request admitted |
| Activity.Session.Settle | src/procedures/activity.js:150-240 | every exit clears LOCKED; if the stored activity is about the requested track, the fast path runs, else the full path runs and the stored activity is untouched |
| Activity.Session.Refresh | src/procedures/activity.js:165-177 | the stored activity gets start `now - pos` and end `start + round(duration)` from its cached duration and is pushed; the clear at `end + 15` is scheduled only after a successful push; there is no metadata fetch, no artwork resolution, and the page does not move |
| Activity.Session.FullUpdate | src/procedures/activity.js:180-240 | the metadata is fetched first; a failed fetch ends the update with its error and leaves the page alone; otherwise the artwork and push steps follow |
| Activity.Session.ResolveAndPush | src/procedures/activity.js:189-192 | the track artwork is resolved before anything else is resolved; its failure ends the update with its own error and leaves the page alone |
| Activity.Session.ResolveArtistAndPush | src/procedures/activity.js:193-232 | the artist artwork is resolved next; its failure ends the update with its own error and leaves the page alone; otherwise the push follows with keys `[track, artist]` |
| Activity.Session.Push | src/procedures/activity.js:185-230 | the page advances exactly once, before both slots are chosen; the activity is composed from the new page, both slots, the timestamps and the listen button; the clear at `end + 15` is scheduled only after a successful push |
| Activity.Session.Update | src/procedures/activity.js:127-248 | a request refused by a guard gets that guard's error with no call, no lock change, no page change and no change to the stored activity; an admitted one settles as `Settle` states |
| Activity.NoDelimiterConcat | src/procedures/activity.js:200 | prefixing the microphone to a delimiter-free username adds no delimiter |
| Activity.PiecesOfPlain | src/procedures/activity.js:19 | a fragment without delimiters is one page, trimmed |
| Activity.ArtistFragmentKeepsDelimiter | src/procedures/activity.js:200 | a username with a delimiter makes the artist fragment at least two pages |
| Activity.PagesWithPlainFragments | src/procedures/activity.js:198-202 | with a delimiter-free username and messages, the pages are the title's pieces, then one artist page, then one message page |
| Activity.SlotsFollowDisplayedFragment | src/procedures/activity.js:28-50 | with those fragments the large slot shows the track artwork on the last title page, the artist artwork on the artist page and the configured image elsewhere, and the small slot always shows the artist artwork |
| Activity.ShiftedPagesMissTheTitle | src/procedures/activity.js:34-35 | when the username or the messages hold a delimiter, the last title page shows the configured image instead of the track artwork |
| Activity.FullPathWithoutUpload | src/procedures/activity.js:180-230 | with uploading off and a successful fetch and push, exactly three calls are made: the fetch, the push of an activity whose small image is the avatar URL and which lasts the rounded duration, and the clear 15 seconds after its end |
| Activity.OverlappingRequests | src/procedures/activity.js:144-158 | while one request is in flight a second is refused as already processing; once the first settled, a new one is admitted |

## Left out

- `src/helpers/discord.js` (asset list, upload, delete over HTTP) is not
  part of this model. Neither are `soundcloud.getTrackData`,
  `soundcloud.sanitizeArtworkUrl`, `image.imageDataFromFile` and
  `image.imageDataFromUrl`. Their results are pre-drawn outcomes. The
  image outcome covers both URL sanitising and loading.
- The presence connection is modelled only through what the procedure sees:
  - `rpc.status` is a boolean;
  - `getActivity` gives the stored activity object or null;
  - `setActivity` and `setActivityTimeout` are recorded calls.

  The timer behind the auto-clear and Discord's own storage of the activity
  are not modelled.
- Promise scheduling and real concurrency are not modelled, and neither is
  the double-upload race they allow. An update runs from admission to
  settlement in one step. Overlap is modelled only through the lock.
- `debug` and `trace` logging are not modelled, including the extra log
  line for a 401 metadata error. That error still ends the update like any
  other.
- `Date` is not modelled. The wall clock is the parameter `nowMs`.
- Floating point and non-integer durations are not modelled. Durations,
  positions and ids are integers, and an id renders in plain decimal. The
  exponent form JavaScript uses from 1e21 upwards is not modelled.
- Throws in the handler or in its promise callbacks are not modelled.
  One example is a `customMessages` that is not a string: `nextPage` then
  throws inside the callback at line 195, and the `.catch(error)` at line
  232 releases the lock.
- The module assigns `nextPage` and `setArtwork` without a declaration
  (lines 17 and 28), so they are implicit globals. Every handler the
  factory creates then calls the pair from the most recent factory call,
  sharing that call's `pageCounter`, `pageCount` and `config`. The model
  assumes one handler per process: each `Session` owns its page state and
  configuration, and the sharing is not modelled.
- `Activity.Session.NextPage`: requires a non-empty fragment list. The only
  caller passes three fragments. On an empty list the JavaScript cursor
  would become `NaN`.
