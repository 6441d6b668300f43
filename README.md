# ARC-AGI-3 replay: frame store and fetch–cache pipeline, in Dafny

This project models the two components at the core of the ARC-AGI-3 replay viewer and proves properties of them.

- **The frame store** is `FrameVisualizer` in `app.py`. It keeps the accepted records of a game recording in order, together with a cursor into them. Its operations:
  - `load_file` loads a line-delimited JSON file, keeping the records that have `data.frame`.
  - `go_to_frame` moves the cursor.
  - `load_current_frame` turns the record under the cursor into a view, filling in defaults.
  - `load_recording` loads a recording through the fetcher.
- **The fetch–cache pipeline** is `RecordingFetcher` in `recording_fetcher.py`.
  - `fetch_recording` GETs a recording with bounded retries and exponential backoff. It parses the body as newline-delimited JSON.
  - `save_recording` writes one record per line to `{game_id}-{recording_id}.jsonl`.
  - `fetch_and_cache_recording` looks in the cache first.
  - `list_cached_recordings` reads the identity back off a file name.

## Layout

| file | module | what it holds |
|---|---|---|
| `wrappers.dfy` | `Wrappers` | `Option` and `Result` |
| `text.dfy` | `Text` | Python's `str.strip()`, `str.split(c)`, `c.join(...)` and `sub in s` |
| `json_values.dfy` | `JsonValues` | the values `json.loads` yields; Python's `in`, `[]`, `.get` and truthiness on them; the codec |
| `storage.dfy` | `Storage` | the filesystem: a map from path to the file's lines |
| `fetcher.dfy` | `Fetcher` | the retry loop, the parser, the cache and the listing, as functions; the class `RecordingFetcher`, whose methods are proved against them |
| `fetcher_properties.dfy` | `FetcherProperties` | lemmas about the fetcher |
| `app.dfy` | `App` | the colour map, the load loop, the view, and the store as a value; the class `FrameVisualizer`, whose methods are proved against those functions |
| `app_properties.dfy` | `AppProperties` | lemmas about the store, and the round trip from the cache file back into the store |

How the model represents the parts the core does not compute itself:
- **JSON.** `json.loads` and `json.dumps` are parameters bundled as a `Codec`. Lemmas that need the two to agree require `Lawful(codec)`. `Lawful` says that loading what was dumped gives back the value, and that `json.dumps` writes a non-empty text with no surrounding whitespace and no line terminator, so that each dumped record is one line of the cache file.
- **The network.** It is a function from (URL, attempt number) to `Fail` or `Ok(body)`. Every exception `fetch_recording` catches is a `Fail`.
- **Sleeping.** The sleeps are returned as the list of their durations.
- **The filesystem.** It is a `FileSystem` object whose `files` map holds each file as the sequence of its lines.

Each method of the two classes states its new state and result as a function of the old state and its inputs. The properties are then proved about those functions.

Where the code does something surprising, the model follows the code:
- **A scalar line ends the load.** `'data' in data` raises a TypeError when a line parses to `null`, a boolean or a number. So does `'frame' in data['data']` when `data` is such a value. A line that parses to a string containing `data` (such as `"metadata"`) or to a list holding `"data"` passes the `in` test, and then `data['data']` raises a TypeError. That aborts `load_file` through its `except Exception` with "Error loading file". The records kept before that line stay in `frames`, and the cursor is not reset, so it can be left past the end of the shorter frame list (`AppProperties.FaultingLoadStrandsCursor`). Otherwise the cursor stays on the frames whenever there are any (`App.CursorOk`): showing and moving keep it there, and a load that raises nothing puts it there (`AppProperties.ShowCurrentKeepsCursorOk`, `GoToKeepsCursorOk`, `LoadEstablishesCursorOk`).
- **`data` must be an object.** `data` can be a list holding `"frame"`, or a string containing `"frame"`. Such a record passes the shape test, but `.get` on it raises an AttributeError when the record is shown. `load_current_frame` therefore succeeds only for a *displayable* record (`App.Displayable`), not for every in-range cursor. When it is called through `load_file`, the error is caught and reported.
- **A failed load empties the store.** A load that keeps no record still replaces `frames` with the empty list, and leaves the cursor where it was.
- **The listing misreads hyphenated game ids.** The stem split of `list_cached_recordings` inverts the cache naming only for game ids without `-`. The default game id `ft09-16726c5b26ff` has one, so its cache file is listed as game `ft09` (`FetcherProperties.SplitStemMisreadsDefaultGameId`).

## Model

| member | source | states |
|---|---|---|
| `App.ColorMap` | app.py:52-71 | the palette is defined exactly on the cell values 0..15, and each maps to a 9-character colour string starting with '#' and ending in the opaque alpha 'FF', paired with a name |
| `App.FrameVisualizer.constructor` | app.py:26-46 | a fresh store has no frames, cursor 0, the default game id, state "NOT_FINISHED", score 0 and the grid `[[[]]]`; its fetcher queries the arcprize recordings API with the default cache directory, 3 retries and a 30-second timeout |
| `App.FrameVisualizer.LoadFile` | app.py:102-138 | the new store and result are those of `LoadFileSpec` on the old store; the error count is the load loop's |
| `App.FrameVisualizer.ScanFrames` | app.py:108-126 | the frames kept, the error count and the exception that stopped the loop are those of the load loop `ScanLines` over the file's lines |
| `App.FrameVisualizer.ScanLineInto` | app.py:114-126 | one line: blank is skipped, unparseable or lacking `data.frame` is counted, passing is appended, a raising shape test stops the loop |
| `App.FrameVisualizer.LoadCurrentFrame` | app.py:140-176 | the new store and result are those of `ShowCurrent` on the old store |
| `App.FrameVisualizer.GoToFrame` | app.py:178-183 | the new store and result are those of `GoTo` on the old store and index |
| `App.FrameVisualizer.LoadRecording` | app.py:73-100 | a missing id means the default one; the cache ends up as the cache-first fetch `Resolve` leaves it, and the store and result are `load_file`'s on the returned path, or "failed to fetch" when there is no path |
| `App.HasFrame` | app.py:118 | the shape test of an object whose `data` is an object is whether `data` has `frame`; an object without `data` fails the test (counted as an error); a null, boolean or number record, or such a `data`, raises; a string or list record raises exactly when `'data' in` it holds; a pass implies the record is an object with `data` |
| `App.CaughtByLoad` | app.py:136-138 | no exception escapes load_file: a raised fault becomes "Error loading file" with that fault, and every other result passes through unchanged |
| `App.ScanLine` | app.py:114-126 | one line of the load loop only appends to the kept records and adds at most one kept record or one error; a step that raises keeps and counts nothing |
| `App.ScanLines` | app.py:108-126 | the load loop over a file keeps and counts at most one thing per line (its filter meaning: `AppProperties.ScanMatchesFilter`) |
| `App.ReadHeader` | app.py:145-150 | reading the cached fields raises exactly when the record or its `data` is not an object |
| `App.ReadAction` | app.py:153-159 | reading the reasoning metadata succeeds exactly for a displayable record |
| `App.ShowCurrent` | app.py:140-176 | frames and cursor are never changed; a view is produced iff the cursor is in range and the record displayable, and carries frame_index = cursor+1 and total_frames; a failure is "Invalid frame index" or an escaping exception (defaults: `AppProperties.ViewDefaults`) |
| `App.GoTo` | app.py:178-183 | frames never change; an in-range index becomes the cursor and a view shows index+1; any other index reports index and frame count with nothing changed |
| `App.LoadLines` | app.py:107-138 | the frames become the records the loop kept; a view means cursor 0, frame_index 1 and total_frames = frames; a failure is a caught exception or "No valid frame data" |
| `App.LoadFileSpec` | app.py:102-138 | "File not found" exactly for an empty or missing path, and then nothing changes |
| `App.LoadRecordingSpec` | app.py:86-96 | "Failed to fetch" exactly when no path came back, and then nothing changes; a returned path that exists is never reported as not found |
| `App.ScanLinesSnoc` | app.py:110-126 | the load loop over one more line applies one step, unless an exception has already ended it |
| `App.ScanFaultSticky` | app.py:136-138 | once an exception has ended the load loop, no later line changes the outcome |
| `AppProperties.ScanFaultIff` | app.py:117-118 | the load loop raises if and only if some parsed line's shape test raises |
| `AppProperties.ScanMatchesFilter` | app.py:108-126 | without an exception, `frames` is exactly the in-order list of parsed non-blank lines having `data.frame`, and errors + kept = number of non-blank lines |
| `AppProperties.ScanLineFilter` | app.py:114-126 | one non-raising step keeps the line's record exactly when it passes the shape test and counts each non-blank line once, as kept or as error |
| `AppProperties.WithFrameAppend` | app.py:118-122 | keeping the records with a frame distributes over concatenation of line blocks |
| `AppProperties.ScalarLineAborts` | app.py:118 | a line parsing to null, a boolean or a number ends the load with a TypeError, keeping the records before it and reading no further line |
| `AppProperties.LoadFileOutcome` | app.py:102-138 | empty or missing path: "File not found", nothing changes; otherwise frames are what the loop kept; none kept: "No valid frame data", cursor unchanged; a displayable first record: cursor 0, frame_index 1, total_frames = frames |
| `AppProperties.ShowCurrentOutcome` | app.py:140-176 | the view succeeds iff the cursor is in range and its record is displayable; frames and cursor never change; out of range gives "Invalid frame index" with nothing changed; a view has frame_index = cursor+1, total_frames = frames, level 1 and the palette |
| `AppProperties.ViewDefaults` | app.py:146-159 | game_id and state default to 'Unknown', score to 0, frame to `[[[]]]`; the action fields are 'None' when reasoning is falsy and read with default 'None' otherwise; the cached fields equal the view's |
| `AppProperties.ShowCurrentCachesHeader` | app.py:143-159 | with the cursor in range: when the record and its `data` are objects the store caches `data.game_id`, `data.state`, `data.score` and `data.frame` (with their defaults) even if the reasoning read then raises; otherwise the read raises and the store is unchanged |
| `AppProperties.HeaderOfRecord` | app.py:146-151 | the cached fields of a record whose `data` is an object are `data.game_id`, `data.state`, `data.score` and `data.frame`, each with its default |
| `AppProperties.ActionOfDisplayable` | app.py:153-159 | the reasoning metadata of a displayable record: all 'None' when the reasoning is falsy, otherwise each field of the reasoning with default 'None' |
| `AppProperties.ShowCurrentKeepsCursorOk` | app.py:140-143 | showing the current record keeps the cursor on the frames |
| `AppProperties.GoToKeepsCursorOk` | app.py:178-183 | a cursor move keeps the cursor on the frames |
| `AppProperties.LoadEstablishesCursorOk` | app.py:107-134 | a load that raises nothing leaves the cursor on the new frames (or there are none), whatever it was before |
| `AppProperties.FaultingLoadStrandsCursor` | app.py:108-138 | a load that raises keeps the partial frames and the old cursor: from eight frames at cursor 5, a file of two framed records and a null leaves two frames with the cursor at 5 |
| `AppProperties.GoToOutcome` | app.py:178-183 | an in-range index moves the cursor there and a displayable record shows frame_index = index+1; any other index reports the index and the frame count and changes nothing |
| `AppProperties.ParseSavedLines` | recording_fetcher.py:77-93 | under a lawful codec, the lines save_recording writes parse back to the saved records |
| `AppProperties.SaveThenScan` | app.py:108-126 | loading the lines save_recording wrote gives the saved records with no error, when each has `data.frame` |
| `AppProperties.LoadSavedLines` | app.py:128-132 | load_file on such a cache file leaves exactly the saved records in the store with the cursor on the first |
| `AppProperties.LoadLinesKept` | app.py:130-132 | when the load loop kept some records without raising, the store holds exactly them with the cursor on the first |
| `AppProperties.FetchedRecordingLoads` | app.py:86-94 | load_recording on a cache miss with a fetch parsing some framed records writes them to the cache path and leaves exactly them in the store, cursor 0 |
| `AppProperties.UnreachableRecordingFails` | app.py:94-96 | load_recording on a cache miss when every attempt fails reports "failed to fetch" with cache and store unchanged |
| `AppProperties.CachedRecordingLoads` | app.py:86-94 | load_recording on a cached identity makes no attempt, writes nothing, and returns load_file's outcome on the cache path |
| `Fetcher.RecordingFetcher.constructor` | recording_fetcher.py:14-19 | the base URL is the arcprize recordings API; directory, retries and timeout are as given, defaulting to "recordings_cache", 3 and 30 |
| `Fetcher.RecordingFetcher.ParseResponse` | recording_fetcher.py:33-54 | the frames are the parse `ParseNdjson` of the body: stripped, split on newlines, blank and unparseable lines skipped |
| `Fetcher.RecordingFetcher.FetchRecording` | recording_fetcher.py:22-75 | result, attempt count and sleeps are those of the retry loop `RetryFrom` from attempt 0, the body parsed when one arrived |
| `Fetcher.RecordingFetcher.SaveRecording` | recording_fetcher.py:77-93 | the returned path is the cache path; that file, and only it, now holds one dumped record per line |
| `Fetcher.RecordingFetcher.GetCachedRecording` | recording_fetcher.py:95-104 | a path is returned iff the cache file exists, and it is the cache path that save_recording writes |
| `Fetcher.RecordingFetcher.FetchAndCacheRecording` | recording_fetcher.py:106-126 | path, attempts, sleeps and new cache are those of the cache-first fetch `Resolve` on the old cache |
| `Fetcher.RecordingFetcher.ListCachedRecordings` | recording_fetcher.py:128-148 | exactly the "*.jsonl" files directly inside the storage directory are listed, each with its name and path, and with the game and recording id that the stem split reads off its name |
| `Fetcher.Backoffs` | recording_fetcher.py:58-59 | the backoff schedule for n sleeps has n entries, the i-th being 2^i |
| `Fetcher.KeepParsed` | recording_fetcher.py:38-51 | parsing keeps at most one value per line |
| `Fetcher.ParseLine` | recording_fetcher.py:39-51 | a line contributes at most one value: its stripped text's parse, exactly when it is not blank and parses |
| `Fetcher.ParseNdjson` | recording_fetcher.py:35-51 | the parse of a body yields at most one record per line of `text.strip().split('\n')`, and none for a blank body (order and skipping: `FetcherProperties.KeepParsedOfLine`, `BadLineSkipped`, `KeepParsedSource`) |
| `Fetcher.CacheFileName` | recording_fetcher.py:79 | the cache file name ends in ".jsonl", its stem is `{game_id}-{recording_id}`, and it holds no '/' when the ids hold none |
| `Fetcher.CachePath` | recording_fetcher.py:79-80 | the path save and lookup share (lines 79-80 and 97-98): for ids without '/', the listing finds it directly inside the storage directory under the cache file name (collisions and injectivity: `FetcherProperties.CachePathCollides`, `CachePathInjective`) |
| `Fetcher.RecordingUrl` | recording_fetcher.py:24 | the URL is the base URL, '/', the game id, '/' and the recording id, in that order |
| `FetcherProperties.RecordingUrlInjective` | recording_fetcher.py:24 | for game ids without '/', distinct recordings are asked for at distinct URLs |
| `Fetcher.Fetched` | recording_fetcher.py:54-75 | fetch_recording returns a list exactly when some attempt got a body, and an empty list (not None) for a blank body |
| `Fetcher.RetryFrom` | recording_fetcher.py:26-75 | never more attempts than remain permitted; no body means every permitted attempt was made |
| `Fetcher.SavedLines` | recording_fetcher.py:84-85 | one line per record, the i-th being the dump of the i-th record |
| `Fetcher.Resolve` | recording_fetcher.py:106-126 | a hit returns the cached path with no attempt, no sleep and no write; a returned path is the cache path and exists; no path means nothing written; at most the cache path is added |
| `Fetcher.Listing` | recording_fetcher.py:132-142 | every entry is an existing "*.jsonl" file directly in the storage directory, named as listed; every such file has its entry; each entry's ids are the stem split of its name |
| `FetcherProperties.KeepParsedAppend` | recording_fetcher.py:38-51 | parsing is line by line: the parse of two blocks of lines is the concatenation of their parses |
| `FetcherProperties.BadLineSkipped` | recording_fetcher.py:39-51 | a blank or unparseable line is skipped without affecting any other line |
| `FetcherProperties.KeepParsedSource` | recording_fetcher.py:39-42 | every parsed value is the parse of some non-blank stripped line |
| `FetcherProperties.KeepParsedOfLine` | recording_fetcher.py:39-42 | a non-blank line that parses contributes its value in line order |
| `FetcherProperties.FirstSuccessFrom` | recording_fetcher.py:26-72 | from any attempt up to the first success, the loop ends at that success with the remaining backoff schedule |
| `FetcherProperties.FetchFirstSuccess` | recording_fetcher.py:26-54 | when attempt k is the first to succeed and is permitted: k+1 attempts, sleeps 1, 2, ..., 2^(k-1), result the parse of that body, even an empty one |
| `FetcherProperties.ExhaustedFrom` | recording_fetcher.py:26-75 | when every attempt fails, the loop from any permitted attempt makes all remaining attempts and sleeps the rest of the schedule |
| `FetcherProperties.FetchExhausted` | recording_fetcher.py:26-75 | when every attempt fails: exactly max(max_retries, 0) attempts, a sleep 2^a after every attempt but the last, result None; no attempt when max_retries is 0 |
| `FetcherProperties.ThreeFailuresSleepOneThenTwo` | recording_fetcher.py:56-75 | with the default 3 retries and a network that always fails: 3 attempts, sleeps [1, 2], no body |
| `FetcherProperties.ResolveIdempotent` | recording_fetcher.py:95-117 | after a cache-first fetch that returned a path, a second one for the same identity returns it with no attempt, sleep or write, whatever the network says |
| `FetcherProperties.ResolveOnMiss` | recording_fetcher.py:115-122 | on a miss, attempts and sleeps are the retry loop's; a path is returned iff the fetch parsed a non-empty list, and the file then holds that list dumped line by line |
| `FetcherProperties.CachePathCollides` | recording_fetcher.py:79-80 | identities ("a-b", "c") and ("a", "b-c") share one cache path |
| `FetcherProperties.CachePathInjective` | recording_fetcher.py:79-80 | for game ids without '-', distinct identities have distinct cache paths |
| `FetcherProperties.SplitStemInvertsNaming` | recording_fetcher.py:140-141 | the stem split recovers (game_id, recording_id) from the saved name whenever game_id holds no '-' |
| `Fetcher.SplitStem` | recording_fetcher.py:140-141 | the game id read off a stem holds no '-'; when the stem holds a '-', game id, '-' and recording id rejoin to the stem; otherwise the game id is the whole stem and the recording id is empty (inversion of the naming: `FetcherProperties.SplitStemInvertsNaming`) |
| `Fetcher.Stem` | recording_fetcher.py:140-141 | pathlib's stem of a "*.jsonl" name: the name without its ".jsonl" suffix (the bare name ".jsonl" has no suffix to drop) |
| `FetcherProperties.SplitStemMisreadsDefaultGameId` | recording_fetcher.py:155 | the cache file of the default game id is listed as game "ft09", with "16726c5b26ff-" moved into the recording id |
| `FetcherProperties.CachedRecordingIsListed` | recording_fetcher.py:128-142 | a cached recording whose ids hold no '/' is listed under its file name and path, with the identity the stem split reads off |
| `JsonValues.HasKey` | app.py:118 | Python's `in` on a JSON value raises exactly for null, booleans and numbers, and on an object it is key membership |
| `JsonValues.Subscript` | app.py:118 | `v[key]` succeeds exactly for an object holding the key, giving its value |
| `JsonValues.Truthy` | app.py:157-159 | a value is falsy exactly when it is null, false, 0, the empty string, the empty list or the empty object |
| `JsonValues.Get` | app.py:146-159 | `.get(key, default)` succeeds exactly on objects, giving the field or the default |
| `Text.Strip` | recording_fetcher.py:35 | the result of `str.strip()` has no leading or trailing whitespace |
| `Text.SplitOn` | recording_fetcher.py:35 | `str.split(c)` gives at least one part, no part holds `c`, and joining with `c` gives back the string |

## Left out

- Flask routes, error handlers, CORS, configuration, uploads and the directory scan in `app.py`: these are HTTP and filesystem glue.
- The HTTP request itself, `raise_for_status`, the timeout value's effect and the distinction between Timeout, RequestException and other errors: every caught failure is one `Fail` outcome, and all of them are handled the same way.
- `time.sleep` itself: sleeps are recorded, not performed.
- Logging, `datetime` timing, `load_times`, the parsing-progress percentage and the session uuid: none of them affects the store or the cache.
- Floating-point JSON numbers: JSON numbers are integers in this model.
- I/O errors while reading or writing files: reads and writes always succeed. The `except` branches of `save_recording` and `fetch_and_cache_recording` that catch them are therefore not reachable.
- `Fetcher.RecordingFetcher.ListCachedRecordings`: returns a set, so the newest-first sort on `st_mtime` and the `size`/`modified` fields are not modelled (they need file metadata).
- File contents are modelled as lists of lines. Python's universal-newline reading of a file and its reassembly into lines are not modelled.
- Whitespace is the character set of `str.isspace()`. Unicode normalisation is not modelled.
- Path normalisation by `pathlib`: a path is the directory, "/" and the file name.
- `os.path.exists` on directories: only files are in the filesystem map.
- `Text.Strip`: states only that the result is unpadded. That the result is the longest unpadded middle of the string is used through its definition, not stated.
- `App.ColorMap`: states the domain and the shape of the hex strings. The individual colours are its definition.
