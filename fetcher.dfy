/** The fetch-and-cache pipeline of recording_fetcher.py: a cache-first lookup keyed by
    (game id, recording id), a bounded retry loop with exponential backoff around the
    HTTP GET, a newline-delimited JSON parser that skips bad lines, the cache writer and
    the cache listing. The network is a function from (url, attempt number) to the
    outcome of that attempt; sleeps are returned as the list of delays slept. */
module Fetcher {
  import opened Wrappers
  import opened Text
  import opened JsonValues
  import opened Storage

  const ApiBaseUrl: string := "https://three.arcprize.org/api/recordings"
  const DefaultStorageDir: string := "recordings_cache"
  const DefaultMaxRetries: int := 3
  const DefaultTimeout: int := 30

  /** One HTTP attempt: `Fail` is a timeout, a transport error or a 4xx/5xx status. */
  datatype Outcome = Fail | Ok(text: string)

  /** What the retry loop did: the body of the first successful response (None when every
      attempt failed), the number of network attempts made, and the delays slept between
      them, in order. */
  datatype RetryRun = RetryRun(body: Option<string>, attempts: nat, delays: seq<nat>)

  /** What a cache-first fetch did: the path returned, the network attempts, the delays
      slept, and the filesystem afterwards. */
  datatype Resolution = Resolution(path: Option<string>, attempts: nat, delays: seq<nat>,
                                   files: map<string, seq<string>>)

  /** A recording's identity as recovered from a cache file name. */
  datatype Identity = Identity(gameId: string, recordingId: string)

  /** One entry of the cache listing (size and modification time are not modelled). */
  datatype CachedRecording = CachedRecording(name: string, path: string, gameId: string, recordingId: string)

  /** The URL of one recording: `{base_url}/{game_id}/{recording_id}`. */
  function RecordingUrl(baseUrl: string, gameId: string, recordingId: string): (url: string)
    ensures |url| == |baseUrl| + |gameId| + |recordingId| + 2
    ensures url[..|baseUrl|] == baseUrl && url[|baseUrl|] == '/' && url[|url| - |recordingId|..] == recordingId
    ensures url[|baseUrl| + 1..|baseUrl| + 1 + |gameId|] == gameId && url[|baseUrl| + 1 + |gameId|] == '/'
  {
    baseUrl + "/" + gameId + "/" + recordingId
  }

  function Pow2(n: nat): (r: nat)
    ensures r >= 1
  {
    if n == 0 then 1 else 2 * Pow2(n - 1)
  }

  /** The first `n` backoff delays: 1, 2, 4, ... */
  function Backoffs(n: int): (d: seq<nat>)
    ensures |d| == if n <= 0 then 0 else n
    ensures forall i :: 0 <= i < |d| ==> d[i] == Pow2(i)
  {
    if n <= 0 then [] else Backoffs(n - 1) + [Pow2(n - 1)]
  }

  // ---------------------------------------------------------------------------
  // Parsing a response body

  /** What one line of the body contributes: its stripped text parsed, if it is not blank
      and parses. */
  function ParseLine(loads: string -> Option<Json>, line: string): (r: seq<Json>)
    ensures |r| <= 1
    ensures r != [] <==> Strip(line) != [] && loads(Strip(line)).Some?
    ensures r != [] ==> loads(Strip(line)) == Some(r[0])
  {
    var t := Strip(line);
    if t == [] then []
    else match loads(t)
      case Some(v) => [v]
      case None => []
  }

  /** The values of the lines that parse, in order. */
  function KeepParsed(loads: string -> Option<Json>, lines: seq<string>): (r: seq<Json>)
    ensures |r| <= |lines|
  {
    if lines == [] then []
    else KeepParsed(loads, lines[..|lines| - 1]) + ParseLine(loads, lines[|lines| - 1])
  }

  /** The parse of a whole response body: `text.strip().split('\n')`, line by line. */
  function ParseNdjson(loads: string -> Option<Json>, text: string): (frames: seq<Json>)
    ensures |frames| <= |SplitOn(Strip(text), '\n')|
    ensures Strip(text) == [] ==> frames == []
  {
    var lines := SplitOn(Strip(text), '\n');
    assert Strip(text) == [] ==> lines == [[]] && KeepParsed(loads, lines) == KeepParsed(loads, []) + ParseLine(loads, []);
    KeepParsed(loads, lines)
  }

  // ---------------------------------------------------------------------------
  // The retry loop

  /** The retry loop from attempt `attempt` on: the first successful response ends it;
      after a failed attempt the fetcher sleeps 2^attempt, except after the last permitted
      attempt. */
  function RetryFrom(respond: (string, nat) -> Outcome, url: string, maxRetries: int, attempt: nat): (run: RetryRun)
    ensures run.attempts <= if maxRetries <= attempt then 0 else maxRetries - attempt
    ensures run.body.None? ==> run.attempts == (if maxRetries <= attempt then 0 else maxRetries - attempt)
    decreases maxRetries - attempt
  {
    if attempt >= maxRetries then RetryRun(None, 0, [])
    else match respond(url, attempt)
      case Ok(text) => RetryRun(Some(text), 1, [])
      case Fail =>
        var rest := RetryFrom(respond, url, maxRetries, attempt + 1);
        var sleep := if attempt < maxRetries - 1 then [Pow2(attempt)] else [];
        RetryRun(rest.body, rest.attempts + 1, sleep + rest.delays)
  }

  /** What fetch_recording returns for a run of the retry loop: the parse of the successful
      body, or None. */
  function Fetched(loads: string -> Option<Json>, run: RetryRun): (r: Option<seq<Json>>)
    ensures r.Some? <==> run.body.Some?
    ensures run.body.Some? && Strip(run.body.value) == [] ==> r == Some([])
  {
    match run.body
    case Some(text) => Some(ParseNdjson(loads, text))
    case None => None
  }

  // ---------------------------------------------------------------------------
  // The cache

  /** The cache file name of a recording. */
  function CacheFileName(gameId: string, recordingId: string): (name: string)
    ensures EndsWithJsonl(name) && Stem(name) == gameId + "-" + recordingId
    ensures '/' !in gameId && '/' !in recordingId ==> '/' !in name
  {
    var name := gameId + "-" + recordingId + ".jsonl";
    assert name[..|name| - 6] == gameId + "-" + recordingId;
    assert name[|name| - 6..] == ".jsonl";
    name
  }

  /** The cache path of a recording: the file name inside the storage directory. */
  function CachePath(storageDir: string, gameId: string, recordingId: string): (path: string)
    ensures '/' !in gameId && '/' !in recordingId ==>
              ListedName(storageDir, path) == Some(CacheFileName(gameId, recordingId))
  {
    var path := storageDir + "/" + CacheFileName(gameId, recordingId);
    assert path[|storageDir + "/"|..] == CacheFileName(gameId, recordingId);
    path
  }

  /** The lines of a saved recording: one dumped record per line, in order. */
  function SavedLines(dumps: Json -> string, frames: seq<Json>): (lines: seq<string>)
    ensures |lines| == |frames|
    ensures forall i :: 0 <= i < |frames| ==> lines[i] == dumps(frames[i])
  {
    if frames == [] then []
    else SavedLines(dumps, frames[..|frames| - 1]) + [dumps(frames[|frames| - 1])]
  }

  /** The cache-first fetch: a hit returns the cached path and touches nothing; a miss
      fetches, and writes and returns the path only when the fetch parsed some frames. */
  function Resolve(files: map<string, seq<string>>, storageDir: string, baseUrl: string,
                   maxRetries: int, codec: Codec, respond: (string, nat) -> Outcome,
                   gameId: string, recordingId: string): (res: Resolution)
    ensures var path := CachePath(storageDir, gameId, recordingId);
      && (path in files ==> res == Resolution(Some(path), 0, [], files))
      && (res.path.Some? ==> res.path.value == path && path in res.files)
      && (res.path.None? ==> res.files == files)
      && (res.files == files || (path !in files && res.files.Keys == files.Keys + {path}
                                 && forall q :: q in files ==> res.files[q] == files[q]))
  {
    var path := CachePath(storageDir, gameId, recordingId);
    if path in files then Resolution(Some(path), 0, [], files)
    else
      var run := RetryFrom(respond, RecordingUrl(baseUrl, gameId, recordingId), maxRetries, 0);
      var frames := Fetched(codec.loads, run);
      if frames.Some? && frames.value != [] then
        Resolution(Some(path), run.attempts, run.delays, files[path := SavedLines(codec.dumps, frames.value)])
      else
        Resolution(None, run.attempts, run.delays, files)
  }

  // ---------------------------------------------------------------------------
  // The cache listing

  predicate EndsWithJsonl(name: string) {
    |name| >= 6 && name[|name| - 6..] == ".jsonl"
  }

  /** pathlib's `stem` for a name ending in ".jsonl": the name without that suffix, except
      for the name ".jsonl" itself, which has no suffix. */
  function Stem(name: string): (stem: string)
    requires EndsWithJsonl(name)
    ensures |name| > 6 ==> stem + ".jsonl" == name
    ensures |name| == 6 ==> stem == ".jsonl"
  {
    if |name| > 6 then name[..|name| - 6] else name
  }

  /** The identity the listing reads off a stem: the text before the first '-' as the game
      id, the remaining '-'-separated parts rejoined with '-' as the recording id. */
  function SplitStem(stem: string): (id: Identity)
    ensures '-' !in id.gameId
    ensures '-' in stem ==> id.gameId + "-" + id.recordingId == stem
    ensures '-' !in stem ==> id == Identity(stem, "")
  {
    var parts := SplitOn(stem, '-');
    if |parts| == 1 then
      assert Join(parts, '-') == parts[0];
      assert parts[1..] == [];
      Identity(parts[0], Join(parts[1..], '-'))
    else
      assert Join(parts, '-') == parts[0] + ['-'] + Join(parts[1..], '-');
      assert stem[|parts[0]|] == '-';
      Identity(parts[0], Join(parts[1..], '-'))
  }

  /** The name of `p` when it is a "*.jsonl" file directly inside `storageDir`. */
  function ListedName(storageDir: string, p: string): Option<string> {
    var prefix := storageDir + "/";
    if prefix <= p && '/' !in p[|prefix|..] && EndsWithJsonl(p[|prefix|..]) then Some(p[|prefix|..])
    else None
  }

  function EntryFor(storageDir: string, p: string): CachedRecording
    requires ListedName(storageDir, p).Some?
  {
    var name := ListedName(storageDir, p).value;
    var id := SplitStem(Stem(name));
    CachedRecording(name, p, id.gameId, id.recordingId)
  }

  /** The cache listing, as a set: one entry per "*.jsonl" file in the storage directory. */
  function Listing(storageDir: string, files: map<string, seq<string>>): (entries: set<CachedRecording>)
    ensures forall e :: e in entries ==> e.path in files && ListedName(storageDir, e.path) == Some(e.name)
    ensures forall p :: p in files && ListedName(storageDir, p).Some? ==> EntryFor(storageDir, p) in entries
    ensures forall e :: e in entries ==>
              EndsWithJsonl(e.name) && Identity(e.gameId, e.recordingId) == SplitStem(Stem(e.name))
  {
    set p | p in files && ListedName(storageDir, p).Some? :: EntryFor(storageDir, p)
  }

  // ---------------------------------------------------------------------------

  class RecordingFetcher {
    const baseUrl: string
    const storageDir: string
    const maxRetries: int
    const timeout: int

    constructor (storageDir: string := DefaultStorageDir, maxRetries: int := DefaultMaxRetries,
                 timeout: int := DefaultTimeout)
      ensures this.baseUrl == ApiBaseUrl && this.storageDir == storageDir
      ensures this.maxRetries == maxRetries && this.timeout == timeout
    {
      this.baseUrl := ApiBaseUrl;
      this.storageDir := storageDir;
      this.maxRetries := maxRetries;
      this.timeout := timeout;
    }

    /** The body of a successful response, parsed line by line; a line that does not parse
        is skipped. */
    method ParseResponse(codec: Codec, text: string) returns (frames: seq<Json>)
      ensures frames == ParseNdjson(codec.loads, text)
    {
      frames := [];
      var lines := SplitOn(Strip(text), '\n');
      var i := 0;
      while i < |lines|
        invariant 0 <= i <= |lines|
        invariant frames == KeepParsed(codec.loads, lines[..i])
      {
        var line := Strip(lines[i]);
        if line != [] {
          var data := codec.loads(line);
          if data.Some? {
            frames := frames + [data.value];
          }
        }
        assert lines[..i + 1][..i] == lines[..i];
        i := i + 1;
      }
      assert lines[..i] == lines;
    }

    /** At most `maxRetries` GETs of the recording's URL; the first successful response is
        parsed and returned (even when nothing in it parses); a failed attempt is followed by
        a sleep of 2^attempt unless it was the last. */
    method FetchRecording(codec: Codec, respond: (string, nat) -> Outcome, gameId: string, recordingId: string)
      returns (frames: Option<seq<Json>>, attempts: nat, delays: seq<nat>)
      ensures var run := RetryFrom(respond, RecordingUrl(baseUrl, gameId, recordingId), maxRetries, 0);
              frames == Fetched(codec.loads, run) && attempts == run.attempts && delays == run.delays
    {
      var url := RecordingUrl(baseUrl, gameId, recordingId);
      ghost var whole := RetryFrom(respond, url, maxRetries, 0);
      attempts, delays := 0, [];
      var attempt: nat := 0;
      while attempt < maxRetries
        invariant attempts == attempt
        invariant var rest := RetryFrom(respond, url, maxRetries, attempt);
          whole == RetryRun(rest.body, attempts + rest.attempts, delays + rest.delays)
        decreases maxRetries - attempt
      {
        attempts := attempts + 1;
        var outcome := respond(url, attempt);
        if outcome.Ok? {
          var parsed := ParseResponse(codec, outcome.text);
          return Some(parsed), attempts, delays;
        }
        if attempt < maxRetries - 1 {
          delays := delays + [Pow2(attempt)];
        }
        attempt := attempt + 1;
      }
      frames := None;
    }

    /** Writes one dumped record per line to the recording's cache path, replacing any
        earlier content, and returns that path. */
    method SaveRecording(fs: FileSystem, codec: Codec, gameId: string, recordingId: string, frames: seq<Json>)
      returns (path: string)
      modifies fs
      ensures path == CachePath(storageDir, gameId, recordingId)
      ensures fs.files == old(fs.files)[path := SavedLines(codec.dumps, frames)]
    {
      path := CachePath(storageDir, gameId, recordingId);
      fs.files := fs.files[path := []];
      for i := 0 to |frames|
        invariant fs.files == old(fs.files)[path := SavedLines(codec.dumps, frames[..i])]
      {
        fs.files := fs.files[path := fs.files[path] + [codec.dumps(frames[i])]];
        assert frames[..i + 1][..i] == frames[..i];
      }
      assert frames[..|frames|] == frames;
    }

    /** The cached path of a recording, when the cache file exists. */
    function GetCachedRecording(fs: FileSystem, gameId: string, recordingId: string): (cached: Option<string>)
      reads fs
      ensures cached.Some? <==> CachePath(storageDir, gameId, recordingId) in fs.files
      ensures cached.Some? ==> cached.value == CachePath(storageDir, gameId, recordingId)
    {
      var path := CachePath(storageDir, gameId, recordingId);
      if path in fs.files then Some(path) else None
    }

    /** Cache first; on a miss, fetch and cache the recording when the fetch parsed at least
        one frame. */
    method FetchAndCacheRecording(fs: FileSystem, codec: Codec, respond: (string, nat) -> Outcome,
                                  gameId: string, recordingId: string)
      returns (path: Option<string>, attempts: nat, delays: seq<nat>)
      modifies fs
      ensures Resolution(path, attempts, delays, fs.files)
              == Resolve(old(fs.files), storageDir, baseUrl, maxRetries, codec, respond, gameId, recordingId)
    {
      var cached := GetCachedRecording(fs, gameId, recordingId);
      if cached.Some? {
        return cached, 0, [];
      }
      var frames;
      frames, attempts, delays := FetchRecording(codec, respond, gameId, recordingId);
      if frames.Some? && frames.value != [] {
        var saved := SaveRecording(fs, codec, gameId, recordingId, frames.value);
        return Some(saved), attempts, delays;
      }
      path := None;
    }

    /** The "*.jsonl" files of the storage directory, each with the identity read off its name. */
    function ListCachedRecordings(fs: FileSystem): (entries: set<CachedRecording>)
      reads fs
      ensures forall e :: e in entries ==> e.path in fs.files && ListedName(storageDir, e.path) == Some(e.name)
      ensures forall p :: p in fs.files && ListedName(storageDir, p).Some? ==> EntryFor(storageDir, p) in entries
      ensures forall e :: e in entries ==>
                EndsWithJsonl(e.name) && Identity(e.gameId, e.recordingId) == SplitStem(Stem(e.name))
    {
      Listing(storageDir, fs.files)
    }
  }
}
