/** Properties of the fetch-and-cache pipeline: the parser skips bad lines without
    disturbing the others, the retry loop's attempts and backoff schedule, idempotence of
    the cache-first fetch, and what the cache listing recovers from a file name. */
module FetcherProperties {
  import opened Wrappers
  import opened Text
  import opened JsonValues
  import opened Fetcher

  // ---------------------------------------------------------------------------
  // Parsing

  /** Parsing is line by line: the parse of two blocks of lines is the concatenation of
      their parses. */
  lemma {:induction false} KeepParsedAppend(loads: string -> Option<Json>, xs: seq<string>, ys: seq<string>)
    ensures KeepParsed(loads, xs + ys) == KeepParsed(loads, xs) + KeepParsed(loads, ys)
    decreases |ys|
  {
    if ys == [] {
      assert xs + ys == xs;
    } else {
      var last := ys[|ys| - 1];
      var init := ys[..|ys| - 1];
      assert (xs + ys)[..|xs + ys| - 1] == xs + init;
      assert (xs + ys)[|xs + ys| - 1] == last;
      KeepParsedAppend(loads, xs, init);
    }
  }

  /** A line that is blank or does not parse is skipped and changes nothing else. */
  lemma BadLineSkipped(loads: string -> Option<Json>, xs: seq<string>, bad: string, ys: seq<string>)
    requires Strip(bad) == [] || loads(Strip(bad)).None?
    ensures KeepParsed(loads, xs + [bad] + ys) == KeepParsed(loads, xs + ys)
  {
    assert KeepParsed(loads, [bad]) == [] by {
      assert [bad][..0] == [];
    }
    calc {
      KeepParsed(loads, xs + [bad] + ys);
      { KeepParsedAppend(loads, xs + [bad], ys); }
      KeepParsed(loads, xs + [bad]) + KeepParsed(loads, ys);
      { KeepParsedAppend(loads, xs, [bad]); }
      KeepParsed(loads, xs) + KeepParsed(loads, ys);
      { KeepParsedAppend(loads, xs, ys); }
      KeepParsed(loads, xs + ys);
    }
  }

  /** Every parsed value is the parse of some non-blank line, stripped. */
  lemma {:induction false} KeepParsedSource(loads: string -> Option<Json>, lines: seq<string>, k: nat)
    requires k < |KeepParsed(loads, lines)|
    ensures exists i :: 0 <= i < |lines| && Strip(lines[i]) != []
                        && loads(Strip(lines[i])) == Some(KeepParsed(loads, lines)[k])
    decreases |lines|
  {
    var init := lines[..|lines| - 1];
    var last := lines[|lines| - 1];
    if k < |KeepParsed(loads, init)| {
      KeepParsedSource(loads, init, k);
      var i :| 0 <= i < |init| && Strip(init[i]) != [] && loads(Strip(init[i])) == Some(KeepParsed(loads, init)[k]);
      assert lines[i] == init[i];
    } else {
      assert Strip(lines[|lines| - 1]) != [];
    }
  }

  /** Every non-blank line that parses contributes its value, in line order. */
  lemma KeepParsedOfLine(loads: string -> Option<Json>, xs: seq<string>, line: string, ys: seq<string>, v: Json)
    requires Strip(line) != [] && loads(Strip(line)) == Some(v)
    ensures KeepParsed(loads, xs + [line] + ys) == KeepParsed(loads, xs) + [v] + KeepParsed(loads, ys)
  {
    KeepParsedAppend(loads, xs + [line], ys);
    KeepParsedAppend(loads, xs, [line]);
    assert KeepParsed(loads, [line]) == KeepParsed(loads, []) + ParseLine(loads, line);
  }

  // ---------------------------------------------------------------------------
  // The retry loop

  lemma SliceCons<T>(s: seq<T>, a: nat)
    requires a < |s|
    ensures s[a..] == [s[a]] + s[a + 1..]
  {
  }

  lemma {:induction false} FirstSuccessFrom(respond: (string, nat) -> Outcome, url: string, maxRetries: int, k: nat, a: nat)
    requires a <= k < maxRetries && respond(url, k).Ok?
    requires forall j :: 0 <= j < k ==> respond(url, j).Fail?
    ensures RetryFrom(respond, url, maxRetries, a) == RetryRun(Some(respond(url, k).text), k - a + 1, Backoffs(k)[a..])
    decreases k - a
  {
    if a < k {
      FirstSuccessFrom(respond, url, maxRetries, k, a + 1);
      assert respond(url, a).Fail?;
      SliceCons(Backoffs(k), a);
    }
  }

  /** When attempt k is the first to succeed (k < maxRetries), the fetch returns the parse of
      that response after k + 1 attempts, having slept 1, 2, ..., 2^(k-1). */
  lemma FetchFirstSuccess(loads: string -> Option<Json>, respond: (string, nat) -> Outcome,
                          url: string, maxRetries: int, k: nat)
    requires k < maxRetries && respond(url, k).Ok?
    requires forall j :: 0 <= j < k ==> respond(url, j).Fail?
    ensures var run := RetryFrom(respond, url, maxRetries, 0);
            && Fetched(loads, run) == Some(ParseNdjson(loads, respond(url, k).text))
            && run.attempts == k + 1 && run.delays == Backoffs(k)
  {
    FirstSuccessFrom(respond, url, maxRetries, k, 0);
  }

  lemma {:induction false} ExhaustedFrom(respond: (string, nat) -> Outcome, url: string, maxRetries: int, a: nat)
    requires a < maxRetries
    requires forall j :: 0 <= j < maxRetries ==> respond(url, j).Fail?
    ensures RetryFrom(respond, url, maxRetries, a) == RetryRun(None, maxRetries - a, Backoffs(maxRetries - 1)[a..])
    decreases maxRetries - a
  {
    if a + 1 < maxRetries {
      ExhaustedFrom(respond, url, maxRetries, a + 1);
      assert respond(url, a).Fail?;
      SliceCons(Backoffs(maxRetries - 1), a);
    } else {
      assert respond(url, a).Fail?;
    }
  }

  /** When every permitted attempt fails, the fetch gives up with None after exactly
      maxRetries attempts (none when maxRetries <= 0), having slept 1, 2, ..., 2^(maxRetries-2)
      and not after the last attempt. */
  lemma FetchExhausted(loads: string -> Option<Json>, respond: (string, nat) -> Outcome, url: string, maxRetries: int)
    requires forall j :: 0 <= j < maxRetries ==> respond(url, j).Fail?
    ensures var run := RetryFrom(respond, url, maxRetries, 0);
            && Fetched(loads, run) == None
            && run.attempts == (if maxRetries <= 0 then 0 else maxRetries)
            && run.delays == Backoffs(maxRetries - 1)
  {
    if maxRetries > 0 {
      ExhaustedFrom(respond, url, maxRetries, 0);
    }
  }

  /** With the default three attempts all failing, the delays are [1, 2]. */
  lemma ThreeFailuresSleepOneThenTwo(url: string)
    ensures RetryFrom((u: string, a: nat) => Fail, url, DefaultMaxRetries, 0) == RetryRun(None, 3, [1, 2])
  {
    ExhaustedFrom((u: string, a: nat) => Fail, url, DefaultMaxRetries, 0);
    assert Backoffs(2) == [1, 2];
  }

  // ---------------------------------------------------------------------------
  // The cache

  /** A second cache-first fetch of an identity that the first one returned a path for
      returns the same path with no network attempt, no sleep and no write, whatever the
      network would now answer. */
  lemma ResolveIdempotent(files: map<string, seq<string>>, storageDir: string, baseUrl: string, maxRetries: int,
                          codec: Codec, respond: (string, nat) -> Outcome, later: (string, nat) -> Outcome,
                          gameId: string, recordingId: string)
    requires Resolve(files, storageDir, baseUrl, maxRetries, codec, respond, gameId, recordingId).path.Some?
    ensures var first := Resolve(files, storageDir, baseUrl, maxRetries, codec, respond, gameId, recordingId);
            Resolve(first.files, storageDir, baseUrl, maxRetries, codec, later, gameId, recordingId)
            == Resolution(first.path, 0, [], first.files)
  {
  }

  /** On a miss, the cache entry written holds the fetched frames, one dumped record per
      line, and is written only when the fetch parsed at least one frame. */
  lemma ResolveOnMiss(files: map<string, seq<string>>, storageDir: string, baseUrl: string, maxRetries: int,
                      codec: Codec, respond: (string, nat) -> Outcome, gameId: string, recordingId: string)
    requires CachePath(storageDir, gameId, recordingId) !in files
    ensures var run := RetryFrom(respond, RecordingUrl(baseUrl, gameId, recordingId), maxRetries, 0);
            var frames := Fetched(codec.loads, run);
            var res := Resolve(files, storageDir, baseUrl, maxRetries, codec, respond, gameId, recordingId);
            && res.attempts == run.attempts && res.delays == run.delays
            && (res.path.Some? <==> frames.Some? && frames.value != [])
            && (res.path.Some? ==> res.files[res.path.value] == SavedLines(codec.dumps, frames.value))
  {
  }

  /** Two identities that differ only in where the '-' falls share one cache file. */
  lemma CachePathCollides(storageDir: string)
    ensures CachePath(storageDir, "a-b", "c") == CachePath(storageDir, "a", "b-c")
  {
  }

  /** When game ids hold no '-', distinct identities have distinct cache paths. */
  lemma CachePathInjective(storageDir: string, g1: string, r1: string, g2: string, r2: string)
    requires '-' !in g1 && '-' !in g2
    requires CachePath(storageDir, g1, r1) == CachePath(storageDir, g2, r2)
    ensures g1 == g2 && r1 == r2
  {
    var p := CachePath(storageDir, g1, r1);
    var n := |storageDir| + 1;
    assert p[n..|p| - 6] == g1 + "-" + r1;
    assert p[n..|p| - 6] == g2 + "-" + r2;
    SplitStemInvertsNaming(g1, r1);
    SplitStemInvertsNaming(g2, r2);
  }

  /** A game id without '/' is a single path segment, so the recording URL determines the
      recording it asks for. */
  lemma RecordingUrlInjective(baseUrl: string, g1: string, r1: string, g2: string, r2: string)
    requires '/' !in g1 && '/' !in g2
    requires RecordingUrl(baseUrl, g1, r1) == RecordingUrl(baseUrl, g2, r2)
    ensures g1 == g2 && r1 == r2
  {
    var u := RecordingUrl(baseUrl, g1, r1);
    var n := |baseUrl| + 1;
    if |g1| != |g2| {
      // the first '/' after the base URL ends the shorter game id inside the longer one
      assert false;
    }
    assert g1 == u[n..n + |g1|] == g2;
  }

  // ---------------------------------------------------------------------------
  // The cache listing

  /** The stem split recovers the identity whenever the game id holds no '-'. */
  lemma SplitStemInvertsNaming(gameId: string, recordingId: string)
    requires '-' !in gameId
    ensures SplitStem(gameId + "-" + recordingId) == Identity(gameId, recordingId)
  {
    SplitAtFirst(gameId, recordingId, '-');
    assert gameId + "-" + recordingId == gameId + ['-'] + recordingId;
    assert ([gameId] + SplitOn(recordingId, '-'))[1..] == SplitOn(recordingId, '-');
  }

  /** The visualizer's default game id (`App.DefaultGameId`) holds a '-', so the listing splits its cache file name
      at the wrong place: the game id comes back as "ft09" and the rest of it moves into the
      recording id. */
  lemma SplitStemMisreadsDefaultGameId(recordingId: string)
    ensures SplitStem("ft09-16726c5b26ff" + "-" + recordingId) == Identity("ft09", "16726c5b26ff-" + recordingId)
    ensures SplitStem("ft09-16726c5b26ff" + "-" + recordingId) != Identity("ft09-16726c5b26ff", recordingId)
  {
    var rest := "16726c5b26ff" + "-" + recordingId;
    assert "ft09-16726c5b26ff" + "-" + recordingId == "ft09" + ['-'] + rest;
    SplitAtFirst("ft09", rest, '-');
    assert ([ "ft09" ] + SplitOn(rest, '-'))[1..] == SplitOn(rest, '-');
  }

  /** A cached recording whose ids hold no '/' is listed under its file name and path, with
      the identity the stem split reads off its name. */
  lemma CachedRecordingIsListed(storageDir: string, files: map<string, seq<string>>, gameId: string, recordingId: string)
    requires CachePath(storageDir, gameId, recordingId) in files
    requires '/' !in gameId && '/' !in recordingId
    ensures var id := SplitStem(gameId + "-" + recordingId);
            CachedRecording(CacheFileName(gameId, recordingId), CachePath(storageDir, gameId, recordingId),
                            id.gameId, id.recordingId) in Listing(storageDir, files)
  {
    var p := CachePath(storageDir, gameId, recordingId);
    var name := CacheFileName(gameId, recordingId);
    assert p == storageDir + "/" + name;
    assert p[|storageDir + "/"|..] == name;
    assert name[..|name| - 6] == gameId + "-" + recordingId;
    assert ListedName(storageDir, p) == Some(name);
  }
}
