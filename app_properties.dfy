/** What the frame store promises: the load loop as a filter over the parsed lines, the
    outcome of a load, the cursor move, the view and its defaults, and the round trip
    from the fetcher's cache file back into the store. */
module AppProperties {
  import opened Wrappers
  import opened Text
  import opened JsonValues
  import opened Fetcher
  import opened FetcherProperties
  import opened App

  // ---------------------------------------------------------------------------
  // Reference definitions

  /** The records among `vs` that pass the shape test, in order. */
  function WithFrame(vs: seq<Json>): seq<Json> {
    if vs == [] then []
    else
      var v := vs[|vs| - 1];
      WithFrame(vs[..|vs| - 1]) + (if HasFrame(v) == Success(true) then [v] else [])
  }

  /** The number of lines that are not blank once stripped. */
  function NonBlank(lines: seq<string>): nat {
    if lines == [] then 0
    else NonBlank(lines[..|lines| - 1]) + (if Strip(lines[|lines| - 1]) != [] then 1 else 0)
  }

  // ---------------------------------------------------------------------------
  // The load loop

  /** The load loop raises exactly when some line parses to a value whose shape test raises. */
  lemma {:induction false} ScanFaultIff(loads: string -> Option<Json>, lines: seq<string>)
    ensures ScanLines(loads, lines).fault.None? <==>
            forall v :: v in KeepParsed(loads, lines) ==> HasFrame(v).Success?
  {
    if lines != [] {
      var xs, line := lines[..|lines| - 1], lines[|lines| - 1];
      ScanFaultIff(loads, xs);
      assert KeepParsed(loads, lines) == KeepParsed(loads, xs) + ParseLine(loads, line);
    }
  }

  /** Filtering distributes over concatenation. */
  lemma {:induction false} WithFrameAppend(xs: seq<Json>, ys: seq<Json>)
    ensures WithFrame(xs + ys) == WithFrame(xs) + WithFrame(ys)
    decreases |ys|
  {
    if ys == [] {
      assert xs + ys == xs;
    } else {
      var init := ys[..|ys| - 1];
      WithFrameAppend(xs, init);
      assert (xs + ys)[..|xs + ys| - 1] == xs + init;
    }
  }

  /** One step of the load loop that does not raise: it keeps the line's record when it
      passes the shape test and otherwise counts a non-blank line as an error. */
  lemma ScanLineFilter(loads: string -> Option<Json>, s: Scan, line: string)
    requires s.fault.None? && ScanLine(loads, s, line).fault.None?
    ensures ScanLine(loads, s, line).kept == s.kept + WithFrame(ParseLine(loads, line))
    ensures ScanLine(loads, s, line).errors + |ScanLine(loads, s, line).kept|
            == s.errors + |s.kept| + (if Strip(line) != [] then 1 else 0)
  {
    var q := ParseLine(loads, line);
    if q == [] {
      assert WithFrame(q) == [];
    } else {
      assert WithFrame(q) == WithFrame([]) + (if HasFrame(q[0]) == Success(true) then [q[0]] else []) by {
        assert q[..0] == [];
      }
    }
  }

  /** Without a raising line, the load loop keeps exactly the parsed records that pass the
      shape test, in order, and counts every other non-blank line as an error. */
  lemma {:induction false} ScanMatchesFilter(loads: string -> Option<Json>, lines: seq<string>)
    requires ScanLines(loads, lines).fault.None?
    ensures ScanLines(loads, lines).kept == WithFrame(KeepParsed(loads, lines))
    ensures ScanLines(loads, lines).errors + |ScanLines(loads, lines).kept| == NonBlank(lines)
  {
    if lines != [] {
      var xs, line := lines[..|lines| - 1], lines[|lines| - 1];
      var s := ScanLines(loads, xs);
      assert s.fault.None?;
      assert ScanLines(loads, lines) == ScanLine(loads, s, line);
      ScanMatchesFilter(loads, xs);
      ScanLineFilter(loads, s, line);
      assert KeepParsed(loads, lines) == KeepParsed(loads, xs) + ParseLine(loads, line);
      WithFrameAppend(KeepParsed(loads, xs), ParseLine(loads, line));
    }
  }

  /** A line that parses to null, a boolean or a number ends the load loop with a TypeError;
      the records kept before it stay and no later line is read. */
  lemma ScalarLineAborts(loads: string -> Option<Json>, xs: seq<string>, line: string, ys: seq<string>)
    requires ScanLines(loads, xs).fault.None?
    requires Strip(line) != [] && loads(Strip(line)).Some?
    requires var v := loads(Strip(line)).value; v.JNull? || v.JBool? || v.JNum?
    ensures ScanLines(loads, xs + [line] + ys) == ScanLines(loads, xs).(fault := Some(NotIterable))
  {
    ScanLinesSnoc(loads, xs, line);
    ScanFaultSticky(loads, xs + [line], ys);
  }

  // ---------------------------------------------------------------------------
  // load_file

  /** The outcome of load_file. A missing or empty path changes nothing. Otherwise the
      frames become what the loop kept; with nothing kept the result is "no valid frame
      data" and the cursor is left as it was; with a first record that can be shown the
      cursor goes to 0 and the view is of frame 1 of all kept frames. */
  lemma LoadFileOutcome(s: Store, files: map<string, seq<string>>, loads: string -> Option<Json>, path: string)
    ensures var (s', r) := LoadFileSpec(s, files, loads, path);
            && (path == [] || path !in files ==> s' == s && r == Failure(FileNotFound))
            && (path != [] && path in files ==>
                  var scan := ScanLines(loads, files[path]);
                  && s'.frames == scan.kept
                  && (scan.fault.None? ==> s'.frames == WithFrame(KeepParsed(loads, files[path])))
                  && (scan.fault.Some? ==> s'.cursor == s.cursor && r == Failure(LoadFileFailed(scan.fault.value)))
                  && (scan.fault.None? && scan.kept == [] ==>
                        s'.cursor == s.cursor && r == Failure(NoValidFrameData))
                  && (scan.fault.None? && scan.kept != [] && Displayable(scan.kept[0]) ==>
                        s'.cursor == 0 && r.Success? && r.value.frameIndex == 1
                        && r.value.totalFrames == |s'.frames|))
  {
    if path != [] && path in files {
      var scan := ScanLines(loads, files[path]);
      if scan.fault.None? {
        ScanMatchesFilter(loads, files[path]);
        if scan.kept != [] {
          ShowCurrentOutcome(s.(frames := scan.kept, cursor := 0));
        }
      }
    }
  }

  // ---------------------------------------------------------------------------
  // load_current_frame and go_to_frame

  /** load_current_frame succeeds exactly when the cursor is in range and the record under
      it can be shown; it never moves the cursor or changes the frames, and a view carries
      the 1-based frame number and the number of frames. */
  lemma ShowCurrentOutcome(s: Store)
    ensures var (s', r) := ShowCurrent(s);
            && s'.frames == s.frames && s'.cursor == s.cursor
            && (r.Success? <==> 0 <= s.cursor < |s.frames| && Displayable(s.frames[s.cursor]))
            && (!(0 <= s.cursor < |s.frames|) ==> s' == s && r == Failure(InvalidFrameIndex))
            && (r.Success? ==> r.value.frameIndex == s.cursor + 1 && r.value.totalFrames == |s.frames|
                               && r.value.level == Level && r.value.colorMap == ColorMap())
  {
    if 0 <= s.cursor < |s.frames| {
      var record := s.frames[s.cursor];
      if record.JObj? {
        var data := FieldOr(record.fields, "data", EmptyObject);
        if data.JObj? {
          var actionInput := FieldOr(data.fields, "action_input", EmptyObject);
          if actionInput.JObj? {
            var reasoning := FieldOr(actionInput.fields, "reasoning", EmptyObject);
            assert ReadAction(record).Success? <==> (Truthy(reasoning) ==> reasoning.JObj?);
          }
        }
      }
    }
  }

  /** The header fields are cached before the reasoning metadata is read: once the record and
      its `data` are objects, the store holds them even when reading the reasoning raises;
      otherwise reading them raises and the store is unchanged. */
  lemma ShowCurrentCachesHeader(s: Store)
    requires 0 <= s.cursor < |s.frames|
    ensures var record := s.frames[s.cursor];
            var (s', r) := ShowCurrent(s);
            if record.JObj? && FieldOr(record.fields, "data", EmptyObject).JObj? then
              var data := FieldOr(record.fields, "data", EmptyObject);
              && s'.gameId == FieldOr(data.fields, "game_id", JStr("Unknown"))
              && s'.state == FieldOr(data.fields, "state", JStr("Unknown"))
              && s'.score == FieldOr(data.fields, "score", JNum(0))
              && s'.frameData == FieldOr(data.fields, "frame", DefaultFrame)
            else
              s' == s && r.Failure? && r.error.Raised?
  {
    var record := s.frames[s.cursor];
    if record.JObj? && FieldOr(record.fields, "data", EmptyObject).JObj? {
      HeaderOfRecord(record);
    }
  }

  /** The view of a showable record: every field the record lacks takes its default
      ('Unknown' for the game id and state, 0 for the score, [[[]]] for the frame), and the
      action fields are 'None' when the reasoning is missing or empty. */
  lemma ViewDefaults(s: Store)
    requires 0 <= s.cursor < |s.frames| && Displayable(s.frames[s.cursor])
    ensures var record := s.frames[s.cursor];
            var data := FieldOr(record.fields, "data", EmptyObject);
            var reasoning := FieldOr(FieldOr(data.fields, "action_input", EmptyObject).fields, "reasoning", EmptyObject);
            var (s', r) := ShowCurrent(s);
            && r.Success?
            && r.value.gameId == FieldOr(data.fields, "game_id", JStr("Unknown")) == s'.gameId
            && r.value.state == FieldOr(data.fields, "state", JStr("Unknown")) == s'.state
            && r.value.score == FieldOr(data.fields, "score", JNum(0)) == s'.score
            && r.value.frameData == FieldOr(data.fields, "frame", DefaultFrame) == s'.frameData
            && r.value.reasoning == reasoning
            && (!Truthy(reasoning) ==>
                  r.value.actionChosen == r.value.agentType == r.value.model == JStr("None"))
            && (Truthy(reasoning) ==>
                  && r.value.actionChosen == FieldOr(reasoning.fields, "action_chosen", JStr("None"))
                  && r.value.agentType == FieldOr(reasoning.fields, "agent_type", JStr("None"))
                  && r.value.model == FieldOr(reasoning.fields, "model", JStr("None")))
  {
    var record := s.frames[s.cursor];
    HeaderOfRecord(record);
    ActionOfDisplayable(record);
  }

  /** The cached fields of a record whose `data` is an object, each read with its default. */
  lemma HeaderOfRecord(record: Json)
    requires record.JObj? && FieldOr(record.fields, "data", EmptyObject).JObj?
    ensures var data := FieldOr(record.fields, "data", EmptyObject);
            ReadHeader(record) == Success(Header(FieldOr(data.fields, "game_id", JStr("Unknown")),
                                                 FieldOr(data.fields, "state", JStr("Unknown")),
                                                 FieldOr(data.fields, "score", JNum(0)),
                                                 FieldOr(data.fields, "frame", DefaultFrame)))
  {
  }

  /** The reasoning metadata of a displayable record: 'None' throughout when the reasoning
      is falsy, otherwise each field read with default 'None'. */
  lemma ActionOfDisplayable(record: Json)
    requires Displayable(record)
    ensures var data := FieldOr(record.fields, "data", EmptyObject);
            var reasoning := FieldOr(FieldOr(data.fields, "action_input", EmptyObject).fields, "reasoning", EmptyObject);
            ReadAction(record) == Success(
              if Truthy(reasoning)
              then Action(reasoning, FieldOr(reasoning.fields, "action_chosen", JStr("None")),
                          FieldOr(reasoning.fields, "agent_type", JStr("None")),
                          FieldOr(reasoning.fields, "model", JStr("None")))
              else Action(reasoning, JStr("None"), JStr("None"), JStr("None")))
  {
  }

  /** go_to_frame moves the cursor to an in-range index and shows that frame; any other
      index is reported with the number of frames and changes nothing. */
  lemma GoToOutcome(s: Store, index: int)
    ensures var (s', r) := GoTo(s, index);
            && s'.frames == s.frames
            && (0 <= index < |s.frames| ==>
                  s'.cursor == index
                  && (Displayable(s.frames[index]) ==> r.Success? && r.value.frameIndex == index + 1))
            && (!(0 <= index < |s.frames|) ==>
                  s' == s && r == Failure(FrameIndexOutOfRange(index, |s.frames|)))
  {
    if 0 <= index < |s.frames| {
      ShowCurrentOutcome(s.(cursor := index));
    }
  }

  // ---------------------------------------------------------------------------
  // The cursor

  /** Showing the current record never moves the cursor off the frames. */
  lemma ShowCurrentKeepsCursorOk(s: Store)
    requires CursorOk(s)
    ensures CursorOk(ShowCurrent(s).0)
  {
  }

  /** A cursor move keeps the cursor on the frames. */
  lemma GoToKeepsCursorOk(s: Store, index: int)
    requires CursorOk(s)
    ensures CursorOk(GoTo(s, index).0)
  {
  }

  /** A load that raises nothing leaves the cursor on the new frames, whatever it was before. */
  lemma LoadEstablishesCursorOk(s: Store, loads: string -> Option<Json>, lines: seq<string>)
    requires ScanLines(loads, lines).fault.None?
    ensures CursorOk(LoadLines(s, loads, lines).0)
  {
  }

  /** A record that passes the shape test, and the loads function of a three-line file whose
      last line parses to null. */
  const Framed: Json := JObj(map["data" := JObj(map["frame" := JArr([])])])

  function LoadsGoodGoodNull(t: string): Option<Json> {
    if t == "g" then Some(Framed) else if t == "n" then Some(JNull) else None
  }

  /** A load that raises keeps the frames read so far but not the cursor: from eight frames
      at cursor 5, the file "g", "g", "n" leaves two frames and the cursor still at 5. */
  lemma FaultingLoadStrandsCursor(s: Store)
    requires |s.frames| == 8 && s.cursor == 5 && CursorOk(s)
    ensures var res := LoadLines(s, LoadsGoodGoodNull, ["g", "g", "n"]);
            res.0.frames == [Framed, Framed] && res.0.cursor == 5 && !CursorOk(res.0)
            && res.1 == Failure(LoadFileFailed(NotIterable))
  {
    assert Strip("g") == "g" && Strip("n") == "n";
    var s0 := Scan([], 0, None);
    var lines := ["g", "g", "n"];
    assert lines[..0] == [];
    assert ScanLines(LoadsGoodGoodNull, lines[..1]) == ScanLine(LoadsGoodGoodNull, s0, "g");
    assert lines[..2][..1] == lines[..1];
    assert lines[..3][..2] == lines[..2];
    assert lines[..3] == lines;
  }

  // ---------------------------------------------------------------------------
  // From the cache file back into the store

  /** A non-empty sequence is its front followed by its last element. */
  lemma LastSplit<T>(s: seq<T>)
    requires s != []
    ensures s == s[..|s| - 1] + [s[|s| - 1]]
  {
  }

  /** A cache file written by save_recording parses back to the saved records. */
  lemma {:induction false} ParseSavedLines(codec: Codec, frames: seq<Json>)
    requires Lawful(codec)
    ensures KeepParsed(codec.loads, SavedLines(codec.dumps, frames)) == frames
  {
    if frames != [] {
      var init, last := frames[..|frames| - 1], frames[|frames| - 1];
      var lines := SavedLines(codec.dumps, frames);
      var d := codec.dumps(last);
      assert lines[..|lines| - 1] == SavedLines(codec.dumps, init) && lines[|lines| - 1] == d;
      StripUnpadded(d);
      assert ParseLine(codec.loads, d) == [last];
      calc {
        KeepParsed(codec.loads, lines);
        KeepParsed(codec.loads, SavedLines(codec.dumps, init)) + [last];
        { ParseSavedLines(codec, init); }
        init + [last];
        { LastSplit(frames); }
        frames;
      }
    }
  }

  /** Loading a cache file written by save_recording gives back the saved records, with no
      error line, when every one of them passes the shape test. */
  lemma {:induction false} SaveThenScan(codec: Codec, frames: seq<Json>)
    requires Lawful(codec)
    requires forall i :: 0 <= i < |frames| ==> HasFrame(frames[i]) == Success(true)
    ensures ScanLines(codec.loads, SavedLines(codec.dumps, frames)) == Scan(frames, 0, None)
  {
    if frames != [] {
      var init, last := frames[..|frames| - 1], frames[|frames| - 1];
      SaveThenScan(codec, init);
      var lines := SavedLines(codec.dumps, frames);
      assert lines == SavedLines(codec.dumps, init) + [codec.dumps(last)];
      ScanLinesSnoc(codec.loads, SavedLines(codec.dumps, init), codec.dumps(last));
      StripUnpadded(codec.dumps(last));
      LastSplit(frames);
    }
  }

  /** load_recording on a cache miss whose fetch parses some records, each with a frame:
      the records are written to the cache path, and the store ends up holding exactly them
      with the cursor on the first. */
  lemma FetchedRecordingLoads(s: Store, files: map<string, seq<string>>, storageDir: string, baseUrl: string,
                              maxRetries: int, codec: Codec, respond: (string, nat) -> Outcome,
                              gameId: string, recordingId: string, frames: seq<Json>)
    requires Lawful(codec)
    requires CachePath(storageDir, gameId, recordingId) !in files
    requires Fetched(codec.loads, RetryFrom(respond, RecordingUrl(baseUrl, gameId, recordingId), maxRetries, 0))
             == Some(frames)
    requires frames != []
    requires forall i :: 0 <= i < |frames| ==> HasFrame(frames[i]) == Success(true)
    ensures var path := CachePath(storageDir, gameId, recordingId);
            var res := Resolve(files, storageDir, baseUrl, maxRetries, codec, respond, gameId, recordingId);
            var (s', r) := LoadRecordingSpec(s, res, codec.loads);
            && res.path == Some(path)
            && res.files == files[path := SavedLines(codec.dumps, frames)]
            && s'.frames == frames && s'.cursor == 0
  {
    var path := CachePath(storageDir, gameId, recordingId);
    var res := Resolve(files, storageDir, baseUrl, maxRetries, codec, respond, gameId, recordingId);
    var lines := SavedLines(codec.dumps, frames);
    assert res.path == Some(path) && res.files == files[path := lines];
    assert path != [] && path in res.files && res.files[path] == lines;
    assert LoadRecordingSpec(s, res, codec.loads) == LoadLines(s, codec.loads, lines);
    LoadSavedLines(s, codec, frames);
  }

  /** load_file on a cache file written by save_recording, when every saved record passes
      the shape test: the store holds exactly the saved records, with the cursor on the first. */
  lemma LoadSavedLines(s: Store, codec: Codec, frames: seq<Json>)
    requires Lawful(codec)
    requires frames != []
    requires forall i :: 0 <= i < |frames| ==> HasFrame(frames[i]) == Success(true)
    ensures var (s', r) := LoadLines(s, codec.loads, SavedLines(codec.dumps, frames));
            s'.frames == frames && s'.cursor == 0
  {
    SaveThenScan(codec, frames);
    LoadLinesKept(s, codec.loads, SavedLines(codec.dumps, frames));
  }

  /** load_file whose loop kept some records without raising: the store holds exactly them,
      with the cursor on the first. */
  lemma LoadLinesKept(s: Store, loads: string -> Option<Json>, lines: seq<string>)
    requires ScanLines(loads, lines).fault.None? && ScanLines(loads, lines).kept != []
    ensures var (s', r) := LoadLines(s, loads, lines);
            s'.frames == ScanLines(loads, lines).kept && s'.cursor == 0
  {
    ShowCurrentOutcome(s.(frames := ScanLines(loads, lines).kept, cursor := 0));
  }

  /** load_recording on a cache miss when every attempt fails: "failed to fetch", with the
      cache and the store unchanged. */
  lemma UnreachableRecordingFails(s: Store, files: map<string, seq<string>>, storageDir: string, baseUrl: string,
                                  maxRetries: int, codec: Codec, respond: (string, nat) -> Outcome,
                                  gameId: string, recordingId: string)
    requires CachePath(storageDir, gameId, recordingId) !in files
    requires forall j :: 0 <= j < maxRetries ==> respond(RecordingUrl(baseUrl, gameId, recordingId), j).Fail?
    ensures var res := Resolve(files, storageDir, baseUrl, maxRetries, codec, respond, gameId, recordingId);
            && res.files == files
            && LoadRecordingSpec(s, res, codec.loads) == (s, Failure(FetchFailed))
  {
    FetchExhausted(codec.loads, respond, RecordingUrl(baseUrl, gameId, recordingId), maxRetries);
  }

  /** load_recording on a cached identity reads the cache file, touching neither the
      network nor the cache: its outcome is load_file's on the cache path. */
  lemma CachedRecordingLoads(s: Store, files: map<string, seq<string>>, storageDir: string, baseUrl: string,
                             maxRetries: int, codec: Codec, respond: (string, nat) -> Outcome,
                             gameId: string, recordingId: string)
    requires CachePath(storageDir, gameId, recordingId) in files
    ensures var path := CachePath(storageDir, gameId, recordingId);
            var res := Resolve(files, storageDir, baseUrl, maxRetries, codec, respond, gameId, recordingId);
            && res.attempts == 0 && res.files == files
            && LoadRecordingSpec(s, res, codec.loads) == LoadFileSpec(s, files, codec.loads, path)
  {
  }
}
