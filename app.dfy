/** The frame store and cursor of app.py: the visualizer keeps the accepted records of a
    recording in order and a cursor into them, loads a line-delimited file by filtering its
    lines, moves the cursor on request, and projects the current record into a view. */
module App {
  import opened Wrappers
  import opened Text
  import opened JsonValues
  import opened Storage
  import opened Fetcher

  const DefaultGameId: string := "ft09-16726c5b26ff"
  const DefaultRecordingId: string := "1ed47a81-fda5-4524-afd5-751d3ec30479"
  const InitialState: string := "NOT_FINISHED"
  const Level: int := 1

  /** The grid shown when a record has no frame: one layer holding one empty row. */
  const DefaultFrame: Json := JArr([JArr([JArr([])])])

  /** The palette: grid value -> (RGBA hex colour, colour name). */
  function ColorMap(): (m: map<int, (string, string)>)
    ensures forall v :: v in m <==> 0 <= v < 16
    ensures forall v :: v in m ==> |m[v].0| == 9 && m[v].0[0] == '#' && m[v].0[7..] == "FF"
  {
    map[
      0 := ("#FFFFFFFF", "White"),
      1 := ("#CCCCCCFF", "Light gray"),
      2 := ("#999999FF", "Gray"),
      3 := ("#666666FF", "Dark gray"),
      4 := ("#333333FF", "Charcoal"),
      5 := ("#000000FF", "Black"),
      6 := ("#E53AA3FF", "Pink"),
      7 := ("#FF7BCCFF", "Light pink"),
      8 := ("#F93C31FF", "Red"),
      9 := ("#1E93FFFF", "Blue"),
      10 := ("#88D8F1FF", "Light blue"),
      11 := ("#FFDC00FF", "Yellow"),
      12 := ("#FF851BFF", "Orange"),
      13 := ("#921231FF", "Dark red"),
      14 := ("#4FCC30FF", "Green"),
      15 := ("#A356D6FF", "Purple")
    ]
  }

  // ---------------------------------------------------------------------------
  // Filtering the lines of a file

  /** The shape test of a loaded line: `'data' in v and 'frame' in v['data']`, which raises
      for a value of the wrong type. */
  function HasFrame(v: Json): (r: Result<bool, Fault>)
    ensures v.JObj? && "data" in v.fields && v.fields["data"].JObj? ==>
              r == Success("frame" in v.fields["data"].fields)
    ensures r == Success(true) ==> v.JObj? && "data" in v.fields
    ensures v.JStr? || v.JArr? ==> (r.Failure? <==> HasKey(v, "data") == Success(true))
    ensures v.JObj? && "data" !in v.fields ==> r == Success(false)
    ensures v.JObj? && "data" in v.fields ==>
              (v.fields["data"].JNull? || v.fields["data"].JBool? || v.fields["data"].JNum? ==> r == Failure(NotIterable))
    ensures v.JNull? || v.JBool? || v.JNum? ==> r == Failure(NotIterable)
  {
    var hasData :- HasKey(v, "data");
    if !hasData then Success(false)
    else
      var data :- Subscript(v, "data");
      HasKey(data, "frame")
  }

  /** The state of the load loop: the records kept so far, the lines counted as errors, and
      the exception that ended the loop, if one did. */
  datatype Scan = Scan(kept: seq<Json>, errors: nat, fault: Option<Fault>)

  /** One iteration of the load loop: a blank line is skipped; a line that does not parse or
      lacks data.frame is counted as an error; a line whose shape test raises ends the loop. */
  function ScanLine(loads: string -> Option<Json>, s: Scan, line: string): (t: Scan)
    ensures s.kept <= t.kept && |t.kept| + t.errors <= |s.kept| + s.errors + 1
    ensures t.fault != s.fault ==> t.kept == s.kept && t.errors == s.errors
  {
    var t := Strip(line);
    if t == [] then s
    else match loads(t)
      case None => s.(errors := s.errors + 1)
      case Some(v) =>
        match HasFrame(v)
        case Failure(f) => s.(fault := Some(f))
        case Success(true) => s.(kept := s.kept + [v])
        case Success(false) => s.(errors := s.errors + 1)
  }

  /** The load loop over all lines of a file; once a fault ends it, later lines are not read. */
  function ScanLines(loads: string -> Option<Json>, lines: seq<string>): (scan: Scan)
    ensures |scan.kept| + scan.errors <= |lines|
  {
    if lines == [] then Scan([], 0, None)
    else
      var s := ScanLines(loads, lines[..|lines| - 1]);
      if s.fault.Some? then s else ScanLine(loads, s, lines[|lines| - 1])
  }

  /** The load loop over one more line. */
  lemma ScanLinesSnoc(loads: string -> Option<Json>, xs: seq<string>, line: string)
    ensures var s := ScanLines(loads, xs);
            ScanLines(loads, xs + [line]) == if s.fault.Some? then s else ScanLine(loads, s, line)
  {
    assert (xs + [line])[..|xs|] == xs;
  }

  /** Once a fault has ended the load loop, further lines change nothing. */
  lemma {:induction false} ScanFaultSticky(loads: string -> Option<Json>, xs: seq<string>, ys: seq<string>)
    requires ScanLines(loads, xs).fault.Some?
    ensures ScanLines(loads, xs + ys) == ScanLines(loads, xs)
    decreases |ys|
  {
    if ys == [] {
      assert xs + ys == xs;
    } else {
      ScanFaultSticky(loads, xs, ys[..|ys| - 1]);
      assert (xs + ys)[..|xs + ys| - 1] == xs + ys[..|ys| - 1];
    }
  }

  /** The load loop over no line. */
  lemma ScanLinesPrefix0(loads: string -> Option<Json>, lines: seq<string>)
    ensures ScanLines(loads, lines[..0]) == Scan([], 0, None)
  {
    assert lines[..0] == [];
  }

  /** The load loop over the first i + 1 lines, from the loop over the first i. */
  lemma ScanLinesPrefix(loads: string -> Option<Json>, lines: seq<string>, i: nat)
    requires i < |lines|
    ensures var s := ScanLines(loads, lines[..i]);
            ScanLines(loads, lines[..i + 1]) == if s.fault.Some? then s else ScanLine(loads, s, lines[i])
  {
    assert lines[..i + 1] == lines[..i] + [lines[i]];
    ScanLinesSnoc(loads, lines[..i], lines[i]);
  }

  /** A fault within the first i lines ends the loop over the whole file. */
  lemma ScanFaultStickyPrefix(loads: string -> Option<Json>, lines: seq<string>, i: nat)
    requires i <= |lines|
    requires ScanLines(loads, lines[..i]).fault.Some?
    ensures ScanLines(loads, lines) == ScanLines(loads, lines[..i])
  {
    assert lines == lines[..i] + lines[i..];
    ScanFaultSticky(loads, lines[..i], lines[i..]);
  }

  // ---------------------------------------------------------------------------
  // The view of a record

  /** The fields the store caches from the current record. */
  datatype Header = Header(gameId: Json, state: Json, score: Json, frame: Json)

  /** The reasoning metadata of a record. */
  datatype Action = Action(reasoning: Json, actionChosen: Json, agentType: Json, model: Json)

  /** What the consumer is shown for the current frame (the session id is not modelled). */
  datatype View = View(gameId: Json, state: Json, score: Json, actionChosen: Json, agentType: Json,
                       model: Json, frameIndex: int, totalFrames: nat, frameData: Json, reasoning: Json,
                       level: int, colorMap: map<int, (string, string)>)

  /** The errors the store reports, and the exceptions it lets escape (`Raised`). */
  datatype Error =
    | FileNotFound                                   // "File not found"
    | NoValidFrameData                               // "No valid frame data found in file"
    | InvalidFrameIndex                              // "Invalid frame index" (cursor out of range)
    | FrameIndexOutOfRange(index: int, total: nat)   // "Invalid frame index: {index}; total frames: {total}"
    | LoadFileFailed(fault: Fault)                   // "Error loading file: ..."
    | FetchFailed                                    // "Failed to fetch recording from API"
    | Raised(fault: Fault)                           // an exception that escapes to the caller

  /** The cached fields of a record: data.game_id, data.state, data.score and data.frame,
      each with its default; raises when `data` is not an object. */
  function ReadHeader(record: Json): (r: Result<Header, Fault>)
    ensures r.Success? <==> record.JObj? && FieldOr(record.fields, "data", EmptyObject).JObj?
  {
    var data :- Get(record, "data", EmptyObject);
    var gameId :- Get(data, "game_id", JStr("Unknown"));
    // Once the first read of `data` has succeeded, `data` is an object and the rest cannot raise.
    Success(Header(gameId, Get(data, "state", JStr("Unknown")).value, Get(data, "score", JNum(0)).value,
                   Get(data, "frame", DefaultFrame).value))
  }

  /** The reasoning metadata of a record: data.action_input.reasoning and, when it is truthy,
      its action_chosen, agent_type and model, each defaulting to "None". */
  function ReadAction(record: Json): (r: Result<Action, Fault>)
    ensures r.Success? <==> Displayable(record)
  {
    var data :- Get(record, "data", EmptyObject);
    var actionInput :- Get(data, "action_input", EmptyObject);
    var reasoning :- Get(actionInput, "reasoning", EmptyObject);
    if Truthy(reasoning) then
      var actionChosen :- Get(reasoning, "action_chosen", JStr("None"));
      Success(Action(reasoning, actionChosen, Get(reasoning, "agent_type", JStr("None")).value,
                     Get(reasoning, "model", JStr("None")).value))
    else
      Success(Action(reasoning, JStr("None"), JStr("None"), JStr("None")))
  }

  /** The value at `key` of an object, or `default` when absent. */
  function FieldOr(fields: map<string, Json>, key: string, default: Json): Json {
    if key in fields then fields[key] else default
  }

  /** A record whose view can be built: the record, its `data` and `data.action_input` are
      objects where present, and `data.action_input.reasoning` is an object or falsy. */
  predicate Displayable(record: Json) {
    && record.JObj?
    && var data := FieldOr(record.fields, "data", EmptyObject);
    && data.JObj?
    && var actionInput := FieldOr(data.fields, "action_input", EmptyObject);
    && actionInput.JObj?
    && var reasoning := FieldOr(actionInput.fields, "reasoning", EmptyObject);
    && (Truthy(reasoning) ==> reasoning.JObj?)
  }

  // ---------------------------------------------------------------------------
  // The store as a value, and what each operation does to it

  /** The visualizer's mutable state. */
  datatype Store = Store(frames: seq<Json>, cursor: int, gameId: Json, state: Json, score: Json, frameData: Json)

  /** The cursor points at a frame whenever there are frames. */
  predicate CursorOk(s: Store) {
    s.frames != [] ==> 0 <= s.cursor < |s.frames|
  }

  /** load_current_frame: the view of the record under the cursor; the cached header fields
      are updated before the reasoning metadata is read, so they stay updated when that raises. */
  function ShowCurrent(s: Store): (res: (Store, Result<View, Error>))
    ensures res.0.frames == s.frames && res.0.cursor == s.cursor
    ensures res.1.Success? <==> 0 <= s.cursor < |s.frames| && Displayable(s.frames[s.cursor])
    ensures res.1.Success? ==> res.1.value.frameIndex == s.cursor + 1 && res.1.value.totalFrames == |s.frames|
    ensures res.1.Failure? ==> res.1.error == InvalidFrameIndex || res.1.error.Raised?
  {
    if !(0 <= s.cursor < |s.frames|) then (s, Failure(InvalidFrameIndex))
    else
      var record := s.frames[s.cursor];
      match ReadHeader(record)
      case Failure(f) => (s, Failure(Raised(f)))
      case Success(h) =>
        var s' := s.(gameId := h.gameId, state := h.state, score := h.score, frameData := h.frame);
        match ReadAction(record)
        case Failure(f) => (s', Failure(Raised(f)))
        case Success(a) =>
          (s', Success(View(h.gameId, h.state, h.score, a.actionChosen, a.agentType, a.model,
                            s.cursor + 1, |s.frames|, h.frame, a.reasoning, Level, ColorMap())))
  }

  /** go_to_frame: a bounds-checked cursor move followed by load_current_frame. */
  function GoTo(s: Store, index: int): (res: (Store, Result<View, Error>))
    ensures res.0.frames == s.frames
    ensures 0 <= index < |s.frames| ==> res.0.cursor == index
    ensures !(0 <= index < |s.frames|) ==> res == (s, Failure(FrameIndexOutOfRange(index, |s.frames|)))
    ensures res.1.Success? ==> res.1.value.frameIndex == index + 1
  {
    if 0 <= index < |s.frames| then ShowCurrent(s.(cursor := index))
    else (s, Failure(FrameIndexOutOfRange(index, |s.frames|)))
  }

  /** load_file catches every exception raised inside it and reports it as an error. */
  function CaughtByLoad(r: Result<View, Error>): (c: Result<View, Error>)
    ensures c.Success? <==> r.Success?
    ensures c.Failure? ==> !c.error.Raised?
    ensures !(r.Failure? && r.error.Raised?) ==> c == r
    ensures r.Failure? && r.error.Raised? ==> c.error.LoadFileFailed? && c.error.fault == r.error.fault
  {
    match r
    case Failure(Raised(f)) => Failure(LoadFileFailed(f))
    case _ => r
  }

  /** load_file on an existing file: the frames become the records the load loop kept (also
      when it stopped on a fault); when some were kept the cursor goes to 0 and the first is
      shown; otherwise the cursor is left as it was. */
  function LoadLines(s: Store, loads: string -> Option<Json>, lines: seq<string>): (res: (Store, Result<View, Error>))
    ensures res.0.frames == ScanLines(loads, lines).kept
    ensures res.1.Success? ==> res.0.cursor == 0 && res.1.value.frameIndex == 1
                               && res.1.value.totalFrames == |res.0.frames|
    ensures res.1.Failure? ==> res.1.error.LoadFileFailed? || res.1.error == NoValidFrameData
  {
    var scan := ScanLines(loads, lines);
    var s1 := s.(frames := scan.kept);
    if scan.fault.Some? then (s1, Failure(LoadFileFailed(scan.fault.value)))
    else if scan.kept == [] then (s1, Failure(NoValidFrameData))
    else
      var shown := ShowCurrent(s1.(cursor := 0));
      (shown.0, CaughtByLoad(shown.1))
  }

  /** load_file: an empty or missing path is reported before anything changes. */
  function LoadFileSpec(s: Store, files: map<string, seq<string>>, loads: string -> Option<Json>, path: string)
    : (res: (Store, Result<View, Error>))
    ensures res.1 == Failure(FileNotFound) <==> path == [] || path !in files
    ensures res.1 == Failure(FileNotFound) ==> res.0 == s
  {
    if path == [] || path !in files then (s, Failure(FileNotFound))
    else LoadLines(s, loads, files[path])
  }

  /** load_recording after the cache-first fetch: a fetch that yields no path is reported;
      otherwise the result is load_file's on the returned path. */
  function LoadRecordingSpec(s: Store, res: Resolution, loads: string -> Option<Json>): (out: (Store, Result<View, Error>))
    ensures out.1 == Failure(FetchFailed) <==> res.path.None? || res.path.value == []
    ensures out.1 == Failure(FetchFailed) ==> out.0 == s
    ensures res.path.Some? && res.path.value in res.files ==> out.1 != Failure(FileNotFound)
  {
    if res.path.Some? && res.path.value != [] then LoadFileSpec(s, res.files, loads, res.path.value)
    else (s, Failure(FetchFailed))
  }

  // ---------------------------------------------------------------------------

  class FrameVisualizer {
    const fetcher: RecordingFetcher
    const defaultGameId: string := DefaultGameId
    const defaultRecordingId: string := DefaultRecordingId
    const level: int := Level
    const colorMap: map<int, (string, string)> := ColorMap()

    var frameData: Json
    var gameId: Json
    var state: Json
    var score: Json
    var currentFrameIndex: int
    var frames: seq<Json>

    function Snapshot(): Store
      reads this
    {
      Store(frames, currentFrameIndex, gameId, state, score, frameData)
    }

    constructor ()
      ensures fresh(fetcher) && fetcher.baseUrl == ApiBaseUrl && fetcher.storageDir == DefaultStorageDir
      ensures fetcher.maxRetries == DefaultMaxRetries && fetcher.timeout == DefaultTimeout
      ensures Snapshot() == Store([], 0, JStr(DefaultGameId), JStr(InitialState), JNum(0), DefaultFrame)
    {
      fetcher := new RecordingFetcher();
      frameData := DefaultFrame;
      gameId := JStr(DefaultGameId);
      state := JStr(InitialState);
      score := JNum(0);
      currentFrameIndex := 0;
      frames := [];
    }

    /** Fetches (or finds in the cache) the recording and loads it; a missing id means the
        default recording. */
    method LoadRecording(fs: FileSystem, codec: Codec, respond: (string, nat) -> Outcome,
                         gameId: Option<string>, recordingId: Option<string>)
      returns (r: Result<View, Error>)
      modifies this, fs
      ensures var g := if gameId.Some? then gameId.value else DefaultGameId;
              var rid := if recordingId.Some? then recordingId.value else DefaultRecordingId;
              var res := Resolve(old(fs.files), fetcher.storageDir, fetcher.baseUrl, fetcher.maxRetries,
                                 codec, respond, g, rid);
              fs.files == res.files && (Snapshot(), r) == LoadRecordingSpec(old(Snapshot()), res, codec.loads)
    {
      var g := if gameId.Some? then gameId.value else defaultGameId;
      var rid := if recordingId.Some? then recordingId.value else defaultRecordingId;
      var path, attempts, delays := fetcher.FetchAndCacheRecording(fs, codec, respond, g, rid);
      if path.Some? && path.value != [] {
        var errorCount;
        r, errorCount := LoadFile(fs, codec, path.value);
      } else {
        r := Failure(FetchFailed);
      }
    }

    /** Loads the frames of a line-delimited JSON file; also returns the number of lines the
        loop counted as errors. */
    method LoadFile(fs: FileSystem, codec: Codec, filepath: string) returns (r: Result<View, Error>, errorCount: nat)
      modifies this
      ensures (Snapshot(), r) == LoadFileSpec(old(Snapshot()), fs.files, codec.loads, filepath)
      ensures errorCount == if filepath == [] || filepath !in fs.files then 0
                            else ScanLines(codec.loads, fs.files[filepath]).errors
    {
      if filepath == [] || filepath !in fs.files {
        return Failure(FileNotFound), 0;
      }
      var lines := fs.files[filepath];
      var fault;
      errorCount, fault := ScanFrames(codec, lines);
      if fault.Some? {
        return Failure(LoadFileFailed(fault.value)), errorCount;
      }
      if frames != [] {
        currentFrameIndex := 0;
        var shown := LoadCurrentFrame();
        r := CaughtByLoad(shown);
      } else {
        r := Failure(NoValidFrameData);
      }
    }

    /** The loop of load_file: clears the frames and appends every record that passes the
        shape test, counting the other non-blank lines; stops at the first line whose shape
        test raises. */
    method ScanFrames(codec: Codec, lines: seq<string>) returns (errorCount: nat, fault: Option<Fault>)
      modifies this`frames
      ensures ScanLines(codec.loads, lines) == Scan(frames, errorCount, fault)
    {
      frames := [];
      errorCount := 0;
      var i := 0;
      ScanLinesPrefix0(codec.loads, lines);
      while i < |lines|
        invariant 0 <= i <= |lines|
        invariant ScanLines(codec.loads, lines[..i]) == Scan(frames, errorCount, None)
      {
        ScanLinesPrefix(codec.loads, lines, i);
        var lineFault;
        errorCount, lineFault := ScanLineInto(codec, lines[i], errorCount);
        if lineFault.Some? {
          ScanFaultStickyPrefix(codec.loads, lines, i + 1);
          return errorCount, lineFault;
        }
        i := i + 1;
      }
      assert lines[..i] == lines;
      fault := None;
    }

    /** The body of the load loop for one line. */
    method ScanLineInto(codec: Codec, line: string, errors: nat) returns (errorCount: nat, fault: Option<Fault>)
      modifies this`frames
      ensures ScanLine(codec.loads, Scan(old(frames), errors, None), line) == Scan(frames, errorCount, fault)
    {
      errorCount, fault := errors, None;
      var text := Strip(line);
      if text != [] {
        var data := codec.loads(text);
        if data.None? {
          errorCount := errorCount + 1;
        } else {
          var shape := HasFrame(data.value);
          if shape.Failure? {
            fault := Some(shape.error);
          } else if shape.value {
            frames := frames + [data.value];
          } else {
            errorCount := errorCount + 1;
          }
        }
      }
    }

    /** Builds the view of the current record and caches its header fields. */
    method LoadCurrentFrame() returns (r: Result<View, Error>)
      modifies this
      ensures (Snapshot(), r) == ShowCurrent(old(Snapshot()))
    {
      if 0 <= currentFrameIndex < |frames| {
        var record := frames[currentFrameIndex];
        var data := Get(record, "data", EmptyObject);
        if data.Failure? {
          return Failure(Raised(data.error));
        }
        var g := Get(data.value, "game_id", JStr("Unknown"));
        if g.Failure? {
          return Failure(Raised(g.error));
        }
        gameId := g.value;
        state := Get(data.value, "state", JStr("Unknown")).value;
        score := Get(data.value, "score", JNum(0)).value;
        frameData := Get(data.value, "frame", DefaultFrame).value;
        var actionInput := Get(data.value, "action_input", EmptyObject).value;
        var reasoning := Get(actionInput, "reasoning", EmptyObject);
        if reasoning.Failure? {
          return Failure(Raised(reasoning.error));
        }
        var actionChosen, agentType, model := JStr("None"), JStr("None"), JStr("None");
        if Truthy(reasoning.value) {
          var chosen := Get(reasoning.value, "action_chosen", JStr("None"));
          if chosen.Failure? {
            return Failure(Raised(chosen.error));
          }
          actionChosen := chosen.value;
          agentType := Get(reasoning.value, "agent_type", JStr("None")).value;
          model := Get(reasoning.value, "model", JStr("None")).value;
        }
        return Success(View(gameId, state, score, actionChosen, agentType, model, currentFrameIndex + 1,
                            |frames|, frameData, reasoning.value, level, colorMap));
      }
      return Failure(InvalidFrameIndex);
    }

    /** Moves the cursor to `frameIndex` when it is in range and shows that frame. */
    method GoToFrame(frameIndex: int) returns (r: Result<View, Error>)
      modifies this
      ensures (Snapshot(), r) == GoTo(old(Snapshot()), frameIndex)
    {
      if 0 <= frameIndex < |frames| {
        currentFrameIndex := frameIndex;
        r := LoadCurrentFrame();
        return;
      }
      r := Failure(FrameIndexOutOfRange(frameIndex, |frames|));
    }
  }
}
