/** The two entry points of logger.py: `log_state`, the frame-throttled state
    sampler with its frame budget, and `log_event`, the event recorder, over the
    module-level state they share (a frame counter and one "initialized" flag
    per log file). The clock, the file system and JSON text are outside the
    model: a clock reading is a parameter, and each call returns the write it
    would perform, as an open mode and the entry. */
module Logger {
  import opened Options
  import opened Dict
  import opened Json
  import opened Snapshot

  /** Sampling rate and time budget (logger.py:27-28). */
  const FPS: nat := 60
  const MaxSeconds: nat := 16
  const FrameBudget: nat := FPS * MaxSeconds

  /** The module-level state (logger.py:32-34). */
  datatype LoggerState = LoggerState(frameCount: nat, stateLogInitialized: bool, eventLogInitialized: bool)

  /** The state at module load. */
  const Start := LoggerState(0, false, false)

  /** One reading of `datetime.now()`: the formatted wall-clock time and the
      floored seconds since module load. */
  datatype Clock = Clock(timestamp: string, elapsedSeconds: int)

  /** The mode a log file is opened in: "w" truncates, "a" appends. */
  datatype Mode = Truncate | Append

  datatype StateEntry = StateEntry(clock: Clock, frame: nat, screenSize: Option<Size>, objects: Dict<Snap>)

  datatype EventEntry = EventEntry(clock: Clock, frame: nat, eventType: string, details: Dict<Json>)

  /** One line written to game_state.jsonl or to game_events.jsonl. */
  datatype Write =
    | StateWrite(mode: Mode, state: StateEntry)
    | EventWrite(mode: Mode, event: EventEntry)
  {
    function Frame(): nat {
      if StateWrite? then state.frame else event.frame
    }
  }

  /** "w" on a file's first write, "a" afterwards (logger.py:138, 160). */
  function ModeFor(initialized: bool): Mode {
    if initialized then Append else Truncate
  }

  /** One call of `log_state` (logger.py:38-142). `caller` is the caller's
      variables in iteration order, or `None` when the interpreter offers no
      caller frame (logger.py:54-60). */
  function LogState(s: LoggerState, now: Clock, caller: Option<seq<Candidate>>): (r: (LoggerState, Option<Write>))
    ensures s.frameCount > FrameBudget ==> r == (s, None)
    ensures s.frameCount <= FrameBudget ==> r.0.frameCount == s.frameCount + 1
    ensures r.0.eventLogInitialized == s.eventLogInitialized
    ensures r.1.Some? <==> s.frameCount <= FrameBudget && r.0.frameCount % FPS == 0 && caller.Some?
    ensures r.1.None? ==> r.0.stateLogInitialized == s.stateLogInitialized
    ensures r.1.Some? ==>
      && r.0.stateLogInitialized
      && r.1.value.StateWrite?
      && (r.1.value.mode == Truncate <==> !s.stateLogInitialized)
      && r.1.value.state.clock == now
      && r.1.value.state.frame == r.0.frameCount
      && r.1.value.state.frame % FPS == 0
      && r.1.value.state.screenSize == Discover(caller.value).screenSize
      && r.1.value.state.objects == Discover(caller.value).objects
  {
    if s.frameCount > FrameBudget then (s, None)
    else
      var n := s.frameCount + 1;
      var t := s.(frameCount := n);
      if n % FPS != 0 || caller.None? then (t, None)
      else
        var found := Discover(caller.value);
        var entry := StateEntry(now, n, found.screenSize, found.objects);
        (t.(stateLogInitialized := true), Some(StateWrite(ModeFor(s.stateLogInitialized), entry)))
  }

  /** One call of `log_event` (logger.py:145-164): stamps the current frame
      without advancing it. */
  function LogEvent(s: LoggerState, now: Clock, eventType: string, details: Dict<Json>): (r: (LoggerState, Write))
    ensures r.0.frameCount == s.frameCount
    ensures r.0.stateLogInitialized == s.stateLogInitialized
    ensures r.0.eventLogInitialized
    ensures r.1.EventWrite? && r.1.Frame() == s.frameCount
    ensures r.1.mode == Truncate <==> !s.eventLogInitialized
    ensures r.1.event.clock == now && r.1.event.eventType == eventType && r.1.event.details == details
  {
    var entry := EventEntry(now, s.frameCount, eventType, details);
    (s.(eventLogInitialized := true), EventWrite(ModeFor(s.eventLogInitialized), entry))
  }

  /** A call the game loop makes into the logger. */
  datatype Call =
    | StateCall(now: Clock, caller: Option<seq<Candidate>>)
    | EventCall(now: Clock, eventType: string, details: Dict<Json>)

  function Step(s: LoggerState, c: Call): (LoggerState, seq<Write>) {
    match c
    case StateCall(now, caller) =>
      var (t, w) := LogState(s, now, caller);
      (t, if w.Some? then [w.value] else [])
    case EventCall(now, eventType, details) =>
      var (t, w) := LogEvent(s, now, eventType, details);
      (t, [w])
  }

  /** A run of calls: the final state and every write, in order. */
  function Run(s: LoggerState, calls: seq<Call>): (LoggerState, seq<Write>) {
    if |calls| == 0 then (s, [])
    else
      var (t, ws) := Run(s, calls[..|calls| - 1]);
      var (u, w) := Step(t, calls[|calls| - 1]);
      (u, ws + w)
  }
}
