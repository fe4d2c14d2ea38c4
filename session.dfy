/**
 * The keypress dispatcher and the recording state machine, as values.
 *
 * `State` holds what the module-level variables `gravando`, `gravacao`,
 * `tempoInicio`, `tempoInterval` and `arquivoAtual` hold, together with the
 * auto-stop timers still pending, the number of recorders spawned so far and
 * whether `process.exit` has run. Each event is turned into the new state and
 * the effects the code performs for it, in the order it performs them; the
 * dispatcher class is proved against these functions, and the properties of
 * the machine are proved here about them.
 *
 * Clock readings and the success of device calls are inputs. Each event is
 * handled to completion before the next one starts.
 */
module Session {
  import opened Wrappers
  import opened Names

  /** A recorder subprocess: the number of the spawn that created it, and whether it exposes stdin. */
  datatype Proc = Proc(id: nat, hasStdin: bool)

  /** A pan/tilt/zoom speed in hundredths of the device's unit range [-1, 1]. */
  datatype Vector = Vector(x: int, y: int, z: int)

  /** What the code does to the world outside its own variables. */
  datatype Effect =
    | EnsureDir(dir: string)                  // existsSync, then mkdirSync when absent
    | AppendLog(logFile: string, line: string)
    | Spawn(proc: Proc, output: string)       // the ffmpeg recorder writing to `output`
    | WriteQuit(proc: Proc)                   // stdin.write('q')
    | EndStdin(proc: Proc)                    // stdin.end()
    | Interrupt(proc: Proc)                   // kill('SIGINT')
    | PtzMove(speed: Vector)
    | PtzStop
    | ArmAutoStop                             // setTimeout(ptzStop, 1000)
    | ArmTick                                 // setInterval of the elapsed-time display
    | ClearTick                               // clearInterval of it
    | Capture                                 // the one-frame snapshot command
    | Exit(code: int)

  /** The clock readings and collaborator outcomes a key event sees. */
  datatype Env = Env(
    folderIso: string,  // reading taken when the date folder is made
    stampIso: string,   // reading taken when the file name is built
    logIso: string,     // reading taken when the log line is built
    nowMs: int,         // Date.now() stored as the start time
    deviceOk: bool,     // the device move or stop resolves rather than rejects
    stdinPiped: bool)   // a recorder spawned now exposes stdin

  datatype Event =
    | Key(name: string, env: Env)             // a keypress; a missing name is ""
    | RecorderClose(code: int, logIso: string)
    | RecorderError
    | AutoStopFired

  datatype State = State(
    baseDir: string,
    recording: bool,         // gravando
    recorder: Option<Proc>,  // gravacao
    startMs: Option<int>,    // tempoInicio
    tickArmed: bool,         // tempoInterval is running
    file: Option<string>,    // arquivoAtual
    pendingStops: nat,       // auto-stop timers armed and not yet fired
    spawned: nat,            // recorders spawned so far
    exited: bool)            // process.exit has run

  datatype Outcome = Outcome(state: State, effects: seq<Effect>)

  /** The state when the key handler is installed: nothing recorded, nothing pending. */
  function Initial(baseDir: string): (s: State)
    ensures Inv(s) && !s.recording && !s.exited && s.recorder.None? && s.pendingStops == 0
  {
    State(baseDir, false, None, None, false, None, 0, 0, false)
  }

  /**
   * What every event preserves: the flag is set only with a recorder, a file
   * and a start time; the display tick runs exactly while recording; the
   * recorder, the file and the start time are set together by the first
   * start and never cleared; the recorder held is the last one spawned; the
   * file lies below the root.
   */
  ghost predicate Inv(s: State)
  {
    && (s.recording ==> s.recorder.Some? && s.file.Some? && s.startMs.Some?)
    && (s.tickArmed <==> s.recording)
    && (s.recorder.Some? <==> s.file.Some?)
    && (s.recorder.Some? <==> s.startMs.Some?)
    && (s.recorder.Some? <==> s.spawned > 0)
    && (s.recorder.Some? ==> s.recorder.value.id + 1 == s.spawned)
    && (s.file.Some? ==> IsRecordingUnder(s.baseDir, s.file.value))
  }

  function LogPath(baseDir: string): string
  {
    Join(baseDir, LogFileName)
  }

  /** How a template literal shows the current file: `null` before the first start. */
  function FileText(file: Option<string>): string
  {
    match file
    case Some(f) => f
    case None => "null"
  }

  // ---------------------------------------------------------------------
  // Movement keys
  // ---------------------------------------------------------------------

  /** Exactly one axis of the speed is non-zero. */
  predicate SingleAxis(v: Vector)
  {
    (if v.x != 0 then 1 else 0) + (if v.y != 0 then 1 else 0) + (if v.z != 0 then 1 else 0) == 1
  }

  /** The fixed speed each movement key sends. */
  function MoveSpeed(key: char): Option<Vector>
  {
    match key
    case 'a' => Some(Vector(-20, 0, 0))
    case 'd' => Some(Vector(20, 0, 0))
    case 'w' => Some(Vector(0, 20, 0))
    case 'x' => Some(Vector(0, -20, 0))
    case 'z' => Some(Vector(0, 0, 5))
    case 'c' => Some(Vector(0, 0, -5))
    case _ => None
  }

  /**
   * Exactly the six movement keys have a speed; each has one non-zero axis,
   * 0.2 in magnitude for pan and tilt and 0.05 for zoom, inside [-1, 1].
   */
  lemma MoveSpeedBounds(key: char)
    ensures MoveSpeed(key).Some? <==> key in {'a', 'd', 'w', 'x', 'z', 'c'}
    ensures MoveSpeed(key).Some? ==> var v := MoveSpeed(key).value;
      && SingleAxis(v)
      && -100 <= v.x <= 100 && -100 <= v.y <= 100 && -100 <= v.z <= 100
      && v.x in {-20, 0, 20} && v.y in {-20, 0, 20} && v.z in {-5, 0, 5}
  {
  }

  /** A move: the device call, then an auto-stop timer only when the call resolved. */
  function MoveStep(s: State, v: Vector, ok: bool): Outcome
  {
    if ok then Outcome(s.(pendingStops := s.pendingStops + 1), [PtzMove(v), ArmAutoStop])
    else Outcome(s, [PtzMove(v)])
  }

  // ---------------------------------------------------------------------
  // Recording keys
  // ---------------------------------------------------------------------

  /** 'r': start a recording unless one is in progress. */
  function StartStep(s: State, env: Env): Outcome
  {
    if s.recording then Outcome(s, [])
    else
      var dir := RecordingFolder(s.baseDir, env.folderIso);
      var file := RecordingPath(s.baseDir, env.folderIso, env.stampIso);
      var proc := Proc(s.spawned, env.stdinPiped);
      Outcome(
        s.(recording := true, recorder := Some(proc), startMs := Some(env.nowMs),
           tickArmed := true, file := Some(file), spawned := s.spawned + 1),
        [EnsureDir(dir), AppendLog(LogPath(s.baseDir), LogLine(env.logIso, StartMessage(file))),
         Spawn(proc, file), ArmTick])
  }

  /** The graceful stop sent to a recorder: "q" on stdin and end of stdin, or SIGINT without stdin. */
  function StopSignal(p: Proc): seq<Effect>
  {
    if p.hasStdin then [WriteQuit(p), EndStdin(p)] else [Interrupt(p)]
  }

  /** 't': ask the recorder to stop; the flag stays set until the recorder closes. */
  function StopStep(s: State): Outcome
  {
    if s.recording && s.recorder.Some? then Outcome(s, StopSignal(s.recorder.value))
    else Outcome(s, [])
  }

  /** 'q': interrupt a recording, stop the device, exit; a rejected stop is caught and nothing exits. */
  function QuitStep(s: State, ok: bool): Outcome
  {
    var signal := if s.recording && s.recorder.Some? then [Interrupt(s.recorder.value)] else [];
    if ok then Outcome(s.(exited := true), signal + [PtzStop, Exit(0)])
    else Outcome(s, signal + [PtzStop])
  }

  // ---------------------------------------------------------------------
  // The keypress switch
  // ---------------------------------------------------------------------

  /** What a key name asks for: one case of the switch each. */
  datatype Command =
    | MoveCamera(speed: Vector)  // a, d, w, x, z, c
    | TakeSnapshot               // p
    | StartRecording             // r
    | StopRecording              // t
    | StopMotion                 // s
    | QuitProgram                // q

  /** The case of the switch a key name selects; a name no case matches selects none. */
  function Decode(name: string): Option<Command>
  {
    if |name| != 1 then None
    else match MoveSpeed(name[0])
      case Some(v) => Some(MoveCamera(v))
      case None =>
        match name[0]
        case 'p' => Some(TakeSnapshot)
        case 'r' => Some(StartRecording)
        case 't' => Some(StopRecording)
        case 's' => Some(StopMotion)
        case 'q' => Some(QuitProgram)
        case _ => None
  }

  /** The eleven command keys and what each selects; every other name selects nothing. */
  lemma DecodeTable(name: string)
    ensures Decode("p") == Some(TakeSnapshot) && Decode("r") == Some(StartRecording)
    ensures Decode("t") == Some(StopRecording) && Decode("s") == Some(StopMotion)
    ensures Decode("q") == Some(QuitProgram)
    ensures |name| == 1 && MoveSpeed(name[0]).Some? ==> Decode(name) == Some(MoveCamera(MoveSpeed(name[0]).value))
    ensures Decode(name).None? <==> name !in {"a", "d", "w", "x", "z", "c", "p", "r", "t", "s", "q"}
  {
    if |name| == 1 {
      assert name == [name[0]];
    }
  }

  /** The body of one case of the switch. */
  function CommandStep(s: State, c: Command, env: Env): Outcome
  {
    match c
    case MoveCamera(v) => MoveStep(s, v, env.deviceOk)
    case TakeSnapshot => Outcome(s, [Capture])
    case StartRecording => StartStep(s, env)
    case StopRecording => StopStep(s)
    case StopMotion => Outcome(s, [PtzStop])
    case QuitProgram => QuitStep(s, env.deviceOk)
  }

  /** The keypress handler: the case the name selects, or nothing. */
  function KeyStep(s: State, name: string, env: Env): Outcome
  {
    if s.exited then Outcome(s, [])
    else match Decode(name)
      case None => Outcome(s, [])
      case Some(c) => CommandStep(s, c, env)
  }

  // ---------------------------------------------------------------------
  // Events of the recorder and of the timers
  // ---------------------------------------------------------------------

  /**
   * The close handler every recorder installs. It acts on the current
   * variables, whichever recorder closed; before the first spawn no handler exists.
   */
  function CloseStep(s: State, logIso: string): Outcome
  {
    if s.exited || s.recorder.None? then Outcome(s, [])
    else Outcome(s.(recording := false, tickArmed := false),
                 [ClearTick, AppendLog(LogPath(s.baseDir), LogLine(logIso, EndMessage(FileText(s.file))))])
  }

  /** The error handler every recorder installs: clears the flag and the tick, logs nothing. */
  function ErrorStep(s: State): Outcome
  {
    if s.exited || s.recorder.None? then Outcome(s, [])
    else Outcome(s.(recording := false, tickArmed := false), [ClearTick])
  }

  /** One pending auto-stop timer fires and stops the device. */
  function AutoStopStep(s: State): Outcome
  {
    if s.exited || s.pendingStops == 0 then Outcome(s, [])
    else Outcome(s.(pendingStops := s.pendingStops - 1), [PtzStop])
  }

  /** The seconds the display tick shows at `nowMs`, when the tick runs. */
  function Elapsed(s: State, nowMs: int): (r: Option<int>)
    ensures r.Some? <==> !s.exited && s.tickArmed && s.startMs.Some?
    ensures r.Some? ==> r.value * 1000 <= nowMs - s.startMs.value < r.value * 1000 + 1000
  {
    if s.exited || !s.tickArmed || s.startMs.None? then None
    else Some((nowMs - s.startMs.value) / 1000)
  }

  /** One event, handled to completion. */
  function Step(s: State, e: Event): Outcome
  {
    match e
    case Key(name, env) => KeyStep(s, name, env)
    case RecorderClose(_, logIso) => CloseStep(s, logIso)
    case RecorderError => ErrorStep(s)
    case AutoStopFired => AutoStopStep(s)
  }

  /** A sequence of events, one after the other; the effects in the order they happen. */
  function Run(s: State, evs: seq<Event>): Outcome
    decreases |evs|
  {
    if evs == [] then Outcome(s, [])
    else
      var o := Step(s, evs[0]);
      var rest := Run(o.state, evs[1..]);
      Outcome(rest.state, o.effects + rest.effects)
  }

  /** Every key keeps the invariant. */
  lemma KeyKeepsInv(s: State, name: string, env: Env)
    requires Inv(s)
    ensures Inv(KeyStep(s, name, env).state)
    ensures KeyStep(s, name, env).state.baseDir == s.baseDir
    ensures KeyStep(s, name, env).state.spawned >= s.spawned
  {
    if !s.exited && Decode(name).Some? {
      CommandKeepsInv(s, Decode(name).value, env);
    }
  }

  /** Every case of the switch keeps the invariant. */
  lemma CommandKeepsInv(s: State, c: Command, env: Env)
    requires Inv(s)
    ensures Inv(CommandStep(s, c, env).state)
    ensures CommandStep(s, c, env).state.baseDir == s.baseDir
    ensures CommandStep(s, c, env).state.spawned >= s.spawned
  {
    if c.StartRecording? {
      StartKeepsInv(s, env);
    }
  }

  /** A start keeps the invariant: the new file lies below the root and the new recorder is the last one spawned. */
  lemma StartKeepsInv(s: State, env: Env)
    requires Inv(s)
    ensures Inv(StartStep(s, env).state)
    ensures StartStep(s, env).state.baseDir == s.baseDir
    ensures StartStep(s, env).state.spawned >= s.spawned
  {
    RecordingPathShape(s.baseDir, env.folderIso, env.stampIso);
  }

  /** Every event keeps the invariant, keeps the root and never lowers the spawn count. */
  lemma StepKeepsInv(s: State, e: Event)
    requires Inv(s)
    ensures Inv(Step(s, e).state)
    ensures Step(s, e).state.baseDir == s.baseDir && Step(s, e).state.spawned >= s.spawned
  {
    if e.Key? {
      KeyKeepsInv(s, e.name, e.env);
    }
  }

  // ---------------------------------------------------------------------
  // Counting effects and events
  // ---------------------------------------------------------------------

  /** How many of the effects satisfy `p`. */
  function Occurrences(effs: seq<Effect>, p: Effect -> bool): (n: nat)
    ensures n <= |effs|
    ensures n == 0 <==> forall i :: 0 <= i < |effs| ==> !p(effs[i])
  {
    if effs == [] then 0 else (if p(effs[0]) then 1 else 0) + Occurrences(effs[1..], p)
  }

  lemma {:induction false} OccurrencesAppend(a: seq<Effect>, b: seq<Effect>, p: Effect -> bool)
    ensures Occurrences(a + b, p) == Occurrences(a, p) + Occurrences(b, p)
  {
    if a == [] {
      assert a + b == b;
    } else {
      assert (a + b)[1..] == a[1..] + b;
      OccurrencesAppend(a[1..], b, p);
    }
  }

  predicate IsSpawn(e: Effect) { e.Spawn? }
  predicate IsLog(e: Effect) { e.AppendLog? }
  predicate IsAutoStop(e: Effect) { e.ArmAutoStop? }

  function Spawns(effs: seq<Effect>): nat
  {
    Occurrences(effs, IsSpawn)
  }

  function Logs(effs: seq<Effect>): nat
  {
    Occurrences(effs, IsLog)
  }

  function AutoStopsArmed(effs: seq<Effect>): nat
  {
    Occurrences(effs, IsAutoStop)
  }

  lemma OccurrencesOne(e: Effect, p: Effect -> bool)
    ensures Occurrences([e], p) == if p(e) then 1 else 0
  {
    assert [e][1..] == [];
  }

  lemma OccurrencesFour(a: Effect, b: Effect, c: Effect, d: Effect, p: Effect -> bool)
    ensures Occurrences([a, b, c, d], p)
         == (if p(a) then 1 else 0) + (if p(b) then 1 else 0) + (if p(c) then 1 else 0) + (if p(d) then 1 else 0)
  {
    assert [a, b, c, d][1..] == [b, c, d];
    assert [b, c, d][1..] == [c, d];
    assert [c, d][1..] == [d];
    assert [d][1..] == [];
    assert Occurrences([d], p) == (if p(d) then 1 else 0);
    assert Occurrences([c, d], p) == (if p(c) then 1 else 0) + Occurrences([d], p);
    assert Occurrences([b, c, d], p) == (if p(b) then 1 else 0) + Occurrences([c, d], p);
  }

  /** A start from idle spawns one recorder and appends one log line. */
  lemma StartCounts(s: State, env: Env)
    requires !s.recording
    ensures Spawns(StartStep(s, env).effects) == 1 && Logs(StartStep(s, env).effects) == 1
    ensures AutoStopsArmed(StartStep(s, env).effects) == 0
  {
    var file := RecordingPath(s.baseDir, env.folderIso, env.stampIso);
    var proc := Proc(s.spawned, env.stdinPiped);
    var a := EnsureDir(RecordingFolder(s.baseDir, env.folderIso));
    var b := AppendLog(LogPath(s.baseDir), LogLine(env.logIso, StartMessage(file)));
    var c := Spawn(proc, file);
    assert StartStep(s, env).effects == [a, b, c, ArmTick];
    OccurrencesFour(a, b, c, ArmTick, IsSpawn);
    OccurrencesFour(a, b, c, ArmTick, IsLog);
    OccurrencesFour(a, b, c, ArmTick, IsAutoStop);
  }

  /** A move arms one auto-stop when the device call resolved, and spawns nothing. */
  lemma MoveCounts(s: State, v: Vector, ok: bool)
    ensures Spawns(MoveStep(s, v, ok).effects) == 0
    ensures AutoStopsArmed(MoveStep(s, v, ok).effects) == if ok then 1 else 0
  {
    OccurrencesAppend([PtzMove(v)], [ArmAutoStop], IsSpawn);
    OccurrencesAppend([PtzMove(v)], [ArmAutoStop], IsAutoStop);
    OccurrencesOne(PtzMove(v), IsSpawn);
    OccurrencesOne(ArmAutoStop, IsSpawn);
    OccurrencesOne(PtzMove(v), IsAutoStop);
    OccurrencesOne(ArmAutoStop, IsAutoStop);
    assert [PtzMove(v)] + [ArmAutoStop] == [PtzMove(v), ArmAutoStop];
  }

  /** Among the keys, only a start from idle spawns, and only a resolved move arms an auto-stop. */
  lemma KeyCounts(s: State, name: string, env: Env)
    ensures var o := KeyStep(s, name, env);
      && Spawns(o.effects) == (if o.state.spawned > s.spawned then 1 else 0)
      && o.state.pendingStops == s.pendingStops + AutoStopsArmed(o.effects)
  {
    if !s.exited && Decode(name).Some? {
      CommandCounts(s, Decode(name).value, env);
    }
  }

  /** The same, case by case. */
  lemma CommandCounts(s: State, c: Command, env: Env)
    ensures var o := CommandStep(s, c, env);
      && Spawns(o.effects) == (if o.state.spawned > s.spawned then 1 else 0)
      && o.state.pendingStops == s.pendingStops + AutoStopsArmed(o.effects)
  {
    var o := CommandStep(s, c, env);
    match c
    case MoveCamera(v) => MoveCounts(s, v, env.deviceOk);
    case StartRecording =>
      if !s.recording {
        StartCounts(s, env);
      }
    case _ =>
      assert o.state.spawned == s.spawned && o.state.pendingStops == s.pendingStops;
      assert forall i :: 0 <= i < |o.effects| ==> !IsSpawn(o.effects[i]) && !IsAutoStop(o.effects[i]);
  }

  /** Only a start from idle spawns; only a resolved move arms an auto-stop. */
  lemma StepCounts(s: State, e: Event)
    ensures Spawns(Step(s, e).effects) == if Step(s, e).state.spawned > s.spawned then 1 else 0
    ensures !e.AutoStopFired? ==>
      Step(s, e).state.pendingStops == s.pendingStops + AutoStopsArmed(Step(s, e).effects)
  {
    match e
    case Key(name, env) => KeyCounts(s, name, env);
    case RecorderClose(_, logIso) =>
      var o := CloseStep(s, logIso);
      assert forall i :: 0 <= i < |o.effects| ==> !IsSpawn(o.effects[i]) && !IsAutoStop(o.effects[i]);
    case RecorderError =>
    case AutoStopFired =>
  }

  /** The close and error events among `evs`: the only events that end a recording. */
  function Ends(evs: seq<Event>): (n: nat)
    ensures n <= |evs|
  {
    if evs == [] then 0
    else (if evs[0].RecorderClose? || evs[0].RecorderError? then 1 else 0) + Ends(evs[1..])
  }

  function Idle(s: State): nat
  {
    if s.recording then 0 else 1
  }

  // ---------------------------------------------------------------------
  // One event
  // ---------------------------------------------------------------------

  /**
   * 'r' while idle: the file becomes `<root>/<date>/gravacao_<timestamp>.mp4`,
   * the date folder is ensured, then exactly one log line "Início gravação"
   * naming the file, exactly one recorder spawned on that file, the flag and
   * the start time set and the display tick armed.
   */
  lemma StartWhileIdle(s: State, env: Env)
    requires !s.exited && !s.recording
    ensures var o := KeyStep(s, "r", env);
      var file := RecordingPath(s.baseDir, env.folderIso, env.stampIso);
      var proc := Proc(s.spawned, env.stdinPiped);
      && o.state == s.(recording := true, recorder := Some(proc), startMs := Some(env.nowMs),
                       tickArmed := true, file := Some(file), spawned := s.spawned + 1)
      && o.effects == [EnsureDir(RecordingFolder(s.baseDir, env.folderIso)),
                       AppendLog(LogPath(s.baseDir), LogLine(env.logIso, StartMessage(file))),
                       Spawn(proc, file), ArmTick]
      && Spawns(o.effects) == 1 && Logs(o.effects) == 1
      && Elapsed(o.state, env.nowMs + 1000) == Some(1)
  {
    assert Decode("r") == Some(StartRecording);
    assert KeyStep(s, "r", env) == StartStep(s, env);
    StartFromIdle(s, env);
    StartCounts(s, env);
    TickShowsSeconds(StartStep(s, env).state, 1, 0);
  }

  /** The start itself, from idle: the new variables and the effects in order. */
  lemma StartFromIdle(s: State, env: Env)
    requires !s.recording
    ensures var o := StartStep(s, env);
      var file := RecordingPath(s.baseDir, env.folderIso, env.stampIso);
      var proc := Proc(s.spawned, env.stdinPiped);
      && o.state == s.(recording := true, recorder := Some(proc), startMs := Some(env.nowMs),
                       tickArmed := true, file := Some(file), spawned := s.spawned + 1)
      && o.effects == [EnsureDir(RecordingFolder(s.baseDir, env.folderIso)),
                       AppendLog(LogPath(s.baseDir), LogLine(env.logIso, StartMessage(file))),
                       Spawn(proc, file), ArmTick]
  {
  }

  /** 'r' while recording changes nothing and does nothing but print a warning. */
  lemma StartWhileRecording(s: State, env: Env)
    requires s.recording
    ensures KeyStep(s, "r", env) == Outcome(s, [])
  {
  }

  /**
   * 't' while recording sends the graceful stop to the held recorder and
   * leaves the flag set: only the recorder's close event clears it.
   */
  lemma StopWhileRecording(s: State, env: Env)
    requires !s.exited && s.recording && s.recorder.Some?
    ensures var o := KeyStep(s, "t", env);
      && o.state == s && o.state.recording
      && o.effects == (if s.recorder.value.hasStdin
                       then [WriteQuit(s.recorder.value), EndStdin(s.recorder.value)]
                       else [Interrupt(s.recorder.value)])
  {
  }

  /** 't' while idle (or without a recorder) only prints a warning. */
  lemma StopWhileIdle(s: State, env: Env)
    requires !(s.recording && s.recorder.Some?)
    ensures KeyStep(s, "t", env) == Outcome(s, [])
  {
  }

  /**
   * 'q': an interrupt to the recorder when recording, then a device stop, then
   * exit; when the device stop rejects, the error is caught and the program goes on.
   */
  lemma QuitSequence(s: State, env: Env)
    requires !s.exited
    ensures var o := KeyStep(s, "q", env);
      var signal := if s.recording && s.recorder.Some? then [Interrupt(s.recorder.value)] else [];
      && o.effects == signal + [PtzStop] + (if env.deviceOk then [Exit(0)] else [])
      && o.state == s.(exited := env.deviceOk)
  {
  }

  /**
   * A close event, from whichever recorder, ends the current session: the
   * tick cleared, the flag cleared, one log line "Finalização gravação" naming
   * the current file; the recorder handle and the file are kept.
   */
  lemma CloseEndsSession(s: State, code: int, logIso: string)
    requires Inv(s) && !s.exited && s.recorder.Some?
    ensures var o := Step(s, RecorderClose(code, logIso));
      && o.state == s.(recording := false, tickArmed := false)
      && o.effects == [ClearTick, AppendLog(LogPath(s.baseDir), LogLine(logIso, EndMessage(s.file.value)))]
      && o.state.recorder == s.recorder && o.state.file == s.file
  {
  }

  /** An error event clears the flag and the tick and logs nothing; the handle and the file are kept. */
  lemma ErrorEndsSession(s: State)
    requires !s.exited && s.recorder.Some?
    ensures var o := Step(s, RecorderError);
      && o.state == s.(recording := false, tickArmed := false)
      && o.effects == [ClearTick] && Logs(o.effects) == 0
  {
  }

  /**
   * A movement key sends its fixed speed; an auto-stop is armed, and counted
   * as pending, exactly when the device call resolved; nothing else changes.
   */
  lemma MoveKey(s: State, name: string, env: Env)
    requires !s.exited && |name| == 1 && MoveSpeed(name[0]).Some?
    ensures var o := KeyStep(s, name, env);
      && o.effects == [PtzMove(MoveSpeed(name[0]).value)] + (if env.deviceOk then [ArmAutoStop] else [])
      && o.state == s.(pendingStops := s.pendingStops + (if env.deviceOk then 1 else 0))
  {
  }

  /** No key cancels a pending auto-stop, not even 's'. */
  lemma KeysKeepAutoStops(s: State, name: string, env: Env)
    ensures KeyStep(s, name, env).state.pendingStops >= s.pendingStops
  {
  }

  /** 's' stops the device and leaves every variable, pending auto-stops included, as it was. */
  lemma StopMotionKey(s: State, env: Env)
    requires !s.exited
    ensures KeyStep(s, "s", env) == Outcome(s, [PtzStop])
  {
  }

  /** A name that is no command, the empty name of a key event without one included, does nothing. */
  lemma UnknownKey(s: State, name: string, env: Env)
    requires name !in {"a", "d", "w", "x", "z", "c", "p", "r", "t", "s", "q"}
    ensures KeyStep(s, name, env) == Outcome(s, [])
  {
    DecodeTable(name);
  }

  // ---------------------------------------------------------------------
  // Sequences of events
  // ---------------------------------------------------------------------

  /** The invariant holds after any sequence of events. */
  lemma {:induction false} RunKeepsInv(s: State, evs: seq<Event>)
    requires Inv(s)
    ensures Inv(Run(s, evs).state)
    decreases |evs|
  {
    if evs != [] {
      StepKeepsInv(s, evs[0]);
      RunKeepsInv(Step(s, evs[0]).state, evs[1..]);
    }
  }

  /** Once the handle and the file are set, no sequence of events resets them. */
  lemma {:induction false} HandleNeverReset(s: State, evs: seq<Event>)
    requires Inv(s) && s.recorder.Some?
    ensures Run(s, evs).state.recorder.Some? && Run(s, evs).state.file.Some?
    decreases |evs|
  {
    RunKeepsInv(s, evs);
    if evs != [] {
      StepKeepsInv(s, evs[0]);
      HandleNeverReset(Step(s, evs[0]).state, evs[1..]);
    }
  }

  /** One event spawns at most one recorder, and only from idle or together with a close or error event. */
  lemma StepSpawns(s: State, e: Event)
    ensures Spawns(Step(s, e).effects) + Idle(Step(s, e).state) <= Idle(s) + Ends([e])
  {
    StepCounts(s, e);
    assert Ends([e]) == (if e.RecorderClose? || e.RecorderError? then 1 else 0) + Ends([]);
  }

  /**
   * At most one recording at a time: every spawn but a first one from the
   * idle state needs a close or error event before it, and nothing is spawned
   * while recording until one arrives.
   */
  lemma {:induction false} SpawnsNeedEnds(s: State, evs: seq<Event>)
    ensures Spawns(Run(s, evs).effects) + Idle(Run(s, evs).state) <= Idle(s) + Ends(evs)
    decreases |evs|
  {
    if evs == [] {
    } else {
      var o := Step(s, evs[0]);
      StepSpawns(s, evs[0]);
      SpawnsNeedEnds(o.state, evs[1..]);
      OccurrencesAppend(o.effects, Run(o.state, evs[1..]).effects, IsSpawn);
      assert evs == [evs[0]] + evs[1..];
      assert Ends(evs) == Ends([evs[0]]) + Ends(evs[1..]) by {
        assert [evs[0]][1..] == [];
      }
    }
  }

  /** While recording, no event sequence without a close or error event spawns anything. */
  lemma NoSpawnWhileRecording(s: State, evs: seq<Event>)
    requires s.recording && Ends(evs) == 0
    ensures Spawns(Run(s, evs).effects) == 0
  {
    SpawnsNeedEnds(s, evs);
  }

  /**
   * Auto-stops are never cancelled: without timer events, the pending count
   * grows by exactly the auto-stops armed.
   */
  lemma {:induction false} AutoStopsAccumulate(s: State, evs: seq<Event>)
    requires forall i :: 0 <= i < |evs| ==> !evs[i].AutoStopFired?
    ensures Run(s, evs).state.pendingStops == s.pendingStops + AutoStopsArmed(Run(s, evs).effects)
    decreases |evs|
  {
    if evs != [] {
      var o := Step(s, evs[0]);
      assert !evs[0].AutoStopFired?;
      StepCounts(s, evs[0]);
      AutoStopsAccumulate(o.state, evs[1..]);
      OccurrencesAppend(o.effects, Run(o.state, evs[1..]).effects, IsAutoStop);
    }
  }

  /** After exit, no event changes or does anything. */
  lemma {:induction false} ExitIsFinal(s: State, evs: seq<Event>)
    requires s.exited
    ensures Run(s, evs) == Outcome(s, [])
    decreases |evs|
  {
    if evs != [] {
      ExitIsFinal(s, evs[1..]);
    }
  }

  /** Three events in a row. */
  lemma RunThree(s: State, e1: Event, e2: Event, e3: Event)
    ensures var o1 := Step(s, e1);
      var o2 := Step(o1.state, e2);
      var o3 := Step(o2.state, e3);
      Run(s, [e1, e2, e3]) == Outcome(o3.state, o1.effects + (o2.effects + o3.effects))
  {
    var o1 := Step(s, e1);
    var o2 := Step(o1.state, e2);
    var o3 := Step(o2.state, e3);
    assert [e1, e2, e3][1..] == [e2, e3];
    assert [e2, e3][1..] == [e3];
    assert [e3][1..] == [];
    assert Run(o2.state, [e3]) == Outcome(o3.state, o3.effects + []);
    assert o3.effects + [] == o3.effects;
  }

  /**
   * One start, one stop, the recorder's close: exactly one recorder spawned,
   * the graceful stop sent to it, the session idle again, and the log holding
   * the start and the end line of the same file.
   */
  lemma StartStopClose(s: State, env: Env, env2: Env, code: int, logIso: string)
    requires Inv(s) && !s.exited && !s.recording
    ensures var o := Run(s, [Key("r", env), Key("t", env2), RecorderClose(code, logIso)]);
      var file := RecordingPath(s.baseDir, env.folderIso, env.stampIso);
      var proc := Proc(s.spawned, env.stdinPiped);
      && Spawns(o.effects) == 1
      && !o.state.recording && !o.state.tickArmed
      && o.state.file == Some(file) && o.state.recorder == Some(proc)
      && o.effects == KeyStep(s, "r", env).effects + StopSignal(proc)
                      + [ClearTick, AppendLog(LogPath(s.baseDir), LogLine(logIso, EndMessage(file)))]
  {
    var proc := Proc(s.spawned, env.stdinPiped);
    var o1 := KeyStep(s, "r", env);
    StartWhileIdle(s, env);
    KeyKeepsInv(s, "r", env);
    RunStartStop(s, env, env2, code, logIso);
    var o3 := CloseStep(o1.state, logIso);
    CloseEndsSession(o1.state, code, logIso);
    var e1, e2, e3 := o1.effects, StopSignal(proc), o3.effects;
    OccurrencesAppend(e1 + e2, e3, IsSpawn);
    OccurrencesAppend(e1, e2, IsSpawn);
    assert forall i :: 0 <= i < |e2| ==> !IsSpawn(e2[i]);
    assert forall i :: 0 <= i < |e3| ==> !IsSpawn(e3[i]);
  }

  /** The run of 'r', 't' and a close, as the three handlers compose. */
  lemma RunStartStop(s: State, env: Env, env2: Env, code: int, logIso: string)
    requires !s.exited && !s.recording
    ensures var started := KeyStep(s, "r", env).state;
      var o3 := CloseStep(started, logIso);
      Run(s, [Key("r", env), Key("t", env2), RecorderClose(code, logIso)])
        == Outcome(o3.state, KeyStep(s, "r", env).effects + StopSignal(Proc(s.spawned, env.stdinPiped)) + o3.effects)
  {
    var o1 := KeyStep(s, "r", env);
    StartWhileIdle(s, env);
    var o2 := KeyStep(o1.state, "t", env2);
    StopWhileRecording(o1.state, env2);
    RunThree(s, Key("r", env), Key("t", env2), RecorderClose(code, logIso));
    var o3 := CloseStep(o1.state, logIso);
    assert o1.effects + (o2.effects + o3.effects) == o1.effects + o2.effects + o3.effects;
  }

  /** The display tick shows 1, 2, 3, ... at each full second after the start. */
  lemma TickShowsSeconds(s: State, k: nat, ms: int)
    requires !s.exited && s.tickArmed && s.startMs.Some? && 0 <= ms < 1000
    ensures Elapsed(s, s.startMs.value + 1000 * k + ms) == Some(k)
  {
  }
}
