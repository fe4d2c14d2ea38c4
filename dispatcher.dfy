/**
 * The keypress handler and the recorder's callbacks as they run: one object
 * whose fields are the module-level variables the handlers assign in place,
 * and whose ghost trace records what they do outside those variables. Every
 * method is proved to do exactly what the matching function of `Session`
 * describes, so the properties proved there hold of this object, and every
 * method keeps the invariant `Session.Inv`.
 */
module Keypress {
  import opened Wrappers
  import opened Names
  import opened Session

  class Dispatcher {
    const baseDir: string
    var recording: bool         // gravando
    var recorder: Option<Proc>  // gravacao
    var startMs: Option<int>    // tempoInicio
    var tickArmed: bool         // tempoInterval is running
    var file: Option<string>    // arquivoAtual
    var pendingStops: nat       // auto-stop timers armed and not yet fired
    var spawned: nat            // recorders spawned so far
    var exited: bool            // process.exit has run
    ghost var trace: seq<Effect>

    /** The variables as a `Session.State` value. */
    function AsState(): State
      reads this
    {
      State(baseDir, recording, recorder, startMs, tickArmed, file, pendingStops, spawned, exited)
    }

    ghost predicate Valid()
      reads this
    {
      Inv(AsState())
    }

    /** Loading the program: the recordings root is ensured, every variable starts empty. */
    constructor (baseDir: string)
      ensures Valid()
      ensures AsState() == Initial(baseDir)
      ensures trace == [EnsureDir(baseDir)]
    {
      this.baseDir := baseDir;
      recording, recorder, startMs, tickArmed, file := false, None, None, false, None;
      pendingStops, spawned, exited := 0, 0, false;
      trace := [EnsureDir(baseDir)];
    }

    /** The keypress handler; a key event without a name arrives as "". */
    method OnKey(name: string, env: Env)
      requires Valid()
      modifies this
      ensures Valid()
      ensures AsState() == KeyStep(old(AsState()), name, env).state
      ensures trace == old(trace) + KeyStep(old(AsState()), name, env).effects
    {
      if exited {
        return;
      }
      match Decode(name)
      case None =>
      case Some(c) =>
        match c
        case MoveCamera(v) =>
          trace := trace + [PtzMove(v)];
          if env.deviceOk {
            trace := trace + [ArmAutoStop];
            pendingStops := pendingStops + 1;
          }
        case TakeSnapshot =>
          trace := trace + [Capture];
        case StartRecording =>
          StartRecorder(env);
        case StopRecording =>
          StopRecorder();
        case StopMotion =>
          trace := trace + [PtzStop];
        case QuitProgram =>
          Shutdown(env.deviceOk);
    }

    /** 'r': builds the file name, logs, spawns the recorder, sets the flag and the start time, arms the tick. */
    method StartRecorder(env: Env)
      requires Valid() && !exited
      modifies this
      ensures Valid()
      ensures AsState() == StartStep(old(AsState()), env).state
      ensures trace == old(trace) + StartStep(old(AsState()), env).effects
    {
      if !recording {
        RecordingPathShape(baseDir, env.folderIso, env.stampIso);
        var dir := RecordingFolder(baseDir, env.folderIso);
        var path := RecordingPath(baseDir, env.folderIso, env.stampIso);
        file := Some(path);
        var proc := Proc(spawned, env.stdinPiped);
        recorder := Some(proc);
        spawned := spawned + 1;
        recording := true;
        startMs := Some(env.nowMs);
        tickArmed := true;
        trace := trace + [EnsureDir(dir),
                          AppendLog(LogPath(baseDir), LogLine(env.logIso, StartMessage(path))),
                          Spawn(proc, path),
                          ArmTick];
        assert Inv(AsState());
      }
    }

    /** 't': sends the graceful stop to the held recorder; the flag stays set. */
    method StopRecorder()
      requires Valid() && !exited
      modifies this
      ensures Valid()
      ensures AsState() == old(AsState())
      ensures trace == old(trace) + StopStep(old(AsState())).effects
    {
      if recording && recorder.Some? {
        var p := recorder.value;
        if p.hasStdin {
          trace := trace + [WriteQuit(p)];
          trace := trace + [EndStdin(p)];
        } else {
          trace := trace + [Interrupt(p)];
        }
      }
    }

    /** 'q': interrupts a recording, stops the device and, when that resolved, exits. */
    method Shutdown(deviceOk: bool)
      requires Valid() && !exited
      modifies this
      ensures Valid()
      ensures AsState() == QuitStep(old(AsState()), deviceOk).state
      ensures trace == old(trace) + QuitStep(old(AsState()), deviceOk).effects
    {
      if recording && recorder.Some? {
        trace := trace + [Interrupt(recorder.value)];
      }
      trace := trace + [PtzStop];
      if deviceOk {
        trace := trace + [Exit(0)];
        exited := true;
      }
    }

    /** A recorder's close handler; the exit code is only printed. */
    method OnRecorderClose(code: int, logIso: string)
      requires Valid()
      modifies this
      ensures Valid()
      ensures AsState() == CloseStep(old(AsState()), logIso).state
      ensures trace == old(trace) + CloseStep(old(AsState()), logIso).effects
    {
      if exited || recorder.None? {
        return;
      }
      trace := trace + [ClearTick];
      tickArmed := false;
      recording := false;
      trace := trace + [AppendLog(LogPath(baseDir), LogLine(logIso, EndMessage(FileText(file))))];
    }

    /** A recorder's error handler. */
    method OnRecorderError()
      requires Valid()
      modifies this
      ensures Valid()
      ensures AsState() == ErrorStep(old(AsState())).state
      ensures trace == old(trace) + ErrorStep(old(AsState())).effects
    {
      if exited || recorder.None? {
        return;
      }
      recording := false;
      trace := trace + [ClearTick];
      tickArmed := false;
    }

    /** One pending auto-stop timer fires. */
    method OnAutoStopFired()
      requires Valid()
      modifies this
      ensures Valid()
      ensures AsState() == AutoStopStep(old(AsState())).state
      ensures trace == old(trace) + AutoStopStep(old(AsState())).effects
    {
      if !exited && pendingStops > 0 {
        pendingStops := pendingStops - 1;
        trace := trace + [PtzStop];
      }
    }

    /** The display tick: the whole seconds since the start, while a recording runs. */
    method OnTick(nowMs: int) returns (shown: Option<int>)
      requires Valid()
      ensures shown == Elapsed(AsState(), nowMs)
      ensures shown.Some? <==> recording && !exited
      ensures shown.Some? ==> shown.value * 1000 <= nowMs - startMs.value < shown.value * 1000 + 1000
    {
      if !exited && tickArmed {
        shown := Some((nowMs - startMs.value) / 1000);
      } else {
        shown := None;
      }
    }
  }
}
