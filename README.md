# PTZ camera keyboard controller: dispatcher and recording session

`script.js` drives an ONVIF pan-tilt-zoom camera from the keyboard and records
the camera's RTSP stream with an `ffmpeg` subprocess. Its core is the keypress
handler (`script.js:84-212`) together with the module-level variables it
updates in place: `gravacao` (the recorder subprocess), `gravando` (the
recording flag), `tempoInicio` (the start time), `tempoInterval` (the
elapsed-time display timer) and `arquivoAtual` (the current file)
(`script.js:24-28`). Several pure helpers feed that core:

- the date folder and the file-name timestamp (`getDataAtual`, `getTimestamp`);
- the recording file name `gravacao_<timestamp>.mp4`;
- the log line `<ISO time> - <message>`;
- the `.mp4` filter of the recordings page.

The project has four modules.

- `Wrappers` (`wrappers.dfy`): the `Option` type. It stands for a variable
  that holds `null` until it is first set.
- `Names` (`names.dfy`): the string helpers.
  - `getTimestamp` replaces every `:` with `-`, then applies
    `replace(/\..+/, '')`. The regular expression is modelled exactly: the
    first `.` followed by a character that is not a line terminator, through
    to the next line terminator.
  - `IsIso` describes the 24-character `toISOString` form. Over it the
    timestamp is the first 19 characters with the colons replaced. Two
    name readings give the same file name exactly when they fall in the same
    second. Two starts give the same path exactly when, in addition, their
    folder readings fall on the same day.
  - `ParseLogLine` is the inverse of the log line format.
  - `Mp4Files` is the listing filter.
- `Session` (`session.dfy`): the state machine as values.
  - `State` holds the five variables plus three other facts: the auto-stop
    timers still pending, the number of recorders spawned so far, and
    whether `process.exit` has run.
  - Each `Event` turns into a new `State` and a sequence of `Effect`s, in
    the order the code performs them. The events are a key, the close or
    error of a recorder, and the firing of an auto-stop timer.
  - `Run` folds a sequence of events.
  - The invariant `Inv` and the properties of whole runs are proved here.
- `Keypress` (`dispatcher.dfy`): the class `Dispatcher`.
  - Its fields are the variables, updated in place. A ghost `trace`
    records the effects.
  - Each handler method is proved to produce exactly the state and the
    effects of the matching `Session` function, and to keep `Inv`.

Inputs and what the model assumes of them:

- Clock readings are inputs of each key event (`Env`). A start reads the clock
  four separate times, and each reading is its own input:
  - the date folder;
  - the file-name timestamp;
  - the log line time;
  - `Date.now()`.
- The outcome of each device call is an input: the `await` either resolves or
  rejects into the `catch` at `script.js:209`. So is whether a new recorder
  exposes stdin. This input is more general than the code: `script.js:147`
  spawns every recorder with a piped stdin, so the `SIGINT` branch at
  `script.js:186-188` is not reached there. The model keeps both branches.
- Each event is handled to completion before the next one starts.
- A key event without a name is the name `""`. The `switch` compares whole
  names, and every command name is one character. So the decoder reads a
  name of length one and rejects every other name.

## Model

| member | source | states |
|---|---|---|
| Names.DateFolder | script.js:30-32 | `getDataAtual` is the prefix of the ISO reading of length min(10, length) |
| Names.ReplaceColons | script.js:35 | same length; every `:` becomes `-` and every other character is kept |
| Names.FirstFraction | script.js:35 | the first position from `i` where `\..` matches, or none when no position matches |
| Names.RunEnd | script.js:35 | the greedy `.+` stops at the first line terminator or at the end, and no earlier |
| Names.StripFraction | script.js:35 | the result is no longer than the input and holds only characters of the input; with no match the input is unchanged |
| Names.StripFractionRemovesFirstMatch | script.js:35 | the leftmost match of `\..+` is removed: from the first `.` that a non-terminator follows, greedily up to the next line terminator or the end |
| Names.Timestamp | script.js:34-36 | the timestamp holds no `:` and is no longer than the reading |
| Names.IsoTimestamp | script.js:34-36 | for an ISO reading the timestamp is the first 19 characters with the colons replaced: 19 characters, no `:`, no `.`, and its first 10 are the date folder |
| Names.TimestampSameSecond | script.js:34-36 | two ISO readings give the same timestamp if and only if they agree up to the second |
| Names.SameSecondSameTimestamp | script.js:34-36 | readings that agree up to the second give equal timestamps |
| Names.SameTimestampSameSecond | script.js:34-36 | equal timestamps come from readings that agree up to the second |
| Names.RecordingName | script.js:132 | the name is `gravacao_`, the timestamp, then `.mp4`: prefix, suffix, length, and the timestamp between them |
| Names.RecordingPathShape | script.js:131-132 | the path is `<root>/<date>/<name>`: below the root and ending in `.mp4` |
| Names.PathTimestamp | script.js:131-132 | with ISO readings, the folder reading's date and the name reading's timestamp sit at fixed offsets in the path |
| Names.RecordingPathSameSecond | script.js:131-132 | two starts give the same path if and only if their folder readings fall on the same day and their name readings in the same second |
| Names.FindSeparator | script.js:46 | the first ` - ` at or after `i`, or none |
| Names.ParseLogLine | script.js:46 | a parsed line rebuilds the exact same line |
| Names.LogLineRoundTrip | script.js:44-50 | a log line whose time holds no space parses back to its time and its message |
| Names.IsoHasNoSpace | script.js:46 | an ISO reading holds no space, so every log line parses back |
| Names.Mp4Files | script.js:239 | keeps exactly the listed names that end in `.mp4` and no more names than the listing |
| Names.Mp4FilesAppend | script.js:239 | the filter of two listings joined is the two filters joined, in order |
| Names.RecordingListed | script.js:239 | every recording file name in a folder is shown on the page |
| Session.Initial | script.js:24-28 | the variables start empty, nothing is pending and the invariant holds |
| Session.MoveSpeedBounds | script.js:89-118 | exactly the six movement keys have a speed; each moves one axis, 0.2 for pan and tilt and 0.05 for zoom, within [-1, 1] |
| Session.DecodeTable | script.js:84-208 | `p`, `r`, `t`, `s` and `q` select their cases and the movement keys their speeds; a name selects nothing if and only if it is none of the eleven |
| Session.Elapsed | script.js:157-160 | a tick shows a value exactly while it runs; the value is the whole seconds since the start, rounded down |
| Session.KeyKeepsInv | script.js:84-212 | every key keeps the invariant and the root and never lowers the spawn count |
| Session.CommandKeepsInv | script.js:88-208 | every case of the switch keeps the invariant |
| Session.StartKeepsInv | script.js:129-178 | a start keeps the invariant: the new file lies below the root and the new recorder is the last one spawned |
| Session.StepKeepsInv | script.js:84-212 | every event, key, close, error or auto-stop, keeps the invariant |
| Session.StartCounts | script.js:129-160 | a start from idle spawns exactly one recorder, appends exactly one log line and arms no auto-stop |
| Session.MoveCounts | script.js:89-93 | a move spawns nothing and arms one auto-stop exactly when the device call resolved |
| Session.KeyCounts | script.js:84-212 | a key spawns one recorder exactly when it raises the spawn count, and the pending auto-stops grow by exactly those it arms |
| Session.CommandCounts | script.js:88-208 | the same, case by case |
| Session.StepCounts | script.js:84-212 | every event spawns one recorder exactly when it raises the spawn count, and close and error events spawn nothing; every event other than a timer firing raises the pending auto-stops by exactly those it arms |
| Session.StartWhileIdle | script.js:129-160 | `r` when idle ensures the date folder, logs `Início gravação: <file>` once, spawns one recorder on `<root>/<date>/gravacao_<ts>.mp4`, sets the flag and the start time and arms the tick, which shows 1 a second later |
| Session.StartFromIdle | script.js:129-160 | a start from idle sets the flag, the handle, the file, the start time and the tick, and performs folder, log, spawn and tick in that order |
| Session.StartWhileRecording | script.js:175-177 | `r` while recording changes nothing and does nothing |
| Session.StopWhileRecording | script.js:180-188 | `t` while recording writes `q` and ends stdin, or interrupts when there is no stdin; the flag stays set |
| Session.StopWhileIdle | script.js:189-191 | `t` without a recording does nothing |
| Session.QuitSequence | script.js:198-211 | `q` interrupts a recording, then stops the device, then exits; a rejected stop leaves the program running |
| Session.CloseEndsSession | script.js:162-168 | a close clears the tick and the flag and logs `Finalização gravação: <file>` once; the handle and the file are kept |
| Session.ErrorEndsSession | script.js:170-174 | an error clears the flag and the tick and logs nothing |
| Session.MoveKey | script.js:89-118 | a movement key sends its speed; the auto-stop is armed and counted exactly when the call resolved; nothing else changes |
| Session.KeysKeepAutoStops | script.js:88-208 | no key lowers the number of pending auto-stops |
| Session.StopMotionKey | script.js:194-197 | `s` stops the device and leaves every variable, the pending auto-stops included, unchanged |
| Session.UnknownKey | script.js:85-88 | a name no case matches, the empty name included, does nothing |
| Session.RunKeepsInv | script.js:84-212 | the invariant holds after any sequence of events |
| Session.HandleNeverReset | script.js:129-174 | once set, the recorder handle and the file stay set whatever happens |
| Session.StepSpawns | script.js:129-174 | one event spawns at most one recorder, and only from idle or with a close or error event |
| Session.SpawnsNeedEnds | script.js:129-174 | over any run, spawns plus the final idle flag are at most the initial idle flag plus the close and error events |
| Session.NoSpawnWhileRecording | script.js:129-174 | while recording, no run without a close or error event spawns anything |
| Session.AutoStopsAccumulate | script.js:89-118 | with no timer firing, the pending auto-stops grow by exactly the auto-stops armed |
| Session.ExitIsFinal | script.js:198-207 | after exit no event changes or does anything |
| Session.StartStopClose | script.js:129-168 | `r`, `t`, then a close: one spawn, the flag and the tick cleared, the file and the handle kept, and the start effects, the stop signal, the cleared tick and the end log line in order |
| Session.TickShowsSeconds | script.js:157-160 | at `k` seconds plus under one second after the start the tick shows `k` |
| Keypress.Dispatcher.constructor | script.js:17-28 | the root is ensured, the variables start empty and the invariant holds |
| Keypress.Dispatcher.OnKey | script.js:84-212 | the handler's new variables and effects are those of `Session.KeyStep`; it keeps the invariant |
| Keypress.Dispatcher.StartRecorder | script.js:129-178 | the `r` case assigns the variables and performs the effects of `Session.StartStep` |
| Keypress.Dispatcher.StopRecorder | script.js:180-192 | the `t` case changes no variable and performs the effects of `Session.StopStep` |
| Keypress.Dispatcher.Shutdown | script.js:198-207 | the `q` case performs the effects of `Session.QuitStep`, exiting only after a resolved stop |
| Keypress.Dispatcher.OnRecorderClose | script.js:162-168 | the close handler's new variables and effects are those of `Session.CloseStep` |
| Keypress.Dispatcher.OnRecorderError | script.js:170-174 | the error handler's new variables and effects are those of `Session.ErrorStep` |
| Keypress.Dispatcher.OnAutoStopFired | script.js:92 | a pending auto-stop firing stops the device and lowers the pending count |
| Keypress.Dispatcher.OnTick | script.js:157-160 | the tick shows a value exactly while recording, namely the whole seconds since the start; no variable changes |

## Quirks of the code

The model keeps these behaviours of script.js:

- Auto-stop timers are never cancelled. Neither a new move nor `s` cancels a
  pending timer, so an earlier timer can stop a later move
  (`Session.KeysKeepAutoStops`, `Session.AutoStopsAccumulate`).
- The error handler logs nothing, and it does not report the end of the
  recording in the log (`Session.ErrorEndsSession`).
- File names have second granularity. Two starts within the same second,
  whose folder readings fall on the same day, give the same path. The
  second recorder then overwrites the first file
  (`Names.RecordingPathSameSecond`).
- File names and log messages are in Portuguese: `gravacao_<ts>.mp4`,
  `Início gravação: `, `Finalização gravação: `, and the log file
  `log_gravacoes.txt`.
- The close and error handlers act on the current variables, whichever
  recorder fires them. The handle and the file are never reset
  (`Session.HandleNeverReset`). A late close from an earlier recorder
  therefore ends the current session and logs the current file.
- `q` interrupts the recorder instead of stopping it gracefully. When the
  device stop rejects, the `catch` swallows the error and the program does
  not exit.

## Left out

- Connecting to the camera is not modelled: `device.init`, the PTZ profile check, the fatal exits with code 1 and the console menu. They are I/O before the handler is installed.
- The ONVIF protocol is not modelled. A device call is its effect plus whether it resolved.
- The `ffmpeg` argument lists and the forwarding of its stderr are not modelled. A spawn is an effect naming the output file.
- Session.StartStep: a synchronous failure of `mkdirSync` or `spawn` is not modelled. It would throw out of the `r` case into the `catch`, with some variables already assigned.
- A failure of `fs.appendFile` is not modelled. It only prints a message.
- `path.join` normalisation is not modelled. For example, a root ending in `/` is not collapsed. Paths are joined with one `/`.
- Console and stdout output, the close code included, is left out. The code only prints them.
- Real time is not modelled. Timers are events the caller delivers. The delay of an auto-stop and the 1-second tick period are not modelled. Nor is a rejected `ptzStop` inside an auto-stop timer: nothing catches it, so under Node's default settings it is an unhandled rejection, which can end the process.
- Asynchronous overlap is not modelled: a key arriving while an earlier handler awaits a device call. Each event runs to completion.
- The snapshot `p` is only a `Capture` effect. Its output file name, its `ffmpeg` command and its outcome are not modelled, because they do not touch the variables.
- The Express server is left out except the `.mp4` filter: the folder listing, the HTML and the static file serving.
- Names.IsoTimestamp: ISO readings are assumed to have years 0000-9999, the 24-character form. Other years are not covered.
- Writing `q` to a recorder whose stdin was already ended (a second `t`) is only an effect. Under Node's defaults that write emits a stream `error` with no listener, which can end the process. This is not modelled.
- Speeds are integers in hundredths of the device range, not floating point.
- Keypress.Dispatcher.OnTick: only the value shown is modelled, not the text written to stdout.
