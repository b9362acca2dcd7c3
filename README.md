# Media-player control-surface adapter, modelled in Dafny

The adapter connects a control-surface host to a desktop media player. The
player pushes partial state updates over a WebSocket. The adapter merges each
update into one snapshot of the player (`ModuleData`), publishes that snapshot
as eleven host variables, and turns host actions (play, pause, volume, mute,
seek, repeat mode, like and dislike) into HTTP commands.

This project models the deterministic core of the adapter and proves properties of it:

- `State` (src/main.ts): the snapshot, its defaults, the partial update a frame
  carries, and `Merge`, the field-by-field reconciliation of a frame with the
  previous snapshot. Optional booleans (`isPaused`, `muted`) are the three-valued
  `TriBool` (`Unknown`, `True`, `False`). JavaScript's `??` is `Option.GetOr`.
- `Main` (src/main.ts): the `ModuleInstance` class. Its `data` field is replaced
  by the `'message'` handler (`OnMessage`). The handler also reports whether the
  album-art feedback must be recomputed and which variable values are pushed.
- `Utils` (src/utils.ts): `formatTime` as `FormatTime`, with an inverse
  `ParseTime` that serves as its reference definition. Also the repeat-mode
  distance `CalculateRepeatIterations` over the cycle NONE, ALL, ONE. The
  player's answer to the repeat-mode query is a parameter.
- `Decimal`: JavaScript's `String(n)` and `padStart(2, '0')` on non-negative
  integers, and reading digits back.
- `Actions` (src/actions.ts): every action callback as one pure function
  `Callback`. It returns the command sent, nothing (for the guarded mute and
  unmute), or the repeat-mode error.
- `Variables` (src/variables.ts): the variable definitions and the projection
  `UpdateVariables`, including the `trackState` label.

Points where the code's behaviour may surprise:

- The step-once repeat value is spelled `ITTERATE` (src/utils.ts:39, src/actions.ts:137), not `ITERATE`.
- The code never resets the snapshot when the instance is re-initialised.
  `configUpdated` calls `destroy` and `init`, and neither touches `this.data`.
  So the snapshot lives as long as the instance, and only the constructor sets the defaults.
- The code caps neither the snapshot volume nor a set-volume option at 100. A
  frame's volume is accepted whenever it is not negative.
- "Elapsed time within duration" is not an invariant of the snapshot. It only
  guards whether a new elapsed time is accepted. `StaleElapsedMayExceedDuration`
  shows a snapshot that breaks it.

## Model

| member | source | states |
|---|---|---|
| `Decimal.NatToString` | src/utils.ts:10-12 | `String(n)` of a non-negative integer is non-empty, all digits, and has no leading zero; it is one character exactly for n < 10, and at most two below 100 |
| `Decimal.DecimalRoundTrip` | src/utils.ts:10-12 | reading the decimal text of n back gives n |
| `Decimal.PadStart2` | src/utils.ts:11-12 | `padStart(2, '0')` is two characters long for a shorter text and leaves a longer one at its length |
| `Decimal.PadStart2Shape` | src/utils.ts:11-12 | the padded text ends with the original text and is padded only with '0' |
| `Decimal.PaddedIsTwoDigits` | src/utils.ts:9-12 | a padded number below 100 is exactly its tens digit followed by its units digit |
| `Utils.FormatTime` | src/utils.ts:3-14 | every display is at least four characters long with ':' third from the end, the separator before the two-digit seconds; the lemmas below pin the whole text |
| `Utils.FormatTimeZero` | src/utils.ts:5 | 0 seconds is shown as "0:00" |
| `Utils.FormatTimeMinutes` | src/utils.ts:7-13 | below an hour, the display is the minutes, ':' and the seconds as two digits |
| `Utils.FormatTimeHours` | src/utils.ts:7-13 | from an hour on, the display is H ':' MM ':' SS, with minutes within the hour and seconds within the minute, each two digits |
| `Utils.FormatTimeSecondsField` | src/utils.ts:9-12 | every display ends in ':' and two digits that denote the seconds within the minute (0..59) |
| `Utils.FormatTimeExamples` | src/utils.ts:3-14 | 65 is shown as "1:05" and 3661 as "1:01:01" |
| `Utils.FormatTimeRoundTrip` | src/utils.ts:3-14 | parsing the display back as M:SS or H:MM:SS gives the formatted number of seconds |
| `Utils.FormatTimeInjective` | src/utils.ts:3-14 | two different numbers of seconds are never shown the same way |
| `Utils.RepeatTablesAgree` | src/utils.ts:29-36 | the mode-to-index table and the index-to-mode list describe the same three-mode cycle |
| `Utils.CalculateRepeatIterations` | src/utils.ts:38-56 | `ITTERATE` gives 1 without the player's answer; a non-ok answer fails with its status; an unknown current or target mode fails with the invalid-mode error, never the fetch error; otherwise the result r is below 3 and (current + r) mod 3 = target |
| `Utils.RepeatIterationsReachTarget` | src/utils.ts:29-55 | pressing the repeat control r times from the current mode reaches the target, and no fewer presses do |
| `Utils.IterateIgnoresCurrentMode` | src/utils.ts:39 | the step-once value gives 1 whatever the player answers |
| `Utils.RepeatIterationsExamples` | src/utils.ts:38-55 | NONE to ONE takes 2 steps, ONE to NONE takes 1, and a mode to itself takes 0 |
| `State.DefaultWellFormed` | src/main.ts:24-36 | the default snapshot `DefaultModuleData` (empty texts, unknown flags, zero numbers) shows "0:00" for both times and is well formed |
| `State.CandidateElapsed` | src/main.ts:142 | the proposed elapsed time (the song's, else `position`, else duration + 10) can pass the guard only when the frame carries one of the two |
| `State.Merge` | src/main.ts:132-157 | the merged snapshot's display strings are `formatTime` of its duration and elapsed time; a snapshot with a non-negative volume stays well formed |
| `State.MergeTextFields` | src/main.ts:133-154 | title, artist, video id and image source take the frame's value when present and keep the previous one when absent |
| `State.MergeVolume` | src/main.ts:139-155 | the volume takes the frame's value exactly when it is present and not negative, and is unchanged otherwise |
| `State.MergeDuration` | src/main.ts:141-150 | the duration is the frame's song duration when present, otherwise the previous duration |
| `State.MergeElapsed` | src/main.ts:141-152 | the new elapsed time is within the new duration or equals the previous one; the song's elapsed time wins over `position`; a missing or too-large candidate keeps the previous value |
| `State.MergePauseAndMute` | src/main.ts:137-156 | paused state follows explicit `isPaused`, then `!isPlaying`, then the previous state; mute follows the frame, else the previous state |
| `State.MergeNeverForgetsFlags` | src/main.ts:149-156 | once the paused or mute state is known, no frame makes it unknown again |
| `State.CoverChanged` | src/main.ts:159 | the album-art refresh condition: the image source differs from the held one (its effect on a merge is stated by `CoverChangedExactly`) |
| `State.CoverChangedExactly` | src/main.ts:135-161 | the album-art refresh is raised exactly when the frame carries an image source that differs from the held one |
| `State.MergeEmpty` | src/main.ts:132-157 | an empty frame (or one with an empty song) changes no value and only recomputes the display strings, so a well-formed snapshot is unchanged |
| `State.MergeSameFrameTwice` | src/main.ts:132-161 | receiving a frame twice is the same as receiving it once, and the second time raises no album-art refresh |
| `State.CompleteUpdateOverwrites` | src/main.ts:132-157 | a frame that supplies every field with acceptable values determines the snapshot regardless of the previous one |
| `State.MergedDisplayReadsBack` | src/main.ts:150-153 | the merged display strings read back as the merged duration and elapsed time |
| `State.StaleElapsedMayExceedDuration` | src/main.ts:141-143 | shortening the duration without a new position can leave the elapsed time beyond the duration |
| `State.MergeGuardExamples` | src/main.ts:139-143 | with duration 200 and elapsed 50, an elapsed time of 500 is ignored; a volume of -5 is ignored |
| `Main.ModuleInstance.constructor` | src/main.ts:53 | a new instance holds the default snapshot |
| `Main.ModuleInstance.OnMessage` | src/main.ts:110-168 | a parsed frame replaces `data` with the merge, asks for the feedback refresh exactly when the image source changed, and pushes the new snapshot's variables; an unparseable frame changes nothing |
| `Main.ReplayWellFormed` | src/main.ts:132-157 | every snapshot reached from the defaults by any run of frames is well formed |
| `Actions.ClampVolume` | src/actions.ts:38-48 | `Math.min(100, Math.max(0, v))` lies in 0..100, equals v when v is in range, and equals the nearer bound otherwise |
| `Actions.Callback` | src/actions.ts:11-179 | only the repeat-mode action can fail; every command sent is in the player's catalog with the body its name calls for; nothing is sent exactly for mute when muted and unmute when not muted |
| `Actions.VolumeStep` | src/actions.ts:33-50 | volume up and down send `volume` moved by ten when that stays in 0..100, and the nearer bound otherwise |
| `Actions.VolumeStepExamples` | src/actions.ts:33-50 | volume up at 95 sends 100; volume down at 5 sends 0 |
| `Actions.SetVolumePassesThrough` | src/actions.ts:67-69 | set volume sends `{volume}` with the option value unchanged |
| `Actions.SeekToPassesThrough` | src/actions.ts:109-111 | seek sends `{seconds}` with the position option unchanged |
| `Actions.MuteGuards` | src/actions.ts:79-94 | mute sends `toggle-mute` exactly when the snapshot does not say muted (also when unknown); unmute exactly when it says muted; otherwise nothing is sent |
| `Actions.MuteReachesGoal` | src/actions.ts:79-94 | when the snapshot's known mute state is accurate, mute leaves the player muted and unmute leaves it unmuted |
| `Actions.MuteWhenUnknownMayUnmute` | src/actions.ts:84 | with the mute state unknown, mute toggles blindly and unmutes a player that was muted |
| `Actions.RepeatSendsDistance` | src/actions.ts:146-151 | the repeat action sends `switch-repeat` with the repeat distance as `iteration`, or fails with its error |
| `Actions.RepeatReachesTarget` | src/actions.ts:146-151 | the sent iteration is below 3 and brings the player's current mode to the chosen one |
| `Actions.RepeatIterateIsOnePress` | src/actions.ts:137-151 | the step-once choice sends an iteration of 1 |
| `Actions.FixedCommandName` | src/actions.ts:11-179 | the command of a parameterless action is in the player's catalog and is none of the three that take a body |
| `Actions.FixedCommands` | src/actions.ts:11-179 | each parameterless action sends its one fixed command (`FixedCommandName`) with no body, whatever the snapshot |
| `Actions.FixedCommandExamples` | src/actions.ts:11-179 | play/pause sends `toggle-play`, toggle like sends `like`, toggle dislike sends `dislike` |
| `Actions.FixedCommandNamesDistinct` | src/actions.ts:11-179 | no two parameterless actions send the same command |
| `Actions.CallbackDependsOn` | src/actions.ts:11-179 | a decision reads only the snapshot's volume and mute state; only the repeat action with a real target consults the player's mode |
| `Variables.TrackStateKey` | src/variables.ts:40 | the key computed from the paused state is always present in `trackStateDict` with a non-empty label, so the `'unknown'` fallback is never taken |
| `Variables.TrackStateLabel` | src/variables.ts:24-41 | the `trackState` label is always "unknown", "paused" or "playing" |
| `Variables.TrackStateLabels` | src/variables.ts:24-41 | "paused" exactly when paused, "playing" exactly when not paused, "unknown" exactly when the state is unknown |
| `Variables.DefinitionsDistinct` | src/variables.ts:4-16 | the definition list `VariableDefinitionList` holds eleven variables, each variable is among them, and their ids are distinct |
| `Variables.UpdateVariables` | src/variables.ts:21-45 | the only variable that can be `undefined` is `muted`, and it is exactly when the mute state is unknown; `WrittenAreDefined`, `VariablesCarryFields` and `FormattedVariablesReadBack` state the rest |
| `Variables.WrittenAreDefined` | src/variables.ts:4-44 | the variables written for a snapshot are exactly the variables defined |
| `Variables.VariablesCarryFields` | src/variables.ts:30-44 | `volumePercent`, `trackProgress`, `trackProgress_formatted` and `albumCover` carry volume, elapsed time, its display and image source; the others are copied by name; `muted` is undefined exactly when unknown |
| `Variables.FormattedVariablesReadBack` | src/variables.ts:35-37 | for a well-formed snapshot, the formatted duration and progress variables read back as the numeric ones |

## Left out

- The WebSocket lifecycle is not modelled: connecting, status updates, the
  `'Authentication'` error match, the 5000 ms reconnect timers, `destroy` and
  `configUpdated`. It is timer-driven I/O.
- Raw frame decoding and `JSON.parse` are not modelled. A frame is either an
  already-typed `Update` or `Malformed`. A frame that fails inside the handler's
  `try` (for example, JSON `null`) is `Malformed`, and the handler leaves the
  snapshot unchanged.
- JSON values of the wrong type are not modelled (a string `volume`, a numeric
  `title`, `NaN`). The update record's fields carry their declared types.
- The HTTP transport of `sendCommand` is not modelled, nor its non-2xx error. A
  callback's result is the command it would send.
- The repeat-mode request is not modelled. The player's answer is the
  `ModeResponse` parameter: a non-ok status, or the `mode` member of the body if
  present. A body that is not JSON is not modelled.
- In JavaScript, `REPEAT_MODES[name]` finds inherited object keys such as
  `toString`. The model treats every name other than NONE, ALL and ONE as unknown.
- `apiVolumeToLinear` is not modelled: it is floating-point `Math.pow` with
  exponent 0.48.
- src/feedbacks.ts is not part of this model: it fetches, scales and encodes
  images through an external library.
- src/config.ts is not part of this model: it only declares the configuration fields.
- Host registration is not modelled: `UpdateActions`, `UpdateFeedbacks`,
  `UpdateVariableDefinitions`, `runEntrypoint` and the `update*` wrappers of
  the instance.
- `State.Merge`: durations, elapsed times and positions are whole non-negative
  seconds (`nat`). Fractional seconds (which `formatTime` floors) and negative
  ones are not modelled. Volumes are integers, so fractional volumes are not modelled.
- `Utils.FormatTime`: its argument is `nat`, so fractional and negative seconds are left out.
- `Decimal.NatToString`, `Utils.FormatTime`, `State.Merge` and `Actions.ClampVolume`: times and
  volumes are exact, unbounded integers. JavaScript numbers are IEEE doubles, so above 2^53
  `Math.floor(seconds / 3600)`, `seconds % 3600` and `volume ± 10` are no longer exact, and from
  1e21 on `String(n)` uses exponent notation ("1e+21"). Neither is modelled; real durations and
  volumes stay far below both bounds.
- The fallbacks `?? ''` and `?? 0` on fields of the previous snapshot are
  omitted. Those fields are always defined, so the fallbacks can never apply.
- Host variable keys are the `VariableId` datatype. Each key's `Text()` is the
  host's `variableId` string, not a string key of a map.
