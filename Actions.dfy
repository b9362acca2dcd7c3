/** src/actions.ts: what each host action sends to the player, decided from the
    action, its options and the current snapshot. */
module Actions {
  import opened Wrappers
  import opened Utils
  import opened State

  /** The host actions, with the option each reads. */
  datatype Action =
    | PlayPause | Play | Pause
    | VolumeUp | VolumeDown | SetVolume(volume: int)
    | ToggleMute | Mute | Unmute
    | SeekTo(position: int)
    | Next | Previous
    | RepeatMode(mode: string)
    | Shuffle | ToggleLike | ToggleDislike

  /** The JSON body of a command, if it has one. */
  datatype Payload =
    | NoBody
    | VolumeBody(volume: int)       // { volume }
    | SeekBody(seconds: int)        // { seconds }
    | RepeatBody(iteration: int)    // { iteration }

  /** A POST to `/api/v1/{name}` with the given body. */
  datatype Command = Command(name: string, payload: Payload)

  /** The commands the player's API offers. */
  const CommandCatalog: set<string> :=
    {"toggle-play", "play", "pause", "volume", "toggle-mute", "seek-to", "next", "previous",
     "switch-repeat", "shuffle", "like", "dislike"}

  /** A command whose body has the shape its name calls for. */
  predicate WellShaped(c: Command) {
    && c.name in CommandCatalog
    && (c.name == "volume" <==> c.payload.VolumeBody?)
    && (c.name == "seek-to" <==> c.payload.SeekBody?)
    && (c.name == "switch-repeat" <==> c.payload.RepeatBody?)
  }

  function Min(a: int, b: int): int { if a <= b then a else b }

  function Max(a: int, b: int): int { if a >= b then a else b }

  /** `Math.min(100, Math.max(0, v))`. */
  function ClampVolume(v: int): (r: int)
    ensures 0 <= r <= 100
    ensures 0 <= v <= 100 ==> r == v
    ensures v < 0 ==> r == 0
    ensures v > 100 ==> r == 100
  {
    Min(100, Max(0, v))
  }

  /** The actions that take no option and read no state. */
  const FixedActions: set<Action> :=
    {PlayPause, Play, Pause, ToggleMute, Next, Previous, Shuffle, ToggleLike, ToggleDislike}

  /** The name of the command a parameterless action always sends. */
  function FixedCommandName(action: Action): (name: string)
    requires action in FixedActions
    ensures name in CommandCatalog && name !in {"volume", "seek-to", "switch-repeat"}
  {
    match action
    case PlayPause => "toggle-play"
    case Play => "play"
    case Pause => "pause"
    case ToggleMute => "toggle-mute"
    case Next => "next"
    case Previous => "previous"
    case Shuffle => "shuffle"
    case ToggleLike => "like"
    case ToggleDislike => "dislike"
  }

  const ToggleMuteCommand: Command := Command("toggle-mute", NoBody)

  /** The action callbacks: the command an action sends (None when it sends
      nothing), or the error it fails with. `data` is the snapshot the callback
      reads; `currentRepeat` is the player's answer to the repeat-mode query,
      consulted only by the repeat-mode action. */
  function Callback(action: Action, data: ModuleData, currentRepeat: ModeResponse): (r: Result<Option<Command>, RepeatError>)
    ensures r.Err? ==> action.RepeatMode? && action.mode != Iterate
    ensures r.Ok? && r.value.Some? ==> WellShaped(r.value.value)
    ensures r.Ok? && r.value.None? <==> (action == Mute && data.muted == True) || (action == Unmute && data.muted != True)
  {
    match action
    case VolumeUp => Ok(Some(Command("volume", VolumeBody(ClampVolume(data.volume + 10)))))
    case VolumeDown => Ok(Some(Command("volume", VolumeBody(ClampVolume(data.volume - 10)))))
    case SetVolume(v) => Ok(Some(Command("volume", VolumeBody(v))))
    case Mute => if data.muted != True then Ok(Some(ToggleMuteCommand)) else Ok(None)
    case Unmute => if data.muted == True then Ok(Some(ToggleMuteCommand)) else Ok(None)
    case SeekTo(p) => Ok(Some(Command("seek-to", SeekBody(p))))
    case RepeatMode(mode) =>
      (match CalculateRepeatIterations(mode, currentRepeat)
       case Ok(switchCount) => Ok(Some(Command("switch-repeat", RepeatBody(switchCount))))
       case Err(e) => Err(e))
    case _ => Ok(Some(Command(FixedCommandName(action), NoBody)))
  }

  // ---------------------------------------------------------------------------
  // Volume

  /** Volume up and down send the held volume moved by ten, kept within 0..100:
      exactly ten more or less while that stays in range, the bound otherwise. */
  lemma VolumeStep(data: ModuleData, currentRepeat: ModeResponse)
    ensures var up := Callback(VolumeUp, data, currentRepeat);
            var down := Callback(VolumeDown, data, currentRepeat);
            && up.Ok? && up.value.Some? && up.value.value.name == "volume"
            && down.Ok? && down.value.Some? && down.value.value.name == "volume"
            && 0 <= up.value.value.payload.volume <= 100
            && 0 <= down.value.value.payload.volume <= 100
            && (-10 <= data.volume <= 90 ==> up.value.value.payload.volume == data.volume + 10)
            && (data.volume >= 90 ==> up.value.value.payload.volume == 100)
            && (data.volume <= -10 ==> up.value.value.payload.volume == 0)
            && (10 <= data.volume <= 110 ==> down.value.value.payload.volume == data.volume - 10)
            && (data.volume <= 10 ==> down.value.value.payload.volume == 0)
            && (data.volume >= 110 ==> down.value.value.payload.volume == 100)
  {
  }

  lemma VolumeStepExamples(data: ModuleData, currentRepeat: ModeResponse)
    ensures Callback(VolumeUp, data.(volume := 95), currentRepeat) == Ok(Some(Command("volume", VolumeBody(100))))
    ensures Callback(VolumeDown, data.(volume := 5), currentRepeat) == Ok(Some(Command("volume", VolumeBody(0))))
  {
  }

  /** Set volume passes its option through unchanged. */
  lemma SetVolumePassesThrough(data: ModuleData, currentRepeat: ModeResponse, v: int)
    ensures Callback(SetVolume(v), data, currentRepeat) == Ok(Some(Command("volume", VolumeBody(v))))
  {
  }

  /** Seek passes its position option through unchanged, as `seconds`. */
  lemma SeekToPassesThrough(data: ModuleData, currentRepeat: ModeResponse, p: int)
    ensures Callback(SeekTo(p), data, currentRepeat) == Ok(Some(Command("seek-to", SeekBody(p))))
  {
  }

  // ---------------------------------------------------------------------------
  // Mute

  /** Mute sends a toggle exactly when the snapshot does not say muted (so also
      when the state is unknown); unmute exactly when it says muted. */
  lemma MuteGuards(data: ModuleData, currentRepeat: ModeResponse)
    ensures Callback(Mute, data, currentRepeat) == Ok(Some(ToggleMuteCommand)) <==> data.muted != True
    ensures Callback(Mute, data, currentRepeat) == Ok(None) <==> data.muted == True
    ensures Callback(Unmute, data, currentRepeat) == Ok(Some(ToggleMuteCommand)) <==> data.muted == True
    ensures Callback(Unmute, data, currentRepeat) == Ok(None) <==> data.muted != True
  {
  }

  /** The player's mute state after it receives what an action sent: a toggle
      flips it, anything else leaves it. */
  function MutedAfter(muted: bool, sent: Result<Option<Command>, RepeatError>): bool {
    if sent == Ok(Some(ToggleMuteCommand)) then !muted else muted
  }

  /** When the snapshot knows the mute state and it is accurate, mute leaves the
      player muted and unmute leaves it unmuted, whatever the state was: the guard
      makes both idempotent. */
  lemma MuteReachesGoal(data: ModuleData, currentRepeat: ModeResponse, muted: bool)
    requires data.muted == FromBool(muted)
    ensures MutedAfter(muted, Callback(Mute, data, currentRepeat))
    ensures !MutedAfter(muted, Callback(Unmute, data, currentRepeat))
  {
  }

  /** When the mute state is not yet known, mute sends a toggle blindly: if the
      player was in fact muted, it ends up unmuted. */
  lemma MuteWhenUnknownMayUnmute(data: ModuleData, currentRepeat: ModeResponse)
    requires data.muted == Unknown
    ensures !MutedAfter(true, Callback(Mute, data, currentRepeat))
  {
  }

  // ---------------------------------------------------------------------------
  // Repeat mode

  /** The repeat-mode action sends `switch-repeat` with the step count the
      repeat-mode distance gives, and fails when it fails. */
  lemma RepeatSendsDistance(data: ModuleData, currentRepeat: ModeResponse, mode: string)
    ensures var r, k := Callback(RepeatMode(mode), data, currentRepeat), CalculateRepeatIterations(mode, currentRepeat);
            && (k.Ok? ==> r == Ok(Some(Command("switch-repeat", RepeatBody(k.value)))))
            && (k.Err? ==> r == Err(k.error))
  {
  }

  /** Sending the step count brings a known current mode to a known target, and
      stepping through the cycle asks for exactly one press. */
  lemma {:induction false} RepeatReachesTarget(data: ModuleData, currentRepeat: ModeResponse, mode: string)
    requires mode != Iterate
    requires Callback(RepeatMode(mode), data, currentRepeat).Ok?
    ensures var sent := Callback(RepeatMode(mode), data, currentRepeat).value.value;
            && sent.name == "switch-repeat" && 0 <= sent.payload.iteration < 3
            && AdvanceMode(currentRepeat.mode.value, sent.payload.iteration) == mode
  {
    RepeatIterationsReachTarget(mode, currentRepeat);
  }

  lemma RepeatIterateIsOnePress(data: ModuleData, currentRepeat: ModeResponse)
    ensures Callback(RepeatMode(Iterate), data, currentRepeat) == Ok(Some(Command("switch-repeat", RepeatBody(1))))
  {
  }

  // ---------------------------------------------------------------------------
  // Fixed commands and what the decision depends on

  /** Each parameterless action sends its one fixed command, with no body, whatever
      the snapshot holds. */
  lemma FixedCommands(action: Action, data: ModuleData, currentRepeat: ModeResponse)
    requires action in FixedActions
    ensures Callback(action, data, currentRepeat) == Ok(Some(Command(FixedCommandName(action), NoBody)))
  {
  }

  lemma FixedCommandExamples(data: ModuleData, currentRepeat: ModeResponse)
    ensures Callback(PlayPause, data, currentRepeat) == Ok(Some(Command("toggle-play", NoBody)))
    ensures Callback(ToggleLike, data, currentRepeat) == Ok(Some(Command("like", NoBody)))
    ensures Callback(ToggleDislike, data, currentRepeat) == Ok(Some(Command("dislike", NoBody)))
  {
  }

  /** The parameterless action that sends a given command, if any. */
  function FixedActionFor(name: string): Option<Action> {
    if name == "toggle-play" then Some(PlayPause)
    else if name == "play" then Some(Play)
    else if name == "pause" then Some(Pause)
    else if name == "toggle-mute" then Some(ToggleMute)
    else if name == "next" then Some(Next)
    else if name == "previous" then Some(Previous)
    else if name == "shuffle" then Some(Shuffle)
    else if name == "like" then Some(ToggleLike)
    else if name == "dislike" then Some(ToggleDislike)
    else None
  }

  /** No two parameterless actions send the same command: the command names the
      action that sent it. */
  lemma {:induction false} FixedCommandNamesDistinct(a: Action, b: Action)
    requires a in FixedActions && b in FixedActions
    ensures FixedActionFor(FixedCommandName(a)) == Some(a)
    ensures a != b ==> FixedCommandName(a) != FixedCommandName(b)
  {
    match a
    case PlayPause =>
    case Play =>
    case Pause =>
    case ToggleMute =>
    case Next =>
    case Previous =>
    case Shuffle =>
    case ToggleLike =>
    case ToggleDislike =>
  }

  /** An action reads nothing of the snapshot but the volume and the mute state,
      and only the repeat-mode action, for a target other than the step-once
      value, consults the player's current mode. */
  lemma CallbackDependsOn(action: Action, d1: ModuleData, d2: ModuleData, c1: ModeResponse, c2: ModeResponse)
    requires d1.volume == d2.volume && d1.muted == d2.muted
    requires !action.RepeatMode? || action.mode == Iterate
    ensures Callback(action, d1, c1) == Callback(action, d2, c2)
  {
  }
}
