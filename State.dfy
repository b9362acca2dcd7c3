/** src/main.ts: the player snapshot (`ModuleData`), its defaults, the partial
    update a WebSocket frame carries, and how the two merge into the next snapshot. */
module State {
  import opened Wrappers
  import opened Decimal
  import opened Utils

  /** An optional boolean of the snapshot: not yet observed, true or false. */
  datatype TriBool = Unknown | True | False

  function FromBool(b: bool): TriBool {
    if b then True else False
  }

  /** `ModuleData`: the single latest snapshot of the player. */
  datatype ModuleData = ModuleData(
    title: string,
    artist: string,
    imageSrc: string,
    isPaused: TriBool,
    duration: nat,
    durationFormatted: string,
    elapsedSeconds: nat,
    elapsedSecondsFormatted: string,
    videoId: string,
    volume: int,
    muted: TriBool)

  /** `defaultModuleData`: the snapshot before any frame arrives. */
  const DefaultModuleData: ModuleData :=
    ModuleData(
      title := "",
      artist := "",
      imageSrc := "",
      isPaused := Unknown,
      duration := 0,
      durationFormatted := FormatTime(0),
      elapsedSeconds := 0,
      elapsedSecondsFormatted := FormatTime(0),
      videoId := "",
      volume := 0,
      muted := Unknown)

  /** What every snapshot the adapter holds satisfies: the display strings show the
      numbers beside them, and the volume is not negative. */
  predicate WellFormed(d: ModuleData) {
    && d.durationFormatted == FormatTime(d.duration)
    && d.elapsedSecondsFormatted == FormatTime(d.elapsedSeconds)
    && d.volume >= 0
  }

  lemma DefaultWellFormed()
    ensures WellFormed(DefaultModuleData)
    ensures DefaultModuleData.durationFormatted == DefaultModuleData.elapsedSecondsFormatted == "0:00"
  {
  }

  /** The `song` member of a frame; every field may be missing. */
  datatype SongUpdate = SongUpdate(
    title: Option<string>,
    artist: Option<string>,
    imageSrc: Option<string>,
    songDuration: Option<nat>,
    elapsedSeconds: Option<nat>,
    videoId: Option<string>)

  /** A parsed WebSocket frame: a partial update of the player state. */
  datatype Update = Update(
    song: Option<SongUpdate>,
    isPlaying: Option<bool>,
    isPaused: Option<bool>,
    volume: Option<int>,
    muted: Option<bool>,
    position: Option<nat>)

  const EmptySong: SongUpdate := SongUpdate(None, None, None, None, None, None)

  const EmptyUpdate: Update := Update(None, None, None, None, None, None)

  /** `a ?? b` where `b` is an optional boolean of the snapshot. */
  function OrElse(a: Option<bool>, b: TriBool): TriBool {
    match a
    case Some(v) => FromBool(v)
    case None => b
  }

  /** The elapsed time a frame proposes, before the guard against the duration. */
  function CandidateElapsed(message: Update, duration: nat): (candidate: nat)
    ensures candidate <= duration ==>
              message.position.Some? || (message.song.Some? && message.song.value.elapsedSeconds.Some?)
  {
    var song := message.song.GetOr(EmptySong);
    song.elapsedSeconds.GetOr(message.position.GetOr(duration + 10))
  }

  /** The body of the `'message'` handler: the next snapshot from the previous one
      and a frame. */
  function Merge(prev: ModuleData, message: Update): (next: ModuleData)
    ensures WellFormed(prev) ==> WellFormed(next)
    ensures next.durationFormatted == FormatTime(next.duration)
    ensures next.elapsedSecondsFormatted == FormatTime(next.elapsedSeconds)
  {
    var song := message.song.GetOr(EmptySong);
    var imageSrc := song.imageSrc.GetOr(prev.imageSrc);
    var pausedFromPlaying := if message.isPlaying.Some? then Some(!message.isPlaying.value) else None;
    var volume := if message.volume.Some? && message.volume.value >= 0 then message.volume.value else prev.volume;
    var duration := song.songDuration.GetOr(prev.duration);
    var tempElapsedSeconds := CandidateElapsed(message, duration);
    var elapsedSeconds := if tempElapsedSeconds <= duration then tempElapsedSeconds else prev.elapsedSeconds;
    ModuleData(
      title := song.title.GetOr(prev.title),
      artist := song.artist.GetOr(prev.artist),
      imageSrc := imageSrc,
      isPaused := OrElse(message.isPaused, OrElse(pausedFromPlaying, prev.isPaused)),
      duration := duration,
      durationFormatted := FormatTime(duration),
      elapsedSeconds := elapsedSeconds,
      elapsedSecondsFormatted := FormatTime(elapsedSeconds),
      videoId := song.videoId.GetOr(prev.videoId),
      volume := volume,
      muted := OrElse(message.muted, prev.muted))
  }

  /** Whether the album-art feedback must be recomputed after a merge. */
  predicate CoverChanged(prev: ModuleData, next: ModuleData) {
    next.imageSrc != prev.imageSrc
  }

  // ---------------------------------------------------------------------------
  // Field by field

  /** Title, artist, video id and album art: a value present in the frame replaces
      the previous one, and a missing one keeps it. */
  lemma MergeTextFields(prev: ModuleData, message: Update)
    ensures var next, song := Merge(prev, message), message.song.GetOr(EmptySong);
            && (song.title.Some? ==> next.title == song.title.value)
            && (song.title.None? ==> next.title == prev.title)
            && (song.artist.Some? ==> next.artist == song.artist.value)
            && (song.artist.None? ==> next.artist == prev.artist)
            && (song.videoId.Some? ==> next.videoId == song.videoId.value)
            && (song.videoId.None? ==> next.videoId == prev.videoId)
            && (song.imageSrc.Some? ==> next.imageSrc == song.imageSrc.value)
            && (song.imageSrc.None? ==> next.imageSrc == prev.imageSrc)
  {
  }

  /** The volume takes the frame's value exactly when it is present and not
      negative; otherwise it stays as it was. */
  lemma MergeVolume(prev: ModuleData, message: Update)
    ensures var next := Merge(prev, message);
            && (message.volume.None? || message.volume.value < 0 ==> next.volume == prev.volume)
            && (message.volume.Some? && message.volume.value >= 0 ==> next.volume == message.volume.value)
  {
  }

  /** The elapsed time either fits within the new duration or is the previous
      elapsed time; a frame that proposes none, or one beyond the duration, keeps
      the previous value, and a fitting one is taken. */
  lemma MergeElapsed(prev: ModuleData, message: Update)
    ensures var next, song := Merge(prev, message), message.song.GetOr(EmptySong);
            && (next.elapsedSeconds <= next.duration || next.elapsedSeconds == prev.elapsedSeconds)
            && (song.elapsedSeconds.None? && message.position.None? ==> next.elapsedSeconds == prev.elapsedSeconds)
            && (song.elapsedSeconds.Some? && song.elapsedSeconds.value <= next.duration ==>
                  next.elapsedSeconds == song.elapsedSeconds.value)
            && (song.elapsedSeconds.Some? && song.elapsedSeconds.value > next.duration ==>
                  next.elapsedSeconds == prev.elapsedSeconds)
            && (song.elapsedSeconds.None? && message.position.Some? && message.position.value <= next.duration ==>
                  next.elapsedSeconds == message.position.value)
            && (song.elapsedSeconds.None? && message.position.Some? && message.position.value > next.duration ==>
                  next.elapsedSeconds == prev.elapsedSeconds)
  {
  }

  /** The duration is the frame's song duration if present, else the previous one. */
  lemma MergeDuration(prev: ModuleData, message: Update)
    ensures var next, song := Merge(prev, message), message.song.GetOr(EmptySong);
            && (song.songDuration.Some? ==> next.duration == song.songDuration.value)
            && (song.songDuration.None? ==> next.duration == prev.duration)
  {
  }

  /** Paused state: an explicit `isPaused` wins, then the negation of `isPlaying`,
      then the previous state. Mute state: the frame's value, else the previous one. */
  lemma MergePauseAndMute(prev: ModuleData, message: Update)
    ensures var next := Merge(prev, message);
            && (message.isPaused.Some? ==> next.isPaused == FromBool(message.isPaused.value))
            && (message.isPaused.None? && message.isPlaying.Some? ==> next.isPaused == FromBool(!message.isPlaying.value))
            && (message.isPaused.None? && message.isPlaying.None? ==> next.isPaused == prev.isPaused)
            && (message.muted.Some? ==> next.muted == FromBool(message.muted.value))
            && (message.muted.None? ==> next.muted == prev.muted)
  {
  }

  /** Once observed, the paused and mute states never return to unknown. */
  lemma MergeNeverForgetsFlags(prev: ModuleData, message: Update)
    ensures prev.isPaused != Unknown ==> Merge(prev, message).isPaused != Unknown
    ensures prev.muted != Unknown ==> Merge(prev, message).muted != Unknown
  {
  }

  /** The album-art feedback is refreshed exactly when the frame carries an image
      source different from the one held. */
  lemma CoverChangedExactly(prev: ModuleData, message: Update)
    ensures var song := message.song.GetOr(EmptySong);
            CoverChanged(prev, Merge(prev, message)) <==> song.imageSrc.Some? && song.imageSrc.value != prev.imageSrc
  {
  }

  // ---------------------------------------------------------------------------
  // The merge as a whole

  /** A frame with nothing in it changes no value; only the display strings are
      recomputed from the unchanged numbers, so a well-formed snapshot is left
      exactly as it was. */
  lemma MergeEmpty(prev: ModuleData)
    ensures Merge(prev, EmptyUpdate)
         == prev.(durationFormatted := FormatTime(prev.duration),
                  elapsedSecondsFormatted := FormatTime(prev.elapsedSeconds))
    ensures WellFormed(prev) ==> Merge(prev, EmptyUpdate) == prev
    ensures Merge(prev, Update(Some(EmptySong), None, None, None, None, None)) == Merge(prev, EmptyUpdate)
  {
  }

  /** Receiving the same frame twice has the effect of receiving it once, and the
      second time the album art does not change. */
  lemma MergeSameFrameTwice(prev: ModuleData, message: Update)
    ensures Merge(Merge(prev, message), message) == Merge(prev, message)
    ensures !CoverChanged(Merge(prev, message), Merge(Merge(prev, message), message))
  {
  }

  /** A frame that supplies every field with acceptable values determines the
      next snapshot on its own: the previous snapshot does not matter. */
  predicate CompleteUpdate(message: Update) {
    && message.song.Some?
    && var song := message.song.value;
    && song.title.Some? && song.artist.Some? && song.imageSrc.Some? && song.videoId.Some?
    && song.songDuration.Some? && song.elapsedSeconds.Some?
    && song.elapsedSeconds.value <= song.songDuration.value
    && message.isPaused.Some? && message.muted.Some?
    && message.volume.Some? && message.volume.value >= 0
  }

  lemma CompleteUpdateOverwrites(a: ModuleData, b: ModuleData, message: Update)
    requires CompleteUpdate(message)
    ensures Merge(a, message) == Merge(b, message)
    ensures WellFormed(Merge(a, message))
  {
  }

  /** The display strings of a merged snapshot read back as its numbers. */
  lemma {:induction false} MergedDisplayReadsBack(prev: ModuleData, message: Update)
    ensures ParseTime(Merge(prev, message).durationFormatted) == Some(Merge(prev, message).duration)
    ensures ParseTime(Merge(prev, message).elapsedSecondsFormatted) == Some(Merge(prev, message).elapsedSeconds)
  {
    var next := Merge(prev, message);
    FormatTimeRoundTrip(next.duration);
    FormatTimeRoundTrip(next.elapsedSeconds);
  }

  /** The elapsed guard does not make "elapsed within duration" an invariant: when
      a frame shortens the duration without a new position, the kept elapsed time
      can lie beyond the new duration. */
  lemma StaleElapsedMayExceedDuration()
    ensures var prev := DefaultModuleData.(duration := 200, elapsedSeconds := 150);
            var message := EmptyUpdate.(song := Some(EmptySong.(songDuration := Some(100))));
            var next := Merge(prev, message);
            prev.elapsedSeconds <= prev.duration && next.elapsedSeconds == 150 > next.duration == 100
  {
  }

  /** The guards at work: an elapsed time beyond the duration and a negative volume
      are both ignored. */
  lemma MergeGuardExamples()
    ensures var prev := DefaultModuleData.(duration := 200, elapsedSeconds := 50, volume := 30);
            && Merge(prev, EmptyUpdate.(song := Some(EmptySong.(elapsedSeconds := Some(500))))).elapsedSeconds == 50
            && Merge(prev, EmptyUpdate.(volume := Some(-5))).volume == 30
  {
  }
}
