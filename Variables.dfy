/** src/variables.ts: the host variables the adapter publishes and how the
    snapshot is projected onto them. */
module Variables {
  import opened Wrappers
  import opened Utils
  import opened State

  /** The host variables, each standing for its `variableId`. */
  datatype VariableId =
    | Title | Artist | VolumePercent | Muted | Duration | DurationFormatted
    | TrackProgress | TrackProgressFormatted | TrackState | VideoId | AlbumCover
  {
    /** The `variableId` the host knows the variable by. */
    function Text(): string {
      match this
      case Title => "title"
      case Artist => "artist"
      case VolumePercent => "volumePercent"
      case Muted => "muted"
      case Duration => "duration"
      case DurationFormatted => "duration_formatted"
      case TrackProgress => "trackProgress"
      case TrackProgressFormatted => "trackProgress_formatted"
      case TrackState => "trackState"
      case VideoId => "videoId"
      case AlbumCover => "albumCover"
    }
  }

  datatype VariableDefinition = VariableDefinition(variableId: VariableId, name: string)

  /** `variableDefinitions`: the eleven variables offered to the host. */
  const VariableDefinitionList: seq<VariableDefinition> := [
    VariableDefinition(Title, "Title of the currently playing track"),
    VariableDefinition(Artist, "Artist of the currently playing track"),
    VariableDefinition(VolumePercent, "Volume of the player (1-100%)"),
    VariableDefinition(Muted, "State of mute (true, false))"),
    VariableDefinition(Duration, "Duration of the currently playing track (seconds)"),
    VariableDefinition(DurationFormatted, "Duration of the currently playing track"),
    VariableDefinition(TrackProgress, "Video progress of the player (seconds)"),
    VariableDefinition(TrackProgressFormatted, "Video progress of the player"),
    VariableDefinition(TrackState, "State of the player (unknown, paused, playing)"),
    VariableDefinition(VideoId, "Video ID of the currently playing track"),
    VariableDefinition(AlbumCover, "URL of the currently playing track's Album Cover")
  ]

  function DefinedIds(): set<VariableId> {
    set i | 0 <= i < |VariableDefinitionList| :: VariableDefinitionList[i].variableId
  }

  /** A value handed to the host: text, a number, a boolean, or `undefined`. */
  datatype VariableValue = Text(text: string) | Number(number: int) | Flag(flag: bool) | Undefined

  function TriBoolValue(b: TriBool): VariableValue {
    match b
    case Unknown => Undefined
    case True => Flag(true)
    case False => Flag(false)
  }

  /** `trackStateDict`, keyed by the text the lookup below computes. */
  const TrackStateDict: map<string, string> := map["-1" := "unknown", "false" := "paused", "true" := "playing"]

  /** The key the adapter looks up: "false" when paused, "true" when playing,
      "-1" when the state is not known. */
  function TrackStateKey(isPaused: TriBool): (key: string)
    ensures key in TrackStateDict && TrackStateDict[key] != ""
  {
    match isPaused
    case True => "false"
    case False => "true"
    case Unknown => "-1"
  }

  /** The `trackState` label: the dictionary entry for the key, or "unknown" when
      there is none or it is empty. */
  function TrackStateLabel(isPaused: TriBool): (state: string)
    ensures state in {"unknown", "paused", "playing"}
  {
    var key := TrackStateKey(isPaused);
    if key in TrackStateDict && TrackStateDict[key] != "" then TrackStateDict[key] else "unknown"
  }

  /** Each of the three states has its own label, in both directions. */
  lemma TrackStateLabels(isPaused: TriBool)
    ensures TrackStateLabel(isPaused) == "paused" <==> isPaused == True
    ensures TrackStateLabel(isPaused) == "playing" <==> isPaused == False
    ensures TrackStateLabel(isPaused) == "unknown" <==> isPaused == Unknown
  {
  }

  /** `UpdateVariables`: the values pushed to the host for a snapshot. */
  function UpdateVariables(d: ModuleData): (values: map<VariableId, VariableValue>)
    ensures forall id | id in values :: values[id] == Undefined <==> id == Muted && d.muted == Unknown
  {
    map[
      Title := Text(d.title),
      Artist := Text(d.artist),
      VolumePercent := Number(d.volume),
      Muted := TriBoolValue(d.muted),
      Duration := Number(d.duration),
      DurationFormatted := Text(d.durationFormatted),
      TrackProgress := Number(d.elapsedSeconds),
      TrackProgressFormatted := Text(d.elapsedSecondsFormatted),
      TrackState := Text(TrackStateLabel(d.isPaused)),
      VideoId := Text(d.videoId),
      AlbumCover := Text(d.imageSrc)
    ]
  }

  /** Every variable is defined, and the eleven `variableId` texts are distinct. */
  lemma DefinitionsDistinct()
    ensures |VariableDefinitionList| == 11
    ensures forall id: VariableId :: id in DefinedIds()
    ensures forall i, j :: 0 <= i < j < |VariableDefinitionList| ==>
              VariableDefinitionList[i].variableId.Text() != VariableDefinitionList[j].variableId.Text()
  {
    forall id: VariableId ensures id in DefinedIds() {
      var i := match id
        case Title => 0 case Artist => 1 case VolumePercent => 2 case Muted => 3
        case Duration => 4 case DurationFormatted => 5 case TrackProgress => 6
        case TrackProgressFormatted => 7 case TrackState => 8 case VideoId => 9 case AlbumCover => 10;
      assert VariableDefinitionList[i].variableId == id;
    }
  }

  /** The variables written for a snapshot are exactly the variables defined. */
  lemma {:induction false} WrittenAreDefined(d: ModuleData)
    ensures UpdateVariables(d).Keys == DefinedIds()
  {
    var v := UpdateVariables(d);
    forall id: VariableId ensures id in v {
      match id
      case Title => case Artist => case VolumePercent => case Muted => case Duration =>
      case DurationFormatted => case TrackProgress => case TrackProgressFormatted =>
      case TrackState => case VideoId => case AlbumCover =>
    }
    DefinitionsDistinct();
  }

  /** The renamed variables carry the snapshot fields they stand for, and the
      variable for the paused state is its label. */
  lemma VariablesCarryFields(d: ModuleData)
    ensures var v := UpdateVariables(d);
            && v[VolumePercent] == Number(d.volume)
            && v[TrackProgress] == Number(d.elapsedSeconds)
            && v[TrackProgressFormatted] == Text(d.elapsedSecondsFormatted)
            && v[AlbumCover] == Text(d.imageSrc)
            && v[Title] == Text(d.title) && v[Artist] == Text(d.artist)
            && v[Duration] == Number(d.duration) && v[DurationFormatted] == Text(d.durationFormatted)
            && v[VideoId] == Text(d.videoId)
            && (v[Muted] == Undefined <==> d.muted == Unknown)
            && (v[Muted] == Flag(true) <==> d.muted == True)
            && v[TrackState] == Text(TrackStateLabel(d.isPaused))
  {
  }

  /** For a well-formed snapshot the formatted variables read back as the numeric
      ones beside them. */
  lemma {:induction false} FormattedVariablesReadBack(d: ModuleData)
    requires WellFormed(d)
    ensures var v := UpdateVariables(d);
            && ParseTime(v[DurationFormatted].text) == Some(v[Duration].number)
            && ParseTime(v[TrackProgressFormatted].text) == Some(v[TrackProgress].number)
  {
    VariablesCarryFields(d);
    FormatTimeRoundTrip(d.duration);
    FormatTimeRoundTrip(d.elapsedSeconds);
  }
}
