/** src/main.ts: the module instance, which holds the snapshot and replaces it
    with the merge of each frame that arrives on the socket. */
module Main {
  import opened Wrappers
  import opened State
  import opened Variables

  /** A frame as the `'message'` handler sees it: parsed into an update, or not
      parseable (the handler's `catch` branch). */
  datatype Frame = Parsed(update: Update) | Malformed

  /** What the handler asks of the host after a frame: whether to recompute the
      album-art feedback, and the variable values to push (None when nothing is
      pushed). */
  datatype Refresh = Refresh(feedbacks: bool, variables: Option<map<VariableId, VariableValue>>)

  class ModuleInstance {
    /** The latest merged snapshot (`this.data`). */
    var data: ModuleData

    ghost predicate Valid()
      reads this
    {
      WellFormed(data)
    }

    /** A new instance holds the default snapshot. */
    constructor()
      ensures Valid()
      ensures data == DefaultModuleData
    {
      data := DefaultModuleData;
    }

    /** The `'message'` handler: a parsed frame replaces the snapshot with its merge
        into the previous one, asks for the album-art feedback when the image
        source changed, and always pushes the variables of the new snapshot; a
        frame that cannot be parsed changes nothing and asks for nothing. */
    method OnMessage(frame: Frame) returns (refresh: Refresh)
      requires Valid()
      modifies this
      ensures Valid()
      ensures frame.Malformed? ==> data == old(data) && refresh == Refresh(false, None)
      ensures frame.Parsed? ==>
                && data == Merge(old(data), frame.update)
                && refresh.feedbacks == (data.imageSrc != old(data).imageSrc)
                && refresh.variables == Some(UpdateVariables(data))
    {
      match frame
      case Malformed =>
        refresh := Refresh(false, None);
      case Parsed(message) =>
        var prev := data;
        data := Merge(prev, message);
        refresh := Refresh(CoverChanged(prev, data), Some(UpdateVariables(data)));
    }
  }

  /** The snapshot after a run of frames, one merge per parsed frame. */
  function Replay(start: ModuleData, frames: seq<Frame>): ModuleData {
    if frames == [] then start
    else
      var last := frames[|frames| - 1];
      var before := Replay(start, frames[..|frames| - 1]);
      if last.Parsed? then Merge(before, last.update) else before
  }

  /** However many frames arrive, the snapshot stays well formed: every snapshot
      reachable from the default one has display strings that match its numbers
      and a volume that is not negative. */
  lemma {:induction false} ReplayWellFormed(frames: seq<Frame>)
    ensures WellFormed(Replay(DefaultModuleData, frames))
  {
    if frames != [] {
      ReplayWellFormed(frames[..|frames| - 1]);
    }
  }
}
