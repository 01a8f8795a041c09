/**
 * The flight recorder store (`client/src/lib/stores/useFlightRecorder.tsx`):
 * an append-only log of frames, mutually exclusive recording and replaying
 * flags, a replay cursor, and save/load of the log under a name. The browser's
 * local storage and its JSON encoding are modelled as a map from names to
 * serialised frame lists.
 */
module FlightRecorder {
  import opened RealMath
  import opened Options

  /** One recorded sample: the drone's position and rotation and the wall-clock time. */
  datatype FlightFrame = FlightFrame(position: Vec3, rotation: Vec3, timestamp: real)

  /** The stored shape of a frame: position and rotation as arrays of numbers. */
  datatype StoredFrame = StoredFrame(position: seq<real>, rotation: seq<real>, timestamp: real)

  function Components(v: Vec3): (s: seq<real>)
    ensures |s| == 3 && s[0] == v.x && s[1] == v.y && s[2] == v.z
  {
    [v.x, v.y, v.z]
  }

  /**
   * `new THREE.Vector3(...array)`: missing components take the constructor's
   * default 0 and extra ones are ignored.
   */
  function FromComponents(s: seq<real>): (v: Vec3)
    ensures |s| >= 3 ==> v == Vec3(s[0], s[1], s[2])
    ensures |s| == 0 ==> v == Zero
  {
    Vec3(if |s| > 0 then s[0] else 0.0, if |s| > 1 then s[1] else 0.0, if |s| > 2 then s[2] else 0.0)
  }

  function Store(f: FlightFrame): StoredFrame
  {
    StoredFrame(Components(f.position), Components(f.rotation), f.timestamp)
  }

  function Restore(s: StoredFrame): FlightFrame
  {
    FlightFrame(FromComponents(s.position), FromComponents(s.rotation), s.timestamp)
  }

  function StoreAll(frames: seq<FlightFrame>): (r: seq<StoredFrame>)
    ensures |r| == |frames|
    ensures forall i :: 0 <= i < |frames| ==> r[i] == Store(frames[i])
  {
    seq(|frames|, i requires 0 <= i < |frames| => Store(frames[i]))
  }

  function RestoreAll(stored: seq<StoredFrame>): (r: seq<FlightFrame>)
    ensures |r| == |stored|
    ensures forall i :: 0 <= i < |stored| ==> r[i] == Restore(stored[i])
  {
    seq(|stored|, i requires 0 <= i < |stored| => Restore(stored[i]))
  }

  /** Restoring a stored frame gives back the frame. */
  lemma RestoreStore(f: FlightFrame)
    ensures Restore(Store(f)) == f
  {
  }

  /** Loading what was saved gives back the recorded frames, in order. */
  lemma RestoreAllStoreAll(frames: seq<FlightFrame>)
    ensures RestoreAll(StoreAll(frames)) == frames
  {
    forall i | 0 <= i < |frames|
      ensures RestoreAll(StoreAll(frames))[i] == frames[i]
    {
      RestoreStore(frames[i]);
    }
  }

  /** The `flightRecordings` entry of local storage. */
  class RecordingStore {
    var recordings: map<string, seq<StoredFrame>>

    constructor ()
      ensures recordings == map[]
    {
      recordings := map[];
    }
  }

  class Recorder {
    var isRecording: bool
    var isReplaying: bool
    var frames: seq<FlightFrame>
    var currentFrame: int

    /**
     * Recording and replaying never overlap, the cursor is never negative, and
     * while replaying the log is nonempty and the cursor at most its length.
     */
    ghost predicate Valid()
      reads this
    {
      && !(isRecording && isReplaying)
      && currentFrame >= 0
      && (isReplaying ==> |frames| > 0 && currentFrame <= |frames|)
    }

    constructor ()
      ensures !isRecording && !isReplaying && frames == [] && currentFrame == 0
      ensures Valid()
    {
      isRecording := false;
      isReplaying := false;
      frames := [];
      currentFrame := 0;
    }

    /** Starts a new, empty log and stops any replay; the cursor is left as it was. */
    method StartRecording()
      requires Valid()
      modifies this`isRecording, this`frames, this`isReplaying
      ensures isRecording && frames == [] && !isReplaying
      ensures Valid()
    {
      isRecording := true;
      frames := [];
      isReplaying := false;
    }

    method StopRecording()
      requires Valid()
      modifies this`isRecording
      ensures !isRecording
      ensures Valid()
    {
      isRecording := false;
    }

    /** While recording, appends one frame stamped with the clock reading `now`. */
    method RecordFrame(position: Vec3, rotation: Vec3, now: real)
      requires Valid()
      modifies this`frames
      ensures old(isRecording) ==> frames == old(frames) + [FlightFrame(position, rotation, now)]
      ensures !old(isRecording) ==> frames == old(frames)
      ensures Valid()
    {
      if !isRecording {
        return;
      }
      frames := frames + [FlightFrame(position, rotation, now)];
    }

    /** Replays from the first frame, stopping any recording; an empty log is left alone. */
    method StartReplay()
      requires Valid()
      modifies this`isReplaying, this`currentFrame, this`isRecording
      ensures |frames| == 0 ==>
                isReplaying == old(isReplaying) && currentFrame == old(currentFrame)
                && isRecording == old(isRecording)
      ensures |frames| > 0 ==> isReplaying && currentFrame == 0 && !isRecording
      ensures Valid()
    {
      if |frames| == 0 {
        return;
      }
      isReplaying := true;
      currentFrame := 0;
      isRecording := false;
    }

    method StopReplay()
      requires Valid()
      modifies this`isReplaying, this`currentFrame
      ensures !isReplaying && currentFrame == 0
      ensures Valid()
    {
      isReplaying := false;
      currentFrame := 0;
    }

    /**
     * The frame under the cursor, advancing it; past the end, or when not
     * replaying, `null` and the replay stops.
     */
    method GetReplayFrame() returns (f: Option<FlightFrame>)
      requires Valid()
      modifies this`isReplaying, this`currentFrame
      ensures old(isReplaying) && old(currentFrame) < |frames| ==>
                && f == Some(frames[old(currentFrame)])
                && currentFrame == old(currentFrame) + 1 && isReplaying
      ensures !(old(isReplaying) && old(currentFrame) < |frames|) ==>
                f == None && !isReplaying && currentFrame == 0
      ensures Valid()
    {
      if !isReplaying || currentFrame >= |frames| {
        isReplaying := false;
        currentFrame := 0;
        return None;
      }
      f := Some(frames[currentFrame]);
      currentFrame := currentFrame + 1;
    }

    method ClearRecording()
      modifies this`frames, this`currentFrame, this`isRecording, this`isReplaying
      ensures frames == [] && currentFrame == 0 && !isRecording && !isReplaying
      ensures Valid()
    {
      frames := [];
      currentFrame := 0;
      isRecording := false;
      isReplaying := false;
    }

    /** Stores the log under `name`, replacing any earlier recording of that name. */
    method SaveToLocalStorage(name: string, store: RecordingStore)
      modifies store
      ensures store.recordings == old(store.recordings)[name := StoreAll(frames)]
    {
      var serializedFrames := StoreAll(frames);
      store.recordings := store.recordings[name := serializedFrames];
    }

    /**
     * Replaces the log with the recording saved under `name` and stops replay;
     * a name with nothing saved changes nothing and reports false.
     */
    method LoadFromLocalStorage(name: string, store: RecordingStore) returns (loaded: bool)
      requires Valid()
      modifies this`frames, this`isReplaying, this`currentFrame
      ensures loaded <==> name in store.recordings
      ensures !loaded ==>
                frames == old(frames) && isReplaying == old(isReplaying) && currentFrame == old(currentFrame)
      ensures loaded ==>
                frames == RestoreAll(store.recordings[name]) && !isReplaying && currentFrame == 0
      ensures Valid()
    {
      if name !in store.recordings {
        return false;
      }
      frames := RestoreAll(store.recordings[name]);
      isReplaying := false;
      currentFrame := 0;
      return true;
    }
  }

  /** The names with a saved recording, each once (in no particular order). */
  method GetSavedRecordings(store: RecordingStore) returns (names: seq<string>)
    ensures forall n :: n in names <==> n in store.recordings
    ensures forall i, j :: 0 <= i < j < |names| ==> names[i] != names[j]
  {
    names := [];
    var remaining := store.recordings.Keys;
    while remaining != {}
      invariant forall n :: n in names || n in remaining <==> n in store.recordings
      invariant forall n :: n in names ==> n !in remaining
      invariant forall i, j :: 0 <= i < j < |names| ==> names[i] != names[j]
      decreases remaining
    {
      var n :| n in remaining;
      names := names + [n];
      remaining := remaining - {n};
    }
  }

  /**
   * After `startReplay` on a nonempty log, successive `getReplayFrame` calls
   * yield the frames in recorded order and then `null`.
   */
  method ReplayAll(rec: Recorder) returns (played: seq<FlightFrame>, after: Option<FlightFrame>)
    requires rec.Valid() && |rec.frames| > 0
    modifies rec
    ensures played == rec.frames && after == None
    ensures !rec.isReplaying && rec.currentFrame == 0 && rec.frames == old(rec.frames)
    ensures rec.Valid()
  {
    rec.StartReplay();
    played := [];
    while rec.currentFrame < |rec.frames|
      invariant rec.Valid() && rec.isReplaying && rec.frames == old(rec.frames)
      invariant played == rec.frames[..rec.currentFrame]
      decreases |rec.frames| - rec.currentFrame
    {
      var f := rec.GetReplayFrame();
      played := played + [f.value];
    }
    assert rec.frames[..rec.currentFrame] == rec.frames;
    after := rec.GetReplayFrame();
  }

  /** Saving under a name and loading it back restores the log and stops replay. */
  method SaveThenLoad(rec: Recorder, store: RecordingStore, name: string) returns (loaded: bool)
    requires rec.Valid()
    modifies rec, store
    ensures loaded && rec.frames == old(rec.frames) && !rec.isReplaying && rec.currentFrame == 0
    ensures rec.Valid()
  {
    rec.SaveToLocalStorage(name, store);
    loaded := rec.LoadFromLocalStorage(name, store);
    RestoreAllStoreAll(old(rec.frames));
  }
}
