/** The recorder's flag state machine (src/main/services/AudioRecorder.ts).
    The media stream, the analyser and the MediaRecorder are reduced to
    whether a recorder and an analyser are attached; what the media layer
    and the file system answer is given to each operation. */
module Recorder {
  import opened Types

  /** `RecordingState`, replaced or updated by every operation. */
  datatype RecordingState = RecordingState(
    isRecording: bool,
    isPaused: bool,
    duration: int,
    volumeLevel: nat,
    deviceId: string,
    startTime: int)

  /** The state after stop or cancel: nothing recorded, everything zero. */
  function Idle(now: int): (s: RecordingState)
    ensures !s.isRecording && !s.isPaused && s.duration == 0 && s.volumeLevel == 0 && s.deviceId == ""
  {
    RecordingState(false, false, 0, 0, "", now)
  }

  /** A paused recorder is always recording, and an idle one reports zeros. */
  predicate Consistent(s: RecordingState)
  {
    (s.isPaused ==> s.isRecording) && (!s.isRecording ==> s.duration == 0 && s.volumeLevel == 0)
  }

  /** One collected data chunk: its size in bytes and when it arrived. */
  datatype Chunk = Chunk(size: nat, timestamp: int)

  /** `new Date().toISOString().replace(/[:.]/g, '-')`. */
  function DashStamp(iso: string): (r: string)
    ensures |r| == |iso|
    ensures forall i :: 0 <= i < |r| ==> r[i] != ':' && r[i] != '.'
    ensures forall i :: 0 <= i < |r| && iso[i] != ':' && iso[i] != '.' ==> r[i] == iso[i]
  {
    seq(|iso|, i requires 0 <= i < |iso| => if iso[i] == ':' || iso[i] == '.' then '-' else iso[i])
  }

  /** The name a stopped recording is saved under. */
  function RecordingFileName(iso: string): string
  {
    "recording_" + DashStamp(iso) + ".wav"
  }

  /** The record a successful stop returns: the fixed media facts of the
      stubbed `getAudioFileInfo` and the saved file's size; the task id is
      filled in later. */
  function StoppedFile(fileId: string, fileName: string, filePath: string, fileSize: nat, now: int): AudioFile
  {
    AudioFile(fileId, "", fileName, filePath, fileSize, Some(0), "wav", Some(44100), Some(1), Some(128000), now, now)
  }

  /** A value handed to `path.join`: a string, or the pending Promise that
      an `async` call yields when it is not awaited. */
  datatype JsArg = Str(s: string) | PendingPromise

  /** `path.join(dir, name)`; a Promise in place of a string makes it throw. */
  function PathJoin(dir: JsArg, name: string): Option<string>
  {
    match dir
    case Str(d) => Some(d + "/" + name)
    case PendingPromise => None
  }

  /** The directory `saveAudioFile` computes. `getConfig` is `async` and is
      not awaited, so its result is a Promise; a Promise is truthy, so the
      `|| process.cwd()` fallback is never taken. */
  function AppDirAsWritten(): JsArg
  {
    PendingPromise
  }

  /** The directory evidently meant: the configured one when it is a
      non-empty string, the working directory otherwise. */
  function AppDirIntended(config: Option<string>, cwd: string): (dir: JsArg)
    ensures dir.Str?
    ensures config.Some? && config.value != "" ==> dir.s == config.value
    ensures config.None? || config.value == "" ==> dir.s == cwd
  {
    if config.Some? && config.value != "" then Str(config.value) else Str(cwd)
  }

  /** `saveAudioFile`: the path written under `<appDir>/audio`, or
      保存音频文件失败 when the path cannot be built or `written` says the
      write failed. */
  function SaveAudioFile(appDir: JsArg, fileName: string, written: bool): (r: Result<string>)
    ensures appDir.PendingPromise? || !written ==> r == Err(RecordingError("保存音频文件失败"))
    ensures appDir.Str? && written ==> r == Ok(appDir.s + "/audio/" + fileName)
  {
    match PathJoin(appDir, "audio")
    case None => Err(RecordingError("保存音频文件失败"))
    case Some(audioDir) =>
      if !written then Err(RecordingError("保存音频文件失败"))
      else
        var p := PathJoin(Str(audioDir), fileName).value;
        assert p == appDir.s + "/audio/" + fileName;
        Ok(p)
  }

  /** With the intended directory a successful write is saved under the
      configured directory, or the working directory when none is set. */
  lemma SaveIntended(config: Option<string>, cwd: string, fileName: string)
    ensures config.Some? && config.value != "" ==>
      SaveAudioFile(AppDirIntended(config, cwd), fileName, true) == Ok(config.value + "/audio/" + fileName)
    ensures config.None? || config.value == "" ==>
      SaveAudioFile(AppDirIntended(config, cwd), fileName, true) == Ok(cwd + "/audio/" + fileName)
  {
  }

  class AudioRecorder {
    var state: RecordingState
    /** Whether `mediaRecorder` is set (it is nulled by cleanup). */
    var hasRecorder: bool
    /** Whether `analyser` is set. */
    var hasAnalyser: bool
    var chunks: seq<Chunk>
    var recordingStartTime: int
    /** Whether the volume and duration intervals are set. */
    var ticking: bool

    ghost predicate Valid()
      reads this
    {
      Consistent(state) && (ticking ==> state.isRecording)
    }

    constructor (now: int)
      ensures Valid() && state == RecordingState(false, false, 0, 0, "", now)
      ensures !hasRecorder && !hasAnalyser && chunks == [] && recordingStartTime == 0 && !ticking
    {
      state := RecordingState(false, false, 0, 0, "", now);
      hasRecorder, hasAnalyser, chunks, recordingStartTime, ticking := false, false, [], 0, false;
    }

    /** `startRecording`: refused while recording; `media` is whether the
        microphone stream was granted, `deviceId` the merged option ("" when none). */
    method StartRecording(deviceId: string, media: bool, now: int) returns (r: Result<()>)
      requires Valid()
      modifies this
      ensures Valid()
      ensures old(state.isRecording) || !media ==>
        (r == Err(RecordingError("开始录音失败")) && state == old(state)
         && hasRecorder == old(hasRecorder) && hasAnalyser == old(hasAnalyser) && chunks == old(chunks)
         && recordingStartTime == old(recordingStartTime) && ticking == old(ticking))
      ensures !old(state.isRecording) && media ==>
        (r == Ok(()) && state == RecordingState(true, false, 0, 0, deviceId, now)
         && hasRecorder && hasAnalyser && chunks == [] && recordingStartTime == now && ticking)
    {
      if state.isRecording || !media {
        return Err(RecordingError("开始录音失败"));
      }
      hasAnalyser := true;
      chunks := [];
      hasRecorder := true;
      recordingStartTime := now;
      state := RecordingState(true, false, 0, 0, deviceId, now);
      ticking := true;
      r := Ok(());
    }

    /** `ondataavailable`: empty chunks are dropped. */
    method OnData(size: nat, now: int)
      requires Valid()
      modifies this
      ensures Valid() && state == old(state) && hasRecorder == old(hasRecorder) && hasAnalyser == old(hasAnalyser)
      ensures recordingStartTime == old(recordingStartTime) && ticking == old(ticking)
      ensures chunks == if size > 0 then old(chunks) + [Chunk(size, now)] else old(chunks)
    {
      if size > 0 {
        chunks := chunks + [Chunk(size, now)];
      }
    }

    method PauseRecording() returns (r: Result<()>)
      requires Valid()
      modifies this
      ensures Valid() && hasRecorder == old(hasRecorder) && hasAnalyser == old(hasAnalyser) && chunks == old(chunks)
      ensures recordingStartTime == old(recordingStartTime) && ticking == old(ticking)
      ensures old(state.isRecording) && !old(state.isPaused) && hasRecorder ==> r == Ok(()) && state == old(state).(isPaused := true)
      ensures !(old(state.isRecording) && !old(state.isPaused) && hasRecorder) ==> r == Err(RecordingError("暂停录音失败")) && state == old(state)
    {
      if !state.isRecording || state.isPaused || !hasRecorder {
        return Err(RecordingError("暂停录音失败"));
      }
      state := state.(isPaused := true);
      r := Ok(());
    }

    method ResumeRecording() returns (r: Result<()>)
      requires Valid()
      modifies this
      ensures Valid() && hasRecorder == old(hasRecorder) && hasAnalyser == old(hasAnalyser) && chunks == old(chunks)
      ensures recordingStartTime == old(recordingStartTime) && ticking == old(ticking)
      ensures old(state.isRecording) && old(state.isPaused) && hasRecorder ==> r == Ok(()) && state == old(state).(isPaused := false)
      ensures !(old(state.isRecording) && old(state.isPaused) && hasRecorder) ==> r == Err(RecordingError("恢复录音失败")) && state == old(state)
    {
      if !state.isRecording || !state.isPaused || !hasRecorder {
        return Err(RecordingError("恢复录音失败"));
      }
      state := state.(isPaused := false);
      r := Ok(());
    }

    /** `cancelRecording`: clears the timers, drops the chunks and returns to idle. */
    method CancelRecording(now: int) returns (r: Result<()>)
      requires Valid()
      modifies this
      ensures Valid() && recordingStartTime == old(recordingStartTime)
      ensures !old(state.isRecording) ==>
        (r == Err(RecordingError("取消录音失败")) && state == old(state) && ticking == old(ticking)
         && chunks == old(chunks) && hasRecorder == old(hasRecorder) && hasAnalyser == old(hasAnalyser))
      ensures old(state.isRecording) ==>
        r == Ok(()) && state == Idle(now) && chunks == [] && !hasRecorder && !hasAnalyser && !ticking
    {
      if !state.isRecording {
        return Err(RecordingError("取消录音失败"));
      }
      ticking := false;
      chunks := [];
      state := Idle(now);
      hasRecorder, hasAnalyser := false, false;
      r := Ok(());
    }

    /** `stopRecording`: needs a recording and a recorder. Past that guard
        the timers are cleared before the save; `appDir` is the directory
        `saveAudioFile` computes (`AppDirAsWritten()` in the code as it
        stands), `written` whether the file write succeeded and `size` the
        size it reports. A failed save leaves the recording state as it was. */
    method StopRecording(appDir: JsArg, written: bool, size: nat, fileId: string, iso: string, now: int)
      returns (r: Result<AudioFile>)
      requires Valid()
      modifies this
      ensures Valid() && chunks == old(chunks) && recordingStartTime == old(recordingStartTime)
      ensures !(old(state.isRecording) && old(hasRecorder)) ==>
        (r == Err(RecordingError("停止录音失败")) && state == old(state) && ticking == old(ticking)
         && hasRecorder == old(hasRecorder) && hasAnalyser == old(hasAnalyser))
      ensures old(state.isRecording) && old(hasRecorder) ==> !ticking
      ensures old(state.isRecording) && old(hasRecorder) && SaveAudioFile(appDir, RecordingFileName(iso), written).Err? ==>
        (r == Err(RecordingError("停止录音失败")) && state == old(state)
         && hasRecorder == old(hasRecorder) && hasAnalyser == old(hasAnalyser))
      ensures old(state.isRecording) && old(hasRecorder) && SaveAudioFile(appDir, RecordingFileName(iso), written).Ok? ==>
        var name := RecordingFileName(iso);
        && r == Ok(StoppedFile(fileId, name, SaveAudioFile(appDir, name, written).value, size, now))
        && state == Idle(now) && !hasRecorder && !hasAnalyser
      ensures appDir == AppDirAsWritten() ==> r == Err(RecordingError("停止录音失败"))
    {
      if !state.isRecording || !hasRecorder {
        return Err(RecordingError("停止录音失败"));
      }
      ticking := false;
      var name := RecordingFileName(iso);
      var saved := SaveAudioFile(appDir, name, written);
      if saved.Err? {
        return Err(RecordingError("停止录音失败"));
      }
      var file := StoppedFile(fileId, name, saved.value, size, now);
      state := Idle(now);
      hasRecorder, hasAnalyser := false, false;
      r := Ok(file);
    }

    /** `setRecordingDevice`: `devices` is the list `getAvailableDevices`
        returned and `configSaved` whether the configuration accepted the new
        id. A running recording is stopped first, with the directory as the
        code computes it, so that stop fails and the device is never set
        while recording. Otherwise the id is set before the configuration
        write, so a refused write still leaves it set. */
    method SetRecordingDevice(deviceId: string, devices: seq<MediaDevice>, fileId: string, iso: string,
                              configSaved: bool, now: int) returns (r: Result<()>)
      requires Valid()
      modifies this
      ensures Valid() && chunks == old(chunks) && recordingStartTime == old(recordingStartTime)
      ensures hasRecorder == old(hasRecorder) && hasAnalyser == old(hasAnalyser)
      ensures deviceId !in Ids(devices) ==>
        r == Err(RecordingError("设置录音设备失败")) && state == old(state) && ticking == old(ticking)
      ensures deviceId in Ids(devices) && old(state.isRecording) ==>
        r == Err(RecordingError("设置录音设备失败")) && state == old(state)
        && ticking == (old(ticking) && !old(hasRecorder))
      ensures deviceId in Ids(devices) && !old(state.isRecording) ==>
        state == old(state).(deviceId := deviceId) && ticking == old(ticking)
        && r == (if configSaved then Ok(()) else Err(RecordingError("设置录音设备失败")))
    {
      if deviceId !in Ids(devices) {
        return Err(RecordingError("设置录音设备失败"));
      }
      if state.isRecording {
        var s := StopRecording(AppDirAsWritten(), true, 0, fileId, iso, now);
        return Err(RecordingError("设置录音设备失败"));
      }
      state := state.(deviceId := deviceId);
      if !configSaved {
        return Err(RecordingError("设置录音设备失败"));
      }
      r := Ok(());
    }

    /** `destroy`: cancels a running recording, then releases the recorder
        and the analyser. */
    method Destroy(now: int)
      requires Valid()
      modifies this
      ensures Valid() && recordingStartTime == old(recordingStartTime) && !hasRecorder && !hasAnalyser && !ticking
      ensures old(state.isRecording) ==> state == Idle(now) && chunks == []
      ensures !old(state.isRecording) ==> state == old(state) && chunks == old(chunks)
    {
      if state.isRecording {
        var _ := CancelRecording(now);
      }
      hasRecorder, hasAnalyser := false, false;
    }

    /** `getRecordingState` returns a copy: a value, which callers cannot change. */
    function GetRecordingState(): (s: RecordingState)
      reads this
      ensures Valid() ==> Consistent(s)
      ensures s == state
    {
      state
    }

    /** `getVolumeLevel`, given the analyser's reading as a percentage. */
    function GetVolumeLevel(reading: nat): (level: nat)
      reads this
      ensures !state.isRecording || !hasAnalyser ==> level == 0
      ensures state.isRecording && hasAnalyser ==> level == reading
    {
      if !hasAnalyser || !state.isRecording then 0 else reading
    }

    /** `getRecordingDuration`: whole seconds since the start, rounded down
        (also below a start that lies ahead of the clock), 0 when idle. */
    function GetRecordingDuration(now: int): (seconds: int)
      reads this
      ensures !state.isRecording ==> seconds == 0
      ensures state.isRecording ==> seconds * 1000 <= now - recordingStartTime < (seconds + 1) * 1000
    {
      if !state.isRecording then 0 else (now - recordingStartTime) / 1000
    }

    /** One firing of the 100 ms volume interval, when it is set: it stores
        the volume only while recording and not paused. */
    method VolumeTick(reading: nat)
      requires Valid()
      modifies this
      ensures Valid() && hasRecorder == old(hasRecorder) && hasAnalyser == old(hasAnalyser) && chunks == old(chunks)
      ensures recordingStartTime == old(recordingStartTime) && ticking == old(ticking)
      ensures old(ticking) && old(state.isRecording) && !old(state.isPaused) ==>
        state == old(state).(volumeLevel := GetVolumeLevel(reading))
      ensures !(old(ticking) && old(state.isRecording) && !old(state.isPaused)) ==> state == old(state)
    {
      if ticking && state.isRecording && !state.isPaused {
        state := state.(volumeLevel := GetVolumeLevel(reading));
      }
    }

    /** One firing of the one-second duration interval, when it is set: it
        stores the duration only while recording and not paused. */
    method DurationTick(now: int)
      requires Valid()
      modifies this
      ensures Valid() && hasRecorder == old(hasRecorder) && hasAnalyser == old(hasAnalyser) && chunks == old(chunks)
      ensures recordingStartTime == old(recordingStartTime) && ticking == old(ticking)
      ensures old(ticking) && old(state.isRecording) && !old(state.isPaused) ==>
        state == old(state).(duration := GetRecordingDuration(now))
      ensures !(old(ticking) && old(state.isRecording) && !old(state.isPaused)) ==> state == old(state)
    {
      if ticking && state.isRecording && !state.isPaused {
        state := state.(duration := GetRecordingDuration(now));
      }
    }
  }

  /** What `enumerateDevices` reports about one media device. */
  datatype MediaDevice = MediaDevice(deviceId: string, kind: string, caption: string, groupId: string)

  /** `deviceId.slice(0, 8)`. */
  function Slice8(id: string): (r: string)
    ensures |r| == if |id| < 8 then |id| else 8
    ensures r <= id
  {
    if |id| < 8 then id else id[..8]
  }

  /** The label shown for a device: its own, or a name made from the start of its id. */
  function DeviceLabel(d: MediaDevice): (r: string)
    ensures d.caption != "" ==> r == d.caption
    ensures d.caption == "" ==> r == "麦克风 " + Slice8(d.deviceId)
  {
    if d.caption != "" then d.caption else "麦克风 " + Slice8(d.deviceId)
  }

  /** `getAvailableDevices` once the media layer has answered: the audio
      inputs, in their order, each with its label. */
  function AudioInputs(devices: seq<MediaDevice>): (r: seq<MediaDevice>)
    ensures |r| <= |devices|
    ensures forall d :: d in r ==> d.kind == "audioinput" && d.caption != ""
    decreases |devices|
  {
    if devices == [] then []
    else
      var rest := AudioInputs(devices[1..]);
      var d := devices[0];
      if d.kind == "audioinput" then [d.(caption := DeviceLabel(d))] + rest else rest
  }

  /** The listing is taken device by device: the inputs of a concatenation
      are the inputs of each part, in order. */
  lemma {:induction false} AudioInputsAppend(a: seq<MediaDevice>, b: seq<MediaDevice>)
    ensures AudioInputs(a + b) == AudioInputs(a) + AudioInputs(b)
    decreases |a|
  {
    if a == [] {
      assert a + b == b;
    } else {
      assert (a + b)[0] == a[0] && (a + b)[1..] == a[1..] + b;
      AudioInputsAppend(a[1..], b);
      var d := a[0];
      var head := if d.kind == "audioinput" then [d.(caption := DeviceLabel(d))] else [];
      assert AudioInputs(a) == head + AudioInputs(a[1..]);
      assert AudioInputs(a + b) == head + (AudioInputs(a[1..]) + AudioInputs(b));
    }
  }

  /** One device is listed, with its label as caption, exactly when it is an
      audio input; its id, kind and group are kept. */
  lemma AudioInputsOne(d: MediaDevice)
    ensures AudioInputs([d]) == if d.kind == "audioinput" then [d.(caption := DeviceLabel(d))] else []
  {
  }

  /** A device id is offered exactly when some audio input carries it. */
  lemma {:induction false} AudioInputsIds(devices: seq<MediaDevice>, id: string)
    ensures (exists d :: d in AudioInputs(devices) && d.deviceId == id)
        <==> (exists d :: d in devices && d.kind == "audioinput" && d.deviceId == id)
    decreases |devices|
  {
    if devices != [] {
      AudioInputsIds(devices[1..], id);
      var d0 := devices[0];
      assert forall d :: d in devices <==> d == d0 || d in devices[1..];
      if d0.kind == "audioinput" {
        assert d0.(caption := DeviceLabel(d0)) in AudioInputs(devices);
      }
    }
  }

  /** The ids of a device list. */
  function Ids(devices: seq<MediaDevice>): (r: set<string>)
    ensures forall d :: d in devices ==> d.deviceId in r
    ensures forall id :: id in r ==> exists d :: d in devices && d.deviceId == id
    decreases |devices|
  {
    if devices == [] then {} else {devices[0].deviceId} + Ids(devices[1..])
  }
}
