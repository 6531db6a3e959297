/** The first generation of the view model, `AudioViewModel`: synchronous
    playback handling, `currentSegmentID` that is nil between segments, and a
    model-readiness flow driven by two notifications.

    It calls `transcribeAudio(url:completion:)` on the manager, which the
    manager in this repository does not define; the completion is therefore an
    event of its own, `TranscriptionCompleted`, carrying the result. */
module AudioViewModels {
  import opened Platform
  import opened Segments
  import opened WhisperErrors
  import opened Playback
  import opened Timestamps

  /** The errors the completion can report: the shown `WhisperError`s and the
      `modelLoadFailed` case this generation expects. */
  datatype AudioError = Whisper(error: WhisperError) | ModelLoadFailed

  /** What `asset.tracks(withMediaType: .audio)` and the asset's duration give
      for an mp4 file: no audio track, or the duration in seconds. */
  datatype VideoProbe = NoAudioTrack | HasAudio(seconds: real)

  /** `currentSegmentID` after `updateCurrentSegment(for: time)`: the first
      covering segment's id, nil when none covers the time. */
  function IdAfterScan(segments: seq<TranscriptSegment>, time: real): Option<Uuid> {
    match FirstCovering(segments, time)
    case Some(k) => Some(segments[k].id)
    case None => None
  }

  /** The id after a scan is present exactly when some segment covers the
      time, and it is then the id of the first one that does. */
  lemma ScanIdPresentIffCovered(segments: seq<TranscriptSegment>, time: real)
    ensures IdAfterScan(segments, time).Some? <==> exists k :: 0 <= k < |segments| && Covers(segments[k], time)
    ensures IdAfterScan(segments, time).Some? ==>
      exists k :: 0 <= k < |segments| && Covers(segments[k], time) && segments[k].id == IdAfterScan(segments, time).value
        && forall j :: 0 <= j < k ==> !Covers(segments[j], time)
  {
    var r := FirstCovering(segments, time);
    if r.Some? {
      assert Covers(segments[r.value], time);
    }
  }

  // ---------------------------------------------------------------------------
  // The model-readiness flow

  /** The fields the transcription flow reads and writes, and the number of
      completion handlers handed to the manager that have not run yet. */
  datatype Flow = Flow(isTranscribing: bool, isModelReady: bool, isModelDownloading: bool, inFlight: nat)

  /** The events that move the flow: the transcribe button (with whether a file
      is loaded), the two notifications, an explicit download request, and a
      completion arriving. */
  datatype FlowEvent =
    | TranscribeTapped(hasFile: bool)
    | DownloadNeeded
    | ModelLoaded
    | DownloadRequested
    | Completed(result: Result<seq<TranscriptSegment>, AudioError>)

  /** One event. `transcribeAudio` sets `isTranscribing` before it looks at the
      model; when the model is not ready it calls `downloadWhisperModel`,
      which only raises `isModelDownloading` and never calls its completion,
      so no run is started. A completion clears `isTranscribing`, and a
      `modelLoadFailed` also clears `isModelReady`. A completion with nothing
      in flight cannot arrive and changes nothing. */
  function FlowStep(f: Flow, e: FlowEvent): Flow {
    match e
    case TranscribeTapped(hasFile) =>
      if !hasFile || f.isTranscribing then f
      else if !f.isModelReady then f.(isTranscribing := true, isModelDownloading := true)
      else f.(isTranscribing := true, inFlight := f.inFlight + 1)
    case DownloadNeeded => f.(isModelReady := false)
    case ModelLoaded => f.(isModelReady := true, isModelDownloading := false)
    case DownloadRequested => f.(isModelDownloading := true)
    case Completed(result) =>
      if f.inFlight == 0 then f
      else f.(isTranscribing := false, inFlight := f.inFlight - 1,
              isModelReady := if result == Failure(ModelLoadFailed) then false else f.isModelReady)
  }

  /** The flow after a sequence of events, in order. */
  function FlowRun(f: Flow, events: seq<FlowEvent>): Flow
    decreases |events|
  {
    if events == [] then f else FlowRun(FlowStep(f, events[0]), events[1..])
  }

  /** A tap while the model is not ready leaves `isTranscribing` set with no
      run in flight, and from there no sequence of events ever clears it:
      every later tap is refused by the guard and no completion can come. */
  lemma {:induction false} StuckWithoutModel(f: Flow, events: seq<FlowEvent>)
    requires f.isTranscribing && f.inFlight == 0
    ensures FlowRun(f, events).isTranscribing && FlowRun(f, events).inFlight == 0
    decreases |events|
  {
    if events != [] {
      var g := FlowStep(f, events[0]);
      assert g.isTranscribing && g.inFlight == 0;
      StuckWithoutModel(g, events[1..]);
    }
  }

  /** From an idle flow with a file, a tap before the model is ready reaches
      exactly that stuck state, whatever arrives afterwards. */
  lemma TapBeforeReadyNeverFinishes(f: Flow, later: seq<FlowEvent>)
    requires !f.isTranscribing && !f.isModelReady && f.inFlight == 0
    ensures FlowRun(f, [TranscribeTapped(true)] + later).isTranscribing
  {
    var g := FlowStep(f, TranscribeTapped(true));
    assert ([TranscribeTapped(true)] + later)[1..] == later;
    StuckWithoutModel(g, later);
  }

  /** With the model ready, a tap starts one run and its completion ends it;
      a `modelLoadFailed` completion leaves the model not ready, so the next
      tap starts no run until `WhisperModelLoaded` arrives. */
  lemma ReadyRunCompletes(f: Flow, result: Result<seq<TranscriptSegment>, AudioError>)
    requires !f.isTranscribing && f.isModelReady
    ensures var g := FlowRun(f, [TranscribeTapped(true), Completed(result)]);
      !g.isTranscribing && g.inFlight == f.inFlight
      && (g.isModelReady <==> result != Failure(ModelLoadFailed))
    ensures result == Failure(ModelLoadFailed) ==>
      FlowRun(f, [TranscribeTapped(true), Completed(result), TranscribeTapped(true)]).inFlight == f.inFlight
  {
    var tap, done := TranscribeTapped(true), Completed(result);
    var g1 := FlowStep(f, tap);
    var g2 := FlowStep(g1, done);
    assert g1.inFlight == f.inFlight + 1;
    RunPair(f, tap, done);
    RunPair(g1, done, tap);
    assert [tap, done, tap][1..] == [done, tap];
  }

  /** Running two events is stepping through them in order. */
  lemma RunPair(f: Flow, a: FlowEvent, b: FlowEvent)
    ensures FlowRun(f, [a, b]) == FlowStep(FlowStep(f, a), b)
  {
    var g := FlowStep(f, a);
    assert [a, b][1..] == [b];
    assert FlowRun(f, [a, b]) == FlowRun(g, [b]);
    assert [b][1..] == [];
    assert FlowRun(g, [b]) == FlowRun(FlowStep(g, b), []);
  }

  // ---------------------------------------------------------------------------
  // The view model

  /** Everything the view model holds besides the flow, as one value. */
  datatype ScreenState = ScreenState(
    audioFile: Option<Url>,
    duration: real,
    currentTime: real,
    playbackProgress: real,
    isPlaying: bool,
    isFileLoaded: bool,
    transcribedSegments: seq<TranscriptSegment>,
    currentSegmentID: Option<Uuid>,
    hasPlayer: bool)

  class AudioViewModel {
    var audioFile: Option<Url>
    var duration: real
    var currentTime: real
    var playbackProgress: real
    /** The periodic clock timer runs exactly while this is true. */
    var isPlaying: bool
    var isFileLoaded: bool
    var transcribedSegments: seq<TranscriptSegment>
    var isTranscribing: bool
    var currentSegmentID: Option<Uuid>
    var isModelReady: bool
    var isModelDownloading: bool
    /** `audioPlayer != nil`. */
    var hasPlayer: bool
    /** Completion handlers handed to the manager that have not run yet. */
    var inFlight: nat

    function State(): ScreenState
      reads this
    {
      ScreenState(audioFile, duration, currentTime, playbackProgress, isPlaying, isFileLoaded,
                  transcribedSegments, currentSegmentID, hasPlayer)
    }

    function CurrentFlow(): Flow
      reads this
    {
      Flow(isTranscribing, isModelReady, isModelDownloading, inFlight)
    }

    /** `init()`: everything empty, the model not ready and not downloading. */
    constructor ()
      ensures State() == ScreenState(None, 0.0, 0.0, 0.0, false, false, [], None, false)
      ensures CurrentFlow() == Flow(false, false, false, 0)
    {
      audioFile := None;
      duration := 0.0;
      currentTime := 0.0;
      playbackProgress := 0.0;
      isPlaying := false;
      isFileLoaded := false;
      transcribedSegments := [];
      isTranscribing := false;
      currentSegmentID := None;
      isModelReady := false;
      isModelDownloading := false;
      hasPlayer := false;
      inFlight := 0;
    }

    /** The `WhisperModelDownloadNeeded` observer. */
    method ModelDownloadNeeded()
      modifies this
      ensures CurrentFlow() == FlowStep(old(CurrentFlow()), DownloadNeeded) && State() == old(State())
    {
      isModelReady := false;
    }

    /** The `WhisperModelLoaded` observer. */
    method ModelLoadedReceived()
      modifies this
      ensures CurrentFlow() == FlowStep(old(CurrentFlow()), ModelLoaded) && State() == old(State())
    {
      isModelReady := true;
      isModelDownloading := false;
    }

    /** `downloadWhisperModel(completion:)`: raises the flag unless already
        downloading; the completion is never called. */
    method DownloadWhisperModel()
      modifies this
      ensures CurrentFlow() == FlowStep(old(CurrentFlow()), DownloadRequested) && State() == old(State())
    {
      if isModelDownloading {
        return;
      }
      isModelDownloading := true;
    }

    /** `updateCurrentSegment(for:)`: the first covering segment's id, nil when
        none covers the time. */
    method UpdateCurrentSegment(time: real)
      modifies this
      ensures State() == old(State()).(currentSegmentID := IdAfterScan(old(transcribedSegments), time))
      ensures CurrentFlow() == old(CurrentFlow())
    {
      var i := 0;
      while i < |transcribedSegments|
        invariant 0 <= i <= |transcribedSegments|
        invariant forall j :: 0 <= j < i ==> !Covers(transcribedSegments[j], time)
        invariant State() == old(State()) && CurrentFlow() == old(CurrentFlow())
      {
        var segment := transcribedSegments[i];
        if time >= segment.startTime && time <= segment.endTime {
          FirstCoveringUnique(transcribedSegments, time, i);
          currentSegmentID := Some(segment.id);
          return;
        }
        i := i + 1;
      }
      currentSegmentID := None;
    }

    /** `updateCurrentTime`. */
    method UpdateCurrentTime(time: real)
      modifies this
      ensures State() == old(State()).(currentTime := time, playbackProgress := Progress(time, old(duration)),
                                       currentSegmentID := IdAfterScan(old(transcribedSegments), time))
      ensures CurrentFlow() == old(CurrentFlow())
    {
      currentTime := time;
      playbackProgress := Progress(time, duration);
      UpdateCurrentSegment(time);
    }

    /** `resetTranscription`: no segments and no current segment. */
    method ResetTranscription()
      modifies this
      ensures State() == old(State()).(transcribedSegments := [], currentSegmentID := None)
      ensures CurrentFlow() == old(CurrentFlow())
    {
      transcribedSegments := [];
      currentSegmentID := None;
    }

    /** `startPlayback`: needs a player and does nothing while playing. */
    method StartPlayback()
      modifies this
      ensures State() == old(State()).(isPlaying := old(hasPlayer) || old(isPlaying))
      ensures CurrentFlow() == old(CurrentFlow())
    {
      if !hasPlayer || isPlaying {
        return;
      }
      isPlaying := true;
    }

    /** `pausePlayback`: does nothing unless playing. */
    method PausePlayback()
      modifies this
      ensures State() == old(State()).(isPlaying := false)
      ensures CurrentFlow() == old(CurrentFlow())
    {
      if !isPlaying {
        return;
      }
      isPlaying := false;
    }

    /** `togglePlayback`: pauses when playing, starts otherwise. */
    method TogglePlayback()
      modifies this
      ensures State() == old(State()).(isPlaying := !old(isPlaying) && old(hasPlayer))
      ensures CurrentFlow() == old(CurrentFlow())
    {
      if isPlaying {
        PausePlayback();
      } else {
        StartPlayback();
      }
    }

    /** `stopPlayback`: always stops and rewinds the clock to 0. */
    method StopPlayback()
      modifies this
      ensures State() == old(State()).(isPlaying := false, currentTime := 0.0, playbackProgress := Progress(0.0, old(duration)),
                                       currentSegmentID := IdAfterScan(old(transcribedSegments), 0.0))
      ensures CurrentFlow() == old(CurrentFlow())
    {
      isPlaying := false;
      UpdateCurrentTime(0.0);
    }

    /** A tick of the clock timer, with the time the player reports. */
    method PlaybackTimerFired(playerTime: real)
      modifies this
      ensures old(isPlaying && hasPlayer) ==> State() == old(State()).(
        currentTime := playerTime, playbackProgress := Progress(playerTime, old(duration)),
        currentSegmentID := IdAfterScan(old(transcribedSegments), playerTime))
      ensures !old(isPlaying && hasPlayer) ==> State() == old(State())
      ensures CurrentFlow() == old(CurrentFlow())
    {
      if isPlaying && hasPlayer {
        UpdateCurrentTime(playerTime);
      }
    }

    /** `seekToPosition`: moves to the fraction `position` of the duration. The
        segment is looked up a second time, which changes nothing. */
    method SeekToPosition(position: real)
      modifies this
      ensures old(hasPlayer) ==> State() == old(State()).(
        currentTime := position * old(duration), playbackProgress := Progress(position * old(duration), old(duration)),
        currentSegmentID := IdAfterScan(old(transcribedSegments), position * old(duration)))
      ensures !old(hasPlayer) ==> State() == old(State())
      ensures CurrentFlow() == old(CurrentFlow())
    {
      if !hasPlayer {
        return;
      }
      var targetTime := position * duration;
      UpdateCurrentTime(targetTime);
      UpdateCurrentSegment(targetTime);
    }

    /** `seekRelative(seconds:)`: moves from the player's position by `seconds`,
        clamped to `[0, duration]`; the second lookup changes nothing. */
    method SeekRelative(seconds: real, playerTime: real)
      modifies this
      ensures old(hasPlayer) ==> State() == old(State()).(
        currentTime := ClampedSeek(playerTime, seconds, old(duration)),
        playbackProgress := Progress(ClampedSeek(playerTime, seconds, old(duration)), old(duration)),
        currentSegmentID := IdAfterScan(old(transcribedSegments), ClampedSeek(playerTime, seconds, old(duration))))
      ensures !old(hasPlayer) ==> State() == old(State())
      ensures CurrentFlow() == old(CurrentFlow())
    {
      if !hasPlayer {
        return;
      }
      var newTime := ClampedSeek(playerTime, seconds, duration);
      UpdateCurrentTime(newTime);
      UpdateCurrentSegment(newTime);
    }

    /** `playFromSegment`: moves to the segment's start and starts playing. */
    method PlayFromSegment(segment: TranscriptSegment)
      modifies this
      ensures old(hasPlayer) ==> State() == old(State()).(
        currentTime := segment.startTime, playbackProgress := Progress(segment.startTime, old(duration)),
        currentSegmentID := IdAfterScan(old(transcribedSegments), segment.startTime), isPlaying := true)
      ensures !old(hasPlayer) ==> State() == old(State())
      ensures CurrentFlow() == old(CurrentFlow())
    {
      if !hasPlayer {
        return;
      }
      UpdateCurrentTime(segment.startTime);
      StartPlayback();
    }

    /** `loadAudioFile(url:)`: stops and clears the transcript first, then
        gives up silently when security-scoped access is refused or the copy
        fails. A lower-cased "mp4" extension is probed as a video: with an
        audio track its duration and the file are taken (no audio player is
        created); without one nothing more happens. Anything else opens an
        audio player, and a player that cannot be created changes nothing
        more. */
    method LoadAudioFile(url: Url, accessGranted: bool, copied: bool, video: VideoProbe, player: PlayerLoad)
      modifies this
      ensures CurrentFlow() == old(CurrentFlow())
      ensures var loaded :=
          if !accessGranted || !copied then None
          else if Lowercased(url.pathExtension) == "mp4" then
            (if video.HasAudio? then Some((video.seconds, old(hasPlayer))) else None)
          else if player.PlayerLoaded? then Some((player.duration, true)) else None;
        var stopped := old(State()).(isPlaying := false, currentTime := 0.0,
                                     playbackProgress := Progress(0.0, old(duration)),
                                     transcribedSegments := [], currentSegmentID := None);
        State() == match loaded {
          case None => stopped
          case Some(taken) =>
            stopped.(duration := taken.0, audioFile := Some(url), isFileLoaded := true, hasPlayer := taken.1)
        }
    {
      StopPlayback();
      ResetTranscription();
      if !accessGranted || !copied {
        return;
      }
      if Lowercased(url.pathExtension) == "mp4" {
        match video {
          case NoAudioTrack =>
          case HasAudio(seconds) =>
            duration := seconds;
            audioFile := Some(url);
            isFileLoaded := true;
        }
      } else {
        match player {
          case PlayerFails =>
          case PlayerLoaded(d) =>
            hasPlayer := true;
            duration := d;
            audioFile := Some(url);
            isFileLoaded := true;
        }
      }
    }

    /** `transcribeAudio()`: the file handed to `performTranscription`, if
        any. Nothing but the flow changes. */
    method TranscribeAudio() returns (requested: Option<Url>)
      modifies this
      ensures CurrentFlow() == FlowStep(old(CurrentFlow()), TranscribeTapped(old(audioFile).Some?))
      ensures requested == if old(audioFile).Some? && !old(isTranscribing) && old(isModelReady) then old(audioFile) else None
      ensures State() == old(State())
    {
      if audioFile.None? || isTranscribing {
        return None;
      }
      isTranscribing := true;
      if !isModelReady {
        DownloadWhisperModel();
        return None;
      }
      inFlight := inFlight + 1;
      return audioFile;
    }

    /** The completion of `performTranscription`: the segments replace the
        list on success; a failure is only reported. */
    method TranscriptionCompleted(result: Result<seq<TranscriptSegment>, AudioError>)
      requires inFlight > 0
      modifies this
      ensures CurrentFlow() == FlowStep(old(CurrentFlow()), Completed(result))
      ensures State() == old(State()).(transcribedSegments := if result.Success? then result.value else old(transcribedSegments))
    {
      isTranscribing := false;
      inFlight := inFlight - 1;
      match result {
        case Success(segments) =>
          transcribedSegments := segments;
        case Failure(e) =>
          if e == ModelLoadFailed {
            isModelReady := false;
          }
      }
    }

    /** `saveTranscription(to:)`: nothing for an empty transcript, otherwise
        the text written, one "[m:ss.cc] text" line per segment. */
    method SaveTranscription() returns (written: Option<string>)
      ensures written == if transcribedSegments == [] then None else Some(SaveText(transcribedSegments))
    {
      if transcribedSegments == [] {
        return None;
      }
      var text := "";
      var i := 0;
      while i < |transcribedSegments|
        invariant 0 <= i <= |transcribedSegments|
        invariant text == SaveText(transcribedSegments[..i])
      {
        var segment := transcribedSegments[i];
        var timeStr := FormatTime(segment.startTime);
        SaveStep(transcribedSegments, i);
        text := text + ("[" + timeStr + "] " + segment.text + "\n");
        i := i + 1;
      }
      assert transcribedSegments[..i] == transcribedSegments;
      written := Some(text);
    }
  }
}
