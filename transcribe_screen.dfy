/** The middle generation of the transcription view model: it owns a
    `WhisperManager` and calls it directly, opens mp4 files through a video
    asset, writes the transcript as text, and on a time no segment covers
    gives `currentSegmentID` a fresh UUID.

    The manager and the view model draw UUIDs from the same source, so a
    fresh id is different from every segment's id. What the engine and the
    media frameworks give is passed in. */
module TranscribeScreen {
  import opened Platform
  import opened Segments
  import opened WhisperErrors
  import opened Playback
  import opened Timestamps
  import WhisperService

  /** What loading an mp4 file as a video asset gives: an error from loading
      its tracks or its duration, no audio track, or its duration in seconds. */
  datatype VideoLoad = VideoLoadFailed | NoAudioTrack | VideoLoaded(seconds: real)

  /** `currentSegmentID` after `updateCurrentSegment(for: time)` when the next
      UUID to be issued is `freshId`: the first covering segment's id, else
      `freshId`. */
  function IdAfterScan(segments: seq<TranscriptSegment>, time: real, freshId: Uuid): Uuid {
    match FirstCovering(segments, time)
    case Some(k) => segments[k].id
    case None => freshId
  }

  /** When every segment's id was issued before `freshId`, the id after a scan
      is some segment's id exactly when a segment covers the time: a stale id
      never survives, and no segment is current between segments. */
  lemma ScanIdMatchesOnlyCovering(segments: seq<TranscriptSegment>, time: real, freshId: Uuid)
    requires IssuedBefore(segments, freshId)
    ensures (exists k :: 0 <= k < |segments| && segments[k].id == IdAfterScan(segments, time, freshId))
        <==> FirstCovering(segments, time).Some?
    ensures FirstCovering(segments, time).None? ==> IdAfterScan(segments, time, freshId) == freshId
  {
    if FirstCovering(segments, time).Some? {
      var k := FirstCovering(segments, time).value;
      assert segments[k].id == IdAfterScan(segments, time, freshId);
    }
  }

  /** The segments a successful `transcribe` returns were all issued after
      `firstId` and before the source's new counter. */
  lemma TranscribedIdsIssued(run: WhisperService.EngineRun, firstId: Uuid, segments: seq<TranscriptSegment>)
    requires WhisperService.MapRun(run, firstId) == Success(segments)
    ensures IssuedBefore(segments, firstId + |segments|)
    ensures forall i :: 0 <= i < |segments| ==> firstId <= segments[i].id
  {
    if run.Ran? && run.results != [] {
      WhisperService.SegmentsFromShape(run.results[0].segments, [], firstId);
    }
  }

  /** Everything the view model holds besides its collaborators, as one value. */
  datatype ScreenState = ScreenState(
    audioFile: Option<Url>,
    duration: real,
    currentTime: real,
    playbackProgress: real,
    isPlaying: bool,
    isFileLoaded: bool,
    transcribedSegments: seq<TranscriptSegment>,
    isTranscribing: bool,
    currentSegmentID: Uuid,
    error: Option<WhisperError>,
    hasPlayer: bool)

  class TranscriptionViewModel {
    var audioFile: Option<Url>
    var duration: real
    var currentTime: real
    var playbackProgress: real
    /** The periodic clock timer runs exactly while this is true. */
    var isPlaying: bool
    var isFileLoaded: bool
    var transcribedSegments: seq<TranscriptSegment>
    var isTranscribing: bool
    var currentSegmentID: Uuid
    var error: Option<WhisperError>
    /** `audioPlayer != nil`. */
    var hasPlayer: bool
    const whisperManager: WhisperService.WhisperManager
    const uuids: UuidSource

    function State(): ScreenState
      reads this
    {
      ScreenState(audioFile, duration, currentTime, playbackProgress, isPlaying, isFileLoaded,
                  transcribedSegments, isTranscribing, currentSegmentID, error, hasPlayer)
    }

    /** Segments and the current id come from the shared UUID source. */
    predicate Valid()
      reads this, whisperManager, uuids
    {
      whisperManager.uuids == uuids && IssuedBefore(transcribedSegments, uuids.next)
    }

    /** `init()`: a fresh current id, a new manager, and the manager's setup,
        whose error is only printed. */
    constructor (uuids: UuidSource, setup: WhisperService.EngineSetup)
      modifies uuids
      ensures Valid() && fresh(whisperManager) && this.uuids == uuids
      ensures uuids.next == old(uuids.next) + 1
      ensures State() == ScreenState(None, 0.0, 0.0, 0.0, false, false, [], false, old(uuids.next), None, false)
      ensures whisperManager.whisperKit == WhisperService.SetupStep(None, false, setup).0
      ensures !whisperManager.isLoading
    {
      audioFile := None;
      duration := 0.0;
      currentTime := 0.0;
      playbackProgress := 0.0;
      isPlaying := false;
      isFileLoaded := false;
      transcribedSegments := [];
      isTranscribing := false;
      error := None;
      hasPlayer := false;
      this.uuids := uuids;
      var id := uuids.Fresh();
      currentSegmentID := id;
      var manager := new WhisperService.WhisperManager(uuids);
      whisperManager := manager;
      new;
      var _ := manager.SetupWhisperIfNeeded(setup);
    }

    /** `updateCurrentSegment(for:)`: the first covering segment's id, or a
        fresh UUID when none covers the time. */
    method UpdateCurrentSegment(time: real)
      requires Valid()
      modifies this, uuids
      ensures Valid()
      ensures State() == old(State()).(currentSegmentID := IdAfterScan(old(transcribedSegments), time, old(uuids.next)))
      ensures uuids.next == old(uuids.next) + (if FirstCovering(old(transcribedSegments), time).None? then 1 else 0)
    {
      var i := 0;
      while i < |transcribedSegments|
        invariant 0 <= i <= |transcribedSegments|
        invariant forall j :: 0 <= j < i ==> !Covers(transcribedSegments[j], time)
        invariant State() == old(State()) && uuids.next == old(uuids.next)
      {
        var segment := transcribedSegments[i];
        if time >= segment.startTime && time <= segment.endTime {
          FirstCoveringUnique(transcribedSegments, time, i);
          currentSegmentID := segment.id;
          return;
        }
        i := i + 1;
      }
      currentSegmentID := uuids.Fresh();
    }

    /** `updateCurrentTime`. */
    method UpdateCurrentTime(time: real)
      requires Valid()
      modifies this, uuids
      ensures Valid()
      ensures State() == old(State()).(currentTime := time, playbackProgress := Progress(time, old(duration)),
                                       currentSegmentID := IdAfterScan(old(transcribedSegments), time, old(uuids.next)))
      ensures uuids.next == old(uuids.next) + (if FirstCovering(old(transcribedSegments), time).None? then 1 else 0)
    {
      currentTime := time;
      playbackProgress := Progress(time, duration);
      UpdateCurrentSegment(time);
    }

    /** `resetTranscription`: no segments and a fresh current id. */
    method ResetTranscription()
      requires Valid()
      modifies this, uuids
      ensures Valid()
      ensures State() == old(State()).(transcribedSegments := [], currentSegmentID := old(uuids.next))
      ensures uuids.next == old(uuids.next) + 1
    {
      transcribedSegments := [];
      currentSegmentID := uuids.Fresh();
    }

    /** `startPlayback`: needs a player and does nothing while playing. */
    method StartPlayback()
      modifies this
      ensures State() == old(State()).(isPlaying := old(hasPlayer) || old(isPlaying))
    {
      if !hasPlayer || isPlaying {
        return;
      }
      isPlaying := true;
    }

    /** `pausePlayback`: does nothing unless playing. */
    method PausePlayback()
      modifies this
      ensures State() == old(State()).(isPlaying := false)
    {
      if !isPlaying {
        return;
      }
      isPlaying := false;
    }

    /** `togglePlayback`: pauses when playing, starts otherwise. */
    method TogglePlayback()
      modifies this
      ensures State() == old(State()).(isPlaying := !old(isPlaying) && old(hasPlayer))
    {
      if isPlaying {
        PausePlayback();
      } else {
        StartPlayback();
      }
    }

    /** `stopPlayback`: always stops, and rewinds the clock to 0. */
    method StopPlayback()
      requires Valid()
      modifies this, uuids
      ensures Valid()
      ensures State() == old(State()).(isPlaying := false, currentTime := 0.0, playbackProgress := Progress(0.0, old(duration)),
                                       currentSegmentID := IdAfterScan(old(transcribedSegments), 0.0, old(uuids.next)))
      ensures uuids.next == old(uuids.next) + (if FirstCovering(old(transcribedSegments), 0.0).None? then 1 else 0)
    {
      isPlaying := false;
      UpdateCurrentTime(0.0);
    }

    /** A tick of the clock timer, with the time the player reports. */
    method PlaybackTimerFired(playerTime: real)
      requires Valid()
      modifies this, uuids
      ensures Valid()
      ensures old(isPlaying && hasPlayer) ==> State() == old(State()).(
        currentTime := playerTime, playbackProgress := Progress(playerTime, old(duration)),
        currentSegmentID := IdAfterScan(old(transcribedSegments), playerTime, old(uuids.next)))
      ensures !old(isPlaying && hasPlayer) ==> State() == old(State()) && uuids.next == old(uuids.next)
    {
      if isPlaying && hasPlayer {
        UpdateCurrentTime(playerTime);
      }
    }

    /** `seekToPosition`: moves to the fraction `position` of the duration. */
    method SeekToPosition(position: real)
      requires Valid()
      modifies this, uuids
      ensures Valid()
      ensures old(hasPlayer) ==> State() == old(State()).(
        currentTime := position * old(duration), playbackProgress := Progress(position * old(duration), old(duration)),
        currentSegmentID := IdAfterScan(old(transcribedSegments), position * old(duration), old(uuids.next)))
      ensures !old(hasPlayer) ==> State() == old(State()) && uuids.next == old(uuids.next)
    {
      if !hasPlayer {
        return;
      }
      var targetTime := position * duration;
      UpdateCurrentTime(targetTime);
    }

    /** `seekRelative(seconds:)`: moves from the player's position by `seconds`,
        clamped to `[0, duration]`. */
    method SeekRelative(seconds: real, playerTime: real)
      requires Valid()
      modifies this, uuids
      ensures Valid()
      ensures old(hasPlayer) ==> State() == old(State()).(
        currentTime := ClampedSeek(playerTime, seconds, old(duration)),
        playbackProgress := Progress(ClampedSeek(playerTime, seconds, old(duration)), old(duration)),
        currentSegmentID := IdAfterScan(old(transcribedSegments), ClampedSeek(playerTime, seconds, old(duration)), old(uuids.next)))
      ensures !old(hasPlayer) ==> State() == old(State()) && uuids.next == old(uuids.next)
    {
      if !hasPlayer {
        return;
      }
      var newTime := ClampedSeek(playerTime, seconds, duration);
      UpdateCurrentTime(newTime);
    }

    /** `playFromSegment`: moves to the segment's start and starts playing; the
        current id is whatever the scan at that time finds. */
    method PlayFromSegment(segment: TranscriptSegment)
      requires Valid()
      modifies this, uuids
      ensures Valid()
      ensures old(hasPlayer) ==> State() == old(State()).(
        currentTime := segment.startTime, playbackProgress := Progress(segment.startTime, old(duration)),
        currentSegmentID := IdAfterScan(old(transcribedSegments), segment.startTime, old(uuids.next)),
        isPlaying := true)
      ensures !old(hasPlayer) ==> State() == old(State()) && uuids.next == old(uuids.next)
    {
      if !hasPlayer {
        return;
      }
      UpdateCurrentTime(segment.startTime);
      StartPlayback();
    }

    /** `loadAudioFile(url:)`: stops, clears the transcript and copies the file
        (`copied` says whether that worked). A lower-cased "mp4" extension is
        opened as a video asset, which sets the duration and the file but no
        audio player; anything else opens an audio player. A failed copy,
        asset or player is `fileLoadError`; a video without an audio track is
        `noAudioTrackFound`. The stop's rescan at 0 and the reset each may draw
        a UUID, and the reset's is the one left current. */
    method LoadAudioFile(url: Url, copied: bool, video: VideoLoad, player: PlayerLoad)
      requires Valid()
      modifies this, uuids
      ensures Valid()
      ensures transcribedSegments == [] && !isPlaying && currentTime == 0.0
      ensures uuids.next == old(uuids.next) + (if FirstCovering(old(transcribedSegments), 0.0).None? then 2 else 1)
      ensures currentSegmentID == uuids.next - 1
      ensures var reset := State().(error := old(error), duration := old(duration), audioFile := old(audioFile),
                                    isFileLoaded := old(isFileLoaded), hasPlayer := old(hasPlayer));
        reset == old(State()).(isPlaying := false, currentTime := 0.0, playbackProgress := Progress(0.0, old(duration)),
                               transcribedSegments := [], currentSegmentID := uuids.next - 1)
      ensures !copied ==> error == Some(FileLoadError) && audioFile == old(audioFile) && hasPlayer == old(hasPlayer)
      ensures copied && Lowercased(url.pathExtension) == "mp4" ==>
        hasPlayer == old(hasPlayer) &&
        match video {
          case VideoLoadFailed => error == Some(FileLoadError) && audioFile == old(audioFile)
          case NoAudioTrack => error == Some(NoAudioTrackFound) && audioFile == old(audioFile)
          case VideoLoaded(seconds) =>
            error == old(error) && duration == seconds && audioFile == Some(url) && isFileLoaded
        }
      ensures copied && Lowercased(url.pathExtension) != "mp4" ==>
        match player {
          case PlayerFails => error == Some(FileLoadError) && audioFile == old(audioFile) && hasPlayer == old(hasPlayer)
          case PlayerLoaded(d) =>
            error == old(error) && hasPlayer && duration == d && audioFile == Some(url) && isFileLoaded
        }
      ensures !(copied && (if Lowercased(url.pathExtension) == "mp4" then video.VideoLoaded? else player.PlayerLoaded?)) ==>
        duration == old(duration) && isFileLoaded == old(isFileLoaded)
    {
      StopPlayback();
      ResetTranscription();
      if !copied {
        error := Some(FileLoadError);
        return;
      }
      if Lowercased(url.pathExtension) == "mp4" {
        match video {
          case VideoLoadFailed =>
            error := Some(FileLoadError);
          case NoAudioTrack =>
            error := Some(NoAudioTrackFound);
          case VideoLoaded(seconds) =>
            duration := seconds;
            audioFile := Some(url);
            isFileLoaded := true;
        }
      } else {
        match player {
          case PlayerFails =>
            error := Some(FileLoadError);
          case PlayerLoaded(d) =>
            hasPlayer := true;
            duration := d;
            audioFile := Some(url);
            isFileLoaded := true;
        }
      }
    }

    /** `transcribeAudio()`: does nothing without a file or while a run is in
        progress. Otherwise the manager's `transcribe(url:)` runs; its segments
        replace the list, and since it throws only `WhisperError`s, which the
        handler answers by assigning `error` to itself, `error` never changes.
        `isTranscribing` ends false. */
    method TranscribeAudio(setup: WhisperService.EngineSetup, run: WhisperService.EngineRun)
      requires Valid()
      modifies this, uuids, whisperManager
      ensures Valid()
      ensures old(audioFile.None? || isTranscribing) ==>
        State() == old(State()) && uuids.next == old(uuids.next) && whisperManager.whisperKit == old(whisperManager.whisperKit)
      ensures old(audioFile.Some? && !isTranscribing) ==>
        var (engine, r) := WhisperService.TranscribeStep(old(whisperManager.whisperKit), old(whisperManager.isLoading),
                                                         setup, old(audioFile).value, run, old(uuids.next));
        whisperManager.whisperKit == engine
        && State() == old(State()).(transcribedSegments := if r.Success? then r.value else old(transcribedSegments))
      ensures error == old(error) && whisperManager.isLoading == old(whisperManager.isLoading)
    {
      if audioFile.None? || isTranscribing {
        return;
      }
      isTranscribing := true;
      var firstId := uuids.next;
      var result := whisperManager.Transcribe(audioFile.value, setup, run);
      match result {
        case Success(segments) =>
          TranscribedIdsIssuedFrom(old(whisperManager.whisperKit), old(whisperManager.isLoading), setup,
                                   old(audioFile).value, run, firstId);
          transcribedSegments := segments;
        case Failure(e) =>
          error := error;
      }
      isTranscribing := false;
    }

    /** `saveTranscription(to:)`: nothing for an empty transcript, otherwise
        the text written, one "[m:ss.cc] text" line per segment. */
    method SaveTranscription() returns (written: Option<string>)
      ensures written == if transcribedSegments == [] then None else Some(SaveText(transcribedSegments))
    {
      if transcribedSegments == [] {
        return None;
      }
      var text := "";
      var i := 0;
      while i < |transcribedSegments|
        invariant 0 <= i <= |transcribedSegments|
        invariant text == SaveText(transcribedSegments[..i])
      {
        var segment := transcribedSegments[i];
        var timeStr := FormatTime(segment.startTime);
        SaveStep(transcribedSegments, i);
        text := text + ("[" + timeStr + "] " + segment.text + "\n");
        i := i + 1;
      }
      assert transcribedSegments[..i] == transcribedSegments;
      written := Some(text);
    }
  }

  /** The segments `transcribe(url:)` returns were issued from `firstId`
      onwards, so they are told apart from every id issued earlier. */
  lemma TranscribedIdsIssuedFrom(held: Option<WhisperService.EngineHandle>, isLoading: bool,
                                 setup: WhisperService.EngineSetup, url: Url, run: WhisperService.EngineRun, firstId: Uuid)
    ensures var r := WhisperService.TranscribeStep(held, isLoading, setup, url, run, firstId).1;
      r.Success? ==> IssuedBefore(r.value, firstId + |r.value|) && forall i :: 0 <= i < |r.value| ==> firstId <= r.value[i].id
  {
    var r := WhisperService.TranscribeStep(held, isLoading, setup, url, run, firstId).1;
    if r.Success? {
      TranscribedIdsIssued(run, firstId, r.value);
    }
  }
}
