/** The latest transcription screen's view model: loading an audio file,
    playback and its clock, transcription through the transcription service,
    the transcript's current segment, export, drag and drop, and the
    auto-scroll override.

    The service is reached through an interface whose `transcribe` takes a
    progress callback; its answer to one request is the `TranscribeReply`
    passed in. The audio player is reduced to whether one exists, and what
    loading one gives is a `PlayerLoad` parameter. */
module TranscriptionScreen {
  import opened Platform
  import opened Segments
  import opened WhisperErrors
  import opened Playback
  import opened Timestamps
  import AudioTypes

  /** The errors this screen shows: the service's errors and one more case,
      `audioFileLoadFailed`, that the screen's error type has and the service's
      does not. */
  datatype ScreenError = Whisper(error: WhisperError) | AudioFileLoadFailed

  /** How one `transcribe(url:progressCallback:)` call ends. */
  datatype TranscribeOutcome =
    | Returned(segments: seq<TranscriptSegment>)
    | ThrewWhisperError(error: WhisperError)
    | ThrewOther

  /** The service's answer: the last progress value reported through the
      callback, if any, and the outcome. */
  datatype TranscribeReply = TranscribeReply(lastProgress: Option<real>, outcome: TranscribeOutcome)

  // ---------------------------------------------------------------------------
  // The current segment

  /** `currentSegmentID` after `updateCurrentSegment(for: time)`: the id of the
      first segment covering `time`, and the old id when none does. */
  function IdAfterScan(segments: seq<TranscriptSegment>, time: real, current: Uuid): Uuid {
    match FirstCovering(segments, time)
    case Some(k) => segments[k].id
    case None => current
  }

  /** The scan either keeps the old id or picks a segment that covers the time,
      and scanning again at the same time changes nothing. */
  lemma IdAfterScanChoices(segments: seq<TranscriptSegment>, time: real, current: Uuid)
    ensures IdAfterScan(segments, time, current) == current
         || exists k :: 0 <= k < |segments| && Covers(segments[k], time) && IdAfterScan(segments, time, current) == segments[k].id
    ensures IdAfterScan(segments, time, IdAfterScan(segments, time, current)) == IdAfterScan(segments, time, current)
  {
  }

  /** `playFromSegment(b)` when an earlier segment `a` ends where `b` starts:
      the id is first set to `b`'s, then the rescan at `b`'s start picks `a`. */
  lemma PlayFromSegmentBoundary(a: TranscriptSegment, b: TranscriptSegment)
    requires a.startTime <= a.endTime == b.startTime <= b.endTime
    ensures IdAfterScan([a, b], b.startTime, b.id) == a.id
  {
    SharedBoundaryGoesToEarlier(a, b);
  }

  // ---------------------------------------------------------------------------
  // The auto-scroll override

  /** `autoScrollEnabled`, the private `forceAutoScrollEnabled` flag, and
      whether the one-shot timer that clears it is pending. */
  datatype AutoScroll = AutoScroll(enabled: bool, forced: bool, timerPending: bool)

  /** Both flags start false and no timer is pending. */
  const InitialAutoScroll: AutoScroll := AutoScroll(false, false, false)

  /** The forced flag is set exactly while its timer is pending. */
  predicate AutoScrollValid(s: AutoScroll) {
    s.forced == s.timerPending
  }

  /** `autoScrollEnabled(with: duration)`: enables scrolling; with a duration
      it also forces it and replaces any pending timer by a new one. */
  function EnableAutoScroll(s: AutoScroll, duration: Option<real>): AutoScroll {
    if duration.None? then s.(enabled := true) else AutoScroll(true, true, true)
  }

  /** `autoScrollDisabled()`: ignored while forced. */
  function DisableAutoScroll(s: AutoScroll): AutoScroll {
    if s.forced then s else s.(enabled := false)
  }

  /** The timer firing: clears only the forced flag. */
  function ForceTimerExpired(s: AutoScroll): AutoScroll {
    if s.timerPending then s.(forced := false, timerPending := false) else s
  }

  /** Every transition keeps the forced flag tied to its timer. */
  lemma AutoScrollTransitionsValid(s: AutoScroll, duration: Option<real>)
    requires AutoScrollValid(s)
    ensures AutoScrollValid(InitialAutoScroll)
    ensures AutoScrollValid(EnableAutoScroll(s, duration))
    ensures AutoScrollValid(DisableAutoScroll(s))
    ensures AutoScrollValid(ForceTimerExpired(s))
  {
  }

  /** The override: a user scroll disables scrolling unless it is forced;
      enabling with a duration makes the next scroll ineffective until the
      timer fires, after which a scroll disables again; the timer never
      changes `enabled`, and enabling without a duration leaves the forced
      flag as it was. */
  lemma AutoScrollOverride(s: AutoScroll, d: real)
    requires AutoScrollValid(s)
    ensures !s.forced ==> !DisableAutoScroll(s).enabled
    ensures s.forced ==> DisableAutoScroll(s) == s
    ensures DisableAutoScroll(EnableAutoScroll(s, Some(d))).enabled
    ensures !DisableAutoScroll(ForceTimerExpired(EnableAutoScroll(s, Some(d)))).enabled
    ensures ForceTimerExpired(s).enabled == s.enabled && !ForceTimerExpired(s).forced
    ensures EnableAutoScroll(s, None).forced == s.forced && EnableAutoScroll(s, None).enabled
  {
  }

  // ---------------------------------------------------------------------------
  // Drag and drop, and the default file name

  /** The identifiers `handleDrop` prefers: a file URL (the identifier of
      `UTType.fileURL` is "public.file-url") or a URL. */
  predicate IsUrlType(identifier: string) {
    identifier == "public.file-url" || identifier == "public.url"
  }

  /** The index of the first URL identifier. */
  function FirstUrlType(types: seq<string>): (r: Option<nat>)
    ensures r.Some? ==> r.value < |types| && IsUrlType(types[r.value])
    ensures r.Some? ==> forall j :: 0 <= j < r.value ==> !IsUrlType(types[j])
    ensures r.None? <==> forall j :: 0 <= j < |types| ==> !IsUrlType(types[j])
  {
    if types == [] then None
    else if IsUrlType(types[0]) then Some(0)
    else match FirstUrlType(types[1..])
      case None => None
      case Some(k) => Some(k + 1)
  }

  /** The identifier a provider is loaded with: the first URL identifier, else
      its first identifier, and none when it registers none. */
  function ChooseIdentifier(types: seq<string>): (id: Option<string>)
    ensures id.None? <==> types == []
    ensures id.Some? ==> id.value in types
    ensures (exists k :: 0 <= k < |types| && IsUrlType(types[k])) ==> id.Some? && IsUrlType(id.value)
    ensures (forall k :: 0 <= k < |types| ==> !IsUrlType(types[k])) && types != [] ==> id == Some(types[0])
  {
    match FirstUrlType(types)
    case Some(k) => Some(types[k])
    case None => if types == [] then None else Some(types[0])
  }

  /** The first provider that registers any identifier. */
  function FirstProviderWithTypes(providers: seq<seq<string>>): (r: Option<nat>)
    ensures r.Some? ==> r.value < |providers| && providers[r.value] != []
    ensures r.Some? ==> forall j :: 0 <= j < r.value ==> providers[j] == []
    ensures r.None? <==> forall j :: 0 <= j < |providers| ==> providers[j] == []
  {
    if providers == [] then None
    else if providers[0] != [] then Some(0)
    else match FirstProviderWithTypes(providers[1..])
      case None => None
      case Some(k) => Some(k + 1)
  }

  /** The part of a file name before its first ".": the first element of
      `components(separatedBy: ".")`. */
  function BeforeFirstDot(name: string): (stem: string)
    ensures |stem| <= |name| && stem == name[..|stem|]
    ensures '.' !in stem
    ensures |stem| < |name| ==> name[|stem|] == '.'
  {
    if name == [] || name[0] == '.' then []
    else [name[0]] + BeforeFirstDot(name[1..])
  }

  /** `createDefaultFilename()`, with the formatted date ("yyyy-MM-dd-HHmm")
      passed in. */
  function DefaultFilename(audioFile: Option<Url>, dateString: string): string {
    match audioFile
    case Some(url) => BeforeFirstDot(url.lastPathComponent) + "_文字起こし_" + dateString + ".txt"
    case None => "文字起こし_" + dateString + ".txt"
  }

  /** A name without a dot is its own stem, and a name whose first dot
      follows `stem` has `stem` as its stem, whatever comes after the dot. */
  lemma {:induction false} BeforeFirstDotOf(stem: string, rest: string)
    requires '.' !in stem
    ensures BeforeFirstDot(stem) == stem
    ensures BeforeFirstDot(stem + "." + rest) == stem
    decreases |stem|
  {
    if stem != [] {
      var name := stem + "." + rest;
      assert stem[0] in stem;
      assert name[0] == stem[0];
      assert name[1..] == stem[1..] + "." + rest;
      assert '.' !in stem[1..] by {
        forall c | c in stem[1..] ensures c != '.' { assert c in stem; }
      }
      BeforeFirstDotOf(stem[1..], rest);
    } else {
      assert (stem + "." + rest)[0] == '.';
    }
  }

  /** The name of "talk.final.m4a" keeps "talk"; without a file only the fixed
      words and the date remain. */
  lemma DefaultFilenameExamples(dateString: string)
    ensures DefaultFilename(None, dateString) == "文字起こし_" + dateString + ".txt"
    ensures DefaultFilename(Some(Url("talk.final.m4a", "m4a")), dateString)
         == "talk_文字起こし_" + dateString + ".txt"
  {
    assert "talk.final.m4a" == "talk" + "." + "final.m4a";
    BeforeFirstDotOf("talk", "final.m4a");
  }

  // ---------------------------------------------------------------------------
  // The view model

  /** Everything the view model holds besides its collaborators, as one value. */
  datatype ScreenState = ScreenState(
    audioFile: Option<Url>,
    duration: real,
    currentTime: real,
    playbackProgress: real,
    isPlaying: bool,
    isFileLoaded: bool,
    transcribedSegments: seq<TranscriptSegment>,
    isTranscribing: bool,
    transcribingProgress: real,
    currentSegmentID: Uuid,
    error: Option<ScreenError>,
    autoScroll: AutoScroll,
    hasPlayer: bool)

  /** The state `loadAudioFile(url:)` leaves: playback stopped and rewound,
      the transcript cleared with `freshId` current, then the copy, the
      extension and the player decide. A failed copy or player is
      `audioFileLoadFailed`, a wrong extension `unsupportedFormat`; only a full
      success takes the file, and an earlier error is never cleared. */
  function AfterLoad(s: ScreenState, freshId: Uuid, url: Url, copied: bool, player: PlayerLoad): (t: ScreenState)
    ensures !t.isPlaying && t.currentTime == 0.0 && t.transcribedSegments == [] && t.currentSegmentID == freshId
    ensures t.isTranscribing == s.isTranscribing && t.transcribingProgress == s.transcribingProgress
    ensures t.autoScroll == s.autoScroll
    ensures t.audioFile == Some(url) <==>
      (copied && AudioTypes.IsSupportedExtension(url.pathExtension) && player.PlayerLoaded?) || s.audioFile == Some(url)
    ensures t.audioFile != s.audioFile ==> t.audioFile == Some(url) && t.isFileLoaded && t.hasPlayer
    ensures copied && AudioTypes.IsSupportedExtension(url.pathExtension) && player.PlayerLoaded? ==>
      t.error == s.error && t.duration == player.duration
    ensures !(copied && AudioTypes.IsSupportedExtension(url.pathExtension) && player.PlayerLoaded?) ==>
      (t.error == Some(Whisper(UnsupportedFormat)) <==> copied && !AudioTypes.IsSupportedExtension(url.pathExtension))
      && (t.error == Some(AudioFileLoadFailed) <==> !copied || AudioTypes.IsSupportedExtension(url.pathExtension))
      && t.duration == s.duration && t.hasPlayer == s.hasPlayer
  {
    var reset := s.(isPlaying := false, currentTime := 0.0, playbackProgress := Progress(0.0, s.duration),
                    transcribedSegments := [], currentSegmentID := freshId);
    if !copied then reset.(error := Some(AudioFileLoadFailed))
    else if !AudioTypes.IsSupportedExtension(url.pathExtension) then reset.(error := Some(Whisper(UnsupportedFormat)))
    else if player.PlayerFails? then reset.(error := Some(AudioFileLoadFailed))
    else reset.(hasPlayer := true, duration := player.duration, audioFile := Some(url), isFileLoaded := true)
  }

  class TranscriptionViewModel {
    var audioFile: Option<Url>
    var duration: real
    var currentTime: real
    var playbackProgress: real
    /** The periodic clock timer runs exactly while this is true. */
    var isPlaying: bool
    var isFileLoaded: bool
    var transcribedSegments: seq<TranscriptSegment>
    var isTranscribing: bool
    var transcribingProgress: real
    var currentSegmentID: Uuid
    var error: Option<ScreenError>
    var autoScrollEnabled: bool
    var forceAutoScrollEnabled: bool
    var forceTimerPending: bool
    /** `audioPlayer != nil`. */
    var hasPlayer: bool
    const uuids: UuidSource

    function State(): ScreenState
      reads this
    {
      ScreenState(audioFile, duration, currentTime, playbackProgress, isPlaying, isFileLoaded,
                  transcribedSegments, isTranscribing, transcribingProgress, currentSegmentID, error,
                  AutoScroll(autoScrollEnabled, forceAutoScrollEnabled, forceTimerPending), hasPlayer)
    }

    predicate Valid()
      reads this
    {
      AutoScrollValid(State().autoScroll)
    }

    /** The initial state; `currentSegmentID` starts as a fresh UUID. */
    constructor (uuids: UuidSource)
      modifies uuids
      ensures Valid() && this.uuids == uuids && uuids.next == old(uuids.next) + 1
      ensures State() == ScreenState(None, 0.0, 0.0, 0.0, false, false, [], false, 0.0, old(uuids.next), None,
                                     InitialAutoScroll, false)
    {
      audioFile := None;
      duration := 0.0;
      currentTime := 0.0;
      playbackProgress := 0.0;
      isPlaying := false;
      isFileLoaded := false;
      transcribedSegments := [];
      isTranscribing := false;
      transcribingProgress := 0.0;
      error := None;
      autoScrollEnabled := false;
      forceAutoScrollEnabled := false;
      forceTimerPending := false;
      hasPlayer := false;
      this.uuids := uuids;
      new;
      currentSegmentID := uuids.Fresh();
    }

    /** `updateCurrentSegment(for:)`: scans the segments in order and takes the
        id of the first that covers `time`; with no match the id stays. */
    method UpdateCurrentSegment(time: real)
      modifies this
      ensures State() == old(State()).(currentSegmentID := IdAfterScan(old(transcribedSegments), time, old(currentSegmentID)))
    {
      var i := 0;
      while i < |transcribedSegments|
        invariant 0 <= i <= |transcribedSegments|
        invariant forall j :: 0 <= j < i ==> !Covers(transcribedSegments[j], time)
        invariant State() == old(State())
      {
        var segment := transcribedSegments[i];
        if time >= segment.startTime && time <= segment.endTime {
          FirstCoveringUnique(transcribedSegments, time, i);
          currentSegmentID := segment.id;
          return;
        }
        i := i + 1;
      }
    }

    /** `updateCurrentTime`: the clock, the progress and the current segment. */
    method UpdateCurrentTime(time: real)
      modifies this
      ensures State() == old(State()).(currentTime := time, playbackProgress := Progress(time, old(duration)),
                                       currentSegmentID := IdAfterScan(old(transcribedSegments), time, old(currentSegmentID)))
    {
      currentTime := time;
      playbackProgress := Progress(time, duration);
      UpdateCurrentSegment(time);
    }

    /** `resetTranscription`: no segments and a fresh current id, which is
        therefore no segment's id. */
    method ResetTranscription()
      modifies this, uuids
      ensures State() == old(State()).(transcribedSegments := [], currentSegmentID := old(uuids.next))
      ensures uuids.next == old(uuids.next) + 1
    {
      transcribedSegments := [];
      currentSegmentID := uuids.Fresh();
    }

    /** `startPlayback`: needs a player and does nothing while playing. */
    method StartPlayback()
      modifies this
      ensures State() == old(State()).(isPlaying := old(hasPlayer) || old(isPlaying))
    {
      if !hasPlayer || isPlaying {
        return;
      }
      isPlaying := true;
    }

    /** `pausePlayback`: does nothing unless playing. */
    method PausePlayback()
      modifies this
      ensures State() == old(State()).(isPlaying := false)
    {
      if !isPlaying {
        return;
      }
      isPlaying := false;
    }

    /** `stopPlayback`: always stops, and rewinds the clock to 0. */
    method StopPlayback()
      modifies this
      ensures State() == old(State()).(isPlaying := false, currentTime := 0.0, playbackProgress := Progress(0.0, old(duration)),
                                       currentSegmentID := IdAfterScan(old(transcribedSegments), 0.0, old(currentSegmentID)))
    {
      isPlaying := false;
      UpdateCurrentTime(0.0);
    }

    /** `togglePlayback`: pauses when playing, starts otherwise. */
    method TogglePlayback()
      modifies this
      ensures State() == old(State()).(isPlaying := !old(isPlaying) && old(hasPlayer))
    {
      if isPlaying {
        PausePlayback();
      } else {
        StartPlayback();
      }
    }

    /** A tick of the clock timer, with the time the player reports. */
    method PlaybackTimerFired(playerTime: real)
      modifies this
      ensures old(isPlaying && hasPlayer) ==> State() == old(State()).(
        currentTime := playerTime, playbackProgress := Progress(playerTime, old(duration)),
        currentSegmentID := IdAfterScan(old(transcribedSegments), playerTime, old(currentSegmentID)))
      ensures !old(isPlaying && hasPlayer) ==> State() == old(State())
    {
      if isPlaying && hasPlayer {
        UpdateCurrentTime(playerTime);
      }
    }

    /** `seekToPosition`: moves to the fraction `position` of the duration. */
    method SeekToPosition(position: real)
      modifies this
      ensures old(hasPlayer) ==> State() == old(State()).(
        currentTime := position * old(duration), playbackProgress := Progress(position * old(duration), old(duration)),
        currentSegmentID := IdAfterScan(old(transcribedSegments), position * old(duration), old(currentSegmentID)))
      ensures !old(hasPlayer) ==> State() == old(State())
    {
      if !hasPlayer {
        return;
      }
      var targetTime := position * duration;
      UpdateCurrentTime(targetTime);
    }

    /** `seekRelative(seconds:)`: moves from the player's position by `seconds`,
        clamped to `[0, duration]`. */
    method SeekRelative(seconds: real, playerTime: real)
      modifies this
      ensures old(hasPlayer) ==> State() == old(State()).(
        currentTime := ClampedSeek(playerTime, seconds, old(duration)),
        playbackProgress := Progress(ClampedSeek(playerTime, seconds, old(duration)), old(duration)),
        currentSegmentID := IdAfterScan(old(transcribedSegments), ClampedSeek(playerTime, seconds, old(duration)), old(currentSegmentID)))
      ensures !old(hasPlayer) ==> State() == old(State())
      ensures old(hasPlayer) && 0.0 <= duration ==> 0.0 <= currentTime <= duration
    {
      if !hasPlayer {
        return;
      }
      var newTime := ClampedSeek(playerTime, seconds, duration);
      UpdateCurrentTime(newTime);
    }

    /** `playFromSegment`: takes the segment's id, moves to its start (where the
        rescan may pick an earlier segment) and starts playing. */
    method PlayFromSegment(segment: TranscriptSegment)
      modifies this
      ensures old(hasPlayer) ==> State() == old(State()).(
        currentTime := segment.startTime, playbackProgress := Progress(segment.startTime, old(duration)),
        currentSegmentID := IdAfterScan(old(transcribedSegments), segment.startTime, segment.id),
        isPlaying := true)
      ensures !old(hasPlayer) ==> State() == old(State())
    {
      if !hasPlayer {
        return;
      }
      currentSegmentID := segment.id;
      UpdateCurrentTime(segment.startTime);
      StartPlayback();
    }

    /** `loadAudioFile(url:)`: stops, clears the transcript, copies the file
        (`copied` says whether that worked), checks its extension against
        `SupportAudioType` and opens a player. A failed copy or player is
        `audioFileLoadFailed`, a wrong extension `unsupportedFormat`; an error
        from an earlier load is not cleared by a later success. */
    method LoadAudioFile(url: Url, copied: bool, player: PlayerLoad)
      modifies this, uuids
      ensures uuids.next == old(uuids.next) + 1
      ensures State() == AfterLoad(old(State()), old(uuids.next), url, copied, player)
    {
      StopPlayback();
      ResetTranscription();
      if !copied {
        error := Some(AudioFileLoadFailed);
        return;
      }
      if !AudioTypes.IsSupportedExtension(url.pathExtension) {
        error := Some(Whisper(UnsupportedFormat));
        return;
      }
      match player
      case PlayerFails =>
        error := Some(AudioFileLoadFailed);
      case PlayerLoaded(d) =>
        hasPlayer := true;
        duration := d;
        audioFile := Some(url);
        isFileLoaded := true;
    }

    /** `transcribeAudio()`: does nothing without a file or while a run is in
        progress. Otherwise the service's segments replace the list wholesale;
        a thrown `WhisperError` leaves `error` as it was (the handler assigns
        the property to itself), any other error sets `transcriptionFailed`;
        `isTranscribing` ends false. */
    method TranscribeAudio(reply: TranscribeReply)
      modifies this
      ensures old(audioFile.None? || isTranscribing) ==> State() == old(State())
      ensures old(audioFile.Some? && !isTranscribing) ==> State() == old(State()).(
        transcribingProgress := if reply.lastProgress.Some? then reply.lastProgress.value else old(transcribingProgress),
        transcribedSegments := if reply.outcome.Returned? then reply.outcome.segments else old(transcribedSegments),
        error := if reply.outcome.ThrewOther? then Some(Whisper(TranscriptionFailed)) else old(error))
    {
      if audioFile.None? || isTranscribing {
        return;
      }
      isTranscribing := true;
      if reply.lastProgress.Some? {
        transcribingProgress := reply.lastProgress.value;
      }
      match reply.outcome {
        case Returned(segments) =>
          transcribedSegments := segments;
        case ThrewWhisperError(_) =>
          error := error;
        case ThrewOther =>
          error := Some(Whisper(TranscriptionFailed));
      }
      isTranscribing := false;
    }

    /** `retranscribeAudio()`: clears the transcript, then transcribes. */
    method RetranscribeAudio(reply: TranscribeReply)
      modifies this, uuids
      ensures uuids.next == old(uuids.next) + 1
      ensures old(audioFile.None? || isTranscribing) ==> State() == old(State()).(
        transcribedSegments := [], currentSegmentID := old(uuids.next))
      ensures old(audioFile.Some? && !isTranscribing) ==> State() == old(State()).(
        currentSegmentID := old(uuids.next),
        transcribingProgress := if reply.lastProgress.Some? then reply.lastProgress.value else old(transcribingProgress),
        transcribedSegments := if reply.outcome.Returned? then reply.outcome.segments else [],
        error := if reply.outcome.ThrewOther? then Some(Whisper(TranscriptionFailed)) else old(error))
    {
      ResetTranscription();
      TranscribeAudio(reply);
    }

    /** `saveTranscription(to:)`: nothing for an empty transcript, otherwise
        the text written, one "[m:ss.cc] text" line per segment. */
    method SaveTranscription() returns (written: Option<string>)
      ensures written == if transcribedSegments == [] then None else Some(SaveText(transcribedSegments))
    {
      if transcribedSegments == [] {
        return None;
      }
      var text := "";
      var i := 0;
      while i < |transcribedSegments|
        invariant 0 <= i <= |transcribedSegments|
        invariant text == SaveText(transcribedSegments[..i])
      {
        var segment := transcribedSegments[i];
        var timeStr := FormatTime(segment.startTime);
        SaveStep(transcribedSegments, i);
        text := text + ("[" + timeStr + "] " + segment.text + "\n");
        i := i + 1;
      }
      assert transcribedSegments[..i] == transcribedSegments;
      written := Some(text);
    }

    /** `exportTranscriptionText()`. */
    function ExportTranscriptionText(): string
      reads this
    {
      ExportText(transcribedSegments)
    }

    /** `createDefaultFilename()`. */
    function CreateDefaultFilename(dateString: string): string
      reads this
    {
      DefaultFilename(audioFile, dateString)
    }

    /** `resetAll()`: stops, clears the transcript and forgets the file and the
        player; the error, the run flag and the auto-scroll state are kept. */
    method ResetAll()
      modifies this, uuids
      ensures uuids.next == old(uuids.next) + 1
      ensures State() == old(State()).(audioFile := None, duration := 0.0, currentTime := 0.0, playbackProgress := 0.0,
                                       isPlaying := false, isFileLoaded := false, transcribedSegments := [],
                                       transcribingProgress := 0.0, currentSegmentID := old(uuids.next), hasPlayer := false)
    {
      StopPlayback();
      ResetTranscription();
      audioFile := None;
      duration := 0.0;
      currentTime := 0.0;
      playbackProgress := 0.0;
      isFileLoaded := false;
      transcribingProgress := 0.0;
      hasPlayer := false;
    }

    /** `autoScrollEnabled(with:)`. */
    method AutoScrollEnabledWith(duration: Option<real>)
      requires Valid()
      modifies this
      ensures Valid()
      ensures State() == old(State()).(autoScroll := EnableAutoScroll(old(State().autoScroll), duration))
    {
      autoScrollEnabled := true;
      if duration.None? {
        return;
      }
      forceAutoScrollEnabled := true;
      forceTimerPending := true;
    }

    /** `autoScrollDisabled()`, which the view calls when the user scrolls. */
    method AutoScrollDisabled()
      requires Valid()
      modifies this
      ensures Valid()
      ensures State() == old(State()).(autoScroll := DisableAutoScroll(old(State().autoScroll)))
    {
      if forceAutoScrollEnabled {
        return;
      }
      autoScrollEnabled := false;
    }

    /** The one-shot timer that `autoScrollEnabled(with:)` scheduled fires. */
    method ForceAutoScrollTimerFired()
      requires Valid()
      modifies this
      ensures Valid()
      ensures State() == old(State()).(autoScroll := ForceTimerExpired(old(State().autoScroll)))
    {
      if forceTimerPending {
        forceAutoScrollEnabled := false;
        forceTimerPending := false;
      }
    }

    /** `handleDrop(providers:)`, each provider given by its registered type
        identifiers: true when some provider registers one, and the identifier
        the first such provider is loaded with. The load itself completes later,
        in `DroppedItemLoaded`. */
    method HandleDrop(providers: seq<seq<string>>) returns (handled: bool, identifier: Option<string>)
      ensures handled <==> FirstProviderWithTypes(providers).Some?
      ensures handled ==> identifier == ChooseIdentifier(providers[FirstProviderWithTypes(providers).value])
      ensures !handled ==> identifier.None?
    {
      var i := 0;
      while i < |providers|
        invariant 0 <= i <= |providers|
        invariant forall j :: 0 <= j < i ==> providers[j] == []
      {
        var availableTypes := providers[i];
        var identifierToUse := ChooseIdentifier(availableTypes);
        if identifierToUse.Some? {
          FirstProviderIs(providers, i);
          return true, identifierToUse;
        }
        i := i + 1;
      }
      return false, None;
    }

    /** The completion of a dropped provider's load: `item` is the URL it
        yielded, if any; only a supported audio extension is loaded. */
    method DroppedItemLoaded(item: Option<Url>, copied: bool, player: PlayerLoad)
      modifies this, uuids
      ensures item.None? || !AudioTypes.IsSupportedExtension(item.value.pathExtension) ==>
        State() == old(State()) && uuids.next == old(uuids.next)
      ensures item.Some? && AudioTypes.IsSupportedExtension(item.value.pathExtension) ==>
        State() == AfterLoad(old(State()), old(uuids.next), item.value, copied, player)
        && uuids.next == old(uuids.next) + 1
    {
      if item.Some? && AudioTypes.IsSupportedExtension(item.value.pathExtension) {
        LoadAudioFile(item.value, copied, player);
      }
    }
  }

  lemma FirstProviderIs(providers: seq<seq<string>>, i: nat)
    requires i < |providers| && providers[i] != []
    requires forall j :: 0 <= j < i ==> providers[j] == []
    ensures FirstProviderWithTypes(providers) == Some(i)
  {
    assert FirstProviderWithTypes(providers).Some?;
  }
}
