# AudioTranscriber core, modelled in Dafny

AudioTranscriber is a macOS app. It loads an audio (or mp4) file, transcribes
it into Japanese with the on-device WhisperKit engine, and plays the file back
while it highlights the transcript segment under the playback clock. This
project models the logic around the engine and the player, and proves
properties of that model:

- **The transcription service** (`WhisperManager`), module `WhisperService`.
  It sets up and swaps the engine handle, checks the file's format, maps the
  engine's segments to `TranscriptSegment`s, and strips `<...>` tags and
  surrounding whitespace from each text. The engine is an oracle. Its setup
  is `EngineSetup` (construction fails, `loadModels` fails, or a handle) and
  a run is `EngineRun` (fails, or a list of results).
- **Three generations of the transcription view model**, one module each and
  not harmonised:
  - `TranscriptionScreen` is `Screens/Transcription`, the latest.
  - `TranscribeScreen` is `Screens/Transcribe`. It drives the modelled
    `WhisperManager` directly.
  - `AudioViewModels` is `ViewModels/AudioViewModel`, the first.

  Each is a class whose fields are the published properties. Its methods
  carry the same guards and branches as the source. Each method states the
  whole new state as `old(State())` with the changed fields written out. The
  three differ where the source differs:
  - When no segment covers the time, `currentSegmentID` keeps its old id in
    the latest, takes a fresh UUID in the middle one, and becomes nil in the
    first.
  - The error handling differs.
  - So do the mp4 routing and the model-readiness flow.
- **The auto-scroll override** of the latest screen. It is an enabled flag
  and a forced flag, plus a one-shot timer whose expiry is an explicit
  event. A user scroll in the view reaches the model as `AutoScrollDisabled`.
- **The two `SetupViewModel` classes** (`SetupScreen`, `InitialSetupView`).
  They share the start transitions in `SetupFlags`. The first-launch one is
  also driven by three notifications it observes, and the view picks one of
  four panels from its flags.
- **Tables and formats**:
  - the supported audio and media extensions;
  - the language enum and its preferred-language default;
  - the initialisation status and the error enum, with their messages;
  - the segment record with its generated id;
  - the `"%d:%02d.%02d"` and `"%02d:%02d.%03d"` time stamps and the text
    that save and export produce.

Some Swift and Foundation behaviour is written out in `Platform`, because it
decides the results:
- `Int(x)` truncates toward zero (`Trunc`).
- Integer `/` and `%` truncate (`Quot`, `Rem`).
- `lowercased()` is modelled on ASCII letters.
- `trimmingCharacters(in: .whitespacesAndNewlines)` is modelled.
- `String(format: "%0Nd")` is modelled (`FormatInt`).

Times are `real`. `UUID()` is a counter, `UuidSource`, shared by everything
that generates ids. An id it hands out differs from every id it handed out
before.

The code does not merge repeated fragments; `WhisperService.NoMerging` proves
that two equal consecutive fragments stay two segments with different ids. It
copies the engine's start and end times verbatim and checks neither
`startTime >= 0` nor `endTime >= startTime`, and neither does the model.

## Model

| member | source | states |
|---|---|---|
| Platform.LowercasedIsLowercase | AudioTranscriber/Services/WhisperManager.swift:62 | A lower-cased extension has no upper-case letter. Lower-cased text is left alone, so lower-casing twice is lower-casing once. |
| Platform.TrimmedLeadingIsSuffix | AudioTranscriber/Services/WhisperManager.swift:101 | Trimming the front removes exactly the leading run of whitespace and newlines, and stops at the first other character. |
| Platform.TrimmedTrailingIsPrefix | AudioTranscriber/Services/WhisperManager.swift:101 | Trimming the back removes exactly the trailing run of whitespace and newlines. |
| Platform.TrimmedIsCore | AudioTranscriber/Services/WhisperManager.swift:101 | A trimmed text is a slice of the original. Only whitespace is cut at either end, and the result starts and ends with non-whitespace. |
| Platform.Trunc | AudioTranscriber/Screens/Transcription/TranscriptionViewModel.swift:395-397 | `Int(x)` truncates toward zero: `n <= x < n+1` for non-negative x and `n-1 < x <= n` for negative x. |
| Platform.QuotRem | AudioTranscriber/Screens/Transcription/TranscriptionViewModel.swift:395-396 | Swift's `/` and `%` rebuild the dividend. The remainder lies in `[0, b)` for a non-negative dividend and in `(-b, 0]` for a negative one. |
| Platform.Digits | AudioTranscriber/Screens/Transcription/TranscriptionViewModel.swift:398 | `%d` of a non-negative number is at least one digit, with no leading zero. |
| Platform.ZeroPad | AudioTranscriber/Screens/Transcription/TranscriptionViewModel.swift:398 | `%0Nd` pads to exactly N characters when the number is shorter, and keeps the result all digits. |
| Platform.DigitsValue | AudioTranscriber/Screens/Transcription/TranscriptionViewModel.swift:398 | `%d` reads back as the number it printed. |
| Platform.FormatIntValue | AudioTranscriber/Screens/Transcription/TranscriptionViewModel.swift:398 | `%0Nd` is all digits and reads back as the number it printed. |
| Platform.FormatIntWidth | AudioTranscriber/Screens/Transcription/TranscriptionViewModel.swift:398 | `%0Nd` of a number below 10^N has exactly N characters. |
| Segments.UuidSource.Fresh | AudioTranscriber/Models/TranscriptSegment.swift:5 | `UUID()` returns an id no earlier call returned. |
| Segments.NewSegment | AudioTranscriber/Models/TranscriptSegment.swift:4-8 | A segment keeps its text and times verbatim and takes a fresh id. |
| Segments.FirstCovering | AudioTranscriber/Screens/Transcription/TranscriptionViewModel.swift:384-391 | Gives the index of the first segment, in list order, with `start <= t <= end`. It gives none exactly when no segment covers t. |
| Segments.FirstCoveringUnique | AudioTranscriber/Screens/Transcription/TranscriptionViewModel.swift:385-389 | A covering segment with no covering segment before it is the one the scan returns. |
| Segments.SharedBoundaryGoesToEarlier | AudioTranscriber/Screens/Transcription/TranscriptionViewModel.swift:386 | The bounds are inclusive, so a time two adjacent segments share belongs to the earlier one. |
| Playback.ClampedSeek | AudioTranscriber/Screens/Transcription/TranscriptionViewModel.swift:194-199 | The target is `current + d` when that lies in `[0, duration]`. Otherwise it is 0 or the duration, whichever bound was crossed. It never leaves `[0, duration]` when the duration is non-negative. |
| Playback.Progress | AudioTranscriber/Screens/Transcription/TranscriptionViewModel.swift:377 | The progress times the duration is the time, for a non-zero duration. |
| Timestamps.Fields | AudioTranscriber/Screens/Transcription/TranscriptionViewModel.swift:394-399 | For a non-negative time, minutes, seconds (below 60) and sub-second ticks (below the unit) together denote the time cut down to a multiple of 1/unit. |
| Timestamps.ExportStamp | AudioTranscriber/Screens/Transcription/TranscriptionViewModel.swift:273-278 | The export stamp is MM:SS.mmm. The three fields denote the time truncated to the millisecond, with seconds below 60 and milliseconds below 1000. |
| Timestamps.ExportFieldsReadBack | AudioTranscriber/Screens/Transcription/TranscriptionViewModel.swift:277 | Export fields are two, two and three digits wide (minutes at least two) and each reads back as its number. |
| Timestamps.SaveStamp | AudioTranscriber/Screens/Transcribe/TranscriptionViewModel.swift:252-257 | The save stamp is M:SS.cc. The fields denote the time truncated to the hundredth. |
| Timestamps.SaveFieldsReadBack | AudioTranscriber/Screens/Transcribe/TranscriptionViewModel.swift:256 | Save fields read back as their numbers, with seconds and hundredths exactly two digits. |
| Timestamps.JoinedMapConcat | AudioTranscriber/Screens/Transcription/TranscriptionViewModel.swift:265-270 | Mapping and joining a split list puts exactly one separator between the joins of its two parts. |
| Timestamps.AccumulatedConcat | AudioTranscriber/Screens/Transcription/TranscriptionViewModel.swift:238-242 | Accumulating lines over a split list gives the first part's text followed by the second's. |
| Timestamps.ExportTextShape | AudioTranscriber/Screens/Transcription/TranscriptionViewModel.swift:264-271 | The export of no segments is "", of one segment its entry alone, and of a split list the two exports around one blank line. So there is one entry per segment, in order. |
| Timestamps.SaveTextShape | AudioTranscriber/Screens/Transcription/TranscriptionViewModel.swift:234-249 | The save of no segments is "", of one segment its line, and of a split list the two texts in order. |
| Timestamps.SaveStep | AudioTranscriber/Screens/Transcription/TranscriptionViewModel.swift:239-242 | Each loop step appends exactly the next segment's line. |
| AudioTypes.FromRawValue | AudioTranscriber/Models/SupportModel.swift:1-7 | `SupportAudioType(rawValue:)` gives the case whose raw value is the string, and nil exactly when no case has it. |
| AudioTypes.Cases | AudioTranscriber/Models/SupportModel.swift:1-7 | There are five distinct cases with lower-case raw values, and each raw value maps back to its case. |
| AudioTypes.SupportedExtensionIgnoresCase | AudioTranscriber/Screens/Transcription/TranscriptionViewModel.swift:109-110 | The extension check accepts an extension exactly when its lower-cased form is a raw value, so letter case never matters. |
| AudioTypes.SupportedExamples | AudioTranscriber/Screens/Transcription/TranscriptionViewModel.swift:109-112 | WAV, m4a and aac are accepted for loading. mp4 and mov are refused. |
| MediaTypes.FromRawValue | AudioTranscriber/Models/SupportMediaType.swift:3-15 | `SupportMediaType(rawValue:)` gives the case with that raw value, and nil exactly when there is none. |
| MediaTypes.Cases | AudioTranscriber/Models/SupportMediaType.swift:3-15 | There are 12 distinct cases with lower-case raw values that map back to their cases. |
| MediaTypes.VideoTypes | AudioTranscriber/Models/SupportMediaType.swift:21-23 | `allVideoTypes` has seven distinct entries, all of them cases. |
| MediaTypes.NonVideoIsAudio | AudioTranscriber/Models/SupportMediaType.swift:4-23 | A media type is not a video type exactly when its raw value is a `SupportAudioType`. |
| MediaTypes.AudioIsNonVideo | AudioTranscriber/Models/SupportModel.swift:1-7 | Every audio type is a media type that is not a video type. |
| Languages.FromRawValue | AudioTranscriber/Models/SupportLanguage.swift:3-4 | `SupportLanguage(rawValue:)` gives the case with that raw value, and nil exactly when there is none. |
| Languages.Cases | AudioTranscriber/Models/SupportLanguage.swift:4 | There are 13 distinct cases, and each raw value maps back to its case. |
| Languages.RawValueInjective | AudioTranscriber/Models/SupportLanguage.swift:4 | Distinct languages have distinct raw values. |
| Languages.NativeName | AudioTranscriber/Models/SupportLanguage.swift:6-22 | `auto` shows the localised label. Every other language has a name of at least two characters. |
| Languages.NativeNamesDistinct | AudioTranscriber/Models/SupportLanguage.swift:9-20 | Two different languages other than `auto` have different native names. |
| Languages.Prefix2 | AudioTranscriber/Models/SupportLanguage.swift:26 | `prefix(2)` is the first two characters, or the whole id when it is shorter. |
| Languages.Default | AudioTranscriber/Models/SupportLanguage.swift:24-32 | The default language is never `auto`. |
| Languages.DefaultIsFirstRecognised | AudioTranscriber/Models/SupportLanguage.swift:25-29 | The default is the language of the first preferred id whose two-letter prefix is a raw value. Earlier ids win. |
| Languages.DefaultFallback | AudioTranscriber/Models/SupportLanguage.swift:25-31 | When no preferred id is recognised, the default is English. |
| Languages.DefaultExamples | AudioTranscriber/Models/SupportLanguage.swift:24-32 | "ja-JP" gives Japanese and "zh-Hans-CN" gives Chinese. "auto" is never matched, and an empty list gives English. |
| WhisperErrors.LocalizedDescription | AudioTranscriber/Models/WhisperError.swift:12-31 | `unsupportedFormat` and `uninitialized` have their fixed English messages. Every message is a sentence ending in a full stop. |
| WhisperErrors.DescriptionInjective | AudioTranscriber/Models/WhisperError.swift:13-30 | Distinct errors have distinct messages. |
| InitializeStatus.DescriptionDistinguishesStages | AudioTranscriber/Models/WhisperInitializeStatus.swift:8-21 | Equal descriptions mean the same stage. Only the download stage's description depends on a value. |
| InitializeStatus.DownloadingPercent | AudioTranscriber/Models/WhisperInitializeStatus.swift:14-15 | The download description is the prefix, the percentage `Int(progress*100)` truncated, and "%". |
| WhisperService.RemoveTagsFromText | AudioTranscriber/Services/WhisperManager.swift:114-125 | Removing tags never lengthens the text and never introduces a character. |
| WhisperService.NoTagsUnchanged | AudioTranscriber/Services/WhisperManager.swift:116-120 | Text with no match of `<[^>]+>` comes back unchanged. |
| WhisperService.NoOpenUnchanged | AudioTranscriber/Services/WhisperManager.swift:116-120 | Text with no `<` comes back unchanged. |
| WhisperService.RemoveTagsLeavesNone | AudioTranscriber/Services/WhisperManager.swift:116-120 | The result has no match left, so removing tags twice is removing them once. |
| WhisperService.RemoveTagsExamples | AudioTranscriber/Services/WhisperManager.swift:116 | An empty `<>` survives, `a<b>c` becomes `ac`, and an unclosed `<` is kept. |
| WhisperService.CleanTextIsClean | AudioTranscriber/Services/WhisperManager.swift:99-101 | A cleaned segment text has no tag, and it neither starts nor ends with whitespace. |
| WhisperService.SupportedFormatExamples | AudioTranscriber/Services/WhisperManager.swift:62-64 | MP3, mp4 and flac are accepted for transcription. aac, mov and the empty extension are not. |
| WhisperService.SegmentsFromShape | AudioTranscriber/Services/WhisperManager.swift:93-107 | There is one segment per engine segment, in order. Each text is the cleaned text and the times are copied verbatim. The ids are pairwise distinct and all fresh, and mapping distributes over concatenation. |
| WhisperService.SetupStep | AudioTranscriber/Services/WhisperManager.swift:30-52 | Setup returns early only when no engine is held and `isLoading` is set. It can throw only `failedToInitialize`. A failure keeps the held engine, and a new engine is stored only after construction and loading both succeed. |
| WhisperService.SetupFailureComesFirst | AudioTranscriber/Services/WhisperManager.swift:59-66 | A setup failure surfaces as `failedToInitialize` even for an unsupported file. |
| WhisperService.UnsupportedFormatRefused | AudioTranscriber/Services/WhisperManager.swift:62-66 | After a successful setup, an extension outside the list fails with `unsupportedFormat`. |
| WhisperService.UninitializedOnlyWhileLoading | AudioTranscriber/Services/WhisperManager.swift:59-70 | `uninitialized` happens only after the early return, and then whatever the engine would do plays no part. |
| WhisperService.TranscribeUsesFreshEngine | AudioTranscriber/Services/WhisperManager.swift:59-72 | With a supported file, a successful setup stores the new engine and the run's mapped result is returned. |
| WhisperService.SetupNotIdempotent | AudioTranscriber/Services/WhisperManager.swift:25-51 | With an engine held, setup still runs again. It replaces the engine on success and keeps it on failure. |
| WhisperService.NoMerging | AudioTranscriber/Services/WhisperManager.swift:98-106 | Two equal consecutive fragments become two segments with different ids. |
| WhisperService.WhisperManager.constructor | AudioTranscriber/Services/WhisperManager.swift:19-25 | No engine is held and not loading. |
| WhisperService.WhisperManager.SetupWhisperIfNeeded | AudioTranscriber/Services/WhisperManager.swift:30-52 | The held engine and what is thrown follow `SetupStep`, and `isLoading` never changes. |
| WhisperService.WhisperManager.Transcribe | AudioTranscriber/Services/WhisperManager.swift:59-73 | The result and the held engine follow setup, then the format check, then the engine check, then the run. One UUID is used per returned segment. |
| WhisperService.WhisperManager.TranscribeAudio | AudioTranscriber/Services/WhisperManager.swift:78-111 | The loop builds exactly the mapped result of the run, and a failed run gives `transcriptionFailed`. |
| TranscriptionScreen.IdAfterScanChoices | AudioTranscriber/Screens/Transcription/TranscriptionViewModel.swift:384-391 | With no covering segment the old id is kept. Otherwise the id is the first covering segment's id, and scanning again changes nothing. |
| TranscriptionScreen.PlayFromSegmentBoundary | AudioTranscriber/Screens/Transcription/TranscriptionViewModel.swift:255-258 | Playing from a segment that starts where the previous one ends makes the previous segment current. |
| TranscriptionScreen.AutoScrollTransitionsValid | AudioTranscriber/Screens/Transcription/TranscriptionViewModel.swift:306-321 | The forced flag is set exactly while the one-shot timer is pending, from the start and after every transition. |
| TranscriptionScreen.AutoScrollOverride | AudioTranscriber/Screens/Transcription/TranscriptionViewModel.swift:306-321 | A user scroll disables auto-scroll unless it is forced. Forcing for a duration survives a scroll until the timer fires. Expiry clears only the forced flag, and enabling without a duration leaves it untouched. |
| TranscriptionScreen.FirstUrlType | AudioTranscriber/Screens/Transcription/TranscriptionViewModel.swift:329-332 | Gives the first registered type that is a file or plain URL type, or none when there is none. |
| TranscriptionScreen.ChooseIdentifier | AudioTranscriber/Screens/Transcription/TranscriptionViewModel.swift:329-333 | A URL type is chosen when there is one, else the first type. Nothing is chosen only for a provider with no types. |
| TranscriptionScreen.FirstProviderWithTypes | AudioTranscriber/Screens/Transcription/TranscriptionViewModel.swift:325-335 | Gives the first provider with any registered type, or none when all have none. |
| TranscriptionScreen.FirstProviderIs | AudioTranscriber/Screens/Transcription/TranscriptionViewModel.swift:325-335 | A provider with types and none with types before it is the one chosen. |
| TranscriptionScreen.BeforeFirstDot | AudioTranscriber/Screens/Transcription/TranscriptionViewModel.swift:285 | The first dot-separated component is the longest dot-free prefix of the file name. |
| TranscriptionScreen.BeforeFirstDotOf | AudioTranscriber/Screens/Transcription/TranscriptionViewModel.swift:285 | For a dot-free stem, the name `stem.rest` gives back the stem, and so does the stem alone. |
| TranscriptionScreen.DefaultFilenameExamples | AudioTranscriber/Screens/Transcription/TranscriptionViewModel.swift:280-290 | With no file the name is `文字起こし_<date>.txt`. For `talk.final.m4a` it is `talk_文字起こし_<date>.txt`. |
| TranscriptionScreen.AfterLoad | AudioTranscriber/Screens/Transcription/TranscriptionViewModel.swift:100-126 | A load always stops, rewinds to 0 and clears the transcript with the fresh id current; auto-scroll and the transcription flags are kept. The file becomes the URL only when the copy, the extension and the player all succeed, and then the error is kept. Otherwise a wrong extension (after a good copy) gives `unsupportedFormat`, a failed copy or player gives `audioFileLoadFailed`, and the duration and player are kept. |
| TranscriptionScreen.TranscriptionViewModel.constructor | AudioTranscriber/Screens/Transcription/TranscriptionViewModel.swift:46-62 | Everything starts empty, with a fresh current id, no error, and auto-scroll neither enabled nor forced. |
| TranscriptionScreen.TranscriptionViewModel.UpdateCurrentSegment | AudioTranscriber/Screens/Transcription/TranscriptionViewModel.swift:384-391 | The scan loop sets the first covering segment's id or keeps the old one. Nothing else changes. |
| TranscriptionScreen.TranscriptionViewModel.UpdateCurrentTime | AudioTranscriber/Screens/Transcription/TranscriptionViewModel.swift:375-381 | Sets the time, the progress, and the scanned id. |
| TranscriptionScreen.TranscriptionViewModel.ResetTranscription | AudioTranscriber/Screens/Transcription/TranscriptionViewModel.swift:369-372 | Leaves no segments and a fresh current id. |
| TranscriptionScreen.TranscriptionViewModel.StartPlayback | AudioTranscriber/Screens/Transcription/TranscriptionViewModel.swift:140-154 | Without a player, or while playing, it does nothing. Otherwise playback starts. |
| TranscriptionScreen.TranscriptionViewModel.PausePlayback | AudioTranscriber/Screens/Transcription/TranscriptionViewModel.swift:157-165 | Playback ends paused. Nothing else changes. |
| TranscriptionScreen.TranscriptionViewModel.StopPlayback | AudioTranscriber/Screens/Transcription/TranscriptionViewModel.swift:168-175 | Always stops and rewinds the clock to 0, rescanning there. |
| TranscriptionScreen.TranscriptionViewModel.TogglePlayback | AudioTranscriber/Screens/Transcription/TranscriptionViewModel.swift:129-137 | Pauses when playing. Otherwise it starts, if there is a player. |
| TranscriptionScreen.TranscriptionViewModel.PlaybackTimerFired | AudioTranscriber/Screens/Transcription/TranscriptionViewModel.swift:146-151 | While playing, a tick moves the clock to the player's time. Otherwise nothing changes. |
| TranscriptionScreen.TranscriptionViewModel.SeekToPosition | AudioTranscriber/Screens/Transcription/TranscriptionViewModel.swift:178-186 | With a player, the time becomes `position * duration`. Without one, nothing changes. |
| TranscriptionScreen.TranscriptionViewModel.SeekRelative | AudioTranscriber/Screens/Transcription/TranscriptionViewModel.swift:189-201 | With a player, the time becomes the clamped target, which stays inside `[0, duration]`. |
| TranscriptionScreen.TranscriptionViewModel.PlayFromSegment | AudioTranscriber/Screens/Transcription/TranscriptionViewModel.swift:251-262 | Sets the segment's id, then rescans at its start, then plays. |
| TranscriptionScreen.TranscriptionViewModel.LoadAudioFile | AudioTranscriber/Screens/Transcription/TranscriptionViewModel.swift:100-126 | The new state is exactly `AfterLoad` of the old one, with one UUID drawn. |
| TranscriptionScreen.TranscriptionViewModel.TranscribeAudio | AudioTranscriber/Screens/Transcription/TranscriptionViewModel.swift:203-225 | With no file or while running, nothing changes. Otherwise the segments are replaced wholesale on success. A `WhisperError` leaves `error` as it was, and any other error gives `transcriptionFailed`. The run flag ends false. |
| TranscriptionScreen.TranscriptionViewModel.RetranscribeAudio | AudioTranscriber/Screens/Transcription/TranscriptionViewModel.swift:227-232 | Clears the transcript, then transcribes. |
| TranscriptionScreen.TranscriptionViewModel.SaveTranscription | AudioTranscriber/Screens/Transcription/TranscriptionViewModel.swift:234-249 | Writes nothing for an empty transcript. Otherwise the loop writes exactly the save text. |
| TranscriptionScreen.TranscriptionViewModel.ResetAll | AudioTranscriber/Screens/Transcription/TranscriptionViewModel.swift:292-304 | Leaves no file, a zero clock, duration and progress, no segments, a fresh id and no player. |
| TranscriptionScreen.TranscriptionViewModel.AutoScrollEnabledWith | AudioTranscriber/Screens/Transcription/TranscriptionViewModel.swift:306-315 | Enables auto-scroll. A duration also forces it and restarts the timer, and the timer invariant is kept. |
| TranscriptionScreen.TranscriptionViewModel.AutoScrollDisabled | AudioTranscriber/Screens/Transcription/TranscriptionViewModel.swift:317-321 | Disables auto-scroll unless it is forced. |
| TranscriptionScreen.TranscriptionViewModel.ForceAutoScrollTimerFired | AudioTranscriber/Screens/Transcription/TranscriptionViewModel.swift:312-314 | The one-shot timer clears only the forced flag. |
| TranscriptionScreen.TranscriptionViewModel.HandleDrop | AudioTranscriber/Screens/Transcription/TranscriptionViewModel.swift:324-364 | A drop is handled exactly when some provider has a type, and the first such provider's chosen identifier is loaded. |
| TranscriptionScreen.TranscriptionViewModel.DroppedItemLoaded | AudioTranscriber/Screens/Transcription/TranscriptionViewModel.swift:336-357 | An item that is not a supported audio file changes nothing. A supported one leaves exactly the state `AfterLoad` gives, as `loadAudioFile` does, with one UUID drawn. |
| TranscribeScreen.ScanIdMatchesOnlyCovering | AudioTranscriber/Screens/Transcribe/TranscriptionViewModel.swift:241-249 | When all ids were issued earlier, the current id names a segment exactly when a segment covers the time. Otherwise it is the fresh id. |
| TranscribeScreen.TranscribedIdsIssued | AudioTranscriber/Services/WhisperManager.swift:93-107 | A run's segments carry ids issued from the counter onwards, before the new counter. |
| TranscribeScreen.TranscribedIdsIssuedFrom | AudioTranscriber/Services/WhisperManager.swift:59-73 | The same holds for whatever `transcribe(url:)` returns. |
| TranscribeScreen.TranscriptionViewModel.constructor | AudioTranscriber/Screens/Transcribe/TranscriptionViewModel.swift:57-66 | Everything starts empty with a fresh id, and the new manager has been set up once. |
| TranscribeScreen.TranscriptionViewModel.UpdateCurrentSegment | AudioTranscriber/Screens/Transcribe/TranscriptionViewModel.swift:241-249 | The scan sets the first covering id, or draws one fresh UUID when nothing covers the time. |
| TranscribeScreen.TranscriptionViewModel.UpdateCurrentTime | AudioTranscriber/Screens/Transcribe/TranscriptionViewModel.swift:232-238 | Sets the time, the progress, and the scanned id. |
| TranscribeScreen.TranscriptionViewModel.ResetTranscription | AudioTranscriber/Screens/Transcribe/TranscriptionViewModel.swift:226-229 | Leaves no segments and a fresh id. |
| TranscribeScreen.TranscriptionViewModel.StartPlayback | AudioTranscriber/Screens/Transcribe/TranscriptionViewModel.swift:110-123 | Without a player, or while playing, it does nothing. Otherwise playback starts. |
| TranscribeScreen.TranscriptionViewModel.PausePlayback | AudioTranscriber/Screens/Transcribe/TranscriptionViewModel.swift:126-134 | Playback ends paused. |
| TranscribeScreen.TranscriptionViewModel.TogglePlayback | AudioTranscriber/Screens/Transcribe/TranscriptionViewModel.swift:99-107 | Pauses when playing. Otherwise it starts, if there is a player. |
| TranscribeScreen.TranscriptionViewModel.StopPlayback | AudioTranscriber/Screens/Transcribe/TranscriptionViewModel.swift:137-144 | Always stops and rewinds to 0. |
| TranscribeScreen.TranscriptionViewModel.PlaybackTimerFired | AudioTranscriber/Screens/Transcribe/TranscriptionViewModel.swift:116-119 | While playing, a tick moves the clock to the player's time. |
| TranscribeScreen.TranscriptionViewModel.SeekToPosition | AudioTranscriber/Screens/Transcribe/TranscriptionViewModel.swift:147-155 | With a player, the time becomes `position * duration`. |
| TranscribeScreen.TranscriptionViewModel.SeekRelative | AudioTranscriber/Screens/Transcribe/TranscriptionViewModel.swift:158-170 | With a player, the time becomes the clamped target. |
| TranscribeScreen.TranscriptionViewModel.PlayFromSegment | AudioTranscriber/Screens/Transcribe/TranscriptionViewModel.swift:211-221 | Moves to the segment's start, where the scan decides the id, then plays. |
| TranscribeScreen.TranscriptionViewModel.LoadAudioFile | AudioTranscriber/Screens/Transcribe/TranscriptionViewModel.swift:71-96 | Stops and clears first, leaving a fresh UUID current: two are drawn when nothing covers time 0, otherwise one. mp4 goes to the video path: a load failure gives `fileLoadError`, no track gives `noAudioTrackFound`, and success takes the file and the duration, creates no player and keeps any earlier one. Any other extension goes to the player path, where a failure gives `fileLoadError`. Every failure keeps the earlier file and duration. |
| TranscribeScreen.TranscriptionViewModel.TranscribeAudio | AudioTranscriber/Screens/Transcribe/TranscriptionViewModel.swift:173-190 | With no file or while running, nothing changes. Otherwise the manager's result replaces the segments on success, and `error` is never changed. |
| TranscribeScreen.TranscriptionViewModel.SaveTranscription | AudioTranscriber/Screens/Transcribe/TranscriptionViewModel.swift:193-208 | Writes nothing for an empty transcript. Otherwise the loop writes exactly the save text. |
| AudioViewModels.ScanIdPresentIffCovered | AudioTranscriber/ViewModels/AudioViewModel.swift:225-233 | The current id is present exactly when a segment covers the time, and it is the first such segment's id. |
| AudioViewModels.StuckWithoutModel | AudioTranscriber/ViewModels/AudioViewModel.swift:242-269 | With `isTranscribing` set and no run in flight, no sequence of events ever clears it. |
| AudioViewModels.TapBeforeReadyNeverFinishes | AudioTranscriber/ViewModels/AudioViewModel.swift:248-269 | Tapping transcribe before the model is ready leaves the screen transcribing forever, whatever happens next. |
| AudioViewModels.ReadyRunCompletes | AudioTranscriber/ViewModels/AudioViewModel.swift:277-308 | With the model ready, a tap and its completion end the run. A `modelLoadFailed` completion makes the model not ready, so the next tap starts no run. |
| AudioViewModels.AudioViewModel.constructor | AudioTranscriber/ViewModels/AudioViewModel.swift:7-30 | Everything starts empty, with no current id, and the model neither ready nor downloading. |
| AudioViewModels.AudioViewModel.ModelDownloadNeeded | AudioTranscriber/ViewModels/AudioViewModel.swift:34-38 | The notification makes the model not ready. |
| AudioViewModels.AudioViewModel.ModelLoadedReceived | AudioTranscriber/ViewModels/AudioViewModel.swift:41-46 | The notification makes the model ready and ends downloading. |
| AudioViewModels.AudioViewModel.DownloadWhisperModel | AudioTranscriber/ViewModels/AudioViewModel.swift:50-54 | Raises the downloading flag, and nothing else happens. |
| AudioViewModels.AudioViewModel.UpdateCurrentSegment | AudioTranscriber/ViewModels/AudioViewModel.swift:225-233 | The scan sets the first covering id, or nil. |
| AudioViewModels.AudioViewModel.UpdateCurrentTime | AudioTranscriber/ViewModels/AudioViewModel.swift:204-210 | Sets the time, the progress, and the scanned id. |
| AudioViewModels.AudioViewModel.ResetTranscription | AudioTranscriber/ViewModels/AudioViewModel.swift:236-239 | Leaves no segments and no current id. |
| AudioViewModels.AudioViewModel.StartPlayback | AudioTranscriber/ViewModels/AudioViewModel.swift:143-154 | Without a player, or while playing, it does nothing. Otherwise playback starts. |
| AudioViewModels.AudioViewModel.PausePlayback | AudioTranscriber/ViewModels/AudioViewModel.swift:157-163 | Playback ends paused. |
| AudioViewModels.AudioViewModel.TogglePlayback | AudioTranscriber/ViewModels/AudioViewModel.swift:134-140 | Pauses when playing. Otherwise it starts, if there is a player. |
| AudioViewModels.AudioViewModel.StopPlayback | AudioTranscriber/ViewModels/AudioViewModel.swift:166-171 | Always stops and rewinds to 0. |
| AudioViewModels.AudioViewModel.PlaybackTimerFired | AudioTranscriber/ViewModels/AudioViewModel.swift:150-153 | While playing, a tick moves the clock to the player's time. |
| AudioViewModels.AudioViewModel.SeekToPosition | AudioTranscriber/ViewModels/AudioViewModel.swift:174-183 | With a player, the time becomes `position * duration`. The second lookup changes nothing. |
| AudioViewModels.AudioViewModel.SeekRelative | AudioTranscriber/ViewModels/AudioViewModel.swift:186-201 | With a player, the time becomes the clamped target. The second lookup changes nothing. |
| AudioViewModels.AudioViewModel.PlayFromSegment | AudioTranscriber/ViewModels/AudioViewModel.swift:213-222 | Moves to the segment's start and plays. |
| AudioViewModels.AudioViewModel.LoadAudioFile | AudioTranscriber/ViewModels/AudioViewModel.swift:57-131 | Stops and clears the transcript and the clock first. Refused access, a failed copy, a video without audio or a failed player keep whatever file, duration and player were loaded before, and report no error. A success takes the file, the duration and the player. |
| AudioViewModels.AudioViewModel.TranscribeAudio | AudioTranscriber/ViewModels/AudioViewModel.swift:242-274 | The flow follows `FlowStep`. A run is requested only with a file, while idle, and with the model ready. |
| AudioViewModels.AudioViewModel.TranscriptionCompleted | AudioTranscriber/ViewModels/AudioViewModel.swift:279-307 | Ends the run. Segments are replaced on success, and `modelLoadFailed` makes the model not ready. |
| AudioViewModels.AudioViewModel.SaveTranscription | AudioTranscriber/ViewModels/AudioViewModel.swift:311-325 | Writes nothing for an empty transcript. Otherwise the loop writes exactly the save text. |
| SetupFlags.AfterDownload | AudioTranscriber/Screens/Setup/SetupViewModel.swift:32-38 | Starting a download sets downloading and started, clears the error, resets the progress, and keeps the details. |
| SetupFlags.AfterRedownload | AudioTranscriber/Screens/Setup/SetupViewModel.swift:40-46 | Restarting sets the same flags with its own message. |
| SetupFlags.StartsDifferOnlyInMessage | AudioTranscriber/Screens/Setup/SetupViewModel.swift:32-46 | The two starts differ in the message alone, and the messages differ. |
| SetupFlags.StartsIdempotent | AudioTranscriber/Screens/Setup/SetupViewModel.swift:32-46 | Starting twice is starting once, and only `errorDetails` carries over from before. |
| SetupScreen.SetupViewModel.constructor | AudioTranscriber/Screens/Setup/SetupViewModel.swift:20-25 | Starts not downloading, with no error, not started, progress 0 and no details. |
| SetupScreen.SetupViewModel.DownloadModel | AudioTranscriber/Screens/Setup/SetupViewModel.swift:32-38 | The new state is the started download. |
| SetupScreen.SetupViewModel.ResetAndRedownloadModel | AudioTranscriber/Screens/Setup/SetupViewModel.swift:40-46 | The new state is the restarted download. |
| InitialSetupView.OnProgress | AudioTranscriber/Views/InitialSetupView.swift:165-168 | Only a Float payload changes the progress. |
| InitialSetupView.OnFailure | AudioTranscriber/Views/InitialSetupView.swift:175-183 | A failure stops downloading and shows an error. A String payload becomes the message and the details; otherwise the fixed message is shown and the details are kept. |
| InitialSetupView.OnSuccess | AudioTranscriber/Views/InitialSetupView.swift:190-195 | A success ends downloading with no error, started, the success message and the progress kept. |
| InitialSetupView.HandlersIdempotent | AudioTranscriber/Views/InitialSetupView.swift:160-198 | Each handler run twice equals one run, so a doubled registration has no further effect. |
| InitialSetupView.PanelAfterEvents | AudioTranscriber/Views/InitialSetupView.swift:37-99 | A fresh model shows the start panel and a started download the progress panel. A failure shows the error panel and a success the completed panel. Progress never changes the panel. |
| InitialSetupView.PanelStableUnderProgress | AudioTranscriber/Views/InitialSetupView.swift:165-168 | Any series of progress reports leaves the panel and the message as they were. |
| InitialSetupView.SetupViewModel.constructor | AudioTranscriber/Views/InitialSetupView.swift:146-154 | Starts in the initial state with no observer. |
| InitialSetupView.SetupViewModel.SetupNotifications | AudioTranscriber/Views/InitialSetupView.swift:160-198 | Appends exactly the three observers. |
| InitialSetupView.SetupViewModel.CleanupNotifications | AudioTranscriber/Views/InitialSetupView.swift:200-205 | Empties the observer list. |
| InitialSetupView.SetupViewModel.ProgressReceived | AudioTranscriber/Views/InitialSetupView.swift:162-169 | The progress handler runs only while its observer is registered. |
| InitialSetupView.SetupViewModel.FailureReceived | AudioTranscriber/Views/InitialSetupView.swift:172-184 | The failure handler runs only while its observer is registered. |
| InitialSetupView.SetupViewModel.SuccessReceived | AudioTranscriber/Views/InitialSetupView.swift:187-195 | The success handler runs only while its observer is registered. |
| InitialSetupView.SetupViewModel.DownloadModel | AudioTranscriber/Views/InitialSetupView.swift:207-213 | The new state is the started download, and the observers are kept. |
| InitialSetupView.SetupViewModel.ResetAndRedownloadModel | AudioTranscriber/Views/InitialSetupView.swift:215-221 | The new state is the restarted download, and the observers are kept. |

## Left out

- I/O is left out: file copying, security-scoped access, `text.write`, `AVAudioPlayer`, `AVAsset` and `AVPlayer`. What each gives is a parameter (`copied`, `accessGranted`, `PlayerLoad`, `VideoLoad`, `VideoProbe`). The text that would be written is returned.
- The WhisperKit engine (construction, `loadModels`, `transcribe`, `recommendedModels`) is an oracle passed in. So is the engine configuration, which only sets model name, repository and logging. The same goes for the decode options, which hard-code `"ja"` and temperature 0.
- Concurrency is left out. `Task { @MainActor }` hops, `async`/`await` and `DispatchQueue.main.async` are treated as running in order, inside the method that starts them. With deferred hops, `resetAll` could run its rewind after the duration is zeroed. The progress would then be NaN, which the model does not show.
- The timers are explicit event methods. The clock timer runs exactly while `isPlaying`, and the auto-scroll timer's pending state is a field. Timer invalidation and `[weak self]` are not modelled.
- NotificationCenter is left out. Posts to other observers (`TranscriptionError`, the first view model's `WhisperModelDownloadNeeded` post) and the `deinit` cleanup are not modelled. The first view model's two observers are always registered, so their handlers are plain methods.
- Floating point is left out.
  - `Playback.Progress`: division by a zero duration gives 0 rather than infinity or NaN.
  - Double rounding of `truncatingRemainder` and of `Int(progress * 100)` is not modelled. `Int` of a value out of range traps in Swift, which is not modelled either.
  - `Float` progress is a `real`.
- The time stamp lemmas (`Timestamps.ExportStamp`, `Timestamps.SaveStamp`, `Timestamps.Fields`) are stated for non-negative times, the only times a player or the engine reports. The formatting functions themselves follow Swift's truncation for negative times too.
- `lowercased()` is modelled on ASCII letters only, and whitespace trimming on the ASCII and common Unicode spaces. File extensions and engine text outside that range are not case-folded.
- `removeTagsFromText` is modelled as the regular expression `<[^>]+>`, scanned left to right. The branch where the pattern fails to compile cannot happen for this constant pattern and is not modelled.
- `currentModel()`, `supportedModel()`, `currentModelName` and `supportedModels` of the latest view model's manager interface are not modelled. They only pass names through, and the manager in this repository does not define `currentModel()`.
- `TranscribeScreen.TranscriptionViewModel.TranscribeAudio`: the `.unknown` branch is not reachable. The modelled manager throws only `WhisperError`s, so `error` never changes there.
- The first view model calls `transcribeAudio(url:completion:)`, which the manager in this repository does not define. Its completion is the `TranscriptionCompleted` event, with the result as a parameter.
- The second view model's video path always has a player item (`AVPlayer(playerItem:)` keeps the item it is given). A `CMTime` duration is a `real` parameter.
- URLs are reduced to their last path component and extension. The temporary copy has the same two components, so the copied URL is the dropped one.
- `NSItemProvider` loading is reduced to the URL it yields, if any. Converting `Data` or a `String` to a URL is part of that input.
- `SupportMediaType.allCasesAsUTType` is left out because it is a UTType conversion. `L10n` strings are left out too: `NativeName` takes the `auto` label as a parameter.
- Languages.Prefix2 takes two Unicode scalars, where Swift's `prefix(2)` takes two grapheme clusters. They differ only when a combining mark follows the first letters, which the locale ids of `Locale.preferredLanguages` never contain.
- The date in `createDefaultFilename` comes from a clock and is a parameter.
- SwiftUI views and layout are left out. The scroll heuristic in the transcript view reaches the model only as the `AutoScrollDisabled` event.
- Search filtering, audio extraction from video, language selection in the engine adapter, and merging of repeated fragments are not in the code, so they are not in the model.
