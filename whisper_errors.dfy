/** `WhisperError`: the errors the transcription service throws, and their
    user-facing messages. */
module WhisperErrors {

  datatype WhisperError =
    | UnsupportedFormat
    | Uninitialized
    | FailedToInitialize
    | TranscriptionFailed
    | FileAccessDenied
    | FileLoadError
    | NoAudioTrackFound
    | Unknown

  /** `localizedDescription`. */
  function LocalizedDescription(e: WhisperError): (message: string)
    ensures e == UnsupportedFormat ==> message == "Unsupported audio format."
    ensures e == Uninitialized ==> message == "WhisperKit is not initialized."
    ensures |message| >= 19 && message[|message| - 1] == '.'
  {
    match e
    case UnsupportedFormat => "Unsupported audio format."
    case Uninitialized => "WhisperKit is not initialized."
    case FailedToInitialize => "Failed to initialize WhisperKit."
    case TranscriptionFailed => "Transcription failed."
    case FileAccessDenied => "File access denied."
    case FileLoadError => "Failed to load the audio file."
    case NoAudioTrackFound => "No audio track found in the file."
    case Unknown => "An unknown error occurred."
  }

  /** Distinct errors show distinct messages, so the message identifies the
      error. */
  lemma DescriptionInjective(a: WhisperError, b: WhisperError)
    requires LocalizedDescription(a) == LocalizedDescription(b)
    ensures a == b
  {
  }
}
