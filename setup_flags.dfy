/** The published flags both `SetupViewModel` classes keep while the speech
    model is fetched, the messages they show, and the transitions both of them
    perform when a download is started or restarted. */
module SetupFlags {
  import opened Platform

  /** `isDownloading`, `isError`, `hasStarted`, `statusMessage`,
      `downloadProgress` (a Float) and `errorDetails`. */
  datatype SetupState = SetupState(
    isDownloading: bool,
    isError: bool,
    hasStarted: bool,
    statusMessage: string,
    downloadProgress: real,
    errorDetails: Option<string>)

  const InitialMessage: string := "モデルをダウンロードしています..."
  const DownloadMessage: string := "Whisperモデルをダウンロードしています...\nこれには数分かかる場合があります"
  const RedownloadMessage: string := "モデルファイルをリセットし、再ダウンロードしています...\nこれには数分かかる場合があります"

  /** The state a fresh view model publishes. */
  const Initial: SetupState := SetupState(false, false, false, InitialMessage, 0.0, None)

  /** `downloadModel()`: downloading, started, no error, progress back to 0. */
  function AfterDownload(s: SetupState): (t: SetupState)
    ensures t.isDownloading && t.hasStarted && !t.isError && t.downloadProgress == 0.0
    ensures t.statusMessage == DownloadMessage && t.errorDetails == s.errorDetails
  {
    s.(isDownloading := true, hasStarted := true, isError := false, downloadProgress := 0.0,
       statusMessage := DownloadMessage)
  }

  /** `resetAndRedownloadModel()`: the same four flags as `downloadModel()`,
      with its own message. */
  function AfterRedownload(s: SetupState): (t: SetupState)
    ensures t.isDownloading && t.hasStarted && !t.isError && t.downloadProgress == 0.0
    ensures t.statusMessage == RedownloadMessage && t.errorDetails == s.errorDetails
  {
    s.(isDownloading := true, hasStarted := true, isError := false, downloadProgress := 0.0,
       statusMessage := RedownloadMessage)
  }

  /** The two starts differ in the message and nowhere else, and the messages
      are different; neither touches `errorDetails`. */
  lemma StartsDifferOnlyInMessage(s: SetupState)
    ensures AfterDownload(s).(statusMessage := RedownloadMessage) == AfterRedownload(s)
    ensures AfterDownload(s) != AfterRedownload(s)
  {
    assert |DownloadMessage| == 42 && |RedownloadMessage| == 46;
  }

  /** Starting twice is starting once, and what a start gives does not depend
      on the flags before it: only `errorDetails` is carried over. */
  lemma StartsIdempotent(s: SetupState, u: SetupState)
    ensures AfterDownload(AfterDownload(s)) == AfterDownload(s)
    ensures AfterRedownload(AfterRedownload(s)) == AfterRedownload(s)
    ensures AfterDownload(AfterRedownload(s)) == AfterDownload(s)
    ensures AfterRedownload(AfterDownload(s)) == AfterRedownload(s)
    ensures s.errorDetails == u.errorDetails ==> AfterDownload(s) == AfterDownload(u) && AfterRedownload(s) == AfterRedownload(u)
  {
  }
}
