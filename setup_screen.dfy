/** `SetupViewModel` of the setup screen: the flags only. Neither method calls
    the manager it holds, so starting a download here changes the published
    state and nothing else. */
module SetupScreen {
  import opened Platform
  import opened SetupFlags

  class SetupViewModel {
    var isDownloading: bool
    var isError: bool
    var hasStarted: bool
    var statusMessage: string
    var downloadProgress: real
    var errorDetails: Option<string>

    function State(): SetupState
      reads this
    {
      SetupState(isDownloading, isError, hasStarted, statusMessage, downloadProgress, errorDetails)
    }

    /** Not downloading, no error, not started, progress 0, no details. */
    constructor ()
      ensures State() == Initial
    {
      isDownloading := false;
      isError := false;
      hasStarted := false;
      statusMessage := InitialMessage;
      downloadProgress := 0.0;
      errorDetails := None;
    }

    /** `downloadModel()`. */
    method DownloadModel()
      modifies this
      ensures State() == AfterDownload(old(State()))
    {
      isDownloading := true;
      hasStarted := true;
      isError := false;
      downloadProgress := 0.0;
      statusMessage := DownloadMessage;
    }

    /** `resetAndRedownloadModel()`. */
    method ResetAndRedownloadModel()
      modifies this
      ensures State() == AfterRedownload(old(State()))
    {
      isDownloading := true;
      hasStarted := true;
      isError := false;
      downloadProgress := 0.0;
      statusMessage := RedownloadMessage;
    }
  }
}
