/** `SetupViewModel` of the first-launch view: the same flags as the setup
    screen, moved by three notifications the view model observes between
    `setupNotifications()` and `cleanupNotifications()`, and the panel the
    view picks from them. */
module InitialSetupView {
  import opened Platform
  import opened SetupFlags

  const FailureMessage: string := "モデルのダウンロードに失敗しました。\nネットワーク接続を確認してください。"
  const SuccessMessage: string := "モデルのダウンロードに成功しました！"
  const ErrorPrefix: string := "エラー: "

  /** The value under a notification's user-info key, as the handlers' casts
      see it: a Float, a String, or anything else (including no value). */
  datatype Payload = FloatValue(value: real) | StringValue(text: string) | NoValue

  /** The three observers `setupNotifications()` registers, by the
      notification each one handles. */
  datatype Observer = ProgressObserver | FailureObserver | SuccessObserver

  /** The `WhisperModelDownloadProgress` handler: takes a Float progress and
      ignores anything else. */
  function OnProgress(s: SetupState, progress: Payload): (t: SetupState)
    ensures progress.FloatValue? ==> t == s.(downloadProgress := progress.value)
    ensures !progress.FloatValue? ==> t == s
  {
    match progress
    case FloatValue(p) => s.(downloadProgress := p)
    case _ => s
  }

  /** The `WhisperModelDownloadFailed` handler: stops downloading and shows an
      error; a String payload is shown after "エラー: " and kept as the details,
      otherwise the fixed message is shown and the details are kept. */
  function OnFailure(s: SetupState, error: Payload): (t: SetupState)
    ensures !t.isDownloading && t.isError
    ensures t.hasStarted == s.hasStarted && t.downloadProgress == s.downloadProgress
    ensures error.StringValue? ==> t.statusMessage == ErrorPrefix + error.text && t.errorDetails == Some(error.text)
    ensures !error.StringValue? ==> t.statusMessage == FailureMessage && t.errorDetails == s.errorDetails
  {
    var stopped := s.(isDownloading := false, isError := true);
    match error
    case StringValue(e) => stopped.(statusMessage := ErrorPrefix + e, errorDetails := Some(e))
    case _ => stopped.(statusMessage := FailureMessage)
  }

  /** The `WhisperModelLoaded` handler: done, no error, started, with the
      success message; progress and details are kept. */
  function OnSuccess(s: SetupState): (t: SetupState)
    ensures !t.isDownloading && !t.isError && t.hasStarted && t.statusMessage == SuccessMessage
    ensures t.downloadProgress == s.downloadProgress && t.errorDetails == s.errorDetails
  {
    s.(isDownloading := false, isError := false, hasStarted := true, statusMessage := SuccessMessage)
  }

  /** Each handler gives the same state when it runs twice, so an observer
      registered twice (two `setupNotifications()` calls) has the effect of
      one. */
  lemma HandlersIdempotent(s: SetupState, p: Payload)
    ensures OnProgress(OnProgress(s, p), p) == OnProgress(s, p)
    ensures OnFailure(OnFailure(s, p), p) == OnFailure(s, p)
    ensures OnSuccess(OnSuccess(s)) == OnSuccess(s)
  {
  }

  /** The four panels of the first-launch view. */
  datatype Panel = DownloadingPanel | ErrorPanel | StartPanel | CompletedPanel

  /** The view's choice: downloading first, then the error, then the start
      button until a download has started, and the completed panel last. */
  function PanelFor(s: SetupState): Panel {
    if s.isDownloading then DownloadingPanel
    else if s.isError then ErrorPanel
    else if !s.hasStarted then StartPanel
    else CompletedPanel
  }

  /** What each event shows: a fresh view model the start button, a started
      download the progress panel, a failure the error panel, a success the
      completed panel; progress never changes the panel. */
  lemma PanelAfterEvents(s: SetupState, p: Payload)
    ensures PanelFor(Initial) == StartPanel
    ensures PanelFor(AfterDownload(s)) == DownloadingPanel && PanelFor(AfterRedownload(s)) == DownloadingPanel
    ensures PanelFor(OnFailure(s, p)) == ErrorPanel
    ensures PanelFor(OnSuccess(s)) == CompletedPanel
    ensures PanelFor(OnProgress(s, p)) == PanelFor(s)
  {
  }

  /** Any series of progress reports, in order, leaves the panel the view
      shows and the status message as they were. */
  lemma {:induction false} PanelStableUnderProgress(s: SetupState, reports: seq<Payload>)
    ensures PanelFor(ProgressRun(s, reports)) == PanelFor(s)
    ensures ProgressRun(s, reports).statusMessage == s.statusMessage
    decreases |reports|
  {
    if reports != [] {
      PanelStableUnderProgress(OnProgress(s, reports[0]), reports[1..]);
    }
  }

  /** The state after a series of progress reports, in order. */
  function ProgressRun(s: SetupState, reports: seq<Payload>): SetupState
    decreases |reports|
  {
    if reports == [] then s else ProgressRun(OnProgress(s, reports[0]), reports[1..])
  }

  class SetupViewModel {
    var isDownloading: bool
    var isError: bool
    var hasStarted: bool
    var statusMessage: string
    var downloadProgress: real
    var errorDetails: Option<string>
    /** `notificationObservers`: the registrations, in order. */
    var observers: seq<Observer>

    function State(): SetupState
      reads this
    {
      SetupState(isDownloading, isError, hasStarted, statusMessage, downloadProgress, errorDetails)
    }

    /** Not downloading, no error, not started, progress 0, no details, and no
        observer registered. */
    constructor ()
      ensures State() == Initial && observers == []
    {
      isDownloading := false;
      isError := false;
      hasStarted := false;
      statusMessage := InitialMessage;
      downloadProgress := 0.0;
      errorDetails := None;
      observers := [];
    }

    /** `setupNotifications()`: appends the three observers. */
    method SetupNotifications()
      modifies this
      ensures observers == old(observers) + [ProgressObserver, FailureObserver, SuccessObserver]
      ensures State() == old(State())
    {
      observers := observers + [ProgressObserver, FailureObserver, SuccessObserver];
    }

    /** `cleanupNotifications()`: removes every observer. */
    method CleanupNotifications()
      modifies this
      ensures observers == [] && State() == old(State())
    {
      observers := [];
    }

    /** A `WhisperModelDownloadProgress` notification. */
    method ProgressReceived(progress: Payload)
      modifies this
      ensures State() == if ProgressObserver in old(observers) then OnProgress(old(State()), progress) else old(State())
      ensures observers == old(observers)
    {
      if ProgressObserver in observers {
        match progress {
          case FloatValue(p) =>
            downloadProgress := p;
          case _ =>
        }
      }
    }

    /** A `WhisperModelDownloadFailed` notification. */
    method FailureReceived(error: Payload)
      modifies this
      ensures State() == if FailureObserver in old(observers) then OnFailure(old(State()), error) else old(State())
      ensures observers == old(observers)
    {
      if FailureObserver in observers {
        isDownloading := false;
        isError := true;
        match error {
          case StringValue(e) =>
            statusMessage := ErrorPrefix + e;
            errorDetails := Some(e);
          case _ =>
            statusMessage := FailureMessage;
        }
      }
    }

    /** A `WhisperModelLoaded` notification. */
    method SuccessReceived()
      modifies this
      ensures State() == if SuccessObserver in old(observers) then OnSuccess(old(State())) else old(State())
      ensures observers == old(observers)
    {
      if SuccessObserver in observers {
        isDownloading := false;
        isError := false;
        hasStarted := true;
        statusMessage := SuccessMessage;
      }
    }

    /** `downloadModel()`. */
    method DownloadModel()
      modifies this
      ensures State() == AfterDownload(old(State())) && observers == old(observers)
    {
      isDownloading := true;
      hasStarted := true;
      isError := false;
      downloadProgress := 0.0;
      statusMessage := DownloadMessage;
    }

    /** `resetAndRedownloadModel()`. */
    method ResetAndRedownloadModel()
      modifies this
      ensures State() == AfterRedownload(old(State())) && observers == old(observers)
    {
      isDownloading := true;
      hasStarted := true;
      isError := false;
      downloadProgress := 0.0;
      statusMessage := RedownloadMessage;
    }
  }
}
