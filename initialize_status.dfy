/** `WhisperInitializeStatus`: the stages of bringing the engine up, and the
    text shown for each. */
module InitializeStatus {
  import opened Platform

  /** Only the downloading stage carries a value, the download progress as a
      fraction. */
  datatype WhisperInitializeStatus =
    | Uninitialized
    | CheckingModel
    | DownloadingModel(progress: real)
    | LoadingModel
    | Ready

  const DownloadingPrefix: string := "モデルをダウンロード中... "

  /** `description`. The percentage is `Int(progress * 100)`, truncated toward
      zero. */
  function Description(s: WhisperInitializeStatus): string {
    match s
    case Uninitialized => "WhisperKitが初期化されていません"
    case CheckingModel => "モデルを確認中..."
    case DownloadingModel(progress) => DownloadingPrefix + FormatInt(Trunc(progress * 100.0), 0) + "%"
    case LoadingModel => "モデルを読み込み中..."
    case Ready => "WhisperKitが準備完了"
  }

  /** The text tells the stages apart: two statuses with the same description
      are the same fixed stage, or both downloading. */
  lemma DescriptionDistinguishesStages(a: WhisperInitializeStatus, b: WhisperInitializeStatus)
    requires Description(a) == Description(b)
    ensures a.DownloadingModel? <==> b.DownloadingModel?
    ensures !a.DownloadingModel? ==> a == b
  {
    if a.DownloadingModel? {
      DownloadingShape(a.progress);
    }
    if b.DownloadingModel? {
      DownloadingShape(b.progress);
    }
  }

  lemma DownloadingShape(progress: real)
    ensures |Description(DownloadingModel(progress))| > 4
    ensures Description(DownloadingModel(progress))[4] == 'ダ'
    ensures Description(DownloadingModel(progress))[0] == 'モ'
  {
    var d := Description(DownloadingModel(progress));
    assert d[..|DownloadingPrefix|] == DownloadingPrefix;
  }

  /** While downloading a non-negative fraction, the text shows the whole
      percentage: `progress * 100` cut down to an integer, in decimal, then
      "%". */
  lemma DownloadingPercent(progress: real) returns (percent: nat)
    requires 0.0 <= progress
    ensures Description(DownloadingModel(progress)) == DownloadingPrefix + Digits(percent) + "%"
    ensures percent as real <= progress * 100.0 < percent as real + 1.0
    ensures DecimalValue(Digits(percent)) == percent
  {
    percent := Trunc(progress * 100.0);
    DigitsValue(percent);
  }
}
