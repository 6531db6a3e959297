/** `SupportMediaType`: every audio and video extension the app knows, and the
    video subset. */
module MediaTypes {
  import opened Platform
  import AudioTypes

  datatype SupportMediaType = Mp3 | Wav | Aac | Flac | M4a | Mp4 | Mov | M4v | Avi | Mkv | Webm | Flv

  /** `allCases`, in declaration order. */
  const AllCases: seq<SupportMediaType> := [Mp3, Wav, Aac, Flac, M4a, Mp4, Mov, M4v, Avi, Mkv, Webm, Flv]

  /** `allVideoTypes`. */
  const AllVideoTypes: seq<SupportMediaType> := [Mp4, Mov, M4v, Avi, Mkv, Webm, Flv]

  function RawValue(t: SupportMediaType): string {
    match t
    case Mp3 => "mp3"
    case Wav => "wav"
    case Aac => "aac"
    case Flac => "flac"
    case M4a => "m4a"
    case Mp4 => "mp4"
    case Mov => "mov"
    case M4v => "m4v"
    case Avi => "avi"
    case Mkv => "mkv"
    case Webm => "webm"
    case Flv => "flv"
  }

  /** `SupportMediaType(rawValue:)`. */
  function FromRawValue(s: string): (r: Option<SupportMediaType>)
    ensures r.Some? ==> RawValue(r.value) == s
    ensures r.None? ==> forall t :: RawValue(t) != s
  {
    if s == "mp3" then Some(Mp3)
    else if s == "wav" then Some(Wav)
    else if s == "aac" then Some(Aac)
    else if s == "flac" then Some(Flac)
    else if s == "m4a" then Some(M4a)
    else if s == "mp4" then Some(Mp4)
    else if s == "mov" then Some(Mov)
    else if s == "m4v" then Some(M4v)
    else if s == "avi" then Some(Avi)
    else if s == "mkv" then Some(Mkv)
    else if s == "webm" then Some(Webm)
    else if s == "flv" then Some(Flv)
    else None
  }

  /** The twelve cases are listed once each; every raw value is lower-case and
      reads back as its case, so the raw values are pairwise distinct. */
  lemma Cases(t: SupportMediaType)
    ensures |AllCases| == 12 && t in AllCases
    ensures forall i, j :: 0 <= i < j < |AllCases| ==> AllCases[i] != AllCases[j]
    ensures IsLowercase(RawValue(t))
    ensures FromRawValue(RawValue(t)) == Some(t)
  {
  }

  /** `allVideoTypes` has seven cases, no duplicates, and each is a case of the
      enum. */
  lemma VideoTypes()
    ensures |AllVideoTypes| == 7
    ensures forall i, j :: 0 <= i < j < |AllVideoTypes| ==> AllVideoTypes[i] != AllVideoTypes[j]
    ensures forall t :: t in AllVideoTypes ==> t in AllCases
  {
  }

  /** The cases outside `allVideoTypes` are exactly the `SupportAudioType`
      cases, raw value for raw value. */
  lemma NonVideoIsAudio(t: SupportMediaType)
    ensures t !in AllVideoTypes <==> AudioTypes.FromRawValue(RawValue(t)).Some?
  {
  }

  /** ... and every `SupportAudioType` is a non-video media type. */
  lemma AudioIsNonVideo(a: AudioTypes.SupportAudioType)
    ensures FromRawValue(AudioTypes.RawValue(a)).Some?
    ensures FromRawValue(AudioTypes.RawValue(a)).value !in AllVideoTypes
  {
  }
}
