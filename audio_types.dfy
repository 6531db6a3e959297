/** `SupportAudioType`: the audio file extensions the latest view model lets a
    user open or drop. */
module AudioTypes {
  import opened Platform

  datatype SupportAudioType = Mp3 | Wav | Aac | Flac | M4a

  /** `allCases`, in declaration order. */
  const AllCases: seq<SupportAudioType> := [Mp3, Wav, Aac, Flac, M4a]

  /** Each raw value is the case name. */
  function RawValue(t: SupportAudioType): string {
    match t
    case Mp3 => "mp3"
    case Wav => "wav"
    case Aac => "aac"
    case Flac => "flac"
    case M4a => "m4a"
  }

  /** `SupportAudioType(rawValue:)`: the case whose raw value is exactly `s`,
      with no case folding. */
  function FromRawValue(s: string): (r: Option<SupportAudioType>)
    ensures r.Some? ==> RawValue(r.value) == s
    ensures r.None? ==> forall t :: RawValue(t) != s
  {
    if s == "mp3" then Some(Mp3)
    else if s == "wav" then Some(Wav)
    else if s == "aac" then Some(Aac)
    else if s == "flac" then Some(Flac)
    else if s == "m4a" then Some(M4a)
    else None
  }

  /** Every case is listed once in `AllCases`, its raw value is lower-case and
      reads back as the case, so distinct cases have distinct raw values. */
  lemma Cases(t: SupportAudioType)
    ensures |AllCases| == 5 && t in AllCases
    ensures forall i, j :: 0 <= i < j < |AllCases| ==> AllCases[i] != AllCases[j]
    ensures IsLowercase(RawValue(t))
    ensures FromRawValue(RawValue(t)) == Some(t)
  {
  }

  /** `SupportAudioType(rawValue: url.pathExtension.lowercased()) != nil`, the
      test that `loadAudioFile` and `handleDrop` apply. */
  predicate IsSupportedExtension(pathExtension: string) {
    FromRawValue(Lowercased(pathExtension)).Some?
  }

  /** Because every raw value is lower-case, the test ignores the case of the
      extension: an extension passes exactly when its lower-cased form is one
      of the raw values. */
  lemma SupportedExtensionIgnoresCase(pathExtension: string)
    ensures IsSupportedExtension(pathExtension)
        <==> exists t :: RawValue(t) == Lowercased(pathExtension)
    ensures IsSupportedExtension(pathExtension) == IsSupportedExtension(Lowercased(pathExtension))
  {
    LowercasedIsLowercase(pathExtension);
    if IsSupportedExtension(pathExtension) {
      var t := FromRawValue(Lowercased(pathExtension)).value;
      assert RawValue(t) == Lowercased(pathExtension);
    }
  }

  /** An upper-case extension is accepted ("WAV" as "wav"), while no video
      extension is: the list holds audio extensions only. */
  lemma SupportedExamples()
    ensures IsSupportedExtension("WAV") && IsSupportedExtension("m4a") && IsSupportedExtension("aac")
    ensures !IsSupportedExtension("mp4") && !IsSupportedExtension("mov")
  {
    assert Lowercased("WAV") == "wav";
    assert Lowercased("m4a") == "m4a";
    assert Lowercased("aac") == "aac";
    assert Lowercased("mp4") == "mp4";
    assert Lowercased("mov") == "mov";
  }
}
