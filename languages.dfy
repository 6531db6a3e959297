/** `SupportLanguage`: the transcription languages, their native names and the
    default chosen from the user's preferred languages. */
module Languages {
  import opened Platform

  datatype SupportLanguage = Auto | Ja | En | Zh | Es | Fr | De | Ru | Ar | Pt | Ko | It | Hi

  /** `allCases`, in declaration order. */
  const AllCases: seq<SupportLanguage> := [Auto, Ja, En, Zh, Es, Fr, De, Ru, Ar, Pt, Ko, It, Hi]

  /** Each raw value is the case name. */
  function RawValue(l: SupportLanguage): string {
    match l
    case Auto => "auto"
    case Ja => "ja"
    case En => "en"
    case Zh => "zh"
    case Es => "es"
    case Fr => "fr"
    case De => "de"
    case Ru => "ru"
    case Ar => "ar"
    case Pt => "pt"
    case Ko => "ko"
    case It => "it"
    case Hi => "hi"
  }

  /** `SupportLanguage(rawValue:)`. */
  function FromRawValue(s: string): (r: Option<SupportLanguage>)
    ensures r.Some? ==> RawValue(r.value) == s
    ensures r.None? ==> forall l :: RawValue(l) != s
  {
    if s == "auto" then Some(Auto)
    else if s == "ja" then Some(Ja)
    else if s == "en" then Some(En)
    else if s == "zh" then Some(Zh)
    else if s == "es" then Some(Es)
    else if s == "fr" then Some(Fr)
    else if s == "de" then Some(De)
    else if s == "ru" then Some(Ru)
    else if s == "ar" then Some(Ar)
    else if s == "pt" then Some(Pt)
    else if s == "ko" then Some(Ko)
    else if s == "it" then Some(It)
    else if s == "hi" then Some(Hi)
    else None
  }

  /** The thirteen cases are listed once each and every raw value reads back as
      its case. */
  lemma Cases(l: SupportLanguage)
    ensures |AllCases| == 13 && l in AllCases
    ensures forall i, j :: 0 <= i < j < |AllCases| ==> AllCases[i] != AllCases[j]
    ensures FromRawValue(RawValue(l)) == Some(l)
  {
  }

  /** Distinct languages have distinct raw values. */
  lemma RawValueInjective(a: SupportLanguage, b: SupportLanguage)
    requires RawValue(a) == RawValue(b)
    ensures a == b
  {
    Cases(a);
    Cases(b);
  }

  /** `nativeName`. The label of `auto` comes from the localisation table, which
      is not part of this model, so it is a parameter. */
  function NativeName(l: SupportLanguage, autoLabel: string): (name: string)
    ensures l == Auto ==> name == autoLabel
    ensures l != Auto ==> |name| >= 2
  {
    match l
    case Auto => autoLabel
    case En => "English"
    case Ja => "日本語"
    case Zh => "中文"
    case Es => "Español"
    case Fr => "Français"
    case De => "Deutsch"
    case Ru => "Русский"
    case Ar => "العربية"
    case Pt => "Português"
    case Ko => "한국어"
    case It => "Italiano"
    case Hi => "हिंदी"
  }

  /** The twelve fixed native names are pairwise distinct, so a language menu
      shows no two entries alike. */
  lemma NativeNamesDistinct(a: SupportLanguage, b: SupportLanguage, autoLabel: string)
    requires a != Auto && b != Auto && a != b
    ensures NativeName(a, autoLabel) != NativeName(b, autoLabel)
  {
  }

  /** `String(id.prefix(2))`. */
  function Prefix2(id: string): (p: string)
    ensures |p| <= 2 && |p| <= |id| && p == id[..|p|]
    ensures |id| >= 2 ==> |p| == 2
  {
    if |id| < 2 then id else id[..2]
  }

  /** The language an entry of `Locale.preferredLanguages` names, if any. */
  function Recognised(id: string): Option<SupportLanguage> {
    FromRawValue(Prefix2(id))
  }

  /** `SupportLanguage.default`: the language of the first preferred id whose
      two-character prefix is a raw value, and English when there is none. It
      is never `auto`: "auto" has four characters and a prefix at most two. */
  function Default(preferredLanguages: seq<string>): (l: SupportLanguage)
    ensures l != Auto
    decreases |preferredLanguages|
  {
    if preferredLanguages == [] then En
    else match Recognised(preferredLanguages[0])
      case Some(l) => assert RawValue(l) == Prefix2(preferredLanguages[0]); l
      case None => Default(preferredLanguages[1..])
  }

  /** An id that names a language decides the default when no earlier id does. */
  lemma {:induction false} DefaultIsFirstRecognised(preferredLanguages: seq<string>, k: nat)
    requires k < |preferredLanguages| && Recognised(preferredLanguages[k]).Some?
    requires forall j :: 0 <= j < k ==> Recognised(preferredLanguages[j]).None?
    ensures Default(preferredLanguages) == Recognised(preferredLanguages[k]).value
    decreases k
  {
    if k > 0 {
      var rest := preferredLanguages[1..];
      assert Recognised(preferredLanguages[0]).None?;
      forall j | 0 <= j < k - 1 ensures Recognised(rest[j]).None? {
        assert rest[j] == preferredLanguages[j + 1];
      }
      DefaultIsFirstRecognised(rest, k - 1);
    }
  }

  /** With no recognisable id the default is English. */
  lemma {:induction false} DefaultFallback(preferredLanguages: seq<string>)
    requires forall j :: 0 <= j < |preferredLanguages| ==> Recognised(preferredLanguages[j]).None?
    ensures Default(preferredLanguages) == En
    decreases |preferredLanguages|
  {
    if preferredLanguages != [] {
      var rest := preferredLanguages[1..];
      forall j | 0 <= j < |rest| ensures Recognised(rest[j]).None? {
        assert rest[j] == preferredLanguages[j + 1];
      }
      DefaultFallback(rest);
    }
  }

  /** Region and script suffixes are ignored, earlier ids win, and "auto"
      itself is not recognised. */
  lemma DefaultExamples()
    ensures Default(["ja-JP", "en-US"]) == Ja
    ensures Default(["zh-Hans-CN"]) == Zh
    ensures Default(["auto", "nl-NL"]) == En
    ensures Default([]) == En
  {
    assert Prefix2("ja-JP") == "ja";
    assert Prefix2("zh-Hans-CN") == "zh";
    assert Prefix2("auto") == "au";
    assert Prefix2("nl-NL") == "nl";
    assert ["auto", "nl-NL"][1..] == ["nl-NL"];
    assert ["nl-NL"][1..] == [];
  }
}
