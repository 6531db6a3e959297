/** `WhisperManager`: the service that brings up the speech-recognition engine
    and turns what the engine returns into transcript segments.

    The engine (construction from a configuration, `loadModels`, `transcribe`)
    is a foreign library. Each call to it is an oracle whose outcome the
    caller passes in: `EngineSetup` for construction plus model loading and
    `EngineRun` for one transcription. */
module WhisperService {
  import opened Platform
  import opened Segments
  import opened WhisperErrors

  /** The language the engine is asked to transcribe; the service hard-codes
      Japanese. */
  const Language: string := "ja"

  /** The repository the engine downloads its models from. */
  const ModelRepo: string := "argmaxinc/whisperkit-coreml"

  /** The file extensions `transcribe` accepts, compared after lower-casing. */
  const SupportedFormats: seq<string> := ["wav", "mp3", "m4a", "flac", "mp4"]

  /** An engine instance, identified by the oracle. */
  type EngineHandle = nat

  /** One segment of an engine result. */
  datatype EngineSegment = EngineSegment(text: string, start: real, end: real)

  datatype EngineResult = EngineResult(segments: seq<EngineSegment>)

  /** What constructing the engine and then loading its models gives. */
  datatype EngineSetup = ConstructionFailed | LoadModelsFailed | Loaded(engine: EngineHandle)

  /** What one engine transcription gives: an error or a list of results. */
  datatype EngineRun = RunFailed | Ran(results: seq<EngineResult>)

  // ---------------------------------------------------------------------------
  // Tag removal: the regular expression `<[^>]+>` replaced by ""

  /** A match of `<[^>]+>` starts at `i`: a `<`, then at least one character
      before the first `>` after it. */
  predicate TagAt(s: string, i: nat) {
    i + 2 < |s| && s[i] == '<' && s[i + 1] != '>' && '>' in s[i + 2..]
  }

  /** No match of the pattern starts anywhere in `s`. */
  predicate NoTags(s: string) {
    forall i :: 0 <= i < |s| ==> !TagAt(s, i)
  }

  /** The index of the first `>` at or after `from`. */
  function CloseIndex(s: string, from: nat): (k: nat)
    requires from <= |s| && '>' in s[from..]
    ensures from <= k < |s| && s[k] == '>'
    ensures forall j :: from <= j < k ==> s[j] != '>'
    decreases |s| - from
  {
    if s[from] == '>' then from
    else
      assert s[from..] == [s[from]] + s[from + 1..];
      CloseIndex(s, from + 1)
  }

  /** `removeTagsFromText`: scanning left to right, every match of `<[^>]+>`
      (a `<` up to the first `>` after it, with something in between) is
      deleted, and the scan resumes after it; any other character is kept.
      The result keeps a subsequence of the text's characters. */
  function RemoveTagsFromText(s: string): (r: string)
    ensures |r| <= |s|
    ensures forall i :: 0 <= i < |r| ==> r[i] in s
    decreases |s|
  {
    if s == [] then []
    else if TagAt(s, 0) then
      var k := CloseIndex(s, 2);
      var r := RemoveTagsFromText(s[k + 1..]);
      assert forall i :: 0 <= i < |r| ==> r[i] in s by {
        forall i | 0 <= i < |r| ensures r[i] in s {
          var c := r[i];
          assert c in s[k + 1..];
        }
      }
      r
    else
      var r := RemoveTagsFromText(s[1..]);
      assert forall i :: 0 <= i < |r| ==> r[i] in s by {
        forall i | 0 <= i < |r| ensures r[i] in s {
          var c := r[i];
          assert c in s[1..];
        }
      }
      [s[0]] + r
  }

  /** A text without a match is returned as it is. */
  lemma {:induction false} NoTagsUnchanged(s: string)
    requires NoTags(s)
    ensures RemoveTagsFromText(s) == s
    decreases |s|
  {
    if s != [] {
      assert !TagAt(s, 0);
      var t := s[1..];
      forall i | 0 <= i < |t| ensures !TagAt(t, i) {
        assert !TagAt(s, i + 1);
        if i + 2 < |t| { assert t[i + 2..] == s[i + 3..]; }
      }
      NoTagsUnchanged(t);
    }
  }

  /** In particular, text with no `<` is returned unchanged. */
  lemma NoOpenUnchanged(s: string)
    requires '<' !in s
    ensures RemoveTagsFromText(s) == s
  {
    forall i | 0 <= i < |s| ensures !TagAt(s, i) {
      assert s[i] in s;
    }
    NoTagsUnchanged(s);
  }

  /** The result contains no match, so removing tags a second time changes
      nothing. */
  lemma {:induction false} RemoveTagsLeavesNone(s: string)
    ensures NoTags(RemoveTagsFromText(s))
    ensures RemoveTagsFromText(RemoveTagsFromText(s)) == RemoveTagsFromText(s)
    decreases |s|
  {
    var r := RemoveTagsFromText(s);
    if s == [] {
    } else if TagAt(s, 0) {
      var k := CloseIndex(s, 2);
      RemoveTagsLeavesNone(s[k + 1..]);
    } else {
      var t := s[1..];
      var rt := RemoveTagsFromText(t);
      RemoveTagsLeavesNone(t);
      assert r == [s[0]] + rt;
      forall i | 0 <= i < |r| ensures !TagAt(r, i) {
        if i == 0 {
          FirstKept(s, t, rt);
        } else {
          assert r[i..] == rt[i - 1..];
          assert !TagAt(rt, i - 1);
        }
      }
    }
    NoTagsUnchanged(r);
  }

  /** The first character of the result never starts a match when the first
      character of the text does not. */
  lemma FirstKept(s: string, t: string, rt: string)
    requires s != [] && !TagAt(s, 0) && t == s[1..] && rt == RemoveTagsFromText(t)
    ensures !TagAt([s[0]] + rt, 0)
  {
    var r := [s[0]] + rt;
    if s[0] == '<' && t != [] {
      if t[0] == '>' {
        assert !TagAt(t, 0);
        assert rt[0] == '>';
      } else {
        // No `>` follows the `<`, so none is kept after it either.
        assert '>' !in s[2..];
        forall j | 0 <= j < |t| ensures t[j] != '>' {
          if j > 0 { assert t[j] == s[2..][j - 1]; }
        }
        forall j | 0 <= j < |rt| ensures rt[j] != '>' {
          assert rt[j] in t;
        }
        assert '>' !in r[2..] by {
          forall j | 2 <= j < |r| ensures r[j] != '>' {
            assert r[j] == rt[j - 1];
          }
        }
      }
    }
  }

  /** `<>` has nothing between the brackets and survives; a real tag goes. */
  lemma RemoveTagsExamples()
    ensures RemoveTagsFromText("<>") == "<>"
    ensures RemoveTagsFromText("a<b>c") == "ac"
    ensures RemoveTagsFromText("x<y") == "x<y"
  {
    assert !TagAt("<>", 0);
    assert "<>"[1..] == ">";
    assert ">"[1..] == [];
    assert !TagAt("a<b>c", 0);
    assert "a<b>c"[1..] == "<b>c";
    assert TagAt("<b>c", 0) by { assert "<b>c"[2..] == ">c"; }
    assert CloseIndex("<b>c", 2) == 2;
    assert "<b>c"[3..] == "c";
    assert "c"[1..] == [];
    NoOpenUnchanged("x<y"[2..]);
    NoTagsUnchanged("x<y");
  }

  /** The text of a segment: tags removed, then surrounding whitespace and
      newlines trimmed. */
  function CleanText(raw: string): string {
    Trimmed(RemoveTagsFromText(raw))
  }

  /** A cleaned text holds no tag and neither starts nor ends with whitespace. */
  lemma CleanTextIsClean(raw: string)
    ensures NoTags(CleanText(raw))
    ensures CleanText(raw) != [] ==> !IsWhitespace(CleanText(raw)[0])
    ensures CleanText(raw) != [] ==> !IsWhitespace(CleanText(raw)[|CleanText(raw)| - 1])
  {
    var r := RemoveTagsFromText(raw);
    RemoveTagsLeavesNone(raw);
    var i, j := TrimmedIsCore(r);
    SliceKeepsNoTags(r, i, j);
  }

  /** A slice of a text without matches has none either. */
  lemma SliceKeepsNoTags(r: string, i: nat, j: nat)
    requires NoTags(r) && i <= j <= |r|
    ensures NoTags(r[i..j])
  {
    var c := r[i..j];
    forall k | 0 <= k < |c| ensures !TagAt(c, k) {
      assert !TagAt(r, i + k);
      if k + 2 < |c| {
        var d, e := c[k + 2..], r[i + k + 2..];
        forall m | 0 <= m < |d| ensures d[m] in e {
          assert d[m] == e[m];
        }
      }
    }
  }

  // ---------------------------------------------------------------------------
  // Format check and the mapping of engine results

  /** `supportedFormats.contains(url.pathExtension.lowercased())`. */
  predicate IsSupportedFormat(pathExtension: string) {
    Lowercased(pathExtension) in SupportedFormats
  }

  /** The check ignores case; aac and the video containers other than mp4 are
      refused. */
  lemma SupportedFormatExamples()
    ensures IsSupportedFormat("MP3") && IsSupportedFormat("mp4") && IsSupportedFormat("flac")
    ensures !IsSupportedFormat("aac") && !IsSupportedFormat("mov") && !IsSupportedFormat("")
  {
    assert Lowercased("MP3") == "mp3";
    assert Lowercased("mp4") == "mp4";
    assert Lowercased("flac") == "flac";
    assert Lowercased("aac") == "aac";
    assert Lowercased("mov") == "mov";
    assert Lowercased("") == "";
  }

  /** The segments built from the engine segments `raw`, the i-th with the id
      `firstId + i` that the i-th `UUID()` call returns. */
  function SegmentsFrom(raw: seq<EngineSegment>, firstId: Uuid): seq<TranscriptSegment> {
    seq(|raw|, i requires 0 <= i < |raw| =>
      TranscriptSegment(firstId + i, CleanText(raw[i].text), raw[i].start, raw[i].end))
  }

  /** One segment per engine segment, in the same order, with the times copied
      and the text cleaned; ids are fresh and pairwise distinct, so nothing is
      merged, even fragments with equal text and times. Mapping a concatenation
      maps the parts. */
  lemma SegmentsFromShape(raw: seq<EngineSegment>, more: seq<EngineSegment>, firstId: Uuid)
    ensures |SegmentsFrom(raw, firstId)| == |raw|
    ensures forall i :: 0 <= i < |raw| ==>
      var s := SegmentsFrom(raw, firstId)[i];
      s.text == CleanText(raw[i].text) && s.startTime == raw[i].start && s.endTime == raw[i].end
    ensures forall i, j :: 0 <= i < j < |raw| ==> SegmentsFrom(raw, firstId)[i].id != SegmentsFrom(raw, firstId)[j].id
    ensures forall i :: 0 <= i < |raw| ==> firstId <= SegmentsFrom(raw, firstId)[i].id < firstId + |raw|
    ensures SegmentsFrom(raw + more, firstId) == SegmentsFrom(raw, firstId) + SegmentsFrom(more, firstId + |raw|)
  {
  }

  /** What `transcribeAudio` returns for an engine outcome: a failed run is
      `transcriptionFailed`, no result is `[]`, otherwise the first result's
      segments are mapped and any later result is ignored. */
  function MapRun(run: EngineRun, firstId: Uuid): Result<seq<TranscriptSegment>, WhisperError> {
    match run
    case RunFailed => Failure(TranscriptionFailed)
    case Ran(results) =>
      if results == [] then Success([]) else Success(SegmentsFrom(results[0].segments, firstId))
  }

  /** What `setupWhisperIfNeeded` does to the held engine, and what it throws
      (None when it returns normally). */
  function SetupStep(held: Option<EngineHandle>, isLoading: bool, setup: EngineSetup)
    : (r: (Option<EngineHandle>, Option<WhisperError>))
    ensures r.1 == None || r.1 == Some(FailedToInitialize)
    ensures r.1.Some? ==> r.0 == held
    ensures r.0 != held ==> setup.Loaded? && r.0 == Some(setup.engine)
    ensures held.None? && isLoading ==> r == (held, None)
    ensures !(held.None? && isLoading) ==> (r.1.None? <==> setup.Loaded?)
  {
    if held.None? && isLoading then (held, None)
    else match setup
      case Loaded(engine) => (Some(engine), None)
      case _ => (held, Some(FailedToInitialize))
  }

  /** What `transcribe(url:)` leaves as the held engine and returns. */
  function TranscribeStep(held: Option<EngineHandle>, isLoading: bool, setup: EngineSetup, url: Url,
                          run: EngineRun, firstId: Uuid)
    : (Option<EngineHandle>, Result<seq<TranscriptSegment>, WhisperError>)
  {
    var (engine, thrown) := SetupStep(held, isLoading, setup);
    if thrown.Some? then (engine, Failure(thrown.value))
    else if !IsSupportedFormat(url.pathExtension) then (engine, Failure(UnsupportedFormat))
    else if engine.None? then (engine, Failure(Uninitialized))
    else (engine, MapRun(run, firstId))
  }

  /** A failed setup is reported before the format is looked at, so an
      unsupported file still fails with `failedToInitialize`. */
  lemma SetupFailureComesFirst(held: Option<EngineHandle>, isLoading: bool, setup: EngineSetup, url: Url,
                               run: EngineRun, firstId: Uuid)
    requires !(held.None? && isLoading) && !setup.Loaded?
    ensures TranscribeStep(held, isLoading, setup, url, run, firstId) == (held, Failure(FailedToInitialize))
  {
  }

  /** Once set up, a file whose lower-cased extension is not in the list is
      refused with `unsupportedFormat` and the engine is not run. */
  lemma UnsupportedFormatRefused(held: Option<EngineHandle>, isLoading: bool, setup: EngineSetup, url: Url,
                                 run: EngineRun, firstId: Uuid)
    requires SetupStep(held, isLoading, setup).1.None? && !IsSupportedFormat(url.pathExtension)
    ensures TranscribeStep(held, isLoading, setup, url, run, firstId).1 == Failure(UnsupportedFormat)
  {
  }

  /** `uninitialized` is thrown only when setup returned early (no engine while
      loading); the engine outcome then plays no part. */
  lemma UninitializedOnlyWhileLoading(held: Option<EngineHandle>, isLoading: bool, setup: EngineSetup, url: Url,
                                      run: EngineRun, other: EngineRun, firstId: Uuid)
    requires TranscribeStep(held, isLoading, setup, url, run, firstId).1 == Failure(Uninitialized)
    ensures held.None? && isLoading
    ensures TranscribeStep(held, isLoading, setup, url, other, firstId).1 == Failure(Uninitialized)
  {
  }

  /** With `isLoading` false, as it always is, a supported file whose setup
      succeeds is transcribed by the engine that setup just loaded. */
  lemma TranscribeUsesFreshEngine(held: Option<EngineHandle>, engine: EngineHandle, url: Url,
                                  run: EngineRun, firstId: Uuid)
    requires IsSupportedFormat(url.pathExtension)
    ensures TranscribeStep(held, false, Loaded(engine), url, run, firstId) == (Some(engine), MapRun(run, firstId))
  {
  }

  /** Setup is not idempotent: with an engine already held it runs again, a
      second success replaces the engine and a second failure is reported even
      though an engine is held. */
  lemma SetupNotIdempotent(engine: EngineHandle, other: EngineHandle)
    requires engine != other
    ensures SetupStep(Some(engine), false, Loaded(other)) == (Some(other), None)
    ensures SetupStep(Some(engine), false, LoadModelsFailed) == (Some(engine), Some(FailedToInitialize))
  {
  }

  /** Three engine fragments with the same text stay three segments, in order;
      only the first result is read. */
  lemma NoMerging(firstId: Uuid)
    ensures var frag := EngineSegment(" hello", 0.0, 1.0);
      var run := Ran([EngineResult([frag, frag, frag]), EngineResult([])]);
      MapRun(run, firstId).Success? && |MapRun(run, firstId).value| == 3
      && MapRun(run, firstId).value[0].text == MapRun(run, firstId).value[2].text
      && MapRun(run, firstId).value[0].id != MapRun(run, firstId).value[2].id
  {
  }

  // ---------------------------------------------------------------------------
  // The service object

  class WhisperManager {
    /** The engine, once one was constructed and loaded. */
    var whisperKit: Option<EngineHandle>
    /** Never set to true by any method. */
    var isLoading: bool
    /** Where `UUID()` draws from. */
    const uuids: UuidSource

    constructor (uuids: UuidSource)
      ensures whisperKit == None && !isLoading && this.uuids == uuids
    {
      whisperKit := None;
      isLoading := false;
      this.uuids := uuids;
    }

    /** `setupWhisperIfNeeded`: returns at once only when no engine is held and
        a load is in progress; otherwise builds and loads a new engine, keeps it
        only when both steps succeed, and throws `failedToInitialize` if either
        fails, leaving the held engine as it was. */
    method SetupWhisperIfNeeded(setup: EngineSetup) returns (thrown: Option<WhisperError>)
      modifies this
      ensures (whisperKit, thrown) == SetupStep(old(whisperKit), old(isLoading), setup)
      ensures isLoading == old(isLoading)
    {
      if whisperKit.None? && isLoading {
        return None;
      }
      match setup
      case Loaded(engine) =>
        whisperKit := Some(engine);
        thrown := None;
      case _ =>
        thrown := Some(FailedToInitialize);
    }

    /** `transcribe(url:)`: setup first, then the format check, then the engine;
        on success the new segments' ids are the next ones the UUID source
        issues. */
    method Transcribe(url: Url, setup: EngineSetup, run: EngineRun)
      returns (r: Result<seq<TranscriptSegment>, WhisperError>)
      modifies this, uuids
      ensures (whisperKit, r) == TranscribeStep(old(whisperKit), old(isLoading), setup, url, run, old(uuids.next))
      ensures isLoading == old(isLoading)
      ensures uuids.next == old(uuids.next) + (if r.Success? then |r.value| else 0)
    {
      var thrown := SetupWhisperIfNeeded(setup);
      if thrown.Some? {
        return Failure(thrown.value);
      }
      var fileExtension := Lowercased(url.pathExtension);
      if fileExtension !in SupportedFormats {
        return Failure(UnsupportedFormat);
      }
      if whisperKit.None? {
        return Failure(Uninitialized);
      }
      r := TranscribeAudio(run);
    }

    /** `transcribeAudio(whisperKit:url:)`: maps the first engine result segment
        by segment, each becoming a new segment with a fresh id; an engine
        error becomes `transcriptionFailed`. */
    method TranscribeAudio(run: EngineRun) returns (r: Result<seq<TranscriptSegment>, WhisperError>)
      modifies uuids
      ensures r == MapRun(run, old(uuids.next))
      ensures uuids.next == old(uuids.next) + (if r.Success? then |r.value| else 0)
    {
      if run.RunFailed? {
        return Failure(TranscriptionFailed);
      }
      var results := run.results;
      if results == [] {
        return Success([]);
      }
      var raw := results[0].segments;
      var segments: seq<TranscriptSegment> := [];
      var i := 0;
      while i < |raw|
        invariant 0 <= i <= |raw|
        invariant uuids.next == old(uuids.next) + i
        invariant segments == SegmentsFrom(raw[..i], old(uuids.next))
      {
        var cleanedText := RemoveTagsFromText(raw[i].text);
        var segment := NewSegment(uuids, Trimmed(cleanedText), raw[i].start, raw[i].end);
        segments := segments + [segment];
        i := i + 1;
      }
      assert raw[..i] == raw;
      r := Success(segments);
    }
  }
}
