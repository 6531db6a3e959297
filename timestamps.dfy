/** Rendering of segment start times and of whole transcripts as text.

    `formatTime` ("%d:%02d.%02d", hundredths) is the same private function in
    all three view models, and so is the line each of their `saveTranscription`
    methods appends; `formatTimeForExport` ("%02d:%02d.%03d", milliseconds) and
    the blank-line-joined export exist only in the latest view model. Every field
    comes from `Int(...)`, which truncates toward zero, and Swift's truncating
    `/` and `%`. */
module Timestamps {
  import opened Platform
  import opened Segments

  /** The fractional part `time.truncatingRemainder(dividingBy: 1)`, which is
      also `time - Double(Int(time))`. */
  function Fraction(time: real): real {
    time - Trunc(time) as real
  }

  /** `formatTimeForExport`: "MM:SS.mmm". */
  function FormatTimeForExport(time: real): string {
    var whole := Trunc(time);
    FormatInt(Quot(whole, 60), 2) + ":" + FormatInt(Rem(whole, 60), 2) + "."
      + FormatInt(Trunc(Fraction(time) * 1000.0), 3)
  }

  /** `formatTime`: "M:SS.cc". */
  function FormatTime(time: real): string {
    var whole := Trunc(time);
    FormatInt(Quot(whole, 60), 0) + ":" + FormatInt(Rem(whole, 60), 2) + "."
      + FormatInt(Trunc(Fraction(time) * 100.0), 2)
  }

  /** For a non-negative time, `Int(time)` splits into whole minutes and
      seconds, and the sub-second field is the fraction truncated to `1/unit`:
      together they denote the time cut down to a multiple of `1/unit`. */
  lemma {:induction false} Fields(time: real, unit: nat) returns (minutes: nat, seconds: nat, sub: nat)
    requires 0.0 <= time && 1 <= unit
    ensures minutes == Quot(Trunc(time), 60) && seconds == Rem(Trunc(time), 60)
    ensures sub == Trunc(Fraction(time) * unit as real)
    ensures seconds < 60 && sub < unit
    ensures Ticks(minutes, seconds, sub, unit) as real <= time * unit as real
    ensures time * unit as real < (Ticks(minutes, seconds, sub, unit) + 1) as real
  {
    var whole := Trunc(time);
    minutes, seconds := whole / 60, whole % 60;
    var f := Fraction(time);
    var u := unit as real;
    var x := f * u;
    ScaledFraction(f, u);
    sub := Trunc(x);
    assert sub as real <= x < u;
    assert whole == 60 * minutes + seconds;
    assert Ticks(minutes, seconds, sub, unit) == whole * unit + sub;
    assert time == whole as real + f;
    ScaledSplit(whole, f, unit);
  }

  lemma ScaledSplit(whole: nat, f: real, unit: nat)
    ensures (whole as real + f) * unit as real == (whole * unit) as real + f * unit as real
  {
  }

  lemma ScaledFraction(f: real, u: real)
    requires 0.0 <= f < 1.0 && 1.0 <= u
    ensures 0.0 <= f * u < u
  {
    assert (1.0 - f) * u > 0.0;
  }

  /** The number of `1/unit` steps in `minutes:seconds` plus `sub` steps. */
  function Ticks(minutes: nat, seconds: nat, sub: nat, unit: nat): nat {
    (60 * minutes + seconds) * unit + sub
  }

  /** The export stamp of a non-negative time is two-digit minutes (more when
      there are a hundred or more), two-digit seconds and three-digit
      milliseconds, and the three numbers denote the time cut down to the
      millisecond. */
  lemma ExportStamp(time: real) returns (minutes: nat, seconds: nat, millis: nat)
    requires 0.0 <= time
    ensures FormatTimeForExport(time)
      == FormatInt(minutes, 2) + ":" + FormatInt(seconds, 2) + "." + FormatInt(millis, 3)
    ensures seconds < 60 && millis < 1000
    ensures Ticks(minutes, seconds, millis, 1000) as real <= time * 1000.0
    ensures time * 1000.0 < (Ticks(minutes, seconds, millis, 1000) + 1) as real
  {
    minutes, seconds, millis := Fields(time, 1000);
  }

  /** Each field of the export stamp has its fixed width and reads back as the
      number it renders. */
  lemma ExportFieldsReadBack(minutes: nat, seconds: nat, millis: nat)
    requires seconds < 60 && millis < 1000
    ensures |FormatInt(seconds, 2)| == 2 && |FormatInt(millis, 3)| == 3
    ensures 2 <= |FormatInt(minutes, 2)|
    ensures AllDigits(FormatInt(minutes, 2)) && DecimalValue(FormatInt(minutes, 2)) == minutes
    ensures AllDigits(FormatInt(seconds, 2)) && DecimalValue(FormatInt(seconds, 2)) == seconds
    ensures AllDigits(FormatInt(millis, 3)) && DecimalValue(FormatInt(millis, 3)) == millis
  {
    FormatIntValue(minutes, 2);
    FormatIntValue(seconds, 2);
    FormatIntValue(millis, 3);
    FormatIntWidth(seconds, 2);
    FormatIntWidth(millis, 3);
  }

  /** The save stamp of a non-negative time: minutes without padding, two-digit
      seconds and two-digit hundredths, denoting the time cut down to the
      hundredth. */
  lemma SaveStamp(time: real) returns (minutes: nat, seconds: nat, hundredths: nat)
    requires 0.0 <= time
    ensures FormatTime(time)
      == Digits(minutes) + ":" + FormatInt(seconds, 2) + "." + FormatInt(hundredths, 2)
    ensures seconds < 60 && hundredths < 100
    ensures Ticks(minutes, seconds, hundredths, 100) as real <= time * 100.0
    ensures time * 100.0 < (Ticks(minutes, seconds, hundredths, 100) + 1) as real
  {
    minutes, seconds, hundredths := Fields(time, 100);
  }

  /** Each field of the save stamp reads back as the number it renders, the
      seconds and hundredths with exactly two digits. */
  lemma SaveFieldsReadBack(minutes: nat, seconds: nat, hundredths: nat)
    requires seconds < 60 && hundredths < 100
    ensures |FormatInt(seconds, 2)| == 2 && |FormatInt(hundredths, 2)| == 2
    ensures AllDigits(Digits(minutes)) && DecimalValue(Digits(minutes)) == minutes
    ensures AllDigits(FormatInt(seconds, 2)) && DecimalValue(FormatInt(seconds, 2)) == seconds
    ensures AllDigits(FormatInt(hundredths, 2)) && DecimalValue(FormatInt(hundredths, 2)) == hundredths
  {
    DigitsValue(minutes);
    FormatIntValue(seconds, 2);
    FormatIntValue(hundredths, 2);
    FormatIntWidth(seconds, 2);
    FormatIntWidth(hundredths, 2);
  }

  // ---------------------------------------------------------------------------
  // Whole transcripts

  /** `segments.map(entry).joined(separator: separator)`. */
  function JoinedMap(entry: TranscriptSegment -> string, segments: seq<TranscriptSegment>, separator: string): string
    decreases |segments|
  {
    if segments == [] then ""
    else if |segments| == 1 then entry(segments[0])
    else JoinedMap(entry, segments[..|segments| - 1], separator) + separator + entry(segments[|segments| - 1])
  }

  /** Joining two non-empty lists puts one separator between their joins. */
  lemma {:induction false} JoinedMapConcat(entry: TranscriptSegment -> string, a: seq<TranscriptSegment>,
                                           b: seq<TranscriptSegment>, separator: string)
    requires a != [] && b != []
    ensures JoinedMap(entry, a + b, separator)
         == JoinedMap(entry, a, separator) + separator + JoinedMap(entry, b, separator)
    decreases |b|
  {
    var ab := a + b;
    var last := b[|b| - 1];
    assert ab[|ab| - 1] == last;
    if |b| == 1 {
      assert ab[..|ab| - 1] == a;
    } else {
      var b' := b[..|b| - 1];
      assert ab[..|ab| - 1] == a + b';
      JoinedMapConcat(entry, a, b', separator);
      var x, y := JoinedMap(entry, a, separator), JoinedMap(entry, b', separator);
      calc {
        JoinedMap(entry, ab, separator);
        JoinedMap(entry, a + b', separator) + separator + entry(last);
        x + separator + y + separator + entry(last);
        { SeqAssoc(x + separator, y + separator, entry(last)); }
        x + separator + (y + separator + entry(last));
        x + separator + JoinedMap(entry, b, separator);
      }
    }
  }

  lemma SeqAssoc(x: string, y: string, z: string)
    ensures x + y + z == x + (y + z)
  {
  }

  /** The text a loop `for segment in segments { text += line(segment) }`
      accumulates from an empty string. */
  function Accumulated(line: TranscriptSegment -> string, segments: seq<TranscriptSegment>): string
    decreases |segments|
  {
    if segments == [] then "" else Accumulated(line, segments[..|segments| - 1]) + line(segments[|segments| - 1])
  }

  /** Accumulating a split list gives the first part's text followed by the
      second's. */
  lemma {:induction false} AccumulatedConcat(line: TranscriptSegment -> string, a: seq<TranscriptSegment>,
                                             b: seq<TranscriptSegment>)
    ensures Accumulated(line, a + b) == Accumulated(line, a) + Accumulated(line, b)
    decreases |b|
  {
    var ab := a + b;
    if b == [] {
      assert ab == a;
    } else {
      var b' := b[..|b| - 1];
      assert ab[..|ab| - 1] == a + b';
      AccumulatedConcat(line, a, b');
    }
  }

  /** One entry of `exportTranscriptionText`: "[MM:SS.mmm] text". */
  function ExportEntry(segment: TranscriptSegment): string {
    "[" + FormatTimeForExport(segment.startTime) + "] " + segment.text
  }

  /** `exportTranscriptionText`: the entries in list order, separated by a blank
      line. */
  function ExportText(segments: seq<TranscriptSegment>): string {
    JoinedMap(ExportEntry, segments, "\n\n")
  }

  /** No segments export as the empty string, a single segment as its entry
      alone, and the export of a split list is the two exports around one blank
      line: one entry per segment, in order, with nothing merged. */
  lemma ExportTextShape(a: seq<TranscriptSegment>, b: seq<TranscriptSegment>)
    ensures ExportText([]) == ""
    ensures |a| == 1 ==> ExportText(a) == ExportEntry(a[0])
    ensures a != [] && b != [] ==> ExportText(a + b) == ExportText(a) + "\n\n" + ExportText(b)
  {
    if a != [] && b != [] {
      JoinedMapConcat(ExportEntry, a, b, "\n\n");
    }
  }

  /** One line of `saveTranscription`: "[M:SS.cc] text" and a newline. */
  function SaveLine(segment: TranscriptSegment): string {
    "[" + FormatTime(segment.startTime) + "] " + segment.text + "\n"
  }

  /** The text `saveTranscription` writes: its lines in list order. */
  function SaveText(segments: seq<TranscriptSegment>): string {
    Accumulated(SaveLine, segments)
  }

  /** Saving a split list writes the first part's lines and then the second's,
      so every segment contributes exactly its own line, in order. */
  lemma SaveTextShape(a: seq<TranscriptSegment>, b: seq<TranscriptSegment>)
    ensures SaveText([]) == ""
    ensures |a| == 1 ==> SaveText(a) == SaveLine(a[0])
    ensures SaveText(a + b) == SaveText(a) + SaveText(b)
  {
    AccumulatedConcat(SaveLine, a, b);
    if |a| == 1 {
      assert a[..0] == [];
    }
  }

  /** One step of a save loop appends exactly the next segment's line. */
  lemma SaveStep(segments: seq<TranscriptSegment>, i: nat)
    requires i < |segments|
    ensures SaveText(segments[..i + 1]) == SaveText(segments[..i]) + SaveLine(segments[i])
  {
    assert segments[..i + 1] == segments[..i] + [segments[i]];
    SaveTextShape(segments[..i], [segments[i]]);
  }
}
