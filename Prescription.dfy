/**
 * The prescription-text parser of the scanning screen: OCR text is split into
 * lines, blank lines are dropped, and every line the medication pattern
 * matches yields one entry with a normalised name, the dosage digits, the
 * lower-cased unit and, when their patterns match the same line, a
 * frequency and a duration.
 */
module Prescription {
  import opened Wrappers
  import opened Text
  import opened Patterns

  /** `ScannedMedication`: a provisional entry offered to the user for confirmation. */
  datatype ScannedMedication = ScannedMedication(
    name: string,
    dosage: string,
    unit: string,
    frequency: Option<string>,
    duration: Option<string>)

  // ------------------------------------------------------------ lines

  /** `text.split('\n')`: the empty text is one empty line. */
  function SplitLines(s: string): (lines: seq<string>)
    ensures |lines| >= 1
    ensures forall i :: 0 <= i < |lines| ==> '\n' !in lines[i]
  {
    if s == [] then [""]
    else
      var rest := SplitLines(s[1..]);
      if s[0] == '\n' then [""] + rest
      else [[s[0]] + rest[0]] + rest[1..]
  }

  /** Every character of a line is a character of the text. */
  lemma {:induction false} LineCharsInText(s: string, i: nat, c: char)
    requires i < |SplitLines(s)|
    ensures c in SplitLines(s)[i] ==> c in s
  {
    if s != [] {
      var rest := SplitLines(s[1..]);
      if s[0] == '\n' {
        if i > 0 { LineCharsInText(s[1..], i - 1, c); }
      } else if i == 0 {
        LineCharsInText(s[1..], 0, c);
      } else {
        LineCharsInText(s[1..], i, c);
      }
    }
  }

  /** `lines.join('\n')`, the inverse of `SplitLines`. */
  function JoinLines(lines: seq<string>): string
    requires |lines| >= 1
  {
    if |lines| == 1 then lines[0] else lines[0] + "\n" + JoinLines(lines[1..])
  }

  /** Splitting loses nothing: joining the lines gives the text back. */
  lemma {:induction false} JoinSplit(s: string)
    ensures JoinLines(SplitLines(s)) == s
  {
    if s != [] {
      JoinSplit(s[1..]);
      var rest := SplitLines(s[1..]);
      if s[0] == '\n' {
        assert SplitLines(s)[1..] == rest;
      } else {
        var lines := SplitLines(s);
        assert lines[1..] == rest[1..];
        if |rest| > 1 {
          assert rest == [rest[0]] + rest[1..];
          assert JoinLines(rest) == rest[0] + "\n" + JoinLines(rest[1..]);
        }
      }
    }
  }

  /** Lines without a newline split back into themselves. */
  lemma {:induction false} SplitJoin(lines: seq<string>)
    requires |lines| >= 1
    requires forall i :: 0 <= i < |lines| ==> '\n' !in lines[i]
    ensures SplitLines(JoinLines(lines)) == lines
  {
    if |lines| == 1 {
      SplitNoNewline(lines[0], []);
      assert lines[0] + [] == lines[0];
      assert SplitLines([]) == [""];
    } else {
      var j := JoinLines(lines[1..]);
      SplitJoin(lines[1..]);
      SplitNoNewline(lines[0], "\n" + j);
      assert lines[0] + "\n" + j == lines[0] + ("\n" + j);
      assert ("\n" + j)[0] == '\n' && ("\n" + j)[1..] == j;
      assert SplitLines("\n" + j) == [""] + lines[1..];
      assert lines[0] + "" == lines[0];
      assert lines == [lines[0]] + lines[1..];
    }
  }

  /** A newline-free prefix becomes the front of the first line. */
  lemma {:induction false} SplitNoNewline(a: string, b: string)
    requires '\n' !in a
    ensures SplitLines(a + b) == [a + SplitLines(b)[0]] + SplitLines(b)[1..]
  {
    var sb := SplitLines(b);
    if a != [] {
      assert a[0] in a;
      assert (a + b)[0] == a[0] && (a + b)[1..] == a[1..] + b;
      SplitNoNewline(a[1..], b);
      assert [a[0]] + (a[1..] + sb[0]) == a + sb[0];
    } else {
      assert a + b == b;
      assert sb == [sb[0]] + sb[1..];
      assert a + sb[0] == sb[0];
    }
  }

  /** `xs.filter(keep)`: the elements `keep` accepts, in order. */
  function Filter(xs: seq<string>, keep: string -> bool): (r: seq<string>)
    ensures |r| <= |xs|
    ensures forall i :: 0 <= i < |r| ==> keep(r[i]) && r[i] in xs
  {
    if xs == [] then []
    else if keep(xs[0]) then [xs[0]] + Filter(xs[1..], keep)
    else Filter(xs[1..], keep)
  }

  /** The filter callback `(line) => line.trim()`: a line is kept when its trim is a non-empty, truthy string. */
  function HasText(): string -> bool {
    (line: string) => Trim(line) != []
  }

  /** `lines.filter((line) => line.trim())`. */
  function NonBlank(lines: seq<string>): (r: seq<string>)
    ensures |r| <= |lines|
    ensures forall i :: 0 <= i < |r| ==> Trim(r[i]) != [] && r[i] in lines
  {
    Filter(lines, HasText())
  }

  // ------------------------------------------------------------ one line

  /** The entry a line yields, or `None` when the medication pattern does not match it. */
  function ParseLine(line: string): Option<ScannedMedication> {
    match FindMed(line)
    case None => None
    case Some(m) =>
      var name := Trim(line[m.start..m.nameEnd]);
      var dosageWithUnit := line[m.dose.start..m.dose.end];
      match FindDose(dosageWithUnit)
      case None => None
      case Some(d) =>
        Some(ScannedMedication(
          Capitalize(name),
          dosageWithUnit[d.start..d.digitsEnd],
          Lower(dosageWithUnit[d.unitStart..d.end]),
          FrequencyOf(line),
          DurationOf(line)))
  }

  /** `${freqMatch[1]} fois par jour` when the frequency pattern matches. */
  function FrequencyOf(line: string): Option<string> {
    match FindFreq(line)
    case Some(f) => Some(line[f.start..f.digitsEnd] + " fois par jour")
    case None => None
  }

  /** `durMatch[0]`, the whole matched phrase, when the duration pattern matches. */
  function DurationOf(line: string): Option<string> {
    match FindDur(line)
    case Some(u) => Some(line[u.start..u.end])
    case None => None
  }

  /**
   * What a line yields, in terms of the matches a JavaScript engine reports:
   * an entry exactly when the medication pattern matches; its name, dosage
   * and unit come from the chosen medication match; its frequency and
   * duration are present exactly when their patterns match, and come from
   * their leftmost matches.
   */
  lemma ParseLineFollowsPatterns(line: string)
    ensures ParseLine(line).Some? <==> exists m :: IsMedMatch(line, m)
    ensures forall m :: MedChoice(line, m) ==>
      && ParseLine(line).Some?
      && ParseLine(line).value.name == Capitalize(Trim(line[m.start..m.nameEnd]))
      && ParseLine(line).value.dosage == line[m.dose.start..m.dose.digitsEnd]
      && ParseLine(line).value.unit == Lower(line[m.dose.unitStart..m.dose.end])
    ensures ParseLine(line).Some? ==>
      && (ParseLine(line).value.frequency.None? <==> forall f :: !IsFreqMatch(line, f))
      && (forall f :: FreqChoice(line, f) ==>
            ParseLine(line).value.frequency == Some(line[f.start..f.digitsEnd] + " fois par jour"))
      && (ParseLine(line).value.duration.None? <==> forall u :: !IsDurMatch(line, u))
      && (forall u :: DurChoice(line, u) ==> ParseLine(line).value.duration == Some(line[u.start..u.end]))
  {
    ParseLineMedication(line);
    if ParseLine(line).Some? {
      assert ParseLine(line).value.frequency == FrequencyOf(line);
      assert ParseLine(line).value.duration == DurationOf(line);
      FrequencyFollowsPattern(line);
      DurationFollowsPattern(line);
    }
  }

  /** Whether a line yields an entry, and its name, dosage and unit, follow the chosen medication match. */
  lemma ParseLineMedication(line: string)
    ensures ParseLine(line).Some? <==> exists m :: IsMedMatch(line, m)
    ensures forall m :: MedChoice(line, m) ==>
      && ParseLine(line).Some?
      && ParseLine(line).value.name == Capitalize(Trim(line[m.start..m.nameEnd]))
      && ParseLine(line).value.dosage == line[m.dose.start..m.dose.digitsEnd]
      && ParseLine(line).value.unit == Lower(line[m.dose.unitStart..m.dose.end])
  {
    FindMedIsChoice(line);
    if FindMed(line).Some? {
      InnerDoseAgrees(line, FindMed(line).value);
      forall m | MedChoice(line, m) ensures m == FindMed(line).value {
        MedChoiceUnique(line, m, FindMed(line).value);
      }
    }
  }

  /** The frequency is present exactly when its pattern matches, and comes from the leftmost match. */
  lemma FrequencyFollowsPattern(line: string)
    ensures FrequencyOf(line).None? <==> forall f :: !IsFreqMatch(line, f)
    ensures forall f :: FreqChoice(line, f) ==> FrequencyOf(line) == Some(line[f.start..f.digitsEnd] + " fois par jour")
  {
    FindFreqIsChoice(line);
    forall f | FreqChoice(line, f) ensures FindFreq(line) == Some(f) {
      FreqChoiceUnique(line, f, FindFreq(line).value);
    }
  }

  /** The duration is present exactly when its pattern matches, and is the leftmost match. */
  lemma DurationFollowsPattern(line: string)
    ensures DurationOf(line).None? <==> forall u :: !IsDurMatch(line, u)
    ensures forall u :: DurChoice(line, u) ==> DurationOf(line) == Some(line[u.start..u.end])
  {
    FindDurIsChoice(line);
    forall u | DurChoice(line, u) ensures FindDur(line) == Some(u) {
      DurChoiceUnique(line, u, FindDur(line).value);
    }
  }

  /** A unit the pattern accepts, lower-cased, is one of `mg`, `g`, `ml`, `µg`, `ui`. */
  lemma LowerUnit(u: string)
    requires IsOneOf(u, Units)
    ensures Lower(u) == FoldStr(u) && Lower(u) in Units
  {
    var w := FoldStr(u);
    assert forall x, k :: 0 <= x < |Units| && 0 <= k < |Units[x]| ==>
      ('a' <= Units[x][k] <= 'z' || Units[x][k] == '\U{00B5}');
    forall k | 0 <= k < |u| ensures LowerChar(u[k]) == w[k] {
      assert w[k] == FoldAscii(u[k]);
    }
  }

  /** A frequency has the form "<digits> fois par jour". */
  lemma FrequencyShape(line: string)
    ensures FrequencyOf(line).Some? ==>
      exists n :: n != [] && AllDigits(n) && FrequencyOf(line).value == n + " fois par jour"
  {
    if FindFreq(line).Some? {
      var f := FindFreq(line).value;
      DigitsSlice(line, f.start, f.digitsEnd);
    }
  }

  /** A duration ends with `jour`, `semaine` or `mois` (in any ASCII case) and no further letter. */
  lemma DurationShape(line: string)
    ensures DurationOf(line).Some? ==>
      exists k :: 0 <= k < |DurationOf(line).value| && IsOneOf(DurationOf(line).value[k..], Periods)
  {
    if FindDur(line).Some? {
      var u := FindDur(line).value;
      var t := line[u.start..u.end];
      assert t[u.periodStart - u.start..] == line[u.periodStart..u.end];
      AllKeywords();
      KeywordStart(line, u.periodStart, u.end, Periods);
    }
  }

  /** Every entry has a non-empty decimal dosage and one of the five units in lower case. */
  lemma DosageShape(line: string)
    ensures ParseLine(line).Some? ==>
      var e := ParseLine(line).value;
      e.dosage != [] && AllDigits(e.dosage) && e.unit in Units
  {
    if FindMed(line).Some? {
      var m := FindMed(line).value;
      FindMedIsChoice(line);
      ParseLineMedication(line);
      DigitsSlice(line, m.dose.start, m.dose.digitsEnd);
      LowerUnit(line[m.dose.unitStart..m.dose.end]);
    }
  }

  /** What an entry holds: shape of dosage, unit, frequency and duration together. */
  lemma EntryShape(line: string)
    requires ParseLine(line).Some?
    ensures var e := ParseLine(line).value;
      && e.dosage != [] && AllDigits(e.dosage)
      && e.unit in Units
      && (e.frequency.Some? ==> exists n :: n != [] && AllDigits(n) && e.frequency.value == n + " fois par jour")
      && (e.duration.Some? ==> exists k :: 0 <= k < |e.duration.value| && IsOneOf(e.duration.value[k..], Periods))
  {
    DosageShape(line);
    FrequencyShape(line);
    DurationShape(line);
    assert ParseLine(line).value.frequency == FrequencyOf(line);
    assert ParseLine(line).value.duration == DurationOf(line);
  }

  /** A line without a digit yields nothing: every unit and dosage needs one. */
  lemma NoDigitNoEntry(line: string)
    requires forall i :: 0 <= i < |line| ==> !IsDigit(line[i])
    ensures ParseLine(line) == None
  {
    FindMedIsChoice(line);
    forall m ensures !IsMedMatch(line, m) {
      MedMatchNeedsDigit(line, m);
    }
  }

  lemma MedMatchNeedsDigit(s: string, m: MedSpan)
    ensures IsMedMatch(s, m) ==> m.dose.start < |s| && IsDigit(s[m.dose.start])
  {
  }

  // ------------------------------------------------------------ the text

  /** The values `f` yields on `xs`, in order: what a `forEach` pushing each hit builds. */
  function Collect<T>(xs: seq<string>, f: string -> Option<T>): seq<T> {
    if xs == [] then []
    else
      var e := f(xs[|xs| - 1]);
      Collect(xs[..|xs| - 1], f) + (if e.Some? then [e.value] else [])
  }

  /** The positions of `xs` on which `f` yields a value, in increasing order. */
  function Hits<T>(xs: seq<string>, f: string -> Option<T>): seq<nat> {
    if xs == [] then []
    else Hits(xs[..|xs| - 1], f) + (if f(xs[|xs| - 1]).Some? then [|xs| - 1] else [])
  }

  /** Value `k` of `Collect` comes from position `idx[k]` of `Hits`; the positions increase and none is missed. */
  lemma CollectInOrder<T>(xs: seq<string>, f: string -> Option<T>)
    ensures var r, idx := Collect(xs, f), Hits(xs, f);
      && |r| == |idx| <= |xs|
      && (forall k :: 0 <= k < |idx| ==> idx[k] < |xs| && f(xs[idx[k]]) == Some(r[k]))
      && (forall k, l :: 0 <= k < l < |idx| ==> idx[k] < idx[l])
      && (forall i :: 0 <= i < |xs| && f(xs[i]).Some? ==> i in idx)
  {
    HitsValues(xs, f);
    HitsIncreasing(xs, f);
    HitsComplete(xs, f);
  }

  lemma {:induction false} HitsLength<T>(xs: seq<string>, f: string -> Option<T>)
    ensures |Collect(xs, f)| == |Hits(xs, f)| <= |xs|
  {
    if xs != [] {
      HitsLength(xs[..|xs| - 1], f);
    }
  }

  lemma {:induction false} HitsBelow<T>(xs: seq<string>, f: string -> Option<T>)
    ensures forall k :: 0 <= k < |Hits(xs, f)| ==> Hits(xs, f)[k] < |xs|
  {
    if xs != [] {
      var n := |xs| - 1;
      HitsBelow(xs[..n], f);
      var idx, idx0 := Hits(xs, f), Hits(xs[..n], f);
      assert idx == idx0 + (if f(xs[n]).Some? then [n] else []);
      forall k | 0 <= k < |idx| ensures idx[k] < |xs| {
        if k < |idx0| {
          assert idx[k] == idx0[k];
        }
      }
    }
  }

  lemma {:induction false} HitsValues<T>(xs: seq<string>, f: string -> Option<T>)
    ensures |Collect(xs, f)| == |Hits(xs, f)| <= |xs|
    ensures forall k :: 0 <= k < |Hits(xs, f)| ==>
      Hits(xs, f)[k] < |xs| && f(xs[Hits(xs, f)[k]]) == Some(Collect(xs, f)[k])
  {
    HitsLength(xs, f);
    HitsBelow(xs, f);
    if xs != [] {
      var n := |xs| - 1;
      var init := xs[..n];
      HitsValues(init, f);
      HitsLength(init, f);
      var r, idx := Collect(xs, f), Hits(xs, f);
      var r0, idx0 := Collect(init, f), Hits(init, f);
      assert r == r0 + (if f(xs[n]).Some? then [f(xs[n]).value] else []);
      assert idx == idx0 + (if f(xs[n]).Some? then [n] else []);
      forall k | 0 <= k < |idx| ensures f(xs[idx[k]]) == Some(r[k]) {
        if k < |idx0| {
          assert idx[k] == idx0[k] && r[k] == r0[k];
          assert init[idx0[k]] == xs[idx0[k]];
        }
      }
    }
  }

  lemma {:induction false} HitsIncreasing<T>(xs: seq<string>, f: string -> Option<T>)
    ensures forall k, l :: 0 <= k < l < |Hits(xs, f)| ==> Hits(xs, f)[k] < Hits(xs, f)[l]
  {
    if xs != [] {
      var n := |xs| - 1;
      var init := xs[..n];
      HitsIncreasing(init, f);
      HitsBelow(init, f);
      var idx, idx0 := Hits(xs, f), Hits(init, f);
      assert idx == idx0 + (if f(xs[n]).Some? then [n] else []);
      forall k, l | 0 <= k < l < |idx| ensures idx[k] < idx[l] {
        if l < |idx0| {
          assert idx[k] == idx0[k] && idx[l] == idx0[l];
        } else {
          assert idx[k] == idx0[k];
        }
      }
    }
  }

  lemma {:induction false} HitsComplete<T>(xs: seq<string>, f: string -> Option<T>)
    ensures forall i :: 0 <= i < |xs| && f(xs[i]).Some? ==> i in Hits(xs, f)
  {
    if xs != [] {
      var n := |xs| - 1;
      var init := xs[..n];
      HitsComplete(init, f);
      var idx, idx0 := Hits(xs, f), Hits(init, f);
      assert idx == idx0 + (if f(xs[n]).Some? then [n] else []);
      forall i | 0 <= i < |xs| && f(xs[i]).Some? ensures i in idx {
        if i < n {
          assert init[i] == xs[i];
          assert i in idx0;
        } else {
          assert idx[|idx| - 1] == i;
        }
      }
    }
  }

  /** `Collect` read from the front. */
  lemma {:induction false} CollectCons<T>(x: string, xs: seq<string>, f: string -> Option<T>)
    ensures Collect([x] + xs, f) == (if f(x).Some? then [f(x).value] else []) + Collect(xs, f)
    decreases |xs|
  {
    if xs != [] {
      var init := xs[..|xs| - 1];
      assert ([x] + xs)[..|xs|] == [x] + init;
      assert ([x] + xs)[|xs|] == xs[|xs| - 1];
      CollectCons(x, init, f);
    } else {
      assert [x] + xs == [x];
    }
  }

  /** `Collect` grows by at most one value per element. */
  lemma CollectSnoc<T>(xs: seq<string>, x: string, f: string -> Option<T>)
    ensures Collect(xs + [x], f) == Collect(xs, f) + (if f(x).Some? then [f(x).value] else [])
  {
    assert (xs + [x])[..|xs|] == xs;
  }

  /** No element yielding a value means no value collected. */
  lemma {:induction false} CollectNone<T>(xs: seq<string>, f: string -> Option<T>)
    requires forall i :: 0 <= i < |xs| ==> f(xs[i]).None?
    ensures Collect(xs, f) == []
  {
    if xs != [] {
      var init := xs[..|xs| - 1];
      assert forall i :: 0 <= i < |init| ==> init[i] == xs[i];
      CollectNone(init, f);
    }
  }

  /** The entries of `lines` in line order, one per line that yields one. */
  function ParseAll(lines: seq<string>): seq<ScannedMedication> {
    Collect(lines, ParseLine)
  }

  /** `parseMedications(text)` as a function. */
  function ParseText(text: string): seq<ScannedMedication> {
    ParseAll(NonBlank(SplitLines(text)))
  }

  /**
   * The output has one entry per line that yields one, in the order of the
   * lines: entry `k` comes from line `Hits(lines, ParseLine)[k]`, the
   * positions increase, and every line that yields an entry is among them.
   */
  lemma ParseAllInLineOrder(lines: seq<string>)
    ensures var r, idx := ParseAll(lines), Hits(lines, ParseLine);
      && |r| == |idx| <= |lines|
      && (forall k :: 0 <= k < |idx| ==> idx[k] < |lines| && ParseLine(lines[idx[k]]) == Some(r[k]))
      && (forall k, l :: 0 <= k < l < |idx| ==> idx[k] < idx[l])
      && (forall i :: 0 <= i < |lines| && ParseLine(lines[i]).Some? ==> i in idx)
  {
    CollectInOrder(lines, ParseLine);
  }

  /** A line whose trim is empty yields nothing. */
  lemma BlankLineYieldsNothing(line: string)
    ensures Trim(line) == [] ==> ParseLine(line) == None
  {
    if Trim(line) == [] {
      NoDigitNoEntry(line);
    }
  }

  /** Blank lines never yield an entry anyway, so dropping them changes nothing. */
  lemma BlankLinesIrrelevant(lines: seq<string>)
    ensures ParseAll(NonBlank(lines)) == ParseAll(lines)
  {
    forall line | !HasText()(line) ensures ParseLine(line).None? {
      BlankLineYieldsNothing(line);
    }
    CollectSkipsFiltered(lines, HasText(), ParseLine);
  }

  /** Filtering out elements on which `f` yields nothing leaves what `Collect` builds unchanged. */
  lemma {:induction false} CollectSkipsFiltered<T>(xs: seq<string>, keep: string -> bool, f: string -> Option<T>)
    requires forall x :: !keep(x) ==> f(x).None?
    ensures Collect(Filter(xs, keep), f) == Collect(xs, f)
  {
    if xs != [] {
      CollectSkipsFiltered(xs[1..], keep, f);
      assert xs == [xs[0]] + xs[1..];
      CollectCons(xs[0], xs[1..], f);
      if keep(xs[0]) {
        CollectCons(xs[0], Filter(xs[1..], keep), f);
      }
    }
  }

  /** Text in which no character is a digit yields no entry. */
  lemma ProseYieldsNothing(text: string)
    requires forall i :: 0 <= i < |text| ==> !IsDigit(text[i])
    ensures ParseText(text) == []
  {
    var all := SplitLines(text);
    BlankLinesIrrelevant(all);
    forall i | 0 <= i < |all| ensures ParseLine(all[i]).None? {
      ProseLine(text, i);
    }
    CollectNone(all, ParseLine);
  }

  lemma ProseLine(text: string, i: nat)
    requires forall i :: 0 <= i < |text| ==> !IsDigit(text[i])
    requires i < |SplitLines(text)|
    ensures ParseLine(SplitLines(text)[i]) == None
  {
    var line := SplitLines(text)[i];
    forall k | 0 <= k < |line| ensures !IsDigit(line[k]) {
      LineCharsInText(text, i, line[k]);
    }
    NoDigitNoEntry(line);
  }

  /**
   * The body of the per-line callback: runs the medication pattern, then the
   * inner dosage pattern on the dosage group, then attaches the frequency and
   * the duration when their patterns match.
   */
  method ScanLine(line: string) returns (medication: Option<ScannedMedication>)
    ensures medication == ParseLine(line)
  {
    medication := None;
    var medMatch := FindMed(line);
    if medMatch.Some? {
      var m := medMatch.value;
      var name := Trim(line[m.start..m.nameEnd]);
      var dosageWithUnit := line[m.dose.start..m.dose.end];
      var dosageMatch := FindDose(dosageWithUnit);
      if dosageMatch.Some? {
        var d := dosageMatch.value;
        var entry := ScannedMedication(
          Capitalize(name),
          dosageWithUnit[d.start..d.digitsEnd],
          Lower(dosageWithUnit[d.unitStart..d.end]),
          None, None);
        var freqMatch := FindFreq(line);
        if freqMatch.Some? {
          var f := freqMatch.value;
          entry := entry.(frequency := Some(line[f.start..f.digitsEnd] + " fois par jour"));
        }
        var durMatch := FindDur(line);
        if durMatch.Some? {
          var u := durMatch.value;
          entry := entry.(duration := Some(line[u.start..u.end]));
        }
        medication := Some(entry);
      }
    }
  }

  /**
   * `parseMedications`: walks the non-blank lines, and for each line the
   * medication pattern matches builds one entry, attaches the frequency and
   * the duration when their patterns match, and appends it.
   */
  method ParseMedications(text: string) returns (medications: seq<ScannedMedication>)
    ensures medications == ParseText(text)
  {
    var lines := NonBlank(SplitLines(text));
    medications := [];
    var i := 0;
    while i < |lines|
      invariant 0 <= i <= |lines|
      invariant medications == ParseAll(lines[..i])
    {
      var line := lines[i];
      var medication := ScanLine(line);
      if medication.Some? {
        medications := medications + [medication.value];
      }
      ParseAllStep(lines, i);
      i := i + 1;
    }
    assert lines[..|lines|] == lines;
  }

  /** One more line adds its entry, if any, at the end. */
  lemma ParseAllStep(lines: seq<string>, i: nat)
    requires i < |lines|
    ensures ParseAll(lines[..i + 1]) == ParseAll(lines[..i]) + (if ParseLine(lines[i]).Some? then [ParseLine(lines[i]).value] else [])
  {
    assert lines[..i + 1] == lines[..i] + [lines[i]];
    CollectSnoc(lines[..i], lines[i], ParseLine);
  }
}
