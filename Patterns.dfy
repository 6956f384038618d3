/**
 * The three regular expressions of the prescription parser and the inner
 * dosage pattern, each stated twice: as a predicate saying which slices of a
 * line have the shape the pattern describes, and as a deterministic matcher.
 * Lemmas show that the matcher returns the match a JavaScript engine reports
 * (the leftmost start position, then the longest greedy capture).
 *
 *   medication  /([A-Za-zÀ-ÿ\s]+)\s*(\d+\s*(?:mg|g|ml|µg|ui))/i
 *   dosage      /(\d+)\s*(mg|g|ml|µg|ui)/i
 *   frequency   /(\d+)\s*(?:fois|x)\s*(?:par|\/)\s*jour/i
 *   duration    /pendant\s*(\d+)\s*(?:jour|semaine|mois)/i
 */
module Patterns {
  import opened Wrappers
  import opened Text

  // ---------------------------------------------------------------- runs

  datatype CharClass = Digits | Spaces | NameChars

  predicate InClass(c: char, k: CharClass) {
    match k
    case Digits => IsDigit(c)
    case Spaces => IsSpace(c)
    case NameChars => IsNameChar(c)
  }

  /** Every character of `s[i..j]` belongs to `k`. */
  predicate AllIn(s: string, i: nat, j: nat, k: CharClass) {
    i <= j <= |s| && forall t :: i <= t < j ==> InClass(s[t], k)
  }

  /** The end of the longest run of `k` starting at `i`: what a greedy `+` or `*` consumes. */
  function RunEnd(s: string, i: nat, k: CharClass): (j: nat)
    requires i <= |s|
    ensures AllIn(s, i, j, k)
    ensures j < |s| ==> !InClass(s[j], k)
    decreases |s| - i
  {
    if i == |s| || !InClass(s[i], k) then i else RunEnd(s, i + 1, k)
  }

  /** A non-empty run of digits, cut out, is a non-empty string of decimal digits. */
  lemma DigitsSlice(s: string, i: nat, j: nat)
    requires AllIn(s, i, j, Digits) && i < j
    ensures s[i..j] != [] && AllDigits(s[i..j])
  {
    assert forall t :: 0 <= t < j - i ==> s[i..j][t] == s[i + t];
  }

  /** A run that cannot be extended is the greedy run. */
  lemma RunEndUnique(s: string, i: nat, j: nat, k: CharClass)
    requires AllIn(s, i, j, k) && (j < |s| ==> !InClass(s[j], k))
    ensures RunEnd(s, i, k) == j
  {
  }

  // ---------------------------------------------------------- alternations

  /** `u` with ASCII letters folded to lower case, as the `i` flag compares them. */
  function FoldStr(u: string): (r: string)
    ensures |r| == |u|
    ensures forall k :: 0 <= k < |u| ==> r[k] == FoldAscii(u[k])
  {
    if u == [] then [] else [FoldAscii(u[0])] + FoldStr(u[1..])
  }

  /** `u` is one of the alternatives `ws` of a group `(?:w1|w2|...)`, ignoring ASCII case. */
  predicate IsOneOf(u: string, ws: seq<string>) {
    FoldStr(u) in ws
  }

  predicate IsPrefix(a: string, b: string) {
    |a| <= |b| && b[..|a|] == a
  }

  /**
   * Alternatives that are non-empty lower-case words, none a prefix of another,
   * none starting with a digit or a space. At most one of them can match at
   * a position, so the order of the alternation never matters.
   */
  predicate Keywords(ws: seq<string>) {
    && (forall x :: 0 <= x < |ws| ==> ws[x] != [] && !IsDigit(ws[x][0]) && !IsSpace(ws[x][0]))
    && (forall x, y :: 0 <= x < |ws| && 0 <= y < |ws| && x != y ==> !IsPrefix(ws[x], ws[y]))
  }

  const Units: seq<string> := ["mg", "g", "ml", "\U{00B5}g", "ui"]
  const Times: seq<string> := ["fois", "x"]
  const Per: seq<string> := ["par", "/"]
  const Day: seq<string> := ["jour"]
  const During: seq<string> := ["pendant"]
  const Periods: seq<string> := ["jour", "semaine", "mois"]

  lemma NotPrefix(a: string, b: string, k: nat)
    requires k < |a| && k < |b| && a[k] != b[k]
    ensures !IsPrefix(a, b) && !IsPrefix(b, a)
  {
    assert |a| <= |b| ==> b[..|a|][k] == b[k];
    assert |b| <= |a| ==> a[..|b|][k] == a[k];
  }

  /** Each alternation of the patterns is a keyword list. */
  lemma AllKeywords()
    ensures Keywords(Units) && Keywords(Times) && Keywords(Per)
    ensures Keywords(Day) && Keywords(During) && Keywords(Periods)
  {
    UnitsAreKeywords();
    TimesAreKeywords();
    PerAreKeywords();
    PeriodsAreKeywords();
  }

  lemma UnitsAreKeywords()
    ensures Keywords(Units)
  {
    forall x, y | 0 <= x < |Units| && 0 <= y < |Units| && x != y
      ensures !IsPrefix(Units[x], Units[y])
    {
      NotPrefix(Units[x], Units[y], if Units[x][0] != Units[y][0] then 0 else 1);
    }
  }

  lemma TimesAreKeywords()
    ensures Keywords(Times)
  {
    forall x, y | 0 <= x < |Times| && 0 <= y < |Times| && x != y
      ensures !IsPrefix(Times[x], Times[y])
    {
      NotPrefix(Times[x], Times[y], 0);
    }
  }

  lemma PerAreKeywords()
    ensures Keywords(Per)
  {
    forall x, y | 0 <= x < |Per| && 0 <= y < |Per| && x != y
      ensures !IsPrefix(Per[x], Per[y])
    {
      NotPrefix(Per[x], Per[y], 0);
    }
  }

  lemma PeriodsAreKeywords()
    ensures Keywords(Periods)
  {
    forall x, y | 0 <= x < |Periods| && 0 <= y < |Periods| && x != y
      ensures !IsPrefix(Periods[x], Periods[y])
    {
      NotPrefix(Periods[x], Periods[y], 0);
    }
  }

  /** The alternation tried at `i` in the order written: the end of the first alternative present. */
  function AltAt(s: string, i: nat, ws: seq<string>): (r: Option<nat>)
    ensures r.Some? ==> i <= r.value <= |s| && IsOneOf(s[i..r.value], ws)
  {
    if ws == [] then None
    else if HasWordAt(s, i, ws[0]) then
      assert FoldStr(s[i..i + |ws[0]|]) == ws[0];
      Some(i + |ws[0]|)
    else
      var r := AltAt(s, i, ws[1..]);
      assert r.Some? ==> FoldStr(s[i..r.value]) in ws;
      r
  }

  /** Two folded slices starting at the same position: the shorter is a prefix of the longer. */
  lemma FoldedPrefixes(s: string, i: nat, m: nat, n: nat)
    requires i + m <= |s| && i + n <= |s|
    ensures IsPrefix(FoldStr(s[i..i + m]), FoldStr(s[i..i + n])) || IsPrefix(FoldStr(s[i..i + n]), FoldStr(s[i..i + m]))
  {
    var v, w := FoldStr(s[i..i + m]), FoldStr(s[i..i + n]);
    if m <= n {
      assert w[..m] == v;
    } else {
      assert v[..n] == w;
    }
  }

  /** Of a keyword list, only a word and itself are prefix-related. */
  lemma SameKeyword(ws: seq<string>, a: nat, b: nat)
    requires Keywords(ws) && a < |ws| && b < |ws|
    requires IsPrefix(ws[a], ws[b]) || IsPrefix(ws[b], ws[a])
    ensures a == b
  {
  }

  /** Dropping the first alternative leaves a keyword list. */
  lemma KeywordsTail(ws: seq<string>)
    requires Keywords(ws) && ws != []
    ensures Keywords(ws[1..])
  {
    var rest := ws[1..];
    forall a, b | 0 <= a < |rest| && 0 <= b < |rest| && a != b
      ensures !IsPrefix(rest[a], rest[b])
    {
      assert rest[a] == ws[a + 1] && rest[b] == ws[b + 1];
    }
  }

  /** A keyword present at `i` is the one the alternation finds. */
  lemma {:induction false} AltAtExact(s: string, i: nat, j: nat, ws: seq<string>)
    requires Keywords(ws) && i <= j <= |s| && IsOneOf(s[i..j], ws)
    ensures AltAt(s, i, ws) == Some(j)
  {
    var w := FoldStr(s[i..j]);
    var x :| 0 <= x < |ws| && ws[x] == w;
    if HasWordAt(s, i, ws[0]) {
      FoldedPrefixes(s, i, |ws[0]|, j - i);
      SameKeyword(ws, 0, x);
    } else {
      assert HasWordAt(s, i, ws[x]);
      var rest := ws[1..];
      assert rest[x - 1] == w;
      KeywordsTail(ws);
      AltAtExact(s, i, j, rest);
    }
  }

  /** A keyword neither starts with a digit nor with whitespace. */
  lemma KeywordStart(s: string, i: nat, j: nat, ws: seq<string>)
    requires Keywords(ws) && i <= j <= |s| && IsOneOf(s[i..j], ws)
    ensures i < j && !IsDigit(s[i]) && !IsSpace(s[i])
  {
    var w := FoldStr(s[i..j]);
    var x :| 0 <= x < |ws| && ws[x] == w;
    assert w[0] == FoldAscii(s[i]);
  }

  // -------------------------------------------------------- the first match

  /**
   * The first start position in `[from, n)` at which `at` matches, with its
   * match: how `String.prototype.match` scans a string.
   */
  function Leftmost<T>(n: nat, from: nat, at: nat -> Option<T>): (r: Option<(nat, T)>)
    ensures r.Some? ==> from <= r.value.0 < n && at(r.value.0) == Some(r.value.1)
    ensures forall p :: from <= p < n && (r.None? || p < r.value.0) ==> at(p).None?
    decreases n - from
  {
    if from >= n then None
    else match at(from)
      case Some(v) => Some((from, v))
      case None => Leftmost(n, from + 1, at)
  }

  // ------------------------------------------------------------- dosage

  /** Slices of a dosage-with-unit match: digits `[start, digitsEnd)`, unit `[unitStart, end)`. */
  datatype DoseSpan = DoseSpan(start: nat, digitsEnd: nat, unitStart: nat, end: nat)

  /** The shape `\d+\s*(mg|g|ml|µg|ui)`. */
  ghost predicate IsDoseMatch(s: string, m: DoseSpan) {
    && m.start < m.digitsEnd <= m.unitStart <= m.end <= |s|
    && AllIn(s, m.start, m.digitsEnd, Digits)
    && AllIn(s, m.digitsEnd, m.unitStart, Spaces)
    && IsOneOf(s[m.unitStart..m.end], Units)
  }

  function DoseAt(s: string, p: nat): (r: Option<DoseSpan>)
    ensures r.Some? ==> r.value.start == p && IsDoseMatch(s, r.value)
  {
    if p < |s| && IsDigit(s[p]) then
      var c := RunEnd(s, p, Digits);
      var d := RunEnd(s, c, Spaces);
      match AltAt(s, d, Units)
      case Some(q) => Some(DoseSpan(p, c, d, q))
      case None => None
    else None
  }

  /** Any dosage match starting at `p` is the one `DoseAt` finds: its slices are forced. */
  lemma DoseAtComplete(s: string, m: DoseSpan)
    requires IsDoseMatch(s, m)
    ensures DoseAt(s, m.start) == Some(m)
  {
    AllKeywords();
    KeywordStart(s, m.unitStart, m.end, Units);
    if m.digitsEnd < m.unitStart { assert IsSpace(s[m.digitsEnd]); }
    RunEndUnique(s, m.start, m.digitsEnd, Digits);
    RunEndUnique(s, m.digitsEnd, m.unitStart, Spaces);
    AltAtExact(s, m.unitStart, m.end, Units);
  }

  function DoseAtFn(s: string): nat -> Option<DoseSpan> {
    (p: nat) => DoseAt(s, p)
  }

  /** The inner pattern `/(\d+)\s*(mg|g|ml|µg|ui)/i` applied to a string. */
  function FindDose(s: string): (r: Option<DoseSpan>)
    ensures r.Some? ==> IsDoseMatch(s, r.value)
  {
    match Leftmost(|s|, 0, DoseAtFn(s))
    case Some((_, m)) => Some(m)
    case None => None
  }

  lemma FindDoseIsLeftmost(s: string, m: DoseSpan)
    requires IsDoseMatch(s, m)
    ensures FindDose(s).Some? && FindDose(s).value.start <= m.start
  {
    DoseAtComplete(s, m);
    assert DoseAtFn(s)(m.start).Some?;
  }

  // --------------------------------------------------------- medication

  /** Slices of a medication match: group 1 is `[start, nameEnd)`, group 2 is `[dose.start, dose.end)`. */
  datatype MedSpan = MedSpan(start: nat, nameEnd: nat, dose: DoseSpan)

  /** The shape `([A-Za-zÀ-ÿ\s]+)\s*(\d+\s*(?:mg|g|ml|µg|ui))`. */
  ghost predicate IsMedMatch(s: string, m: MedSpan) {
    && m.start < m.nameEnd <= m.dose.start
    && AllIn(s, m.start, m.nameEnd, NameChars)
    && AllIn(s, m.nameEnd, m.dose.start, Spaces)
    && IsDoseMatch(s, m.dose)
  }

  /** The match a JavaScript engine reports: leftmost start, then the longest group 1. */
  ghost predicate MedChoice(s: string, m: MedSpan) {
    && IsMedMatch(s, m)
    && forall m' :: IsMedMatch(s, m') ==>
         m.start < m'.start || (m.start == m'.start && m'.nameEnd <= m.nameEnd)
  }

  function MedAt(s: string, p: nat): (r: Option<MedSpan>)
    ensures r.Some? ==> r.value.start == p && IsMedMatch(s, r.value)
  {
    if p < |s| && IsNameChar(s[p]) then
      var a := RunEnd(s, p, NameChars);
      var b := RunEnd(s, a, Spaces);
      match DoseAt(s, b)
      case Some(d) => Some(MedSpan(p, a, d))
      case None => None
    else None
  }

  /**
   * Every medication match at `p` ends its name run before the one `MedAt`
   * captures and has the same group 2: the greedy group 1 is maximal, and
   * letters, spaces and digits leave no other way to split the line.
   */
  lemma MedAtGreedy(s: string, m: MedSpan)
    requires IsMedMatch(s, m)
    ensures MedAt(s, m.start).Some?
    ensures m.nameEnd <= MedAt(s, m.start).value.nameEnd
    ensures MedAt(s, m.start).value.dose == m.dose
  {
    var a := m.dose.start;
    assert AllIn(s, m.start, a, NameChars);
    RunEndUnique(s, m.start, a, NameChars);
    RunEndUnique(s, a, a, Spaces);
    DoseAtComplete(s, m.dose);
  }

  function MedAtFn(s: string): nat -> Option<MedSpan> {
    (p: nat) => MedAt(s, p)
  }

  /** The outer pattern `medicationPattern` applied to a line. */
  function FindMed(s: string): (r: Option<MedSpan>)
    ensures r.Some? ==> IsMedMatch(s, r.value)
  {
    match Leftmost(|s|, 0, MedAtFn(s))
    case Some((_, m)) => Some(m)
    case None => None
  }

  /** `FindMed` reports exactly the match JavaScript reports, and fails exactly when there is none. */
  lemma FindMedIsChoice(s: string)
    ensures FindMed(s).Some? ==> MedChoice(s, FindMed(s).value)
    ensures FindMed(s).None? <==> forall m :: !IsMedMatch(s, m)
  {
    forall m | IsMedMatch(s, m)
      ensures FindMed(s).Some?
      ensures FindMed(s).value.start < m.start
           || (FindMed(s).value.start == m.start && m.nameEnd <= FindMed(s).value.nameEnd)
    {
      MedAtGreedy(s, m);
      assert MedAtFn(s)(m.start).Some?;
    }
  }

  /** Two medication matches chosen by the leftmost-greedy rule are the same. */
  lemma MedChoiceUnique(s: string, m: MedSpan, m': MedSpan)
    requires MedChoice(s, m) && MedChoice(s, m')
    ensures m == m'
  {
    MedAtGreedy(s, m);
    MedAtGreedy(s, m');
  }

  /**
   * The inner dosage pattern always succeeds on group 2 of a medication
   * match, and it captures the same digits and unit.
   */
  lemma InnerDoseAgrees(s: string, m: MedSpan)
    requires IsMedMatch(s, m)
    ensures var g := s[m.dose.start..m.dose.end];
      && FindDose(g).Some?
      && g[FindDose(g).value.start..FindDose(g).value.digitsEnd] == s[m.dose.start..m.dose.digitsEnd]
      && g[FindDose(g).value.unitStart..FindDose(g).value.end] == s[m.dose.unitStart..m.dose.end]
  {
    InnerFindsShifted(s, m.dose);
    ShiftedSlices(s, m.dose, FindDose(s[m.dose.start..m.dose.end]).value);
  }

  /** The dosage match `m` of a line, shifted to the start of the text it spans. */
  function Shifted(m: DoseSpan): DoseSpan
    requires m.start <= m.digitsEnd <= m.unitStart <= m.end
  {
    DoseSpan(0, m.digitsEnd - m.start, m.unitStart - m.start, m.end - m.start)
  }

  /** The inner pattern applied to the text of a dosage match finds that match, shifted. */
  lemma InnerFindsShifted(s: string, m: DoseSpan)
    requires IsDoseMatch(s, m)
    ensures FindDose(s[m.start..m.end]) == Some(Shifted(m))
  {
    DoseShift(s, m);
    FindDoseFromStart(s[m.start..m.end], Shifted(m));
  }

  /** The groups of the shifted match, read in the text of the match, are the groups of `m` in the line. */
  lemma ShiftedSlices(s: string, m: DoseSpan, f: DoseSpan)
    requires m.start <= m.digitsEnd <= m.unitStart <= m.end <= |s|
    requires f == Shifted(m)
    ensures s[m.start..m.end][f.start..f.digitsEnd] == s[m.start..m.digitsEnd]
    ensures s[m.start..m.end][f.unitStart..f.end] == s[m.unitStart..m.end]
  {
    var g := s[m.start..m.end];
    assert forall k :: 0 <= k < f.digitsEnd ==> g[f.start..f.digitsEnd][k] == s[m.start..m.digitsEnd][k];
    assert forall k :: 0 <= k < f.end - f.unitStart ==> g[f.unitStart..f.end][k] == s[m.unitStart..m.end][k];
  }

  /** A dosage match cut out of its line is a dosage match of the cut-out text, from its start. */
  lemma DoseShift(s: string, m: DoseSpan)
    requires IsDoseMatch(s, m)
    ensures IsDoseMatch(s[m.start..m.end], Shifted(m))
  {
    var o := m.start;
    var g := s[o..m.end];
    var d := Shifted(m);
    assert g[d.unitStart..d.end] == s[m.unitStart..m.end];
    assert forall t :: 0 <= t < |g| ==> g[t] == s[o + t];
  }

  /** A dosage match at the very start of a text is the one `FindDose` reports. */
  lemma FindDoseFromStart(g: string, d: DoseSpan)
    requires IsDoseMatch(g, d) && d.start == 0
    ensures FindDose(g) == Some(d)
  {
    FindDoseIsLeftmost(g, d);
    var f := FindDose(g).value;
    DoseAtComplete(g, f);
    DoseAtComplete(g, d);
  }

  // ---------------------------------------------------------- frequency

  /**
   * Slices of a frequency match: digits (group 1) `[start, digitsEnd)`,
   * `fois|x` at `[timesStart, timesEnd)`, `par|/` at `[perStart, perEnd)`,
   * `jour` at `[dayStart, end)`.
   */
  datatype FreqSpan = FreqSpan(start: nat, digitsEnd: nat, timesStart: nat, timesEnd: nat,
                               perStart: nat, perEnd: nat, dayStart: nat, end: nat)

  /** The shape `(\d+)\s*(?:fois|x)\s*(?:par|\/)\s*jour`. */
  ghost predicate IsFreqMatch(s: string, f: FreqSpan) {
    && f.start < f.digitsEnd <= f.timesStart <= f.timesEnd <= f.perStart <= f.perEnd <= f.dayStart <= f.end <= |s|
    && AllIn(s, f.start, f.digitsEnd, Digits)
    && AllIn(s, f.digitsEnd, f.timesStart, Spaces)
    && IsOneOf(s[f.timesStart..f.timesEnd], Times)
    && AllIn(s, f.timesEnd, f.perStart, Spaces)
    && IsOneOf(s[f.perStart..f.perEnd], Per)
    && AllIn(s, f.perEnd, f.dayStart, Spaces)
    && IsOneOf(s[f.dayStart..f.end], Day)
  }

  /** The match JavaScript reports: a frequency match has no other split, so the leftmost one. */
  ghost predicate FreqChoice(s: string, f: FreqSpan) {
    IsFreqMatch(s, f) && forall f' :: IsFreqMatch(s, f') ==> f.start <= f'.start
  }

  function FreqAt(s: string, p: nat): (r: Option<FreqSpan>)
    ensures r.Some? ==> r.value.start == p && IsFreqMatch(s, r.value)
  {
    if p < |s| && IsDigit(s[p]) then
      var c := RunEnd(s, p, Digits);
      var d := RunEnd(s, c, Spaces);
      match AltAt(s, d, Times)
      case None => None
      case Some(e) =>
        var f := RunEnd(s, e, Spaces);
        match AltAt(s, f, Per)
        case None => None
        case Some(g) =>
          var h := RunEnd(s, g, Spaces);
          match AltAt(s, h, Day)
          case None => None
          case Some(q) => Some(FreqSpan(p, c, d, e, f, g, h, q))
    else None
  }

  lemma FreqAtComplete(s: string, f: FreqSpan)
    requires IsFreqMatch(s, f)
    ensures FreqAt(s, f.start) == Some(f)
  {
    AllKeywords();
    KeywordStart(s, f.timesStart, f.timesEnd, Times);
    KeywordStart(s, f.perStart, f.perEnd, Per);
    KeywordStart(s, f.dayStart, f.end, Day);
    if f.digitsEnd < f.timesStart { assert IsSpace(s[f.digitsEnd]); }
    RunEndUnique(s, f.start, f.digitsEnd, Digits);
    RunEndUnique(s, f.digitsEnd, f.timesStart, Spaces);
    AltAtExact(s, f.timesStart, f.timesEnd, Times);
    RunEndUnique(s, f.timesEnd, f.perStart, Spaces);
    AltAtExact(s, f.perStart, f.perEnd, Per);
    RunEndUnique(s, f.perEnd, f.dayStart, Spaces);
    AltAtExact(s, f.dayStart, f.end, Day);
  }

  function FreqAtFn(s: string): nat -> Option<FreqSpan> {
    (p: nat) => FreqAt(s, p)
  }

  /** `frequencyPattern` applied to a line. */
  function FindFreq(s: string): (r: Option<FreqSpan>)
    ensures r.Some? ==> IsFreqMatch(s, r.value)
  {
    match Leftmost(|s|, 0, FreqAtFn(s))
    case Some((_, f)) => Some(f)
    case None => None
  }

  /** No frequency match starts before the one `FindFreq` reports. */
  lemma FindFreqLeftmost(s: string, f: FreqSpan)
    requires IsFreqMatch(s, f)
    ensures FindFreq(s).Some? && FindFreq(s).value.start <= f.start
  {
    FreqAtComplete(s, f);
    assert FreqAtFn(s)(f.start).Some?;
  }

  /** `FindFreq` reports exactly the match JavaScript reports, and fails exactly when there is none. */
  lemma FindFreqIsChoice(s: string)
    ensures FindFreq(s).Some? ==> FreqChoice(s, FindFreq(s).value)
    ensures FindFreq(s).None? <==> forall f :: !IsFreqMatch(s, f)
  {
    forall f | IsFreqMatch(s, f)
      ensures FindFreq(s).Some? && FindFreq(s).value.start <= f.start
    {
      FindFreqLeftmost(s, f);
    }
  }

  /** The leftmost frequency match is unique. */
  lemma FreqChoiceUnique(s: string, f: FreqSpan, f': FreqSpan)
    requires FreqChoice(s, f) && FreqChoice(s, f')
    ensures f == f'
  {
    assert f.start <= f'.start && f'.start <= f.start;
    FreqSameStart(s, f, f');
  }

  /** A frequency match is determined by where it starts. */
  lemma FreqSameStart(s: string, f: FreqSpan, f': FreqSpan)
    requires IsFreqMatch(s, f) && IsFreqMatch(s, f') && f.start == f'.start
    ensures f == f'
  {
    FreqAtComplete(s, f);
    FreqAtComplete(s, f');
  }

  // ----------------------------------------------------------- duration

  /**
   * Slices of a duration match: `pendant` at `[start, duringEnd)`, digits at
   * `[digitsStart, digitsEnd)`, `jour|semaine|mois` at `[periodStart, end)`.
   */
  datatype DurSpan = DurSpan(start: nat, duringEnd: nat, digitsStart: nat, digitsEnd: nat,
                             periodStart: nat, end: nat)

  /** The shape `pendant\s*(\d+)\s*(?:jour|semaine|mois)`. */
  ghost predicate IsDurMatch(s: string, u: DurSpan) {
    && u.start <= u.duringEnd <= u.digitsStart < u.digitsEnd <= u.periodStart <= u.end <= |s|
    && IsOneOf(s[u.start..u.duringEnd], During)
    && AllIn(s, u.duringEnd, u.digitsStart, Spaces)
    && AllIn(s, u.digitsStart, u.digitsEnd, Digits)
    && AllIn(s, u.digitsEnd, u.periodStart, Spaces)
    && IsOneOf(s[u.periodStart..u.end], Periods)
  }

  ghost predicate DurChoice(s: string, u: DurSpan) {
    IsDurMatch(s, u) && forall u' :: IsDurMatch(s, u') ==> u.start <= u'.start
  }

  function DurAt(s: string, p: nat): (r: Option<DurSpan>)
    ensures r.Some? ==> r.value.start == p && IsDurMatch(s, r.value)
  {
    match AltAt(s, p, During)
    case None => None
    case Some(a) =>
      var b := RunEnd(s, a, Spaces);
      if b < |s| && IsDigit(s[b]) then
        var c := RunEnd(s, b, Digits);
        var d := RunEnd(s, c, Spaces);
        match AltAt(s, d, Periods)
        case None => None
        case Some(q) => Some(DurSpan(p, a, b, c, d, q))
      else None
  }

  lemma DurAtComplete(s: string, u: DurSpan)
    requires IsDurMatch(s, u)
    ensures DurAt(s, u.start) == Some(u)
  {
    AllKeywords();
    KeywordStart(s, u.periodStart, u.end, Periods);
    AltAtExact(s, u.start, u.duringEnd, During);
    RunEndUnique(s, u.duringEnd, u.digitsStart, Spaces);
    if u.digitsEnd < u.periodStart { assert IsSpace(s[u.digitsEnd]); }
    RunEndUnique(s, u.digitsStart, u.digitsEnd, Digits);
    RunEndUnique(s, u.digitsEnd, u.periodStart, Spaces);
    AltAtExact(s, u.periodStart, u.end, Periods);
  }

  function DurAtFn(s: string): nat -> Option<DurSpan> {
    (p: nat) => DurAt(s, p)
  }

  /** `durationPattern` applied to a line. */
  function FindDur(s: string): (r: Option<DurSpan>)
    ensures r.Some? ==> IsDurMatch(s, r.value)
  {
    match Leftmost(|s|, 0, DurAtFn(s))
    case Some((_, u)) => Some(u)
    case None => None
  }

  /** No duration match starts before the one `FindDur` reports. */
  lemma FindDurLeftmost(s: string, u: DurSpan)
    requires IsDurMatch(s, u)
    ensures FindDur(s).Some? && FindDur(s).value.start <= u.start
  {
    DurAtComplete(s, u);
    assert DurAtFn(s)(u.start).Some?;
  }

  /** `FindDur` reports exactly the match JavaScript reports, and fails exactly when there is none. */
  lemma FindDurIsChoice(s: string)
    ensures FindDur(s).Some? ==> DurChoice(s, FindDur(s).value)
    ensures FindDur(s).None? <==> forall u :: !IsDurMatch(s, u)
  {
    forall u | IsDurMatch(s, u)
      ensures FindDur(s).Some? && FindDur(s).value.start <= u.start
    {
      FindDurLeftmost(s, u);
    }
  }

  /** The leftmost duration match is unique. */
  lemma DurChoiceUnique(s: string, u: DurSpan, u': DurSpan)
    requires DurChoice(s, u) && DurChoice(s, u')
    ensures u == u'
  {
    assert u.start <= u'.start && u'.start <= u.start;
    DurSameStart(s, u, u');
  }

  /** A duration match is determined by where it starts. */
  lemma DurSameStart(s: string, u: DurSpan, u': DurSpan)
    requires IsDurMatch(s, u) && IsDurMatch(s, u') && u.start == u'.start
    ensures u == u'
  {
    DurAtComplete(s, u);
    DurAtComplete(s, u');
  }
}
