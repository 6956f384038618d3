/**
 * The text the scanning screen's OCR stub resolves to during development,
 * and what the parser makes of it: the header line yields nothing, and each
 * of the three prescription lines yields one entry.
 *
 * Each line is written as a concatenation of short pieces, cut where the
 * patterns' groups begin; the value is the same string.
 */
module OcrSample {
  import opened Wrappers
  import opened Text
  import opened Patterns
  import opened Prescription

  const Header := "ORDONNANCE M\U{00C9}DICALE"
  const Line1 := "Parac\U{00E9}tamol " + "500mg - 2 comprim\U{00E9}s " + "3 fois par jour " + "pendant 5 jours"
  const Line2 := "Ibuprof\U{00E8}ne " + "200mg - 1 comprim\U{00E9} " + "matin et soir " + "pendant 3 jours"
  const Line3 := "Amoxicilline " + "1g - 1 comprim\U{00E9} " + "2 fois par jour " + "pendant 7 jours"

  /** The simulated OCR result: four lines joined by line feeds. */
  const SampleText := Header + "\n" + Line1 + "\n" + Line2 + "\n" + Line3

  const Entry1 := ScannedMedication("Parac\U{00E9}tamol", "500", "mg", Some("3 fois par jour"), Some("pendant 5 jour"))
  const Entry2 := ScannedMedication("Ibuprof\U{00E8}ne", "200", "mg", None, Some("pendant 3 jour"))
  const Entry3 := ScannedMedication("Amoxicilline", "1", "g", Some("2 fois par jour"), Some("pendant 7 jour"))

  // ------------------------------------------------- scanning, generically

  /** `Leftmost` passes over start positions at which nothing matches. */
  lemma LeftmostSkip<T>(n: nat, from: nat, to: nat, at: nat -> Option<T>)
    requires from <= to <= n
    requires forall q :: from <= q < to ==> at(q).None?
    ensures Leftmost(n, from, at) == Leftmost(n, to, at)
    decreases n - from
  {
    if from < to {
      LeftmostSkip(n, from + 1, to, at);
    }
  }

  /** A word present at `i` makes the slice it covers one of the alternatives. */
  lemma WordSlice(s: string, i: nat, w: string, ws: seq<string>)
    requires HasWordAt(s, i, w) && w in ws
    ensures IsOneOf(s[i..i + |w|], ws)
  {
    assert FoldStr(s[i..i + |w|]) == w;
  }

  /** An alternation fails where the character does not begin any of its words. */
  lemma {:induction false} AltAtMiss(s: string, i: nat, ws: seq<string>)
    requires i < |s|
    requires forall x :: 0 <= x < |ws| ==> ws[x] != [] && FoldAscii(s[i]) != ws[x][0]
    ensures AltAt(s, i, ws) == None
  {
    if ws != [] {
      assert !HasWordAt(s, i, ws[0]);
      AltAtMiss(s, i, ws[1..]);
    }
  }

  /** The medication match of a line that starts with its name run, directly followed by the dosage. */
  lemma FindMedAtStart(s: string, a: nat, d: DoseSpan)
    requires 0 < a == d.start
    requires AllIn(s, 0, a, NameChars) && IsDoseMatch(s, d)
    ensures FindMed(s) == Some(MedSpan(0, a, d))
  {
    RunEndUnique(s, 0, a, NameChars);
    RunEndUnique(s, a, a, Spaces);
    DoseAtComplete(s, d);
    assert MedAt(s, 0) == Some(MedSpan(0, a, d));
  }

  /** The shape of a dosage match, with the unit given as a word. */
  lemma DoseShape(s: string, d: DoseSpan, w: string)
    requires d.start < d.digitsEnd <= d.unitStart && d.end == d.unitStart + |w|
    requires AllIn(s, d.start, d.digitsEnd, Digits) && AllIn(s, d.digitsEnd, d.unitStart, Spaces)
    requires HasWordAt(s, d.unitStart, w) && w in Units
    ensures IsDoseMatch(s, d)
  {
    WordSlice(s, d.unitStart, w, Units);
  }

  /**
   * No frequency match starts at `q` when the digits there, and the spaces
   * after them, are followed by a character that begins neither `fois` nor `x`.
   */
  lemma FreqMissAt(s: string, q: nat, c: nat, d: nat)
    requires q < c <= d < |s|
    requires AllIn(s, q, c, Digits) && !IsDigit(s[c])
    requires AllIn(s, c, d, Spaces) && !IsSpace(s[d])
    requires FoldAscii(s[d]) != 'f' && FoldAscii(s[d]) != 'x'
    ensures FreqAt(s, q).None?
  {
    RunEndUnique(s, q, c, Digits);
    RunEndUnique(s, c, d, Spaces);
    AltAtMiss(s, d, Times);
  }

  /** Positions at none of which a frequency match starts, gathered into one list. */
  lemma FreqMissTwo(s: string, a: nat, b: nat)
    requires FreqAt(s, a).None? && FreqAt(s, b).None?
    ensures forall q :: q in [a, b] ==> FreqAt(s, q).None?
  {
  }

  lemma FreqMissFour(s: string, a: nat, b: nat, c: nat, d: nat)
    requires FreqAt(s, a).None? && FreqAt(s, b).None? && FreqAt(s, c).None? && FreqAt(s, d).None?
    ensures forall q :: q in [a, b, c, d] ==> FreqAt(s, q).None?
  {
  }

  lemma FreqMissFive(s: string, a: nat, b: nat, c: nat, d: nat, e: nat)
    requires FreqAt(s, a).None? && FreqAt(s, b).None? && FreqAt(s, c).None? && FreqAt(s, d).None? && FreqAt(s, e).None?
    ensures forall q :: q in [a, b, c, d, e] ==> FreqAt(s, q).None?
  {
  }

  /** The shape of a frequency match, with its keywords given as words. */
  lemma FreqShape(s: string, f: FreqSpan, times: string, per: string)
    requires f.start < f.digitsEnd <= f.timesStart && f.timesEnd == f.timesStart + |times|
    requires f.timesEnd <= f.perStart && f.perEnd == f.perStart + |per|
    requires f.perEnd <= f.dayStart && f.end == f.dayStart + 4
    requires AllIn(s, f.start, f.digitsEnd, Digits) && AllIn(s, f.digitsEnd, f.timesStart, Spaces)
    requires AllIn(s, f.timesEnd, f.perStart, Spaces) && AllIn(s, f.perEnd, f.dayStart, Spaces)
    requires HasWordAt(s, f.timesStart, times) && times in Times
    requires HasWordAt(s, f.perStart, per) && per in Per
    requires HasWordAt(s, f.dayStart, "jour")
    ensures IsFreqMatch(s, f)
  {
    WordSlice(s, f.timesStart, times, Times);
    WordSlice(s, f.perStart, per, Per);
    WordSlice(s, f.dayStart, "jour", Day);
  }

  /**
   * A frequency match is the one the pattern reports when no match starts
   * before it: no digit stands before it except at the positions `ms`, at
   * none of which a match starts.
   */
  lemma FindFreqAfter(s: string, f: FreqSpan, ms: seq<nat>)
    requires IsFreqMatch(s, f)
    requires forall q :: 0 <= q < f.start && q !in ms ==> !IsDigit(s[q])
    requires forall q :: q in ms ==> FreqAt(s, q).None?
    ensures FindFreq(s) == Some(f)
  {
    FreqAtComplete(s, f);
    LeftmostSkip(|s|, 0, f.start, FreqAtFn(s));
  }

  /** A line has no frequency match when no digit stands outside `ms`, at none of which a match starts. */
  lemma FindFreqNone(s: string, ms: seq<nat>)
    requires forall q :: 0 <= q < |s| && q !in ms ==> !IsDigit(s[q])
    requires forall q :: q in ms ==> FreqAt(s, q).None?
    ensures FindFreq(s) == None
  {
    LeftmostSkip(|s|, 0, |s|, FreqAtFn(s));
  }

  /** No duration match starts at `q` when the text there departs from `pendant` at offset `k`. */
  lemma DurMissAt(s: string, q: nat, k: nat)
    requires k < 7 && q + k < |s| && FoldAscii(s[q + k]) != "pendant"[k]
    ensures DurAt(s, q).None?
  {
    assert !HasWordAt(s, q, During[0]);
    assert During[1..] == [];
  }

  /** Positions at none of which a duration match starts, gathered into one list. */
  lemma DurMissTwo(s: string, a: nat, b: nat)
    requires DurAt(s, a).None? && DurAt(s, b).None?
    ensures forall q :: q in [a, b] ==> DurAt(s, q).None?
  {
  }

  lemma DurMissThree(s: string, a: nat, b: nat, c: nat)
    requires DurAt(s, a).None? && DurAt(s, b).None? && DurAt(s, c).None?
    ensures forall q :: q in [a, b, c] ==> DurAt(s, q).None?
  {
  }

  /** The shape of a duration match, with its period given as a word. */
  lemma DurShape(s: string, u: DurSpan, period: string)
    requires u.duringEnd == u.start + 7 && u.duringEnd <= u.digitsStart < u.digitsEnd <= u.periodStart
    requires u.end == u.periodStart + |period| <= |s|
    requires HasWordAt(s, u.start, "pendant")
    requires AllIn(s, u.duringEnd, u.digitsStart, Spaces) && AllIn(s, u.digitsStart, u.digitsEnd, Digits)
    requires AllIn(s, u.digitsEnd, u.periodStart, Spaces)
    requires HasWordAt(s, u.periodStart, period) && period in Periods
    ensures IsDurMatch(s, u)
  {
    WordSlice(s, u.start, "pendant", During);
    WordSlice(s, u.periodStart, period, Periods);
  }

  /**
   * A duration match is the one the pattern reports when no match starts
   * before it: no `p` stands before it except at the positions `ms`, at none
   * of which a match starts.
   */
  lemma FindDurAfter(s: string, u: DurSpan, ms: seq<nat>)
    requires IsDurMatch(s, u)
    requires forall q :: 0 <= q < u.start && q !in ms ==> FoldAscii(s[q]) != 'p'
    requires forall q :: q in ms ==> DurAt(s, q).None?
    ensures FindDur(s) == Some(u)
  {
    forall q | 0 <= q < u.start && q !in ms ensures DurAt(s, q).None? {
      AltAtMiss(s, q, During);
    }
    DurAtComplete(s, u);
    LeftmostSkip(|s|, 0, u.start, DurAtFn(s));
  }

  /** The entry of a line, read off its medication match. */
  lemma ParseLineFrom(s: string, m: MedSpan)
    requires FindMed(s) == Some(m)
    ensures ParseLine(s) == Some(ScannedMedication(
      Capitalize(Trim(s[m.start..m.nameEnd])),
      s[m.dose.start..m.dose.digitsEnd],
      Lower(s[m.dose.unitStart..m.dose.end]),
      FrequencyOf(s),
      DurationOf(s)))
  {
    InnerFindsShifted(s, m.dose);
    ShiftedSlices(s, m.dose, Shifted(m.dose));
  }

  /** The first piece of a line made of four. */
  lemma FirstPiece(a: string, b: string, c: string, d: string)
    ensures (a + b + c + d)[0..|a|] == a
  {
  }

  /**
   * The name a piece made of a word followed by one space yields: the word,
   * when it starts with a capital and continues in lower case.
   */
  lemma NameOfPiece(s: string)
    requires |s| >= 2 && !IsSpace(s[0]) && !IsSpace(s[|s| - 2]) && s[|s| - 1] == ' '
    requires UpperChar(s[0]) == [s[0]]
    requires forall k :: 1 <= k < |s| - 1 ==> LowerChar(s[k]) == s[k]
    ensures Capitalize(Trim(s)) == s[..|s| - 1]
  {
    assert LeadingSpaces(s) == 0;
    assert TrailingSpaces(s[..|s| - 1]) == 0;
    assert TrailingSpaces(s) == 1;
    var w := s[..|s| - 1];
    assert Trim(s) == w;
    LowerKeeps(w[1..]);
  }

  /** A string already in lower case is left as it is. */
  lemma LowerKeeps(s: string)
    requires forall k :: 0 <= k < |s| ==> LowerChar(s[k]) == s[k]
    ensures Lower(s) == s
  {
  }

  // ------------------------------------------------------------ line 1

  lemma Line1Med()
    ensures FindMed(Line1) == Some(MedSpan(0, 12, DoseSpan(12, 15, 15, 17)))
  {
    assert AllIn(Line1, 0, 12, NameChars);
    assert AllIn(Line1, 12, 15, Digits) && HasWordAt(Line1, 15, "mg");
    DoseShape(Line1, DoseSpan(12, 15, 15, 17), "mg");
    FindMedAtStart(Line1, 12, DoseSpan(12, 15, 15, 17));
  }

  lemma Line1Digits()
    ensures forall q :: 0 <= q < 32 && q !in [12, 13, 14, 20] ==> !IsDigit(Line1[q])
  {
  }

  lemma Line1FreqMiss12()
    ensures FreqAt(Line1, 12).None?
  {
    assert Line1[14] == '0' && Line1[15] == 'm';
    FreqMissAt(Line1, 12, 15, 15);
  }

  lemma Line1FreqMiss13()
    ensures FreqAt(Line1, 13).None?
  {
    assert Line1[14] == '0' && Line1[15] == 'm';
    FreqMissAt(Line1, 13, 15, 15);
  }

  lemma Line1FreqMiss14()
    ensures FreqAt(Line1, 14).None?
  {
    assert Line1[14] == '0' && Line1[15] == 'm';
    FreqMissAt(Line1, 14, 15, 15);
  }

  lemma Line1FreqMiss20()
    ensures FreqAt(Line1, 20).None?
  {
    assert Line1[20] == '2' && Line1[21] == ' ' && Line1[22] == 'c';
    FreqMissAt(Line1, 20, 21, 22);
  }

  lemma Line1FreqWords()
    ensures HasWordAt(Line1, 34, "fois") && HasWordAt(Line1, 39, "par") && HasWordAt(Line1, 43, "jour")
  {
  }

  lemma Line1FreqShape()
    ensures IsFreqMatch(Line1, FreqSpan(32, 33, 34, 38, 39, 42, 43, 47))
  {
    assert IsDigit(Line1[32]) && IsSpace(Line1[33]) && IsSpace(Line1[38]) && IsSpace(Line1[42]);
    Line1FreqWords();
    FreqShape(Line1, FreqSpan(32, 33, 34, 38, 39, 42, 43, 47), "fois", "par");
  }

  lemma Line1FreqMisses()
    ensures forall q :: q in [12, 13, 14, 20] ==> FreqAt(Line1, q).None?
  {
    Line1FreqMiss12();
    Line1FreqMiss13();
    Line1FreqMiss14();
    Line1FreqMiss20();
    FreqMissFour(Line1, 12, 13, 14, 20);
  }

  lemma Line1Freq()
    ensures FindFreq(Line1) == Some(FreqSpan(32, 33, 34, 38, 39, 42, 43, 47))
  {
    Line1FreqShape();
    Line1Digits();
    Line1FreqMisses();
    FindFreqAfter(Line1, FreqSpan(32, 33, 34, 38, 39, 42, 43, 47), [12, 13, 14, 20]);
  }

  lemma Line1Ps()
    ensures forall q :: 0 <= q < 48 && q !in [0, 25, 39] ==> FoldAscii(Line1[q]) != 'p'
  {
  }

  lemma Line1DurMiss0()
    ensures DurAt(Line1, 0).None?
  {
    assert Line1[1] == 'a';
    DurMissAt(Line1, 0, 1);
  }

  lemma Line1DurMiss25()
    ensures DurAt(Line1, 25).None?
  {
    assert Line1[26] == 'r';
    DurMissAt(Line1, 25, 1);
  }

  lemma Line1DurMiss39()
    ensures DurAt(Line1, 39).None?
  {
    assert Line1[40] == 'a';
    DurMissAt(Line1, 39, 1);
  }

  lemma Line1DurShape()
    ensures IsDurMatch(Line1, DurSpan(48, 55, 56, 57, 58, 62))
  {
    assert IsSpace(Line1[55]) && IsDigit(Line1[56]) && IsSpace(Line1[57]);
    assert HasWordAt(Line1, 48, "pendant") && HasWordAt(Line1, 58, "jour");
    DurShape(Line1, DurSpan(48, 55, 56, 57, 58, 62), "jour");
  }

  lemma Line1DurMisses()
    ensures forall q :: q in [0, 25, 39] ==> DurAt(Line1, q).None?
  {
    Line1DurMiss0();
    Line1DurMiss25();
    Line1DurMiss39();
    DurMissThree(Line1, 0, 25, 39);
  }

  lemma Line1Dur()
    ensures FindDur(Line1) == Some(DurSpan(48, 55, 56, 57, 58, 62))
  {
    Line1DurShape();
    Line1Ps();
    Line1DurMisses();
    FindDurAfter(Line1, DurSpan(48, 55, 56, 57, 58, 62), [0, 25, 39]);
  }

  lemma Line1Name()
    ensures Capitalize(Trim(Line1[0..12])) == "Parac\U{00E9}tamol"
  {
    FirstPiece("Parac\U{00E9}tamol ", "500mg - 2 comprim\U{00E9}s ", "3 fois par jour ", "pendant 5 jours");
    NameOfPiece("Parac\U{00E9}tamol ");
  }

  lemma Line1Slices()
    ensures Line1[12..15] == "500" && Lower(Line1[15..17]) == "mg"
    ensures Line1[32..33] + " fois par jour" == "3 fois par jour"
    ensures Line1[48..62] == "pendant 5 jour"
  {
    assert Line1[15..17] == "mg";
    LowerKeeps("mg");
  }

  lemma Line1Entry()
    ensures ParseLine(Line1) == Some(Entry1)
  {
    Line1Med();
    Line1Freq();
    Line1Dur();
    ParseLineFrom(Line1, MedSpan(0, 12, DoseSpan(12, 15, 15, 17)));
    Line1Name();
    Line1Slices();
  }

  // ------------------------------------------------------------ line 2

  lemma Line2Med()
    ensures FindMed(Line2) == Some(MedSpan(0, 11, DoseSpan(11, 14, 14, 16)))
  {
    assert AllIn(Line2, 0, 11, NameChars);
    assert AllIn(Line2, 11, 14, Digits) && HasWordAt(Line2, 14, "mg");
    DoseShape(Line2, DoseSpan(11, 14, 14, 16), "mg");
    FindMedAtStart(Line2, 11, DoseSpan(11, 14, 14, 16));
  }

  lemma Line2Digits()
    ensures forall q :: 0 <= q < |Line2| && q !in [11, 12, 13, 19, 52] ==> !IsDigit(Line2[q])
  {
  }

  lemma Line2FreqMiss11()
    ensures FreqAt(Line2, 11).None?
  {
    assert Line2[13] == '0' && Line2[14] == 'm';
    FreqMissAt(Line2, 11, 14, 14);
  }

  lemma Line2FreqMiss12()
    ensures FreqAt(Line2, 12).None?
  {
    assert Line2[13] == '0' && Line2[14] == 'm';
    FreqMissAt(Line2, 12, 14, 14);
  }

  lemma Line2FreqMiss13()
    ensures FreqAt(Line2, 13).None?
  {
    assert Line2[13] == '0' && Line2[14] == 'm';
    FreqMissAt(Line2, 13, 14, 14);
  }

  lemma Line2FreqMiss19()
    ensures FreqAt(Line2, 19).None?
  {
    assert Line2[19] == '1' && Line2[20] == ' ' && Line2[21] == 'c';
    FreqMissAt(Line2, 19, 20, 21);
  }

  lemma Line2FreqMiss52()
    ensures FreqAt(Line2, 52).None?
  {
    assert Line2[52] == '3' && Line2[53] == ' ' && Line2[54] == 'j';
    FreqMissAt(Line2, 52, 53, 54);
  }

  /** The second line has no frequency: each of its digit runs is followed by a unit or by other words. */
  lemma Line2FreqMisses()
    ensures forall q :: q in [11, 12, 13, 19, 52] ==> FreqAt(Line2, q).None?
  {
    Line2FreqMiss11();
    Line2FreqMiss12();
    Line2FreqMiss13();
    Line2FreqMiss19();
    Line2FreqMiss52();
    FreqMissFive(Line2, 11, 12, 13, 19, 52);
  }

  lemma Line2Freq()
    ensures FindFreq(Line2) == None
  {
    Line2Digits();
    Line2FreqMisses();
    FindFreqNone(Line2, [11, 12, 13, 19, 52]);
  }

  lemma Line2Ps()
    ensures forall q :: 0 <= q < 44 && q !in [3, 24] ==> FoldAscii(Line2[q]) != 'p'
  {
  }

  lemma Line2DurMiss3()
    ensures DurAt(Line2, 3).None?
  {
    assert Line2[4] == 'r';
    DurMissAt(Line2, 3, 1);
  }

  lemma Line2DurMiss24()
    ensures DurAt(Line2, 24).None?
  {
    assert Line2[25] == 'r';
    DurMissAt(Line2, 24, 1);
  }

  lemma Line2DurShape()
    ensures IsDurMatch(Line2, DurSpan(44, 51, 52, 53, 54, 58))
  {
    assert IsSpace(Line2[51]) && IsDigit(Line2[52]) && IsSpace(Line2[53]);
    assert HasWordAt(Line2, 44, "pendant") && HasWordAt(Line2, 54, "jour");
    DurShape(Line2, DurSpan(44, 51, 52, 53, 54, 58), "jour");
  }

  lemma Line2DurMisses()
    ensures forall q :: q in [3, 24] ==> DurAt(Line2, q).None?
  {
    Line2DurMiss3();
    Line2DurMiss24();
    DurMissTwo(Line2, 3, 24);
  }

  lemma Line2Dur()
    ensures FindDur(Line2) == Some(DurSpan(44, 51, 52, 53, 54, 58))
  {
    Line2DurShape();
    Line2Ps();
    Line2DurMisses();
    FindDurAfter(Line2, DurSpan(44, 51, 52, 53, 54, 58), [3, 24]);
  }

  lemma Line2Name()
    ensures Capitalize(Trim(Line2[0..11])) == "Ibuprof\U{00E8}ne"
  {
    FirstPiece("Ibuprof\U{00E8}ne ", "200mg - 1 comprim\U{00E9} ", "matin et soir ", "pendant 3 jours");
    NameOfPiece("Ibuprof\U{00E8}ne ");
  }

  lemma Line2Slices()
    ensures Line2[11..14] == "200" && Lower(Line2[14..16]) == "mg"
    ensures Line2[44..58] == "pendant 3 jour"
  {
    assert Line2[14..16] == "mg";
    LowerKeeps("mg");
  }

  lemma Line2Entry()
    ensures ParseLine(Line2) == Some(Entry2)
  {
    Line2Med();
    Line2Freq();
    Line2Dur();
    ParseLineFrom(Line2, MedSpan(0, 11, DoseSpan(11, 14, 14, 16)));
    Line2Name();
    Line2Slices();
  }

  // ------------------------------------------------------------ line 3

  lemma Line3Med()
    ensures FindMed(Line3) == Some(MedSpan(0, 13, DoseSpan(13, 14, 14, 15)))
  {
    assert AllIn(Line3, 0, 13, NameChars);
    assert AllIn(Line3, 13, 14, Digits) && HasWordAt(Line3, 14, "g");
    DoseShape(Line3, DoseSpan(13, 14, 14, 15), "g");
    FindMedAtStart(Line3, 13, DoseSpan(13, 14, 14, 15));
  }

  lemma Line3Digits()
    ensures forall q :: 0 <= q < 29 && q !in [13, 18] ==> !IsDigit(Line3[q])
  {
  }

  lemma Line3FreqMiss13()
    ensures FreqAt(Line3, 13).None?
  {
    assert Line3[13] == '1' && Line3[14] == 'g';
    FreqMissAt(Line3, 13, 14, 14);
  }

  lemma Line3FreqMiss18()
    ensures FreqAt(Line3, 18).None?
  {
    assert Line3[18] == '1' && Line3[19] == ' ' && Line3[20] == 'c';
    FreqMissAt(Line3, 18, 19, 20);
  }

  lemma Line3FreqWords()
    ensures HasWordAt(Line3, 31, "fois") && HasWordAt(Line3, 36, "par") && HasWordAt(Line3, 40, "jour")
  {
  }

  lemma Line3FreqShape()
    ensures IsFreqMatch(Line3, FreqSpan(29, 30, 31, 35, 36, 39, 40, 44))
  {
    assert IsDigit(Line3[29]) && IsSpace(Line3[30]) && IsSpace(Line3[35]) && IsSpace(Line3[39]);
    Line3FreqWords();
    FreqShape(Line3, FreqSpan(29, 30, 31, 35, 36, 39, 40, 44), "fois", "par");
  }

  lemma Line3FreqMisses()
    ensures forall q :: q in [13, 18] ==> FreqAt(Line3, q).None?
  {
    Line3FreqMiss13();
    Line3FreqMiss18();
    FreqMissTwo(Line3, 13, 18);
  }

  lemma Line3Freq()
    ensures FindFreq(Line3) == Some(FreqSpan(29, 30, 31, 35, 36, 39, 40, 44))
  {
    Line3FreqShape();
    Line3Digits();
    Line3FreqMisses();
    FindFreqAfter(Line3, FreqSpan(29, 30, 31, 35, 36, 39, 40, 44), [13, 18]);
  }

  lemma Line3Ps()
    ensures forall q :: 0 <= q < 45 && q !in [23, 36] ==> FoldAscii(Line3[q]) != 'p'
  {
  }

  lemma Line3DurMiss23()
    ensures DurAt(Line3, 23).None?
  {
    assert Line3[24] == 'r';
    DurMissAt(Line3, 23, 1);
  }

  lemma Line3DurMiss36()
    ensures DurAt(Line3, 36).None?
  {
    assert Line3[37] == 'a';
    DurMissAt(Line3, 36, 1);
  }

  lemma Line3DurShape()
    ensures IsDurMatch(Line3, DurSpan(45, 52, 53, 54, 55, 59))
  {
    assert IsSpace(Line3[52]) && IsDigit(Line3[53]) && IsSpace(Line3[54]);
    assert HasWordAt(Line3, 45, "pendant") && HasWordAt(Line3, 55, "jour");
    DurShape(Line3, DurSpan(45, 52, 53, 54, 55, 59), "jour");
  }

  lemma Line3DurMisses()
    ensures forall q :: q in [23, 36] ==> DurAt(Line3, q).None?
  {
    Line3DurMiss23();
    Line3DurMiss36();
    DurMissTwo(Line3, 23, 36);
  }

  lemma Line3Dur()
    ensures FindDur(Line3) == Some(DurSpan(45, 52, 53, 54, 55, 59))
  {
    Line3DurShape();
    Line3Ps();
    Line3DurMisses();
    FindDurAfter(Line3, DurSpan(45, 52, 53, 54, 55, 59), [23, 36]);
  }

  lemma Line3Name()
    ensures Capitalize(Trim(Line3[0..13])) == "Amoxicilline"
  {
    FirstPiece("Amoxicilline ", "1g - 1 comprim\U{00E9} ", "2 fois par jour ", "pendant 7 jours");
    NameOfPiece("Amoxicilline ");
  }

  lemma Line3Slices()
    ensures Line3[13..14] == "1" && Lower(Line3[14..15]) == "g"
    ensures Line3[29..30] + " fois par jour" == "2 fois par jour"
    ensures Line3[45..59] == "pendant 7 jour"
  {
    assert Line3[14..15] == "g";
    LowerKeeps("g");
  }

  lemma Line3Entry()
    ensures ParseLine(Line3) == Some(Entry3)
  {
    Line3Med();
    Line3Freq();
    Line3Dur();
    ParseLineFrom(Line3, MedSpan(0, 13, DoseSpan(13, 14, 14, 15)));
    Line3Name();
    Line3Slices();
  }

  // ------------------------------------------------------------ the text

  /** Four lines joined by line feeds. */
  lemma JoinFour(a: string, b: string, c: string, d: string)
    ensures JoinLines([a, b, c, d]) == a + "\n" + b + "\n" + c + "\n" + d
  {
    assert [a, b, c, d][1..] == [b, c, d];
    assert [b, c, d][1..] == [c, d];
    assert [c, d][1..] == [d];
    assert JoinLines([c, d]) == c + "\n" + d;
    assert JoinLines([b, c, d]) == b + "\n" + (c + "\n" + d);
    assert JoinLines([a, b, c, d]) == a + "\n" + (b + "\n" + (c + "\n" + d));
    assert b + "\n" + (c + "\n" + d) == b + "\n" + c + "\n" + d;
    assert a + "\n" + (b + "\n" + c + "\n" + d) == a + "\n" + b + "\n" + c + "\n" + d;
  }

  /** What `Collect` builds from four elements, the first yielding nothing. */
  lemma CollectFour<T>(a: string, b: string, c: string, d: string, f: string -> Option<T>, x: T, y: T, z: T)
    requires f(a).None? && f(b) == Some(x) && f(c) == Some(y) && f(d) == Some(z)
    ensures Collect([a, b, c, d], f) == [x, y, z]
  {
    CollectSnoc([], a, f);
    assert [] + [a] == [a];
    CollectSnoc([a], b, f);
    assert [a] + [b] == [a, b];
    CollectSnoc([a, b], c, f);
    assert [a, b] + [c] == [a, b, c];
    CollectSnoc([a, b, c], d, f);
    assert [a, b, c] + [d] == [a, b, c, d];
  }

  lemma HeaderNoLineFeed()
    ensures '\n' !in Header
  {
    assert forall i :: 0 <= i < |Header| ==> Header[i] != '\n';
  }

  lemma Line1NoLineFeed()
    ensures '\n' !in Line1
  {
    assert forall i :: 0 <= i < |Line1| ==> Line1[i] != '\n';
  }

  lemma Line2NoLineFeed()
    ensures '\n' !in Line2
  {
    assert forall i :: 0 <= i < |Line2| ==> Line2[i] != '\n';
  }

  lemma Line3NoLineFeed()
    ensures '\n' !in Line3
  {
    assert forall i :: 0 <= i < |Line3| ==> Line3[i] != '\n';
  }

  /** `text.split('\n')` gives back the four lines. */
  lemma SampleLines()
    ensures SplitLines(SampleText) == [Header, Line1, Line2, Line3]
  {
    HeaderNoLineFeed();
    Line1NoLineFeed();
    Line2NoLineFeed();
    Line3NoLineFeed();
    JoinFour(Header, Line1, Line2, Line3);
    SplitJoin([Header, Line1, Line2, Line3]);
  }

  /** The header has no digit, so it yields no entry. */
  lemma HeaderYieldsNothing()
    ensures ParseLine(Header) == None
  {
    assert forall i :: 0 <= i < |Header| ==> !IsDigit(Header[i]);
    NoDigitNoEntry(Header);
  }

  /**
   * On the simulated OCR text the parser yields exactly three entries, in
   * line order: the header is dropped, the second entry has no frequency,
   * and each duration is the phrase without the plural `s`.
   */
  lemma SampleTextEntries()
    ensures ParseText(SampleText) == [Entry1, Entry2, Entry3]
  {
    SampleLines();
    BlankLinesIrrelevant([Header, Line1, Line2, Line3]);
    HeaderYieldsNothing();
    Line1Entry();
    Line2Entry();
    Line3Entry();
    CollectFour(Header, Line1, Line2, Line3, ParseLine, Entry1, Entry2, Entry3);
  }
}
