/**
 * Worked examples for the citation parser: file names from the course
 * material and the citations they produce.
 */
module CitationExamples {
  import opened Text
  import opened Regex
  import opened Citations

  const LectureSlidesName := "lecture_8_slides_26-27.pdf"
  const LectureSlidesBounds: seq<nat> := [0, 1, 2, 3, 4, 5, 6, 7, 8, 9, 10, 11, 12, 13, 14, 15, 16, 17, 22]

  lemma {:induction false} LectureSlidesFits0()
    ensures forall t :: 0 <= t < 4 ==> FitsFirstTry(LectureSlidesPattern.atoms[t], LectureSlidesName, LectureSlidesBounds[t], LectureSlidesBounds[t + 1], true)
  {
    forall t | 0 <= t < 4 ensures FitsFirstTry(LectureSlidesPattern.atoms[t], LectureSlidesName, LectureSlidesBounds[t], LectureSlidesBounds[t + 1], true) {
      assert t == 0 || t == 1 || t == 2 || t == 3;
    }
  }

  lemma {:induction false} LectureSlidesFits4()
    ensures forall t :: 4 <= t < 8 ==> FitsFirstTry(LectureSlidesPattern.atoms[t], LectureSlidesName, LectureSlidesBounds[t], LectureSlidesBounds[t + 1], true)
  {
    forall t | 4 <= t < 8 ensures FitsFirstTry(LectureSlidesPattern.atoms[t], LectureSlidesName, LectureSlidesBounds[t], LectureSlidesBounds[t + 1], true) {
      assert t == 4 || t == 5 || t == 6 || t == 7;
    }
  }

  lemma {:induction false} LectureSlidesFits8()
    ensures forall t :: 8 <= t < 12 ==> FitsFirstTry(LectureSlidesPattern.atoms[t], LectureSlidesName, LectureSlidesBounds[t], LectureSlidesBounds[t + 1], true)
  {
    forall t | 8 <= t < 12 ensures FitsFirstTry(LectureSlidesPattern.atoms[t], LectureSlidesName, LectureSlidesBounds[t], LectureSlidesBounds[t + 1], true) {
      assert t == 8 || t == 9 || t == 10 || t == 11;
    }
  }

  lemma {:induction false} LectureSlidesFits12()
    ensures forall t :: 12 <= t < 16 ==> FitsFirstTry(LectureSlidesPattern.atoms[t], LectureSlidesName, LectureSlidesBounds[t], LectureSlidesBounds[t + 1], true)
  {
    forall t | 12 <= t < 16 ensures FitsFirstTry(LectureSlidesPattern.atoms[t], LectureSlidesName, LectureSlidesBounds[t], LectureSlidesBounds[t + 1], true) {
      assert t == 12 || t == 13 || t == 14 || t == 15;
    }
  }

  lemma {:induction false} LectureSlidesFits16()
    ensures forall t :: 16 <= t < 18 ==> FitsFirstTry(LectureSlidesPattern.atoms[t], LectureSlidesName, LectureSlidesBounds[t], LectureSlidesBounds[t + 1], true)
  {
    forall t | 16 <= t < 18 ensures FitsFirstTry(LectureSlidesPattern.atoms[t], LectureSlidesName, LectureSlidesBounds[t], LectureSlidesBounds[t + 1], true) {
      assert t == 16 || t == 17;
    }
  }

  /** `LectureSlidesPattern` takes its first try on `lecture_8_slides_26-27.pdf`. */
  lemma {:induction false} LectureSlidesMatch()
    ensures MatchFrom(LectureSlidesPattern.atoms, LectureSlidesName, 0, true) == Some(LectureSlidesBounds)
  {
    LectureSlidesFits0(); LectureSlidesFits4(); LectureSlidesFits8(); LectureSlidesFits12(); LectureSlidesFits16();
    FirstTry(LectureSlidesPattern.atoms, LectureSlidesName, LectureSlidesBounds, true);
  }

  const ExamName := "exam_2023_q5.pdf"
  const ExamBounds: seq<nat> := [0, 1, 2, 3, 4, 5, 9, 10, 11, 12]

  lemma {:induction false} ExamFits0()
    ensures forall t :: 0 <= t < 4 ==> FitsFirstTry(ExamQPattern.atoms[t], ExamName, ExamBounds[t], ExamBounds[t + 1], true)
  {
    forall t | 0 <= t < 4 ensures FitsFirstTry(ExamQPattern.atoms[t], ExamName, ExamBounds[t], ExamBounds[t + 1], true) {
      assert t == 0 || t == 1 || t == 2 || t == 3;
    }
  }

  lemma {:induction false} ExamFits4()
    ensures forall t :: 4 <= t < 8 ==> FitsFirstTry(ExamQPattern.atoms[t], ExamName, ExamBounds[t], ExamBounds[t + 1], true)
  {
    forall t | 4 <= t < 8 ensures FitsFirstTry(ExamQPattern.atoms[t], ExamName, ExamBounds[t], ExamBounds[t + 1], true) {
      assert t == 4 || t == 5 || t == 6 || t == 7;
    }
  }

  lemma {:induction false} ExamFits8()
    ensures forall t :: 8 <= t < 9 ==> FitsFirstTry(ExamQPattern.atoms[t], ExamName, ExamBounds[t], ExamBounds[t + 1], true)
  {
    forall t | 8 <= t < 9 ensures FitsFirstTry(ExamQPattern.atoms[t], ExamName, ExamBounds[t], ExamBounds[t + 1], true) {
      assert t == 8;
    }
  }

  /** `ExamQPattern` takes its first try on `exam_2023_q5.pdf`. */
  lemma {:induction false} ExamMatch()
    ensures MatchFrom(ExamQPattern.atoms, ExamName, 0, true) == Some(ExamBounds)
  {
    ExamFits0(); ExamFits4(); ExamFits8();
    FirstTry(ExamQPattern.atoms, ExamName, ExamBounds, true);
  }

  const DatedSlidesName := "Slides-20251022_副本.pdf"
  const DatedSlidesBounds: seq<nat> := [0, 1, 2, 3, 4, 5, 6, 7, 15]

  lemma {:induction false} DatedSlidesFits0()
    ensures forall t :: 0 <= t < 4 ==> FitsFirstTry(DatedSlidesPattern.atoms[t], DatedSlidesName, DatedSlidesBounds[t], DatedSlidesBounds[t + 1], true)
  {
    forall t | 0 <= t < 4 ensures FitsFirstTry(DatedSlidesPattern.atoms[t], DatedSlidesName, DatedSlidesBounds[t], DatedSlidesBounds[t + 1], true) {
      assert t == 0 || t == 1 || t == 2 || t == 3;
    }
  }

  lemma {:induction false} DatedSlidesFits4()
    ensures forall t :: 4 <= t < 8 ==> FitsFirstTry(DatedSlidesPattern.atoms[t], DatedSlidesName, DatedSlidesBounds[t], DatedSlidesBounds[t + 1], true)
  {
    forall t | 4 <= t < 8 ensures FitsFirstTry(DatedSlidesPattern.atoms[t], DatedSlidesName, DatedSlidesBounds[t], DatedSlidesBounds[t + 1], true) {
      assert t == 4 || t == 5 || t == 6 || t == 7;
    }
  }

  /** `DatedSlidesPattern` takes its first try on `Slides-20251022_副本.pdf`. */
  lemma {:induction false} DatedSlidesMatch()
    ensures MatchFrom(DatedSlidesPattern.atoms, DatedSlidesName, 0, true) == Some(DatedSlidesBounds)
  {
    DatedSlidesFits0(); DatedSlidesFits4();
    FirstTry(DatedSlidesPattern.atoms, DatedSlidesName, DatedSlidesBounds, true);
  }

  const DatedLectureName := "lecture_20251022.pdf"
  const DatedLectureBounds: seq<nat> := [0, 1, 2, 3, 4, 5, 6, 7, 8, 16]

  lemma {:induction false} DatedLectureFits0()
    ensures forall t :: 0 <= t < 4 ==> FitsFirstTry(LectureNumberPattern.atoms[t], DatedLectureName, DatedLectureBounds[t], DatedLectureBounds[t + 1], true)
  {
    forall t | 0 <= t < 4 ensures FitsFirstTry(LectureNumberPattern.atoms[t], DatedLectureName, DatedLectureBounds[t], DatedLectureBounds[t + 1], true) {
      assert t == 0 || t == 1 || t == 2 || t == 3;
    }
  }

  lemma {:induction false} DatedLectureFits4()
    ensures forall t :: 4 <= t < 8 ==> FitsFirstTry(LectureNumberPattern.atoms[t], DatedLectureName, DatedLectureBounds[t], DatedLectureBounds[t + 1], true)
  {
    forall t | 4 <= t < 8 ensures FitsFirstTry(LectureNumberPattern.atoms[t], DatedLectureName, DatedLectureBounds[t], DatedLectureBounds[t + 1], true) {
      assert t == 4 || t == 5 || t == 6 || t == 7;
    }
  }

  lemma {:induction false} DatedLectureFits8()
    ensures forall t :: 8 <= t < 9 ==> FitsFirstTry(LectureNumberPattern.atoms[t], DatedLectureName, DatedLectureBounds[t], DatedLectureBounds[t + 1], true)
  {
    forall t | 8 <= t < 9 ensures FitsFirstTry(LectureNumberPattern.atoms[t], DatedLectureName, DatedLectureBounds[t], DatedLectureBounds[t + 1], true) {
      assert t == 8;
    }
  }

  /** `LectureNumberPattern` takes its first try on `lecture_20251022.pdf`. */
  lemma {:induction false} DatedLectureMatch()
    ensures MatchFrom(LectureNumberPattern.atoms, DatedLectureName, 0, true) == Some(DatedLectureBounds)
  {
    DatedLectureFits0(); DatedLectureFits4(); DatedLectureFits8();
    FirstTry(LectureNumberPattern.atoms, DatedLectureName, DatedLectureBounds, true);
  }

  const ReadmeName := "README.md"

  /** A pattern with a literal letter the name lacks in either case cannot
      match it. */
  lemma {:induction false} LitAbsent(p: Pattern, s: string, t: nat, c: char)
    requires t < |p.atoms| && p.atoms[t] == Lit(c) && p.ignoreCase && !IsUpper(c)
    requires c !in s && (IsLowerLetter(c) ==> (c as int - 32) as char !in s)
    ensures Search(p, s).None?
  {
    MatchNeedsChar(p, s, t);
    forall q | 0 <= q < |s| ensures !AtomChar(p.atoms[t].cls, s[q], true) {
      assert s[q] in s;
    }
  }

  /** A first-try match at position 0 is what `re.search` finds. */
  lemma {:induction false} FoundAtZero(p: Pattern, s: string, b: seq<nat>)
    requires MatchFrom(p.atoms, s, 0, p.ignoreCase) == Some(b)
    ensures Search(p, s) == Some(Match(0, b)) && IsTrace(p.atoms, s, b, p.ignoreCase)
  {
    MatchSound(p.atoms, s, 0, p.ignoreCase);
  }

  lemma {:induction false} ExamMissesLectureSlides()
    ensures Search(LectureSlidesPattern, ExamName).None?
  {
    LitAbsent(LectureSlidesPattern, ExamName, 0, 'l');
  }

  lemma {:induction false} ExamMissesLectureSlidesZh()
    ensures Search(LectureSlidesZhPattern, ExamName).None?
  {
    LitAbsent(LectureSlidesZhPattern, ExamName, 0, '第');
  }

  lemma {:induction false} ExamMissesDatedSlides()
    ensures Search(DatedSlidesPattern, ExamName).None?
  {
    LitAbsent(DatedSlidesPattern, ExamName, 0, 's');
  }

  lemma {:induction false} ExamMissesLectureCompact()
    ensures Search(LectureCompactPattern, ExamName).None?
  {
    LitAbsent(LectureCompactPattern, ExamName, 0, 'l');
  }

  lemma {:induction false} ExamMissesLectureNumber()
    ensures Search(LectureNumberPattern, ExamName).None?
  {
    LitAbsent(LectureNumberPattern, ExamName, 0, 'l');
  }

  lemma {:induction false} DatedSlidesMissesLectureSlides()
    ensures Search(LectureSlidesPattern, DatedSlidesName).None?
  {
    LitAbsent(LectureSlidesPattern, DatedSlidesName, 2, 'c');
  }

  lemma {:induction false} DatedSlidesMissesLectureSlidesZh()
    ensures Search(LectureSlidesZhPattern, DatedSlidesName).None?
  {
    LitAbsent(LectureSlidesZhPattern, DatedSlidesName, 0, '第');
  }

  lemma {:induction false} DatedLectureMissesLectureSlides()
    ensures Search(LectureSlidesPattern, DatedLectureName).None?
  {
    LitAbsent(LectureSlidesPattern, DatedLectureName, 10, 's');
  }

  lemma {:induction false} DatedLectureMissesLectureSlidesZh()
    ensures Search(LectureSlidesZhPattern, DatedLectureName).None?
  {
    LitAbsent(LectureSlidesZhPattern, DatedLectureName, 0, '第');
  }

  lemma {:induction false} DatedLectureMissesDatedSlides()
    ensures Search(DatedSlidesPattern, DatedLectureName).None?
  {
    LitAbsent(DatedSlidesPattern, DatedLectureName, 0, 's');
  }

  lemma {:induction false} DatedLectureMissesLectureCompact()
    ensures Search(LectureCompactPattern, DatedLectureName).None?
  {
    LitAbsent(LectureCompactPattern, DatedLectureName, 9, 's');
  }

  lemma {:induction false} ReadmeMissesLectureSlides()
    ensures Search(LectureSlidesPattern, ReadmeName).None?
  {
    LitAbsent(LectureSlidesPattern, ReadmeName, 0, 'l');
  }

  lemma {:induction false} ReadmeMissesLectureSlidesZh()
    ensures Search(LectureSlidesZhPattern, ReadmeName).None?
  {
    LitAbsent(LectureSlidesZhPattern, ReadmeName, 0, '第');
  }

  lemma {:induction false} ReadmeMissesDatedSlides()
    ensures Search(DatedSlidesPattern, ReadmeName).None?
  {
    LitAbsent(DatedSlidesPattern, ReadmeName, 0, 's');
  }

  lemma {:induction false} ReadmeMissesLectureCompact()
    ensures Search(LectureCompactPattern, ReadmeName).None?
  {
    LitAbsent(LectureCompactPattern, ReadmeName, 0, 'l');
  }

  lemma {:induction false} ReadmeMissesLectureNumber()
    ensures Search(LectureNumberPattern, ReadmeName).None?
  {
    LitAbsent(LectureNumberPattern, ReadmeName, 0, 'l');
  }

  lemma {:induction false} ReadmeMissesExamQ()
    ensures Search(ExamQPattern, ReadmeName).None?
  {
    LitAbsent(ExamQPattern, ReadmeName, 1, 'x');
  }

  lemma {:induction false} ReadmeMissesExamZh()
    ensures Search(ExamZhPattern, ReadmeName).None?
  {
    LitAbsent(ExamZhPattern, ReadmeName, 2, '考');
  }

  lemma {:induction false} ReadmeMissesExamQuestion()
    ensures Search(ExamQuestionPattern, ReadmeName).None?
  {
    LitAbsent(ExamQuestionPattern, ReadmeName, 1, 'x');
  }

  lemma {:induction false} ReadmeMissesTest()
    ensures Search(TestPattern, ReadmeName).None?
  {
    LitAbsent(TestPattern, ReadmeName, 0, 't');
  }

  // The citation texts, spelled out once each.

  lemma {:induction false} LectureSlidesText()
    ensures "Lecture " + "8" + ", Slides " + "26-27" == "Lecture 8, Slides 26-27"
  {
  }

  lemma {:induction false} ExamQuestionText()
    ensures "2023" + " Exam, Question " + "5" == "2023 Exam, Question 5"
  {
  }

  lemma {:induction false} DatedText()
    ensures "Course Slides (" + "2025" + "-" + "10" + "-" + "22" + ")" == "Course Slides (2025-10-22)"
  {
  }

  lemma {:induction false} ReadmeText()
    ensures "Reference Document [" + "5" + "]: " + ReadmeName == "Reference Document [5]: README.md"
  {
  }

  // The lecture list's first-match rule for the concrete positions used below,
  // stated for any name so that the examples need not unfold the list.

  lemma {:induction false} FirstLecturePattern(name: string, m: Match)
    requires Search(LectureSlidesPattern, name) == Some(m) && IsTrace(LectureSlidesPattern.atoms, name, m.bounds, true)
    ensures LectureRule(name) == Some(LectureCitation(LectureSlidesPattern, name, m))
  {
    PatternShapes();
    FirstLectureDecides(LecturePatterns, 0, name, m);
  }

  lemma {:induction false} FirstExamPattern(name: string, m: Match)
    requires Search(ExamQPattern, name) == Some(m) && IsTrace(ExamQPattern.atoms, name, m.bounds, true)
    ensures ExamRule(name) == Some(ExamCitation(ExamQPattern, name, m))
  {
    PatternShapes();
    assert ExamPatterns[0] == ExamQPattern;
  }

  lemma {:induction false} ThirdLecturePattern(name: string, m: Match)
    requires Search(LectureSlidesPattern, name).None? && Search(LectureSlidesZhPattern, name).None?
    requires Search(DatedSlidesPattern, name) == Some(m) && IsTrace(DatedSlidesPattern.atoms, name, m.bounds, true)
    ensures LectureRule(name) == Some(LectureCitation(DatedSlidesPattern, name, m))
  {
    PatternShapes();
    FirstLectureDecides(LecturePatterns, 2, name, m);
  }

  lemma {:induction false} FifthLecturePattern(name: string, m: Match)
    requires Search(LectureSlidesPattern, name).None? && Search(LectureSlidesZhPattern, name).None?
    requires Search(DatedSlidesPattern, name).None? && Search(LectureCompactPattern, name).None?
    requires Search(LectureNumberPattern, name) == Some(m) && IsTrace(LectureNumberPattern.atoms, name, m.bounds, true)
    ensures LectureRule(name) == Some(LectureCitation(LectureNumberPattern, name, m))
  {
    PatternShapes();
    FirstLectureDecides(LecturePatterns, 4, name, m);
  }

  lemma {:induction false} NoLecturePattern(name: string)
    requires Search(LectureSlidesPattern, name).None? && Search(LectureSlidesZhPattern, name).None?
    requires Search(DatedSlidesPattern, name).None? && Search(LectureCompactPattern, name).None?
    requires Search(LectureNumberPattern, name).None?
    ensures LectureRule(name) == None
  {
    PatternShapes();
    FromLecturesSome(LecturePatterns, name);
  }

  lemma {:induction false} NoExamPattern(name: string)
    requires Search(ExamQPattern, name).None? && Search(ExamZhPattern, name).None?
    requires Search(ExamQuestionPattern, name).None? && Search(TestPattern, name).None?
    ensures ExamRule(name) == None
  {
    PatternShapes();
    FromExamsSome(ExamPatterns, name);
  }

  // lecture_8_slides_26-27.pdf

  lemma {:induction false} LectureSlidesGroups()
    ensures Group(LectureSlidesPattern, LectureSlidesName, Match(0, LectureSlidesBounds), 0) == "8"
    ensures Group(LectureSlidesPattern, LectureSlidesName, Match(0, LectureSlidesBounds), 1) == "26-27"
  {
    assert LectureSlidesName[8..9] == "8";
    assert LectureSlidesName[17..22] == "26-27";
  }

  lemma {:induction false} LectureSlidesSearched()
    ensures Search(LectureSlidesPattern, LectureSlidesName) == Some(Match(0, LectureSlidesBounds))
    ensures IsTrace(LectureSlidesPattern.atoms, LectureSlidesName, LectureSlidesBounds, true)
  {
    LectureSlidesMatch();
    FoundAtZero(LectureSlidesPattern, LectureSlidesName, LectureSlidesBounds);
  }

  lemma {:induction false} LectureSlidesCited()
    ensures IsTrace(LectureSlidesPattern.atoms, LectureSlidesName, LectureSlidesBounds, true)
    ensures LectureCitation(LectureSlidesPattern, LectureSlidesName, Match(0, LectureSlidesBounds))
         == (LectureSlides(8, "26-27"), "Lecture 8, Slides 26-27")
  {
    LectureSlidesSearched();
    LectureSlidesGroups();
    assert DecimalValue("8") == 8 && NatToDecimal(8) == "8";
    LectureSlidesText();
  }

  lemma {:induction false} LectureSlidesFound()
    ensures LectureRule(LectureSlidesName) == Some((LectureSlides(8, "26-27"), "Lecture 8, Slides 26-27"))
  {
    LectureSlidesSearched();
    LectureSlidesCited();
    FirstLecturePattern(LectureSlidesName, Match(0, LectureSlidesBounds));
  }

  /** Line 236 with lines 251-261: `lecture_8_slides_26-27.pdf` is lecture 8,
      slides 26-27. */
  lemma {:induction false} LectureSlidesExample()
    ensures ExtractSourceInfo(Reference(Some("1"), Some(LectureSlidesName)))
         == Some(Citation(LectureSlides(8, "26-27"), "1", LectureSlidesName, "Lecture 8, Slides 26-27"))
  {
    BasenameNoSlash(LectureSlidesName);
    LectureSlidesFound();
  }

  // exam_2023_q5.pdf

  lemma {:induction false} ExamNoLecture()
    ensures LectureRule(ExamName) == None
  {
    ExamMissesLectureSlides();
    ExamMissesLectureSlidesZh();
    ExamMissesDatedSlides();
    ExamMissesLectureCompact();
    ExamMissesLectureNumber();
    NoLecturePattern(ExamName);
  }

  lemma {:induction false} ExamGroups()
    ensures Group(ExamQPattern, ExamName, Match(0, ExamBounds), 0) == "2023"
    ensures Group(ExamQPattern, ExamName, Match(0, ExamBounds), 1) == "5"
  {
    assert ExamName[5..9] == "2023";
    assert ExamName[11..12] == "5";
  }

  lemma {:induction false} ExamSearched()
    ensures Search(ExamQPattern, ExamName) == Some(Match(0, ExamBounds)) && IsTrace(ExamQPattern.atoms, ExamName, ExamBounds, true)
  {
    ExamMatch();
    FoundAtZero(ExamQPattern, ExamName, ExamBounds);
  }

  lemma {:induction false} ExamText(name: string, m: Match, year: string, q: string)
    requires IsTrace(ExamQPattern.atoms, name, m.bounds, true)
    requires Group(ExamQPattern, name, m, 0) == year && Group(ExamQPattern, name, m, 1) == q && AllDigits(q)
    ensures ExamCitation(ExamQPattern, name, m) == (Exam(year, DecimalValue(q)), year + " Exam, Question " + NatToDecimal(DecimalValue(q)))
  {
  }

  lemma {:induction false} ExamCited()
    ensures IsTrace(ExamQPattern.atoms, ExamName, ExamBounds, true)
    ensures ExamCitation(ExamQPattern, ExamName, Match(0, ExamBounds)) == (Exam("2023", 5), "2023 Exam, Question 5")
  {
    ExamSearched();
    ExamGroups();
    ExamText(ExamName, Match(0, ExamBounds), "2023", "5");
    assert DecimalValue("5") == 5 && NatToDecimal(5) == "5";
    ExamQuestionText();
  }

  lemma {:induction false} ExamFound()
    ensures ExamRule(ExamName) == Some((Exam("2023", 5), "2023 Exam, Question 5"))
  {
    ExamSearched();
    ExamCited();
    FirstExamPattern(ExamName, Match(0, ExamBounds));
  }

  /** Line 287 with lines 296-304: `exam_2023_q5.pdf` matches no lecture
      pattern and is question 5 of the 2023 exam. */
  lemma {:induction false} ExamExample()
    ensures ExtractSourceInfo(Reference(Some("2"), Some(ExamName)))
         == Some(Citation(Exam("2023", 5), "2", ExamName, "2023 Exam, Question 5"))
  {
    BasenameNoSlash(ExamName);
    ExamNoLecture();
    ExamFound();
  }

  // Slides-20251022_副本.pdf

  lemma {:induction false} DatedSlidesGroups()
    ensures Group(DatedSlidesPattern, DatedSlidesName, Match(0, DatedSlidesBounds), 0) == "20251022"
  {
    assert DatedSlidesName[7..15] == "20251022";
  }

  lemma {:induction false} DatedSlidesSearched()
    ensures Search(DatedSlidesPattern, DatedSlidesName) == Some(Match(0, DatedSlidesBounds)) && IsTrace(DatedSlidesPattern.atoms, DatedSlidesName, DatedSlidesBounds, true)
  {
    DatedSlidesMatch();
    FoundAtZero(DatedSlidesPattern, DatedSlidesName, DatedSlidesBounds);
  }

  lemma {:induction false} DatedSlidesCited()
    ensures IsTrace(DatedSlidesPattern.atoms, DatedSlidesName, DatedSlidesBounds, true)
    ensures LectureCitation(DatedSlidesPattern, DatedSlidesName, Match(0, DatedSlidesBounds))
         == (DatedSlides("20251022"), "Course Slides (2025-10-22)")
  {
    DatedSlidesSearched();
    DatedSlidesGroups();
    var d := "20251022";
    assert d[..4] == "2025" && d[4..6] == "10" && d[6..] == "22";
    DatedText();
  }

  lemma {:induction false} DatedSlidesFound()
    ensures LectureRule(DatedSlidesName) == Some((DatedSlides("20251022"), "Course Slides (2025-10-22)"))
  {
    DatedSlidesMissesLectureSlides();
    DatedSlidesMissesLectureSlidesZh();
    DatedSlidesSearched();
    DatedSlidesCited();
    ThirdLecturePattern(DatedSlidesName, Match(0, DatedSlidesBounds));
  }

  /** Line 240 with lines 263-273: an eight-digit capture is a date, written
      out as year, month and day. */
  lemma {:induction false} DatedSlidesExample()
    ensures ExtractSourceInfo(Reference(Some("3"), Some(DatedSlidesName)))
         == Some(Citation(DatedSlides("20251022"), "3", DatedSlidesName, "Course Slides (2025-10-22)"))
  {
    BasenameNoSlash(DatedSlidesName);
    DatedSlidesFound();
  }

  // lecture_20251022.pdf

  lemma {:induction false} DatedLectureGroups()
    ensures Group(LectureNumberPattern, DatedLectureName, Match(0, DatedLectureBounds), 0) == "20251022"
  {
    assert DatedLectureName[8..16] == "20251022";
  }

  lemma {:induction false} DatedLectureSearched()
    ensures Search(LectureNumberPattern, DatedLectureName) == Some(Match(0, DatedLectureBounds)) && IsTrace(LectureNumberPattern.atoms, DatedLectureName, DatedLectureBounds, true)
  {
    DatedLectureMatch();
    FoundAtZero(LectureNumberPattern, DatedLectureName, DatedLectureBounds);
  }

  lemma {:induction false} DatedLectureCited()
    ensures IsTrace(LectureNumberPattern.atoms, DatedLectureName, DatedLectureBounds, true)
    ensures LectureCitation(LectureNumberPattern, DatedLectureName, Match(0, DatedLectureBounds))
         == (DatedSlides("20251022"), "Course Slides (2025-10-22)")
  {
    DatedLectureSearched();
    DatedLectureGroups();
    var d := "20251022";
    assert d[..4] == "2025" && d[4..6] == "10" && d[6..] == "22";
    DatedText();
  }

  lemma {:induction false} DatedLectureFound()
    ensures LectureRule(DatedLectureName) == Some((DatedSlides("20251022"), "Course Slides (2025-10-22)"))
  {
    DatedLectureMissesLectureSlides();
    DatedLectureMissesLectureSlidesZh();
    DatedLectureMissesDatedSlides();
    DatedLectureMissesLectureCompact();
    DatedLectureSearched();
    DatedLectureCited();
    FifthLecturePattern(DatedLectureName, Match(0, DatedLectureBounds));
  }

  /** Line 244 with lines 263-273: the date rule also applies to the last
      lecture pattern, so `lecture_20251022.pdf` is a date, not lecture
      20251022. */
  lemma {:induction false} DatedLectureExample()
    ensures ExtractSourceInfo(Reference(Some("4"), Some(DatedLectureName)))
         == Some(Citation(DatedSlides("20251022"), "4", DatedLectureName, "Course Slides (2025-10-22)"))
  {
    BasenameNoSlash(DatedLectureName);
    DatedLectureFound();
  }

  // docs/README.md

  lemma {:induction false} ReadmeNoLecture()
    ensures LectureRule(ReadmeName) == None
  {
    ReadmeMissesLectureSlides();
    ReadmeMissesLectureSlidesZh();
    ReadmeMissesDatedSlides();
    ReadmeMissesLectureCompact();
    ReadmeMissesLectureNumber();
    NoLecturePattern(ReadmeName);
  }

  lemma {:induction false} ReadmeNoExam()
    ensures ExamRule(ReadmeName) == None
  {
    ReadmeMissesExamQ();
    ReadmeMissesExamZh();
    ReadmeMissesExamQuestion();
    ReadmeMissesTest();
    NoExamPattern(ReadmeName);
  }

  /** A name in a directory that no pattern matches is cited as a document
      under its base name. */
  lemma {:induction false} DocumentInDirectory(id: string, dir: string, name: string)
    requires name != "" && '/' !in name
    requires LectureRule(name) == None && ExamRule(name) == None
    ensures ExtractSourceInfo(Reference(Some(id), Some(dir + "/" + name)))
         == Some(Citation(Document, id, dir + "/" + name, "Reference Document [" + id + "]: " + name))
  {
    BasenameAfterDir(dir, name);
    BasenameNoSlash(name);
  }

  /** Lines 307-314: a name no pattern matches gets the document citation,
      which names the base name only (here `README.md` in any directory). */
  lemma {:induction false} DocumentExample(dir: string)
    ensures ExtractSourceInfo(Reference(Some("5"), Some(dir + "/" + ReadmeName)))
         == Some(Citation(Document, "5", dir + "/" + ReadmeName, "Reference Document [5]: README.md"))
  {
    ReadmeNoLecture();
    ReadmeNoExam();
    DocumentInDirectory("5", dir, ReadmeName);
    ReadmeText();
  }
}
