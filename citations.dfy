/**
 * The citation parser of the LightRAG client (`_extract_source_info`): a
 * reference record `{reference_id, file_path}` becomes a typed citation by
 * trying, on the file's base name, the lecture patterns in order, then the
 * exam patterns in order, and otherwise a generic document citation.
 */
module Citations {
  import opened Text
  import opened Regex

  /** A reference as the service returns it; `None` is a missing key. */
  datatype Reference = Reference(referenceId: Option<string>, filePath: Option<string>)

  /** The typed part of a citation dict: which keys it carries besides
      `type`, `reference_id`, `file_path` and `citation`. */
  datatype Kind =
    | LectureSlides(lectureId: nat, slideRange: string)  // type "lecture", two captures
    | DatedSlides(date: string)                          // type "lecture", an 8-character capture
    | LectureNumber(lectureId: nat)                      // type "lecture", any other single capture
    | Exam(examYear: string, questionNum: nat)           // type "exam"
    | Document                                           // type "document"
  {
    predicate IsLecture() { LectureSlides? || DatedSlides? || LectureNumber? }

    function TypeName(): string {
      if IsLecture() then "lecture" else if Exam? then "exam" else "document"
    }
  }

  datatype Citation = Citation(kind: Kind, referenceId: string, filePath: string, text: string)

  /** `reference.get("file_path", "")`. */
  function FilePath(r: Reference): string {
    if r.filePath.Some? then r.filePath.value else ""
  }

  /** `reference.get("reference_id", "")`. */
  function ReferenceId(r: Reference): string {
    if r.referenceId.Some? then r.referenceId.value else ""
  }

  /** `file_path.split('/')[-1]`. */
  function Basename(path: string): (r: string)
    ensures '/' !in r
  {
    Last(Split(path, '/'))
  }

  // ---------------------------------------------------------------------
  // The patterns, all searched with re.IGNORECASE

  /** `[_\s-]` */
  const Sep := CharClass("_-", false, true, false)
  /** `\d` */
  const Digit := CharClass("", true, false, false)
  /** `[\d\-]` */
  const DigitOrDash := CharClass("-", true, false, false)
  /** `[年_\s-]` */
  const YearSep := CharClass("年_-", false, true, false)

  /** `lecture[_\s-]*(\d+)[_\s-]*slides?[_\s-]*([\d\-]+)` */
  const LectureSlidesPattern := Pattern(
    [Lit('l'), Lit('e'), Lit('c'), Lit('t'), Lit('u'), Lit('r'), Lit('e'), Star(Sep), Plus(Digit), Star(Sep),
     Lit('s'), Lit('l'), Lit('i'), Lit('d'), Lit('e'), Opt('s'), Star(Sep), Plus(DigitOrDash)],
    [(8, 8), (17, 17)], true)

  /** `第(\d+)讲[_\s-]*幻灯片([\d\-]+)` */
  const LectureSlidesZhPattern := Pattern(
    [Lit('第'), Plus(Digit), Lit('讲'), Star(Sep), Lit('幻'), Lit('灯'), Lit('片'), Plus(DigitOrDash)],
    [(1, 1), (7, 7)], true)

  /** `slides?[_\s-]*(\d{8})` */
  const DatedSlidesPattern := Pattern(
    [Lit('s'), Lit('l'), Lit('i'), Lit('d'), Lit('e'), Opt('s'), Star(Sep), Exactly(Digit, 8)],
    [(7, 7)], true)

  /** `lecture(\d+)[_\s-]*slide[_\s-]*([\d\-]+)` */
  const LectureCompactPattern := Pattern(
    [Lit('l'), Lit('e'), Lit('c'), Lit('t'), Lit('u'), Lit('r'), Lit('e'), Plus(Digit), Star(Sep),
     Lit('s'), Lit('l'), Lit('i'), Lit('d'), Lit('e'), Star(Sep), Plus(DigitOrDash)],
    [(7, 7), (15, 15)], true)

  /** `lecture[_\s-]*(\d+)` */
  const LectureNumberPattern := Pattern(
    [Lit('l'), Lit('e'), Lit('c'), Lit('t'), Lit('u'), Lit('r'), Lit('e'), Star(Sep), Plus(Digit)],
    [(8, 8)], true)

  /** `exam[_\s-]*(\d{4})[_\s-]*q(\d+)` */
  const ExamQPattern := Pattern(
    [Lit('e'), Lit('x'), Lit('a'), Lit('m'), Star(Sep), Exactly(Digit, 4), Star(Sep), Lit('q'), Plus(Digit)],
    [(5, 5), (8, 8)], true)

  /** `(\d{4})[年_\s-]*考试[_\s-]*第?(\d+)题?` */
  const ExamZhPattern := Pattern(
    [Exactly(Digit, 4), Star(YearSep), Lit('考'), Lit('试'), Star(Sep), Opt('第'), Plus(Digit), Opt('题')],
    [(0, 0), (6, 6)], true)

  /** `exam[_\s-]*(\d{4})[_\s-]*question[_\s-]*(\d+)` */
  const ExamQuestionPattern := Pattern(
    [Lit('e'), Lit('x'), Lit('a'), Lit('m'), Star(Sep), Exactly(Digit, 4), Star(Sep),
     Lit('q'), Lit('u'), Lit('e'), Lit('s'), Lit('t'), Lit('i'), Lit('o'), Lit('n'), Star(Sep), Plus(Digit)],
    [(5, 5), (16, 16)], true)

  /** `test[_\s-]*(\d{4})[_\s-]*(\d+)` */
  const TestPattern := Pattern(
    [Lit('t'), Lit('e'), Lit('s'), Lit('t'), Star(Sep), Exactly(Digit, 4), Star(Sep), Plus(Digit)],
    [(5, 5), (7, 7)], true)

  const LecturePatterns: seq<Pattern> :=
    [LectureSlidesPattern, LectureSlidesZhPattern, DatedSlidesPattern, LectureCompactPattern, LectureNumberPattern]

  const ExamPatterns: seq<Pattern> := [ExamQPattern, ExamZhPattern, ExamQuestionPattern, TestPattern]

  // ---------------------------------------------------------------------
  // Building citations from matches

  /** Group `g` is a single `\d` atom, so `int()` of it cannot fail. */
  predicate DigitGroup(p: Pattern, g: nat) {
    g < |p.groups| && p.groups[g].0 == p.groups[g].1 < |p.atoms|
    && p.atoms[p.groups[g].0].Repeat? && p.atoms[p.groups[g].0].cls == Digit
  }

  predicate LectureShape(p: Pattern) {
    |p.groups| >= 1 && DigitGroup(p, 0)
  }

  predicate ExamShape(p: Pattern) {
    |p.groups| >= 2 && DigitGroup(p, 1)
  }

  lemma {:induction false} DigitGroupDigits(p: Pattern, s: string, m: Match, g: nat)
    requires IsTrace(p.atoms, s, m.bounds, p.ignoreCase) && DigitGroup(p, g)
    ensures AllDigits(Group(p, s, m, g))
  {
    var t := p.groups[g].0;
    GroupChars(p, s, m, g, t);
    var c := Group(p, s, m, g);
    forall q | 0 <= q < |c| ensures IsDigit(c[q]) {
      assert AtomChar(Digit, c[q], p.ignoreCase);
    }
  }

  /** Lines 250-283: the kind and citation text built from a lecture
      pattern's match. */
  function LectureCitation(p: Pattern, name: string, m: Match): (r: (Kind, string))
    requires LectureShape(p) && IsTrace(p.atoms, name, m.bounds, p.ignoreCase)
    ensures r.0.IsLecture()
    ensures r.0.DatedSlides? ==> |r.0.date| == 8 && AllDigits(r.0.date)
  {
    DigitGroupDigits(p, name, m, 0);
    var first := Group(p, name, m, 0);
    if |p.groups| >= 2 then
      var range := Group(p, name, m, 1);
      (LectureSlides(DecimalValue(first), range), "Lecture " + NatToDecimal(DecimalValue(first)) + ", Slides " + range)
    else if |first| == 8 then
      (DatedSlides(first), "Course Slides (" + first[..4] + "-" + first[4..6] + "-" + first[6..] + ")")
    else
      (LectureNumber(DecimalValue(first)), "Lecture " + NatToDecimal(DecimalValue(first)))
  }

  /** Lines 296-305: the kind and citation text built from an exam pattern's
      match. */
  function ExamCitation(p: Pattern, name: string, m: Match): (r: (Kind, string))
    requires ExamShape(p) && IsTrace(p.atoms, name, m.bounds, p.ignoreCase)
    ensures r.0.Exam?
  {
    DigitGroupDigits(p, name, m, 1);
    var year := Group(p, name, m, 0);
    var q := DecimalValue(Group(p, name, m, 1));
    (Exam(year, q), year + " Exam, Question " + NatToDecimal(q))
  }

  predicate AllLectureShaped(pats: seq<Pattern>) {
    forall k :: 0 <= k < |pats| ==> LectureShape(pats[k])
  }

  predicate AllExamShaped(pats: seq<Pattern>) {
    forall k :: 0 <= k < |pats| ==> ExamShape(pats[k])
  }

  /** Lines 247-283: the first lecture pattern that matches decides. */
  function FromLectures(pats: seq<Pattern>, name: string): (r: Option<(Kind, string)>)
    requires AllLectureShaped(pats)
    ensures r.Some? ==> r.value.0.IsLecture()
    ensures r.Some? && r.value.0.DatedSlides? ==> |r.value.0.date| == 8 && AllDigits(r.value.0.date)
  {
    if pats == [] then None
    else
      var found := Search(pats[0], name);
      if found.Some? then
        SearchSpec(pats[0], name);
        Some(LectureCitation(pats[0], name, found.value))
      else FromLectures(pats[1..], name)
  }

  /** Lines 293-305: the first exam pattern that matches decides. */
  function FromExams(pats: seq<Pattern>, name: string): (r: Option<(Kind, string)>)
    requires AllExamShaped(pats)
    ensures r.Some? ==> r.value.0.Exam?
  {
    if pats == [] then None
    else
      var found := Search(pats[0], name);
      if found.Some? then
        SearchSpec(pats[0], name);
        Some(ExamCitation(pats[0], name, found.value))
      else FromExams(pats[1..], name)
  }

  lemma {:induction false} PatternShapes()
    ensures AllLectureShaped(LecturePatterns) && AllExamShaped(ExamPatterns)
  {
  }

  /** The result of the lecture loop (lines 247-283) on a base name. */
  function LectureRule(name: string): (r: Option<(Kind, string)>)
    ensures r.Some? ==> r.value.0.IsLecture()
    ensures r.Some? && r.value.0.DatedSlides? ==> |r.value.0.date| == 8 && AllDigits(r.value.0.date)
  {
    PatternShapes();
    FromLectures(LecturePatterns, name)
  }

  /** The result of the exam loop (lines 293-305) on a base name. */
  function ExamRule(name: string): (r: Option<(Kind, string)>)
    ensures r.Some? ==> r.value.0.Exam?
  {
    PatternShapes();
    FromExams(ExamPatterns, name)
  }

  /** The kind and citation text for a base name: lecture patterns, then
      exam patterns, then the generic document citation. */
  function Describe(name: string, id: string): (r: (Kind, string))
    ensures r.0.Document? ==> r.1 == "Reference Document [" + id + "]: " + name
    ensures r.0.DatedSlides? ==> |r.0.date| == 8 && AllDigits(r.0.date)
  {
    var lecture := LectureRule(name);
    if lecture.Some? then lecture.value
    else
      var exam := ExamRule(name);
      if exam.Some? then exam.value
      else (Document, "Reference Document [" + id + "]: " + name)
  }

  /** `_extract_source_info`: no citation exactly when the path is missing or
      empty; otherwise a citation that keeps the reference's id and path and
      is decided by the path's base name alone. */
  function ExtractSourceInfo(ref: Reference): (r: Option<Citation>)
    ensures r.None? <==> FilePath(ref) == ""
    ensures r.Some? ==> r.value.referenceId == ReferenceId(ref) && r.value.filePath == FilePath(ref)
    ensures r.Some? ==> (r.value.kind, r.value.text) == Describe(Basename(FilePath(ref)), ReferenceId(ref))
  {
    var path := FilePath(ref);
    var id := ReferenceId(ref);
    if path == "" then None
    else
      var d := Describe(Basename(path), id);
      Some(Citation(d.0, id, path, d.1))
  }

  // ---------------------------------------------------------------------
  // Properties

  /** A name without `/` is its own base name. */
  lemma {:induction false} BasenameNoSlash(path: string)
    requires '/' !in path
    ensures Basename(path) == path
  {
    SplitNoSep(path, '/');
  }

  /** A directory in front of a name does not change its base name. */
  lemma {:induction false} BasenameAfterDir(dir: string, name: string)
    ensures Basename(dir + "/" + name) == Basename(name)
  {
    assert dir + "/" + name == dir + ['/'] + name;
    SplitLastAppend(dir, name, '/');
  }

  /** Line 231: only the base name decides the citation, so a directory
      such as `lecture_3/` in front of a file name never changes the kind or
      the text. */
  lemma {:induction false} DirectoryIgnored(id: Option<string>, dir: string, name: string)
    requires name != ""
    ensures var inDir := ExtractSourceInfo(Reference(id, Some(dir + "/" + name)));
            var bare := ExtractSourceInfo(Reference(id, Some(name)));
            inDir.Some? && bare.Some? && inDir.value.kind == bare.value.kind && inDir.value.text == bare.value.text
  {
    BasenameAfterDir(dir, name);
  }

  predicate AnyMatches(pats: seq<Pattern>, name: string) {
    exists k :: 0 <= k < |pats| && Search(pats[k], name).Some?
  }

  lemma {:induction false} FromLecturesSome(pats: seq<Pattern>, name: string)
    requires AllLectureShaped(pats)
    ensures FromLectures(pats, name).Some? <==> AnyMatches(pats, name)
  {
    if pats != [] {
      FromLecturesSome(pats[1..], name);
      if AnyMatches(pats[1..], name) {
        var k :| 0 <= k < |pats[1..]| && Search(pats[1..][k], name).Some?;
        assert Search(pats[k + 1], name).Some?;
      }
      if AnyMatches(pats, name) && Search(pats[0], name).None? {
        var k :| 0 <= k < |pats| && Search(pats[k], name).Some?;
        assert Search(pats[1..][k - 1], name).Some?;
      }
    }
  }

  /** Lines 247-283: the citation comes from the first lecture pattern that
      matches, built from the match `re.search` reports for it. */
  lemma {:induction false} FirstLectureDecides(pats: seq<Pattern>, k: nat, name: string, m: Match)
    requires AllLectureShaped(pats) && k < |pats|
    requires forall j :: 0 <= j < k ==> Search(pats[j], name).None?
    requires Search(pats[k], name) == Some(m) && IsTrace(pats[k].atoms, name, m.bounds, pats[k].ignoreCase)
    ensures FromLectures(pats, name) == Some(LectureCitation(pats[k], name, m))
  {
    if k > 0 {
      assert Search(pats[0], name).None?;
      forall j | 0 <= j < k - 1 ensures Search(pats[1..][j], name).None? {
        assert pats[1..][j] == pats[j + 1];
      }
      assert pats[1..][k - 1] == pats[k];
      FirstLectureDecides(pats[1..], k - 1, name, m);
    }
  }

  lemma {:induction false} FromExamsSome(pats: seq<Pattern>, name: string)
    requires AllExamShaped(pats)
    ensures FromExams(pats, name).Some? <==> AnyMatches(pats, name)
  {
    if pats != [] {
      FromExamsSome(pats[1..], name);
      if AnyMatches(pats[1..], name) {
        var k :| 0 <= k < |pats[1..]| && Search(pats[1..][k], name).Some?;
        assert Search(pats[k + 1], name).Some?;
      }
      if AnyMatches(pats, name) && Search(pats[0], name).None? {
        var k :| 0 <= k < |pats| && Search(pats[k], name).Some?;
        assert Search(pats[1..][k - 1], name).Some?;
      }
    }
  }

  /** Lines 234-305: lecture patterns come first, so a name that matches a
      lecture pattern is a lecture whatever exam pattern it also matches; an
      exam needs an exam pattern and no lecture pattern; the document
      citation is the case where no pattern matches. */
  lemma {:induction false} KindByPatterns(name: string, id: string)
    ensures Describe(name, id).0.IsLecture() <==> AnyMatches(LecturePatterns, name)
    ensures Describe(name, id).0.Exam? <==> !AnyMatches(LecturePatterns, name) && AnyMatches(ExamPatterns, name)
    ensures Describe(name, id).0.Document? <==> !AnyMatches(LecturePatterns, name) && !AnyMatches(ExamPatterns, name)
  {
    PatternShapes();
    FromLecturesSome(LecturePatterns, name);
    FromExamsSome(ExamPatterns, name);
  }

  /** The spans of a `lecture(\d+)[_\s-]*slide[_\s-]*([\d\-]+)` match, read
      as a match of `lecture[_\s-]*(\d+)[_\s-]*slides?[_\s-]*([\d\-]+)`:
      the two extra optional atoms take nothing. */
  function Widen(b: seq<nat>): seq<nat>
    requires |b| == 17
  {
    b[..8] + [b[7]] + b[8..15] + [b[14]] + b[15..]
  }

  /** Atoms 0-6 of both patterns agree and keep their spans. */
  lemma {:induction false} WidenHead(s: string, b: seq<nat>)
    requires IsTrace(LectureCompactPattern.atoms, s, b, true)
    ensures forall t :: 0 <= t < 7 ==> AtomSpans(LectureSlidesPattern.atoms[t], s, Widen(b)[t], Widen(b)[t + 1], true)
  {
    var w, short, long := Widen(b), LectureCompactPattern.atoms, LectureSlidesPattern.atoms;
    forall t | 0 <= t < 7 ensures AtomSpans(long[t], s, w[t], w[t + 1], true) {
      assert long[t] == short[t] && w[t] == b[t] && w[t + 1] == b[t + 1];
      assert AtomSpans(short[t], s, b[t], b[t + 1], true);
    }
  }

  /** The inserted optional separators (atoms 7 and 15) match empty. */
  lemma {:induction false} WidenGaps(s: string, b: seq<nat>)
    requires IsTrace(LectureCompactPattern.atoms, s, b, true)
    ensures AtomSpans(LectureSlidesPattern.atoms[7], s, Widen(b)[7], Widen(b)[8], true)
    ensures AtomSpans(LectureSlidesPattern.atoms[15], s, Widen(b)[15], Widen(b)[16], true)
  {
    TraceMonotone(LectureCompactPattern.atoms, s, b, true, 7, 16);
    TraceMonotone(LectureCompactPattern.atoms, s, b, true, 14, 16);
    var w := Widen(b);
    assert w[7] == b[7] && w[8] == b[7] && w[15] == b[14] && w[16] == b[14];
  }

  /** Atoms 8-14 of the slides pattern are atoms 7-13 of the compact one. */
  lemma {:induction false} WidenMiddle(s: string, b: seq<nat>)
    requires IsTrace(LectureCompactPattern.atoms, s, b, true)
    ensures forall t :: 8 <= t < 15 ==> AtomSpans(LectureSlidesPattern.atoms[t], s, Widen(b)[t], Widen(b)[t + 1], true)
  {
    var w, short, long := Widen(b), LectureCompactPattern.atoms, LectureSlidesPattern.atoms;
    forall t | 8 <= t < 15 ensures AtomSpans(long[t], s, w[t], w[t + 1], true) {
      assert long[t] == short[t - 1] && w[t] == b[t - 1] && w[t + 1] == b[t];
      assert AtomSpans(short[t - 1], s, b[t - 1], b[t], true);
    }
  }

  /** Atoms 16-17 of the slides pattern are atoms 14-15 of the compact one. */
  lemma {:induction false} WidenTail(s: string, b: seq<nat>)
    requires IsTrace(LectureCompactPattern.atoms, s, b, true)
    ensures forall t :: 16 <= t < 18 ==> AtomSpans(LectureSlidesPattern.atoms[t], s, Widen(b)[t], Widen(b)[t + 1], true)
  {
    var w, short, long := Widen(b), LectureCompactPattern.atoms, LectureSlidesPattern.atoms;
    forall t | 16 <= t < 18 ensures AtomSpans(long[t], s, w[t], w[t + 1], true) {
      assert long[t] == short[t - 2] && w[t] == b[t - 2] && w[t + 1] == b[t - 1];
      assert AtomSpans(short[t - 2], s, b[t - 2], b[t - 1], true);
    }
  }

  /** A compact match becomes a slides match by giving the two optional
      separators empty spans. */
  lemma {:induction false} WidenTrace(s: string, b: seq<nat>)
    requires IsTrace(LectureCompactPattern.atoms, s, b, true)
    ensures IsTrace(LectureSlidesPattern.atoms, s, Widen(b), true)
  {
    WidenHead(s, b);
    WidenGaps(s, b);
    WidenMiddle(s, b);
    WidenTail(s, b);
    var w, long := Widen(b), LectureSlidesPattern.atoms;
    forall t | 0 <= t < 18 ensures AtomSpans(long[t], s, w[t], w[t + 1], true) {
      if t == 7 || t == 15 {
      } else if t < 7 {
      } else if t < 15 {
      } else {
      }
    }
  }

  /** Line 242 is subsumed by line 236: whatever the compact pattern finds,
      the slides pattern finds too. */
  lemma {:induction false} CompactSubsumed(s: string)
    ensures Search(LectureCompactPattern, s).Some? ==> Search(LectureSlidesPattern, s).Some?
  {
    SearchSpec(LectureCompactPattern, s);
    SearchSpec(LectureSlidesPattern, s);
    if Search(LectureCompactPattern, s).Some? {
      var m := Search(LectureCompactPattern, s).value;
      WidenTrace(s, m.bounds);
      assert MatchesAt(LectureSlidesPattern, s, m.start) by {
        assert Widen(m.bounds)[0] == m.start;
      }
    }
  }

  lemma {:induction false} ShapedCons(p: Pattern, xs: seq<Pattern>)
    requires LectureShape(p) && AllLectureShaped(xs)
    ensures AllLectureShaped([p] + xs)
  {
    forall k | 0 <= k < |xs| + 1 ensures LectureShape(([p] + xs)[k]) {
      if k > 0 {
        assert ([p] + xs)[k] == xs[k - 1];
      }
    }
  }

  lemma {:induction false} FromLecturesCons(p: Pattern, xs: seq<Pattern>, ys: seq<Pattern>, name: string)
    requires LectureShape(p) && AllLectureShaped(xs) && AllLectureShaped(ys)
    requires Search(p, name).Some? || FromLectures(xs, name) == FromLectures(ys, name)
    ensures AllLectureShaped([p] + xs) && AllLectureShaped([p] + ys)
    ensures FromLectures([p] + xs, name) == FromLectures([p] + ys, name)
  {
    ShapedCons(p, xs);
    ShapedCons(p, ys);
    assert ([p] + xs)[1..] == xs && ([p] + ys)[1..] == ys;
  }

  /** Without a compact match the compact pattern can be dropped from the
      list after the first pattern. */
  lemma {:induction false} DropCompact(name: string)
    requires Search(LectureCompactPattern, name).None?
    ensures AllLectureShaped([LectureSlidesZhPattern, DatedSlidesPattern, LectureCompactPattern, LectureNumberPattern])
    ensures AllLectureShaped([LectureSlidesZhPattern, DatedSlidesPattern, LectureNumberPattern])
    ensures FromLectures([LectureSlidesZhPattern, DatedSlidesPattern, LectureCompactPattern, LectureNumberPattern], name)
         == FromLectures([LectureSlidesZhPattern, DatedSlidesPattern, LectureNumberPattern], name)
  {
    var tail := [LectureNumberPattern];
    var long3 := [DatedSlidesPattern, LectureCompactPattern, LectureNumberPattern];
    assert AllLectureShaped(tail) && AllLectureShaped([LectureCompactPattern] + tail);
    assert ([LectureCompactPattern] + tail)[1..] == tail;
    assert [LectureCompactPattern] + tail == long3[1..];
    FromLecturesCons(DatedSlidesPattern, long3[1..], tail, name);
    assert [DatedSlidesPattern] + long3[1..] == long3;
    FromLecturesCons(LectureSlidesZhPattern, long3, [DatedSlidesPattern] + tail, name);
    assert [LectureSlidesZhPattern] + long3
        == [LectureSlidesZhPattern, DatedSlidesPattern, LectureCompactPattern, LectureNumberPattern];
    assert [LectureSlidesZhPattern] + ([DatedSlidesPattern] + tail)
        == [LectureSlidesZhPattern, DatedSlidesPattern, LectureNumberPattern];
  }

  /** So the compact pattern never decides a result: dropping it from the
      list changes nothing. */
  lemma {:induction false} CompactNeverDecides(name: string)
    ensures LectureRule(name)
         == FromLectures([LectureSlidesPattern, LectureSlidesZhPattern, DatedSlidesPattern, LectureNumberPattern], name)
  {
    CompactSubsumed(name);
    var long2 := [LectureSlidesZhPattern, DatedSlidesPattern, LectureCompactPattern, LectureNumberPattern];
    var short2 := [LectureSlidesZhPattern, DatedSlidesPattern, LectureNumberPattern];
    assert AllLectureShaped(long2) && AllLectureShaped(short2);
    if Search(LectureSlidesPattern, name).None? {
      DropCompact(name);
    }
    FromLecturesCons(LectureSlidesPattern, long2, short2, name);
    assert [LectureSlidesPattern] + long2 == LecturePatterns;
    assert [LectureSlidesPattern] + short2
        == [LectureSlidesPattern, LectureSlidesZhPattern, DatedSlidesPattern, LectureNumberPattern];
  }

  // ---------------------------------------------------------------------
  // The sources list of a parsed answer

  /** Lines 199-202: the citations of the references that yield one, in
      reference order. */
  function Sources(refs: seq<Reference>): (r: seq<Citation>)
    ensures |r| <= |refs|
  {
    if refs == [] then []
    else
      var n := |refs| - 1;
      var c := ExtractSourceInfo(refs[n]);
      if c.Some? then Sources(refs[..n]) + [c.value] else Sources(refs[..n])
  }

  /** The positions of the references that carry a non-empty path, in
      increasing order. */
  function PathIndices(refs: seq<Reference>): (idx: seq<nat>)
    ensures forall k :: 0 <= k < |idx| ==> idx[k] < |refs| && FilePath(refs[idx[k]]) != ""
    ensures forall k, l :: 0 <= k < l < |idx| ==> idx[k] < idx[l]
    ensures forall i :: 0 <= i < |refs| && FilePath(refs[i]) != "" ==> i in idx
  {
    if refs == [] then []
    else
      var n := |refs| - 1;
      var front := PathIndices(refs[..n]);
      assert forall i :: 0 <= i < n ==> refs[..n][i] == refs[i];
      if FilePath(refs[n]) != "" then front + [n] else front
  }

  /** One source per reference with a non-empty path, in reference order. */
  lemma {:induction false} SourcesPerReference(refs: seq<Reference>)
    ensures |Sources(refs)| == |PathIndices(refs)|
    ensures forall k :: 0 <= k < |Sources(refs)| ==>
      Some(Sources(refs)[k]) == ExtractSourceInfo(refs[PathIndices(refs)[k]])
  {
    if refs != [] {
      var n := |refs| - 1;
      SourcesPerReference(refs[..n]);
      assert forall i :: 0 <= i < n ==> refs[..n][i] == refs[i];
    }
  }
}
