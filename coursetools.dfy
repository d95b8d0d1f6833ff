/**
 * The decision logic of the course tools: how `fill_moodle_forum` re-derives
 * the subject and message before any browser step, and its early guards;
 * the payload `lightrag_query` builds from the client's result; the
 * `format_forum_post` template; the query `create_cheat_sheet` sends; and
 * `get_tools_by_mode`.
 */
module CourseTools {
  import opened Text
  import opened Citations
  import opened LightRag
  import MoodleHelpers

  type ForumPost = MoodleHelpers.ForumPost

  // ---------------------------------------------------------------------
  // The heading pattern `^(#+\s+.+?)(\n|$)` under MULTILINE

  /** A match of the heading pattern: `#+` on `[start, hashEnd)`, `\s+` on
      `[hashEnd, body)`, the lazy `.+?` on `[body, lineEnd)`, and `(\n|$)`
      at `lineEnd`. */
  datatype HeadingMatch = HeadingMatch(start: nat, hashEnd: nat, body: nat, lineEnd: nat)

  /** The class that the pattern's `\s+` matches.  As written, `\s` takes
      line breaks too (`acrossLines`); the corrected pattern keeps the
      heading on one line. */
  predicate HeadingSpace(c: char, acrossLines: bool) {
    IsSpace(c) && (acrossLines || c != '\n')
  }

  /** Where `^` matches under MULTILINE. */
  predicate AtLineStart(s: string, p: nat) {
    p == 0 || (p <= |s| && s[p - 1] == '\n')
  }

  /** The pattern matches from `p` with `#+`, `\s+` and `.+?` ending at `h`,
      `k` and `e`. */
  ghost predicate Fits(s: string, p: nat, h: nat, k: nat, e: nat, acrossLines: bool) {
    p < h < k < e <= |s| && AtLineStart(s, p)
    && (forall i :: p <= i < h ==> s[i] == '#')
    && (forall i :: h <= i < k ==> HeadingSpace(s[i], acrossLines))
    && (forall i :: k <= i < e ==> s[i] != '\n')
    && (e == |s| || s[e] == '\n')
  }

  /** What `re.search` returns: the leftmost start, and there the longest
      `\s+` that still lets the rest match.  (`#+` and the lazy `.+?` have
      one choice each once the others are fixed.) */
  ghost predicate IsFirstHeading(s: string, m: HeadingMatch, acrossLines: bool) {
    Fits(s, m.start, m.hashEnd, m.body, m.lineEnd, acrossLines)
    && forall p: nat, h: nat, k: nat, e: nat :: Fits(s, p, h, k, e, acrossLines) ==> m.start < p || (m.start == p && k <= m.body)
  }

  /** The length of the run of `#` from `i`. */
  function HashRun(s: string, i: nat): (n: nat)
    requires i <= |s|
    ensures i + n <= |s|
    ensures forall j :: i <= j < i + n ==> s[j] == '#'
    ensures i + n == |s| || s[i + n] != '#'
    decreases |s| - i
  {
    if i < |s| && s[i] == '#' then 1 + HashRun(s, i + 1) else 0
  }

  /** The length of the run of `\s` from `i`. */
  function SpaceRun(s: string, i: nat, acrossLines: bool): (n: nat)
    requires i <= |s|
    ensures i + n <= |s|
    ensures forall j :: i <= j < i + n ==> HeadingSpace(s[j], acrossLines)
    ensures i + n == |s| || !HeadingSpace(s[i + n], acrossLines)
    decreases |s| - i
  {
    if i < |s| && HeadingSpace(s[i], acrossLines) then 1 + SpaceRun(s, i + 1, acrossLines) else 0
  }

  /** The first line end at or after `i`: where `(\n|$)` can match. */
  function LineEnd(s: string, i: nat): (e: nat)
    requires i <= |s|
    ensures i <= e <= |s|
    ensures forall j :: i <= j < e ==> s[j] != '\n'
    ensures e == |s| || s[e] == '\n'
    decreases |s| - i
  {
    if i == |s| || s[i] == '\n' then i else LineEnd(s, i + 1)
  }

  /** The last index in `[lo, hi)` that holds no line break. */
  function LastNonNewline(s: string, lo: nat, hi: nat): (r: Option<nat>)
    requires lo <= hi <= |s|
    ensures r.Some? ==> lo <= r.value < hi && s[r.value] != '\n'
    ensures forall j :: (if r.Some? then r.value + 1 else lo) <= j < hi ==> s[j] == '\n'
    decreases hi - lo
  {
    if hi == lo then None
    else if s[hi - 1] != '\n' then Some(hi - 1)
    else LastNonNewline(s, lo, hi - 1)
  }

  /** The match from `p`, if any.  `\s+` first takes the whole run; when
      no character for `.+?` follows it (the run reaches a line break or
      the end of the text), it gives characters back until `.+?` finds one
      that is not a line break. */
  function HeadingAt(s: string, p: nat, acrossLines: bool): (r: Option<HeadingMatch>)
    requires p <= |s|
    ensures r.Some? ==> p == r.value.start < r.value.hashEnd < r.value.body < r.value.lineEnd <= |s|
  {
    var h := p + HashRun(s, p);
    var w := h + SpaceRun(s, h, acrossLines);
    if !AtLineStart(s, p) || h == p || w == h then None
    else if w < |s| && s[w] != '\n' then Some(HeadingMatch(p, h, w, LineEnd(s, w)))
    else match LastNonNewline(s, h + 1, w)
      case None => None
      case Some(k) => Some(HeadingMatch(p, h, k, LineEnd(s, k)))
  }

  function HeadingFrom(s: string, p: nat, acrossLines: bool): (r: Option<HeadingMatch>)
    requires p <= |s|
    ensures r.Some? ==> p <= r.value.start < r.value.hashEnd < r.value.body < r.value.lineEnd <= |s|
    ensures r.Some? ==> r == HeadingAt(s, r.value.start, acrossLines)
    decreases |s| - p
  {
    var here := HeadingAt(s, p, acrossLines);
    if here.Some? || p == |s| then here else HeadingFrom(s, p + 1, acrossLines)
  }

  /** `re.search(pattern, s, re.MULTILINE)`. */
  function FindHeading(s: string, acrossLines: bool): (r: Option<HeadingMatch>)
    ensures r.Some? ==> r.value.start < r.value.hashEnd < r.value.body < r.value.lineEnd <= |s|
  {
    HeadingFrom(s, 0, acrossLines)
  }

  /** `title_match.end()`: a line break matched by `(\n|$)` belongs to the
      match. */
  function MatchEnd(s: string, m: HeadingMatch): (r: nat)
    requires m.lineEnd <= |s|
    ensures m.lineEnd <= r <= |s|
  {
    if m.lineEnd < |s| then m.lineEnd + 1 else m.lineEnd
  }

  /** What the scan from `p` finds fits the pattern. */
  lemma {:induction false} HeadingAtSound(s: string, p: nat, acrossLines: bool)
    requires p <= |s|
    ensures var r := HeadingAt(s, p, acrossLines);
      r.Some? ==> Fits(s, p, r.value.hashEnd, r.value.body, r.value.lineEnd, acrossLines)
  {
    var h := p + HashRun(s, p);
    var w := h + SpaceRun(s, h, acrossLines);
    var r := HeadingAt(s, p, acrossLines);
    if r.Some? {
      assert s[r.value.body] != '\n';
    }
  }

  /** Any way the pattern fits from `p` is found by the scan, with a `\s+`
      no longer than the scan's. */
  lemma {:induction false} HeadingAtComplete(s: string, p: nat, h': nat, k: nat, e: nat, acrossLines: bool)
    requires p <= |s| && Fits(s, p, h', k, e, acrossLines)
    ensures HeadingAt(s, p, acrossLines).Some? && k <= HeadingAt(s, p, acrossLines).value.body
  {
    var h := p + HashRun(s, p);
    assert IsSpace(s[h']);
    assert h' == h;
    var w := h + SpaceRun(s, h, acrossLines);
    assert k <= w;
    assert s[k] != '\n';
  }

  /** The scan from `p` finds the match there exactly when the pattern
      matches there, with the longest `\s+`. */
  lemma {:induction false} HeadingAtSpec(s: string, p: nat, acrossLines: bool)
    requires p <= |s|
    ensures var r := HeadingAt(s, p, acrossLines);
      r.Some? ==> Fits(s, p, r.value.hashEnd, r.value.body, r.value.lineEnd, acrossLines)
    ensures forall h: nat, k: nat, e: nat :: Fits(s, p, h, k, e, acrossLines) ==>
      HeadingAt(s, p, acrossLines).Some? && k <= HeadingAt(s, p, acrossLines).value.body
  {
    HeadingAtSound(s, p, acrossLines);
    forall h: nat, k: nat, e: nat | Fits(s, p, h, k, e, acrossLines)
      ensures HeadingAt(s, p, acrossLines).Some? && k <= HeadingAt(s, p, acrossLines).value.body
    {
      HeadingAtComplete(s, p, h, k, e, acrossLines);
    }
  }

  /** Whatever the scan finds fits the pattern. */
  lemma {:induction false} HeadingFromSound(s: string, p: nat, acrossLines: bool)
    requires p <= |s|
    ensures var r := HeadingFrom(s, p, acrossLines);
      r.Some? ==> Fits(s, r.value.start, r.value.hashEnd, r.value.body, r.value.lineEnd, acrossLines)
  {
    var r := HeadingFrom(s, p, acrossLines);
    if r.Some? {
      HeadingAtSound(s, r.value.start, acrossLines);
    }
  }

  /** A fit from `q` at or after `p` is found by the scan from `p`: there or
      further left, and there with a `\s+` no longer than the scan's. */
  lemma {:induction false} HeadingFromComplete(s: string, p: nat, q: nat, h: nat, k: nat, e: nat, acrossLines: bool)
    requires p <= q <= |s| && Fits(s, q, h, k, e, acrossLines)
    ensures var r := HeadingFrom(s, p, acrossLines);
      r.Some? && (r.value.start < q || (r.value.start == q && k <= r.value.body))
    decreases q - p
  {
    var here := HeadingAt(s, p, acrossLines);
    if q == p {
      HeadingAtComplete(s, p, h, k, e, acrossLines);
      assert HeadingFrom(s, p, acrossLines) == here;
    } else if here.Some? {
      assert HeadingFrom(s, p, acrossLines) == here;
    } else {
      assert HeadingFrom(s, p, acrossLines) == HeadingFrom(s, p + 1, acrossLines);
      HeadingFromComplete(s, p + 1, q, h, k, e, acrossLines);
    }
  }

  /** The scanner against the pattern: what it finds is the first heading
      match, and when it finds nothing the pattern matches nowhere. */
  lemma {:induction false} FindHeadingSpec(s: string, acrossLines: bool)
    ensures FindHeading(s, acrossLines).Some? ==> IsFirstHeading(s, FindHeading(s, acrossLines).value, acrossLines)
    ensures FindHeading(s, acrossLines).None? ==> forall p: nat, h: nat, k: nat, e: nat :: !Fits(s, p, h, k, e, acrossLines)
  {
    HeadingFromSound(s, 0, acrossLines);
    forall q: nat, h: nat, k: nat, e: nat | Fits(s, q, h, k, e, acrossLines)
      ensures var r := FindHeading(s, acrossLines);
        r.Some? && (r.value.start < q || (r.value.start == q && k <= r.value.body))
    {
      HeadingFromComplete(s, 0, q, h, k, e, acrossLines);
    }
  }

  // ---------------------------------------------------------------------
  // The subject and message of `fill_moodle_forum`

  /** `re.sub(r'^#+\s+', '', t)`: without MULTILINE, `^` is the start of
      `t` only, so at most the leading marks and the whitespace after them
      go. */
  function StripHeadingMarks(t: string): (r: string)
    ensures |r| <= |t|
  {
    var h := HashRun(t, 0);
    var w := h + SpaceRun(t, h, true);
    if h > 0 && w > h then t[w..] else t
  }

  const InstructionWords: seq<string> := ["post a", "write a", "create a", "about"]

  const Punctuation: string := ".,!?;:"

  /** Lines 252-261: the given subject does not look like a title. */
  predicate ShouldExtractTitle(subject: string) {
    (exists w :: w in InstructionWords && Contains(Lower(subject), w))
    || |Strip(subject)| < 15
    || (IsLowerCase(subject) && forall c :: c in subject ==> c !in Punctuation)
  }

  /** Lines 277-279: the stripped first line, cut to 97 characters and
      "..." when longer than 100. */
  function FirstLineSubject(message: string): (r: string)
    ensures |r| <= 100
  {
    var line := Strip(Split(message, '\n')[0]);
    if |line| > 100 then line[..97] + "..." else line
  }

  /** Lines 264-274: the subject and message cut from a heading match. */
  function FromHeading(message: string, m: HeadingMatch): ForumPost
    requires m.start <= m.lineEnd <= |message|
  {
    MoodleHelpers.ForumPost(Strip(StripHeadingMarks(message[m.start..m.lineEnd])),
                            LStripChar(message[MatchEnd(message, m)..], '\n'))
  }

  /** Lines 276-287: the first line as the subject, if it is not blank. */
  function FromFirstLine(subject: string, message: string): ForumPost {
    var first := FirstLineSubject(message);
    var parts := SplitOnce(message, '\n');
    if first == [] then MoodleHelpers.ForumPost(subject, message)
    else if |parts| > 1 then MoodleHelpers.ForumPost(first, LStripChar(parts[1], '\n'))
    else MoodleHelpers.ForumPost(first, message)
  }

  /** Lines 252-287, with the heading pattern's `\s` taking line breaks
      or not. */
  function NormaliseTitleWith(subject: string, message: string, acrossLines: bool): ForumPost {
    if !ShouldExtractTitle(subject) || message == [] then MoodleHelpers.ForumPost(subject, message)
    else match FindHeading(message, acrossLines)
      case Some(m) => FromHeading(message, m)
      case None => FromFirstLine(subject, message)
  }

  /** Lines 252-287 as written. */
  function NormaliseTitle(subject: string, message: string): ForumPost {
    NormaliseTitleWith(subject, message, true)
  }

  /** Lines 252-287 with the heading kept on one line. */
  function NormaliseTitleOneLine(subject: string, message: string): ForumPost {
    NormaliseTitleWith(subject, message, false)
  }

  lemma {:induction false} HashRunIs(t: string, i: nat, n: nat)
    requires i + n <= |t|
    requires forall j :: i <= j < i + n ==> t[j] == '#'
    requires i + n == |t| || t[i + n] != '#'
    ensures HashRun(t, i) == n
  {
    var r := HashRun(t, i);
    assert i + r < |t| ==> t[i + r] != '#';
  }

  lemma {:induction false} SpaceRunIs(t: string, i: nat, n: nat, acrossLines: bool)
    requires i + n <= |t|
    requires forall j :: i <= j < i + n ==> HeadingSpace(t[j], acrossLines)
    requires i + n == |t| || !HeadingSpace(t[i + n], acrossLines)
    ensures SpaceRun(t, i, acrossLines) == n
  {
    var r := SpaceRun(t, i, acrossLines);
    assert i + r < |t| ==> !HeadingSpace(t[i + r], acrossLines);
  }

  lemma {:induction false} LineEndIs(s: string, i: nat, e: nat)
    requires i <= e <= |s|
    requires forall j :: i <= j < e ==> s[j] != '\n'
    requires e == |s| || s[e] == '\n'
    ensures LineEnd(s, i) == e
  {
  }

  lemma {:induction false} StripAllSpace(x: string)
    requires forall i :: 0 <= i < |x| ==> IsSpace(x[i])
    ensures Strip(x) == []
    decreases |x|
  {
    if x != [] {
      StripAllSpace(x[1..]);
    }
  }

  /** `t` opens with `a` marks and then whitespace up to `b`. */
  lemma {:induction false} MarksThen(t: string, a: nat, b: nat)
    requires 0 < a < b <= |t|
    requires forall j :: 0 <= j < a ==> t[j] == '#'
    requires forall j :: a <= j < b ==> IsSpace(t[j])
    requires b == |t| || !IsSpace(t[b])
    ensures StripHeadingMarks(t) == t[b..]
  {
    HashRunIs(t, 0, a);
    SpaceRunIs(t, a, b - a, true);
  }

  /** Marks up to `h`, whitespace up to `w`, then text: the marks and the
      whitespace are stripped. */
  lemma {:induction false} TitleAfterSpace(s: string, p: nat, h: nat, w: nat, e: nat)
    requires p < h < w < e <= |s|
    requires forall i :: p <= i < h ==> s[i] == '#'
    requires forall i :: h <= i < w ==> IsSpace(s[i])
    requires !IsSpace(s[w])
    ensures StripHeadingMarks(s[p..e]) == s[w..e]
  {
    var t := s[p..e];
    MarksThen(t, h - p, w - p);
    assert t[w - p..] == s[w..e];
  }

  /** Marks up to `h` and whitespace to the end: nothing is left. */
  lemma {:induction false} TitleAllSpace(s: string, p: nat, h: nat, k: nat, e: nat)
    requires p < h <= k < e <= |s|
    requires forall i :: p <= i < h ==> s[i] == '#'
    requires forall i :: h <= i < e ==> IsSpace(s[i])
    ensures StripHeadingMarks(s[p..e]) == [] && Strip(s[k..e]) == []
  {
    var t := s[p..e];
    MarksThen(t, h - p, e - p);
    StripAllSpace(s[k..e]);
  }

  /** The subject taken from a heading match is the stripped text of its
      `.+?` part: the marks and the whitespace after them are gone. */
  lemma {:induction false} HeadingTitle(s: string, p: nat, acrossLines: bool)
    requires p <= |s| && HeadingAt(s, p, acrossLines).Some?
    ensures var m := HeadingAt(s, p, acrossLines).value;
      Strip(StripHeadingMarks(s[m.start..m.lineEnd])) == Strip(s[m.body..m.lineEnd])
  {
    var m := HeadingAt(s, p, acrossLines).value;
    HeadingAtSound(s, p, acrossLines);
    var h, k, e := m.hashEnd, m.body, m.lineEnd;
    var w := h + SpaceRun(s, h, acrossLines);
    if w < |s| && s[w] != '\n' {
      assert k == w && !HeadingSpace(s[w], acrossLines);
      TitleAfterSpace(s, p, h, w, e);
    } else {
      assert k < w;
      assert k + 1 == |s| || s[k + 1] == '\n';
      assert e == k + 1;
      TitleAllSpace(s, p, h, k, e);
    }
  }

  /** Lines 264-274: with a heading in the message, the subject is the
      heading's text and the message is what follows the match, so any
      text before the heading is dropped too. */
  lemma {:induction false} NormaliseHeading(subject: string, message: string, acrossLines: bool)
    requires ShouldExtractTitle(subject) && message != []
    requires FindHeading(message, acrossLines).Some?
    ensures var m := FindHeading(message, acrossLines).value;
      var r := NormaliseTitleWith(subject, message, acrossLines);
      && IsFirstHeading(message, m, acrossLines)
      && r.subject == Strip(message[m.body..m.lineEnd])
      && r.message == LStripChar(message[MatchEnd(message, m)..], '\n')
  {
    FindHeadingSpec(message, acrossLines);
    HeadingTitle(message, FindHeading(message, acrossLines).value.start, acrossLines);
  }

  /** Lines 276-287: without a heading, a non-blank first line becomes the
      subject (at most 100 characters) and leaves the message, together
      with the line breaks after it; a blank first line changes nothing. */
  lemma {:induction false} NormaliseFirstLine(subject: string, message: string, acrossLines: bool)
    requires ShouldExtractTitle(subject) && message != []
    requires FindHeading(message, acrossLines).None?
    ensures forall p: nat, h: nat, k: nat, e: nat :: !Fits(message, p, h, k, e, acrossLines)
    ensures var r := NormaliseTitleWith(subject, message, acrossLines);
      var first := Split(message, '\n')[0];
      && (Strip(first) == [] ==> r == MoodleHelpers.ForumPost(subject, message))
      && (Strip(first) != [] ==>
            && r.subject == FirstLineSubject(message)
            && |r.subject| <= 100
            && r.message == if '\n' in message then LStripChar(message[|first| + 1..], '\n') else message)
  {
    FindHeadingSpec(message, acrossLines);
    FirstLineRest(message);
  }

  /** `message.split('\n', 1)[1]` is what follows the first line. */
  lemma {:induction false} FirstLineRest(message: string)
    ensures var parts := SplitOnce(message, '\n');
      var first := Split(message, '\n')[0];
      && (|parts| > 1 <==> '\n' in message)
      && (|parts| > 1 ==> |first| < |message| && parts[1] == message[|first| + 1..])
  {
    var parts := SplitOnce(message, '\n');
    if |parts| > 1 {
      var first := Split(message, '\n')[0];
      assert parts[0] == first;
      assert message == first + "\n" + parts[1];
      assert message[|first| + 1..] == parts[1];
    }
  }

  /** A first line `marks + t`, with `marks` one or more `#` and a space. */
  predicate HeadingLine(marks: string, t: string) {
    && |marks| >= 2 && marks[|marks| - 1] == ' '
    && (forall i :: 0 <= i < |marks| - 1 ==> marks[i] == '#')
    && '\n' !in t && LStrip(t) != []
  }

  lemma {:induction false} FirstLineMarks(marks: string, t: string, rest: string, acrossLines: bool)
    requires HeadingLine(marks, t)
    ensures var s := marks + t + "\n" + rest;
      HashRun(s, 0) == |marks| - 1 && SpaceRun(s, |marks| - 1, acrossLines) == |t| - |LStrip(t)| + 1
  {
    var s := marks + t + "\n" + rest;
    var n, d := |marks|, |t| - |LStrip(t)|;
    LStripSuffix(t);
    assert s[n - 1] == ' ';
    HashRunIs(s, 0, n - 1);
    forall j | n - 1 <= j < n + d ensures HeadingSpace(s[j], acrossLines) {
      if j >= n {
        assert s[j] == t[j - n] && t[j - n] in t;
      }
    }
    assert s[n + d] == LStrip(t)[0];
    SpaceRunIs(s, n - 1, d + 1, acrossLines);
  }

  lemma {:induction false} FirstLineEnd(marks: string, t: string, rest: string, w: nat)
    requires '\n' !in t && |marks| <= w <= |marks| + |t|
    ensures LineEnd(marks + t + "\n" + rest, w) == |marks| + |t|
  {
    var s := marks + t + "\n" + rest;
    var n := |marks|;
    forall j | w <= j < n + |t| ensures s[j] != '\n' {
      assert s[j] == t[j - n] && t[j - n] in t;
    }
    assert s[n + |t|] == '\n';
    LineEndIs(s, w, n + |t|);
  }

  /** A message whose first line is a heading: the heading is found there,
      whichever way `\s` is read. */
  lemma {:induction false} HeadingOnFirstLine(marks: string, t: string, rest: string, acrossLines: bool)
    requires HeadingLine(marks, t)
    ensures var m := HeadingMatch(0, |marks| - 1, |marks| + |t| - |LStrip(t)|, |marks| + |t|);
      && HeadingAt(marks + t + "\n" + rest, 0, acrossLines) == Some(m)
      && FindHeading(marks + t + "\n" + rest, acrossLines) == Some(m)
  {
    var s := marks + t + "\n" + rest;
    var w := |marks| + |t| - |LStrip(t)|;
    FirstLineMarks(marks, t, rest, acrossLines);
    FirstLineEnd(marks, t, rest, w);
    LStripSuffix(t);
    assert s[w] == LStrip(t)[0];
    assert HeadingAt(s, 0, acrossLines) == Some(HeadingMatch(0, |marks| - 1, w, |marks| + |t|));
  }

  /** The marks and the whitespace after them come off a heading line. */
  lemma {:induction false} MarksOff(marks: string, t: string)
    requires HeadingLine(marks, t)
    ensures StripHeadingMarks(marks + t) == LStrip(t)
  {
    var x := marks + t;
    var n, d := |marks|, |t| - |LStrip(t)|;
    LStripSuffix(t);
    forall j | n - 1 <= j < n + d ensures IsSpace(x[j]) {
      if j >= n {
        assert x[j] == t[j - n];
      }
    }
    assert x[n + d] == LStrip(t)[0];
    MarksThen(x, n - 1, n + d);
    assert x[n + d..] == LStrip(t);
  }

  /** The subject the heading on the first line gives. */
  lemma {:induction false} FirstLineTitle(marks: string, t: string, rest: string)
    requires HeadingLine(marks, t)
    ensures Strip(StripHeadingMarks((marks + t + "\n" + rest)[0..|marks| + |t|])) == Strip(t)
  {
    var s := marks + t + "\n" + rest;
    assert s[0..|marks| + |t|] == marks + t;
    MarksOff(marks, t);
    assert LStrip(LStrip(t)) == LStrip(t);
  }

  /** ... and it gives `t` stripped as the subject and the rest, without
      its leading line breaks, as the message. */
  lemma {:induction false} FirstLinePost(marks: string, t: string, rest: string, s: string, acrossLines: bool)
    requires HeadingLine(marks, t) && s == marks + t + "\n" + rest
    ensures FindHeading(s, acrossLines).Some?
    ensures FromHeading(s, FindHeading(s, acrossLines).value)
         == MoodleHelpers.ForumPost(Strip(t), LStripChar(rest, '\n'))
  {
    var m := HeadingMatch(0, |marks| - 1, |marks| + |t| - |LStrip(t)|, |marks| + |t|);
    HeadingOnFirstLine(marks, t, rest, acrossLines);
    assert FromHeading(s, m).subject == Strip(t) by {
      FirstLineTitle(marks, t, rest);
      assert s[m.start..m.lineEnd] == s[0..|marks| + |t|];
    }
    assert FromHeading(s, m).message == LStripChar(rest, '\n') by {
      assert MatchEnd(s, m) == |marks| + |t| + 1;
      assert s[|marks| + |t| + 1..] == rest;
    }
  }

  /** A message that opens with a heading line, under a subject that asks
      for a title: the heading's text becomes the subject. */
  lemma {:induction false} NormaliseHeadingLine(subject: string, marks: string, t: string, rest: string,
                                                 message: string, acrossLines: bool)
    requires ShouldExtractTitle(subject) && HeadingLine(marks, t)
    requires message == marks + t + "\n" + rest
    ensures NormaliseTitleWith(subject, message, acrossLines)
         == MoodleHelpers.ForumPost(Strip(t), LStripChar(rest, '\n'))
  {
    FirstLinePost(marks, t, rest, message, acrossLines);
  }

  /** The example subject asks for a post, so a title is derived. */
  lemma {:induction false} ExampleSubject()
    ensures ShouldExtractTitle("write a post about RAG")
  {
    var subject := "write a post about RAG";
    assert Lower(subject)[..7] == "write a";
    assert OccursAt(Lower(subject), "write a", 0);
    assert "write a" in InstructionWords;
  }

  /** Lines 264-274: a subject asking for a post, with a `## ` heading as
      the first line; the heading gives the subject, and the message keeps
      what follows. */
  lemma {:induction false} ExampleTitle()
    ensures HeadingLine("## ", "Understanding RAG")
    ensures Strip("Understanding RAG") == "Understanding RAG"
  {
    var t := "Understanding RAG";
    assert LStrip(t) == t;
    assert RStrip(t) == t;
  }

  lemma {:induction false} NormaliseExample()
    ensures NormaliseTitle("write a post about RAG", "## " + "Understanding RAG" + "\n" + "body text")
         == MoodleHelpers.ForumPost("Understanding RAG", "body text")
  {
    ExampleSubject();
    ExampleTitle();
    assert LStripChar("body text", '\n') == "body text";
    NormaliseHeadingLine("write a post about RAG", "## ", "Understanding RAG", "body text",
                         "## " + "Understanding RAG" + "\n" + "body text", true);
  }

  // ---------------------------------------------------------------------
  // The heading pattern's `\s+` crosses line breaks

  /** As written, a lone `#` line is a heading whose text is the next line:
      the whole next line becomes the subject and leaves nothing behind. */
  lemma {:induction false} LoneMarkAsWritten(subject: string, t: string)
    requires ShouldExtractTitle(subject)
    requires t != [] && '\n' !in t && !IsSpace(t[0])
    ensures FindHeading("#\n" + t, true) == Some(HeadingMatch(0, 1, 2, |t| + 2))
    ensures NormaliseTitle(subject, "#\n" + t) == MoodleHelpers.ForumPost(Strip(t), [])
  {
    var s := "#\n" + t;
    var m := HeadingMatch(0, 1, 2, |t| + 2);
    assert s[1] == '\n' && s[2] == t[0];
    HashRunIs(s, 0, 1);
    SpaceRunIs(s, 1, 1, true);
    forall j | 2 <= j < |s| ensures s[j] != '\n' {
      assert s[j] == t[j - 2] && t[j - 2] in t;
    }
    LineEndIs(s, 2, |s|);
    assert HeadingAt(s, 0, true) == Some(m);
    MarksThen(s, 1, 2);
    assert s[0..|s|] == s && s[2..] == t;
  }

  lemma {:induction false} LoneMarkNoFit(t: string, p: nat, h: nat, k: nat, e: nat)
    requires t != [] && '\n' !in t && t[0] != '#'
    ensures !Fits("#\n" + t, p, h, k, e, false)
  {
    var s := "#\n" + t;
    assert s[0] == '#' && s[1] == '\n' && s[2] == t[0];
    forall j | 2 <= j < |s| ensures s[j] != '\n' {
      assert s[j] == t[j - 2] && t[j - 2] in t;
    }
  }

  /** With `\s` kept to one line, no line of `"#\n" + t` is a heading. */
  lemma {:induction false} LoneMarkNoHeading(t: string)
    requires t != [] && '\n' !in t && t[0] != '#'
    ensures FindHeading("#\n" + t, false).None?
  {
    FindHeadingSpec("#\n" + t, false);
    forall p: nat, h: nat, k: nat, e: nat ensures !Fits("#\n" + t, p, h, k, e, false) {
      LoneMarkNoFit(t, p, h, k, e);
    }
  }

  /** ... so the corrected pattern keeps the `#` line as the subject and
      the next line as the message. */
  lemma {:induction false} LoneMarkOneLine(subject: string, t: string)
    requires ShouldExtractTitle(subject)
    requires t != [] && '\n' !in t && t[0] != '#'
    ensures NormaliseTitleOneLine(subject, "#\n" + t) == MoodleHelpers.ForumPost("#", t)
  {
    LoneMarkNoHeading(t);
    LoneMarkFirstLine(subject, t);
  }

  /** The first-line rule on `"#\n" + t`. */
  lemma {:induction false} LoneMarkFirstLine(subject: string, t: string)
    requires t != [] && '\n' !in t
    ensures FromFirstLine(subject, "#\n" + t) == MoodleHelpers.ForumPost("#", t)
  {
    var s := "#\n" + t;
    assert s == "#" + ['\n'] + t;
    SplitAround("#", t, '\n');
    assert LStrip("#") == "#" && RStrip("#") == "#";
    var parts := SplitOnce(s, '\n');
    assert parts[0] == "#" && parts[1] == t;
  }

  /** The corrected pattern never takes a line break into the heading. */
  lemma {:induction false} OneLineHeading(s: string)
    requires FindHeading(s, false).Some?
    ensures var m := FindHeading(s, false).value;
      m.lineEnd <= |s| && forall i :: m.start <= i < m.lineEnd ==> s[i] != '\n'
  {
    FindHeadingSpec(s, false);
  }

  /** The message `"#\nbody text"` under the subject `"post"`. */
  lemma {:induction false} LoneMarkExample()
    ensures NormaliseTitle("post", "#\n" + "body text") == MoodleHelpers.ForumPost("body text", [])
    ensures NormaliseTitleOneLine("post", "#\n" + "body text") == MoodleHelpers.ForumPost("#", "body text")
  {
    var t := "body text";
    assert LStrip("post") == "post";
    assert ShouldExtractTitle("post");
    assert '\n' !in t;
    assert LStrip(t) == t && RStrip(t) == t;
    LoneMarkAsWritten("post", t);
    LoneMarkOneLine("post", t);
  }

  // ---------------------------------------------------------------------
  // The guards of `fill_moodle_forum`

  /** Where `fill_moodle_forum` stops before any browser step: an error and
      its advice, or the re-derived post and the forum URL it goes on to
      open. */
  datatype FillOutcome = Refused(error: string, advice: string) | Proceeds(post: ForumPost, url: string)

  /** Lines 303-304: the `forum_url` argument if it is non-empty, else the
      `MOODLE_FORUM_URL` setting (empty when unset). */
  function ForumUrl(forumUrl: Option<string>, envUrl: string): string {
    if forumUrl.Some? && forumUrl.value != "" then forumUrl.value else envUrl
  }

  /** Lines 289-316: the MCP tools must be there, a forum URL must be
      configured and it must pass `validate_moodle_url`, in this order. */
  function FillGuard(post: ForumPost, forumUrl: Option<string>, envUrl: string, toolsAvailable: bool): FillOutcome {
    var url := ForumUrl(forumUrl, envUrl);
    if !toolsAvailable then
      Refused("MCP tools not available", "Please install MCP dependencies: pip install mcp markdown")
    else if url == "" then
      Refused("MOODLE_FORUM_URL not configured", "Please set MOODLE_FORUM_URL in your .env file")
    else if !MoodleHelpers.ValidateMoodleUrl(url) then
      Refused("Invalid Moodle URL", "The URL does not appear to be a valid Moodle forum URL: " + url)
    else Proceeds(post, url)
  }

  /** Lines 250-316, with the heading pattern's `\s` taking line breaks or
      not: the subject and message are re-derived first, then guarded. The
      browser is reached exactly when the tools are there and the chosen URL
      is an HTTPS forum URL mentioning `moodle`, and then with the
      re-derived post. */
  function FillMoodleForumWith(subject: string, message: string, forumUrl: Option<string>, envUrl: string,
                               toolsAvailable: bool, acrossLines: bool): (r: FillOutcome)
    ensures var url := ForumUrl(forumUrl, envUrl);
      && (r.Proceeds? <==> toolsAvailable && StartsWith(url, "https://") && Contains(Lower(url), "moodle")
                           && Contains(url, "/forum/"))
      && (r.Proceeds? ==> r.post == NormaliseTitleWith(subject, message, acrossLines) && r.url == url)
  {
    var post := NormaliseTitleWith(subject, message, acrossLines);
    FillGuards(post, forumUrl, envUrl, toolsAvailable, ForumUrl(forumUrl, envUrl));
    FillGuard(post, forumUrl, envUrl, toolsAvailable)
  }

  /** Lines 250-316 as written. */
  function FillMoodleForumAsWritten(subject: string, message: string, forumUrl: Option<string>, envUrl: string,
                                    toolsAvailable: bool): FillOutcome
  {
    FillMoodleForumWith(subject, message, forumUrl, envUrl, toolsAvailable, true)
  }

  /** Lines 250-316 with the heading kept on one line (`LoneMarkOneLine`). */
  function FillMoodleForum(subject: string, message: string, forumUrl: Option<string>, envUrl: string,
                           toolsAvailable: bool): FillOutcome
  {
    FillMoodleForumWith(subject, message, forumUrl, envUrl, toolsAvailable, false)
  }

  /** Lines 289-316: the browser is reached exactly when the tools are
      there and the chosen URL is an HTTPS forum URL mentioning `moodle`,
      and then with the re-derived post; each refusal names its cause. */
  lemma {:induction false} FillGuards(post: ForumPost, forumUrl: Option<string>, envUrl: string,
                                      toolsAvailable: bool, url: string)
    requires url == ForumUrl(forumUrl, envUrl)
    ensures var r := FillGuard(post, forumUrl, envUrl, toolsAvailable);
      && (r.Proceeds? <==> toolsAvailable && StartsWith(url, "https://") && Contains(Lower(url), "moodle")
                           && Contains(url, "/forum/"))
      && (r.Proceeds? ==> r.post == post && r.url == url)
  {
    MoodleHelpers.ValidUrlIff(url);
  }

  /** Lines 289-316: each refusal names the first guard that failed. */
  lemma {:induction false} FillRefusals(post: ForumPost, forumUrl: Option<string>, envUrl: string,
                                        toolsAvailable: bool, url: string)
    requires url == ForumUrl(forumUrl, envUrl)
    ensures var r := FillGuard(post, forumUrl, envUrl, toolsAvailable);
      && (!toolsAvailable ==> r == Refused("MCP tools not available",
                                           "Please install MCP dependencies: pip install mcp markdown"))
      && (toolsAvailable && url == "" ==> r == Refused("MOODLE_FORUM_URL not configured",
                                                       "Please set MOODLE_FORUM_URL in your .env file"))
      && (toolsAvailable && url != "" && r.Refused? ==>
            r == Refused("Invalid Moodle URL", "The URL does not appear to be a valid Moodle forum URL: " + url))
  {
  }

  /** Lines 264-316 on the message `"#\nbody text"` under the subject
      `"post"` and a valid forum URL: as written the browser gets the
      subject `body text` and an empty message, with the heading kept on
      one line it gets `#` and `body text`. */
  lemma {:induction false} FillLoneMark(forumUrl: Option<string>, envUrl: string, url: string)
    requires url == ForumUrl(forumUrl, envUrl) && MoodleHelpers.ValidateMoodleUrl(url)
    ensures FillMoodleForumAsWritten("post", "#\n" + "body text", forumUrl, envUrl, true)
         == Proceeds(MoodleHelpers.ForumPost("body text", []), url)
    ensures FillMoodleForum("post", "#\n" + "body text", forumUrl, envUrl, true)
         == Proceeds(MoodleHelpers.ForumPost("#", "body text"), url)
  {
    LoneMarkExample();
    MoodleHelpers.ValidUrlIff(url);
  }

  /** Lines 303-314: with no `forum_url` and no setting, the tool reports
      the missing configuration; a given URL wins over the setting. */
  lemma {:induction false} ForumUrlChoice(forumUrl: Option<string>, envUrl: string)
    ensures forumUrl.Some? && forumUrl.value != "" ==> ForumUrl(forumUrl, envUrl) == forumUrl.value
    ensures (forumUrl.None? || forumUrl.value == "") ==> ForumUrl(forumUrl, envUrl) == envUrl
    ensures ForumUrl(forumUrl, envUrl) == "" <==> (forumUrl.None? || forumUrl.value == "") && envUrl == ""
  {
  }

  // ---------------------------------------------------------------------
  // `lightrag_query`

  /** The JSON object `lightrag_query` returns. */
  datatype ToolPayload =
    | ErrorPayload(error: Json, suggestion: string)
    | AnswerPayload(response: Json, references: seq<Reference>, sources: seq<Citation>, query: string, mode: string)

  const ServiceSuggestion := "Please check if LightRAG service is running (docker ps)"
  const ConnectSuggestion := "Please run: cd lightrag && docker-compose up -d"
  const CannotConnect := "Cannot connect to LightRAG service"

  /** The query time limit `lightrag_query` and `create_cheat_sheet` leave
      at the client's default. */
  const DefaultTimeout := 60

  /** The keyword arguments `lightrag_query` passes on: `only_need_context`
      always (as a boolean), the other five as given (`JNull` for `None`),
      the rest of the client's options at their defaults. */
  function ToolOptions(onlyNeedContext: bool, responseType: Json, topK: Json, chunkTopK: Json, enableRerank: Json,
                       hlKeywords: Json, llKeywords: Json): QueryOptions
  {
    QueryOptions(responseType, topK, chunkTopK, enableRerank, hlKeywords, llKeywords, JBool(onlyNeedContext),
                 JNull, JNull, JNull, JNull, JNull, JNull, JNull)
  }

  /** `result.get(key, default)` for the three answer keys. */
  function ResponseOf(r: QueryResult): Json { if r.Parsed? then r.response else JStr("") }
  function ReferencesOf(r: QueryResult): seq<Reference> { if r.Parsed? then r.references else [] }
  function SourcesOf(r: QueryResult): seq<Citation> { if r.Parsed? then r.sources else [] }

  /** Lines 109-128: the payload for the client's result. */
  function QueryPayload(query: string, mode: string, r: QueryResult): ToolPayload {
    if r.Status() == "error" then ErrorPayload(r.error, ServiceSuggestion)
    else if r.Status() == "connection_error" then ErrorPayload(JStr(CannotConnect), ConnectSuggestion)
    else AnswerPayload(ResponseOf(r), ReferencesOf(r), SourcesOf(r), query, mode)
  }

  /** Lines 96-128: `lightrag_query` over the module's client, with the
      HTTP exchange given as `outcome`: the payload, and the request sent. */
  function LightragQuery(client: LightRagClient, query: string, mode: string, includeReferences: bool,
                         onlyNeedContext: bool, responseType: Json, topK: Json, chunkTopK: Json,
                         enableRerank: Json, hlKeywords: Json, llKeywords: Json, outcome: Outcome)
    : (ToolPayload, Option<Request>)
  {
    var o := ToolOptions(onlyNeedContext, responseType, topK, chunkTopK, enableRerank, hlKeywords, llKeywords);
    var (r, sent) := QuerySpec(client.baseUrl, client.apiKey, query, mode, includeReferences, o, DefaultTimeout, outcome);
    (QueryPayload(query, mode, r), sent)
  }

  /** Lines 109-128: only the statuses "error" and "connection_error" give
      an error payload; every other result, a refused short query, a bad
      request, a server error or a timeout included, gives the answer
      shape, with the client's answer when there is one and empty fields
      otherwise. */
  lemma {:induction false} PayloadShape(query: string, mode: string, r: QueryResult)
    ensures var p := QueryPayload(query, mode, r);
      && (p.ErrorPayload? <==> r.Status() in {"error", "connection_error"})
      && (r.Status() == "error" ==> p == ErrorPayload(r.error, ServiceSuggestion))
      && (r.Status() == "connection_error" ==> p == ErrorPayload(JStr(CannotConnect), ConnectSuggestion))
      && (r.Parsed? ==> p == AnswerPayload(r.response, r.references, r.sources, query, mode))
      && (r.Failed? && r.status !in {"error", "connection_error"} ==> p == AnswerPayload(JStr(""), [], [], query, mode))
  {
  }

  /** Lines 96-128: a timed-out query is reported in the answer shape with
      an empty response, not as an error. */
  lemma {:induction false} TimeoutLooksAnswered(client: LightRagClient, query: string, mode: string,
                                                includeReferences: bool, onlyNeedContext: bool)
    ensures LightragQuery(client, query, mode, includeReferences, onlyNeedContext, JNull, JNull, JNull, JNull,
                          JNull, JNull, TimedOut).0
         == AnswerPayload(JStr(""), [], [], query, mode)
  {
  }

  /** Lines 104-105: `only_need_context` is never `None`, so it is always
      in the request body, true or false. */
  lemma {:induction false} ContextInBody(query: string, mode: string, includeReferences: bool, onlyNeedContext: bool)
    ensures ("only_need_context", JBool(onlyNeedContext))
         in RequestBody(query, mode, includeReferences,
                        ToolOptions(onlyNeedContext, JNull, JNull, JNull, JNull, JNull, JNull))[3..]
  {
    var o := ToolOptions(onlyNeedContext, JNull, JNull, JNull, JNull, JNull, JNull);
    var e := ("only_need_context", JBool(onlyNeedContext));
    assert e in OptionalParams(o) by {
      assert OptionalParams(o)[6] == e;
    }
    RequestBodyContents(query, mode, includeReferences, o);
  }

  /** Lines 98-108: a query of three characters or more is sent with
      `only_need_context` in its body whether it is true or false, and a
      shorter one is answered with an empty response and nothing sent. */
  lemma {:induction false} OnlyNeedContextSent(client: LightRagClient, query: string, mode: string,
                                               includeReferences: bool, onlyNeedContext: bool, outcome: Outcome)
    ensures var (p, sent) := LightragQuery(client, query, mode, includeReferences, onlyNeedContext,
                                           JNull, JNull, JNull, JNull, JNull, JNull, outcome);
      && (|query| >= 3 ==> sent.Some? && ("only_need_context", JBool(onlyNeedContext)) in sent.value.body[3..])
      && (|query| < 3 ==> sent.None? && p == AnswerPayload(JStr(""), [], [], query, mode))
  {
    ContextInBody(query, mode, includeReferences, onlyNeedContext);
  }

  // ---------------------------------------------------------------------
  // `format_forum_post`

  const Attribution := "*This post was generated " + "with assistance from " + "the AI Course Assistant*"

  /** `draft_dict.get(key, default)`. */
  function Get(fields: map<string, string>, key: string, default: string): string {
    if key in fields then fields[key] else default
  }

  /** The lines of the template, for the title and the three sections. */
  function PostLines(title: string, understood: string, confused: string, summary: string): seq<string> {
    ["# " + title, "", "## What I Understand", understood, "", "## My Confusion Points", confused, "",
     "## AI Assistant Summary", summary, "", "---", Attribution, ""]
  }

  function TemplateLines(fields: map<string, string>): seq<string> {
    PostLines(Get(fields, "title", "Untitled Question"), Get(fields, "understood", ""),
              Get(fields, "confused", ""), Get(fields, "ai_summary", ""))
  }

  /** Lines 175-208: the template for a JSON object draft; anything else
      (not JSON, or JSON without `.get`) gives the error text with the
      exception's message `error`. */
  function FormatForumPost(draft: MoodleHelpers.Draft, error: string): string {
    match draft
    case JsonObject(fields) => Join(TemplateLines(fields), "\n")
    case _ => "Error formatting post: " + error
  }

  /** Lines 141-172: `generate_forum_draft` writes no draft itself; it
      returns a marker that hands the conversation to the forum-composer
      sub-agent. */
  function GenerateForumDraft(history: string): map<string, string> {
    map["tool" := "generate_forum_draft", "status" := "delegating_to_subagent",
        "subagent" := "forum-composer", "input" := history]
  }

  /** Lines 141-208: the marker carries the conversation unchanged, and it
      holds none of the draft's keys, so formatting it gives the empty
      template under "Untitled Question". */
  lemma {:induction false} MarkerFormatsEmpty(history: string, error: string)
    ensures GenerateForumDraft(history)["input"] == history
    ensures FormatForumPost(MoodleHelpers.JsonObject(GenerateForumDraft(history)), error)
         == Join(PostLines("Untitled Question", "", "", ""), "\n")
  {
    var fields := GenerateForumDraft(history);
    assert "title" !in fields && "understood" !in fields && "confused" !in fields && "ai_summary" !in fields;
  }

  predicate OneLine(v: string) { '\n' !in v }

  lemma {:induction false} AttributionOneLine()
    ensures OneLine(Attribution)
  {
    assert '\n' !in "*This post was generated ";
    assert '\n' !in "with assistance from ";
    assert '\n' !in "the AI Course Assistant*";
  }

  lemma {:induction false} TemplateHeadersOneLine()
    ensures OneLine("## What I Understand") && OneLine("## My Confusion Points")
    ensures OneLine("## AI Assistant Summary") && OneLine("---")
  {
  }

  /** Lines 189-203: with one-line field values the post is exactly the
      fourteen template lines, the last one empty: the title line, the
      three sections in their fixed order and the attribution. */
  lemma {:induction false} FormatLines(fields: map<string, string>, error: string)
    requires forall k :: k in fields ==> OneLine(fields[k])
    ensures Split(FormatForumPost(MoodleHelpers.JsonObject(fields), error), '\n') == TemplateLines(fields)
  {
    var ls := TemplateLines(fields);
    TemplateOneLine(fields, ls);
    JoinSplit(ls, '\n');
  }

  /** With one-line field values every template line is one line. */
  lemma {:induction false} TemplateOneLine(fields: map<string, string>, ls: seq<string>)
    requires forall k :: k in fields ==> OneLine(fields[k])
    requires ls == TemplateLines(fields)
    ensures |ls| == 14 && forall k :: 0 <= k < |ls| ==> '\n' !in ls[k]
  {
    assert OneLine(ls[0]) by {
      var t := Get(fields, "title", "Untitled Question");
      assert OneLine(t);
      assert forall i :: 0 <= i < |ls[0]| ==> ls[0][i] == if i < 2 then "# "[i] else t[i - 2];
    }
    TemplateHeadersOneLine();
    AttributionOneLine();
    forall k | 0 <= k < |ls| ensures '\n' !in ls[k] {
      assert OneLine(ls[k]);
    }
  }

  /** Joining lines whose second is blank and third is not. */
  lemma {:induction false} JoinBlankSecond(ls: seq<string>)
    requires |ls| >= 3 && ls[1] == "" && ls[2] != ""
    ensures Join(ls, "\n") == ls[0] + "\n" + Join(ls[1..], "\n")
    ensures Join(ls[1..], "\n") == "\n" + Join(ls[2..], "\n")
    ensures Join(ls[2..], "\n")[0] == ls[2][0]
  {
    assert ls[1..][1..] == ls[2..];
    if |ls| > 3 {
      assert ls[2..][1..] == ls[3..];
    }
  }

  /** Lines 189-203: the title line comes first, and the post is the
      title line and the rest of the template after one line break. */
  lemma {:induction false} FormatHead(fields: map<string, string>, error: string, ls: seq<string>)
    requires ls == TemplateLines(fields)
    ensures FormatForumPost(MoodleHelpers.JsonObject(fields), error)
         == "# " + Get(fields, "title", "Untitled Question") + "\n" + Join(ls[1..], "\n")
    ensures Join(ls[1..], "\n") == "\n" + Join(ls[2..], "\n") && Join(ls[2..], "\n")[0] == '#'
  {
    assert |ls| == 14 && ls[1] == "" && ls[2] == "## What I Understand";
    JoinBlankSecond(ls);
  }

  /** A formatted post read back by `extract_forum_post_from_draft` (as a
      plain-text draft): the title is recovered, stripped. */
  lemma {:induction false} FormatThenExtract(fields: map<string, string>, error: string)
    requires OneLine(Get(fields, "title", "Untitled Question"))
    ensures var post := FormatForumPost(MoodleHelpers.JsonObject(fields), error);
      var ls := TemplateLines(fields);
      && MoodleHelpers.DraftPost(post, MoodleHelpers.NotJson)
         == MoodleHelpers.ForumPost(Strip(Get(fields, "title", "Untitled Question")), Strip(Join(ls[1..], "\n")))
      && MoodleHelpers.DraftPostAsWritten(post, MoodleHelpers.NotJson) == MoodleHelpers.DraftPost(post, MoodleHelpers.NotJson)
  {
    var ls := TemplateLines(fields);
    FormatHead(fields, error, ls);
    MoodleHelpers.HeadingFirst(Get(fields, "title", "Untitled Question"), Join(ls[1..], "\n"));
  }

  /** A formatted post handed to `fill_moodle_forum` under a subject that
      asks for a title: the title becomes the subject, and the message is
      the template from its first section on. */
  lemma {:induction false} FormatThenFill(subject: string, fields: map<string, string>, error: string, acrossLines: bool)
    requires ShouldExtractTitle(subject)
    requires OneLine(Get(fields, "title", "Untitled Question")) && LStrip(Get(fields, "title", "Untitled Question")) != []
    ensures NormaliseTitleWith(subject, FormatForumPost(MoodleHelpers.JsonObject(fields), error), acrossLines)
         == MoodleHelpers.ForumPost(Strip(Get(fields, "title", "Untitled Question")), Join(TemplateLines(fields)[2..], "\n"))
  {
    var ls := TemplateLines(fields);
    FormatHead(fields, error, ls);
    TitleThenBlank(subject, Get(fields, "title", "Untitled Question"), Join(ls[2..], "\n"),
                   FormatForumPost(MoodleHelpers.JsonObject(fields), error), acrossLines);
  }

  /** A heading line, a blank line and text not opening with a line
      break: the text is the message. */
  lemma {:induction false} TitleThenBlank(subject: string, t: string, rest: string, message: string, acrossLines: bool)
    requires ShouldExtractTitle(subject) && OneLine(t) && LStrip(t) != []
    requires rest != [] && rest[0] != '\n'
    requires message == "# " + t + "\n" + ("\n" + rest)
    ensures NormaliseTitleWith(subject, message, acrossLines) == MoodleHelpers.ForumPost(Strip(t), rest)
  {
    assert HeadingLine("# ", t);
    NormaliseHeadingLine(subject, "# ", t, "\n" + rest, message, acrossLines);
    assert LStripChar("\n" + rest, '\n') == LStripChar(rest, '\n');
  }

  // ---------------------------------------------------------------------
  // `create_cheat_sheet`

  const CheatSheetPrefix := "Definition, workflow, advantages, challenges, and use cases of "

  /** The JSON object `create_cheat_sheet` returns (its `format` key is
      always "cheat_sheet"). */
  datatype CheatSheet = CheatSheet(concept: string, response: Json, references: seq<Reference>, sources: seq<Citation>)

  function NoOptions(): QueryOptions {
    QueryOptions(JNull, JNull, JNull, JNull, JNull, JNull, JNull, JNull, JNull, JNull, JNull, JNull, JNull, JNull)
  }

  /** Lines 516-533: the query asks for the concept's definition, workflow,
      advantages, challenges and use cases in "hybrid" mode; the answer's
      fields are copied whatever the status. */
  function CreateCheatSheet(client: LightRagClient, concept: string, outcome: Outcome): (CheatSheet, Option<Request>) {
    var (r, sent) := QuerySpec(client.baseUrl, client.apiKey, CheatSheetPrefix + concept, "hybrid", true,
                               NoOptions(), DefaultTimeout, outcome);
    (CheatSheet(concept, ResponseOf(r), ReferencesOf(r), SourcesOf(r)), sent)
  }

  /** Lines 518-525: whatever the concept, the query is long enough to be
      sent, with exactly the three required keys; a failed query gives an
      empty cheat sheet rather than an error. */
  lemma {:induction false} CheatSheetSent(client: LightRagClient, concept: string, outcome: Outcome)
    ensures var (sheet, sent) := CreateCheatSheet(client, concept, outcome);
      && sent == Some(Request(client.baseUrl + "/query",
                              [("query", JStr(CheatSheetPrefix + concept)), ("mode", JStr("hybrid")),
                               ("include_references", JBool(true))],
                              UrlParams(client.apiKey), DefaultTimeout))
      && sheet.concept == concept
      && (FromOutcome(outcome).Failed? ==> sheet == CheatSheet(concept, JStr(""), [], []))
  {
    var o := NoOptions();
    forall i | 0 <= i < |OptionalParams(o)| ensures !Keep(OptionalParams(o)[i].1) {
    }
    DefaultBody(CheatSheetPrefix + concept, "hybrid", true, o);
  }

  // ---------------------------------------------------------------------
  // `get_tools_by_mode`

  datatype Tool = LightragQueryTool | CreateCheatSheetTool | GenerateForumDraftTool | FormatForumPostTool
                | FillMoodleForumTool

  const BasicTools := [LightragQueryTool, CreateCheatSheetTool, GenerateForumDraftTool, FormatForumPostTool]
  const MoodleTools := [FillMoodleForumTool]
  const AllTools := BasicTools + MoodleTools

  /** Lines 565-590. */
  function ToolsByMode(mode: string): seq<Tool> {
    if mode == "qa" then [LightragQueryTool]
    else if mode == "forum" then [GenerateForumDraftTool, FormatForumPostTool]
    else if mode == "report" then [LightragQueryTool, CreateCheatSheetTool]
    else AllTools
  }

  /** Lines 547-590: every mode's tools come from the full list without
      repeats; the browser tool is handed out only for a mode other than
      "qa", "forum" and "report", and retrieval in every mode but "forum". */
  lemma {:induction false} ToolsByModeSpec(mode: string)
    ensures var r := ToolsByMode(mode);
      && (forall t :: t in r ==> t in AllTools)
      && (forall i, j :: 0 <= i < j < |r| ==> r[i] != r[j])
      && (FillMoodleForumTool in r <==> mode !in {"qa", "forum", "report"})
      && (LightragQueryTool in r <==> mode != "forum")
      && (CreateCheatSheetTool in r <==> mode !in {"qa", "forum"})
      && (FillMoodleForumTool !in BasicTools)
  {
  }
}
