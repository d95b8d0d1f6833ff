/**
 * The text helpers of the Moodle integration: locating an element id in an
 * accessibility-tree snapshot, the fallback Markdown to HTML converter, the
 * draft to (subject, message) extractor, the forum URL check and the
 * JavaScript string escaper.
 */
module MoodleHelpers {
  import opened Text
  import opened Regex

  // ---------------------------------------------------------------------
  // Element ids in a snapshot line

  /** `\[?uid[:\s]+([^\]\s,]+)`, searched with re.IGNORECASE. */
  const UidPattern := Pattern(
    [Opt('['), Lit('u'), Lit('i'), Lit('d'), Plus(CharClass(":", false, true, false)),
     Plus(CharClass("],", false, true, true))],
    [(5, 5)], true)

  /** `id[=:\s]+["\']?([^"\'\s,\]]+)`, searched with re.IGNORECASE. */
  const IdPattern := Pattern(
    [Lit('i'), Lit('d'), Plus(CharClass("=:", false, true, false)),
     Repeat(CharClass("\"'", false, false, false), 0, Finite(1), true),
     Plus(CharClass("\"',]", false, true, true))],
    [(4, 4)], true)

  /** The first group of the first match of `p` in `line`, if any. */
  function Capture(p: Pattern, line: string): Option<string> {
    var m := Search(p, line);
    if m.Some? then Some(Group(p, line, m.value, 0)) else None
  }

  /** Lines 58-70: the `uid` form is tried first, then the `id=` form. */
  function LineId(line: string): Option<string> {
    var uid := Capture(UidPattern, line);
    if uid.Some? then uid else Capture(IdPattern, line)
  }

  /** A token a snapshot id can be: non-empty, with no whitespace, `,` or
      `]`. */
  predicate IdToken(t: string) {
    t != [] && forall q :: 0 <= q < |t| ==> !IsSpace(t[q]) && t[q] != ',' && t[q] != ']'
  }

  /** `text in line`, after lower-casing both unless the search is case
      sensitive. */
  predicate ContainsText(line: string, text: string, caseSensitive: bool) {
    if caseSensitive then Contains(line, text) else Contains(Lower(line), Lower(text))
  }

  /** Lines 51-55: the line holds the text and, when an element type is
      given (a non-empty string), also the type, both without regard to
      case. */
  predicate TextCandidate(line: string, text: string, elementType: Option<string>, caseSensitive: bool) {
    ContainsText(line, text, caseSensitive)
    && (elementType.None? || elementType.value == "" || Contains(Lower(line), Lower(elementType.value)))
  }

  /** `parse_snapshot_for_text` from line `i` on: the id of the first
      candidate line that yields one. */
  function TextUidFrom(lines: seq<string>, i: nat, text: string, elementType: Option<string>, caseSensitive: bool)
    : (r: Option<string>)
    requires i <= |lines|
    decreases |lines| - i
  {
    if i == |lines| then None
    else if TextCandidate(lines[i], text, elementType, caseSensitive) && LineId(lines[i]).Some? then LineId(lines[i])
    else TextUidFrom(lines, i + 1, text, elementType, caseSensitive)
  }

  /** `'input' in line.lower() or 'textarea' in line.lower()`. */
  predicate InputLine(line: string) {
    Contains(Lower(line), "input") || Contains(Lower(line), "textarea")
  }

  /** Line 119: a following line passes when no input type is given (or an
      empty one) or the line names it. */
  predicate TypeAllows(line: string, inputType: Option<string>) {
    inputType.None? || inputType.value == "" || Contains(Lower(line), Lower(inputType.value))
  }

  /** Lines 116-124: an input line the type allows that carries a uid. */
  predicate Answers(line: string, inputType: Option<string>) {
    InputLine(line) && TypeAllows(line, inputType) && Capture(UidPattern, line).Some?
  }

  /** Lines 116-126: the first of `lines[j..hi]` that is an input line the
      type allows and that carries a uid. */
  function WindowUid(lines: seq<string>, j: nat, hi: nat, inputType: Option<string>): Option<string>
    requires j <= hi <= |lines|
    decreases hi - j
  {
    if j == hi then None
    else if Answers(lines[j], inputType) then
      Capture(UidPattern, lines[j])
    else WindowUid(lines, j + 1, hi, inputType)
  }

  function Min(a: nat, b: nat): nat { if a <= b then a else b }

  /** Lines 109-126: the uid found for the label on line `i`: the label
      line itself if it is an input line with a uid, else the next five
      lines. */
  function UidNearLabel(lines: seq<string>, i: nat, inputType: Option<string>): Option<string>
    requires i < |lines|
  {
    if InputLine(lines[i]) && Capture(UidPattern, lines[i]).Some? then Capture(UidPattern, lines[i])
    else WindowUid(lines, i + 1, Min(i + 6, |lines|), inputType)
  }

  /** Line 105: `label.lower() in line.lower()`. */
  predicate HoldsLabel(line: string, labelText: string) {
    Contains(Lower(line), Lower(labelText))
  }

  /** `parse_snapshot_for_input` from line `i` on. */
  function InputUidFrom(lines: seq<string>, i: nat, labelText: string, inputType: Option<string>): Option<string>
    requires i <= |lines|
    decreases |lines| - i
  {
    if i == |lines| then None
    else if HoldsLabel(lines[i], labelText) && UidNearLabel(lines, i, inputType).Some? then
      UidNearLabel(lines, i, inputType)
    else InputUidFrom(lines, i + 1, labelText, inputType)
  }

  // ---------------------------------------------------------------------
  // The snapshot locators

  /** The first group of the first match of `p` in `line`, computed with
      the scanner. */
  method FindCapture(p: Pattern, line: string) returns (r: Option<string>)
    ensures r == Capture(p, line)
  {
    var m := Scan(p, line);
    if m.Some? {
      r := Some(Group(p, line, m.value, 0));
    } else {
      r := None;
    }
  }

  /** Lines 58-70: the `uid` form, else the `id=` form. */
  method ExtractId(line: string) returns (r: Option<string>)
    ensures r == LineId(line)
  {
    r := FindCapture(UidPattern, line);
    if r.None? {
      r := FindCapture(IdPattern, line);
    }
  }

  /** Lines 43-73: scan the lines in order and return the id of the first
      candidate line that has one; candidate lines without an id are
      skipped. */
  method ParseSnapshotForText(snapshot: string, text: string, elementType: Option<string>, caseSensitive: bool)
    returns (r: Option<string>)
    ensures r == TextUidFrom(Split(snapshot, '\n'), 0, text, elementType, caseSensitive)
  {
    var lines := Split(snapshot, '\n');
    var i := 0;
    while i < |lines|
      invariant 0 <= i <= |lines|
      invariant TextUidFrom(lines, 0, text, elementType, caseSensitive)
             == TextUidFrom(lines, i, text, elementType, caseSensitive)
    {
      var line := lines[i];
      var found := if caseSensitive then Contains(line, text) else Contains(Lower(line), Lower(text));
      if found {
        if elementType.Some? && elementType.value != "" && !Contains(Lower(line), Lower(elementType.value)) {
          i := i + 1;
          continue;
        }
        var id := ExtractId(line);
        if id.Some? {
          return id;
        }
      }
      i := i + 1;
    }
    return None;
  }

  /** Lines 116-126: the following lines `lines[lo..hi]`, in order. */
  method SearchWindow(lines: seq<string>, lo: nat, hi: nat, inputType: Option<string>) returns (r: Option<string>)
    requires lo <= hi <= |lines|
    ensures r == WindowUid(lines, lo, hi, inputType)
  {
    var j := lo;
    while j < hi
      invariant lo <= j <= hi
      invariant WindowUid(lines, lo, hi, inputType) == WindowUid(lines, j, hi, inputType)
    {
      var next := lines[j];
      if Contains(Lower(next), "input") || Contains(Lower(next), "textarea") {
        if inputType.Some? && inputType.value != "" && !Contains(Lower(next), Lower(inputType.value)) {
          j := j + 1;
          continue;
        }
        var uid := FindCapture(UidPattern, next);
        if uid.Some? {
          return uid;
        }
      }
      j := j + 1;
    }
    return None;
  }

  /** Lines 101-129: for each line holding the label, try the line itself,
      then the next five lines, with the `uid` form only. */
  method ParseSnapshotForInput(snapshot: string, labelText: string, inputType: Option<string>)
    returns (r: Option<string>)
    ensures r == InputUidFrom(Split(snapshot, '\n'), 0, labelText, inputType)
  {
    var lines := Split(snapshot, '\n');
    var i := 0;
    while i < |lines|
      invariant 0 <= i <= |lines|
      invariant InputUidFrom(lines, 0, labelText, inputType) == InputUidFrom(lines, i, labelText, inputType)
    {
      var line := lines[i];
      if Contains(Lower(line), Lower(labelText)) {
        var near := None;
        if Contains(Lower(line), "input") || Contains(Lower(line), "textarea") {
          near := FindCapture(UidPattern, line);
        }
        if near.None? {
          near := SearchWindow(lines, i + 1, Min(i + 6, |lines|), inputType);
        }
        assert near == UidNearLabel(lines, i, inputType);
        if near.Some? {
          return near;
        }
      }
      i := i + 1;
    }
    return None;
  }

  // ---------------------------------------------------------------------
  // Properties of the locators

  /** A repeated group whose class admits no space, `,` or `]` captures an
      id token, found in the text where the group starts. */
  lemma {:induction false} TokenGroup(p: Pattern, line: string, m: Match, t: nat)
    requires IsTrace(p.atoms, line, m.bounds, p.ignoreCase)
    requires |p.groups| >= 1 && p.groups[0] == (t, t) && t < |p.atoms| && p.atoms[t].Repeat? && p.atoms[t].min >= 1
    requires forall c :: AtomChar(p.atoms[t].cls, c, p.ignoreCase) ==> !IsSpace(c) && c != ',' && c != ']'
    ensures IdToken(Group(p, line, m, 0)) && OccursAt(line, Group(p, line, m, 0), m.bounds[t])
  {
    var c := Group(p, line, m, 0);
    GroupChars(p, line, m, 0, t);
    TraceMonotone(p.atoms, line, m.bounds, p.ignoreCase, t, t + 1);
    forall q | 0 <= q < |c| ensures !IsSpace(c[q]) && c[q] != ',' && c[q] != ']' {
      assert AtomChar(p.atoms[t].cls, c[q], p.ignoreCase);
    }
  }

  /** The classes of the two captured groups reject spaces, `,` and `]`
      under either case. */
  lemma {:induction false} TokenClasses(c: char)
    ensures AtomChar(UidPattern.atoms[5].cls, c, true) ==> !IsSpace(c) && c != ',' && c != ']'
    ensures AtomChar(IdPattern.atoms[4].cls, c, true) ==> !IsSpace(c) && c != ',' && c != ']'
  {
    if IsUpper(c) {
      assert !IsSpace(c) && c != ',' && c != ']';
    }
  }

  /** A capture is an id token that occurs in the line as written (case
      kept). */
  lemma {:induction false} CaptureToken(p: Pattern, line: string)
    requires p == UidPattern || p == IdPattern
    ensures var r := Capture(p, line);
      r.Some? ==> IdToken(r.value) && exists i :: OccursAt(line, r.value, i)
  {
    var m := Search(p, line);
    if m.Some? {
      SearchSpec(p, line);
      forall c: char { TokenClasses(c); }
      var t := if p == UidPattern then 5 else 4;
      TokenGroup(p, line, m.value, t);
    }
  }

  /** Lines 58-70: the id of a line is an id token taken from that line, and
      the `uid` form wins whenever it matches. */
  lemma {:induction false} LineIdToken(line: string)
    ensures LineId(line).Some? ==> IdToken(LineId(line).value) && exists i :: OccursAt(line, LineId(line).value, i)
    ensures Capture(UidPattern, line).Some? ==> LineId(line) == Capture(UidPattern, line)
  {
    CaptureToken(UidPattern, line);
    CaptureToken(IdPattern, line);
  }

  /** Lines 43-73: the result is absent exactly when no candidate line
      yields an id. */
  lemma {:induction false} TextUidNone(lines: seq<string>, i: nat, text: string, elementType: Option<string>, caseSensitive: bool)
    requires i <= |lines|
    ensures TextUidFrom(lines, i, text, elementType, caseSensitive).None?
        <==> forall k :: i <= k < |lines| && TextCandidate(lines[k], text, elementType, caseSensitive) ==> LineId(lines[k]).None?
    decreases |lines| - i
  {
    if i < |lines| {
      TextUidNone(lines, i + 1, text, elementType, caseSensitive);
    }
  }

  /** Lines 43-73: a result is the id of the first candidate line that
      yields one. */
  lemma {:induction false} TextUidFound(lines: seq<string>, i: nat, text: string, elementType: Option<string>, caseSensitive: bool)
    returns (k: nat)
    requires i <= |lines| && TextUidFrom(lines, i, text, elementType, caseSensitive).Some?
    ensures i <= k < |lines| && TextCandidate(lines[k], text, elementType, caseSensitive)
    ensures LineId(lines[k]) == TextUidFrom(lines, i, text, elementType, caseSensitive)
    ensures forall l :: i <= l < k && TextCandidate(lines[l], text, elementType, caseSensitive) ==> LineId(lines[l]).None?
    decreases |lines| - i
  {
    if TextCandidate(lines[i], text, elementType, caseSensitive) && LineId(lines[i]).Some? {
      k := i;
    } else {
      k := TextUidFound(lines, i + 1, text, elementType, caseSensitive);
      forall l | i <= l < k && TextCandidate(lines[l], text, elementType, caseSensitive)
        ensures LineId(lines[l]).None?
      {
        if l == i {
          assert !(TextCandidate(lines[i], text, elementType, caseSensitive) && LineId(lines[i]).Some?);
        }
      }
    }
  }

  /** Lines 101-129: a found uid comes from an input line at most five lines
      below a line holding the label (or from that line itself), through
      the `uid` form only; the type filter applies to the following lines. */
  lemma {:induction false} InputUidSpec(lines: seq<string>, i: nat, labelText: string, inputType: Option<string>)
    requires i <= |lines|
    ensures var r := InputUidFrom(lines, i, labelText, inputType);
      && ((forall k :: i <= k < |lines| ==> !HoldsLabel(lines[k], labelText)) ==> r.None?)
      && (r.Some? ==> exists k, j :: i <= k <= j < |lines| && j <= k + 5
                        && HoldsLabel(lines[k], labelText) && InputLine(lines[j])
                        && (j > k ==> TypeAllows(lines[j], inputType))
                        && r == Capture(UidPattern, lines[j]))
    decreases |lines| - i
  {
    if i < |lines| {
      InputUidSpec(lines, i + 1, labelText, inputType);
      if HoldsLabel(lines[i], labelText) && UidNearLabel(lines, i, inputType).Some? {
        if !(InputLine(lines[i]) && Capture(UidPattern, lines[i]).Some?) {
          var j := WindowSpec(lines, i + 1, Min(i + 6, |lines|), inputType);
        }
      }
    }
  }

  /** Lines 116-126: the window's uid comes from its first input line that
      the type allows and that carries a uid. */
  lemma {:induction false} WindowSpec(lines: seq<string>, j: nat, hi: nat, inputType: Option<string>) returns (w: nat)
    requires j <= hi <= |lines| && WindowUid(lines, j, hi, inputType).Some?
    ensures j <= w < hi && InputLine(lines[w]) && TypeAllows(lines[w], inputType)
    ensures WindowUid(lines, j, hi, inputType) == Capture(UidPattern, lines[w])
    ensures forall v :: j <= v < w ==> !Answers(lines[v], inputType)
    decreases hi - j
  {
    if Answers(lines[j], inputType) {
      w := j;
    } else {
      w := WindowSpec(lines, j + 1, hi, inputType);
      forall v | j <= v < w ensures !Answers(lines[v], inputType) {
        if v == j {
          assert !Answers(lines[j], inputType);
        }
      }
    }
  }

  /** Lines 116-126: the window yields nothing exactly when none of its
      lines is an input line the type allows with a uid. */
  lemma {:induction false} WindowNone(lines: seq<string>, j: nat, hi: nat, inputType: Option<string>)
    requires j <= hi <= |lines|
    ensures WindowUid(lines, j, hi, inputType).None?
        <==> forall v :: j <= v < hi ==> !Answers(lines[v], inputType)
    decreases hi - j
  {
    if j < hi {
      WindowNone(lines, j + 1, hi, inputType);
      if Answers(lines[j], inputType) {
        assert WindowUid(lines, j, hi, inputType).Some?;
      } else {
        assert WindowUid(lines, j, hi, inputType) == WindowUid(lines, j + 1, hi, inputType);
      }
    }
  }

  /** Line `j` can answer the label on line `k`: an input line with a uid,
      either the label line itself or one of the five below it that the
      type allows. */
  predicate Serves(lines: seq<string>, k: nat, j: nat, inputType: Option<string>)
    requires k <= j < |lines|
  {
    j <= k + 5 && InputLine(lines[j]) && Capture(UidPattern, lines[j]).Some?
    && (j > k ==> TypeAllows(lines[j], inputType))
  }

  /** Lines 109-126: a label line yields nothing exactly when no line
      serves it. */
  lemma {:induction false} NearLabelNone(lines: seq<string>, k: nat, inputType: Option<string>)
    requires k < |lines|
    ensures UidNearLabel(lines, k, inputType).None? <==> forall j :: k <= j < |lines| ==> !Serves(lines, k, j, inputType)
  {
    WindowNone(lines, k + 1, Min(k + 6, |lines|), inputType);
    if UidNearLabel(lines, k, inputType).None? {
      forall j | k <= j < |lines| ensures !Serves(lines, k, j, inputType) {
        if j > k && j < Min(k + 6, |lines|) {
          assert !Answers(lines[j], inputType);
        }
      }
    } else if InputLine(lines[k]) && Capture(UidPattern, lines[k]).Some? {
      assert Serves(lines, k, k, inputType);
    } else {
      var w := WindowSpec(lines, k + 1, Min(k + 6, |lines|), inputType);
      assert Serves(lines, k, w, inputType);
    }
  }

  /** Lines 109-126: a label line's uid comes from the first line that
      serves it, the label line itself checked before the ones below. */
  lemma {:induction false} NearLabelFound(lines: seq<string>, k: nat, inputType: Option<string>) returns (j: nat)
    requires k < |lines| && UidNearLabel(lines, k, inputType).Some?
    ensures k <= j < |lines| && Serves(lines, k, j, inputType)
    ensures UidNearLabel(lines, k, inputType) == Capture(UidPattern, lines[j])
    ensures forall v :: k <= v < j ==> !Serves(lines, k, v, inputType)
  {
    if InputLine(lines[k]) && Capture(UidPattern, lines[k]).Some? {
      j := k;
    } else {
      j := WindowSpec(lines, k + 1, Min(k + 6, |lines|), inputType);
    }
  }

  /** Lines 101-129: the result is absent exactly when no line holding the
      label is served by any line. */
  lemma {:induction false} InputUidNone(lines: seq<string>, i: nat, labelText: string, inputType: Option<string>)
    requires i <= |lines|
    ensures InputUidFrom(lines, i, labelText, inputType).None?
        <==> forall k, j :: i <= k <= j < |lines| && HoldsLabel(lines[k], labelText)
                            ==> !Serves(lines, k, j, inputType)
    decreases |lines| - i
  {
    if i < |lines| {
      InputUidNone(lines, i + 1, labelText, inputType);
      if InputUidFrom(lines, i, labelText, inputType).None? {
        forall k, j | i <= k <= j < |lines| && HoldsLabel(lines[k], labelText) ensures !Serves(lines, k, j, inputType) {
          if k == i {
            NearLabelNone(lines, i, inputType);
          } else {
            assert InputUidFrom(lines, i + 1, labelText, inputType).None?;
          }
        }
      } else if HoldsLabel(lines[i], labelText) && UidNearLabel(lines, i, inputType).Some? {
        var j := NearLabelFound(lines, i, inputType);
        assert Serves(lines, i, j, inputType);
      } else {
        assert InputUidFrom(lines, i + 1, labelText, inputType).Some?;
      }
    }
  }

  /** Lines 101-129: a result comes from the first label line that some
      line serves, and from the first line that serves it. */
  lemma {:induction false} InputUidFound(lines: seq<string>, i: nat, labelText: string, inputType: Option<string>)
    returns (k: nat, j: nat)
    requires i <= |lines| && InputUidFrom(lines, i, labelText, inputType).Some?
    ensures i <= k <= j < |lines| && HoldsLabel(lines[k], labelText) && Serves(lines, k, j, inputType)
    ensures InputUidFrom(lines, i, labelText, inputType) == Capture(UidPattern, lines[j])
    ensures forall v :: k <= v < j ==> !Serves(lines, k, v, inputType)
    ensures forall l, v :: i <= l < k && l <= v < |lines| && HoldsLabel(lines[l], labelText)
                           ==> !Serves(lines, l, v, inputType)
    decreases |lines| - i
  {
    if HoldsLabel(lines[i], labelText) && UidNearLabel(lines, i, inputType).Some? {
      k := i;
      j := NearLabelFound(lines, i, inputType);
    } else {
      k, j := InputUidFound(lines, i + 1, labelText, inputType);
      forall l, v | i <= l < k && l <= v < |lines| && HoldsLabel(lines[l], labelText)
        ensures !Serves(lines, l, v, inputType)
      {
        if l == i {
          assert UidNearLabel(lines, i, inputType).None?;
          NearLabelNone(lines, i, inputType);
        }
      }
    }
  }

  // ---------------------------------------------------------------------
  // The fallback Markdown converter

  /** `.` without DOTALL: any character but a newline. */
  const AnyButNewline := CharClass("\n", false, false, true)

  /** `\*\*(.+?)\*\*`. */
  const BoldPattern := Pattern([Lit('*'), Lit('*'), LazyPlus(AnyButNewline), Lit('*'), Lit('*')], [(2, 2)], false)

  /** `\*(.+?)\*`. */
  const ItalicPattern := Pattern([Lit('*'), LazyPlus(AnyButNewline), Lit('*')], [(1, 1)], false)

  lemma {:induction false} EmphasisConsumes()
    ensures Consumes(BoldPattern) && Consumes(ItalicPattern)
  {
    assert BoldPattern.atoms[0].Repeat? && BoldPattern.atoms[0].min >= 1;
    assert ItalicPattern.atoms[0].Repeat? && ItalicPattern.atoms[0].min >= 1;
  }

  /** Lines 234-235: bold first, then italic. */
  function Emphasize(line: string): string {
    EmphasisConsumes();
    Sub(ItalicPattern, Sub(BoldPattern, line, "<strong>", "</strong>"), "<em>", "</em>")
  }

  /** What one stripped input line is. */
  datatype Block = Blank | Heading2(text: string) | Heading1(text: string) | Item(text: string) | Paragraph(text: string)

  /** Lines 202-230: the tests in the order the converter makes them. */
  function Classify(raw: string): Block {
    var line := Strip(raw);
    if line == [] then Blank
    else if StartsWith(line, "## ") then Heading2(line[3..])
    else if StartsWith(line, "# ") then Heading1(line[2..])
    else if StartsWith(line, "- ") || StartsWith(line, "* ") then Item(line[2..])
    else Paragraph(line)
  }

  /** The one HTML line a block becomes. */
  function Render(b: Block): string {
    match b
    case Blank => "<br>"
    case Heading2(t) => "<h2>" + t + "</h2>"
    case Heading1(t) => "<h1>" + t + "</h1>"
    case Item(t) => "<li>" + t + "</li>"
    case Paragraph(t) => "<p>" + Emphasize(t) + "</p>"
  }

  /** The HTML lines one input line adds: an item opens a list if none is
      open, anything else closes an open one. */
  function LineHtml(raw: string, inList: bool): seq<string> {
    var b := Classify(raw);
    if b.Item? then (if inList then [] else ["<ul>"]) + [Render(b)]
    else (if inList then ["</ul>"] else []) + [Render(b)]
  }

  /** The HTML lines produced for `lines[i..]` when a list is open or not;
      an open list is closed at the end. */
  function HtmlFrom(lines: seq<string>, i: nat, inList: bool): seq<string>
    requires i <= |lines|
    decreases |lines| - i
  {
    if i == |lines| then (if inList then ["</ul>"] else [])
    else LineHtml(lines[i], inList) + HtmlFrom(lines, i + 1, Classify(lines[i]).Item?)
  }

  lemma {:induction false} HtmlFromStep(lines: seq<string>, i: nat, inList: bool)
    requires i < |lines|
    ensures HtmlFrom(lines, i, inList) == LineHtml(lines[i], inList) + HtmlFrom(lines, i + 1, Classify(lines[i]).Item?)
  {
  }

  /** One pass of the loop: the emitted lines plus what the rest of the
      input will emit stay the whole output. */
  lemma {:induction false} HtmlAdvance(lines: seq<string>, i: nat, inList: bool, out: seq<string>, piece: seq<string>, next: bool)
    requires i < |lines| && piece == LineHtml(lines[i], inList) && next == Classify(lines[i]).Item?
    ensures (out + piece) + HtmlFrom(lines, i + 1, next) == out + HtmlFrom(lines, i, inList)
  {
    HtmlFromStep(lines, i, inList);
    assert out + (piece + HtmlFrom(lines, i + 1, next)) == (out + piece) + HtmlFrom(lines, i + 1, next);
  }

  /** Lines 240-241: closing a list left open completes the output. */
  lemma {:induction false} HtmlClose(lines: seq<string>, inList: bool, out: seq<string>)
    ensures out + HtmlFrom(lines, |lines|, inList) == if inList then out + ["</ul>"] else out
  {
    if !inList {
      assert out + [] == out;
    }
  }

  lemma {:induction false} LineHtmlIs(raw: string, inList: bool, b: Block)
    requires Classify(raw) == b
    ensures LineHtml(raw, inList)
         == (if b.Item? then (if inList then [] else ["<ul>"]) else (if inList then ["</ul>"] else [])) + [Render(b)]
  {
  }

  /** Lines 200-230: the tests of the loop body, in order. */
  method ClassifyLine(raw: string) returns (b: Block)
    ensures b == Classify(raw)
  {
    var line := Strip(raw);
    if line == [] {
      b := Blank;
    } else if StartsWith(line, "## ") {
      b := Heading2(line[3..]);
    } else if StartsWith(line, "# ") {
      b := Heading1(line[2..]);
    } else if StartsWith(line, "- ") || StartsWith(line, "* ") {
      b := Item(line[2..]);
    } else {
      b := Paragraph(line);
    }
  }

  /** Lines 200-237: one pass of the loop body: an item opens a list if none
      is open, anything else closes an open one, then the line's HTML. */
  method ConvertLine(raw: string, inList: bool) returns (piece: seq<string>, nowInList: bool)
    ensures piece == LineHtml(raw, inList) && nowInList == Classify(raw).Item?
  {
    var b := ClassifyLine(raw);
    LineHtmlIs(raw, inList, b);
    if b.Item? {
      piece := if inList then [Render(b)] else ["<ul>", Render(b)];
    } else {
      piece := if inList then ["</ul>", Render(b)] else [Render(b)];
    }
    nowInList := b.Item?;
  }

  /** Lines 180-244: `simple_markdown_to_html`. */
  method SimpleMarkdownToHtml(text: string) returns (html: string)
    ensures html == Join(HtmlFrom(Split(text, '\n'), 0, false), "\n")
  {
    var out := ConvertLines(Split(text, '\n'));
    html := Join(out, "\n");
  }

  /** Lines 196-241: the loop over the lines, with the list state. */
  method ConvertLines(lines: seq<string>) returns (out: seq<string>)
    ensures out == HtmlFrom(lines, 0, false)
  {
    out := [];
    var inList := false;
    var i := 0;
    while i < |lines|
      invariant 0 <= i <= |lines|
      invariant out + HtmlFrom(lines, i, inList) == HtmlFrom(lines, 0, false)
    {
      var piece, next := ConvertLine(lines[i], inList);
      HtmlAdvance(lines, i, inList, out, piece, next);
      out := out + piece;
      inList := next;
      i := i + 1;
    }
    HtmlClose(lines, inList, out);
    if inList {
      out := out + ["</ul>"];
    }
  }

  // ---------------------------------------------------------------------
  // Properties of the converter

  /** The list markup of an HTML line sequence is sound: `<ul>` only opens a
      closed list, `</ul>` only closes an open one, inside a list there are
      only `<li>` lines and outside none, and no list is left open. */
  predicate WellNested(out: seq<string>, open: bool)
    decreases |out|
  {
    if out == [] then !open
    else if out[0] == "<ul>" then !open && WellNested(out[1..], true)
    else if out[0] == "</ul>" then open && WellNested(out[1..], false)
    else (StartsWith(out[0], "<li>") <==> open) && WellNested(out[1..], open)
  }

  /** The HTML lines with the list markers taken out. */
  function Blocks(out: seq<string>): seq<string>
    decreases |out|
  {
    if out == [] then []
    else if out[0] == "<ul>" || out[0] == "</ul>" then Blocks(out[1..])
    else [out[0]] + Blocks(out[1..])
  }

  /** The rendering of each input line, in order. */
  function Rendered(lines: seq<string>): (r: seq<string>)
    ensures |r| == |lines|
  {
    if lines == [] then [] else [Render(Classify(lines[0]))] + Rendered(lines[1..])
  }

  /** A rendered line is never a list marker, and starts with `<li>`
      exactly when it renders an item. */
  lemma {:induction false} RenderShape(b: Block)
    ensures Render(b) != "<ul>" && Render(b) != "</ul>"
    ensures StartsWith(Render(b), "<li>") <==> b.Item?
  {
    var r := Render(b);
    match b
    case Blank =>
    case Heading2(t) => assert r[..4] == "<h2>";
    case Heading1(t) => assert r[..4] == "<h1>";
    case Item(t) => assert r[..4] == "<li>";
    case Paragraph(t) => assert r[..3] == "<p>" && r[2] == '>';
  }

  /** Lines 199-242: whatever the input, the list markup is well nested. */
  lemma {:induction false} HtmlWellNested(lines: seq<string>, i: nat, inList: bool)
    requires i <= |lines|
    ensures WellNested(HtmlFrom(lines, i, inList), inList)
    decreases |lines| - i
  {
    if i == |lines| {
      if inList {
        assert (["</ul>"] + [])[0] == "</ul>" && (["</ul>"] + [])[1..] == [];
      }
    } else {
      var b := Classify(lines[i]);
      RenderShape(b);
      var open := b.Item?;
      var rest := HtmlFrom(lines, i + 1, open);
      HtmlWellNested(lines, i + 1, open);
      assert ([Render(b)] + rest)[0] == Render(b) && ([Render(b)] + rest)[1..] == rest;
      assert WellNested([Render(b)] + rest, open);
      if open != inList {
        var marker := if open then "<ul>" else "</ul>";
        assert ([marker] + ([Render(b)] + rest))[0] == marker && ([marker] + ([Render(b)] + rest))[1..] == [Render(b)] + rest;
        assert LineHtml(lines[i], inList) == [marker] + [Render(b)];
        assert HtmlFrom(lines, i, inList) == [marker] + ([Render(b)] + rest);
      } else {
        assert LineHtml(lines[i], inList) == [Render(b)];
      }
    }
  }

  /** Lines 199-242: apart from the list markers there is exactly one HTML
      line per input line, its rendering, in input order. */
  lemma {:induction false} HtmlBlocks(lines: seq<string>, i: nat, inList: bool)
    requires i <= |lines|
    ensures Blocks(HtmlFrom(lines, i, inList)) == Rendered(lines[i..])
    decreases |lines| - i
  {
    if i == |lines| {
      if inList {
        assert (["</ul>"] + [])[0] == "</ul>" && (["</ul>"] + [])[1..] == [];
      }
    } else {
      var b := Classify(lines[i]);
      RenderShape(b);
      var rest := HtmlFrom(lines, i + 1, b.Item?);
      HtmlBlocks(lines, i + 1, b.Item?);
      assert ([Render(b)] + rest)[0] == Render(b) && ([Render(b)] + rest)[1..] == rest;
      assert Blocks([Render(b)] + rest) == [Render(b)] + Rendered(lines[i + 1..]);
      assert lines[i..][1..] == lines[i + 1..];
      if b.Item? != inList {
        var marker := if b.Item? then "<ul>" else "</ul>";
        assert ([marker] + ([Render(b)] + rest))[0] == marker && ([marker] + ([Render(b)] + rest))[1..] == [Render(b)] + rest;
        assert LineHtml(lines[i], inList) == [marker] + [Render(b)];
        assert HtmlFrom(lines, i, inList) == [marker] + ([Render(b)] + rest);
      } else {
        assert LineHtml(lines[i], inList) == [Render(b)];
      }
    }
  }

  /** Lines 234-235: a line without `*` is left as it is. */
  lemma {:induction false} NoStarUnchanged(line: string)
    requires '*' !in line
    ensures Emphasize(line) == line
  {
    EmphasisConsumes();
    MatchNeedsChar(BoldPattern, line, 0);
    SubNoMatch(BoldPattern, line, "<strong>", "</strong>");
    MatchNeedsChar(ItalicPattern, line, 0);
    SubNoMatch(ItalicPattern, line, "<em>", "</em>");
  }

  // ---------------------------------------------------------------------
  // Forum drafts

  /** What `json.loads` made of the draft: not JSON at all, a JSON object
      (its string-valued members), or some other JSON value. */
  datatype Draft = NotJson | JsonObject(fields: map<string, string>) | JsonOther

  datatype ForumPost = ForumPost(subject: string, message: string)

  const DefaultSubject := "Forum Post"

  /** `data[key]` if present and truthy. */
  function Field(fields: map<string, string>, key: string): Option<string> {
    if key in fields && fields[key] != "" then Some(fields[key]) else None
  }

  /** One section of the message, present when its field is. */
  function Section(fields: map<string, string>, key: string, header: string): seq<string> {
    var v := Field(fields, key);
    if v.Some? then [header + v.value] else []
  }

  const UnderstoodHeader := "## What I Understand\n"
  const ConfusedHeader := "\n\n## My Confusion Points\n"
  const SummaryHeader := "\n\n## AI Assistant Summary\n"

  /** Lines 270-282: a JSON object draft. */
  function JsonPost(fields: map<string, string>): ForumPost {
    ForumPost(
      if "title" in fields then fields["title"] else DefaultSubject,
      Join(Section(fields, "understood", UnderstoodHeader) + Section(fields, "confused", ConfusedHeader)
           + Section(fields, "ai_summary", SummaryHeader), "\n"))
  }

  /** The index of the first of `lines[i..]` that starts with `# `. */
  function FirstHeading(lines: seq<string>, i: nat): (r: Option<nat>)
    requires i <= |lines|
    ensures r.Some? ==> i <= r.value < |lines| && StartsWith(lines[r.value], "# ") && |lines[r.value]| >= 2
    ensures r.Some? ==> forall l :: i <= l < r.value ==> !StartsWith(lines[l], "# ")
    ensures r.None? ==> forall l :: i <= l < |lines| ==> !StartsWith(lines[l], "# ")
    decreases |lines| - i
  {
    if i == |lines| then None
    else if StartsWith(lines[i], "# ") then Some(i)
    else FirstHeading(lines, i + 1)
  }

  /** The post for heading line `line` with the message cut at `cut`. */
  function CutPost(draft: string, line: string, cut: int): ForumPost
    requires |line| >= 2 && 0 <= cut <= |draft|
  {
    ForumPost(Strip(line[2..]), Strip(draft[cut..]))
  }

  /** Lines 284-300 as written: the message is cut after the first place
      where the heading line's text occurs in the draft. */
  function HeadingPostAsWritten(draft: string): ForumPost {
    var lines := Split(draft, '\n');
    var k := FirstHeading(lines, 0);
    if k.None? then ForumPost(DefaultSubject, draft)
    else CutAtFind(draft, lines[k.value])
  }

  /** Lines 292-296: the subject from heading line `line`, the message cut
      after the first occurrence of its text, if any. */
  function CutAtFind(draft: string, line: string): ForumPost
    requires |line| >= 2
  {
    var idx := Find(draft, line);
    if idx >= 0 then CutPost(draft, line, idx + |line|) else ForumPost(Strip(line[2..]), draft)
  }

  /** Where line `k` of `lines` starts in the text they were split from. */
  function LineStart(lines: seq<string>, k: nat): nat
    requires k <= |lines|
  {
    if k == 0 then 0 else |lines[0]| + 1 + LineStart(lines[1..], k - 1)
  }

  /** What follows line `k` in the joined text. */
  function AfterLine(lines: seq<string>, k: nat): string
    requires k < |lines|
  {
    if k + 1 < |lines| then "\n" + Join(lines[k + 1..], "\n") else ""
  }

  /** Lines 284-300 as evidently intended: the message is the lines after
      the heading line, joined and stripped. */
  function HeadingPost(draft: string): ForumPost {
    var lines := Split(draft, '\n');
    var k := FirstHeading(lines, 0);
    if k.None? then ForumPost(DefaultSubject, draft)
    else ForumPost(Strip(lines[k.value][2..]), Strip(Join(lines[k.value + 1..], "\n")))
  }

  /** Lines 266-304 as written; any other JSON value makes `data.get` raise,
      and the handler falls back to the whole draft. */
  function DraftPostAsWritten(draft: string, parsed: Draft): ForumPost {
    match parsed
    case JsonObject(fields) => JsonPost(fields)
    case JsonOther => ForumPost(DefaultSubject, draft)
    case NotJson => HeadingPostAsWritten(draft)
  }

  /** `extract_forum_post_from_draft` with the message cut after the heading
      line. */
  function DraftPost(draft: string, parsed: Draft): ForumPost {
    match parsed
    case JsonObject(fields) => JsonPost(fields)
    case JsonOther => ForumPost(DefaultSubject, draft)
    case NotJson => HeadingPost(draft)
  }

  /** Lines 270-282: the message parts are appended one by one. */
  method JsonMessage(fields: map<string, string>) returns (post: ForumPost)
    ensures post == JsonPost(fields)
  {
    var subject := if "title" in fields then fields["title"] else DefaultSubject;
    var parts: seq<string> := [];
    if "understood" in fields && fields["understood"] != "" {
      parts := parts + [UnderstoodHeader + fields["understood"]];
    }
    assert parts == Section(fields, "understood", UnderstoodHeader);
    if "confused" in fields && fields["confused"] != "" {
      parts := parts + [ConfusedHeader + fields["confused"]];
    }
    assert parts == Section(fields, "understood", UnderstoodHeader) + Section(fields, "confused", ConfusedHeader);
    if "ai_summary" in fields && fields["ai_summary"] != "" {
      parts := parts + [SummaryHeader + fields["ai_summary"]];
    }
    assert parts == Section(fields, "understood", UnderstoodHeader) + Section(fields, "confused", ConfusedHeader)
                    + Section(fields, "ai_summary", SummaryHeader);
    post := ForumPost(subject, Join(parts, "\n"));
  }

  /** Lines 292-296: the subject from heading line `line`, the message cut
      after the first occurrence of its text. */
  method CutAtHeading(draft: string, line: string) returns (post: ForumPost)
    requires |line| >= 2
    ensures post == CutAtFind(draft, line)
  {
    var subject := Strip(line[2..]);
    var message := draft;
    var idx := Find(draft, line);
    if idx >= 0 {
      message := Strip(draft[idx + |line|..]);
    }
    post := ForumPost(subject, message);
  }

  /** Lines 284-300 as written: the first `# ` line gives the subject, and
      the message is cut after the first occurrence of its text. */
  method HeadingMessage(draft: string) returns (post: ForumPost)
    ensures post == HeadingPostAsWritten(draft)
  {
    var lines := Split(draft, '\n');
    var i := 0;
    while i < |lines| && !StartsWith(lines[i], "# ")
      invariant 0 <= i <= |lines|
      invariant FirstHeading(lines, 0) == FirstHeading(lines, i)
    {
      i := i + 1;
    }
    if i == |lines| {
      return ForumPost(DefaultSubject, draft);
    }
    assert FirstHeading(lines, i) == Some(i);
    post := CutAtHeading(draft, lines[i]);
    AsWrittenAt(draft, i);
  }

  lemma {:induction false} AsWrittenAt(draft: string, i: nat)
    requires i < |Split(draft, '\n')| && FirstHeading(Split(draft, '\n'), 0) == Some(i)
    ensures HeadingPostAsWritten(draft) == CutAtFind(draft, Split(draft, '\n')[i])
  {
  }

  lemma {:induction false} IntendedAt(draft: string, i: nat)
    requires i < |Split(draft, '\n')| && FirstHeading(Split(draft, '\n'), 0) == Some(i)
    ensures var lines := Split(draft, '\n');
      HeadingPost(draft) == ForumPost(Strip(lines[i][2..]), Strip(Join(lines[i + 1..], "\n")))
  {
  }

  /** Lines 247-304 as written. */
  method ExtractForumPostFromDraft(draft: string, parsed: Draft) returns (post: ForumPost)
    ensures post == DraftPostAsWritten(draft, parsed)
  {
    match parsed {
      case JsonObject(fields) =>
        post := JsonMessage(fields);
      case JsonOther =>
        post := ForumPost(DefaultSubject, draft);
      case NotJson =>
        post := HeadingMessage(draft);
    }
  }

  // ---------------------------------------------------------------------
  // Properties of the draft extractor

  lemma {:induction false} JoinHead(parts: seq<string>)
    requires |parts| >= 2
    ensures Join(parts, "\n") == parts[0] + "\n" + Join(parts[1..], "\n")
  {
  }

  lemma {:induction false} SkipPrefix(p: string, rest: string, x: nat)
    requires x <= |rest|
    ensures (p + rest)[|p| + x..] == rest[x..]
  {
  }

  /** The text from the start of line `k` on is the lines from `k` on. */
  lemma {:induction false} JoinSuffix(parts: seq<string>, k: nat)
    requires k < |parts|
    ensures LineStart(parts, k) <= |Join(parts, "\n")|
    ensures Join(parts, "\n")[LineStart(parts, k)..] == Join(parts[k..], "\n")
  {
    if k > 0 {
      var p := parts[0] + "\n";
      var x := LineStart(parts[1..], k - 1);
      JoinHead(parts);
      JoinSuffix(parts[1..], k - 1);
      SkipPrefix(p, Join(parts[1..], "\n"), x);
      assert parts[1..][k - 1..] == parts[k..];
    }
  }

  /** The lines from `k` on: line `k`, then what follows it. */
  lemma {:induction false} JoinFrom(parts: seq<string>, k: nat)
    requires k < |parts|
    ensures Join(parts[k..], "\n") == parts[k] + AfterLine(parts, k)
  {
    if k + 1 < |parts| {
      JoinHead(parts[k..]);
      assert parts[k..][1..] == parts[k + 1..];
    }
  }

  lemma {:induction false} SplitSuffix(s: string, at: nat, x: string, y: string)
    requires at <= |s| && s[at..] == x + y
    ensures at + |x| <= |s| && s[at..at + |x|] == x && s[at + |x|..] == y
  {
    assert s[at..][..|x|] == x && s[at..][|x|..] == y;
  }

  /** Line `k` sits at its start, and what follows it is the later lines. */
  lemma {:induction false} CutLine(parts: seq<string>, k: nat)
    requires k < |parts|
    ensures var s := Join(parts, "\n");
      var at := LineStart(parts, k);
      && at + |parts[k]| <= |s|
      && OccursAt(s, parts[k], at)
      && s[at + |parts[k]|..] == AfterLine(parts, k)
  {
    JoinSuffix(parts, k);
    JoinFrom(parts, k);
    SplitSuffix(Join(parts, "\n"), LineStart(parts, k), parts[k], AfterLine(parts, k));
  }

  lemma {:induction false} StripNewline(s: string)
    ensures Strip("\n" + s) == Strip(s)
  {
    assert ("\n" + s)[1..] == s;
  }

  /** Line `j` of the text `lines` were joined from sits at its own start,
      and the stripped text after it is the stripped later lines. */
  lemma {:induction false} LineCut(draft: string, lines: seq<string>, j: nat) returns (at: nat)
    requires j < |lines| && Join(lines, "\n") == draft
    ensures at == LineStart(lines, j)
    ensures && at + |lines[j]| <= |draft|
      && OccursAt(draft, lines[j], at)
      && Strip(draft[at + |lines[j]|..]) == Strip(Join(lines[j + 1..], "\n"))
  {
    at := LineStart(lines, j);
    CutLine(lines, j);
    AfterLineStripped(lines, j);
  }

  /** Lines 284-300, as intended: the heading line `k` sits at its own
      start in the draft, and the message is the stripped text after it. */
  lemma {:induction false} HeadingLineCut(draft: string, k: nat)
    requires k < |Split(draft, '\n')| && FirstHeading(Split(draft, '\n'), 0) == Some(k)
    ensures var lines := Split(draft, '\n');
      var at := LineStart(lines, k);
      && at + |lines[k]| <= |draft|
      && OccursAt(draft, lines[k], at)
      && HeadingPost(draft).message == Strip(draft[at + |lines[k]|..])
  {
    var lines := Split(draft, '\n');
    SplitJoin(draft, '\n');
    var at := LineCut(draft, lines, k);
    IntendedAt(draft, k);
  }

  lemma {:induction false} AfterLineStripped(lines: seq<string>, j: nat)
    requires j < |lines|
    ensures Strip(AfterLine(lines, j)) == Strip(Join(lines[j + 1..], "\n"))
  {
    if j + 1 < |lines| {
      StripNewline(Join(lines[j + 1..], "\n"));
    } else {
      assert lines[j + 1..] == [];
    }
  }

  /** Lines 290-297: the heading line's text is always found, no later than
      the line itself, so the `idx >= 0` test never fails. */
  lemma {:induction false} HeadingFound(draft: string, k: nat)
    requires k < |Split(draft, '\n')| && FirstHeading(Split(draft, '\n'), 0) == Some(k)
    ensures 0 <= Find(draft, Split(draft, '\n')[k]) <= LineStart(Split(draft, '\n'), k)
  {
    var lines := Split(draft, '\n');
    SplitJoin(draft, '\n');
    var at := LineCut(draft, lines, k);
  }

  /** Lines 284-300: without a `# ` line the draft is kept whole under the
      default subject (both readings). */
  lemma {:induction false} NoHeadingFallback(draft: string)
    requires forall l :: 0 <= l < |Split(draft, '\n')| ==> !StartsWith(Split(draft, '\n')[l], "# ")
    ensures HeadingPostAsWritten(draft) == ForumPost(DefaultSubject, draft)
    ensures HeadingPost(draft) == ForumPost(DefaultSubject, draft)
  {
  }

  /** The two readings agree whenever the heading's text does not occur
      earlier in the draft. */
  lemma {:induction false} AsWrittenAgrees(draft: string, k: nat)
    requires k < |Split(draft, '\n')| && FirstHeading(Split(draft, '\n'), 0) == Some(k)
    requires Find(draft, Split(draft, '\n')[k]) == LineStart(Split(draft, '\n'), k)
    ensures HeadingPostAsWritten(draft) == HeadingPost(draft)
  {
    var lines := Split(draft, '\n');
    SplitJoin(draft, '\n');
    CutAtOwnLine(draft, lines, k);
    AsWrittenAt(draft, k);
    IntendedAt(draft, k);
  }

  /** Cutting after line `k` where it starts gives the later lines. */
  lemma {:induction false} CutAtOwnLine(draft: string, lines: seq<string>, k: nat)
    requires k < |lines| && Join(lines, "\n") == draft && |lines[k]| >= 2
    requires Find(draft, lines[k]) == LineStart(lines, k)
    ensures CutAtFind(draft, lines[k]) == ForumPost(Strip(lines[k][2..]), Strip(Join(lines[k + 1..], "\n")))
  {
    var at := LineCut(draft, lines, k);
    CutAtFound(draft, lines[k], at, Join(lines[k + 1..], "\n"));
  }

  /** Cutting after an occurrence found at `at`, when the text after it
      strips to the same as `rest`. */
  lemma {:induction false} CutAtFound(draft: string, line: string, at: int, rest: string)
    requires |line| >= 2 && Find(draft, line) == at && at >= 0
    requires Strip(draft[at + |line|..]) == Strip(rest)
    ensures CutAtFind(draft, line) == ForumPost(Strip(line[2..]), Strip(rest))
  {
  }

  /** A draft that opens with its heading line: both readings give the
      stripped title and the stripped body. */
  lemma {:induction false} HeadingFirst(title: string, body: string)
    requires '\n' !in title
    ensures var draft := "# " + title + "\n" + body;
      && HeadingPost(draft) == ForumPost(Strip(title), Strip(body))
      && HeadingPostAsWritten(draft) == HeadingPost(draft)
  {
    var draft := "# " + title + "\n" + body;
    var head := "# " + title;
    assert draft == head + ['\n'] + body;
    assert '\n' !in head;
    SplitAround(head, body, '\n');
    var lines := Split(draft, '\n');
    assert lines[0] == head && StartsWith(head, "# ");
    assert head[2..] == title;
    assert FirstHeading(lines, 0) == Some(0);
    assert lines[1..] == Split(body, '\n');
    SplitJoin(body, '\n');
    assert OccursAt(draft, head, 0);
    assert Find(draft, head) == 0;
    AsWrittenAgrees(draft, 0);
  }

  /** Lines 270-282: the message of a JSON draft is empty exactly when none
      of the three sections is present. */
  lemma {:induction false} JsonMessageEmpty(fields: map<string, string>)
    ensures JsonPost(fields).message == ""
        <==> Field(fields, "understood").None? && Field(fields, "confused").None? && Field(fields, "ai_summary").None?
  {
    var parts := Section(fields, "understood", UnderstoodHeader) + Section(fields, "confused", ConfusedHeader)
                 + Section(fields, "ai_summary", SummaryHeader);
    if parts != [] {
      assert parts[0] != [] by {
        assert |UnderstoodHeader| > 0 && |ConfusedHeader| > 0 && |SummaryHeader| > 0;
      }
      if |parts| >= 2 {
        JoinHead(parts);
      }
    }
  }

  /** Line 271: the subject is the title member when there is one, even an
      empty one, and the default otherwise. */
  lemma {:induction false} JsonSubject(fields: map<string, string>)
    ensures "title" in fields ==> JsonPost(fields).subject == fields["title"]
    ensures "title" !in fields ==> JsonPost(fields).subject == DefaultSubject
  {
  }

  /** Lines 290-297 as written: in `"a# b\n# b"` the heading line `# b` is
      line 1, but its text is first found inside line 0, so the message
      keeps the heading itself where the intended message is empty. */
  lemma {:induction false} EarlierHeadingText()
    ensures HeadingPostAsWritten("a# b\n# b") == ForumPost("b", "# b")
    ensures HeadingPost("a# b\n# b") == ForumPost("b", "")
  {
    var draft := "a# b\n# b";
    EarlierHeadingLines();
    EarlierHeadingFind();
    EarlierHeadingStrips();
    AsWrittenAt(draft, 1);
    CutAtFound(draft, "# b", 1, "# b");
    IntendedAt(draft, 1);
  }

  lemma {:induction false} EarlierHeadingLines()
    ensures Split("a# b\n# b", '\n') == ["a# b", "# b"]
    ensures FirstHeading(Split("a# b\n# b", '\n'), 0) == Some(1)
  {
    assert "a# b\n# b" == "a# b" + ['\n'] + "# b";
    SplitAround("a# b", "# b", '\n');
    SplitNoSep("# b", '\n');
    var lines := Split("a# b\n# b", '\n');
    assert !StartsWith(lines[0], "# ") && StartsWith(lines[1], "# ");
  }

  lemma {:induction false} EarlierHeadingFind()
    ensures Find("a# b\n# b", "# b") == 1
  {
    var draft := "a# b\n# b";
    assert !OccursAt(draft, "# b", 0) by { assert draft[0] == 'a'; }
    assert OccursAt(draft, "# b", 1);
  }

  lemma {:induction false} EarlierHeadingStrips()
    ensures Strip("a# b\n# b"[1 + |"# b"|..]) == Strip("# b") == "# b"
    ensures Strip("# b"[2..]) == "b"
    ensures Strip(Join(["a# b", "# b"][2..], "\n")) == ""
  {
    assert "a# b\n# b"[4..] == "\n" + "# b";
    StripNewline("# b");
    assert "# b"[2..] == "b";
    assert ["a# b", "# b"][2..] == [];
  }

  // ---------------------------------------------------------------------
  // Forum URL check

  /** Lines 307-338: the URL is non-empty, mentions `moodle` in any case,
      uses HTTPS and points at a forum page; the checks run in this order
      and the first that fails rejects the URL. */
  function ValidateMoodleUrl(url: string): (ok: bool)
    ensures ok ==> StartsWith(url, "https://") && Contains(url, "/forum/")
  {
    ForumPathSubsumed(url);
    if url == [] then false
    else if !Contains(Lower(url), "moodle") then false
    else if !StartsWith(url, "https://") then false
    else if !Contains(url, "/mod/forum/") && !Contains(url, "/forum/") then false
    else true
  }

  /** Every `/mod/forum/` URL is also a `/forum/` URL. */
  lemma {:induction false} ForumPathSubsumed(url: string)
    ensures Contains(url, "/mod/forum/") ==> Contains(url, "/forum/")
  {
    if Contains(url, "/mod/forum/") {
      var i := Find(url, "/mod/forum/");
      assert url[i + 4..i + 11] == url[i..i + 11][4..];
      assert OccursAt(url, "/forum/", i + 4);
      ContainsIff(url, "/forum/");
    }
  }

  /** Lines 318-335: the emptiness test and the `/mod/forum/` test never
      decide anything; a URL is accepted exactly when it starts with
      `https://`, mentions `moodle` in some case and holds `/forum/`. */
  lemma {:induction false} ValidUrlIff(url: string)
    ensures ValidateMoodleUrl(url)
        <==> StartsWith(url, "https://") && Contains(Lower(url), "moodle") && Contains(url, "/forum/")
  {
    ForumPathSubsumed(url);
  }

  /** Lines 326-328: a plain `http://` URL is rejected whatever it holds. */
  lemma {:induction false} HttpRejected(url: string)
    requires StartsWith(url, "http://")
    ensures !ValidateMoodleUrl(url)
  {
    assert url[4] == ':' by { assert url[..7][4] == ':'; }
    assert |url| >= 8 ==> url[..8][4] == ':';
  }

  /** Line 317: a URL of the docstring's shape, an HTTPS address whose host
      mentions `moodle` in some case followed by a `/mod/forum/` path, is
      accepted. */
  lemma {:induction false} ForumUrlShape(host: string, path: string)
    requires Contains(Lower(host), "moodle")
    ensures ValidateMoodleUrl("https://" + host + "/mod/forum/" + path)
  {
    var url := "https://" + host + "/mod/forum/" + path;
    HostMention("https://", host, "/mod/forum/" + path);
    assert url == "https://" + host + ("/mod/forum/" + path);
    assert url == ("https://" + host + "/mod") + "/forum/" + path;
    OccursBetween("https://" + host + "/mod", "/forum/", path);
    ContainsIff(url, "/forum/");
    assert url[..8] == "https://";
    ValidUrlIff(url);
  }

  /** A host that mentions `moodle` in some case makes the URL mention it. */
  lemma {:induction false} HostMention(scheme: string, host: string, rest: string)
    requires Contains(Lower(host), "moodle")
    ensures Contains(Lower(scheme + host + rest), "moodle")
  {
    var url := scheme + host + rest;
    var j := Find(Lower(host), "moodle");
    var at := |scheme| + j;
    forall q | 0 <= q < 6 ensures Lower(url)[at + q] == "moodle"[q] {
      assert url[at + q] == host[j + q];
      assert Lower(host)[j + q] == Lower(host)[j..j + 6][q];
    }
    assert Lower(url)[at..at + 6] == "moodle";
    assert OccursAt(Lower(url), "moodle", at);
    ContainsIff(Lower(url), "moodle");
  }

  lemma {:induction false} OccursBetween(a: string, b: string, c: string)
    ensures OccursAt(a + b + c, b, |a|)
  {
    assert (a + b + c)[|a|..|a| + |b|] == b;
  }

  /** Lower-casing keeps an occurrence of a text with no upper-case letter. */
  lemma {:induction false} OccursLower(s: string, sub: string, i: nat)
    requires OccursAt(s, sub, i) && forall q :: 0 <= q < |sub| ==> !IsUpper(sub[q])
    ensures OccursAt(Lower(s), sub, i)
  {
    forall q | 0 <= q < |sub| ensures Lower(s)[i + q] == sub[q] {
      assert s[i + q] == s[i..i + |sub|][q];
    }
  }

  // ---------------------------------------------------------------------
  // JavaScript string escaping

  /** `s.replace(c, rep)`: every occurrence of `c`, left to right. */
  function ReplaceChar(s: string, c: char, rep: string): (r: string)
    ensures c !in s ==> r == s
    ensures forall d :: d in r ==> (d in s && d != c) || d in rep
  {
    if s == [] then []
    else (if s[0] == c then rep else [s[0]]) + ReplaceChar(s[1..], c, rep)
  }

  /** Lines 341-367: the seven replacements, backslash first. */
  function EscapeJavascriptString(text: string): string {
    var t1 := ReplaceChar(text, '\\', "\\\\");
    var t2 := ReplaceChar(t1, '"', "\\\"");
    var t3 := ReplaceChar(t2, '\'', "\\'");
    var t4 := ReplaceChar(t3, '\n', "\\n");
    var t5 := ReplaceChar(t4, '\r', "\\r");
    var t6 := ReplaceChar(t5, '`', "\\`");
    ReplaceChar(t6, '$', "\\$")
  }

  /** The escape of one character. */
  function EscapeChar(c: char): string {
    if c == '\n' then "\\n"
    else if c == '\r' then "\\r"
    else if c == '\\' || c == '"' || c == '\'' || c == '`' || c == '$' then ['\\', c]
    else [c]
  }

  /** The escaping as a map over the characters. */
  function EscapeSpec(s: string): string {
    if s == [] then [] else EscapeChar(s[0]) + EscapeSpec(s[1..])
  }

  /** How a JavaScript string literal reads an escaped text back. */
  function Unescape(t: string): string
    decreases |t|
  {
    if t == [] then []
    else if t[0] == '\\' && |t| >= 2 then
      [if t[1] == 'n' then '\n' else if t[1] == 'r' then '\r' else t[1]] + Unescape(t[2..])
    else [t[0]] + Unescape(t[1..])
  }

  /** The seven replacements of lines 355-365, in order. */
  const Replacements: seq<(char, string)> :=
    [('\\', "\\\\"), ('"', "\\\""), ('\'', "\\'"), ('\n', "\\n"), ('\r', "\\r"), ('`', "\\`"), ('$', "\\$")]

  /** The replacements `rs` applied one after the other. */
  function ReplaceAll(s: string, rs: seq<(char, string)>): string
    decreases |rs|
  {
    if rs == [] then s else ReplaceAll(ReplaceChar(s, rs[0].0, rs[0].1), rs[1..])
  }

  /** No replacement writes a character that a later one replaces. */
  predicate Independent(rs: seq<(char, string)>) {
    forall i, j :: 0 <= i < j < |rs| ==> rs[j].0 !in rs[i].1
  }

  /** What the first replacement for `c` writes, or `c` itself. */
  function Lookup(c: char, rs: seq<(char, string)>): string
    decreases |rs|
  {
    if rs == [] then [c] else if rs[0].0 == c then rs[0].1 else Lookup(c, rs[1..])
  }

  lemma {:induction false} EscapeIsReplaceAll(s: string)
    ensures EscapeJavascriptString(s) == ReplaceAll(s, Replacements)
  {
    var rs := Replacements;
    assert rs[1..][1..][1..][1..][1..][1..][1..] == [];
  }

  lemma {:induction false} ReplacementsIndependent()
    ensures Independent(Replacements)
  {
  }

  lemma {:induction false} EscapeTable(c: char)
    ensures Lookup(c, Replacements) == EscapeChar(c)
  {
    var rs := Replacements;
    assert rs[1..][1..][1..][1..][1..][1..][1..] == [];
  }

  lemma {:induction false} ReplaceAppend(a: string, b: string, c: char, rep: string)
    ensures ReplaceChar(a + b, c, rep) == ReplaceChar(a, c, rep) + ReplaceChar(b, c, rep)
    decreases |a|
  {
    if a != [] {
      assert (a + b)[1..] == a[1..] + b;
      ReplaceAppend(a[1..], b, c, rep);
    } else {
      assert a + b == b;
    }
  }

  lemma {:induction false} ReplaceAllAppend(a: string, b: string, rs: seq<(char, string)>)
    ensures ReplaceAll(a + b, rs) == ReplaceAll(a, rs) + ReplaceAll(b, rs)
    decreases |rs|
  {
    if rs != [] {
      ReplaceAppend(a, b, rs[0].0, rs[0].1);
      ReplaceAllAppend(ReplaceChar(a, rs[0].0, rs[0].1), ReplaceChar(b, rs[0].0, rs[0].1), rs[1..]);
    }
  }

  lemma {:induction false} ReplaceSingle(c: char, d: char, rep: string)
    ensures ReplaceChar([c], d, rep) == if c == d then rep else [c]
  {
    assert [c][1..] == [];
    assert rep + [] == rep;
  }

  lemma {:induction false} ReplaceAllAbsent(s: string, rs: seq<(char, string)>)
    requires forall j :: 0 <= j < |rs| ==> rs[j].0 !in s
    ensures ReplaceAll(s, rs) == s
    decreases |rs|
  {
    if rs != [] {
      ReplaceAllAbsent(s, rs[1..]);
    }
  }

  /** On one character, independent replacements give what the first one
      for it writes. */
  lemma {:induction false} ReplaceAllOne(c: char, rs: seq<(char, string)>)
    requires Independent(rs)
    ensures ReplaceAll([c], rs) == Lookup(c, rs)
    decreases |rs|
  {
    if rs != [] {
      ReplaceSingle(c, rs[0].0, rs[0].1);
      if rs[0].0 == c {
        forall j | 0 <= j < |rs| - 1 ensures rs[1..][j].0 !in rs[0].1 {
          assert rs[j + 1].0 !in rs[0].1;
        }
        ReplaceAllAbsent(rs[0].1, rs[1..]);
      } else {
        assert Independent(rs[1..]) by {
          forall i, j | 0 <= i < j < |rs| - 1 ensures rs[1..][j].0 !in rs[1..][i].1 {
            assert rs[j + 1].0 !in rs[i + 1].1;
          }
        }
        ReplaceAllOne(c, rs[1..]);
      }
    }
  }

  /** Independent replacements act on each character on its own. */
  function LookupEach(s: string, rs: seq<(char, string)>): string {
    if s == [] then [] else Lookup(s[0], rs) + LookupEach(s[1..], rs)
  }

  lemma {:induction false} ReplaceAllEach(s: string, rs: seq<(char, string)>)
    requires Independent(rs)
    ensures ReplaceAll(s, rs) == LookupEach(s, rs)
    decreases |s|
  {
    if s != [] {
      assert s == [s[0]] + s[1..];
      ReplaceAllAppend([s[0]], s[1..], rs);
      ReplaceAllOne(s[0], rs);
      ReplaceAllEach(s[1..], rs);
    } else {
      ReplaceAllAbsent(s, rs);
    }
  }

  lemma {:induction false} SpecIsLookupEach(s: string)
    ensures EscapeSpec(s) == LookupEach(s, Replacements)
    decreases |s|
  {
    if s != [] {
      EscapeTable(s[0]);
      SpecIsLookupEach(s[1..]);
    }
  }

  /** Lines 355-365: the sequential replacements escape each character on
      its own. */
  lemma {:induction false} EscapeIsPerChar(s: string)
    ensures EscapeJavascriptString(s) == EscapeSpec(s)
  {
    EscapeIsReplaceAll(s);
    ReplacementsIndependent();
    ReplaceAllEach(s, Replacements);
    SpecIsLookupEach(s);
  }

  /** The escaped text holds no raw line break and is never shorter than
      the input. */
  lemma {:induction false} EscapeShape(s: string)
    ensures '\n' !in EscapeJavascriptString(s) && '\r' !in EscapeJavascriptString(s)
    ensures |EscapeJavascriptString(s)| >= |s|
  {
    EscapeIsPerChar(s);
    SpecShape(s);
  }

  lemma {:induction false} SpecShape(s: string)
    ensures '\n' !in EscapeSpec(s) && '\r' !in EscapeSpec(s)
    ensures |EscapeSpec(s)| >= |s|
    decreases |s|
  {
    if s != [] {
      SpecShape(s[1..]);
      assert EscapeSpec(s) == EscapeChar(s[0]) + EscapeSpec(s[1..]);
    }
  }

  lemma {:induction false} UnescapeChar(c: char, t: string)
    ensures Unescape(EscapeChar(c) + t) == [c] + Unescape(t)
  {
    var e := EscapeChar(c);
    if |e| == 2 {
      assert (e + t)[2..] == t;
    } else {
      assert (e + t)[1..] == t;
    }
  }

  /** Reading the escaped text as a JavaScript string literal gives the
      original text back. */
  lemma {:induction false} EscapeRoundTrip(s: string)
    ensures Unescape(EscapeJavascriptString(s)) == s
  {
    EscapeIsPerChar(s);
    SpecRoundTrip(s);
  }

  lemma {:induction false} SpecRoundTrip(s: string)
    ensures Unescape(EscapeSpec(s)) == s
    decreases |s|
  {
    if s != [] {
      UnescapeChar(s[0], EscapeSpec(s[1..]));
      SpecRoundTrip(s[1..]);
      assert s == [s[0]] + s[1..];
    }
  }
}
