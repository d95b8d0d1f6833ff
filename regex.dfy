/**
 * The fragment of Python's `re` module used by the course assistant:
 * patterns that are a sequence of quantified character classes, `^` (with
 * and without re.MULTILINE) and the group `(\n|$)`, with capture groups over
 * runs of consecutive atoms.
 *
 * `MatchFrom` is the specification of Python's backtracking matcher at one
 * start position: a greedy quantifier tries the longest run first and gives
 * characters back one at a time, a lazy one tries the shortest run first, and
 * the alternation `(\n|$)` tries its left branch first.  `Search` is
 * `re.search`: the leftmost start at which `MatchFrom` succeeds.  `Sub` is
 * `re.sub` with a replacement of the shape `before\1after`.
 *
 * `IsTrace` is the declarative reading of a pattern (which ways of cutting the
 * input fit it); `MatchSound` and `MatchComplete` tie the backtracking
 * specification to it, and `Scan` is an executable leftmost scanner proved
 * equal to `Search`.
 */
module Regex {
  import opened Text

  datatype Bound = Finite(n: nat) | Unbounded

  /** A character class: the listed characters, plus all digits and/or all
      whitespace if asked, the whole possibly negated.  Letters are listed in
      lower case, so that under re.IGNORECASE the folded character is tested. */
  datatype CharClass = CharClass(chars: string, digits: bool, spaces: bool, negated: bool)

  datatype Atom =
    | Repeat(cls: CharClass, min: nat, max: Bound, greedy: bool)
    | LineStart     // `^` under re.MULTILINE
    | StringStart   // `^` without re.MULTILINE
    | NewlineOrEnd  // the group `(\n|$)` under re.MULTILINE

  /** Capture group g covers the atoms groups[g].0 .. groups[g].1 (inclusive). */
  datatype Pattern = Pattern(atoms: seq<Atom>, groups: seq<(nat, nat)>, ignoreCase: bool)

  /** A match: where it starts and, for every atom, where that atom's span
      starts; the last entry is where the match ends. */
  datatype Match = Match(start: nat, bounds: seq<nat>)

  /** A literal character. */
  function Lit(c: char): Atom { Repeat(CharClass([c], false, false, false), 1, Finite(1), true) }
  /** `c?` */
  function Opt(c: char): Atom { Repeat(CharClass([c], false, false, false), 0, Finite(1), true) }
  /** `k*` */
  function Star(k: CharClass): Atom { Repeat(k, 0, Unbounded, true) }
  /** `k+` */
  function Plus(k: CharClass): Atom { Repeat(k, 1, Unbounded, true) }
  /** `k+?` */
  function LazyPlus(k: CharClass): Atom { Repeat(k, 1, Unbounded, false) }
  /** `k{n}` */
  function Exactly(k: CharClass, n: nat): Atom { Repeat(k, n, Finite(n), true) }

  // ---------------------------------------------------------------------
  // Characters and runs

  predicate InClass(k: CharClass, c: char) {
    (c in k.chars || (k.digits && IsDigit(c)) || (k.spaces && IsSpace(c))) != k.negated
  }

  predicate AtomChar(k: CharClass, c: char, icase: bool) {
    InClass(k, if icase then LowerChar(c) else c)
  }

  predicate WithinBound(n: nat, b: Bound) {
    b.Unbounded? || n <= b.n
  }

  function Less(b: Bound): Bound
    requires b.Unbounded? || b.n > 0
  {
    if b.Finite? then Finite(b.n - 1) else Unbounded
  }

  /** How many characters from `pos` on are in the class, at most `cap`. */
  function Run(k: CharClass, s: string, pos: nat, icase: bool, cap: Bound): (n: nat)
    requires pos <= |s|
    ensures pos + n <= |s| && WithinBound(n, cap)
    ensures forall p :: pos <= p < pos + n ==> AtomChar(k, s[p], icase)
    ensures pos + n < |s| && (cap.Unbounded? || n < cap.n) ==> !AtomChar(k, s[pos + n], icase)
    decreases |s| - pos
  {
    if pos == |s| || (cap.Finite? && cap.n == 0) || !AtomChar(k, s[pos], icase) then 0
    else 1 + Run(k, s, pos + 1, icase, Less(cap))
  }

  /** No run in the class that respects the cap is longer than `Run`. */
  lemma {:induction false} RunMaximal(k: CharClass, s: string, pos: nat, icase: bool, cap: Bound, c: nat)
    requires pos + c <= |s| && WithinBound(c, cap)
    requires forall p :: pos <= p < pos + c ==> AtomChar(k, s[p], icase)
    ensures c <= Run(k, s, pos, icase, cap)
    decreases c
  {
    if c > 0 {
      RunMaximal(k, s, pos + 1, icase, Less(cap), c - 1);
    }
  }

  // ---------------------------------------------------------------------
  // The backtracking matcher

  function Prepend(p: nat, r: Option<seq<nat>>): Option<seq<nat>> {
    if r.Some? then Some([p] + r.value) else None
  }

  /** Python's matcher for `atoms` anchored at `pos`: the first way, in the
      engine's priority order, of matching every atom. */
  function MatchFrom(atoms: seq<Atom>, s: string, pos: nat, icase: bool): Option<seq<nat>>
    requires pos <= |s|
    decreases |atoms|, 1, 0
  {
    if atoms == [] then Some([pos])
    else match atoms[0]
      case Repeat(k, lo, hi, greedy) =>
        var n := Run(k, s, pos, icase, hi);
        if n < lo then None
        else if greedy then TryDown(atoms, s, pos, icase, n)
        else TryUp(atoms, s, pos, icase, lo, n)
      case LineStart =>
        if pos == 0 || s[pos - 1] == '\n' then Prepend(pos, MatchFrom(atoms[1..], s, pos, icase)) else None
      case StringStart =>
        if pos == 0 then Prepend(pos, MatchFrom(atoms[1..], s, pos, icase)) else None
      case NewlineOrEnd =>
        var viaNewline := if pos < |s| && s[pos] == '\n' then MatchFrom(atoms[1..], s, pos + 1, icase) else None;
        if viaNewline.Some? then Prepend(pos, viaNewline)
        else if pos == |s| || s[pos] == '\n' then Prepend(pos, MatchFrom(atoms[1..], s, pos, icase))
        else None
  }

  /** A greedy quantifier: try `k` characters, then fewer, down to the minimum. */
  function TryDown(atoms: seq<Atom>, s: string, pos: nat, icase: bool, k: nat): Option<seq<nat>>
    requires atoms != [] && atoms[0].Repeat? && pos + k <= |s|
    decreases |atoms|, 0, k
  {
    var r := MatchFrom(atoms[1..], s, pos + k, icase);
    if r.Some? then Prepend(pos, r)
    else if k <= atoms[0].min then None
    else TryDown(atoms, s, pos, icase, k - 1)
  }

  /** A lazy quantifier: try `k` characters, then more, up to the run `n`. */
  function TryUp(atoms: seq<Atom>, s: string, pos: nat, icase: bool, k: nat, n: nat): Option<seq<nat>>
    requires atoms != [] && atoms[0].Repeat? && k <= n && pos + n <= |s|
    decreases |atoms|, 0, n - k
  {
    var r := MatchFrom(atoms[1..], s, pos + k, icase);
    if r.Some? then Prepend(pos, r)
    else if k == n then None
    else TryUp(atoms, s, pos, icase, k + 1, n)
  }

  // ---------------------------------------------------------------------
  // Declarative reading

  /** Atom `a` can match exactly `s[i..j]`. */
  ghost predicate AtomSpans(a: Atom, s: string, i: nat, j: nat, icase: bool) {
    i <= j <= |s| &&
    match a
    case Repeat(k, lo, hi, _) =>
      lo <= j - i && WithinBound(j - i, hi) && forall p :: i <= p < j ==> AtomChar(k, s[p], icase)
    case LineStart => j == i && (i == 0 || s[i - 1] == '\n')
    case StringStart => j == i && i == 0
    case NewlineOrEnd => (j == i + 1 && s[i] == '\n') || (j == i && (i == |s| || s[i] == '\n'))
  }

  /** `b` cuts `s[b[0]..b[|atoms|]]` into consecutive pieces, one per atom, each
      of which its atom can match. */
  ghost predicate IsTrace(atoms: seq<Atom>, s: string, b: seq<nat>, icase: bool) {
    |b| == |atoms| + 1 && b[0] <= |s| &&
    forall t :: 0 <= t < |atoms| ==> AtomSpans(atoms[t], s, b[t], b[t + 1], icase)
  }

  lemma {:induction false} TraceCons(atoms: seq<Atom>, s: string, b: seq<nat>, icase: bool)
    requires atoms != [] && |b| == |atoms| + 1
    ensures IsTrace(atoms, s, b, icase) <==>
      AtomSpans(atoms[0], s, b[0], b[1], icase) && IsTrace(atoms[1..], s, b[1..], icase)
  {
    if AtomSpans(atoms[0], s, b[0], b[1], icase) && IsTrace(atoms[1..], s, b[1..], icase) {
      forall t | 0 <= t < |atoms| ensures AtomSpans(atoms[t], s, b[t], b[t + 1], icase) {
        if t > 0 { assert atoms[1..][t - 1] == atoms[t]; }
      }
    }
    if IsTrace(atoms, s, b, icase) && |atoms| > 1 {
      assert AtomSpans(atoms[1], s, b[1], b[2], icase);
    }
  }

  /** Every match the backtracking matcher reports is a trace. */
  lemma {:induction false} MatchSound(atoms: seq<Atom>, s: string, pos: nat, icase: bool)
    requires pos <= |s|
    ensures var r := MatchFrom(atoms, s, pos, icase);
      r.Some? ==> IsTrace(atoms, s, r.value, icase) && r.value[0] == pos
    decreases |atoms|, 1, 0
  {
    var r := MatchFrom(atoms, s, pos, icase);
    if atoms != [] && r.Some? {
      match atoms[0]
      case Repeat(k, lo, hi, greedy) =>
        var n := Run(k, s, pos, icase, hi);
        if greedy { TryDownSound(atoms, s, pos, icase, n); } else { TryUpSound(atoms, s, pos, icase, lo, n); }
      case LineStart =>
        MatchSound(atoms[1..], s, pos, icase);
        TraceCons(atoms, s, r.value, icase);
      case StringStart =>
        MatchSound(atoms[1..], s, pos, icase);
        TraceCons(atoms, s, r.value, icase);
      case NewlineOrEnd =>
        if pos < |s| && s[pos] == '\n' { MatchSound(atoms[1..], s, pos + 1, icase); }
        MatchSound(atoms[1..], s, pos, icase);
        TraceCons(atoms, s, r.value, icase);
    }
  }

  lemma {:induction false} TryDownSound(atoms: seq<Atom>, s: string, pos: nat, icase: bool, k: nat)
    requires atoms != [] && atoms[0].Repeat? && pos + k <= |s|
    requires atoms[0].min <= k <= Run(atoms[0].cls, s, pos, icase, atoms[0].max)
    ensures var r := TryDown(atoms, s, pos, icase, k);
      r.Some? ==> IsTrace(atoms, s, r.value, icase) && r.value[0] == pos
    decreases |atoms|, 0, k
  {
    var r := TryDown(atoms, s, pos, icase, k);
    var rest := MatchFrom(atoms[1..], s, pos + k, icase);
    MatchSound(atoms[1..], s, pos + k, icase);
    if rest.Some? {
      TraceCons(atoms, s, r.value, icase);
    } else if k > atoms[0].min {
      TryDownSound(atoms, s, pos, icase, k - 1);
    }
  }

  lemma {:induction false} TryUpSound(atoms: seq<Atom>, s: string, pos: nat, icase: bool, k: nat, n: nat)
    requires atoms != [] && atoms[0].Repeat? && k <= n && pos + n <= |s|
    requires atoms[0].min <= k && n == Run(atoms[0].cls, s, pos, icase, atoms[0].max)
    ensures var r := TryUp(atoms, s, pos, icase, k, n);
      r.Some? ==> IsTrace(atoms, s, r.value, icase) && r.value[0] == pos
    decreases |atoms|, 0, n - k
  {
    var r := TryUp(atoms, s, pos, icase, k, n);
    MatchSound(atoms[1..], s, pos + k, icase);
    if MatchFrom(atoms[1..], s, pos + k, icase).Some? {
      TraceCons(atoms, s, r.value, icase);
    } else if k < n {
      TryUpSound(atoms, s, pos, icase, k + 1, n);
    }
  }

  /** The backtracking matcher finds a match whenever a trace exists. */
  lemma {:induction false} MatchComplete(atoms: seq<Atom>, s: string, b: seq<nat>, icase: bool)
    requires IsTrace(atoms, s, b, icase)
    ensures MatchFrom(atoms, s, b[0], icase).Some?
    decreases |atoms|
  {
    if atoms != [] {
      TraceCons(atoms, s, b, icase);
      MatchComplete(atoms[1..], s, b[1..], icase);
      var pos := b[0];
      match atoms[0]
      case Repeat(k, lo, hi, greedy) =>
        var c := b[1] - b[0];
        RunMaximal(k, s, pos, icase, hi, c);
        var n := Run(k, s, pos, icase, hi);
        if greedy { TryDownReaches(atoms, s, pos, icase, n, c); }
        else { TryUpReaches(atoms, s, pos, icase, lo, n, c); }
      case LineStart =>
      case StringStart =>
      case NewlineOrEnd =>
    }
  }

  lemma {:induction false} TryDownReaches(atoms: seq<Atom>, s: string, pos: nat, icase: bool, k: nat, c: nat)
    requires atoms != [] && atoms[0].Repeat? && pos + k <= |s|
    requires atoms[0].min <= c <= k
    requires MatchFrom(atoms[1..], s, pos + c, icase).Some?
    ensures TryDown(atoms, s, pos, icase, k).Some?
    decreases k
  {
    if k > c && MatchFrom(atoms[1..], s, pos + k, icase).None? {
      TryDownReaches(atoms, s, pos, icase, k - 1, c);
    }
  }

  lemma {:induction false} TryUpReaches(atoms: seq<Atom>, s: string, pos: nat, icase: bool, k: nat, n: nat, c: nat)
    requires atoms != [] && atoms[0].Repeat? && k <= c <= n && pos + n <= |s|
    requires MatchFrom(atoms[1..], s, pos + c, icase).Some?
    ensures TryUp(atoms, s, pos, icase, k, n).Some?
    decreases n - k
  {
    if k < c && MatchFrom(atoms[1..], s, pos + k, icase).None? {
      TryUpReaches(atoms, s, pos, icase, k + 1, n, c);
    }
  }

  /** Some way of cutting `s` from `i` on fits the pattern. */
  ghost predicate MatchesAt(p: Pattern, s: string, i: nat) {
    exists b :: IsTrace(p.atoms, s, b, p.ignoreCase) && b[0] == i
  }

  lemma {:induction false} MatchFromIff(p: Pattern, s: string, i: nat)
    requires i <= |s|
    ensures MatchFrom(p.atoms, s, i, p.ignoreCase).Some? <==> MatchesAt(p, s, i)
  {
    MatchSound(p.atoms, s, i, p.ignoreCase);
    if MatchesAt(p, s, i) {
      var b :| IsTrace(p.atoms, s, b, p.ignoreCase) && b[0] == i;
      MatchComplete(p.atoms, s, b, p.ignoreCase);
    }
  }

  // ---------------------------------------------------------------------
  // re.search

  /** `re.search` from position `i`: the first start at or after `i` where the
      matcher succeeds (Python also tries the position just past the end). */
  function SearchFrom(p: Pattern, s: string, i: nat): Option<Match>
    requires i <= |s|
    decreases |s| - i
  {
    var m := MatchFrom(p.atoms, s, i, p.ignoreCase);
    if m.Some? then Some(Match(i, m.value))
    else if i == |s| then None
    else SearchFrom(p, s, i + 1)
  }

  function Search(p: Pattern, s: string): Option<Match> {
    SearchFrom(p, s, 0)
  }

  function End(m: Match): nat {
    if m.bounds == [] then m.start else m.bounds[|m.bounds| - 1]
  }

  /** A result of `SearchFrom(p, s, i)` is a trace starting at the leftmost
      position from `i` on where any trace starts, and there is no result
      exactly when no trace starts at or after `i`. */
  lemma {:induction false} SearchFromSpec(p: Pattern, s: string, i: nat)
    requires i <= |s|
    ensures var r := SearchFrom(p, s, i);
      && (r.None? <==> forall j :: i <= j <= |s| ==> !MatchesAt(p, s, j))
      && (r.Some? ==>
            && i <= r.value.start <= |s|
            && IsTrace(p.atoms, s, r.value.bounds, p.ignoreCase)
            && r.value.bounds[0] == r.value.start
            && MatchFrom(p.atoms, s, r.value.start, p.ignoreCase) == Some(r.value.bounds)
            && forall j :: i <= j < r.value.start ==> !MatchesAt(p, s, j))
    decreases |s| - i
  {
    MatchFromIff(p, s, i);
    MatchSound(p.atoms, s, i, p.ignoreCase);
    if MatchFrom(p.atoms, s, i, p.ignoreCase).None? && i < |s| {
      SearchFromSpec(p, s, i + 1);
      var r := SearchFrom(p, s, i);
      if r.None? {
        forall j | i <= j <= |s| ensures !MatchesAt(p, s, j) {
          if j > i { assert i + 1 <= j; }
        }
      }
    }
  }

  /** `re.search` returns the leftmost position at which the pattern can
      match, and returns None exactly when it can match nowhere. */
  lemma {:induction false} SearchSpec(p: Pattern, s: string)
    ensures var r := Search(p, s);
      && (r.None? <==> forall j :: 0 <= j <= |s| ==> !MatchesAt(p, s, j))
      && (r.Some? ==>
            && r.value.start <= |s|
            && IsTrace(p.atoms, s, r.value.bounds, p.ignoreCase)
            && r.value.bounds[0] == r.value.start
            && forall j :: 0 <= j < r.value.start ==> !MatchesAt(p, s, j))
  {
    SearchFromSpec(p, s, 0);
  }

  /** The executable scanner: try every start position left to right and
      return the first match. */
  method Scan(p: Pattern, s: string) returns (r: Option<Match>)
    ensures r == Search(p, s)
    ensures r.Some? ==> r.value.start <= |s| && MatchFrom(p.atoms, s, r.value.start, p.ignoreCase) == Some(r.value.bounds)
  {
    var i := 0;
    while i < |s| && MatchFrom(p.atoms, s, i, p.ignoreCase).None?
      invariant 0 <= i <= |s|
      invariant Search(p, s) == SearchFrom(p, s, i)
    {
      i := i + 1;
    }
    var m := MatchFrom(p.atoms, s, i, p.ignoreCase);
    if m.Some? {
      r := Some(Match(i, m.value));
    } else {
      r := None;
    }
  }

  // ---------------------------------------------------------------------
  // Groups

  /** The text captured by group `g` of match `m` (the empty string for a
      group the pattern does not have). */
  function Group(p: Pattern, s: string, m: Match, g: nat): string {
    if g < |p.groups| && p.groups[g].0 <= p.groups[g].1 < |p.atoms| && |m.bounds| == |p.atoms| + 1
       && m.bounds[p.groups[g].0] <= m.bounds[p.groups[g].1 + 1] <= |s|
    then s[m.bounds[p.groups[g].0]..m.bounds[p.groups[g].1 + 1]]
    else []
  }

  lemma {:induction false} TraceMonotone(atoms: seq<Atom>, s: string, b: seq<nat>, icase: bool, i: nat, j: nat)
    requires IsTrace(atoms, s, b, icase) && i <= j < |b|
    ensures b[i] <= b[j] <= |s|
    decreases j - i
  {
    if i < j {
      TraceMonotone(atoms, s, b, icase, i + 1, j);
      assert AtomSpans(atoms[i], s, b[i], b[i + 1], icase);
    } else if i > 0 {
      assert AtomSpans(atoms[i - 1], s, b[i - 1], b[i], icase);
    }
  }

  /** A group made of one atom captures a run of that atom's characters whose
      length the atom's quantifier allows. */
  lemma {:induction false} GroupChars(p: Pattern, s: string, m: Match, g: nat, t: nat)
    requires IsTrace(p.atoms, s, m.bounds, p.ignoreCase)
    requires g < |p.groups| && p.groups[g] == (t, t) && t < |p.atoms| && p.atoms[t].Repeat?
    ensures var c := Group(p, s, m, g);
      && p.atoms[t].min <= |c| && WithinBound(|c|, p.atoms[t].max)
      && forall q :: 0 <= q < |c| ==> AtomChar(p.atoms[t].cls, c[q], p.ignoreCase)
  {
    assert AtomSpans(p.atoms[t], s, m.bounds[t], m.bounds[t + 1], p.ignoreCase);
    var c := Group(p, s, m, g);
    forall q | 0 <= q < |c| ensures AtomChar(p.atoms[t].cls, c[q], p.ignoreCase) {
      assert c[q] == s[m.bounds[t] + q];
    }
  }

  // ---------------------------------------------------------------------
  // re.sub

  /** The pattern cannot match the empty string. */
  predicate Consumes(p: Pattern) {
    exists t :: 0 <= t < |p.atoms| && p.atoms[t].Repeat? && p.atoms[t].min >= 1
  }

  lemma {:induction false} SearchAdvances(p: Pattern, s: string, i: nat)
    requires i <= |s| && Consumes(p) && SearchFrom(p, s, i).Some?
    ensures var m := SearchFrom(p, s, i).value;
      i <= m.start < End(m) <= |s| && |m.bounds| == |p.atoms| + 1
  {
    SearchFromSpec(p, s, i);
    var m := SearchFrom(p, s, i).value;
    var t :| 0 <= t < |p.atoms| && p.atoms[t].Repeat? && p.atoms[t].min >= 1;
    assert AtomSpans(p.atoms[t], s, m.bounds[t], m.bounds[t + 1], p.ignoreCase);
    TraceMonotone(p.atoms, s, m.bounds, p.ignoreCase, 0, t);
    TraceMonotone(p.atoms, s, m.bounds, p.ignoreCase, t + 1, |p.atoms|);
  }

  /** `re.sub(p, before + r'\1' + after, s[i..])` continued from position `i`
      of `s`: every match, scanning left to right without overlap, is
      replaced by its first group wrapped in `before` and `after`. */
  function SubFrom(p: Pattern, s: string, i: nat, before: string, after: string): string
    requires i <= |s| && Consumes(p)
    decreases |s| - i
  {
    var r := SearchFrom(p, s, i);
    if r.None? then s[i..]
    else
      SearchAdvances(p, s, i);
      var m := r.value;
      s[i..m.start] + before + Group(p, s, m, 0) + after + SubFrom(p, s, End(m), before, after)
  }

  function Sub(p: Pattern, s: string, before: string, after: string): string
    requires Consumes(p)
  {
    SubFrom(p, s, 0, before, after)
  }

  /** Where the pattern matches nowhere, `re.sub` leaves the text alone. */
  lemma {:induction false} SubNoMatch(p: Pattern, s: string, before: string, after: string)
    requires Consumes(p) && Search(p, s).None?
    ensures Sub(p, s, before, after) == s
  {
  }

  // ---------------------------------------------------------------------
  // Tools for concrete inputs

  /** A pattern with an atom that must consume a character can only match a
      string that holds a character of that atom's class. */
  lemma {:induction false} MatchNeedsChar(p: Pattern, s: string, t: nat)
    requires t < |p.atoms| && p.atoms[t].Repeat? && p.atoms[t].min >= 1
    ensures Search(p, s).Some? ==> exists q :: 0 <= q < |s| && AtomChar(p.atoms[t].cls, s[q], p.ignoreCase)
  {
    SearchSpec(p, s);
    if Search(p, s).Some? {
      var b := Search(p, s).value.bounds;
      assert AtomSpans(p.atoms[t], s, b[t], b[t + 1], p.ignoreCase);
      assert AtomChar(p.atoms[t].cls, s[b[t]], p.ignoreCase);
    }
  }

  /** Atom `a` takes exactly `s[i..j]` without backtracking: a greedy
      quantifier whose run stops at `j` (the next character is outside the
      class, or the cap is reached, or the text ends), an anchor that holds,
      or the newline branch of `(\n|$)`. */
  predicate FitsFirstTry(a: Atom, s: string, i: nat, j: nat, icase: bool) {
    i <= j <= |s| &&
    match a
    case Repeat(k, lo, hi, greedy) =>
      && greedy && lo <= j - i && WithinBound(j - i, hi)
      && (forall p :: i <= p < j ==> AtomChar(k, s[p], icase))
      && (j == |s| || (hi.Finite? && j - i == hi.n) || !AtomChar(k, s[j], icase))
    case LineStart => j == i && (i == 0 || s[i - 1] == '\n')
    case StringStart => j == i && i == 0
    case NewlineOrEnd => (j == i + 1 && s[i] == '\n') || (j == i && i == |s|)
  }

  /** A greedy quantifier that fits takes its whole run. */
  lemma {:induction false} FitsRun(a: Atom, s: string, i: nat, j: nat, icase: bool)
    requires a.Repeat? && FitsFirstTry(a, s, i, j, icase)
    ensures Run(a.cls, s, i, icase, a.max) == j - i
  {
    RunMaximal(a.cls, s, i, icase, a.max, j - i);
  }

  /** One atom taken at the first try in front of a matching rest. */
  lemma {:induction false} FitsFirstStep(atoms: seq<Atom>, s: string, i: nat, j: nat, rest: seq<nat>, icase: bool)
    requires atoms != [] && FitsFirstTry(atoms[0], s, i, j, icase)
    requires MatchFrom(atoms[1..], s, j, icase) == Some(rest)
    ensures MatchFrom(atoms, s, i, icase) == Some([i] + rest)
  {
    if atoms[0].Repeat? {
      FitsRun(atoms[0], s, i, j, icase);
    }
  }

  /** When each of the first `k` atoms takes its span at the first try and the
      rest of the pattern matches, the matcher returns exactly those spans. */
  lemma {:induction false} FirstTryPrefix(atoms: seq<Atom>, s: string, b: seq<nat>, icase: bool, k: nat)
    requires k <= |atoms| && |b| == |atoms| + 1 && b[0] <= |s| && b[k] <= |s|
    requires forall t :: 0 <= t < k ==> FitsFirstTry(atoms[t], s, b[t], b[t + 1], icase)
    requires MatchFrom(atoms[k..], s, b[k], icase) == Some(b[k..])
    ensures MatchFrom(atoms, s, b[0], icase) == Some(b)
    decreases k
  {
    if k > 0 {
      FirstTryPrefix(atoms[1..], s, b[1..], icase, k - 1) by {
        forall t | 0 <= t < k - 1 ensures FitsFirstTry(atoms[1..][t], s, b[1..][t], b[1..][t + 1], icase) {
          assert FitsFirstTry(atoms[t + 1], s, b[t + 1], b[t + 2], icase);
        }
        assert atoms[1..][k - 1..] == atoms[k..];
        assert b[1..][k - 1..] == b[k..];
      }
      FitsFirstStep(atoms, s, b[0], b[1], b[1..], icase) by {
        assert FitsFirstTry(atoms[0], s, b[0], b[1], icase);
      }
      assert [b[0]] + b[1..] == b;
    } else {
      assert atoms[0..] == atoms && b[0..] == b;
    }
  }

  /** The whole pattern matches at the first try. */
  lemma {:induction false} FirstTry(atoms: seq<Atom>, s: string, b: seq<nat>, icase: bool)
    requires |b| == |atoms| + 1 && b[0] <= |s| && b[|atoms|] <= |s|
    requires forall t :: 0 <= t < |atoms| ==> FitsFirstTry(atoms[t], s, b[t], b[t + 1], icase)
    ensures MatchFrom(atoms, s, b[0], icase) == Some(b)
  {
    assert atoms[|atoms|..] == [];
    assert b[|atoms|..] == [b[|atoms|]];
    FirstTryPrefix(atoms, s, b, icase, |atoms|);
  }
}
