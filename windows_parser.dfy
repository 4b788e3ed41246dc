/** `extract_optimal_shift_windows` of `run_evaluation_pipeline_windows_auto.py`: the shift the
    Windows pipeline reads back from the search script's standard output and standard error
    combined. It never raises. */
module WindowsParser {
  import opened Wrappers
  import opened Text
  import opened Numerals
  import opened Patterns
  import opened Extremum

  /** What `run_command_with_output` hands to the parser: standard output, then a newline
      and standard error when the script wrote to it. */
  function CombinedOutput(stdout: string, stderr: string): string {
    if stderr == [] then stdout else stdout + "\n" + stderr
  }

  /** The three summary patterns, tried in this order. */
  const SummaryPatterns: seq<Pattern> := [SummaryEn, SummaryJa, ShiftThenNorm]

  /** The first stage from pattern `i` on: the first match of a pattern decides when its norm
      converts; otherwise the next pattern is tried. (The integer always converts, and the
      group order only decides which group is read as which.) */
  function SummaryStage(lines: seq<string>, i: nat): Option<int>
    decreases |SummaryPatterns| - i
  {
    if i >= |SummaryPatterns| then None
    else
      var ms := TextMatches(SummaryPatterns[i], lines);
      if ms != [] && FloatConvertible(ms[0].norm) then Some(IntValue(ms[0].shift))
      else SummaryStage(lines, i + 1)
  }

  /** `all_results`: the English per-shift matches, then the Japanese ones. */
  function PerShiftMatches(lines: seq<string>): (ms: seq<Match>)
    ensures forall k | 0 <= k < |ms| :: IsIntLiteral(ms[k].shift)
  {
    TextMatches(PerShiftEn, lines) + TextMatches(PerShiftJa, lines)
  }

  /** The second stage: the running minimum over the matches whose norm converts. */
  function ArgminStage(lines: seq<string>): Option<int> {
    match Lowest(PerShiftMatches(lines))
    case Some(b) => Some(b.shift)
    case None => None
  }

  const RealLeadsEn := "real video leads"
  const RealLeadsJa := "実写動画が"
  const GeneratedLeadsEn := "generated video leads"
  const GeneratedLeadsJa := "生成動画が"

  /** What the line scan makes of one line: a line that names the real video as leading
      gives its first integer; failing that, a line that names the generated video gives the
      negated first integer. A line with a keyword but no integer is passed by. */
  function LineVerdict(line: string): Option<int> {
    var numbers := FindAll(Integer, line, 0);
    if (Contains(Lowercase(line), RealLeadsEn) || Contains(line, RealLeadsJa)) && numbers != [] then
      Some(IntValue(numbers[0].shift))
    else if (Contains(Lowercase(line), GeneratedLeadsEn) || Contains(line, GeneratedLeadsJa)) && numbers != [] then
      Some(-IntValue(numbers[0].shift))
    else None
  }

  /** The third stage: the verdict of the first line that has one. */
  function LineScan(lines: seq<string>): Option<int> {
    if lines == [] then None
    else if LineVerdict(lines[0]).Some? then LineVerdict(lines[0])
    else LineScan(lines[1..])
  }

  /** The parser: 0 for blank output, else the first stage that finds a shift, else 0. */
  function ExtractWindows(text: string): int {
    if IsBlank(text) then 0
    else
      var lines := Lines(text);
      match SummaryStage(lines, 0)
      case Some(s) => s
      case None =>
        match ArgminStage(lines)
        case Some(s) => s
        case None =>
          match LineScan(lines)
          case Some(s) => s
          case None => 0
  }

  /** The parser as written: the three stages in turn. */
  method ExtractOptimalShiftWindows(text: string) returns (shift: int)
    ensures shift == ExtractWindows(text)
  {
    if IsBlank(text) {
      return 0;
    }
    var lines := Lines(text);
    var found := FindSummary(lines);
    if found.Some? {
      return found.value;
    }
    found := FindLowest(lines);
    if found.Some? {
      return found.value;
    }
    found := ScanLines(lines);
    if found.Some? {
      return found.value;
    }
    return 0;
  }

  /** `for pattern in patterns`, with `continue` when the conversion fails. */
  method FindSummary(lines: seq<string>) returns (r: Option<int>)
    ensures r == SummaryStage(lines, 0)
  {
    var i := 0;
    while i < |SummaryPatterns|
      invariant 0 <= i <= |SummaryPatterns|
      invariant SummaryStage(lines, 0) == SummaryStage(lines, i)
    {
      var ms := TextMatches(SummaryPatterns[i], lines);
      if ms != [] && FloatConvertible(ms[0].norm) {
        return Some(IntValue(ms[0].shift));
      }
      i := i + 1;
    }
    return None;
  }

  /** The second stage as written. */
  method FindLowest(lines: seq<string>) returns (r: Option<int>)
    ensures r == ArgminStage(lines)
  {
    var best := LowestConvertible(PerShiftMatches(lines));
    if best.Some? {
      return Some(best.value.shift);
    }
    return None;
  }

  /** The best among the matches whose norm converts. */
  function Lowest(ms: seq<Match>): Option<Scored>
    requires forall k | 0 <= k < |ms| :: IsIntLiteral(ms[k].shift)
  {
    BestOf(Candidates(Convertible(ms)), Minimize)
  }

  /** The loop over `all_results`: a match whose norm does not convert is skipped, a strictly
      smaller norm replaces the best (which starts at infinity, `None` here). */
  method LowestConvertible(ms: seq<Match>) returns (best: Option<Scored>)
    requires forall k | 0 <= k < |ms| :: IsIntLiteral(ms[k].shift)
    ensures best == Lowest(ms)
  {
    best := None;
    assert ms[..0] == [];
    for i := 0 to |ms|
      invariant best == Lowest(ms[..i])
    {
      LowestSnoc(ms, i);
      if FloatConvertible(ms[i].norm) {
        var norm := DecimalValue(ms[i].norm);
        if best.None? || norm < best.value.norm {
          best := Some(Scored(IntValue(ms[i].shift), norm));
        }
      }
    }
    assert ms[..|ms|] == ms;
  }

  /** One turn of the loop. */
  lemma {:induction false} LowestSnoc(ms: seq<Match>, i: nat)
    requires i < |ms| && forall k | 0 <= k < |ms| :: IsIntLiteral(ms[k].shift)
    ensures Lowest(ms[..i + 1]) ==
      var b := Lowest(ms[..i]);
      if !FloatConvertible(ms[i].norm) then b
      else
        var x := Scored(IntValue(ms[i].shift), DecimalValue(ms[i].norm));
        if b.None? || x.norm < b.value.norm then Some(x) else b
  {
    assert ms[..i + 1][..i] == ms[..i];
    var vs := Convertible(ms[..i]);
    if FloatConvertible(ms[i].norm) {
      CandidatesSnoc(vs, ms[i]);
      BestOfSnoc(Candidates(vs), Scored(IntValue(ms[i].shift), DecimalValue(ms[i].norm)), Minimize);
    }
  }

  /** The loop over the lines of the text. */
  method ScanLines(lines: seq<string>) returns (r: Option<int>)
    ensures r == LineScan(lines)
  {
    var i := 0;
    while i < |lines|
      invariant 0 <= i <= |lines|
      invariant LineScan(lines) == LineScan(lines[i..])
    {
      assert lines[i..][1..] == lines[i + 1..];
      var verdict := LineVerdict(lines[i]);
      if verdict.Some? {
        return verdict;
      }
      i := i + 1;
    }
    return None;
  }

  // ---------------------------------------------------------------------------------------
  // The third summary pattern shadows the English per-shift pattern.

  /** What the third summary pattern and the English per-shift pattern share after the
      shift: `DTW-norm\s*=\s*([\d.]+)`. */
  const NormTail: seq<Token> := [Text("dtw-norm"), Spaces(0), Text("="), Spaces(0), Norm]

  /** The two patterns differ only in what comes between the shift and `DTW-norm`: `:\s+`
      in the per-shift pattern, `.*` in the summary pattern. */
  lemma {:induction false} PatternsShareTail()
    ensures Tokens(PerShiftEn) == [Text("shift"), Spaces(1), Shift] + ([Text(":"), Spaces(1)] + NormTail)
    ensures Tokens(ShiftThenNorm) == [Text("shift"), Spaces(1), Shift] + ([AnyThen] + NormTail)
  {
  }

  /** A token other than `.*` hands the rest of the pattern on to where it ends. */
  lemma {:induction false} UnfoldStep(toks: seq<Token>, line: string, p: nat, ci: bool, m: Match)
    requires p <= |line| && toks != [] && !toks[0].AnyThen?
    ensures MatchFrom(toks, line, p, ci, m).Some? ==> Step(toks[0], line, p, ci).Some?
    ensures Step(toks[0], line, p, ci).Some? ==>
      var e := Step(toks[0], line, p, ci).value;
      MatchFrom(toks, line, p, ci, m) == MatchFrom(toks[1..], line, e, ci, Capture(toks[0], line, p, e, m))
  {
  }

  /** Where `:\s+` and the tail match, `.*` and the tail match; neither captures a shift. */
  lemma {:induction false} ShadowTail(a: seq<Token>, b: seq<Token>, line: string, p: nat, ci: bool, m: Match)
    requires a == [Text(":"), Spaces(1)] + NormTail && b == [AnyThen] + NormTail
    requires p <= |line| && MatchFrom(a, line, p, ci, m).Some?
    ensures MatchFrom(b, line, p, ci, m).Some?
    ensures MatchFrom(b, line, p, ci, m).value.shift == m.shift == MatchFrom(a, line, p, ci, m).value.shift
  {
    var e := ColonSpaces(a, line, p, ci, m);
    LastMatchFinds(NormTail, line, p, |line|, e, ci, m);
    assert b[1..] == NormTail;
    assert MatchFrom(b, line, p, ci, m) == LastMatch(NormTail, line, p, |line|, ci, m);
    TailsShiftFree(a);
  }

  lemma {:induction false} TailsShiftFree(a: seq<Token>)
    requires a == [Text(":"), Spaces(1)] + NormTail
    ensures !HasToken(NormTail, Shift) && !HasToken(a, Shift)
  {
    HasTokenIn(NormTail, Shift);
    HasTokenIn(a, Shift);
    assert Shift !in NormTail && Shift !in a;
  }

  /** `:\s+` takes the text up to some `e` from which the tail matches. */
  lemma {:induction false} ColonSpaces(a: seq<Token>, line: string, p: nat, ci: bool, m: Match) returns (e: nat)
    requires a == [Text(":"), Spaces(1)] + NormTail
    requires p <= |line| && MatchFrom(a, line, p, ci, m).Some?
    ensures p <= e <= |line| && MatchFrom(NormTail, line, e, ci, m) == MatchFrom(a, line, p, ci, m)
  {
    UnfoldStep(a, line, p, ci, m);
    var e1 := Step(a[0], line, p, ci).value;
    var a1 := a[1..];
    assert a1 == [Spaces(1)] + NormTail;
    UnfoldStep(a1, line, e1, ci, m);
    e := Step(Spaces(1), line, e1, ci).value;
    assert a1[1..] == NormTail;
  }

  /** Wherever `pre` followed by `:\s+` and the shared tail matches, `pre` followed by `.*`
      and the tail matches too, with the same shift. */
  lemma {:induction false} ShadowFrom(pre: seq<Token>, line: string, p: nat, ci: bool, m: Match)
    requires p <= |line| && AnyThen !in pre
    requires MatchFrom(pre + ([Text(":"), Spaces(1)] + NormTail), line, p, ci, m).Some?
    ensures var strict := MatchFrom(pre + ([Text(":"), Spaces(1)] + NormTail), line, p, ci, m);
      var loose := MatchFrom(pre + ([AnyThen] + NormTail), line, p, ci, m);
      loose.Some? && loose.value.shift == strict.value.shift
    decreases |pre|
  {
    var a, b := [Text(":"), Spaces(1)] + NormTail, [AnyThen] + NormTail;
    if pre == [] {
      assert pre + a == a && pre + b == b;
      ShadowTail(a, b, line, p, ci, m);
    } else {
      ShadowStep(pre, a, b, line, p, ci, m);
      var e := Step(pre[0], line, p, ci).value;
      ShadowFrom(pre[1..], line, e, ci, Capture(pre[0], line, p, e, m));
    }
  }

  /** Both patterns take their first token alike. */
  lemma {:induction false} ShadowStep(pre: seq<Token>, a: seq<Token>, b: seq<Token>, line: string, p: nat, ci: bool, m: Match)
    requires p <= |line| && pre != [] && !pre[0].AnyThen?
    requires MatchFrom(pre + a, line, p, ci, m).Some?
    ensures Step(pre[0], line, p, ci).Some?
    ensures var e := Step(pre[0], line, p, ci).value;
      var m' := Capture(pre[0], line, p, e, m);
      && MatchFrom(pre + a, line, p, ci, m) == MatchFrom(pre[1..] + a, line, e, ci, m')
      && MatchFrom(pre + b, line, p, ci, m) == MatchFrom(pre[1..] + b, line, e, ci, m')
  {
    assert (pre + a)[0] == pre[0] && (pre + a)[1..] == pre[1..] + a;
    assert (pre + b)[0] == pre[0] && (pre + b)[1..] == pre[1..] + b;
    UnfoldStep(pre + a, line, p, ci, m);
    UnfoldStep(pre + b, line, p, ci, m);
  }

  /** Every match of the English per-shift pattern is a match of the third summary pattern,
      at the same place and with the same shift. */
  lemma {:induction false} ShadowAt(line: string, p: nat)
    requires MatchAt(PerShiftEn, line, p).Some?
    ensures MatchAt(ShiftThenNorm, line, p).Some?
    ensures MatchAt(ShiftThenNorm, line, p).value.shift == MatchAt(PerShiftEn, line, p).value.shift
  {
    PatternsShareTail();
    ShadowFrom([Text("shift"), Spaces(1), Shift], line, p, true, Match(p, "", ""));
  }

  lemma {:induction false} ShadowFindAll(line: string, from: nat)
    requires FindAll(PerShiftEn, line, from) != []
    ensures FindAll(ShiftThenNorm, line, from) != []
    decreases |line| - from
  {
    if MatchAt(PerShiftEn, line, from).Some? {
      ShadowAt(line, from);
    } else {
      ShadowFindAll(line, from + 1);
    }
  }

  lemma {:induction false} ShadowText(lines: seq<string>)
    requires TextMatches(PerShiftEn, lines) != []
    ensures TextMatches(ShiftThenNorm, lines) != []
  {
    if FindAll(PerShiftEn, lines[0], 0) != [] {
      ShadowFindAll(lines[0], 0);
    } else {
      ShadowText(lines[1..]);
    }
  }

  /** A text with an English per-shift line reaches the per-shift stage only when the norm
      of the third summary pattern's first match does not convert: otherwise that pattern
      already decides, with the shift of its first match. */
  lemma {:induction false} PerShiftShadowed(lines: seq<string>)
    requires TextMatches(PerShiftEn, lines) != []
    ensures TextMatches(ShiftThenNorm, lines) != []
    ensures SummaryStage(lines, 0).None? ==> !FloatConvertible(TextMatches(ShiftThenNorm, lines)[0].norm)
  {
    ShadowText(lines);
    assert SummaryStage(lines, 0).None? ==> SummaryStage(lines, 2).None?;
  }
}
