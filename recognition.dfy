/** Which of the parsers' patterns match the lines the search scripts print, and what they
    capture there. */
module Recognition {
  import opened Wrappers
  import opened Text
  import opened Numerals
  import opened Patterns
  import opened Report
  import WindowsParser

  // ---------------------------------------------------------------------------------------
  // Matching one token at a time. Each lemma takes the text from position `p` on as the
  // piece the token should consume followed by the rest.

  /** A token other than `.*` that matches at `p` hands the rest of the pattern on to where
      it ends. */
  lemma {:induction false} StepThen(toks: seq<Token>, line: string, p: nat, ci: bool, m: Match)
    requires p <= |line| && toks != [] && !toks[0].AnyThen? && Step(toks[0], line, p, ci).Some?
    ensures var e := Step(toks[0], line, p, ci).value;
      MatchFrom(toks, line, p, ci, m) == MatchFrom(toks[1..], line, e, ci, Capture(toks[0], line, p, e, m))
  {
  }

  lemma {:induction false} RunEndAt(line: string, p: nat, e: nat, cls: CharClass)
    requires p <= e <= |line|
    requires forall k | p <= k < e :: InClass(line[k], cls)
    requires e < |line| ==> !InClass(line[e], cls)
    ensures RunEnd(line, p, cls) == e
    decreases e - p
  {
    if p < e {
      RunEndAt(line, p + 1, e, cls);
    }
  }

  lemma {:induction false} SuffixSplit(line: string, p: nat, piece: string, rest: string)
    requires p <= |line| && line[p..] == piece + rest
    ensures p + |piece| <= |line| && line[p..p + |piece|] == piece && line[p + |piece|..] == rest
    ensures forall k | 0 <= k < |piece| :: line[p + k] == piece[k]
    ensures rest != [] ==> line[p + |piece|] == rest[0]
  {
    assert line[p..][..|piece|] == piece;
    assert line[p..][|piece|..] == rest;
  }

  /** A literal; with `re.IGNORECASE` the text's letters are folded first. */
  lemma {:induction false} LitNext(line: string, p: nat, piece: string, rest: string, lit: string, ci: bool)
    requires p <= |line| && line[p..] == piece + rest
    requires lit == if ci then Lowercase(piece) else piece
    ensures Step(Text(lit), line, p, ci) == Some(p + |piece|) && line[p + |piece|..] == rest
  {
    SuffixSplit(line, p, piece, rest);
  }

  /** `\s+` or `\s*` over a run of white space that the rest does not continue. */
  lemma {:induction false} SpacesNext(line: string, p: nat, piece: string, rest: string, min: nat, ci: bool)
    requires p <= |line| && line[p..] == piece + rest
    requires |piece| >= min && forall k | 0 <= k < |piece| :: IsSpace(piece[k])
    requires rest != [] ==> !IsSpace(rest[0])
    ensures Step(Spaces(min), line, p, ci) == Some(p + |piece|) && line[p + |piece|..] == rest
  {
    SuffixSplit(line, p, piece, rest);
    RunEndAt(line, p, p + |piece|, Space);
  }

  /** `[\d.]+` over a run of digits and points that the rest does not continue. */
  lemma {:induction false} NormNext(line: string, p: nat, piece: string, rest: string, ci: bool)
    requires p <= |line| && line[p..] == piece + rest && IsDecimalRun(piece)
    requires rest != [] ==> !(IsDigit(rest[0]) || rest[0] == '.')
    ensures Step(Norm, line, p, ci) == Some(p + |piece|) && line[p + |piece|..] == rest
    ensures line[p..p + |piece|] == piece
  {
    SuffixSplit(line, p, piece, rest);
    RunEndAt(line, p, p + |piece|, DigitOrPoint);
  }

  /** `(-?\d+)` over a signed integer that the rest does not continue. */
  lemma {:induction false} IntNext(line: string, p: nat, piece: string, rest: string, ci: bool)
    requires p <= |line| && line[p..] == piece + rest && IsIntLiteral(piece)
    requires rest != [] ==> !IsDigit(rest[0])
    ensures Step(Shift, line, p, ci) == Some(p + |piece|) && line[p + |piece|..] == rest
    ensures line[p..p + |piece|] == piece
  {
    SuffixSplit(line, p, piece, rest);
    if piece[0] == '-' {
      RunEndAt(line, p + 1, p + |piece|, Digit);
    } else {
      RunEndAt(line, p, p + |piece|, Digit);
    }
  }

  lemma {:induction false} FoldSummaryHead(x: string)
    requires x == "Min DTW-norm"
    ensures Lowercase(x) == "min dtw-norm"
  {
  }

  lemma {:induction false} FoldShift(x: string)
    requires x == "Shift"
    ensures Lowercase(x) == "shift"
  {
  }

  /** Letters already in lower case fold to themselves. */
  lemma {:induction false} FoldLower(x: string)
    requires x == "at" || x == "shift"
    ensures Lowercase(x) == x
  {
  }

  lemma {:induction false} FoldNorm(x: string)
    requires x == "DTW-norm"
    ensures Lowercase(x) == "dtw-norm"
  {
  }

  /** What `{x:.3f}` prints for a non-negative `x` starts and ends with a digit. */
  lemma {:induction false} Fixed3Ends(x: real)
    requires x >= 0.0
    ensures var f := Fixed3(x); IsDecimalRun(f) && IsDigit(f[0]) && IsDigit(f[|f| - 1])
  {
    var f := Fixed3(x);
    assert f[0] == f[..|f| - 4][0];
    assert f[|f| - 1] == f[|f| - 3..][2];
  }

  // One token of a chain at a time: what the match of the whole chain comes to, in terms of
  // the rest of the chain.

  lemma {:induction false} LitStep(toks: seq<Token>, lit: string, tail: seq<Token>, line: string, p: nat, piece: string, rest: string, ci: bool, m: Match)
    requires toks == [Text(lit)] + tail && lit == if ci then Lowercase(piece) else piece
    requires p <= |line| && line[p..] == piece + rest
    ensures p + |piece| <= |line| && line[p + |piece|..] == rest
    ensures MatchFrom(toks, line, p, ci, m) == MatchFrom(tail, line, p + |piece|, ci, m)
  {
    LitNext(line, p, piece, rest, lit, ci);
    assert toks[1..] == tail;
    StepThen(toks, line, p, ci, m);
  }

  lemma {:induction false} SpacesStep(toks: seq<Token>, min: nat, tail: seq<Token>, line: string, p: nat, rest: string, ci: bool, m: Match)
    requires toks == [Spaces(min)] + tail && min <= 1
    requires p <= |line| && line[p..] == " " + rest && (rest != [] ==> !IsSpace(rest[0]))
    ensures p + 1 <= |line| && line[p + 1..] == rest
    ensures MatchFrom(toks, line, p, ci, m) == MatchFrom(tail, line, p + 1, ci, m)
  {
    SpacesNext(line, p, " ", rest, min, ci);
    assert toks[1..] == tail;
    StepThen(toks, line, p, ci, m);
  }

  lemma {:induction false} NormStep(toks: seq<Token>, tail: seq<Token>, line: string, p: nat, piece: string, rest: string, ci: bool, m: Match)
    requires toks == [Norm] + tail
    requires p <= |line| && line[p..] == piece + rest && IsDecimalRun(piece)
    requires rest != [] ==> !(IsDigit(rest[0]) || rest[0] == '.')
    ensures p + |piece| <= |line| && line[p + |piece|..] == rest
    ensures MatchFrom(toks, line, p, ci, m) == MatchFrom(tail, line, p + |piece|, ci, m.(norm := piece))
  {
    NormNext(line, p, piece, rest, ci);
    assert toks[1..] == tail;
    StepThen(toks, line, p, ci, m);
  }

  lemma {:induction false} ShiftStep(toks: seq<Token>, tail: seq<Token>, line: string, p: nat, piece: string, rest: string, ci: bool, m: Match)
    requires toks == [Shift] + tail
    requires p <= |line| && line[p..] == piece + rest && IsIntLiteral(piece)
    requires rest != [] ==> !IsDigit(rest[0])
    ensures p + |piece| <= |line| && line[p + |piece|..] == rest
    ensures MatchFrom(toks, line, p, ci, m) == MatchFrom(tail, line, p + |piece|, ci, m.(shift := piece))
  {
    IntNext(line, p, piece, rest, ci);
    assert toks[1..] == tail;
    StepThen(toks, line, p, ci, m);
  }

  // ---------------------------------------------------------------------------------------
  // The summary line.

  lemma {:induction false} Assoc(a: string, b: string, c: string)
    ensures (a + b) + c == a + (b + c)
  {
  }

  lemma {:induction false} SplitHead(k: string, d: string, head: string)
    requires k == "Min" && d == " DTW-norm " && head == "Min DTW-norm"
    ensures k + d == head + " "
  {
  }

  lemma {:induction false} SplitMiddle(a: string, at: string, sh: string)
    requires a == " at shift " && at == "at" && sh == "shift"
    ensures a == " " + (at + (" " + (sh + " ")))
  {
  }

  /** The summary line cut where the summary patterns' tokens meet. */
  lemma {:induction false} SummaryLineShape(kind: string, norm: real, shift: int, head: string, at: string, sh: string)
    requires kind == "Min" && head == "Min DTW-norm" && at == "at" && sh == "shift"
    ensures var f, i := Fixed3(norm), IntToString(shift);
      SummaryLine(kind, norm, shift) == head + (" " + (f + (" " + (at + (" " + (sh + (" " + i)))))))
  {
    var f, i := Fixed3(norm), IntToString(shift);
    var d, a := " DTW-norm ", " at shift ";
    SplitHead(kind, d, head);
    SplitMiddle(a, at, sh);
    assert SummaryLine(kind, norm, shift) == kind + d + f + a + i;
    SummaryRegroup(kind, d, f, a, i, head, at, sh);
  }

  lemma {:induction false} SummaryRegroup(kind: string, d: string, f: string, a: string, i: string, head: string, at: string, sh: string)
    requires kind + d == head + " " && a == " " + (at + (" " + (sh + " ")))
    ensures kind + d + f + a + i == head + (" " + (f + (" " + (at + (" " + (sh + (" " + i)))))))
  {
  }

  /** The summary patterns' tokens after the first one, from the end backwards. */
  const IntTail: seq<Token> := [Spaces(1)] + [Shift]
  const ShiftWordTail: seq<Token> := [Spaces(1)] + ([Text("shift")] + IntTail)
  const AtTail: seq<Token> := [Spaces(1)] + ([Text("at")] + ShiftWordTail)
  const NormAtTail: seq<Token> := [Norm] + AtTail
  const SummaryNormTail: seq<Token> := [Spaces(1)] + NormAtTail

  lemma {:induction false} IntTailMatch(line: string, p: nat, i: string, ci: bool, m: Match)
    requires IsIntLiteral(i)
    requires p <= |line| && line[p..] == " " + i
    ensures MatchFrom(IntTail, line, p, ci, m) == Some(m.(end := |line|, shift := i))
  {
    SpacesStep(IntTail, 1, [Shift], line, p, i, ci, m);
    ShiftStep([Shift], [], line, p + 1, i, "", ci, m);
  }

  lemma {:induction false} ShiftWordTailMatch(line: string, p: nat, sh: string, i: string, ci: bool, m: Match)
    requires IsIntLiteral(i) && sh == "shift"
    requires p <= |line| && line[p..] == " " + (sh + (" " + i))
    ensures MatchFrom(ShiftWordTail, line, p, ci, m) == Some(m.(end := |line|, shift := i))
  {
    FoldLower(sh);
    SpacesStep(ShiftWordTail, 1, [Text("shift")] + IntTail, line, p, sh + (" " + i), ci, m);
    LitStep([Text("shift")] + IntTail, "shift", IntTail, line, p + 1, sh, " " + i, ci, m);
    IntTailMatch(line, p + 6, i, ci, m);
  }

  lemma {:induction false} AtTailMatch(line: string, p: nat, at: string, sh: string, i: string, ci: bool, m: Match)
    requires IsIntLiteral(i) && at == "at" && sh == "shift"
    requires p <= |line| && line[p..] == " " + (at + (" " + (sh + (" " + i))))
    ensures MatchFrom(AtTail, line, p, ci, m) == Some(m.(end := |line|, shift := i))
  {
    FoldLower(at);
    var r := " " + (sh + (" " + i));
    SpacesStep(AtTail, 1, [Text("at")] + ShiftWordTail, line, p, at + r, ci, m);
    LitStep([Text("at")] + ShiftWordTail, "at", ShiftWordTail, line, p + 1, at, r, ci, m);
    ShiftWordTailMatch(line, p + 3, sh, i, ci, m);
  }

  /** Where the rest of the text starts after the norm. */
  lemma {:induction false} NormSuffix(line: string, p: nat, f: string, r: string)
    requires p <= |line| && line[p..] == f + r
    ensures p + |f| <= |line| && line[p + |f|..] == r
  {
    assert line[p..][|f|..] == r;
  }

  lemma {:induction false} SpacesSuffix(line: string, p: nat, r: string)
    requires p <= |line| && line[p..] == " " + r
    ensures p + 1 <= |line| && line[p + 1..] == r
  {
    assert line[p..][1..] == r;
  }

  /** `\s+` over one space followed by the rest of the pattern, given what the rest matches. */
  lemma {:induction false} SpacesThen(toks: seq<Token>, tail: seq<Token>, line: string, p: nat, r: string, ci: bool, m: Match, res: Option<Match>)
    requires toks == [Spaces(1)] + tail
    requires p <= |line| && line[p..] == " " + r && (r != [] ==> !IsSpace(r[0]))
    requires MatchFrom(tail, line, p + 1, ci, m) == res
    ensures MatchFrom(toks, line, p, ci, m) == res
  {
    SpacesStep(toks, 1, tail, line, p, r, ci, m);
  }

  /** `[\d.]+` followed by the rest of the pattern, given what the rest matches. */
  lemma {:induction false} NormThen(toks: seq<Token>, tail: seq<Token>, line: string, p: nat, f: string, r: string, ci: bool, m: Match, res: Option<Match>)
    requires toks == [Norm] + tail
    requires p <= |line| && line[p..] == f + r && IsDecimalRun(f)
    requires r != [] ==> !(IsDigit(r[0]) || r[0] == '.')
    requires MatchFrom(tail, line, p + |f|, ci, m.(norm := f)) == res
    ensures MatchFrom(toks, line, p, ci, m) == res
  {
    NormStep(toks, tail, line, p, f, r, ci, m);
  }

  lemma {:induction false} NormAtTailMatch(line: string, p: nat, f: string, at: string, sh: string, i: string, ci: bool, m: Match)
    requires IsIntLiteral(i) && at == "at" && sh == "shift" && IsDecimalRun(f)
    requires p <= |line| && line[p..] == f + (" " + (at + (" " + (sh + (" " + i)))))
    ensures MatchFrom(NormAtTail, line, p, ci, m) == Some(m.(norm := f).(end := |line|, shift := i))
  {
    var r := " " + (at + (" " + (sh + (" " + i))));
    NormSuffix(line, p, f, r);
    AtTailMatch(line, p + |f|, at, sh, i, ci, m.(norm := f));
    NormThen(NormAtTail, AtTail, line, p, f, r, ci, m, Some(m.(norm := f).(end := |line|, shift := i)));
  }

  lemma {:induction false} SummaryNormTailMatch(line: string, p: nat, f: string, at: string, sh: string, i: string, ci: bool, m: Match)
    requires IsIntLiteral(i) && at == "at" && sh == "shift"
    requires IsDecimalRun(f) && IsDigit(f[0])
    requires p <= |line| && line[p..] == " " + (f + (" " + (at + (" " + (sh + (" " + i))))))
    ensures MatchFrom(SummaryNormTail, line, p, ci, m) == Some(m.(end := |line|, shift := i, norm := f))
  {
    var r := f + (" " + (at + (" " + (sh + (" " + i)))));
    var res := Some(m.(norm := f).(end := |line|, shift := i));
    assert res == Some(m.(end := |line|, shift := i, norm := f));
    SpacesSuffix(line, p, r);
    NormAtTailMatch(line, p + 1, f, at, sh, i, ci, m);
    SpacesThen(SummaryNormTail, NormAtTail, line, p, r, ci, m, res);
  }


  lemma {:induction false} SummaryTokens(pat: Pattern)
    requires pat == AutoSummary || pat == SummaryEn
    ensures Tokens(pat) == [Text(if IgnoresCase(pat) then "min dtw-norm" else "Min DTW-norm")] + SummaryNormTail
  {
  }

  lemma {:induction false} MatchAtStart(pat: Pattern, line: string, p: nat)
    requires p <= |line|
    ensures MatchAt(pat, line, p) == MatchFrom(Tokens(pat), line, p, IgnoresCase(pat), Match(p, "", ""))
  {
  }

  /** `Min DTW-norm {norm:.3f} at shift {shift}` is matched from its first character by the
      auto pipeline's summary pattern and by the Windows pipeline's English one, which
      capture the printed norm and shift. */
  lemma {:induction false} SummaryLineMatch(pat: Pattern, norm: real, shift: int)
    requires pat == AutoSummary || pat == SummaryEn
    requires norm >= 0.0
    ensures var line := SummaryLine("Min", norm, shift);
      MatchAt(pat, line, 0) == Some(Match(|line|, IntToString(shift), Fixed3(norm)))
  {
    SummaryMatchFrom(pat, "Min", norm, shift, "Min DTW-norm", "at", "shift");
  }

  lemma {:induction false} SummaryMatchFrom(pat: Pattern, kind: string, norm: real, shift: int, head: string, at: string, sh: string)
    requires pat == AutoSummary || pat == SummaryEn
    requires norm >= 0.0
    requires kind == "Min" && head == "Min DTW-norm" && at == "at" && sh == "shift"
    ensures var line := SummaryLine(kind, norm, shift);
      MatchAt(pat, line, 0) == Some(Match(|line|, IntToString(shift), Fixed3(norm)))
  {
    var line := SummaryLine(kind, norm, shift);
    SummaryLineShape(kind, norm, shift, head, at, sh);
    SummaryTokens(pat);
    MatchAtStart(pat, line, 0);
    Fixed3Ends(norm);
    IntQuiet(shift);
    SummaryHeadMatch(line, head, Fixed3(norm), at, sh, IntToString(shift), IgnoresCase(pat));
  }

  lemma {:induction false} SummaryHeadMatch(line: string, head: string, f: string, at: string, sh: string, i: string, ci: bool)
    requires head == "Min DTW-norm" && at == "at" && sh == "shift"
    requires IsIntLiteral(i) && IsDecimalRun(f) && IsDigit(f[0])
    requires line == head + (" " + (f + (" " + (at + (" " + (sh + (" " + i)))))))
    ensures MatchFrom([Text(if ci then "min dtw-norm" else "Min DTW-norm")] + SummaryNormTail, line, 0, ci, Match(0, "", ""))
      == Some(Match(|line|, i, f))
  {
    var r := " " + (f + (" " + (at + (" " + (sh + (" " + i))))));
    assert line[0..] == head + r;
    if ci {
      FoldSummaryHead(head);
    }
    var m0 := Match(0, "", "");
    LitStep([Text(if ci then "min dtw-norm" else "Min DTW-norm")] + SummaryNormTail, if ci then "min dtw-norm" else "Min DTW-norm", SummaryNormTail, line, 0, head, r, ci, m0);
    SummaryNormTailMatch(line, |head|, f, at, sh, i, ci, m0);
  }

  // ---------------------------------------------------------------------------------------
  // The per-shift line.

  /** A run of white space, such as the padding before the shift. */
  predicate PadRun(sp: string) {
    |sp| >= 1 && forall k | 0 <= k < |sp| :: IsSpace(sp[k])
  }

  /** A printed norm `f`, followed by the rest `r` of the line, as `[\d.]+` takes it. */
  predicate NormStart(f: string, r: string) {
    IsDecimalRun(f) && IsDigit(f[0]) && (r != [] ==> r[0] == ' ')
  }

  /** What the per-shift lemmas need of the printed norm and of what follows it. */
  predicate NormPieces(f: string, r: string) {
    NormStart(f, r) && IsDigit(f[|f| - 1]) && Quiet(f) && Quiet(r)
  }

  /** `=` has no letter to fold. */
  lemma {:induction false} FoldEquals(x: string)
    requires x == "="
    ensures Lowercase(x) == x
  {
  }

  /** `DTW-norm`, a run of white space, `=`, a run of white space and the norm: the end of
      the auto pipeline's per-shift pattern (`min` = 1) and of the Windows pipeline's third
      summary pattern (`min` = 0). */
  function NormWordTail(word: string, min: nat): seq<Token> {
    [Text(word)] + ([Spaces(min)] + ([Text("=")] + ([Spaces(min)] + [Norm])))
  }

  lemma {:induction false} PerShiftTokens()
    ensures WindowsParser.NormTail == NormWordTail("dtw-norm", 0)
    ensures Tokens(ShiftThenNorm) == [Text("shift"), Spaces(1), Shift] + ([AnyThen] + WindowsParser.NormTail)
    ensures Tokens(AutoPerShift) == [Text("Shift"), Spaces(1), Shift] + ([Text(":"), Spaces(1)] + NormWordTail("DTW-norm", 1))
    ensures IgnoresCase(ShiftThenNorm) && !IgnoresCase(AutoPerShift)
  {
  }

  /** `\s+` over a run of white space that the rest does not continue. */
  lemma {:induction false} SpacesRunStep(toks: seq<Token>, tail: seq<Token>, line: string, p: nat, piece: string, rest: string, ci: bool, m: Match)
    requires toks == [Spaces(1)] + tail
    requires PadRun(piece)
    requires rest != [] ==> !IsSpace(rest[0])
    requires p <= |line| && line[p..] == piece + rest
    ensures p + |piece| <= |line| && line[p + |piece|..] == rest
    ensures MatchFrom(toks, line, p, ci, m) == MatchFrom(tail, line, p + |piece|, ci, m)
  {
    SpacesNext(line, p, piece, rest, 1, ci);
    assert toks[1..] == tail;
    StepThen(toks, line, p, ci, m);
  }

  /** A literal followed by the rest of the pattern, given what the rest matches. */
  lemma {:induction false} LitThen(toks: seq<Token>, lit: string, tail: seq<Token>, line: string, p: nat, piece: string, rest: string, ci: bool, m: Match, res: Option<Match>)
    requires toks == [Text(lit)] + tail && lit == if ci then Lowercase(piece) else piece
    requires p <= |line| && line[p..] == piece + rest
    requires p + |piece| <= |line| ==> MatchFrom(tail, line, p + |piece|, ci, m) == res
    ensures MatchFrom(toks, line, p, ci, m) == res
  {
    LitStep(toks, lit, tail, line, p, piece, rest, ci, m);
  }

  /** `\s*` or `\s+` over one space followed by the rest of the pattern. */
  lemma {:induction false} SpaceThen(toks: seq<Token>, min: nat, tail: seq<Token>, line: string, p: nat, r: string, ci: bool, m: Match, res: Option<Match>)
    requires toks == [Spaces(min)] + tail && min <= 1
    requires p <= |line| && line[p..] == " " + r && (r != [] ==> !IsSpace(r[0]))
    requires p + 1 <= |line| ==> MatchFrom(tail, line, p + 1, ci, m) == res
    ensures MatchFrom(toks, line, p, ci, m) == res
  {
    SpacesStep(toks, min, tail, line, p, r, ci, m);
  }

  /** The norm at the end of a pattern. */
  lemma {:induction false} NormEndMatch(line: string, p: nat, f: string, r: string, ci: bool, m: Match)
    requires IsDecimalRun(f) && (r != [] ==> r[0] == ' ')
    requires p <= |line| && line[p..] == f + r
    ensures MatchFrom([Norm], line, p, ci, m) == Some(m.(norm := f).(end := p + |f|))
  {
    NormSuffix(line, p, f, r);
    NormThen([Norm], [], line, p, f, r, ci, m, Some(m.(norm := f).(end := p + |f|)));
  }

  lemma {:induction false} SpaceNormMatch(line: string, p: nat, min: nat, f: string, r: string, ci: bool, m: Match)
    requires min <= 1 && NormStart(f, r)
    requires p <= |line| && line[p..] == " " + (f + r)
    ensures MatchFrom([Spaces(min)] + [Norm], line, p, ci, m) == Some(m.(norm := f).(end := p + 1 + |f|))
  {
    SpacesSuffix(line, p, f + r);
    NormEndMatch(line, p + 1, f, r, ci, m);
    assert (f + r)[0] == f[0];
    SpaceThen([Spaces(min)] + [Norm], min, [Norm], line, p, f + r, ci, m, Some(m.(norm := f).(end := p + 1 + |f|)));
  }

  /** `=` steps from `p` to `q`. */
  lemma {:induction false} EqualsStep(line: string, p: nat, q: nat, min: nat, x: string, ci: bool, m: Match)
    requires q == p + 1 && p <= |line| && line[p..] == "=" + x
    ensures q <= |line| && line[q..] == x
    ensures MatchFrom([Text("=")] + ([Spaces(min)] + [Norm]), line, p, ci, m) == MatchFrom([Spaces(min)] + [Norm], line, q, ci, m)
  {
    FoldEquals("=");
    LitStep([Text("=")] + ([Spaces(min)] + [Norm]), "=", [Spaces(min)] + [Norm], line, p, "=", x, ci, m);
  }

  lemma {:induction false} EqualsNormMatch(line: string, p: nat, min: nat, f: string, r: string, ci: bool, m: Match)
    requires min <= 1 && NormStart(f, r)
    requires p <= |line| && line[p..] == "=" + (" " + (f + r))
    ensures MatchFrom([Text("=")] + ([Spaces(min)] + [Norm]), line, p, ci, m) == Some(m.(norm := f).(end := p + 2 + |f|))
  {
    var q: nat := p + 1;
    EqualsStep(line, p, q, min, " " + (f + r), ci, m);
    SpaceNormMatch(line, q, min, f, r, ci, m);
  }

  lemma {:induction false} SpaceEqualsNormMatch(line: string, p: nat, min: nat, f: string, r: string, ci: bool, m: Match)
    requires min <= 1 && NormStart(f, r)
    requires p <= |line| && line[p..] == " " + ("=" + (" " + (f + r)))
    ensures MatchFrom([Spaces(min)] + ([Text("=")] + ([Spaces(min)] + [Norm])), line, p, ci, m)
      == Some(m.(norm := f).(end := p + 3 + |f|))
  {
    var tail := [Text("=")] + ([Spaces(min)] + [Norm]);
    SpacesSuffix(line, p, "=" + (" " + (f + r)));
    EqualsNormMatch(line, p + 1, min, f, r, ci, m);
    SpaceThen([Spaces(min)] + tail, min, tail, line, p, "=" + (" " + (f + r)), ci, m, Some(m.(norm := f).(end := p + 3 + |f|)));
  }

  lemma {:induction false} SpacesRunThen(toks: seq<Token>, tail: seq<Token>, line: string, p: nat, piece: string, rest: string, ci: bool, m: Match, res: Option<Match>)
    requires toks == [Spaces(1)] + tail
    requires PadRun(piece)
    requires rest != [] ==> !IsSpace(rest[0])
    requires p <= |line| && line[p..] == piece + rest
    requires p + |piece| <= |line| ==> MatchFrom(tail, line, p + |piece|, ci, m) == res
    ensures MatchFrom(toks, line, p, ci, m) == res
  {
    SpacesRunStep(toks, tail, line, p, piece, rest, ci, m);
  }

  /** The norm tail over `DTW-norm = {norm:.3f}` followed by nothing or by a space; `n` is
      the `DTW-norm` of the line. */
  lemma {:induction false} NormWordTailMatch(toks: seq<Token>, line: string, t: nat, word: string, n: string, min: nat, f: string, r: string, ci: bool, m: Match)
    requires toks == NormWordTail(word, min)
    requires min <= 1 && |n| == 8 && word == if ci then Lowercase(n) else n
    requires NormStart(f, r)
    requires t <= |line| && line[t..] == n + (" " + ("=" + (" " + (f + r))))
    ensures MatchFrom(toks, line, t, ci, m) == Some(m.(norm := f).(end := t + 11 + |f|))
  {
    var tail := [Spaces(min)] + ([Text("=")] + ([Spaces(min)] + [Norm]));
    var rest := " " + ("=" + (" " + (f + r)));
    NormSuffix(line, t, n, rest);
    SpaceEqualsNormMatch(line, t + 8, min, f, r, ci, m);
    LitThen(toks, word, tail, line, t, n, rest, ci, m, Some(m.(norm := f).(end := t + 11 + |f|)));
  }

  /** Where the text has no `w-` from `from` on, `DTW-norm` (folded) starts nowhere from
      `from - 2` on. */
  lemma {:induction false} NormTailAbsent(line: string, u: nat, from: nat, m: Match)
    requires u <= |line| && from <= u + 2 && NoBigramFrom(line, from, 'w', '-')
    ensures MatchFrom(WindowsParser.NormTail, line, u, true, m).None?
  {
    var toks := WindowsParser.NormTail;
    if MatchFrom(toks, line, u, true, m).Some? {
      WindowsParser.UnfoldStep(toks, line, u, true, m);
      LitChars(line, u, "dtw-norm", true, 2);
      LitChars(line, u, "dtw-norm", true, 3);
      NoBigramFromIff(line, from, 'w', '-');
    }
  }

  lemma {:induction false} NormTailIsWordTail()
    ensures WindowsParser.NormTail == NormWordTail("dtw-norm", 0)
  {
  }

  /** `.*` followed by the rest of the pattern is the rest's last match. */
  lemma {:induction false} AnyThenUnfold(tail: seq<Token>, line: string, p: nat, ci: bool, m: Match)
    requires p <= |line|
    ensures MatchFrom([AnyThen] + tail, line, p, ci, m) == LastMatch(tail, line, p, |line|, ci, m)
  {
    assert ([AnyThen] + tail)[1..] == tail;
  }

  lemma {:induction false} NormTailAbsentAfter(line: string, t: nat, m: Match)
    requires t <= |line| && NoBigramFrom(line, t + 3, 'w', '-')
    ensures forall u | t < u <= |line| :: MatchFrom(WindowsParser.NormTail, line, u, true, m).None?
  {
    forall u | t < u <= |line| ensures MatchFrom(WindowsParser.NormTail, line, u, true, m).None? {
      NormTailAbsent(line, u, t + 3, m);
    }
  }

  /** `.*` followed by the rest of the pattern, where the rest matches at `t` and nowhere
      after it. */
  lemma {:induction false} AnyThenLast(tail: seq<Token>, line: string, p: nat, t: nat, ci: bool, m: Match, res: Option<Match>)
    requires p <= t <= |line| && MatchFrom(tail, line, t, ci, m) == res && res.Some?
    requires forall u | t < u <= |line| :: MatchFrom(tail, line, u, ci, m).None?
    ensures MatchFrom([AnyThen] + tail, line, p, ci, m) == res
  {
    LastMatchIsLast(tail, line, p, |line|, t, ci, m);
    AnyThenUnfold(tail, line, p, ci, m);
  }

  /** The third summary pattern's tail over `DTW-norm = {norm:.3f}`. */
  lemma {:induction false} NormTailMatch(line: string, t: nat, f: string, r: string, m: Match)
    requires NormStart(f, r)
    requires t <= |line| && line[t..] == "DTW-norm" + (" " + ("=" + (" " + (f + r))))
    ensures MatchFrom(WindowsParser.NormTail, line, t, true, m) == Some(m.(norm := f).(end := t + 11 + |f|))
  {
    NormTailIsWordTail();
    FoldNorm("DTW-norm");
    NormWordTailMatch(WindowsParser.NormTail, line, t, "dtw-norm", "DTW-norm", 0, f, r, true, m);
  }

  /** `.*` followed by the third summary pattern's tail, where the tail matches at `t` and
      the text has no `w-` after the `w` of that `DTW-norm`. */
  lemma {:induction false} AnyThenOnlyTail(line: string, p: nat, t: nat, m: Match, res: Option<Match>)
    requires p <= t <= |line| && MatchFrom(WindowsParser.NormTail, line, t, true, m) == res && res.Some?
    requires NoBigramFrom(line, t + 3, 'w', '-')
    ensures MatchFrom([AnyThen] + WindowsParser.NormTail, line, p, true, m) == res
  {
    NormTailAbsentAfter(line, t, m);
    AnyThenLast(WindowsParser.NormTail, line, p, t, true, m, res);
  }

  /** What `PadLeft(_, 3)` puts before an integer is all spaces. */
  lemma {:induction false} PaddedSplit(i: string) returns (pad: string)
    ensures PadLeft(i, 3) == pad + i
    ensures forall k | 0 <= k < |pad| :: IsSpace(pad[k])
  {
    var p := PadLeft(i, 3);
    pad := p[..|p| - |i|];
    assert p == pad + p[|p| - |i|..];
  }

  lemma {:induction false} SplitShiftWord(a: string, w: string)
    requires a == " Shift " && w == "Shift"
    ensures a == " " + (w + " ")
  {
  }

  lemma {:induction false} SplitSeparator(c: string, nw: string, eq: string)
    requires c == ": DTW-norm = " && nw == "DTW-norm" && eq == "="
    ensures c == ": " + (nw + (" " + (eq + " ")))
  {
  }

  lemma {:induction false} PerShiftRegroup(a: string, w: string, pad: string, i: string, c: string, nw: string, eq: string, f: string, r: string)
    requires a == " " + (w + " ") && c == ": " + (nw + (" " + (eq + " ")))
    ensures a + (pad + i) + c + f + r
      == " " + (w + ((" " + pad) + (i + (": " + (nw + (" " + (eq + (" " + (f + r)))))))))
  {
  }

  /** The printed shift, norm and lengths of a per-shift line as the per-shift lemmas
      need them, whatever numbers they print. */
  predicate PerShiftPieces(line: string, i: string, f: string, r: string) {
    && line == " Shift " + PadLeft(i, 3) + ": DTW-norm = " + f + r
    && IsIntLiteral(i) && IsDecimalRun(f) && IsDigit(f[0]) && IsDigit(f[|f| - 1])
    && Quiet(f) && Quiet(r) && (r != [] ==> r[0] == ' ')
  }

  lemma {:induction false} PerShiftLinePieces(shift: int, norm: real, lengths: Option<(nat, nat)>)
    requires norm >= 0.0
    ensures PerShiftPieces(PerShiftLine(shift, norm, lengths), IntToString(shift), Fixed3(norm), LengthsText(lengths))
  {
    Fixed3Ends(norm);
    DigitsQuiet(Fixed3(norm));
    LengthsQuiet(lengths);
  }

  /** The per-shift line cut where the per-shift patterns' tokens meet. */
  lemma {:induction false} PerShiftShape(line: string, i: string, f: string, r: string) returns (sp: string)
    requires line == " Shift " + PadLeft(i, 3) + ": DTW-norm = " + f + r
    ensures PadRun(sp)
    ensures |sp| + |i| == 1 + |PadLeft(i, 3)|
    ensures line == " " + ("Shift" + (sp + (i + (": " + ("DTW-norm" + (" " + ("=" + (" " + (f + r)))))))))
  {
    var pad := PaddedSplit(i);
    SplitShiftWord(" Shift ", "Shift");
    SplitSeparator(": DTW-norm = ", "DTW-norm", "=");
    PerShiftRegroup(" Shift ", "Shift", pad, i, ": DTW-norm = ", "DTW-norm", "=", f, r);
    sp := " " + pad;
  }

  /** `\s+` over the padding and the shift after it, followed by the rest of the pattern. */
  lemma {:induction false} ShiftThen(toks: seq<Token>, tail: seq<Token>, line: string, p: nat, i: string, x: string, ci: bool, m: Match, res: Option<Match>)
    requires toks == [Shift] + tail && IsIntLiteral(i) && x != [] && x[0] == ':'
    requires p <= |line| && line[p..] == i + x
    requires p + |i| <= |line| ==> MatchFrom(tail, line, p + |i|, ci, m.(shift := i)) == res
    ensures MatchFrom(toks, line, p, ci, m) == res
  {
    ShiftStep(toks, tail, line, p, i, x, ci, m);
  }

  lemma {:induction false} PaddedShiftThen(toks: seq<Token>, tail: seq<Token>, line: string, p: nat, sp: string, i: string, x: string, ci: bool, m: Match, res: Option<Match>)
    requires toks == [Spaces(1)] + ([Shift] + tail)
    requires PadRun(sp)
    requires IsIntLiteral(i) && x != [] && x[0] == ':'
    requires p <= |line| && line[p..] == sp + (i + x)
    requires p + |sp| + |i| <= |line| ==> MatchFrom(tail, line, p + |sp| + |i|, ci, m.(shift := i)) == res
    ensures MatchFrom(toks, line, p, ci, m) == res
  {
    assert (i + x)[0] == i[0];
    NormSuffix(line, p, sp, i + x);
    ShiftThen([Shift] + tail, tail, line, p + |sp|, i, x, ci, m, res);
    SpacesRunThen(toks, [Shift] + tail, line, p, sp, i + x, ci, m, res);
  }

  /** `Shift`, the padded shift and the `:` after it, for both per-shift patterns; `w` is
      the `Shift` of the line. */
  lemma {:induction false} ShiftHeadMatch(toks: seq<Token>, word: string, w: string, tail: seq<Token>, line: string, sp: string, i: string, x: string, e: nat, ci: bool, m: Match, res: Option<Match>)
    requires toks == [Text(word)] + ([Spaces(1)] + ([Shift] + tail)) && word == (if ci then Lowercase(w) else w) && |w| == 5
    requires PadRun(sp)
    requires IsIntLiteral(i) && x != [] && x[0] == ':'
    requires 1 <= |line| && line[1..] == w + (sp + (i + x)) && e == 6 + |sp| + |i|
    requires e <= |line| ==> MatchFrom(tail, line, e, ci, m.(shift := i)) == res
    ensures MatchFrom(toks, line, 1, ci, m) == res
  {
    var t1 := [Spaces(1)] + ([Shift] + tail);
    NormSuffix(line, 1, w, sp + (i + x));
    PaddedShiftThen(t1, tail, line, 6, sp, i, x, ci, m, res);
    LitThen(toks, word, t1, line, 1, w, sp + (i + x), ci, m, res);
  }

  /** Neither per-shift pattern starts at the line's leading space. */
  lemma {:induction false} LeadingSpaceNoMatch(pat: Pattern, line: string)
    requires pat == ShiftThenNorm || pat == AutoPerShift
    requires line != [] && line[0] == ' '
    ensures MatchAt(pat, line, 0).None?
  {
    var toks := Tokens(pat);
    PerShiftTokens();
    assert toks[0] == Text(if pat == ShiftThenNorm then "shift" else "Shift");
    if MatchAt(pat, line, 0).Some? {
      MatchAtStart(pat, line, 0);
      WindowsParser.UnfoldStep(toks, line, 0, IgnoresCase(pat), Match(0, "", ""));
      LitChars(line, 0, toks[0].lit, IgnoresCase(pat), 0);
    }
  }

  /** The per-shift line has no `w-` after the `w` of its `DTW-norm`. */
  lemma {:induction false} NormRestNoBigram(f: string, r: string)
    requires Quiet(f) && Quiet(r) && f != [] && IsDigit(f[|f| - 1])
    ensures NoBigram("-norm" + (" " + ("=" + (" " + (f + r)))), 'w', '-')
  {
    var s := "-norm = ";
    QuietFromIff(s, 0);
    QuietConcat(s, f);
    assert (s + f)[|s + f| - 1] == f[|f| - 1];
    QuietConcat(s + f, r);
    assert "-norm" + (" " + ("=" + (" " + (f + r)))) == s + f + r;
    QuietBigrams(s + f + r);
  }

  lemma {:induction false} NoBigramFromSuffix(s: string, i: nat, a: char, b: char)
    requires i <= |s| && NoBigram(s[i..], a, b)
    ensures NoBigramFrom(s, i, a, b)
  {
    NoBigramFromIff(s[i..], 0, a, b);
    NoBigramFromIff(s, i, a, b);
    forall q | i <= q && q + 1 < |s| ensures !(Lower(s[q]) == a && Lower(s[q + 1]) == b) {
      assert s[q] == s[i..][q - i] && s[q + 1] == s[i..][q - i + 1];
    }
  }

  lemma {:induction false} NoBigramFromLater(s: string, i: nat, j: nat, a: char, b: char)
    requires i <= j && NoBigramFrom(s, i, a, b)
    ensures NoBigramFrom(s, j, a, b)
  {
    NoBigramFromIff(s, i, a, b);
    NoBigramFromIff(s, j, a, b);
  }

  /** The slices of a per-shift line cut as `PerShiftShape` cuts it, where `z` is what
      follows the `: ` after the shift. */
  lemma {:induction false} ShapeCuts(line: string, sp: string, i: string, z: string)
    requires line == " " + ("Shift" + (sp + (i + (": " + z))))
    ensures |line| == 8 + |sp| + |i| + |z| && line[0] == ' ' && line[1] == 'S'
    ensures line[1..] == "Shift" + (sp + (i + (": " + z)))
    ensures line[6 + |sp| + |i|..] == ": " + z && line[8 + |sp| + |i|..] == z
  {
    assert line[0..] == line;
    NormSuffix(line, 0, " ", "Shift" + (sp + (i + (": " + z))));
    NormSuffix(line, 1, "Shift", sp + (i + (": " + z)));
    NormSuffix(line, 6, sp, i + (": " + z));
    NormSuffix(line, 6 + |sp|, i, ": " + z);
    NormSuffix(line, 6 + |sp| + |i|, ": ", z);
  }

  /** What follows the `: ` of a per-shift line has no `w-` from the `-` of `DTW-norm` on. */
  lemma {:induction false} NormRestFrom(z: string, f: string, r: string)
    requires z == "DTW-norm" + (" " + ("=" + (" " + (f + r))))
    requires Quiet(f) && Quiet(r) && f != [] && IsDigit(f[|f| - 1])
    ensures |z| == 11 + |f| + |r| && NoBigramFrom(z, 3, 'w', '-')
  {
    var y := "-norm" + (" " + ("=" + (" " + (f + r))));
    assert z == "DTW" + y;
    assert z[3..] == y;
    NormRestNoBigram(f, r);
    NoBigramFromSuffix(z, 3, 'w', '-');
  }

  /** A bigram-free tail of `line` from `t` on keeps `line` free of it from `t + k` on. */
  lemma {:induction false} NoBigramFromShift(line: string, t: nat, z: string, k: nat, a: char, b: char)
    requires t <= |line| && line[t..] == z && NoBigramFrom(z, k, a, b)
    ensures NoBigramFrom(line, t + k, a, b)
  {
    NoBigramFromIff(z, k, a, b);
    NoBigramFromIff(line, t + k, a, b);
    forall q | t + k <= q && q + 1 < |line| ensures !(Lower(line[q]) == a && Lower(line[q + 1]) == b) {
      assert line[q] == z[q - t] && line[q + 1] == z[q - t + 1];
    }
  }

  /** The third summary pattern's tail where `DTW-norm = {norm:.3f}` starts. */
  lemma {:induction false} ThirdTailAt(line: string, t: nat, z: string, i: string, f: string, r: string)
    requires NormStart(f, r)
    requires z == "DTW-norm" + (" " + ("=" + (" " + (f + r))))
    requires t <= |line| && line[t..] == z
    ensures MatchFrom(WindowsParser.NormTail, line, t, true, Match(1, i, "")) == Some(Match(t + 11 + |f|, i, f))
  {
    NormTailMatch(line, t, f, r, Match(1, i, ""));
  }

  /** The third summary pattern from the `S` of `Shift` comes to its `.*` (the first of
      `rest`) at the `:`, `e`; `w` is the `Shift` of the line. */
  lemma {:induction false} PerShiftThirdHead(pat: Pattern, rest: seq<Token>, line: string, w: string, sp: string, i: string, x: string, e: nat)
    requires pat == ShiftThenNorm && rest == [AnyThen] + WindowsParser.NormTail && Lowercase(w) == "shift" && |w| == 5
    requires PadRun(sp)
    requires IsIntLiteral(i) && x != [] && x[0] == ':'
    requires 1 <= |line| && line[1..] == w + (sp + (i + x)) && e == 6 + |sp| + |i|
    ensures e <= |line| && MatchAt(pat, line, 1) == MatchFrom(rest, line, e, true, Match(1, i, ""))
  {
    var m := Match(1, "", "");
    NormSuffix(line, 1, w, sp + (i + x));
    NormSuffix(line, 6, sp, i + x);
    PerShiftTokens();
    MatchAtStart(pat, line, 1);
    ShiftHeadMatch(Tokens(pat), "shift", w, rest, line, sp, i, x, e, true, m, MatchFrom(rest, line, e, true, m.(shift := i)));
  }

  /** The `.*` step of the third summary pattern, on any line whose tail matches at `t`, past
      the `.*` at `e`, and has no `w-` after it. */
  lemma {:induction false} ThirdPatternGlue(pat: Pattern, rest: seq<Token>, line: string, e: nat, t: nat, i: string, res: Option<Match>)
    requires pat == ShiftThenNorm && rest == [AnyThen] + WindowsParser.NormTail
    requires e <= t <= |line| && res.Some?
    requires MatchAt(pat, line, 1) == MatchFrom(rest, line, e, true, Match(1, i, ""))
    requires MatchFrom(WindowsParser.NormTail, line, t, true, Match(1, i, "")) == res
    requires NoBigramFrom(line, t + 3, 'w', '-')
    ensures MatchAt(pat, line, 1) == res
  {
    AnyThenOnlyTail(line, e, t, Match(1, i, ""), res);
  }

  /** `line` cut as a per-shift line: after its first character come the word `w`, the
      padding `sp`, the shift `i`, `: ` and `z`. */
  predicate ShiftCut(line: string, w: string, sp: string, i: string, z: string) {
    && PadRun(sp) && IsIntLiteral(i) && |w| == 5 && |line| > 1 && line[0] == ' '
    && 8 + |sp| + |i| <= |line| && line[1..] == w + (sp + (i + (": " + z)))
  }

  lemma {:induction false} ShiftCutOf(line: string, sp: string, i: string, z: string)
    requires PadRun(sp) && IsIntLiteral(i)
    requires line == " " + ("Shift" + (sp + (i + (": " + z))))
    ensures ShiftCut(line, "Shift", sp, i, z) && line[8 + |sp| + |i|..] == z
    ensures line[6 + |sp| + |i|..] == ": " + z
  {
    ShapeCuts(line, sp, i, z);
  }

  /** The third summary pattern's tail matches at `t`, capturing `f`, and no `w-` follows. */
  predicate ThirdTailFrom(line: string, t: nat, i: string, f: string) {
    && t <= |line|
    && MatchFrom(WindowsParser.NormTail, line, t, true, Match(1, i, "")) == Some(Match(t + 11 + |f|, i, f))
    && NoBigramFrom(line, t + 3, 'w', '-')
  }

  lemma {:induction false} ThirdShapeTail(line: string, t: nat, z: string, i: string, f: string, r: string)
    requires NormPieces(f, r)
    requires z == "DTW-norm" + (" " + ("=" + (" " + (f + r))))
    requires t <= |line| && line[t..] == z
    ensures ThirdTailFrom(line, t, i, f)
  {
    NormRestFrom(z, f, r);
    NoBigramFromShift(line, t, z, 3, 'w', '-');
    ThirdTailAt(line, t, z, i, f, r);
  }

  /** The third summary pattern from the `S` of a line cut as a per-shift line is, with
      `DTW-norm` at `t`. */
  lemma {:induction false} ThirdPatternOnCuts(pat: Pattern, line: string, w: string, sp: string, i: string, z: string, f: string, t: nat)
    requires pat == ShiftThenNorm && Lowercase(w) == "shift"
    requires ShiftCut(line, w, sp, i, z) && t == 8 + |sp| + |i| && ThirdTailFrom(line, t, i, f)
    ensures MatchAt(pat, line, 1) == Some(Match(t + 11 + |f|, i, f))
  {
    var rest := [AnyThen] + WindowsParser.NormTail;
    var e: nat := 6 + |sp| + |i|;
    assert (": " + z)[0] == ':';
    PerShiftThirdHead(pat, rest, line, w, sp, i, ": " + z, e);
    ThirdPatternGlue(pat, rest, line, e, t, i, Some(Match(t + 11 + |f|, i, f)));
  }

  /** The third summary pattern on a per-shift line cut by `PerShiftShape`, with `DTW-norm`
      at `t`. */
  lemma {:induction false} ThirdPatternOnShape(pat: Pattern, line: string, w: string, sp: string, i: string, z: string, f: string, r: string, t: nat)
    requires pat == ShiftThenNorm && Lowercase(w) == "shift" && NormPieces(f, r)
    requires z == "DTW-norm" + (" " + ("=" + (" " + (f + r))))
    requires ShiftCut(line, w, sp, i, z) && t == 8 + |sp| + |i| && line[t..] == z
    ensures var hit := MatchAt(pat, line, 1); hit.Some? && hit.value.shift == i && hit.value.norm == f
  {
    ThirdShapeTail(line, t, z, i, f, r);
    ThirdPatternOnCuts(pat, line, w, sp, i, z, f, t);
  }

  /** The third summary pattern on a per-shift line as `PerShiftShape` cuts it. */
  lemma {:induction false} ThirdPatternOnLine(pat: Pattern, line: string, sp: string, i: string, z: string, f: string, r: string)
    requires pat == ShiftThenNorm && PadRun(sp) && IsIntLiteral(i) && NormPieces(f, r)
    requires z == "DTW-norm" + (" " + ("=" + (" " + (f + r))))
    requires line == " " + ("Shift" + (sp + (i + (": " + z))))
    ensures var hit := MatchAt(pat, line, 1); hit.Some? && hit.value.shift == i && hit.value.norm == f
  {
    var t: nat := 8 + |sp| + |i|;
    ShiftCutOf(line, sp, i, z);
    FoldShift("Shift");
    ThirdPatternOnShape(pat, line, "Shift", sp, i, z, f, r, t);
  }

  /** The Windows pipeline's third summary pattern, `shift\s+(-?\d+).*DTW-norm\s*=\s*([\d.]+)`
      with `re.IGNORECASE`, matches a per-shift line ` Shift {shift:3d}: DTW-norm = {norm:.3f}…`
      from its second character, capturing the printed shift and norm; its first character,
      a space, starts no match. */
  lemma {:induction false} PerShiftLineThirdPattern(shift: int, norm: real, lengths: Option<(nat, nat)>)
    requires norm >= 0.0
    ensures var line := PerShiftLine(shift, norm, lengths);
      && MatchAt(ShiftThenNorm, line, 0).None?
      && var hit := MatchAt(ShiftThenNorm, line, 1);
         hit.Some? && hit.value.shift == IntToString(shift) && hit.value.norm == Fixed3(norm)
  {
    var line, i, f, r := PerShiftLine(shift, norm, lengths), IntToString(shift), Fixed3(norm), LengthsText(lengths);
    PerShiftLinePieces(shift, norm, lengths);
    var sp := PerShiftShape(line, i, f, r);
    ThirdPatternOnLine(ShiftThenNorm, line, sp, i, "DTW-norm" + (" " + ("=" + (" " + (f + r)))), f, r);
    LeadingSpaceNoMatch(ShiftThenNorm, line);
  }

  /** `:\s+` followed by the rest of the pattern over `: ` and what follows it. */
  lemma {:induction false} ColonSpaceThen(toks: seq<Token>, tail: seq<Token>, line: string, e: nat, t: nat, z: string, m: Match, res: Option<Match>)
    requires toks == [Text(":")] + ([Spaces(1)] + tail)
    requires z != [] && z[0] == 'D'
    requires t == e + 2 && t <= |line| && line[e..] == ": " + z && line[t..] == z
    requires MatchFrom(tail, line, t, false, m) == res
    ensures MatchFrom(toks, line, e, false, m) == res
  {
    assert ": " + z == ":" + (" " + z);
    NormSuffix(line, e, ":", " " + z);
    SpaceThen([Spaces(1)] + tail, 1, tail, line, e + 1, z, false, m, res);
    LitThen(toks, ":", [Spaces(1)] + tail, line, e, ":", " " + z, false, m, res);
  }

  /** The colon of the auto pipeline's per-shift pattern, `:\s+DTW-norm\s+=\s+([\d.]+)` (the
      `rest` of it), over `: DTW-norm = {norm:.3f}`, with `DTW-norm` at `t`. */
  lemma {:induction false} AutoTailAt(rest: seq<Token>, line: string, e: nat, t: nat, z: string, i: string, f: string, r: string)
    requires rest == [Text(":")] + ([Spaces(1)] + NormWordTail("DTW-norm", 1))
    requires NormStart(f, r)
    requires z == "DTW-norm" + (" " + ("=" + (" " + (f + r))))
    requires t == e + 2 && t <= |line| && line[e..] == ": " + z && line[t..] == z
    ensures MatchFrom(rest, line, e, false, Match(1, i, "")) == Some(Match(1, i, "").(norm := f).(end := t + 11 + |f|))
  {
    var m := Match(1, i, "");
    var tail := NormWordTail("DTW-norm", 1);
    NormWordTailMatch(tail, line, t, "DTW-norm", "DTW-norm", 1, f, r, false, m);
    ColonSpaceThen(rest, tail, line, e, t, z, m, Some(m.(norm := f).(end := t + 11 + |f|)));
  }

  lemma {:induction false} AutoHeadTokens(pat: Pattern, rest: seq<Token>, w: string)
    requires pat == AutoPerShift && w == "Shift" && rest == [Text(":")] + ([Spaces(1)] + NormWordTail("DTW-norm", 1))
    ensures Tokens(pat) == [Text(w)] + ([Spaces(1)] + ([Shift] + rest)) && !IgnoresCase(pat)
  {
    PerShiftTokens();
    assert [Text(":"), Spaces(1)] + NormWordTail("DTW-norm", 1) == rest;
  }

  /** The auto pipeline's per-shift pattern from the `S` of `Shift`, whose `rest` starts at
      the colon, `e`. */
  lemma {:induction false} PerShiftAutoHead(pat: Pattern, rest: seq<Token>, line: string, w: string, sp: string, i: string, x: string, e: nat, res: Option<Match>)
    requires pat == AutoPerShift && w == "Shift" && rest == [Text(":")] + ([Spaces(1)] + NormWordTail("DTW-norm", 1))
    requires PadRun(sp)
    requires IsIntLiteral(i) && x != [] && x[0] == ':'
    requires 1 <= |line| && line[1..] == w + (sp + (i + x)) && e == 6 + |sp| + |i| && e <= |line|
    requires MatchFrom(rest, line, e, false, Match(1, i, "")) == res
    ensures MatchAt(pat, line, 1) == res
  {
    var m := Match(1, "", "");
    AutoHeadTokens(pat, rest, w);
    MatchAtStart(pat, line, 1);
    ShiftHeadMatch(Tokens(pat), w, w, rest, line, sp, i, x, e, false, m, res);
  }

  /** `re.findall` of the per-shift pattern on a line where it first matches at 1 and no
      `w-` follows. */
  lemma {:induction false} AutoFindAll(pat: Pattern, line: string, t: nat, hit: Match)
    requires pat == AutoPerShift
    requires |line| > 1 && line[0] == ' ' && MatchAt(pat, line, 1) == Some(hit)
    requires t + 3 <= hit.end && NoBigramFrom(line, t + 3, 'w', '-')
    ensures FindAll(pat, line, 0) == [hit]
  {
    LeadingSpaceNoMatch(pat, line);
    FindAllSkip(pat, line, 0);
    NoBigramFromLater(line, t + 3, hit.end, 'w', '-');
    NoNormPattern(line, pat, hit.end);
  }

  /** The auto pipeline's per-shift pattern's `rest` matches from the colon at `e`, with
      `DTW-norm` at `t`, capturing `f`, and no `w-` follows. */
  predicate AutoTailFrom(rest: seq<Token>, line: string, e: nat, t: nat, i: string, f: string) {
    && t == e + 2 && t <= |line|
    && MatchFrom(rest, line, e, false, Match(1, i, "")) == Some(Match(1, i, "").(norm := f).(end := t + 11 + |f|))
    && NoBigramFrom(line, t + 3, 'w', '-')
  }

  lemma {:induction false} AutoShapeTail(rest: seq<Token>, line: string, e: nat, t: nat, z: string, i: string, f: string, r: string)
    requires rest == [Text(":")] + ([Spaces(1)] + NormWordTail("DTW-norm", 1))
    requires NormPieces(f, r)
    requires z == "DTW-norm" + (" " + ("=" + (" " + (f + r))))
    requires t == e + 2 && t <= |line| && line[e..] == ": " + z && line[t..] == z
    ensures AutoTailFrom(rest, line, e, t, i, f)
  {
    NormRestFrom(z, f, r);
    NoBigramFromShift(line, t, z, 3, 'w', '-');
    AutoTailAt(rest, line, e, t, z, i, f, r);
  }

  /** The auto pipeline's per-shift pattern on a line cut as a per-shift line is, with the
      colon at `e` and `DTW-norm` at `t`. */
  lemma {:induction false} AutoMatchOnCuts(pat: Pattern, rest: seq<Token>, line: string, w: string, sp: string, i: string, z: string, f: string, e: nat, t: nat)
    requires pat == AutoPerShift && w == "Shift" && rest == [Text(":")] + ([Spaces(1)] + NormWordTail("DTW-norm", 1))
    requires ShiftCut(line, w, sp, i, z) && e == 6 + |sp| + |i| && AutoTailFrom(rest, line, e, t, i, f)
    ensures FindAll(pat, line, 0) == [Match(1, i, "").(norm := f).(end := t + 11 + |f|)]
  {
    var hit := Match(1, i, "").(norm := f).(end := t + 11 + |f|);
    assert (": " + z)[0] == ':';
    PerShiftAutoHead(pat, rest, line, w, sp, i, ": " + z, e, Some(hit));
    AutoFindAll(pat, line, t, hit);
  }

  /** The auto pipeline's per-shift pattern on a per-shift line cut by `PerShiftShape`. */
  lemma {:induction false} AutoMatchOnShape(pat: Pattern, line: string, sp: string, i: string, z: string, f: string, r: string)
    requires pat == AutoPerShift && PadRun(sp) && IsIntLiteral(i) && NormPieces(f, r)
    requires z == "DTW-norm" + (" " + ("=" + (" " + (f + r))))
    requires line == " " + ("Shift" + (sp + (i + (": " + z))))
    ensures var ms := FindAll(pat, line, 0); |ms| == 1 && ms[0].shift == i && ms[0].norm == f
  {
    var rest := [Text(":")] + ([Spaces(1)] + NormWordTail("DTW-norm", 1));
    var e: nat := 6 + |sp| + |i|;
    var t: nat := e + 2;
    ShiftCutOf(line, sp, i, z);
    ShapeCuts(line, sp, i, z);
    AutoShapeTail(rest, line, e, t, z, i, f, r);
    AutoMatchOnCuts(pat, rest, line, "Shift", sp, i, z, f, e, t);
  }

  /** The auto pipeline's per-shift pattern, `Shift\s+(-?\d+):\s+DTW-norm\s+=\s+([\d.]+)`,
      matches a per-shift line exactly once, from its second character, capturing the printed
      shift and norm. */
  lemma {:induction false} PerShiftLineAutoMatch(shift: int, norm: real, lengths: Option<(nat, nat)>)
    requires norm >= 0.0
    ensures var ms := FindAll(AutoPerShift, PerShiftLine(shift, norm, lengths), 0);
      |ms| == 1 && ms[0].shift == IntToString(shift) && ms[0].norm == Fixed3(norm)
  {
    var line, i, f, r := PerShiftLine(shift, norm, lengths), IntToString(shift), Fixed3(norm), LengthsText(lengths);
    PerShiftLinePieces(shift, norm, lengths);
    var sp := PerShiftShape(line, i, f, r);
    AutoMatchOnShape(AutoPerShift, line, sp, i, "DTW-norm" + (" " + ("=" + (" " + (f + r)))), f, r);
  }
}
