/** The two parsers on a listing that has per-shift lines but no summary line: header
    lines, then the per-shift lines, and nothing after them. The Windows pipeline's third
    summary pattern, `shift\s+(-?\d+).*DTW-norm\s*=\s*([\d.]+)` with `re.IGNORECASE`,
    matches every per-shift line, so its summary stage already decides on the first one and
    the argmin stage after it never runs; the auto pipeline's fallback takes the lowest
    printed norm. */
module PartialListing {
  import opened Wrappers
  import opened Text
  import opened Numerals
  import opened Patterns
  import opened Extremum
  import opened Report
  import opened Recognition
  import opened AutoParser
  import opened WindowsParser
  import opened RoundTrip

  /** `ls` is `n` header lines followed by at least one per-shift line, every norm
      non-negative (DTW distances are). */
  predicate Partial(ls: seq<Line>, n: nat) {
    && n < |ls|
    && (forall i | 0 <= i < n :: Plain(ls[i]))
    && (forall i | n <= i < |ls| :: ls[i].PerShift? && ls[i].norm >= 0.0)
  }

  /** The lines of a printed listing: the rendered lines, then the empty rest after the last
      newline. */
  lemma {:induction false} PrintedLines(ls: seq<Line>)
    ensures Lines(Printed(RenderAll(ls))) == RenderAll(ls) + [""]
  {
    ListingNoNewlines(ls);
    LinesOfPrinted(RenderAll(ls), "");
    assert Printed(RenderAll(ls)) + "" == Printed(RenderAll(ls));
  }

  lemma {:induction false} EmptyLineNoMatch(pat: Pattern)
    requires pat != Integer
    ensures FindAll(pat, "", 0) == []
  {
    assert Quiet("");
    QuietNoMatch("", pat);
  }

  /** No summary pattern of either pipeline matches a header or a per-shift line. */
  lemma {:induction false} NoSummaryLine(l: Line, pat: Pattern)
    requires pat == AutoSummary || pat == SummaryEn || pat == SummaryJa
    requires Plain(l) || l.PerShift?
    ensures FindAll(pat, Render(l), 0) == []
  {
    if pat != SummaryJa {
      NoSummaryBefore(l, pat);
    } else if Plain(l) {
      PlainQuiet(l);
      QuietNoMatch(Render(l), pat);
    } else {
      MinSeparator();
      PerShiftNoPair(l.shift, l.norm, l.lengths, '最', '小');
      NoJaSummary(Render(l));
    }
  }

  lemma {:induction false} NoJaSummary(line: string)
    requires NoBigram(line, '最', '小')
    ensures FindAll(SummaryJa, line, 0) == []
  {
    assert Tokens(SummaryJa)[0].lit == "最小dtw正規化距離";
    NoMatchWithoutBigram(SummaryJa, line, 0, 0, 0);
  }

  /** No summary pattern matches anywhere in the printed listing. */
  lemma {:induction false} NoSummaryInListing(ls: seq<Line>, n: nat, pat: Pattern)
    requires Partial(ls, n)
    requires pat == AutoSummary || pat == SummaryEn || pat == SummaryJa
    ensures TextMatches(pat, Lines(Printed(RenderAll(ls)))) == []
  {
    var lines := RenderAll(ls) + [""];
    PrintedLines(ls);
    forall i | 0 <= i < |lines| ensures FindAll(pat, lines[i], 0) == [] {
      if i < |ls| {
        NoSummaryLine(ls[i], pat);
      } else {
        EmptyLineNoMatch(pat);
      }
    }
    TextMatchesNone(pat, lines);
  }

  /** The printed listing line by line: quiet header lines, then the per-shift lines as
      `print` writes them, then the empty rest. */
  lemma {:induction false} ListingShape(ls: seq<Line>, n: nat)
    requires Partial(ls, n)
    ensures var lines := Lines(Printed(RenderAll(ls)));
      && |lines| == |ls| + 1 && lines[|ls|] == ""
      && (forall i | 0 <= i < n :: Quiet(lines[i]))
      && (forall i | n <= i < |ls| :: lines[i] == PerShiftLine(ls[i].shift, ls[i].norm, ls[i].lengths))
  {
    PrintedLines(ls);
    forall i | 0 <= i < n ensures Quiet(RenderAll(ls)[i]) {
      PlainQuiet(ls[i]);
    }
    RenderedPerShift(ls, n);
  }

  lemma {:induction false} RenderedPerShift(ls: seq<Line>, n: nat)
    requires Partial(ls, n)
    ensures forall i | n <= i < |ls| :: RenderAll(ls)[i] == PerShiftLine(ls[i].shift, ls[i].norm, ls[i].lengths)
  {
    forall i | n <= i < |ls| ensures RenderAll(ls)[i] == PerShiftLine(ls[i].shift, ls[i].norm, ls[i].lengths) {
      RenderPerShift(ls[i]);
    }
  }

  lemma {:induction false} RenderPerShift(l: Line)
    requires l.PerShift?
    ensures Render(l) == PerShiftLine(l.shift, l.norm, l.lengths)
  {
  }

  /** The first match in a text whose lines before line `n` are quiet and whose line `n`
      matches from its second character on. */
  lemma {:induction false} FirstAfterQuiet(pat: Pattern, lines: seq<string>, n: nat)
    requires pat != Integer && n < |lines|
    requires forall i | 0 <= i < n :: Quiet(lines[i])
    requires MatchAt(pat, lines[n], 0).None? && MatchAt(pat, lines[n], 1).Some?
    ensures TextMatches(pat, lines) != [] && TextMatches(pat, lines)[0] == MatchAt(pat, lines[n], 1).value
  {
    forall i | 0 <= i < n ensures FindAll(pat, lines[i], 0) == [] {
      QuietNoMatch(lines[i], pat);
    }
    FirstTextMatch(pat, lines, n, 1);
  }

  /** The third summary pattern's first match in the printed listing is on the first
      per-shift line, and captures its printed shift and norm. */
  lemma {:induction false} ThirdPatternFirst(ls: seq<Line>, n: nat)
    requires Partial(ls, n)
    ensures var ms := TextMatches(ShiftThenNorm, Lines(Printed(RenderAll(ls))));
      ms != [] && ms[0].shift == IntToString(ls[n].shift) && ms[0].norm == Fixed3(ls[n].norm)
  {
    var lines := Lines(Printed(RenderAll(ls)));
    var l := ls[n];
    ListingShape(ls, n);
    PerShiftLineThirdPattern(l.shift, l.norm, l.lengths);
    FirstAfterQuiet(ShiftThenNorm, lines, n);
  }

  /** A per-shift line's second character is the `S` of `Shift`. */
  lemma {:induction false} PerShiftSecond(shift: int, norm: real, lengths: Option<(nat, nat)>)
    ensures var line := PerShiftLine(shift, norm, lengths); |line| > 1 && line[1] == 'S'
  {
    var a := " Shift ";
    var b := a + PadLeft(IntToString(shift), 3);
    var c := b + ": DTW-norm = ";
    var d := c + Fixed3(norm);
    assert b[1] == a[1] && c[1] == b[1] && d[1] == c[1];
    assert PerShiftLine(shift, norm, lengths) == d + LengthsText(lengths);
  }

  lemma {:induction false} PartialNotBlank(ls: seq<Line>, n: nat)
    requires Partial(ls, n)
    ensures !IsBlank(Printed(RenderAll(ls)))
  {
    var l := ls[n];
    PrintedLines(ls);
    assert Lines(Printed(RenderAll(ls)))[n] == PerShiftLine(l.shift, l.norm, l.lengths);
    PerShiftSecond(l.shift, l.norm, l.lengths);
    NotBlank(Printed(RenderAll(ls)), n, 1);
  }

  /** The Windows pipeline returns the shift of the first per-shift line, whatever the norms:
      neither the English nor the Japanese summary matches, and the third summary pattern's
      first match converts. */
  lemma {:induction false} WindowsTakesFirstPerShift(ls: seq<Line>, n: nat)
    requires Partial(ls, n)
    ensures ExtractWindows(Printed(RenderAll(ls))) == ls[n].shift
  {
    var lines := Lines(Printed(RenderAll(ls)));
    NoSummaryInListing(ls, n, SummaryEn);
    NoSummaryInListing(ls, n, SummaryJa);
    ThirdPatternFirst(ls, n);
    IntToStringValue(ls[n].shift);
    var ms := TextMatches(ShiftThenNorm, lines);
    assert FloatConvertible(ms[0].norm);
    assert SummaryStage(lines, 2) == Some(ls[n].shift);
    assert SummaryStage(lines, 1) == SummaryStage(lines, 2);
    assert SummaryStage(lines, 0) == SummaryStage(lines, 1);
    PartialNotBlank(ls, n);
  }

  /** `line` has exactly one match of `pat`, capturing `shift` and `norm`. */
  predicate OneMatch(pat: Pattern, line: string, shift: string, norm: string) {
    var ms := FindAll(pat, line, 0);
    |ms| == 1 && ms[0].shift == shift && ms[0].norm == norm
  }

  /** Lines with one match each, then a line without one: the matches in the text are those
      of the lines, in order. */
  lemma {:induction false} OneMatchPerLine(pat: Pattern, lines: seq<string>, ss: seq<string>, fs: seq<string>)
    requires |lines| == |ss| + 1 && |fs| == |ss|
    requires forall k | 0 <= k < |ss| :: OneMatch(pat, lines[k], ss[k], fs[k])
    requires FindAll(pat, lines[|ss|], 0) == []
    ensures var ms := TextMatches(pat, lines);
      |ms| == |ss| && forall k | 0 <= k < |ss| :: ms[k].shift == ss[k] && ms[k].norm == fs[k]
    decreases |ss|
  {
    assert lines == [lines[0]] + lines[1..];
    TextMatchesCons(pat, lines[0], lines[1..]);
    if ss == [] {
      assert lines[1..] == [];
    } else {
      OneMatchPerLine(pat, lines[1..], ss[1..], fs[1..]);
      var ms := TextMatches(pat, lines);
      assert ms == FindAll(pat, lines[0], 0) + TextMatches(pat, lines[1..]);
      forall k | 0 <= k < |ss| ensures ms[k].shift == ss[k] && ms[k].norm == fs[k] {
        if k > 0 {
          assert ms[k] == TextMatches(pat, lines[1..])[k - 1];
        }
      }
    }
  }

  /** The shifts and norms the per-shift lines print. */
  function PrintedShifts(ls: seq<Line>, n: nat): (ss: seq<string>)
    requires Partial(ls, n)
    ensures |ss| == |ls| - n && forall k {:trigger ss[k]} | 0 <= k < |ss| :: ss[k] == IntToString(ls[n + k].shift)
  {
    seq(|ls| - n, k requires 0 <= k < |ls| - n => IntToString(ls[n + k].shift))
  }

  function PrintedNorms(ls: seq<Line>, n: nat): (fs: seq<string>)
    requires Partial(ls, n)
    ensures |fs| == |ls| - n && forall k {:trigger fs[k]} | 0 <= k < |fs| :: fs[k] == Fixed3(ls[n + k].norm)
  {
    seq(|ls| - n, k requires 0 <= k < |ls| - n => Fixed3(ls[n + k].norm))
  }

  /** The auto pipeline's per-shift matches in the printed listing are the per-shift lines'
      printed shifts and norms, in order. */
  lemma {:induction false} AutoPerShiftMatches(ls: seq<Line>, n: nat)
    requires Partial(ls, n)
    ensures var ms := TextMatches(AutoPerShift, Lines(Printed(RenderAll(ls))));
      && |ms| == |ls| - n
      && forall k {:trigger ms[k]} | 0 <= k < |ms| :: ms[k].shift == IntToString(ls[n + k].shift) && ms[k].norm == Fixed3(ls[n + k].norm)
  {
    var lines := Lines(Printed(RenderAll(ls)));
    ListingShape(ls, n);
    var ss, fs := PrintedShifts(ls, n), PrintedNorms(ls, n);
    PerShiftOneMatch(ls, n, lines, ss, fs);
    EmptyLineNoMatch(AutoPerShift);
    QuietThenOnePerLine(AutoPerShift, lines, n, ss, fs);
  }

  lemma {:induction false} PerShiftOneMatch(ls: seq<Line>, n: nat, lines: seq<string>, ss: seq<string>, fs: seq<string>)
    requires Partial(ls, n) && ss == PrintedShifts(ls, n) && fs == PrintedNorms(ls, n)
    requires |lines| == |ls| + 1
    requires forall i | n <= i < |ls| :: lines[i] == PerShiftLine(ls[i].shift, ls[i].norm, ls[i].lengths)
    ensures forall k | 0 <= k < |ss| :: OneMatch(AutoPerShift, lines[n + k], ss[k], fs[k])
  {
    forall k | 0 <= k < |ss| ensures OneMatch(AutoPerShift, lines[n + k], ss[k], fs[k]) {
      var l := ls[n + k];
      PerShiftLineAutoMatch(l.shift, l.norm, l.lengths);
    }
  }

  /** Quiet lines, then lines with one match each, then a line without one. */
  lemma {:induction false} QuietThenOnePerLine(pat: Pattern, lines: seq<string>, n: nat, ss: seq<string>, fs: seq<string>)
    requires pat != Integer && |lines| == n + |ss| + 1 && |fs| == |ss|
    requires forall i | 0 <= i < n :: Quiet(lines[i])
    requires forall k | 0 <= k < |ss| :: OneMatch(pat, lines[n + k], ss[k], fs[k])
    requires FindAll(pat, lines[n + |ss|], 0) == []
    ensures var ms := TextMatches(pat, lines);
      |ms| == |ss| && forall k | 0 <= k < |ss| :: ms[k].shift == ss[k] && ms[k].norm == fs[k]
  {
    var lead, rest := lines[..n], lines[n..];
    assert lines == lead + rest;
    TextMatchesQuiet(pat, lead, rest);
    assert forall k | 0 <= k <= |ss| :: rest[k] == lines[n + k];
    OneMatchPerLine(pat, rest, ss, fs);
  }

  /** The first optimum of the candidates, in terms of the lines: the norms are read back
      from `{norm:.3f}`, so they compare as their thousandths do. */
  lemma {:induction false} PrintedOptimum(ls: seq<Line>, n: nat, ms: seq<Match>, i: nat, k: nat)
    requires Partial(ls, n) && |ms| == |ls| - n && k == n + i
    requires forall q {:trigger ms[q]} | 0 <= q < |ms| :: ms[q].shift == IntToString(ls[n + q].shift) && ms[q].norm == Fixed3(ls[n + q].norm)
    requires AllConvertible(ms) && forall q | 0 <= q < |ms| :: IsIntLiteral(ms[q].shift)
    requires IsFirstOptimum(Candidates(ms), Minimize, i)
    ensures n <= k < |ls|
    ensures forall j | n <= j < |ls| :: Thousandths(ls[k].norm) <= Thousandths(ls[j].norm)
    ensures forall j | n <= j < k :: Thousandths(ls[k].norm) < Thousandths(ls[j].norm)
  {
    CandidateNorms(ls, n, ms);
    PrintedLowest(ls, n, ms, i, k);
    PrintedEarlier(ls, n, ms, i, k);
  }

  lemma {:induction false} PrintedLowest(ls: seq<Line>, n: nat, ms: seq<Match>, i: nat, k: nat)
    requires Partial(ls, n) && |ms| == |ls| - n && k == n + i
    requires AllConvertible(ms) && forall q | 0 <= q < |ms| :: IsIntLiteral(ms[q].shift)
    requires forall q | 0 <= q < |ms| :: Candidates(ms)[q].norm == Thousandths(ls[n + q].norm) as real / 1000.0
    requires IsFirstOptimum(Candidates(ms), Minimize, i)
    ensures forall j | n <= j < |ls| :: Thousandths(ls[k].norm) <= Thousandths(ls[j].norm)
  {
    var xs := Candidates(ms);
    forall j | n <= j < |ls| ensures Thousandths(ls[k].norm) <= Thousandths(ls[j].norm) {
      assert !Better(Minimize, xs[j - n].norm, xs[i].norm);
    }
  }

  lemma {:induction false} PrintedEarlier(ls: seq<Line>, n: nat, ms: seq<Match>, i: nat, k: nat)
    requires Partial(ls, n) && |ms| == |ls| - n && k == n + i
    requires AllConvertible(ms) && forall q | 0 <= q < |ms| :: IsIntLiteral(ms[q].shift)
    requires forall q | 0 <= q < |ms| :: Candidates(ms)[q].norm == Thousandths(ls[n + q].norm) as real / 1000.0
    requires IsFirstOptimum(Candidates(ms), Minimize, i)
    ensures forall j | n <= j < k :: Thousandths(ls[k].norm) < Thousandths(ls[j].norm)
  {
    var xs := Candidates(ms);
    forall j | n <= j < k ensures Thousandths(ls[k].norm) < Thousandths(ls[j].norm) {
      assert Better(Minimize, xs[i].norm, xs[j - n].norm);
    }
  }

  /** The candidates' norms are the printed norms read back. */
  lemma {:induction false} CandidateNorms(ls: seq<Line>, n: nat, ms: seq<Match>)
    requires Partial(ls, n) && |ms| == |ls| - n
    requires forall q {:trigger ms[q]} | 0 <= q < |ms| :: ms[q].shift == IntToString(ls[n + q].shift) && ms[q].norm == Fixed3(ls[n + q].norm)
    requires AllConvertible(ms) && forall q | 0 <= q < |ms| :: IsIntLiteral(ms[q].shift)
    ensures forall q | 0 <= q < |ms| :: Candidates(ms)[q].norm == Thousandths(ls[n + q].norm) as real / 1000.0
  {
    CandidatesAt(ms);
    forall q | 0 <= q < |ms| ensures Candidates(ms)[q].norm == Thousandths(ls[n + q].norm) as real / 1000.0 {
      Fixed3Value(ls[n + q].norm);
    }
  }

  /** Without a summary line, the auto parser's result is the shift of the first optimum of
      the per-shift candidates. */
  lemma {:induction false} FallbackChoice(lines: seq<string>) returns (i: nat)
    requires TextMatches(AutoSummary, lines) == []
    requires var ms := TextMatches(AutoPerShift, lines); ms != [] && AllConvertible(ms)
    ensures var ms := TextMatches(AutoPerShift, lines);
      && i < |ms| && IsFirstOptimum(Candidates(ms), Minimize, i)
      && Extract(lines) == Found(IntValue(ms[i].shift))
  {
    var ms := TextMatches(AutoPerShift, lines);
    assert Extract(lines) == Fallback(ms);
    FallbackIsFirstMinimum(ms);
    i :| 0 <= i < |ms| && IsFirstOptimum(Candidates(ms), Minimize, i) && Fallback(ms) == Found(IntValue(ms[i].shift));
  }

  /** The fallback on the per-shift matches of a listing decides on the first lowest
      printed norm. */
  lemma {:induction false} AutoLowest(ls: seq<Line>, n: nat, lines: seq<string>) returns (k: nat)
    requires Partial(ls, n)
    requires TextMatches(AutoSummary, lines) == []
    requires var ms := TextMatches(AutoPerShift, lines);
      && |ms| == |ls| - n
      && forall q {:trigger ms[q]} | 0 <= q < |ms| :: ms[q].shift == IntToString(ls[n + q].shift) && ms[q].norm == Fixed3(ls[n + q].norm)
    ensures n <= k < |ls|
    ensures Extract(lines) == Found(ls[k].shift)
    ensures forall j | n <= j < |ls| :: Thousandths(ls[k].norm) <= Thousandths(ls[j].norm)
    ensures forall j | n <= j < k :: Thousandths(ls[k].norm) < Thousandths(ls[j].norm)
  {
    var ms := TextMatches(AutoPerShift, lines);
    assert AllConvertible(ms);
    var i := FallbackChoice(lines);
    k := n + i;
    PrintedOptimum(ls, n, ms, i, k);
    IntToStringValue(ls[k].shift);
  }

  /** On the same listing, the auto pipeline returns the shift of the first per-shift line
      with the lowest printed norm. */
  lemma {:induction false} AutoTakesLowestPrinted(ls: seq<Line>, n: nat)
    requires Partial(ls, n)
    ensures exists k | n <= k < |ls| ::
      && Extract(Lines(Printed(RenderAll(ls)))) == Found(ls[k].shift)
      && (forall j | n <= j < |ls| :: Thousandths(ls[k].norm) <= Thousandths(ls[j].norm))
      && (forall j | n <= j < k :: Thousandths(ls[k].norm) < Thousandths(ls[j].norm))
  {
    var lines := Lines(Printed(RenderAll(ls)));
    NoSummaryInListing(ls, n, AutoSummary);
    AutoPerShiftMatches(ls, n);
    var k := AutoLowest(ls, n, lines);
  }

  /** Two per-shift lines, the second with the lower norm: the Windows pipeline returns the
      first shift tried, the auto pipeline the one with the lower norm. */
  lemma {:induction false} ParsersDisagree()
    ensures var text := Printed(RenderAll([PerShift(0, 2.0, None), PerShift(1, 1.0, None)]));
      ExtractWindows(text) == 0 && Extract(Lines(text)) == Found(1)
  {
    var ls := [PerShift(0, 2.0, None), PerShift(1, 1.0, None)];
    assert Partial(ls, 0);
    WindowsTakesFirstPerShift(ls, 0);
    AutoTakesLowestPrinted(ls, 0);
    var k :| 0 <= k < 2
      && Extract(Lines(Printed(RenderAll(ls)))) == Found(ls[k].shift)
      && (forall j | 0 <= j < 2 :: Thousandths(ls[k].norm) <= Thousandths(ls[j].norm));
    assert Thousandths(ls[0].norm) > Thousandths(ls[1].norm);
  }
}
