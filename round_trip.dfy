/** What the two pipelines read back from the improved search script: the printed summary
    is the first line either parser's summary pattern matches, so both return the best
    shift the search found. */
module RoundTrip {
  import opened Wrappers
  import opened Text
  import opened Numerals
  import opened Patterns
  import opened Extremum
  import opened Sanitizer
  import opened Report
  import opened Recognition
  import opened ShiftSearch
  import opened AutoParser
  import opened WindowsParser

  // ---------------------------------------------------------------------------------------
  // The printed lines, one kind at a time.

  /** The lines that carry no number the parsers look for. */
  predicate Plain(l: Line) {
    l.Shapes? || l.Evaluating? || l.Blank? || l.NoValid?
  }

  lemma {:induction false} PlainQuiet(l: Line)
    requires Plain(l)
    ensures Quiet(Render(l))
  {
    match l
    case Shapes(cleaned, n1, n2, width) =>
      ShapesLineQuiet(if cleaned then CleanedTitle else OriginalTitle, n1, n2, width);
    case Evaluating(lo, hi) => EvaluatingLineQuiet(lo, hi);
    case Blank => NoValidLineQuiet();
    case NoValid => NoValidLineQuiet();
  }

  /** `{shift:3d}`: spaces, then the integer. */
  lemma {:induction false} PaddedIntQuiet(i: int)
    ensures var s := PadLeft(IntToString(i), 3);
      Quiet(s) && s != [] && IsDigit(s[|s| - 1])
  {
    var t := IntToString(i);
    var s := PadLeft(t, 3);
    IntQuiet(i);
    assert s[|s| - 1] == t[|t| - 1];
    if |t| < 3 {
      var pad := seq(3 - |t|, _ => ' ');
      assert s == pad + t;
      QuietNeutral(pad);
      QuietConcat(pad, t);
    }
  }

  /** The separator in the middle of a per-shift line: its `n` is followed by `o`. */
  lemma {:induction false} NormSeparator()
    ensures NoBigram(": DTW-norm = ", 'n', ' ')
  {
    assert NoBigramFrom(": DTW-norm = ", 8, 'n', ' ');
    assert NoBigramFrom(": DTW-norm = ", 4, 'n', ' ');
  }

  lemma {:induction false} ShiftWordQuiet()
    ensures Quiet(" Shift ")
  {
  }

  /** Five pieces without the bigram, none of whose seams makes it. */
  lemma {:induction false} NoBigramFive(a: string, b: string, c: string, d: string, e: string, x: char, y: char)
    requires a != [] && b != [] && c != [] && d != []
    requires NoBigram(a, x, y) && NoBigram(b, x, y) && NoBigram(c, x, y) && NoBigram(d, x, y) && NoBigram(e, x, y)
    requires !(Lower(a[|a| - 1]) == x && Lower(b[0]) == y)
    requires !(Lower(b[|b| - 1]) == x && Lower(c[0]) == y)
    requires !(Lower(c[|c| - 1]) == x && Lower(d[0]) == y)
    requires e == [] || !(Lower(d[|d| - 1]) == x && Lower(e[0]) == y)
    ensures NoBigram(a + b + c + d + e, x, y)
  {
    NoBigramConcat(a, b, x, y);
    assert (a + b)[|a + b| - 1] == b[|b| - 1];
    NoBigramConcat(a + b, c, x, y);
    assert (a + b + c)[|a + b + c| - 1] == c[|c| - 1];
    NoBigramConcat(a + b + c, d, x, y);
    assert (a + b + c + d)[|a + b + c + d| - 1] == d[|d| - 1];
    NoBigramConcat(a + b + c + d, e, x, y);
  }

  lemma {:induction false} QuietHasNoSpaceAfterN(s: string)
    requires Quiet(s)
    ensures NoBigram(s, 'n', ' ')
  {
    QuietBigrams(s);
  }

  /** A per-shift line has no `n ` (in either case), which the English summary needs. */
  lemma {:induction false} PerShiftNoBigram(shift: int, norm: real, lengths: Option<(nat, nat)>)
    ensures NoBigram(PerShiftLine(shift, norm, lengths), 'n', ' ')
  {
    NormSeparator();
    PerShiftNoPair(shift, norm, lengths, 'n', ' ');
  }

  /** The separator in the middle of a per-shift line has no `最小`. */
  lemma {:induction false} MinSeparator()
    ensures NoBigram(": DTW-norm = ", '最', '小')
  {
    NoBigramFromIff(": DTW-norm = ", 0, '最', '小');
  }

  /** A quiet string has none of the bigrams the patterns need. */
  lemma {:induction false} QuietNoPair(s: string, x: char, y: char)
    requires Quiet(s) && BadPair(x, y)
    ensures NoBigram(s, x, y)
  {
    QuietBigrams(s);
  }

  /** A per-shift line has none of the bigrams the patterns need that its separator lacks:
      every other piece is quiet, and each piece ends in a space, a digit or a point. */
  lemma {:induction false} PerShiftNoPair(shift: int, norm: real, lengths: Option<(nat, nat)>, x: char, y: char)
    requires BadPair(x, y) && NoBigram(": DTW-norm = ", x, y)
    ensures NoBigram(PerShiftLine(shift, norm, lengths), x, y)
  {
    var a, b, c, d, e := " Shift ", PadLeft(IntToString(shift), 3), ": DTW-norm = ", Fixed3(norm), LengthsText(lengths);
    ShiftWordQuiet();
    QuietNoPair(a, x, y);
    PaddedIntQuiet(shift);
    QuietNoPair(b, x, y);
    DigitsQuiet(d);
    QuietNoPair(d, x, y);
    LengthsQuiet(lengths);
    QuietNoPair(e, x, y);
    Fixed3NotEmpty(norm);
    assert a[|a| - 1] == ' ' && c[|c| - 1] == ' ';
    NoBigramFive(a, b, c, d, e, x, y);
  }

  lemma {:induction false} Fixed3NotEmpty(x: real)
    ensures Fixed3(x) != [] && Lower(Fixed3(x)[|Fixed3(x)| - 1]) != 'n'
  {
    if x < 0.0 {
      assert Fixed3(x) == "-" + Fixed3Magnitude(-x);
    }
  }

  /** Neither English summary pattern matches a line printed before the summary. */
  lemma {:induction false} NoSummaryBefore(l: Line, pat: Pattern)
    requires pat == AutoSummary || pat == SummaryEn
    requires Plain(l) || l.PerShift?
    ensures FindAll(pat, Render(l), 0) == []
  {
    if Plain(l) {
      PlainQuiet(l);
      QuietNoMatch(Render(l), pat);
    } else {
      PerShiftNoBigram(l.shift, l.norm, l.lengths);
      NoSummaryEn(Render(l), pat);
    }
  }

  /** A string of digits, signs, points and spaces has no newline. */
  lemma {:induction false} NumeralNoNewline(s: string)
    requires forall i | 0 <= i < |s| :: IsDigit(s[i]) || s[i] == '-' || s[i] == '.' || s[i] == ' '
    ensures '\n' !in s
  {
  }

  lemma {:induction false} NumbersNoNewline(i: int, n: nat, x: real)
    ensures '\n' !in IntToString(i) && '\n' !in NatToString(n) && '\n' !in Fixed3(x)
    ensures '\n' !in PadLeft(IntToString(i), 3)
  {
    var t := IntToString(i);
    NumeralNoNewline(NatToString(n));
    NumeralNoNewline(Fixed3(x));
    IntQuiet(i);
    if i < 0 {
      assert t[1..] == NatToString(-i);
    }
    NumeralNoNewline(t);
    var s := PadLeft(t, 3);
    assert forall k | |s| - |t| <= k < |s| :: s[k] == t[k - (|s| - |t|)];
    NumeralNoNewline(s);
  }

  lemma {:induction false} JoinNoNewline(a: string, b: string)
    requires '\n' !in a && '\n' !in b
    ensures '\n' !in a + b
  {
  }

  lemma {:induction false} FiveNoNewline(a: string, b: string, c: string, d: string, e: string)
    requires '\n' !in a && '\n' !in b && '\n' !in c && '\n' !in d && '\n' !in e
    ensures '\n' !in a + b + c + d + e
  {
  }

  // The literal pieces of the printed lines, one at a time (each is checked character by
  // character).

  lemma {:induction false} OriginalTitleNoNewline()
    ensures '\n' !in OriginalTitle
  {
  }

  lemma {:induction false} CleanedTitleNoNewline()
    ensures '\n' !in CleanedTitle
  {
  }

  lemma {:induction false} EvaluatingHeadNoNewline()
    ensures '\n' !in EvaluatingHead
  {
  }

  lemma {:induction false} NoValidLineNoNewline()
    ensures '\n' !in NoValidLine
  {
  }

  lemma {:induction false} NormSeparatorNoNewline()
    ensures '\n' !in ": DTW-norm = "
  {
  }

  lemma {:induction false} LengthsHeadNoNewline()
    ensures '\n' !in " (lengths: "
  {
  }

  lemma {:induction false} RealLeadsNoNewline()
    ensures '\n' !in "→ Real video leads by "
  {
  }

  lemma {:induction false} GeneratedLeadsNoNewline()
    ensures '\n' !in "→ Generated video leads by "
  {
  }

  lemma {:induction false} SynchronizedNoNewline()
    ensures '\n' !in "→ Videos are synchronized"
  {
  }

  lemma {:induction false} ShapesNoNewline(title: string, n1: nat, n2: nat, width: nat)
    requires title == OriginalTitle || title == CleanedTitle
    ensures '\n' !in ShapesLine(title, n1, n2, width)
  {
    OriginalTitleNoNewline();
    CleanedTitleNoNewline();
    NumbersNoNewline(0, n1, 0.0);
    NumbersNoNewline(0, n2, 0.0);
    NumbersNoNewline(0, width, 0.0);
    FiveNoNewline("(", NatToString(n1), ", ", NatToString(width), ")");
    FiveNoNewline("(", NatToString(n2), ", ", NatToString(width), ")");
    FiveNoNewline(title, ": Real=", ShapeText(n1, width), ", Gen=", ShapeText(n2, width));
  }

  lemma {:induction false} EvaluatingNoNewline(lo: int, hi: int)
    ensures '\n' !in EvaluatingLine(lo, hi)
  {
    EvaluatingHeadNoNewline();
    NumbersNoNewline(lo, 0, 0.0);
    NumbersNoNewline(hi, 0, 0.0);
    FiveNoNewline(EvaluatingHead, IntToString(lo), " to ", IntToString(hi), "...");
  }

  lemma {:induction false} PerShiftNoNewline(shift: int, norm: real, lengths: Option<(nat, nat)>)
    ensures '\n' !in PerShiftLine(shift, norm, lengths)
  {
    NumbersNoNewline(shift, 0, norm);
    NormSeparatorNoNewline();
    LengthsNoNewline(lengths);
    FiveNoNewline(" Shift ", PadLeft(IntToString(shift), 3), ": DTW-norm = ", Fixed3(norm), LengthsText(lengths));
  }

  lemma {:induction false} LengthsNoNewline(lengths: Option<(nat, nat)>)
    ensures '\n' !in LengthsText(lengths)
  {
    if lengths.Some? {
      var (n1, n2) := lengths.value;
      LengthsHeadNoNewline();
      NumbersNoNewline(0, n1, 0.0);
      NumbersNoNewline(0, n2, 0.0);
      FiveNoNewline(" (lengths: ", NatToString(n1), ", ", NatToString(n2), ")");
    }
  }

  lemma {:induction false} SummaryNoNewline(kind: string, norm: real, shift: int)
    requires kind == "Min" || kind == "Max"
    ensures '\n' !in SummaryLine(kind, norm, shift)
  {
    NumbersNoNewline(shift, 0, norm);
    FiveNoNewline(kind, " DTW-norm ", Fixed3(norm), " at shift ", IntToString(shift));
  }

  lemma {:induction false} LeadNoNewline(lead: Lead)
    ensures '\n' !in LeadLine(lead)
  {
    match lead
    case RealLeads(n) =>
      RealLeadsNoNewline();
      NumbersNoNewline(0, n, 0.0);
      FiveNoNewline("→ Real video leads by ", NatToString(n), " frames", "", "");
    case GeneratedLeads(n) =>
      GeneratedLeadsNoNewline();
      NumbersNoNewline(0, n, 0.0);
      FiveNoNewline("→ Generated video leads by ", NatToString(n), " frames", "", "");
    case Synchronized =>
      SynchronizedNoNewline();
  }

  /** `print` writes each line as one line: none of them holds a newline. */
  lemma {:induction false} RenderNoNewline(l: Line)
    ensures '\n' !in Render(l)
  {
    match l
    case Shapes(cleaned, n1, n2, width) =>
      ShapesNoNewline(if cleaned then CleanedTitle else OriginalTitle, n1, n2, width);
    case Evaluating(lo, hi) => EvaluatingNoNewline(lo, hi);
    case Blank =>
    case PerShift(shift, norm, lengths) => PerShiftNoNewline(shift, norm, lengths);
    case NoValid => NoValidLineNoNewline();
    case Summary(max, norm, shift) => SummaryNoNewline(if max then "Max" else "Min", norm, shift);
    case Direction(lead) => LeadNoNewline(lead);
  }

  lemma {:induction false} ListingNoNewlines(ls: seq<Line>)
    ensures NoNewlines(RenderAll(ls))
  {
    forall k | 0 <= k < |ls| ensures '\n' !in RenderAll(ls)[k] {
      RenderNoNewline(ls[k]);
    }
  }

  // ---------------------------------------------------------------------------------------
  // The listing the improved script prints.

  /** The best shift the improved script finds and prints, if any. */
  function ImprovedBest(realSeq: Features, genSeq: Features, lo: int, hi: int, removeInvalid: bool,
                        score: (Features, Features) -> real): Option<Scored> {
    var r, g := Searched(Improved, realSeq, removeInvalid), Searched(Improved, genSeq, removeInvalid);
    BestOf(Evaluations(Improved, r, g, lo, hi, score), Minimize)
  }

  lemma {:induction false} HeaderPlain(script: Script, realSeq: Features, genSeq: Features, lo: int, hi: int,
                                       removeInvalid: bool, width: nat)
    ensures var h := Header(script, realSeq, genSeq, lo, hi, removeInvalid, width);
      |h| >= 1 && forall k | 0 <= k < |h| :: Plain(h[k])
  {
  }

  /** The improved script prints plain and per-shift lines, then either the summary of the
      best shift followed by one more line (the direction), or, when no shift was scored,
      `No valid shifts evaluated.` after plain lines only. */
  lemma {:induction false} ListingShape(realSeq: Features, genSeq: Features, lo: int, hi: int,
                                        removeInvalid: bool, width: nat, score: (Features, Features) -> real)
    ensures var ls := Stdout(Improved, realSeq, genSeq, lo, hi, removeInvalid, width, score);
      var best := ImprovedBest(realSeq, genSeq, lo, hi, removeInvalid, score);
      && |ls| >= 2
      && (best.Some? ==>
            && ls[|ls| - 2] == Summary(false, best.value.norm, best.value.shift)
            && forall i | 0 <= i < |ls| - 2 :: Plain(ls[i]) || ls[i].PerShift?)
      && (best.None? ==> forall i | 0 <= i < |ls| :: Plain(ls[i]))
  {
    var r, g := Searched(Improved, realSeq, removeInvalid), Searched(Improved, genSeq, removeInvalid);
    var rs := Evaluations(Improved, r, g, lo, hi, score);
    var best := ImprovedBest(realSeq, genSeq, lo, hi, removeInvalid, score);
    StdoutParts(Improved, realSeq, genSeq, lo, hi, removeInvalid, width, score);
    HeaderPlain(Improved, realSeq, genSeq, lo, hi, removeInvalid, width);
    ShiftLinesAt(Improved, r, g, rs);
    PartsShape(Header(Improved, realSeq, genSeq, lo, hi, removeInvalid, width), ShiftLines(Improved, r, g, rs), best);
  }

  /** The shape of a header, per-shift lines and the improved script's footer. */
  lemma {:induction false} PartsShape(h: seq<Line>, b: seq<Line>, best: Option<Scored>)
    requires |h| >= 1 && forall k | 0 <= k < |h| :: Plain(h[k])
    requires forall k | 0 <= k < |b| :: b[k].PerShift?
    requires best.None? ==> b == []
    ensures var ls := h + b + Footer(Improved, best);
      && |ls| >= 2
      && (best.Some? ==>
            && ls[|ls| - 2] == Summary(false, best.value.norm, best.value.shift)
            && forall i | 0 <= i < |ls| - 2 :: Plain(ls[i]) || ls[i].PerShift?)
      && (best.None? ==> forall i | 0 <= i < |ls| :: Plain(ls[i]))
  {
    var f := Footer(Improved, best);
    var ls := h + b + f;
    if best.Some? {
      assert f == [Blank, Summary(false, best.value.norm, best.value.shift), Direction(LeadOf(best.value.shift))];
      forall i | 0 <= i < |ls| - 2 ensures Plain(ls[i]) || ls[i].PerShift? {
        if i < |h| {
          assert ls[i] == h[i];
        } else if i < |h| + |b| {
          assert ls[i] == b[i - |h|];
        }
      }
    } else {
      assert f == [NoValid];
      forall i | 0 <= i < |ls| ensures Plain(ls[i]) {
        if i < |h| {
          assert ls[i] == h[i];
        }
      }
    }
  }

  /** In the printed listing, followed by any text, the first match of either English summary
      pattern is the summary line: it captures the printed shift and norm. */
  lemma {:induction false} SummaryFirst(ls: seq<Line>, suffix: string, pat: Pattern, norm: real, shift: int)
    requires pat == AutoSummary || pat == SummaryEn
    requires |ls| >= 2 && ls[|ls| - 2] == Summary(false, norm, shift) && norm >= 0.0
    requires forall i | 0 <= i < |ls| - 2 :: Plain(ls[i]) || ls[i].PerShift?
    ensures var ms := TextMatches(pat, Lines(Printed(RenderAll(ls)) + suffix));
      ms != [] && ms[0].shift == IntToString(shift) && ms[0].norm == Fixed3(norm)
  {
    var out := RenderAll(ls);
    ListingNoNewlines(ls);
    LinesOfPrinted(out, suffix);
    var lines := out + Lines(suffix);
    var j := |ls| - 2;
    assert lines[j] == SummaryLine("Min", norm, shift);
    SummaryLineMatch(pat, norm, shift);
    forall i | 0 <= i < j ensures FindAll(pat, lines[i], 0) == [] {
      assert lines[i] == Render(ls[i]);
      NoSummaryBefore(ls[i], pat);
    }
    FirstTextMatch(pat, lines, j, 0);
  }

  /** The auto pipeline reads back the shift the improved script found: the summary line
      decides, and with nothing scored the parser falls back to 0. The printed norm must
      be non-negative (DTW distances are), or `[\d.]+` would not match its sign. */
  lemma {:induction false} AutoRoundTrip(realSeq: Features, genSeq: Features, lo: int, hi: int,
                                         removeInvalid: bool, width: nat, score: (Features, Features) -> real)
    requires var best := ImprovedBest(realSeq, genSeq, lo, hi, removeInvalid, score);
      best.Some? ==> best.value.norm >= 0.0
    ensures var best := ImprovedBest(realSeq, genSeq, lo, hi, removeInvalid, score);
      var text := Printed(RenderAll(Stdout(Improved, realSeq, genSeq, lo, hi, removeInvalid, width, score)));
      Extract(Lines(text)) == if best.Some? then Found(best.value.shift) else Found(0)
  {
    var ls := Stdout(Improved, realSeq, genSeq, lo, hi, removeInvalid, width, score);
    var best := ImprovedBest(realSeq, genSeq, lo, hi, removeInvalid, score);
    var text := Printed(RenderAll(ls));
    assert text + "" == text;
    ListingShape(realSeq, genSeq, lo, hi, removeInvalid, width, score);
    if best.Some? {
      SummaryFirst(ls, "", AutoSummary, best.value.norm, best.value.shift);
      IntToStringValue(best.value.shift);
    } else {
      AutoQuiet(ls, text);
    }
  }

  /** A listing of plain lines gives the auto parser nothing to match: it falls back to 0. */
  lemma {:induction false} AutoQuiet(ls: seq<Line>, text: string)
    requires forall i | 0 <= i < |ls| :: Plain(ls[i])
    requires text == Printed(RenderAll(ls))
    ensures Extract(Lines(text)) == Found(0)
  {
    QuietListing(ls, text);
    var lines := Lines(text);
    TextMatchesQuiet(AutoSummary, lines, []);
    TextMatchesQuiet(AutoPerShift, lines, []);
    assert lines + [] == lines;
  }

  /** A listing of plain lines gives quiet lines only. */
  lemma {:induction false} QuietListing(ls: seq<Line>, text: string)
    requires forall i | 0 <= i < |ls| :: Plain(ls[i])
    requires text == Printed(RenderAll(ls))
    ensures forall k | 0 <= k < |Lines(text)| :: Quiet(Lines(text)[k])
  {
    var out := RenderAll(ls);
    ListingNoNewlines(ls);
    LinesOfPrinted(out, "");
    assert Printed(out) + "" == Printed(out);
    var lines := out + Lines("");
    assert Lines("") == [""];
    forall k | 0 <= k < |lines| ensures Quiet(lines[k]) {
      if k < |out| {
        PlainQuiet(ls[k]);
      } else {
        NoValidLineQuiet();
      }
    }
  }

  // ---------------------------------------------------------------------------------------
  // The Windows pipeline.

  /** A text without a bigram of `t` (after folding) does not contain `t`, folded or not. */
  lemma {:induction false} NotContainsPair(s: string, t: string, k: nat)
    requires k + 1 < |t| && Lower(t[k]) == t[k] && Lower(t[k + 1]) == t[k + 1]
    requires NoBigram(s, t[k], t[k + 1])
    ensures !Contains(s, t) && !Contains(Lowercase(s), t)
  {
    if Contains(s, t) {
      var i :| 0 <= i <= |s| && OccursAt(s, i, t);
      assert s[i + k] == s[i..i + |t|][k] && s[i + k + 1] == s[i..i + |t|][k + 1];
      NoBigramAt(s, t[k], t[k + 1], i + k);
    }
    if Contains(Lowercase(s), t) {
      var l := Lowercase(s);
      var i :| 0 <= i <= |l| && OccursAt(l, i, t);
      assert l[i + k] == l[i..i + |t|][k] && l[i + k + 1] == l[i..i + |t|][k + 1];
      NoBigramAt(s, t[k], t[k + 1], i + k);
    }
  }

  /** The line scan passes a quiet line by: every keyword has a bigram a quiet line lacks
      (`eo` in `video`, `動画` in the Japanese ones). */
  lemma {:induction false} QuietVerdict(line: string)
    requires Quiet(line)
    ensures LineVerdict(line).None?
  {
    QuietBigrams(line);
    NotContainsPair(line, RealLeadsEn, 8);
    NotContainsPair(line, GeneratedLeadsEn, 13);
    NotContainsPair(line, RealLeadsJa, 2);
    NotContainsPair(line, GeneratedLeadsJa, 2);
  }

  lemma {:induction false} QuietLineScan(lines: seq<string>)
    requires forall k | 0 <= k < |lines| :: Quiet(lines[k])
    ensures LineScan(lines).None?
  {
    if lines != [] {
      QuietVerdict(lines[0]);
      QuietLineScan(lines[1..]);
    }
  }

  /** No stage of the Windows parser finds anything in quiet lines, so it gives 0. */
  lemma {:induction false} QuietText(lines: seq<string>)
    requires forall k | 0 <= k < |lines| :: Quiet(lines[k])
    ensures SummaryStage(lines, 0).None? && ArgminStage(lines).None? && LineScan(lines).None?
  {
    assert lines + [] == lines;
    TextMatchesQuiet(SummaryEn, lines, []);
    TextMatchesQuiet(SummaryJa, lines, []);
    TextMatchesQuiet(ShiftThenNorm, lines, []);
    assert SummaryStage(lines, 3).None?;
    TextMatchesQuiet(PerShiftEn, lines, []);
    TextMatchesQuiet(PerShiftJa, lines, []);
    assert PerShiftMatches(lines) == [];
    QuietLineScan(lines);
  }

  /** The Windows pipeline reads back the shift the improved script found, whatever the
      script wrote to standard error; with nothing scored and nothing on standard error it
      gives 0. The printed norm must be non-negative, as for the auto pipeline. */
  lemma {:induction false} WindowsRoundTrip(realSeq: Features, genSeq: Features, lo: int, hi: int,
                                            removeInvalid: bool, width: nat, score: (Features, Features) -> real,
                                            stderr: string)
    requires var best := ImprovedBest(realSeq, genSeq, lo, hi, removeInvalid, score);
      best.Some? ==> best.value.norm >= 0.0
    ensures var best := ImprovedBest(realSeq, genSeq, lo, hi, removeInvalid, score);
      var text := CombinedOutput(Printed(RenderAll(Stdout(Improved, realSeq, genSeq, lo, hi, removeInvalid, width, score))), stderr);
      && (best.Some? ==> ExtractWindows(text) == best.value.shift)
      && (best.None? && stderr == [] ==> ExtractWindows(text) == 0)
  {
    var ls := Stdout(Improved, realSeq, genSeq, lo, hi, removeInvalid, width, score);
    var best := ImprovedBest(realSeq, genSeq, lo, hi, removeInvalid, score);
    var out := RenderAll(ls);
    var suffix := if stderr == [] then "" else "\n" + stderr;
    var text := Printed(out) + suffix;
    assert CombinedOutput(Printed(out), stderr) == text;
    ListingShape(realSeq, genSeq, lo, hi, removeInvalid, width, score);
    if best.Some? {
      WindowsSummary(ls, suffix, best.value.norm, best.value.shift);
    } else if stderr == [] {
      assert text == Printed(out);
      QuietListing(ls, text);
      QuietText(Lines(text));
    }
  }

  /** The English summary decides the Windows parser's first stage on the listing. */
  lemma {:induction false} WindowsSummary(ls: seq<Line>, suffix: string, norm: real, shift: int)
    requires |ls| >= 2 && ls[|ls| - 2] == Summary(false, norm, shift) && norm >= 0.0
    requires forall i | 0 <= i < |ls| - 2 :: Plain(ls[i]) || ls[i].PerShift?
    ensures ExtractWindows(Printed(RenderAll(ls)) + suffix) == shift
  {
    var text := Printed(RenderAll(ls)) + suffix;
    SummaryFirst(ls, suffix, SummaryEn, norm, shift);
    IntToStringValue(shift);
    ListingNotBlank(ls, suffix, norm, shift);
  }

  /** The listing is not blank: its summary line starts with `M`. */
  lemma {:induction false} ListingNotBlank(ls: seq<Line>, suffix: string, norm: real, shift: int)
    requires |ls| >= 2 && ls[|ls| - 2] == Summary(false, norm, shift)
    ensures !IsBlank(Printed(RenderAll(ls)) + suffix)
  {
    var out := RenderAll(ls);
    ListingNoNewlines(ls);
    LinesOfPrinted(out, suffix);
    var j := |ls| - 2;
    assert out[j] == SummaryLine("Min", norm, shift);
    SummaryStartsWithM(norm, shift);
    NotBlank(Printed(out) + suffix, j, 0);
  }

  lemma {:induction false} SummaryStartsWithM(norm: real, shift: int)
    ensures var line := SummaryLine("Min", norm, shift); line != [] && line[0] == 'M'
  {
    KindFirst("Min", norm, shift);
  }

  /** A summary line starts with the first character of its kind. */
  lemma {:induction false} KindFirst(kind: string, norm: real, shift: int)
    requires kind != []
    ensures var line := SummaryLine(kind, norm, shift); line != [] && line[0] == kind[0]
  {
    var a := kind + " DTW-norm ";
    var b := a + Fixed3(norm);
    var c := b + " at shift ";
    assert a[0] == kind[0] && b[0] == a[0] && c[0] == b[0];
    assert SummaryLine(kind, norm, shift) == c + IntToString(shift);
  }

  /** A text one of whose lines has a character other than white space is not blank. */
  lemma {:induction false} NotBlank(text: string, j: nat, c: nat)
    requires j < |Lines(text)| && c < |Lines(text)[j]| && !IsSpace(Lines(text)[j][c])
    ensures !IsBlank(text)
  {
    if IsBlank(text) {
      BlankLines(text);
      assert false;
    }
  }
}
