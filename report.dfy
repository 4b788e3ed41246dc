/** The lines the three search scripts print. */
module Report {
  import opened Wrappers
  import opened Text
  import opened Numerals
  import opened Patterns

  /** `str(arr.shape)` for an array of `n` frames of `width` features: `(n, width)`. */
  function ShapeText(n: nat, width: nat): string {
    "(" + NatToString(n) + ", " + NatToString(width) + ")"
  }

  /** `Original shapes: Real=…, Gen=…` and `After removing invalid: Real=…, Gen=…`. */
  function ShapesLine(title: string, n1: nat, n2: nat, width: nat): string {
    title + ": Real=" + ShapeText(n1, width) + ", Gen=" + ShapeText(n2, width)
  }

  const OriginalTitle := "Original shapes"
  const CleanedTitle := "After removing invalid"

  /** `Evaluating shifts from {min_shift} to {max_shift}...`. */
  function EvaluatingLine(lo: int, hi: int): string {
    EvaluatingHead + IntToString(lo) + " to " + IntToString(hi) + "..."
  }

  /** ` Shift {shift:3d}: DTW-norm = {norm:.3f}`, followed in the improved script by
      ` (lengths: {len(s1)}, {len(s2)})`. */
  function PerShiftLine(shift: int, norm: real, lengths: Option<(nat, nat)>): string {
    " Shift " + PadLeft(IntToString(shift), 3) + ": DTW-norm = " + Fixed3(norm) + LengthsText(lengths)
  }

  function LengthsText(lengths: Option<(nat, nat)>): string {
    match lengths
    case None => ""
    case Some((n1, n2)) => " (lengths: " + NatToString(n1) + ", " + NatToString(n2) + ")"
  }

  const NoValidLine := "No valid shifts evaluated."

  /** `Min DTW-norm {best_norm:.3f} at shift {best_shift}` (or `Max`). */
  function SummaryLine(kind: string, norm: real, shift: int): string {
    kind + " DTW-norm " + Fixed3(norm) + " at shift " + IntToString(shift)
  }

  /** The direction the best shift says, as the improved script and the pipeline report it. */
  datatype Lead = RealLeads(frames: nat) | GeneratedLeads(frames: nat) | Synchronized

  function LeadOf(shift: int): Lead {
    if shift > 0 then RealLeads(shift) else if shift < 0 then GeneratedLeads(-shift) else Synchronized
  }

  /** The shift a lead stands for: the inverse of `LeadOf`. */
  function LeadShift(l: Lead): int {
    match l
    case RealLeads(n) => n
    case GeneratedLeads(n) => -(n as int)
    case Synchronized => 0
  }

  /** `LeadOf` loses nothing: the shift comes back from the lead, and a lead that names a
      count names a positive one. */
  lemma {:induction false} LeadOfShift(shift: int)
    ensures LeadShift(LeadOf(shift)) == shift
    ensures LeadOf(shift).RealLeads? <==> shift > 0
    ensures LeadOf(shift).GeneratedLeads? <==> shift < 0
    ensures !LeadOf(shift).Synchronized? ==> LeadOf(shift).frames > 0
  {
  }

  /** The improved script's lines 80-86. */
  function LeadLine(l: Lead): string {
    match l
    case RealLeads(n) => "→ Real video leads by " + NatToString(n) + " frames"
    case GeneratedLeads(n) => "→ Generated video leads by " + NatToString(n) + " frames"
    case Synchronized => "→ Videos are synchronized"
  }

  /** The Japanese message of the pipeline's lines 235-240. */
  function LeadLineJa(l: Lead): string {
    match l
    case RealLeads(n) => "   → 実写動画が " + NatToString(n) + " フレーム先行"
    case GeneratedLeads(n) => "   → 生成動画が " + NatToString(n) + " フレーム先行"
    case Synchronized => "   → 動画は同期済み"
  }

  /** One line of a search script's standard output, before it is formatted. */
  datatype Line =
    | Shapes(cleaned: bool, n1: nat, n2: nat, width: nat)
    | Evaluating(lo: int, hi: int)
    | Blank
    | PerShift(shift: int, norm: real, lengths: Option<(nat, nat)>)
    | NoValid
    | Summary(max: bool, norm: real, shift: int)
    | Direction(lead: Lead)

  /** The text `print` writes for a line (without its newline). */
  function Render(l: Line): string {
    match l
    case Shapes(cleaned, n1, n2, width) => ShapesLine(if cleaned then CleanedTitle else OriginalTitle, n1, n2, width)
    case Evaluating(lo, hi) => EvaluatingLine(lo, hi)
    case Blank => ""
    case PerShift(shift, norm, lengths) => PerShiftLine(shift, norm, lengths)
    case NoValid => NoValidLine
    case Summary(max, norm, shift) => SummaryLine(if max then "Max" else "Min", norm, shift)
    case Direction(lead) => LeadLine(lead)
  }

  function RenderAll(ls: seq<Line>): (out: seq<string>)
    ensures |out| == |ls| && forall k | 0 <= k < |ls| :: out[k] == Render(ls[k])
  {
    seq(|ls|, k requires 0 <= k < |ls| => Render(ls[k]))
  }

  // ---------------------------------------------------------------------------------------
  // The lines around the per-shift and summary lines are quiet.

  lemma {:induction false} DigitsQuiet(s: string)
    requires forall i | 0 <= i < |s| :: IsDigit(s[i]) || s[i] == '-' || s[i] == '.'
    ensures Quiet(s)
  {
    QuietNeutral(s);
  }

  lemma {:induction false} IntQuiet(i: int)
    ensures Quiet(IntToString(i)) && IntToString(i) != []
    ensures IsDigit(IntToString(i)[0]) || IntToString(i)[0] == '-'
    ensures IsDigit(IntToString(i)[|IntToString(i)| - 1])
  {
    var s := IntToString(i);
    if i < 0 {
      assert s[1..] == NatToString(-i);
      assert s[|s| - 1] == NatToString(-i)[|s| - 2];
    }
    DigitsQuiet(s);
  }

  lemma {:induction false} NatQuiet(n: nat)
    ensures Quiet(NatToString(n)) && IsDigit(NatToString(n)[0])
    ensures IsDigit(NatToString(n)[|NatToString(n)| - 1])
  {
    DigitsQuiet(NatToString(n));
  }

  lemma {:induction false} ShapeQuiet(n: nat, width: nat)
    ensures Quiet(ShapeText(n, width)) && ShapeText(n, width)[0] == '('
      && ShapeText(n, width)[|ShapeText(n, width)| - 1] == ')'
  {
    var a, b := NatToString(n), NatToString(width);
    NatQuiet(n);
    NatQuiet(width);
    assert Quiet("(") && Quiet(", ") && Quiet(")");
    QuietConcat("(", a);
    QuietConcat("(" + a, ", ");
    QuietConcat("(" + a + ", ", b);
    QuietConcat("(" + a + ", " + b, ")");
  }

  lemma {:induction false} TitlesQuiet()
    ensures Quiet(OriginalTitle) && Quiet(CleanedTitle) && Quiet(": Real=") && Quiet(", Gen=")
  {
    OriginalTitleQuiet();
    CleanedTitleQuiet();
  }

  lemma {:induction false} OriginalTitleQuiet()
    ensures Quiet(OriginalTitle)
  {
    assert QuietFrom(OriginalTitle, 8);
  }

  lemma {:induction false} CleanedTitleQuiet()
    ensures Quiet(CleanedTitle)
  {
    assert QuietFrom(CleanedTitle, 16);
    assert QuietFrom(CleanedTitle, 8);
  }

  lemma {:induction false} ShapesLineQuiet(title: string, n1: nat, n2: nat, width: nat)
    requires title == OriginalTitle || title == CleanedTitle
    ensures Quiet(ShapesLine(title, n1, n2, width))
  {
    var r, g := ShapeText(n1, width), ShapeText(n2, width);
    ShapeQuiet(n1, width);
    ShapeQuiet(n2, width);
    TitlesQuiet();
    QuietConcat(title, ": Real=");
    QuietConcat(title + ": Real=", r);
    QuietConcat(title + ": Real=" + r, ", Gen=");
    QuietConcat(title + ": Real=" + r + ", Gen=", g);
  }

  const EvaluatingHead := "Evaluating shifts from "

  lemma {:induction false} EvaluatingPartsQuiet()
    ensures Quiet(EvaluatingHead) && Quiet(" to ") && Quiet("...")
  {
    assert QuietFrom(EvaluatingHead, 16);
    assert QuietFrom(EvaluatingHead, 8);
  }

  lemma {:induction false} EvaluatingLineQuiet(lo: int, hi: int)
    ensures Quiet(EvaluatingLine(lo, hi))
  {
    var head := EvaluatingHead;
    EvaluatingPartsQuiet();
    IntQuiet(lo);
    IntQuiet(hi);
    var a, b := IntToString(lo), IntToString(hi);
    QuietConcat(head, a);
    QuietConcat(head + a, " to ");
    QuietConcat(head + a + " to ", b);
    QuietConcat(head + a + " to " + b, "...");
  }

  lemma {:induction false} NoValidLineQuiet()
    ensures Quiet(NoValidLine) && Quiet("")
  {
    assert QuietFrom(NoValidLine, 16);
    assert QuietFrom(NoValidLine, 8);
  }

  lemma {:induction false} LengthsQuiet(lengths: Option<(nat, nat)>)
    ensures var e := LengthsText(lengths); Quiet(e) && (e != [] ==> e[0] == ' ')
  {
    if lengths.Some? {
      var (n1, n2) := lengths.value;
      var a, b := NatToString(n1), NatToString(n2);
      var h := " (lengths: ";
      assert QuietFrom(h, 6);
      assert Quiet(h) && Quiet(", ") && Quiet(")");
      NatQuiet(n1);
      NatQuiet(n2);
      QuietConcat(h, a);
      QuietConcat(h + a, ", ");
      QuietConcat(h + a + ", ", b);
      QuietConcat(h + a + ", " + b, ")");
    } else {
      NoValidLineQuiet();
    }
  }
}
