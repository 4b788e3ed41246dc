/** `extract_optimal_shift` of `run_evaluation_pipeline_auto.py`: the shift the pipeline
    reads back from the improved search script's standard output. */
module AutoParser {
  import opened Wrappers
  import opened Text
  import opened Numerals
  import opened Patterns
  import opened Extremum

  /** The parser returns a shift, or `float()` raises `ValueError` on a norm such as `1.2.3`;
      nothing in the parser catches it, and the pipeline's `main` turns it into exit
      status 1. */
  datatype Outcome = Found(shift: int) | ValueError

  /** The parser on the lines of the text. The first summary match decides; without one,
      the per-shift matches do. */
  function Extract(lines: seq<string>): Outcome {
    Decide(TextMatches(AutoSummary, lines), TextMatches(AutoPerShift, lines))
  }

  /** The decision on the two patterns' matches. */
  function Decide(summaries: seq<Match>, ms: seq<Match>): Outcome
    requires summaries != [] ==> IsIntLiteral(summaries[0].shift)
    requires forall k | 0 <= k < |ms| :: IsIntLiteral(ms[k].shift)
  {
    if summaries != [] then Found(IntValue(summaries[0].shift))
    else Fallback(ms)
  }

  /** The per-shift stage: every match is converted in order (the first bad norm raises),
      the running minimum with a strict `<` from infinity wins, and 0 when there is no
      match. */
  function Fallback(ms: seq<Match>): Outcome
    requires forall k | 0 <= k < |ms| :: IsIntLiteral(ms[k].shift)
  {
    if !AllConvertible(ms) then ValueError
    else
      match BestOf(Candidates(ms), Minimize)
      case Some(b) => Found(b.shift)
      case None => Found(0)
  }

  /** The parser as written: `re.search` for the summary, then the loop over the
      `re.findall` results. */
  method ExtractOptimalShift(text: string) returns (r: Outcome)
    ensures r == Extract(Lines(text))
  {
    var lines := Lines(text);
    var summaries := TextMatches(AutoSummary, lines);
    if summaries != [] {
      return Found(IntValue(summaries[0].shift));
    }
    var ms := TextMatches(AutoPerShift, lines);
    if ms != [] {
      var raised, best := LowestNorm(ms);
      if raised {
        return ValueError;
      }
      if best.Some? {
        return Found(best.value.shift);
      }
    }
    return Found(0);
  }

  /** The loop over the per-shift matches: `best_shift`/`best_norm` start at `None`/infinity
      (`best == None` here), each norm is converted in turn, and a strictly smaller one
      replaces the best; a norm that does not convert raises at once. */
  method LowestNorm(ms: seq<Match>) returns (raised: bool, best: Option<Scored>)
    requires forall k | 0 <= k < |ms| :: IsIntLiteral(ms[k].shift)
    ensures raised <==> !AllConvertible(ms)
    ensures !raised ==> AllConvertible(ms) && best == BestOf(Candidates(ms), Minimize)
  {
    raised, best := false, None;
    var i := 0;
    while i < |ms|
      invariant 0 <= i <= |ms|
      invariant AllConvertible(ms[..i])
      invariant best == BestOf(Candidates(ms[..i]), Minimize)
    {
      var m := ms[i];
      if !FloatConvertible(m.norm) {
        return true, best;
      }
      var x := Scored(IntValue(m.shift), DecimalValue(m.norm));
      LowestNormStep(ms, i);
      if best.None? || x.norm < best.value.norm {
        best := Some(x);
      }
      i := i + 1;
    }
    assert ms[..i] == ms;
  }

  /** One turn of the loop. */
  lemma {:induction false} LowestNormStep(ms: seq<Match>, i: nat)
    requires i < |ms| && forall k | 0 <= k < |ms| :: IsIntLiteral(ms[k].shift)
    requires AllConvertible(ms[..i]) && FloatConvertible(ms[i].norm)
    ensures AllConvertible(ms[..i + 1])
    ensures BestOf(Candidates(ms[..i + 1]), Minimize) ==
      var b := BestOf(Candidates(ms[..i]), Minimize);
      var x := Scored(IntValue(ms[i].shift), DecimalValue(ms[i].norm));
      if b.None? || x.norm < b.value.norm then Some(x) else b
  {
    assert ms[..i + 1] == ms[..i] + [ms[i]];
    CandidatesSnoc(ms[..i], ms[i]);
    BestOfSnoc(Candidates(ms[..i]), Scored(IntValue(ms[i].shift), DecimalValue(ms[i].norm)), Minimize);
  }

  /** Where the per-shift stage's result comes from: it raises exactly when some norm does
      not convert, gives 0 exactly when there is no match, and otherwise the shift of one of
      the matches. */
  lemma {:induction false} FallbackOrigin(ms: seq<Match>)
    requires forall k | 0 <= k < |ms| :: IsIntLiteral(ms[k].shift)
    ensures Fallback(ms) == ValueError <==> exists k | 0 <= k < |ms| :: !FloatConvertible(ms[k].norm)
    ensures ms == [] ==> Fallback(ms) == Found(0)
    ensures Fallback(ms).Found? && ms != [] ==>
      exists k | 0 <= k < |ms| :: Fallback(ms).shift == IntValue(ms[k].shift)
  {
    if AllConvertible(ms) && ms != [] {
      var xs := Candidates(ms);
      CandidatesAt(ms);
      var b := BestOf(xs, Minimize).value;
      var k :| 0 <= k < |xs| && xs[k] == b;
      assert Fallback(ms).shift == IntValue(ms[k].shift);
    }
  }

  /** How a result can come about from the summary matches and the per-shift matches: it is
      `ValueError` exactly when there is no summary and some per-shift norm does not
      convert; otherwise it is the shift of the first summary match, of a per-shift match,
      or 0 when neither pattern matches. */
  predicate Explained(r: Outcome, summaries: seq<Match>, ms: seq<Match>)
    requires summaries != [] ==> IsIntLiteral(summaries[0].shift)
    requires forall k | 0 <= k < |ms| :: IsIntLiteral(ms[k].shift)
  {
    && (r == ValueError <==> summaries == [] && exists k | 0 <= k < |ms| :: !FloatConvertible(ms[k].norm))
    && (summaries == [] && ms == [] ==> r == Found(0))
    && (r.Found? ==>
          || (r.shift == 0 && summaries == [] && ms == [])
          || (summaries != [] && r.shift == IntValue(summaries[0].shift))
          || (summaries == [] && exists k | 0 <= k < |ms| :: r.shift == IntValue(ms[k].shift)))
  }

  /** Where the parser's result comes from. */
  lemma {:induction false} ExtractOrigin(lines: seq<string>)
    ensures Explained(Extract(lines), TextMatches(AutoSummary, lines), TextMatches(AutoPerShift, lines))
  {
    var summaries, ms := TextMatches(AutoSummary, lines), TextMatches(AutoPerShift, lines);
    DecideOrigin(summaries, ms);
  }

  lemma {:induction false} DecideOrigin(summaries: seq<Match>, ms: seq<Match>)
    requires summaries != [] ==> IsIntLiteral(summaries[0].shift)
    requires forall k | 0 <= k < |ms| :: IsIntLiteral(ms[k].shift)
    ensures Explained(Decide(summaries, ms), summaries, ms)
  {
    if summaries == [] {
      FallbackOrigin(ms);
    }
  }

  /** The first summary match in text order decides, whatever follows it: a match at
      position `p` of line `j`, with no match on an earlier line or earlier on line `j`. */
  lemma {:induction false} FirstSummaryWins(lines: seq<string>, j: nat, p: nat)
    requires j < |lines| && MatchAt(AutoSummary, lines[j], p).Some?
    requires forall i | 0 <= i < j :: FindAll(AutoSummary, lines[i], 0) == []
    requires forall q | 0 <= q < p :: MatchAt(AutoSummary, lines[j], q).None?
    ensures Extract(lines) == Found(IntValue(MatchAt(AutoSummary, lines[j], p).value.shift))
  {
    FirstTextMatch(AutoSummary, lines, j, p);
  }

  /** Without a summary, and with every norm convertible, the result is the shift of the
      first per-shift match with the smallest norm. */
  lemma {:induction false} FallbackIsFirstMinimum(ms: seq<Match>)
    requires forall k | 0 <= k < |ms| :: IsIntLiteral(ms[k].shift)
    requires ms != [] && AllConvertible(ms)
    ensures exists i | 0 <= i < |ms| ::
      && IsFirstOptimum(Candidates(ms), Minimize, i)
      && Fallback(ms) == Found(IntValue(ms[i].shift))
  {
    var xs := Candidates(ms);
    BestIsFirstOptimum(xs, Minimize);
    var i := Best(xs, Minimize).value;
    assert Fallback(ms) == Found(xs[i].shift);
    CandidatesAt(ms);
    assert xs[i].shift == IntValue(ms[i].shift);
  }
}
