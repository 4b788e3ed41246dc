/** The frame-shift search of `compute_dtw_min_diff_improved.py`, `compute_dtw_min_diff.py`
    and `compute_dtw_max_diff.py`: every shift in the range aligns the two feature sequences,
    long enough alignments are scored, and the best score wins. The DTW-normalised distance
    is a parameter `score`. */
module ShiftSearch {
  import opened Wrappers
  import opened Sanitizer
  import opened Extremum
  import opened Report

  /** `s[n:]`: the elements after the first `n`, empty when `n` is past the end. */
  function Drop<T>(s: seq<T>, n: nat): (r: seq<T>)
    ensures |r| == if n <= |s| then |s| - n else 0
    ensures forall k | 0 <= k < |r| :: r[k] == s[k + n]
  {
    if n <= |s| then s[n..] else []
  }

  /** `s[:n]`: the first `n` elements, or all of them when there are fewer. */
  function Take<T>(s: seq<T>, n: nat): (r: seq<T>)
    ensures |r| == if n <= |s| then n else |s|
    ensures forall k | 0 <= k < |r| :: r[k] == s[k]
  {
    if n <= |s| then s[..n] else s
  }

  function PositivePart(i: int): nat {
    if i > 0 then i else 0
  }

  function Min(a: nat, b: nat): nat {
    if a <= b then a else b
  }

  /** The alignment for one shift. A positive shift drops that many leading real frames
      and a negative one drops leading generated frames, so real frame `k + shift` meets
      generated frame `k`; the longer side is then cut to the shorter, except that shift 0
      leaves both sequences whole even when their lengths differ. */
  function Align<T>(realSeq: seq<T>, genSeq: seq<T>, shift: int): (r: (seq<T>, seq<T>))
    ensures shift == 0 ==> r == (realSeq, genSeq)
    ensures shift > 0 ==> |r.0| == PositivePart(|realSeq| - shift) && |r.1| == Min(|genSeq|, |r.0|)
    ensures shift < 0 ==> |r.1| == PositivePart(|genSeq| + shift) && |r.0| == Min(|realSeq|, |r.1|)
  {
    if shift > 0 then
      var s1 := Drop(realSeq, shift);
      (s1, Take(genSeq, |s1|))
    else if shift < 0 then
      var s2 := Drop(genSeq, -shift);
      (Take(realSeq, |s2|), s2)
    else
      (realSeq, genSeq)
  }

  /** Which frames meet: position `k` of the aligned pair holds real frame `k + shift` and
      generated frame `k` for a positive shift, real frame `k` and generated frame `k - shift`
      for a negative one. */
  lemma {:induction false} AlignFrames<T>(realSeq: seq<T>, genSeq: seq<T>, shift: int)
    ensures var (s1, s2) := Align(realSeq, genSeq, shift);
      && (forall k | 0 <= k < |s1| :: s1[k] == realSeq[k + PositivePart(shift)])
      && (forall k | 0 <= k < |s2| :: s2[k] == genSeq[k + PositivePart(-shift)])
      && |s1| <= |realSeq| && |s2| <= |genSeq|
  {
  }

  datatype Script = Improved | MinDiff | MaxDiff

  /** The improved and min-diff scripts keep the smallest norm, the max-diff script the
      largest. */
  function ObjectiveOf(script: Script): Objective {
    if script == MaxDiff then Maximize else Minimize
  }

  /** The length check before scoring: `len(s1) >= 10` in the improved script, `len(s1) >= 2`
      in the min-diff script, both lengths at least 2 in the max-diff script. */
  predicate Passes<T>(script: Script, s1: seq<T>, s2: seq<T>) {
    match script
    case Improved => |s1| >= 10
    case MinDiff => |s1| >= 2
    case MaxDiff => |s1| >= 2 && |s2| >= 2
  }

  /** Whether the script scores `shift` rather than skipping it. */
  predicate Evaluated(script: Script, realSeq: Features, genSeq: Features, shift: int) {
    var r := Align(realSeq, genSeq, shift);
    Passes(script, r.0, r.1)
  }

  /** The norm a shift gets. */
  function Norm(realSeq: Features, genSeq: Features, shift: int, score: (Features, Features) -> real): real {
    var r := Align(realSeq, genSeq, shift);
    score(r.0, r.1)
  }

  function Shifts(rs: seq<Scored>): (ss: seq<int>)
    ensures |ss| == |rs| && forall k | 0 <= k < |rs| :: ss[k] == rs[k].shift
  {
    seq(|rs|, k requires 0 <= k < |rs| => rs[k].shift)
  }

  /** The `results` list of the improved script (and the shifts the other two score): every
      shift from `lo` to `hi` inclusive that passes the length check, in ascending order,
      with its norm, and no other shift. */
  function Evaluations(script: Script, realSeq: Features, genSeq: Features, lo: int, hi: int,
                       score: (Features, Features) -> real): seq<Scored>
    decreases hi - lo
  {
    if hi < lo then []
    else
      var rs := Evaluations(script, realSeq, genSeq, lo, hi - 1, score);
      if Evaluated(script, realSeq, genSeq, hi) then rs + [Scored(hi, Norm(realSeq, genSeq, hi, score))] else rs
  }

  /** Every entry of `rs` is a shift from `lo` to `hi` that passes the check, with its own
      norm, and the shifts ascend. */
  predicate Sound(script: Script, realSeq: Features, genSeq: Features, lo: int, hi: int,
                  score: (Features, Features) -> real, rs: seq<Scored>) {
    && (forall k | 0 <= k < |rs| ::
          && lo <= rs[k].shift <= hi
          && Evaluated(script, realSeq, genSeq, rs[k].shift)
          && rs[k].norm == Norm(realSeq, genSeq, rs[k].shift, score))
    && (forall k, l | 0 <= k < l < |rs| :: rs[k].shift < rs[l].shift)
  }

  /** The list holds only shifts of the range that pass the check, each with its own norm,
      in ascending order. */
  lemma {:induction false} EvaluationsSound(script: Script, realSeq: Features, genSeq: Features, lo: int, hi: int,
                                            score: (Features, Features) -> real)
    ensures Sound(script, realSeq, genSeq, lo, hi, score, Evaluations(script, realSeq, genSeq, lo, hi, score))
    decreases hi - lo
  {
    if hi >= lo {
      EvaluationsSound(script, realSeq, genSeq, lo, hi - 1, score);
      var rs := Evaluations(script, realSeq, genSeq, lo, hi - 1, score);
      if Evaluated(script, realSeq, genSeq, hi) {
        SoundSnoc(script, realSeq, genSeq, lo, hi, score, rs, Scored(hi, Norm(realSeq, genSeq, hi, score)));
      }
    }
  }

  lemma {:induction false} SoundSnoc(script: Script, realSeq: Features, genSeq: Features, lo: int, hi: int,
                                     score: (Features, Features) -> real, rs: seq<Scored>, x: Scored)
    requires Sound(script, realSeq, genSeq, lo, hi - 1, score, rs)
    requires lo <= x.shift == hi && Evaluated(script, realSeq, genSeq, hi) && x.norm == Norm(realSeq, genSeq, hi, score)
    ensures Sound(script, realSeq, genSeq, lo, hi, score, rs + [x])
  {
    var ys := rs + [x];
    forall k | 0 <= k < |ys|
      ensures lo <= ys[k].shift <= hi && Evaluated(script, realSeq, genSeq, ys[k].shift)
      ensures ys[k].norm == Norm(realSeq, genSeq, ys[k].shift, score)
    {
      if k < |rs| {
        assert ys[k] == rs[k];
      }
    }
    forall k, l | 0 <= k < l < |ys| ensures ys[k].shift < ys[l].shift {
      assert ys[k] == rs[k];
      if l < |rs| {
        assert ys[l] == rs[l];
      }
    }
  }

  /** One step of the definition, for the loop that builds the list. */
  lemma {:induction false} EvaluationsStep(script: Script, realSeq: Features, genSeq: Features, lo: int, hi: int,
                        score: (Features, Features) -> real)
    requires lo <= hi
    ensures Evaluations(script, realSeq, genSeq, lo, hi, score) ==
      var rs := Evaluations(script, realSeq, genSeq, lo, hi - 1, score);
      if Evaluated(script, realSeq, genSeq, hi) then rs + [Scored(hi, Norm(realSeq, genSeq, hi, score))] else rs
  {
  }

  /** No shift that passes the check is left out of the list. */
  lemma {:induction false} EvaluationsComplete(script: Script, realSeq: Features, genSeq: Features, lo: int, hi: int,
                                               score: (Features, Features) -> real, s: int)
    requires lo <= s <= hi && Evaluated(script, realSeq, genSeq, s)
    ensures s in Shifts(Evaluations(script, realSeq, genSeq, lo, hi, score))
    decreases hi - lo
  {
    var rs := Evaluations(script, realSeq, genSeq, lo, hi - 1, score);
    if s == hi {
      assert Shifts(rs + [Scored(hi, Norm(realSeq, genSeq, hi, score))])[|rs|] == s;
    } else {
      EvaluationsComplete(script, realSeq, genSeq, lo, hi - 1, score, s);
      var k :| 0 <= k < |rs| && Shifts(rs)[k] == s;
      if Evaluated(script, realSeq, genSeq, hi) {
        assert Shifts(rs + [Scored(hi, Norm(realSeq, genSeq, hi, score))])[k] == s;
      }
    }
  }

  /** The lengths the improved script prints after each norm. */
  function LengthsShown(script: Script, realSeq: Features, genSeq: Features, shift: int): Option<(nat, nat)> {
    var r := Align(realSeq, genSeq, shift);
    if script == Improved then Some((|r.0|, |r.1|)) else None
  }

  /** The line printed for one scored shift. */
  function ShiftLine(script: Script, realSeq: Features, genSeq: Features, x: Scored): Line {
    PerShift(x.shift, x.norm, LengthsShown(script, realSeq, genSeq, x.shift))
  }

  /** One line per scored shift, in the order the shifts were scored. */
  function ShiftLines(script: Script, realSeq: Features, genSeq: Features, rs: seq<Scored>): seq<Line> {
    if rs == [] then []
    else ShiftLines(script, realSeq, genSeq, rs[..|rs| - 1]) + [ShiftLine(script, realSeq, genSeq, rs[|rs| - 1])]
  }

  lemma {:induction false} ShiftLinesSnoc(script: Script, realSeq: Features, genSeq: Features, rs: seq<Scored>, x: Scored)
    ensures ShiftLines(script, realSeq, genSeq, rs + [x])
      == ShiftLines(script, realSeq, genSeq, rs) + [ShiftLine(script, realSeq, genSeq, x)]
  {
    assert (rs + [x])[..|rs|] == rs;
  }

  /** Line `k` is the line of the `k`-th scored shift. */
  lemma {:induction false} ShiftLinesAt(script: Script, realSeq: Features, genSeq: Features, rs: seq<Scored>)
    ensures var ls := ShiftLines(script, realSeq, genSeq, rs);
      |ls| == |rs| && forall k | 0 <= k < |rs| :: ls[k] == ShiftLine(script, realSeq, genSeq, rs[k])
  {
    if rs != [] {
      var pre := rs[..|rs| - 1];
      var ls, front := ShiftLines(script, realSeq, genSeq, rs), ShiftLines(script, realSeq, genSeq, pre);
      ShiftLinesAt(script, realSeq, genSeq, pre);
      assert ls == front + [ShiftLine(script, realSeq, genSeq, rs[|rs| - 1])];
      forall k | 0 <= k < |rs| ensures ls[k] == ShiftLine(script, realSeq, genSeq, rs[k]) {
        if k < |pre| {
          assert ls[k] == front[k] && rs[k] == pre[k];
        }
      }
    }
  }

  /** What the loop holds once it has handled the shifts from `lo` to `last`: the scored
      shifts, the running best and the printed lines. */
  predicate SearchedUpTo(script: Script, realSeq: Features, genSeq: Features, lo: int, last: int,
                         score: (Features, Features) -> real,
                         results: seq<Scored>, best: Option<Scored>, lines: seq<Line>) {
    && results == Evaluations(script, realSeq, genSeq, lo, last, score)
    && best == BestOf(results, ObjectiveOf(script))
    && lines == ShiftLines(script, realSeq, genSeq, results)
  }

  /** One turn of the loop: align for `shift`, skip it or score it, print its line and
      update the running best. */
  method ScoreShift(script: Script, realSeq: Features, genSeq: Features, lo: int, shift: int,
                    score: (Features, Features) -> real,
                    results: seq<Scored>, best: Option<Scored>, lines: seq<Line>)
    returns (results': seq<Scored>, best': Option<Scored>, lines': seq<Line>)
    requires lo <= shift
    requires SearchedUpTo(script, realSeq, genSeq, lo, shift - 1, score, results, best, lines)
    ensures SearchedUpTo(script, realSeq, genSeq, lo, shift, score, results', best', lines')
  {
    var obj := ObjectiveOf(script);
    var (s1, s2) := Align(realSeq, genSeq, shift);
    EvaluationsStep(script, realSeq, genSeq, lo, shift, score);
    results', best', lines' := results, best, lines;
    if Passes(script, s1, s2) {
      var norm := score(s1, s2);
      var x := Scored(shift, norm);
      BestOfSnoc(results, x, obj);
      ShiftLinesSnoc(script, realSeq, genSeq, results, x);
      results' := results + [x];
      lines' := lines + [PerShift(shift, norm, if script == Improved then Some((|s1|, |s2|)) else None)];
      if best.None? || Better(obj, norm, best.value.norm) {
        best' := Some(x);
      }
    }
  }

  /** The loop of all three scripts: it scores the shifts in order, prints a line per scored
      shift, and keeps the running best with a strict comparison against a start of plus
      (or minus) infinity, which `best == None` stands for here. */
  method SearchShifts(script: Script, realSeq: Features, genSeq: Features, lo: int, hi: int,
                      score: (Features, Features) -> real)
    returns (results: seq<Scored>, best: Option<Scored>, lines: seq<Line>)
    ensures results == Evaluations(script, realSeq, genSeq, lo, hi, score)
    ensures best == BestOf(results, ObjectiveOf(script))
    ensures lines == ShiftLines(script, realSeq, genSeq, results)
  {
    results, best, lines := [], None, [];
    var shift := lo;
    while shift <= hi
      invariant lo <= shift && (shift <= hi + 1 || shift == lo)
      invariant SearchedUpTo(script, realSeq, genSeq, lo, shift - 1, score, results, best, lines)
      decreases hi - shift
    {
      results, best, lines := ScoreShift(script, realSeq, genSeq, lo, shift, score, results, best, lines);
      shift := shift + 1;
    }
    if hi < lo {
      NothingBelow(script, realSeq, genSeq, lo, shift - 1, hi, score);
    }
  }

  /** Ranges that end before `lo` hold no shift. */
  lemma {:induction false} NothingBelow(script: Script, realSeq: Features, genSeq: Features, lo: int, a: int, b: int,
                                        score: (Features, Features) -> real)
    requires a < lo && b < lo
    ensures Evaluations(script, realSeq, genSeq, lo, a, score) == Evaluations(script, realSeq, genSeq, lo, b, score)
  {
  }

  /** What follows the per-shift lines: `No valid shifts evaluated.` when nothing was scored,
      otherwise an empty line, the summary and, in the improved script, the direction. */
  function Footer(script: Script, best: Option<Scored>): seq<Line> {
    match best
    case None => [NoValid]
    case Some(b) =>
      [Blank, Summary(script == MaxDiff, b.norm, b.shift)]
        + if script == Improved then [Direction(LeadOf(b.shift))] else []
  }

  /** The sequences the search runs on: only the improved script has `--remove_invalid`. */
  function Searched(script: Script, frames: Features, removeInvalid: bool): Features {
    Prepared(frames, script == Improved && removeInvalid)
  }

  /** Everything a script prints before its loop. */
  function Header(script: Script, realSeq: Features, genSeq: Features, lo: int, hi: int,
                  removeInvalid: bool, width: nat): seq<Line> {
    if script == Improved then
      [Shapes(false, |realSeq|, |genSeq|, width)]
        + (if removeInvalid
           then [Shapes(true, |Searched(script, realSeq, true)|, |Searched(script, genSeq, true)|, width)]
           else [])
        + [Blank, Evaluating(lo, hi)]
    else
      [Evaluating(lo, hi)]
  }

  /** A script's standard output, line by line; `width` is the number of features per
      frame, which the printed array shapes show. */
  function Stdout(script: Script, realSeq: Features, genSeq: Features, lo: int, hi: int,
                  removeInvalid: bool, width: nat, score: (Features, Features) -> real): seq<Line> {
    var r, g := Searched(script, realSeq, removeInvalid), Searched(script, genSeq, removeInvalid);
    var rs := Evaluations(script, r, g, lo, hi, score);
    Header(script, realSeq, genSeq, lo, hi, removeInvalid, width)
      + ShiftLines(script, r, g, rs)
      + Footer(script, BestOf(rs, ObjectiveOf(script)))
  }

  /** `main()` of a search script after it has loaded the two arrays. */
  method RunScript(script: Script, realSeq: Features, genSeq: Features, lo: int, hi: int,
                   removeInvalid: bool, width: nat, score: (Features, Features) -> real)
    returns (out: seq<Line>, best: Option<Scored>)
    ensures best == BestOf(Evaluations(script, Searched(script, realSeq, removeInvalid),
                                       Searched(script, genSeq, removeInvalid), lo, hi, score), ObjectiveOf(script))
    ensures out == Stdout(script, realSeq, genSeq, lo, hi, removeInvalid, width, score)
  {
    var r, g := realSeq, genSeq;
    out := [];
    if script == Improved {
      out := [Shapes(false, |realSeq|, |genSeq|, width)];
      if removeInvalid {
        var (rc, _) := RemoveInvalidFrames(realSeq, DefaultThreshold);
        var (gc, _) := RemoveInvalidFrames(genSeq, DefaultThreshold);
        out := out + [Shapes(true, |rc|, |gc|, width)];
        r, g := rc, gc;
      }
      out := out + [Blank];
    }
    out := out + [Evaluating(lo, hi)];
    assert out == Header(script, realSeq, genSeq, lo, hi, removeInvalid, width);
    assert r == Searched(script, realSeq, removeInvalid) && g == Searched(script, genSeq, removeInvalid);
    var results, lines;
    results, best, lines := SearchShifts(script, r, g, lo, hi, score);
    out := out + lines + Footer(script, best);
  }

  // ---------------------------------------------------------------------------------------
  // Properties of the search.

  /** The best the search reports is the first optimal shift: it exists exactly when some
      shift in the range is scored, it is scored, no scored shift beats it, and it strictly
      beats every scored shift before it. */
  lemma {:induction false} BestIsFirstOptimalShift(script: Script, realSeq: Features, genSeq: Features, lo: int, hi: int,
                                score: (Features, Features) -> real)
    ensures var best := BestOf(Evaluations(script, realSeq, genSeq, lo, hi, score), ObjectiveOf(script));
      && (best.None? <==> forall s | lo <= s <= hi :: !Evaluated(script, realSeq, genSeq, s))
      && (best.Some? ==>
            && lo <= best.value.shift <= hi
            && Evaluated(script, realSeq, genSeq, best.value.shift)
            && best.value.norm == Norm(realSeq, genSeq, best.value.shift, score)
            && (forall s | lo <= s <= hi && Evaluated(script, realSeq, genSeq, s) ::
                  !Better(ObjectiveOf(script), Norm(realSeq, genSeq, s, score), best.value.norm))
            && (forall s | lo <= s < best.value.shift && Evaluated(script, realSeq, genSeq, s) ::
                  Better(ObjectiveOf(script), best.value.norm, Norm(realSeq, genSeq, s, score))))
  {
    var rs := Evaluations(script, realSeq, genSeq, lo, hi, score);
    if rs == [] {
      NothingScored(script, realSeq, genSeq, lo, hi, score);
    } else {
      BestScored(script, realSeq, genSeq, lo, hi, score);
    }
  }

  lemma {:induction false} NothingScored(script: Script, realSeq: Features, genSeq: Features, lo: int, hi: int,
                                         score: (Features, Features) -> real)
    requires Evaluations(script, realSeq, genSeq, lo, hi, score) == []
    ensures forall s | lo <= s <= hi :: !Evaluated(script, realSeq, genSeq, s)
  {
    forall s | lo <= s <= hi && Evaluated(script, realSeq, genSeq, s) ensures false {
      EvaluationsComplete(script, realSeq, genSeq, lo, hi, score, s);
    }
  }

  lemma {:induction false} BestScored(script: Script, realSeq: Features, genSeq: Features, lo: int, hi: int,
                                      score: (Features, Features) -> real)
    requires Evaluations(script, realSeq, genSeq, lo, hi, score) != []
    ensures var rs := Evaluations(script, realSeq, genSeq, lo, hi, score);
      var obj := ObjectiveOf(script);
      && Best(rs, obj).Some?
      && var b := rs[Best(rs, obj).value];
      && BestOf(rs, obj) == Some(b)
      && lo <= b.shift <= hi && Evaluated(script, realSeq, genSeq, b.shift)
      && b.norm == Norm(realSeq, genSeq, b.shift, score)
      && (forall s | lo <= s <= hi && Evaluated(script, realSeq, genSeq, s) ::
            !Better(obj, Norm(realSeq, genSeq, s, score), b.norm))
      && (forall s | lo <= s < b.shift && Evaluated(script, realSeq, genSeq, s) ::
            Better(obj, b.norm, Norm(realSeq, genSeq, s, score)))
  {
    var rs := Evaluations(script, realSeq, genSeq, lo, hi, score);
    var obj := ObjectiveOf(script);
    EvaluationsSound(script, realSeq, genSeq, lo, hi, score);
    BestIsFirstOptimum(rs, obj);
    var i := Best(rs, obj).value;
    var b := rs[i];
    forall s | lo <= s <= hi && Evaluated(script, realSeq, genSeq, s)
      ensures !Better(obj, Norm(realSeq, genSeq, s, score), b.norm)
      ensures s < b.shift ==> Better(obj, b.norm, Norm(realSeq, genSeq, s, score))
    {
      EvaluationsComplete(script, realSeq, genSeq, lo, hi, score, s);
      FirstOptimumAgainst(script, realSeq, genSeq, lo, hi, score, rs, i, s);
    }
  }

  /** The first optimum of a sound list against any shift the list holds. */
  lemma {:induction false} FirstOptimumAgainst(script: Script, realSeq: Features, genSeq: Features, lo: int, hi: int,
                                               score: (Features, Features) -> real, rs: seq<Scored>, i: nat, s: int)
    requires Sound(script, realSeq, genSeq, lo, hi, score, rs)
    requires IsFirstOptimum(rs, ObjectiveOf(script), i) && s in Shifts(rs)
    ensures !Better(ObjectiveOf(script), Norm(realSeq, genSeq, s, score), rs[i].norm)
    ensures s < rs[i].shift ==> Better(ObjectiveOf(script), rs[i].norm, Norm(realSeq, genSeq, s, score))
  {
    var k :| 0 <= k < |rs| && Shifts(rs)[k] == s;
    assert rs[k].shift == s;
    if s < rs[i].shift {
      assert k < i;
    }
  }

  /** The skip rules in terms of the input lengths. The improved script looks only at the
      real side when the shift is not negative, so it scores alignments whose generated side
      is shorter than 10 frames (even empty); the max-diff script needs both sides. */
  lemma {:induction false} EvaluatedIff(realSeq: Features, genSeq: Features, s: int)
    ensures Evaluated(Improved, realSeq, genSeq, s) <==>
      if s >= 0 then |realSeq| >= s + 10 else |realSeq| >= 10 && |genSeq| >= 10 - s
    ensures Evaluated(MinDiff, realSeq, genSeq, s) <==>
      if s >= 0 then |realSeq| >= s + 2 else |realSeq| >= 2 && |genSeq| >= 2 - s
    ensures Evaluated(MaxDiff, realSeq, genSeq, s) <==>
      if s >= 0 then |realSeq| >= s + 2 && |genSeq| >= 2 else |realSeq| >= 2 && |genSeq| >= 2 - s
  {
  }

  /** With 12 real frames and 5 generated ones the improved script scores shift 0 on
      sequences of lengths 12 and 5. */
  lemma {:induction false} ShortGeneratedSideScored(realSeq: Features, genSeq: Features)
    requires |realSeq| == 12 && |genSeq| == 5
    ensures Evaluated(Improved, realSeq, genSeq, 0) && |Align(realSeq, genSeq, 0).1| < 10
  {
  }

  /** The results of a script whose skips are stricter than another's. */
  function Restrict(script: Script, realSeq: Features, genSeq: Features, rs: seq<Scored>): seq<Scored> {
    if rs == [] then []
    else
      var pre := Restrict(script, realSeq, genSeq, rs[..|rs| - 1]);
      if Evaluated(script, realSeq, genSeq, rs[|rs| - 1].shift) then pre + [rs[|rs| - 1]] else pre
  }

  /** The min-diff script skips least: the improved script (when not cleaning) and the
      max-diff script score a subset of its shifts, with the same norms and in the same
      order. */
  lemma {:induction false} StricterEvaluations(script: Script, realSeq: Features, genSeq: Features, lo: int, hi: int,
                                               score: (Features, Features) -> real)
    ensures Evaluations(script, realSeq, genSeq, lo, hi, score)
      == Restrict(script, realSeq, genSeq, Evaluations(MinDiff, realSeq, genSeq, lo, hi, score))
    decreases hi - lo
  {
    if hi >= lo {
      StricterEvaluations(script, realSeq, genSeq, lo, hi - 1, score);
      var rs := Evaluations(MinDiff, realSeq, genSeq, lo, hi - 1, score);
      if Evaluated(MinDiff, realSeq, genSeq, hi) {
        assert (rs + [Scored(hi, Norm(realSeq, genSeq, hi, score))])[..|rs|] == rs;
      } else {
        assert !Evaluated(script, realSeq, genSeq, hi);
      }
    }
  }

  /** Exactly one of the two endings is printed, and the summary names the best. */
  lemma {:induction false} StdoutEnding(script: Script, realSeq: Features, genSeq: Features, lo: int, hi: int,
                     removeInvalid: bool, width: nat, score: (Features, Features) -> real)
    ensures var out := Stdout(script, realSeq, genSeq, lo, hi, removeInvalid, width, score);
      var rs := Evaluations(script, Searched(script, realSeq, removeInvalid), Searched(script, genSeq, removeInvalid), lo, hi, score);
      var best := BestOf(rs, ObjectiveOf(script));
      && (out[|out| - 1] == NoValid <==> rs == [])
      && (NoValid in out <==> rs == [])
      && (best.Some? ==> Summary(script == MaxDiff, best.value.norm, best.value.shift) in out)
  {
    var r, g := Searched(script, realSeq, removeInvalid), Searched(script, genSeq, removeInvalid);
    var rs := Evaluations(script, r, g, lo, hi, score);
    var best := BestOf(rs, ObjectiveOf(script));
    StdoutParts(script, realSeq, genSeq, lo, hi, removeInvalid, width, score);
    HeaderHasNoEnding(script, realSeq, genSeq, lo, hi, removeInvalid, width);
    FooterShape(script, best);
    Ending(Header(script, realSeq, genSeq, lo, hi, removeInvalid, width), ShiftLines(script, r, g, rs),
           Footer(script, best), best.None?);
  }

  lemma {:induction false} StdoutParts(script: Script, realSeq: Features, genSeq: Features, lo: int, hi: int,
                    removeInvalid: bool, width: nat, score: (Features, Features) -> real)
    ensures var r, g := Searched(script, realSeq, removeInvalid), Searched(script, genSeq, removeInvalid);
      var rs := Evaluations(script, r, g, lo, hi, score);
      && Stdout(script, realSeq, genSeq, lo, hi, removeInvalid, width, score)
           == Header(script, realSeq, genSeq, lo, hi, removeInvalid, width)
              + ShiftLines(script, r, g, rs) + Footer(script, BestOf(rs, ObjectiveOf(script)))
      && forall k | 0 <= k < |ShiftLines(script, r, g, rs)| :: ShiftLines(script, r, g, rs)[k].PerShift?
  {
    var r, g := Searched(script, realSeq, removeInvalid), Searched(script, genSeq, removeInvalid);
    ShiftLinesAt(script, r, g, Evaluations(script, r, g, lo, hi, score));
  }

  lemma {:induction false} HeaderHasNoEnding(script: Script, realSeq: Features, genSeq: Features, lo: int, hi: int,
                          removeInvalid: bool, width: nat)
    ensures NoValid !in Header(script, realSeq, genSeq, lo, hi, removeInvalid, width)
  {
  }

  lemma {:induction false} FooterShape(script: Script, best: Option<Scored>)
    ensures best.None? ==> Footer(script, best) == [NoValid]
    ensures best.Some? ==>
      && |Footer(script, best)| >= 2
      && Footer(script, best)[1] == Summary(script == MaxDiff, best.value.norm, best.value.shift)
      && NoValid !in Footer(script, best)
  {
  }

  /** Where `No valid shifts evaluated.` can be in a listing. */
  lemma {:induction false} Ending(head: seq<Line>, body: seq<Line>, foot: seq<Line>, none: bool)
    requires NoValid !in head && forall k | 0 <= k < |body| :: body[k].PerShift?
    requires none ==> foot == [NoValid]
    requires !none ==> |foot| >= 2 && NoValid !in foot
    ensures var out := head + body + foot;
      && (out[|out| - 1] == NoValid <==> none)
      && (NoValid in out <==> none)
      && (!none ==> foot[1] in out)
  {
    var out := head + body + foot;
    assert NoValid in out <==> NoValid in head || NoValid in body || NoValid in foot;
    assert out[|out| - 1] == foot[|foot| - 1];
    if !none {
      assert out[|head| + |body| + 1] == foot[1];
    }
  }
}
