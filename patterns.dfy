/** The regular expressions the two shift-decision parsers search with, as a small matcher
    over one line of text.

    Every pattern here is a chain of literals, character-class runs, `-?\d+` and at most one
    greedy `.*`. Each run is followed by a token that cannot begin with a character of the
    run's class (`\s+` by a digit, a letter or `=`, `[\d.]+` by a space or the end of the
    pattern, `\d+` by `:` or by `.*`), so Python's backtracking always settles on the longest
    run, and the matcher takes it at once. The greedy `.*` leaves the rest of the pattern
    to match at the last position of the line where it can. */
module Patterns {
  import opened Wrappers
  import opened Text
  import opened Numerals
  import opened Extremum

  datatype Pattern =
    | AutoSummary    // r"Min DTW-norm\s+[\d.]+\s+at\s+shift\s+(-?\d+)"
    | AutoPerShift   // r"Shift\s+(-?\d+):\s+DTW-norm\s+=\s+([\d.]+)"
    | SummaryEn      // r"Min DTW-norm\s+([\d.]+)\s+at\s+shift\s+(-?\d+)", re.IGNORECASE
    | SummaryJa      // r"最小DTW正規化距離\s+([\d.]+)\s+シフト\s+(-?\d+)", re.IGNORECASE
    | ShiftThenNorm  // r"shift\s+(-?\d+).*DTW-norm\s*=\s*([\d.]+)", re.IGNORECASE
    | PerShiftEn     // r"Shift\s+(-?\d+):\s+DTW-norm\s*=\s*([\d.]+)", re.IGNORECASE
    | PerShiftJa     // r"シフト\s+(-?\d+):\s+DTW正規化距離\s*=\s*([\d.]+)", re.IGNORECASE
    | Integer        // r"(-?\d+)"

  /** The pieces a pattern is made of. */
  datatype Token =
    | Text(lit: string)  // a literal; in lower case when the pattern ignores case
    | Spaces(min: nat)   // `\s+` (min 1) or `\s*` (min 0)
    | Shift              // `(-?\d+)`, the shift
    | Norm               // `[\d.]+`, the norm
    | AnyThen            // `.*`, greedy

  /** A match: where it ends, the text of the shift `(-?\d+)` and the text of the norm
      `[\d.]+` (empty for `Integer`, which has no norm; for `AutoSummary` the norm is matched
      but not a group, and nothing reads it). */
  datatype Match = Match(end: nat, shift: string, norm: string)

  function Tokens(pat: Pattern): seq<Token> {
    match pat
    case AutoSummary =>
      [Text("Min DTW-norm"), Spaces(1), Norm, Spaces(1), Text("at"), Spaces(1), Text("shift"), Spaces(1), Shift]
    case SummaryEn =>
      [Text("min dtw-norm"), Spaces(1), Norm, Spaces(1), Text("at"), Spaces(1), Text("shift"), Spaces(1), Shift]
    case SummaryJa =>
      [Text("最小dtw正規化距離"), Spaces(1), Norm, Spaces(1), Text("シフト"), Spaces(1), Shift]
    case ShiftThenNorm =>
      [Text("shift"), Spaces(1), Shift, AnyThen, Text("dtw-norm"), Spaces(0), Text("="), Spaces(0), Norm]
    case AutoPerShift =>
      [Text("Shift"), Spaces(1), Shift, Text(":"), Spaces(1), Text("DTW-norm"), Spaces(1), Text("="), Spaces(1), Norm]
    case PerShiftEn =>
      [Text("shift"), Spaces(1), Shift, Text(":"), Spaces(1), Text("dtw-norm"), Spaces(0), Text("="), Spaces(0), Norm]
    case PerShiftJa =>
      [Text("シフト"), Spaces(1), Shift, Text(":"), Spaces(1), Text("dtw正規化距離"), Spaces(0), Text("="), Spaces(0), Norm]
    case Integer => [Shift]
  }

  /** The Windows parser passes `re.IGNORECASE`; the other one does not. */
  predicate IgnoresCase(pat: Pattern) {
    pat in {SummaryEn, SummaryJa, ShiftThenNorm, PerShiftEn, PerShiftJa}
  }

  datatype CharClass = Space | Digit | DigitOrPoint

  predicate InClass(c: char, cls: CharClass) {
    match cls
    case Space => IsSpace(c)
    case Digit => IsDigit(c)
    case DigitOrPoint => IsDigit(c) || c == '.'
  }

  /** The end of the longest run of `cls` characters starting at `p`. */
  function RunEnd(line: string, p: nat, cls: CharClass): (e: nat)
    requires p <= |line|
    ensures p <= e <= |line|
    decreases |line| - p
  {
    if p < |line| && InClass(line[p], cls) then RunEnd(line, p + 1, cls) else p
  }

  /** The run is made of `cls` characters and is not followed by one. */
  lemma {:induction false} RunEndClass(line: string, p: nat, cls: CharClass)
    requires p <= |line|
    ensures var e := RunEnd(line, p, cls);
      && (forall k | p <= k < e :: InClass(line[k], cls))
      && (e < |line| ==> !InClass(line[e], cls))
    decreases |line| - p
  {
    if p < |line| && InClass(line[p], cls) {
      RunEndClass(line, p + 1, cls);
    }
  }

  /** A greedy run of at least `min` characters of `cls`. */
  function Run(line: string, p: nat, cls: CharClass, min: nat): (r: Option<nat>)
    requires p <= |line|
    ensures r.Some? ==> p + min <= r.value <= |line|
  {
    if RunEnd(line, p, cls) >= p + min then Some(RunEnd(line, p, cls)) else None
  }

  /** A literal; when `ci` holds the line is folded to lower case before the comparison,
      which is how `re.IGNORECASE` compares ASCII letters. */
  function Lit(line: string, p: nat, lit: string, ci: bool): (r: Option<nat>)
    ensures r.Some? ==> r.value == p + |lit| <= |line|
  {
    if p + |lit| <= |line| && (if ci then Lowercase(line[p..p + |lit|]) else line[p..p + |lit|]) == lit
    then Some(p + |lit|)
    else None
  }

  /** `-?\d+`: a minus sign is taken only when a digit follows it. */
  function SignedInt(line: string, p: nat): (r: Option<nat>)
    ensures r.Some? ==> p < r.value <= |line| && IsIntLiteral(line[p..r.value])
  {
    if p + 1 < |line| && line[p] == '-' && IsDigit(line[p + 1]) then
      var e := RunEnd(line, p + 1, Digit);
      RunEndClass(line, p + 1, Digit);
      assert line[p..e][1..] == line[p + 1..e];
      Some(e)
    else if p < |line| && IsDigit(line[p]) then
      RunEndClass(line, p, Digit);
      Some(RunEnd(line, p, Digit))
    else None
  }

  /** Where one token other than `.*` ends when it starts at `p`. */
  function Step(tok: Token, line: string, p: nat, ci: bool): (r: Option<nat>)
    requires p <= |line|
    ensures r.Some? ==> p <= r.value <= |line|
    ensures r.Some? && tok.Shift? ==> p < r.value && IsIntLiteral(line[p..r.value])
    ensures r.Some? && tok.Norm? ==> IsDecimalRun(line[p..r.value])
    ensures r.Some? && tok.Text? ==> r.value == p + |tok.lit|
    ensures tok.AnyThen? ==> r.None?
  {
    match tok
    case Text(lit) => Lit(line, p, lit, ci)
    case Spaces(min) => Run(line, p, Space, min)
    case Shift => SignedInt(line, p)
    case Norm =>
      var e :- Run(line, p, DigitOrPoint, 1);
      RunEndClass(line, p, DigitOrPoint);
      assert forall k | 0 <= k < e - p :: line[p..e][k] == line[p + k];
      Some(e)
    case AnyThen => None
  }

  /** What the token matched between `p` and `e`, recorded in the match. */
  function Capture(tok: Token, line: string, p: nat, e: nat, m: Match): Match
    requires p <= e <= |line|
  {
    match tok
    case Shift => m.(shift := line[p..e])
    case Norm => m.(norm := line[p..e])
    case _ => m
  }

  /** `t` is one of the tokens. */
  predicate HasToken(toks: seq<Token>, t: Token) {
    toks != [] && (toks[0] == t || HasToken(toks[1..], t))
  }

  lemma {:induction false} HasTokenAt(toks: seq<Token>, k: nat, t: Token)
    requires k < |toks| && toks[k] == t
    ensures HasToken(toks, t)
    decreases k
  {
    if k > 0 {
      HasTokenAt(toks[1..], k - 1, t);
    }
  }

  lemma {:induction false} HasTokenIn(toks: seq<Token>, t: Token)
    ensures HasToken(toks, t) <==> t in toks
    decreases |toks|
  {
    if toks != [] {
      HasTokenIn(toks[1..], t);
      assert toks == [toks[0]] + toks[1..];
    }
  }

  /** Every pattern captures a shift, and all but the bare integer a norm. */
  lemma {:induction false} TokensCapture(pat: Pattern)
    ensures HasToken(Tokens(pat), Shift) && (pat != Integer ==> HasToken(Tokens(pat), Norm))
  {
    var toks := Tokens(pat);
    match pat
    case AutoSummary => HasTokenAt(toks, 8, Shift); HasTokenAt(toks, 2, Norm);
    case SummaryEn => HasTokenAt(toks, 8, Shift); HasTokenAt(toks, 2, Norm);
    case SummaryJa => HasTokenAt(toks, 6, Shift); HasTokenAt(toks, 2, Norm);
    case ShiftThenNorm => HasTokenAt(toks, 2, Shift); HasTokenAt(toks, 8, Norm);
    case AutoPerShift => HasTokenAt(toks, 2, Shift); HasTokenAt(toks, 9, Norm);
    case PerShiftEn => HasTokenAt(toks, 2, Shift); HasTokenAt(toks, 9, Norm);
    case PerShiftJa => HasTokenAt(toks, 2, Shift); HasTokenAt(toks, 9, Norm);
    case Integer => HasTokenAt(toks, 0, Shift);
  }

  /** The match of the tokens starting at `p`, with `m` holding what was captured so far. */
  function MatchFrom(toks: seq<Token>, line: string, p: nat, ci: bool, m: Match): (r: Option<Match>)
    requires p <= |line|
    ensures r.Some? ==> p <= r.value.end <= |line|
    ensures r.Some? && (IsIntLiteral(m.shift) || HasToken(toks, Shift)) ==> IsIntLiteral(r.value.shift)
    ensures r.Some? && (IsDecimalRun(m.norm) || HasToken(toks, Norm)) ==> IsDecimalRun(r.value.norm)
    ensures r.Some? && !HasToken(toks, Shift) ==> r.value.shift == m.shift
    decreases |toks|, 1, 0
  {
    if toks == [] then Some(m.(end := p))
    else if toks[0].AnyThen? then
      assert toks == [toks[0]] + toks[1..];
      LastMatch(toks[1..], line, p, |line|, ci, m)
    else
      assert toks == [toks[0]] + toks[1..];
      var e :- Step(toks[0], line, p, ci);
      MatchFrom(toks[1..], line, e, ci, Capture(toks[0], line, p, e, m))
  }

  /** The greedy `.*`: the rest of the pattern at the last position in `[lo, q]` where it
      matches. */
  function LastMatch(toks: seq<Token>, line: string, lo: nat, q: nat, ci: bool, m: Match): (r: Option<Match>)
    requires q <= |line|
    ensures r.Some? ==> lo <= r.value.end <= |line|
    ensures r.Some? && (IsIntLiteral(m.shift) || HasToken(toks, Shift)) ==> IsIntLiteral(r.value.shift)
    ensures r.Some? && (IsDecimalRun(m.norm) || HasToken(toks, Norm)) ==> IsDecimalRun(r.value.norm)
    ensures r.Some? && !HasToken(toks, Shift) ==> r.value.shift == m.shift
    decreases |toks|, 2, q
  {
    if q < lo then None
    else if MatchFrom(toks, line, q, ci, m).Some? then MatchFrom(toks, line, q, ci, m)
    else if q == 0 then None
    else LastMatch(toks, line, lo, q - 1, ci, m)
  }

  /** What a match captured is what `int()` and `float()` in the parsers are given. */
  predicate WellFormed(pat: Pattern, m: Match) {
    IsIntLiteral(m.shift) && (pat != Integer ==> IsDecimalRun(m.norm))
  }

  /** The match of `pat` that starts at position `p` of `line`, if any; it is never empty. */
  function MatchAt(pat: Pattern, line: string, p: nat): (r: Option<Match>)
    ensures r.Some? ==> p < r.value.end <= |line| && WellFormed(pat, r.value)
  {
    if p > |line| then None
    else
      var toks := Tokens(pat);
      var r := MatchFrom(toks, line, p, IgnoresCase(pat), Match(p, "", ""));
      assert r.Some? ==> p < r.value.end by {
        if r.Some? {
          var e := Step(toks[0], line, p, IgnoresCase(pat)).value;
          assert r == MatchFrom(toks[1..], line, e, IgnoresCase(pat), Capture(toks[0], line, p, e, Match(p, "", "")));
        }
      }
      TokensCapture(pat);
      r
  }

  /** `re.findall` within one line: the leftmost match, then the next one from its end. */
  function FindAll(pat: Pattern, line: string, from: nat): (ms: seq<Match>)
    ensures forall k | 0 <= k < |ms| :: WellFormed(pat, ms[k])
    decreases |line| - from
  {
    if from >= |line| then []
    else match MatchAt(pat, line, from)
      case Some(m) => [m] + FindAll(pat, line, m.end)
      case None => FindAll(pat, line, from + 1)
  }

  /** `re.findall` over a text given as its lines: no match of these patterns spans a
      newline in this model. */
  function TextMatches(pat: Pattern, lines: seq<string>): (ms: seq<Match>)
    ensures forall k | 0 <= k < |ms| :: WellFormed(pat, ms[k])
  {
    if lines == [] then [] else FindAll(pat, lines[0], 0) + TextMatches(pat, lines[1..])
  }

  // ---------------------------------------------------------------------------------------
  // Where matches can and cannot be.

  lemma {:induction false} FindAllNone(pat: Pattern, line: string, from: nat)
    requires forall p | from <= p < |line| :: MatchAt(pat, line, p).None?
    ensures FindAll(pat, line, from) == []
    decreases |line| - from
  {
    if from < |line| {
      FindAllNone(pat, line, from + 1);
    }
  }

  /** When the line has a match at some `p`, `FindAll` finds one at `p` or before it. */
  lemma {:induction false} FindAllFirst(pat: Pattern, line: string, from: nat, p: nat)
    requires from <= p < |line| && MatchAt(pat, line, p).Some?
    requires forall q | from <= q < p :: MatchAt(pat, line, q).None?
    ensures FindAll(pat, line, from) != [] && FindAll(pat, line, from)[0] == MatchAt(pat, line, p).value
    decreases p - from
  {
    if from < p {
      FindAllSkip(pat, line, from);
      FindAllFirst(pat, line, from + 1, p);
    } else {
      FindAllHit(pat, line, p);
    }
  }

  lemma {:induction false} FindAllSkip(pat: Pattern, line: string, from: nat)
    requires from < |line| && MatchAt(pat, line, from).None?
    ensures FindAll(pat, line, from) == FindAll(pat, line, from + 1)
  {
  }

  lemma {:induction false} FindAllHit(pat: Pattern, line: string, p: nat)
    requires p < |line| && MatchAt(pat, line, p).Some?
    ensures FindAll(pat, line, p) != [] && FindAll(pat, line, p)[0] == MatchAt(pat, line, p).value
  {
  }

  lemma {:induction false} TextMatchesCons(pat: Pattern, line: string, rest: seq<string>)
    ensures TextMatches(pat, [line] + rest) == FindAll(pat, line, 0) + TextMatches(pat, rest)
  {
    assert ([line] + rest)[1..] == rest;
  }

  lemma {:induction false} TextMatchesConcat(pat: Pattern, a: seq<string>, b: seq<string>)
    ensures TextMatches(pat, a + b) == TextMatches(pat, a) + TextMatches(pat, b)
    decreases |a|
  {
    if a == [] {
      assert a + b == b;
    } else {
      assert (a + b)[1..] == a[1..] + b;
      assert (a + b)[0] == a[0];
      TextMatchesConcat(pat, a[1..], b);
      var f := FindAll(pat, a[0], 0);
      calc {
        TextMatches(pat, a + b);
        f + TextMatches(pat, a[1..] + b);
        f + (TextMatches(pat, a[1..]) + TextMatches(pat, b));
        (f + TextMatches(pat, a[1..])) + TextMatches(pat, b);
      }
    }
  }

  lemma {:induction false} TextMatchesNone(pat: Pattern, lines: seq<string>)
    requires forall i | 0 <= i < |lines| :: FindAll(pat, lines[i], 0) == []
    ensures TextMatches(pat, lines) == []
  {
    if lines != [] {
      TextMatchesNone(pat, lines[1..]);
    }
  }

  /** The first match in a text is the leftmost match on the first line that has one. */
  lemma {:induction false} FirstTextMatch(pat: Pattern, lines: seq<string>, j: nat, p: nat)
    requires j < |lines| && MatchAt(pat, lines[j], p).Some?
    requires forall i | 0 <= i < j :: FindAll(pat, lines[i], 0) == []
    requires forall q | 0 <= q < p :: MatchAt(pat, lines[j], q).None?
    ensures TextMatches(pat, lines) != [] && TextMatches(pat, lines)[0] == MatchAt(pat, lines[j], p).value
  {
    TextMatchesFromLine(pat, lines, j);
    FindAllFirst(pat, lines[j], 0, p);
  }

  /** With no match on the lines before line `j`, the matches start with those of line `j`. */
  lemma {:induction false} TextMatchesFromLine(pat: Pattern, lines: seq<string>, j: nat)
    requires j < |lines|
    requires forall i | 0 <= i < j :: FindAll(pat, lines[i], 0) == []
    ensures TextMatches(pat, lines) == FindAll(pat, lines[j], 0) + TextMatches(pat, lines[j + 1..])
  {
    TextMatchesNone(pat, lines[..j]);
    assert lines == lines[..j] + ([lines[j]] + lines[j + 1..]);
    TextMatchesConcat(pat, lines[..j], [lines[j]] + lines[j + 1..]);
    TextMatchesCons(pat, lines[j], lines[j + 1..]);
  }

  /** The line's characters where a literal matched. */
  lemma {:induction false} LitChars(line: string, p: nat, lit: string, ci: bool, k: nat)
    requires Lit(line, p, lit, ci).Some? && k < |lit|
    ensures ci ==> Lower(line[p + k]) == lit[k]
    ensures !ci ==> line[p + k] == lit[k]
  {
    if ci {
      assert Lowercase(line[p..p + |lit|])[k] == lit[k];
    } else {
      assert line[p..p + |lit|][k] == lit[k];
    }
  }

  /** Every literal of a pattern that matches occurs in the line, at or after the start. */
  lemma {:induction false} TextWitness(toks: seq<Token>, line: string, p: nat, ci: bool, m: Match, j: nat)
    returns (q: nat)
    requires p <= |line| && MatchFrom(toks, line, p, ci, m).Some?
    requires j < |toks| && toks[j].Text?
    ensures p <= q && Lit(line, q, toks[j].lit, ci).Some?
    decreases |toks|, 1, 0
  {
    if j == 0 {
      q := p;
    } else if toks[0].AnyThen? {
      q := LastWitness(toks[1..], line, p, |line|, ci, m, j - 1);
    } else {
      var e := Step(toks[0], line, p, ci).value;
      q := TextWitness(toks[1..], line, e, ci, Capture(toks[0], line, p, e, m), j - 1);
    }
  }

  lemma {:induction false} LastWitness(toks: seq<Token>, line: string, lo: nat, q0: nat, ci: bool, m: Match, j: nat)
    returns (q: nat)
    requires q0 <= |line| && LastMatch(toks, line, lo, q0, ci, m).Some?
    requires j < |toks| && toks[j].Text?
    ensures lo <= q && Lit(line, q, toks[j].lit, ci).Some?
    decreases |toks|, 2, q0
  {
    if MatchFrom(toks, line, q0, ci, m).Some? {
      q := TextWitness(toks, line, q0, ci, m, j);
    } else {
      q := LastWitness(toks, line, lo, q0 - 1, ci, m, j);
    }
  }

  /** A pattern one of whose literals holds the bigram `ab` cannot match from `from` on in a
      line that has no `ab` (after folding) from `from` on. */
  lemma {:induction false} NoMatchWithoutBigram(pat: Pattern, line: string, from: nat, j: nat, k: nat)
    requires j < |Tokens(pat)| && Tokens(pat)[j].Text? && k + 1 < |Tokens(pat)[j].lit|
    requires var lit := Tokens(pat)[j].lit;
      && (IgnoresCase(pat) ==> Lower(lit[k]) == lit[k] && Lower(lit[k + 1]) == lit[k + 1])
      && NoBigramFrom(line, from, Lower(lit[k]), Lower(lit[k + 1]))
    ensures FindAll(pat, line, from) == []
  {
    var lit := Tokens(pat)[j].lit;
    var ci := IgnoresCase(pat);
    NoBigramFromIff(line, from, Lower(lit[k]), Lower(lit[k + 1]));
    forall p | from <= p < |line| ensures MatchAt(pat, line, p).None? {
      if MatchAt(pat, line, p).Some? {
        var q := TextWitness(Tokens(pat), line, p, ci, Match(p, "", ""), j);
        LitChars(line, q, lit, ci, k);
        LitChars(line, q, lit, ci, k + 1);
      }
    }
    FindAllNone(pat, line, from);
  }

  /** The bigrams that some pattern or line-scan keyword needs: `n ` (`Min DTW-norm`),
      `w-` (`DTW-norm`), `eo` (`real video leads`, `generated video leads`), `最小`, `シフ`
      and `動画` (the Japanese keywords). */
  predicate BadPair(a: char, b: char) {
    || (a == 'n' && b == ' ')
    || (a == 'w' && b == '-')
    || (a == 'e' && b == 'o')
    || (a == '最' && b == '小')
    || (a == 'シ' && b == 'フ')
    || (a == '動' && b == '画')
  }

  /** A line without any of those bigrams (after folding) from position `i` on; written
      recursively so that it can be evaluated on the scripts' literal text. */
  predicate QuietFrom(line: string, i: nat)
    decreases |line| - i
  {
    i + 1 >= |line| || (!BadPair(Lower(line[i]), Lower(line[i + 1])) && QuietFrom(line, i + 1))
  }

  /** The lines the search scripts print besides their per-shift and summary lines: no
      summary, per-shift or norm pattern matches them, and the line scan passes them by. */
  predicate Quiet(line: string) {
    QuietFrom(line, 0)
  }

  lemma {:induction false} QuietFromIff(line: string, i: nat)
    ensures QuietFrom(line, i) <==>
      forall q | i <= q && q + 1 < |line| :: !BadPair(Lower(line[q]), Lower(line[q + 1]))
    decreases |line| - i
  {
    if i + 1 < |line| {
      QuietFromIff(line, i + 1);
    }
  }

  /** A quiet line has none of the six bigrams. */
  lemma {:induction false} QuietBigrams(line: string)
    requires Quiet(line)
    ensures NoBigram(line, 'n', ' ') && NoBigram(line, 'w', '-') && NoBigram(line, 'e', 'o')
    ensures NoBigram(line, '最', '小') && NoBigram(line, 'シ', 'フ') && NoBigram(line, '動', '画')
  {
    QuietFromIff(line, 0);
    NoBigramFromIff(line, 0, 'n', ' ');
    NoBigramFromIff(line, 0, 'w', '-');
    NoBigramFromIff(line, 0, 'e', 'o');
    NoBigramFromIff(line, 0, '最', '小');
    NoBigramFromIff(line, 0, 'シ', 'フ');
    NoBigramFromIff(line, 0, '動', '画');
  }

  /** Two quiet strings make a quiet string unless the seam makes one of the bigrams. */
  lemma {:induction false} QuietConcat(s: string, t: string)
    requires Quiet(s) && Quiet(t)
    requires s == [] || t == [] || !BadPair(Lower(s[|s| - 1]), Lower(t[0]))
    ensures Quiet(s + t)
  {
    QuietFromIff(s, 0);
    QuietFromIff(t, 0);
    QuietFromIff(s + t, 0);
    forall q | 0 <= q && q + 1 < |s + t| ensures !BadPair(Lower((s + t)[q]), Lower((s + t)[q + 1])) {
      if q + 1 < |s| {
        assert (s + t)[q] == s[q] && (s + t)[q + 1] == s[q + 1];
      } else if q >= |s| {
        assert (s + t)[q] == t[q - |s|] && (s + t)[q + 1] == t[q + 1 - |s|];
      }
    }
  }

  /** Characters that start none of the bigrams: a string of them is quiet. */
  predicate Neutral(c: char) {
    Lower(c) !in {'n', 'w', 'e', '最', 'シ', '動'}
  }

  lemma {:induction false} QuietNeutral(s: string)
    requires forall i | 0 <= i < |s| :: Neutral(s[i])
    ensures Quiet(s)
  {
    QuietFromIff(s, 0);
  }

  /** A line without `n ` has no English summary match, in either case mode. */
  lemma {:induction false} NoSummaryEn(line: string, pat: Pattern)
    requires pat == AutoSummary || pat == SummaryEn
    requires NoBigram(line, 'n', ' ')
    ensures FindAll(pat, line, 0) == []
  {
    assert Tokens(pat)[0].lit == if pat == AutoSummary then "Min DTW-norm" else "min dtw-norm";
    NoMatchWithoutBigram(pat, line, 0, 0, 2);
  }

  /** A line without `w-` from `from` on has no match there of a pattern containing
      `DTW-norm`. */
  lemma {:induction false} NoNormPattern(line: string, pat: Pattern, from: nat)
    requires pat == AutoPerShift || pat == PerShiftEn || pat == ShiftThenNorm
    requires NoBigramFrom(line, from, 'w', '-')
    ensures FindAll(pat, line, from) == []
  {
    if pat == ShiftThenNorm {
      assert Tokens(pat)[4].lit == "dtw-norm";
      NoMatchWithoutBigram(pat, line, from, 4, 2);
    } else if pat == PerShiftEn {
      assert Tokens(pat)[5].lit == "dtw-norm";
      NoMatchWithoutBigram(pat, line, from, 5, 2);
    } else {
      assert Tokens(pat)[5].lit == "DTW-norm";
      NoMatchWithoutBigram(pat, line, from, 5, 2);
    }
  }

  /** A quiet line has no match of any pattern but `(-?\d+)`. */
  lemma {:induction false} QuietNoMatch(line: string, pat: Pattern)
    requires Quiet(line) && pat != Integer
    ensures FindAll(pat, line, 0) == []
  {
    QuietBigrams(line);
    match pat
    case AutoSummary => NoSummaryEn(line, pat);
    case SummaryEn => NoSummaryEn(line, pat);
    case AutoPerShift => NoNormPattern(line, pat, 0);
    case PerShiftEn => NoNormPattern(line, pat, 0);
    case ShiftThenNorm => NoNormPattern(line, pat, 0);
    case SummaryJa =>
      assert Tokens(pat)[0].lit == "最小dtw正規化距離";
      NoMatchWithoutBigram(pat, line, 0, 0, 0);
    case PerShiftJa =>
      assert Tokens(pat)[0].lit == "シフト";
      NoMatchWithoutBigram(pat, line, 0, 0, 0);
  }

  /** The first matches in a text come from its first lines that have any. */
  lemma {:induction false} TextMatchesQuiet(pat: Pattern, lead: seq<string>, rest: seq<string>)
    requires pat != Integer && forall k | 0 <= k < |lead| :: Quiet(lead[k])
    ensures TextMatches(pat, lead + rest) == TextMatches(pat, rest)
    decreases |lead|
  {
    if lead == [] {
      assert lead + rest == rest;
    } else {
      QuietNoMatch(lead[0], pat);
      assert (lead + rest)[1..] == lead[1..] + rest;
      assert (lead + rest)[0] == lead[0];
      TextMatchesQuiet(pat, lead[1..], rest);
      calc {
        TextMatches(pat, lead + rest);
        FindAll(pat, lead[0], 0) + TextMatches(pat, lead[1..] + rest);
        [] + TextMatches(pat, rest);
      }
    }
  }

  // ---------------------------------------------------------------------------------------
  // The greedy `.*`.

  /** It finds a match whenever the rest of the pattern matches somewhere in its range. */
  lemma {:induction false} LastMatchFinds(toks: seq<Token>, line: string, lo: nat, q: nat, t: nat, ci: bool, m: Match)
    requires lo <= t <= q <= |line| && MatchFrom(toks, line, t, ci, m).Some?
    ensures LastMatch(toks, line, lo, q, ci, m).Some?
    decreases q
  {
    if MatchFrom(toks, line, q, ci, m).None? {
      LastMatchFinds(toks, line, lo, q - 1, t, ci, m);
    }
  }

  /** It takes the last position where the rest matches. */
  lemma {:induction false} LastMatchIsLast(toks: seq<Token>, line: string, lo: nat, q: nat, t: nat, ci: bool, m: Match)
    requires lo <= t <= q <= |line| && MatchFrom(toks, line, t, ci, m).Some?
    requires forall u | t < u <= q :: MatchFrom(toks, line, u, ci, m).None?
    ensures LastMatch(toks, line, lo, q, ci, m) == MatchFrom(toks, line, t, ci, m)
    decreases q
  {
    if q > t {
      LastMatchIsLast(toks, line, lo, q - 1, t, ci, m);
    }
  }

  // ---------------------------------------------------------------------------------------
  // What the parsers make of their matches.

  /** Every norm in the list is a valid `float()` argument. */
  predicate AllConvertible(ms: seq<Match>) {
    forall k | 0 <= k < |ms| :: FloatConvertible(ms[k].norm)
  }

  /** `(int(shift_str), float(norm_str))` for each match, in order. */
  function Candidates(ms: seq<Match>): (xs: seq<Scored>)
    requires forall k | 0 <= k < |ms| :: IsIntLiteral(ms[k].shift) && FloatConvertible(ms[k].norm)
    ensures |xs| == |ms|
  {
    if ms == [] then []
    else
      var m := ms[|ms| - 1];
      Candidates(ms[..|ms| - 1]) + [Scored(IntValue(m.shift), DecimalValue(m.norm))]
  }

  lemma {:induction false} CandidatesSnoc(ms: seq<Match>, m: Match)
    requires forall k | 0 <= k < |ms| :: IsIntLiteral(ms[k].shift) && FloatConvertible(ms[k].norm)
    requires IsIntLiteral(m.shift) && FloatConvertible(m.norm)
    ensures Candidates(ms + [m]) == Candidates(ms) + [Scored(IntValue(m.shift), DecimalValue(m.norm))]
  {
    assert (ms + [m])[..|ms|] == ms;
  }

  lemma {:induction false} CandidatesAt(ms: seq<Match>)
    requires forall k | 0 <= k < |ms| :: IsIntLiteral(ms[k].shift) && FloatConvertible(ms[k].norm)
    ensures forall k | 0 <= k < |ms| ::
      Candidates(ms)[k] == Scored(IntValue(ms[k].shift), DecimalValue(ms[k].norm))
  {
    if ms != [] {
      CandidatesAt(ms[..|ms| - 1]);
    }
  }

  /** The matches a `try ... except ValueError: continue` loop gets past: those whose norm
      converts, in their order. */
  function Convertible(ms: seq<Match>): (vs: seq<Match>)
    ensures AllConvertible(vs) && |vs| <= |ms|
    ensures (forall k | 0 <= k < |ms| :: IsIntLiteral(ms[k].shift)) ==>
      forall k | 0 <= k < |vs| :: IsIntLiteral(vs[k].shift)
  {
    if ms == [] then []
    else
      var pre := Convertible(ms[..|ms| - 1]);
      assert forall k | 0 <= k < |ms| - 1 :: ms[..|ms| - 1][k] == ms[k];
      if FloatConvertible(ms[|ms| - 1].norm) then pre + [ms[|ms| - 1]] else pre
  }

  /** The matches kept are exactly the convertible ones. */
  lemma {:induction false} ConvertibleContents(ms: seq<Match>)
    ensures forall m | m in Convertible(ms) :: m in ms && FloatConvertible(m.norm)
    ensures forall m | m in ms && FloatConvertible(m.norm) :: m in Convertible(ms)
  {
    if ms != [] {
      var pre := ms[..|ms| - 1];
      ConvertibleContents(pre);
      assert ms == pre + [ms[|ms| - 1]];
    }
  }
}
