/** The direction messages read back by the Windows parser's line scan: every message that
    names a leading video gives back the shift it was printed for, and the synchronized
    message gives nothing, so the scan moves on. */
module LeadScan {
  import opened Wrappers
  import opened Text
  import opened Numerals
  import opened Patterns
  import opened Report
  import opened WindowsParser
  import opened RoundTrip
  import Recognition

  /** No character of `s` can start `-?\d+`. */
  predicate NoIntegerStart(s: string) {
    forall i | 0 <= i < |s| :: !IsDigit(s[i]) && s[i] != '-'
  }

  // ---------------------------------------------------------------------------------------
  // The integer in a direction line.

  /** `-?\d+` at `p` of a line, as one token. */
  lemma {:induction false} IntegerMatch(line: string, p: nat)
    requires p <= |line|
    ensures MatchAt(Integer, line, p) ==
      match SignedInt(line, p)
      case Some(e) => Some(Match(e, line[p..e], ""))
      case None => None
  {
    var toks := Tokens(Integer);
    assert toks == [Shift];
    assert toks[1..] == [];
  }

  /** The first integer of `a + d + c`, where `a` has nothing that can start one, `d` is a
      run of digits and `c` does not continue it, is `d`. */
  lemma {:induction false} FirstInteger(a: string, d: string, c: string)
    requires NoIntegerStart(a) && d != [] && AllDigits(d)
    requires c == [] || !IsDigit(c[0])
    ensures var ms := FindAll(Integer, a + d + c, 0); ms != [] && ms[0].shift == d
  {
    var line := a + d + c;
    var p := |a|;
    forall q | 0 <= q < p ensures MatchAt(Integer, line, q).None? {
      assert line[q] == a[q];
      IntegerMatch(line, q);
    }
    assert line[p] == d[0];
    assert forall k | p <= k < p + |d| :: line[k] == d[k - p];
    assert p + |d| < |line| ==> line[p + |d|] == c[0];
    Recognition.RunEndAt(line, p, p + |d|, Digit);
    var e := p + |d|;
    IntegerMatch(line, p);
    assert line[p..e] == d;
    FindAllFirst(Integer, line, 0, p);
  }

  /** A line with nothing that can start an integer has none. */
  lemma {:induction false} NoInteger(line: string)
    requires NoIntegerStart(line)
    ensures FindAll(Integer, line, 0) == []
  {
    forall q | 0 <= q < |line| ensures MatchAt(Integer, line, q).None? {
      IntegerMatch(line, q);
    }
    FindAllNone(Integer, line, 0);
  }

  /** The value of the printed count. */
  lemma {:induction false} CountValue(n: nat)
    ensures IsIntLiteral(NatToString(n)) && IntValue(NatToString(n)) == n
  {
    IntToStringValue(n);
    NatToStringValue(n);
  }

  // ---------------------------------------------------------------------------------------
  // Keywords present and absent.

  /** An occurrence, character by character. */
  lemma {:induction false} OccursFrom(s: string, i: nat, t: string)
    requires i + |t| <= |s| && forall k | 0 <= k < |t| :: s[i + k] == t[k]
    ensures OccursAt(s, i, t)
  {
    assert s[i..i + |t|] == t;
  }

  /** Folding keeps an occurrence in place: where `piece` occurs, its folded form occurs in
      the folded line. */
  lemma {:induction false} FoldedOccurs(s: string, i: nat, piece: string, t: string)
    requires OccursAt(s, i, piece)
    requires |t| == |piece| && forall k | 0 <= k < |t| :: Lower(piece[k]) == t[k]
    ensures Contains(Lowercase(s), t)
  {
    var l := Lowercase(s);
    assert forall k | 0 <= k < |t| :: s[i + k] == piece[k] by {
      forall k | 0 <= k < |t| ensures s[i + k] == piece[k] {
        assert s[i + k] == s[i..i + |t|][k];
      }
    }
    OccursFrom(l, i, t);
  }

  /** An occurrence in the head of a line is one in the line. */
  lemma {:induction false} OccursInHead(a: string, b: string, i: nat, piece: string)
    requires OccursAt(a, i, piece)
    ensures OccursAt(a + b, i, piece)
  {
    assert (a + b)[i..i + |piece|] == a[i..i + |piece|];
  }

  /** A count between two pieces adds no bigram of two non-digits. */
  lemma {:induction false} NoBigramAround(a: string, n: nat, c: string, x: char, y: char)
    requires !IsDigit(x) && !IsDigit(y)
    requires NoBigram(a, x, y) && NoBigram(c, x, y)
    ensures NoBigram(a + NatToString(n) + c, x, y)
  {
    var d := NatToString(n);
    assert forall i | 0 <= i < |d| :: Lower(d[i]) == d[i] && IsDigit(d[i]);
    NoBigramWithout(d, x, y);
    NoBigramConcat(a, d, x, y);
    NoBigramConcat(a + d, c, x, y);
  }

  /** A line without the bigrams `re` and `実写` names no real video as leading. */
  lemma {:induction false} NotRealLine(line: string)
    requires NoBigram(line, 'r', 'e') && NoBigram(line, '実', '写')
    ensures !Contains(Lowercase(line), RealLeadsEn) && !Contains(line, RealLeadsJa)
  {
    NotContainsPair(line, RealLeadsEn, 0);
    NotContainsPair(line, RealLeadsJa, 0);
  }

  // The literal facts, each on its own.

  lemma RealHeadEn()
    ensures forall k | 0 <= k < 16 :: "→ Real video leads by "[2 + k] == "Real video leads"[k]
    ensures NoIntegerStart("→ Real video leads by ")
  {
  }

  lemma RealFoldEn()
    ensures forall k | 0 <= k < 16 :: Lower("Real video leads"[k]) == RealLeadsEn[k]
  {
  }

  lemma GeneratedHeadEn()
    ensures forall k | 0 <= k < 21 :: "→ Generated video leads by "[2 + k] == "Generated video leads"[k]
    ensures NoIntegerStart("→ Generated video leads by ")
  {
  }

  lemma GeneratedFoldEn()
    ensures forall k | 0 <= k < 21 :: Lower("Generated video leads"[k]) == GeneratedLeadsEn[k]
  {
  }

  lemma GeneratedBigramsEn()
    ensures forall i | 0 <= i < 26 ::
      !(Lower("→ Generated video leads by "[i]) == 'r' && Lower("→ Generated video leads by "[i + 1]) == 'e')
    ensures forall i | 0 <= i < 27 :: Lower("→ Generated video leads by "[i]) != '実'
  {
  }

  lemma FramesTail()
    ensures NoBigram(" frames", 'r', 'e') && NoBigram(" frames", '実', '写')
    ensures NoBigram(" フレーム先行", 'r', 'e') && NoBigram(" フレーム先行", '実', '写')
  {
  }

  lemma HeadsJa()
    ensures OccursAt("   → 実写動画が ", 5, RealLeadsJa) && NoIntegerStart("   → 実写動画が ")
    ensures OccursAt("   → 生成動画が ", 5, GeneratedLeadsJa) && NoIntegerStart("   → 生成動画が ")
    ensures NoBigram("   → 生成動画が ", 'r', 'e') && NoBigram("   → 生成動画が ", '実', '写')
  {
  }

  lemma SynchronizedLines()
    ensures NoIntegerStart("→ Videos are synchronized") && NoIntegerStart("   → 動画は同期済み")
  {
  }

  // ---------------------------------------------------------------------------------------
  // The line scan on the direction messages.

  lemma {:induction false} RealScannedEn(n: nat)
    ensures LineVerdict(LeadLine(RealLeads(n))) == Some(n)
  {
    var a, d, c := "→ Real video leads by ", NatToString(n), " frames";
    var line := a + d + c;
    assert LeadLine(RealLeads(n)) == line;
    RealHeadEn();
    RealFoldEn();
    OccursFrom(a, 2, "Real video leads");
    OccursInHead(a, d + c, 2, "Real video leads");
    assert a + d + c == a + (d + c);
    FoldedOccurs(line, 2, "Real video leads", RealLeadsEn);
    FirstInteger(a, d, c);
    CountValue(n);
  }

  lemma {:induction false} GeneratedScannedEn(n: nat)
    ensures LineVerdict(LeadLine(GeneratedLeads(n))) == Some(-(n as int))
  {
    var a, d, c := "→ Generated video leads by ", NatToString(n), " frames";
    assert LeadLine(GeneratedLeads(n)) == a + d + c;
    GeneratedKeywordEn(a, d, c);
    GeneratedNotRealEn(a, n, c);
    GeneratedHeadEn();
    FramesTail();
    FirstInteger(a, d, c);
    CountValue(n);
  }

  lemma {:induction false} GeneratedKeywordEn(a: string, d: string, c: string)
    requires a == "→ Generated video leads by "
    ensures Contains(Lowercase(a + d + c), GeneratedLeadsEn)
  {
    GeneratedHeadEn();
    GeneratedFoldEn();
    OccursFrom(a, 2, "Generated video leads");
    OccursInHead(a, d + c, 2, "Generated video leads");
    assert a + d + c == a + (d + c);
    FoldedOccurs(a + d + c, 2, "Generated video leads", GeneratedLeadsEn);
  }

  lemma {:induction false} GeneratedNotRealEn(a: string, n: nat, c: string)
    requires a == "→ Generated video leads by " && c == " frames"
    ensures var line := a + NatToString(n) + c;
      !Contains(Lowercase(line), RealLeadsEn) && !Contains(line, RealLeadsJa)
  {
    GeneratedHeadBigrams(a);
    FramesTail();
    NoBigramAround(a, n, c, 'r', 'e');
    NoBigramAround(a, n, c, '実', '写');
    NotRealLine(a + NatToString(n) + c);
  }

  lemma {:induction false} GeneratedHeadBigrams(a: string)
    requires a == "→ Generated video leads by "
    ensures NoBigram(a, 'r', 'e') && NoBigram(a, '実', '写')
  {
    GeneratedBigramsEn();
    NoBigramFromIff(a, 0, 'r', 'e');
    NoBigramWithout(a, '実', '写');
  }

  lemma {:induction false} RealScannedJa(n: nat)
    ensures LineVerdict(LeadLineJa(RealLeads(n))) == Some(n)
  {
    var a, d, c := "   → 実写動画が ", NatToString(n), " フレーム先行";
    var line := a + d + c;
    assert LeadLineJa(RealLeads(n)) == line;
    HeadsJa();
    OccursInHead(a, d + c, 5, RealLeadsJa);
    assert a + d + c == a + (d + c);
    FirstInteger(a, d, c);
    CountValue(n);
  }

  lemma {:induction false} GeneratedScannedJa(n: nat)
    ensures LineVerdict(LeadLineJa(GeneratedLeads(n))) == Some(-(n as int))
  {
    var a, d, c := "   → 生成動画が ", NatToString(n), " フレーム先行";
    var line := a + d + c;
    assert LeadLineJa(GeneratedLeads(n)) == line;
    HeadsJa();
    FramesTail();
    OccursInHead(a, d + c, 5, GeneratedLeadsJa);
    assert a + d + c == a + (d + c);
    NoBigramAround(a, n, c, 'r', 'e');
    NoBigramAround(a, n, c, '実', '写');
    NotRealLine(line);
    FirstInteger(a, d, c);
    CountValue(n);
  }

  /** The line scan reads a direction line, in the improved script's English or in the
      pipeline's Japanese, back as the shift it stands for, and passes the synchronized line
      by. */
  lemma {:induction false} LeadScanned(l: Lead)
    ensures LineVerdict(LeadLine(l)) == if l.Synchronized? then None else Some(LeadShift(l))
    ensures LineVerdict(LeadLineJa(l)) == if l.Synchronized? then None else Some(LeadShift(l))
  {
    match l
    case RealLeads(n) =>
      RealScannedEn(n);
      RealScannedJa(n);
    case GeneratedLeads(n) =>
      GeneratedScannedEn(n);
      GeneratedScannedJa(n);
    case Synchronized =>
      SynchronizedScanned();
  }

  lemma {:induction false} SynchronizedScanned()
    ensures LineVerdict(LeadLine(Synchronized)).None? && LineVerdict(LeadLineJa(Synchronized)).None?
  {
    SynchronizedLines();
    NoInteger(LeadLine(Synchronized));
    NoInteger(LeadLineJa(Synchronized));
  }

  /** The direction message printed for a shift is read back as that shift, in either
      language; the message for 0 is passed by, as the scan has nothing to read in it. */
  lemma {:induction false} DirectionRoundTrip(shift: int)
    ensures LineVerdict(LeadLine(LeadOf(shift))) == if shift == 0 then None else Some(shift)
    ensures LineVerdict(LeadLineJa(LeadOf(shift))) == if shift == 0 then None else Some(shift)
  {
    LeadOfShift(shift);
    LeadScanned(LeadOf(shift));
  }
}
