/** Characters, lines and printed output, as Python's `str`, `re` and `print` treat them. */
module Text {

  /** `\s` in a `re` pattern over `str`, which is also what `str.strip()` removes
      (the characters CPython's Py_UNICODE_ISSPACE accepts). */
  predicate IsSpace(c: char) {
    var n := c as int;
    (9 <= n <= 13) || (28 <= n <= 32) || n == 0x85 || n == 0xA0 || n == 0x1680
    || (0x2000 <= n <= 0x200A) || n == 0x2028 || n == 0x2029 || n == 0x202F
    || n == 0x205F || n == 0x3000
  }

  /** `\d`, restricted to the ASCII digits. */
  predicate IsDigit(c: char) {
    '0' <= c <= '9'
  }

  /** ASCII case folding, the part of `str.lower()` and `re.IGNORECASE` the model keeps. */
  function Lower(c: char): char {
    if 'A' <= c <= 'Z' then (c as int + 32) as char else c
  }

  function Lowercase(s: string): (r: string)
    ensures |r| == |s|
    ensures forall i {:trigger r[i]} | 0 <= i < |s| :: r[i] == Lower(s[i])
  {
    if s == [] then [] else [Lower(s[0])] + Lowercase(s[1..])
  }

  /** `not text or len(text.strip()) == 0`. */
  predicate IsBlank(s: string) {
    forall i | 0 <= i < |s| :: IsSpace(s[i])
  }

  /** `t` occurs in `s` starting at position `i`. */
  predicate OccursAt(s: string, i: nat, t: string) {
    i + |t| <= |s| && s[i..i + |t|] == t
  }

  /** `t in s` for strings. */
  predicate Contains(s: string, t: string) {
    exists i | 0 <= i <= |s| :: OccursAt(s, i, t)
  }

  /** `text.split('\n')`: the pieces between newline characters, always at least one. */
  function Lines(text: string): (ls: seq<string>)
    ensures |ls| >= 1
    ensures forall k | 0 <= k < |ls| :: '\n' !in ls[k]
  {
    if text == [] then [""]
    else
      var rest := Lines(text[1..]);
      if text[0] == '\n' then [""] + rest
      else [[text[0]] + rest[0]] + rest[1..]
  }

  /** `'\n'.join(ls)`, the inverse of `Lines`. */
  function Join(ls: seq<string>): string
    requires |ls| >= 1
  {
    if |ls| == 1 then ls[0] else ls[0] + "\n" + Join(ls[1..])
  }

  /** What a sequence of `print(line)` calls writes to standard output. */
  function Printed(out: seq<string>): string {
    if out == [] then "" else out[0] + "\n" + Printed(out[1..])
  }

  predicate NoNewlines(out: seq<string>) {
    forall k | 0 <= k < |out| :: '\n' !in out[k]
  }

  lemma {:induction false} LinesCons(l: string, t: string)
    requires '\n' !in l
    ensures Lines(l + "\n" + t) == [l] + Lines(t)
    decreases |l|
  {
    if l == [] {
      assert l + "\n" + t == ['\n'] + t;
      assert (['\n'] + t)[1..] == t;
    } else {
      LinesCons(l[1..], t);
      assert (l + "\n" + t)[1..] == l[1..] + "\n" + t;
      assert [l[0]] + l[1..] == l;
    }
  }

  /** Splitting a text back into lines recovers the lines it was joined from. */
  lemma {:induction false} LinesJoin(ls: seq<string>)
    requires |ls| >= 1 && NoNewlines(ls)
    ensures Lines(Join(ls)) == ls
    decreases |ls|
  {
    if |ls| == 1 {
      LinesOfLine(ls[0]);
    } else {
      LinesJoin(ls[1..]);
      LinesCons(ls[0], Join(ls[1..]));
      assert [ls[0]] + ls[1..] == ls;
    }
  }

  /** Joining the lines of a text with newlines gives the text back. */
  lemma {:induction false} JoinLines(text: string)
    ensures Join(Lines(text)) == text
    decreases |text|
  {
    if text != [] {
      var rest := Lines(text[1..]);
      JoinLines(text[1..]);
      assert text == [text[0]] + text[1..];
      if text[0] == '\n' {
        assert Lines(text) == [""] + rest;
        JoinEmptyFirst(rest);
      } else {
        assert Lines(text) == [[text[0]] + rest[0]] + rest[1..];
        JoinGlued(text[0], rest);
      }
    }
  }

  lemma {:induction false} JoinEmptyFirst(ls: seq<string>)
    requires |ls| >= 1
    ensures Join([""] + ls) == "\n" + Join(ls)
  {
    assert ([""] + ls)[1..] == ls;
  }

  lemma {:induction false} JoinGlued(c: char, ls: seq<string>)
    requires |ls| >= 1
    ensures Join([[c] + ls[0]] + ls[1..]) == [c] + Join(ls)
  {
    var gs := [[c] + ls[0]] + ls[1..];
    if |ls| > 1 {
      assert gs[1..] == ls[1..];
    }
  }

  lemma {:induction false} LinesOfLine(l: string)
    requires '\n' !in l
    ensures Lines(l) == [l]
    decreases |l|
  {
    if l != [] {
      LinesOfLine(l[1..]);
      assert [l[0]] + l[1..] == l;
    }
  }

  /** The lines of printed output followed by any further text: the printed lines come
      first, unchanged, whatever follows them. */
  lemma {:induction false} LinesOfPrinted(out: seq<string>, suffix: string)
    requires NoNewlines(out)
    ensures Lines(Printed(out) + suffix) == out + Lines(suffix)
    decreases |out|
  {
    if out == [] {
      assert Printed(out) + suffix == suffix;
    } else {
      var t := Printed(out[1..]) + suffix;
      PrintedUnfold(out, suffix);
      LinesOfPrinted(out[1..], suffix);
      LinesCons(out[0], t);
      HeadThen(out, Lines(suffix));
    }
  }

  lemma {:induction false} PrintedUnfold(out: seq<string>, suffix: string)
    requires out != []
    ensures Printed(out) + suffix == out[0] + "\n" + (Printed(out[1..]) + suffix)
  {
  }

  lemma {:induction false} HeadThen<T>(s: seq<T>, x: seq<T>)
    requires s != []
    ensures [s[0]] + (s[1..] + x) == s + x
  {
    assert s == [s[0]] + s[1..];
  }

  /** Every line of a blank text is blank (a newline is itself blank). */
  lemma {:induction false} BlankLines(text: string)
    requires IsBlank(text)
    ensures forall k | 0 <= k < |Lines(text)| :: IsBlank(Lines(text)[k])
    decreases |text|
  {
    if text != [] {
      var rest := Lines(text[1..]);
      BlankLines(text[1..]);
      if text[0] != '\n' {
        var first := [text[0]] + rest[0];
        assert forall i | 1 <= i < |first| :: first[i] == rest[0][i - 1];
        assert IsBlank(first);
      }
    }
  }

  /** No position of `s` holds `a` (after ASCII folding) immediately followed by `b`
      (after folding); written recursively so that it can be evaluated on literals. */
  predicate NoBigram(s: string, a: char, b: char) {
    NoBigramFrom(s, 0, a, b)
  }

  predicate NoBigramFrom(s: string, i: nat, a: char, b: char)
    decreases |s| - i
  {
    i + 1 >= |s| || (!(Lower(s[i]) == a && Lower(s[i + 1]) == b) && NoBigramFrom(s, i + 1, a, b))
  }

  lemma {:induction false} NoBigramFromIff(s: string, i: nat, a: char, b: char)
    ensures NoBigramFrom(s, i, a, b) <==>
      forall q | i <= q && q + 1 < |s| :: !(Lower(s[q]) == a && Lower(s[q + 1]) == b)
    decreases |s| - i
  {
    if i + 1 < |s| {
      NoBigramFromIff(s, i + 1, a, b);
    }
  }

  lemma {:induction false} NoBigramAt(s: string, a: char, b: char, q: nat)
    requires NoBigram(s, a, b) && q + 1 < |s|
    ensures !(Lower(s[q]) == a && Lower(s[q + 1]) == b)
  {
    NoBigramFromIff(s, 0, a, b);
  }

  lemma {:induction false} NoBigramConcat(s: string, t: string, a: char, b: char)
    requires NoBigram(s, a, b) && NoBigram(t, a, b)
    requires s == [] || t == [] || !(Lower(s[|s| - 1]) == a && Lower(t[0]) == b)
    ensures NoBigram(s + t, a, b)
  {
    NoBigramFromIff(s, 0, a, b);
    NoBigramFromIff(t, 0, a, b);
    NoBigramFromIff(s + t, 0, a, b);
  }

  /** A string in which `a` never occurs (after folding) has no bigram starting with it. */
  lemma {:induction false} NoBigramWithout(s: string, a: char, b: char)
    requires forall i | 0 <= i < |s| :: Lower(s[i]) != a
    ensures NoBigram(s, a, b)
  {
    NoBigramFromIff(s, 0, a, b);
  }
}
