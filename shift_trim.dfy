/** `preprocessing/shift_videos_trim.py`: the shift the search found is applied by cutting
    the leading frames of exactly one of the two videos with `ffmpeg` and copying the other
    one unchanged. */
module ShiftTrim {
  import opened Wrappers
  import opened Numerals
  import opened ShiftSearch

  datatype Side = RealSide | GeneratedSide

  /** Which video loses how many leading frames. */
  datatype Plan = Plan(trimmed: Side, frames: nat)

  /** `if args.shift >= 0` trims the real video by `shift` frames, otherwise the generated
      video by `-shift`; shift 0 takes the first branch and still re-encodes the real video. */
  function PlanFor(shift: int): Plan {
    if shift >= 0 then Plan(RealSide, shift) else Plan(GeneratedSide, -shift)
  }

  /** `seconds = frame_trim / fps`, as an exact quotient; `None` when `fps` is 0, where Python
      raises `ZeroDivisionError`. */
  function Seconds(frameTrim: nat, fps: int): (r: Option<real>)
    ensures r.Some? <==> fps != 0
    ensures r.Some? ==> r.value * fps as real == frameTrim as real
  {
    if fps == 0 then None else Some(frameTrim as real / fps as real)
  }

  /** A subprocess the script starts: `ffmpeg -ss seconds -i input … output`, or
      `cp source target`. */
  datatype Command = Encode(input: string, output: string, seconds: real) | Copy(source: string, target: string)

  /** The commands started, in order, and the exit status (0, or 1 for `sys.exit(1)` and for
      an uncaught exception). */
  datatype Run = Run(commands: seq<Command>, status: nat)

  datatype Args = Args(realPath: string, genPath: string, shift: int, fps: int, outReal: string, outGen: string)

  /** `trim_video`; `encodes` says whether `ffmpeg` exits 0 (otherwise `check=True` raises
      `CalledProcessError`, which is caught and turned into `sys.exit(1)`). */
  function TrimVideo(input: string, output: string, frameTrim: nat, fps: int, encodes: bool): Run {
    match Seconds(frameTrim, fps)
    case None => Run([], 1)
    case Some(seconds) => Run([Encode(input, output, seconds)], if encodes then 0 else 1)
  }

  /** `main`; `copies` says whether `cp` exits 0 (otherwise `check=True` raises, and the
      exception is not caught). */
  function TrimMain(args: Args, encodes: bool, copies: bool): Run {
    var plan := PlanFor(args.shift);
    var (input, output, source, target) :=
      if plan.trimmed == RealSide then (args.realPath, args.outReal, args.genPath, args.outGen)
      else (args.genPath, args.outGen, args.realPath, args.outReal);
    var trim := TrimVideo(input, output, plan.frames, args.fps, encodes);
    if trim.status != 0 then trim
    else Run(trim.commands + [Copy(source, target)], if copies then 0 else 1)
  }

  // ---------------------------------------------------------------------------------------
  // The command line, as `argparse` reads it.

  /** The options `main` declares with `add_argument`. */
  datatype Opt = RealOpt | GenOpt | ShiftOpt | FpsOpt | OutRealOpt | OutGenOpt

  function Name(o: Opt): string {
    match o
    case RealOpt => "--real"
    case GenOpt => "--gen"
    case ShiftOpt => "--shift"
    case FpsOpt => "--fps"
    case OutRealOpt => "--out_real"
    case OutGenOpt => "--out_gen"
  }

  /** The options in the order they are declared. */
  const Declared: seq<Opt> := [RealOpt, GenOpt, ShiftOpt, FpsOpt, OutRealOpt, OutGenOpt]

  lemma {:induction false} NamesDistinct(a: Opt, b: Opt)
    requires Name(a) == Name(b)
    ensures a == b
  {
    assert |Name(a)| == |Name(b)| && Name(a)[2] == Name(b)[2];
  }

  /** One option word and the word after it, as the shell splits the command line. */
  datatype Flag = Flag(word: string, value: string)

  /** The first of `opts` named exactly `word`. */
  function Exact(word: string, opts: seq<Opt>): Option<Opt> {
    if opts == [] then None
    else if Name(opts[0]) == word then Some(opts[0])
    else Exact(word, opts[1..])
  }

  /** The options among `opts` that `word` abbreviates (is a prefix of), in order. */
  function Completions(word: string, opts: seq<Opt>): seq<Opt> {
    if opts == [] then []
    else (if word <= Name(opts[0]) then [opts[0]] else []) + Completions(word, opts[1..])
  }

  /** The option a word names: a declared option by its exact name, or else the only one
      the word abbreviates (`allow_abbrev`); none for an unknown or an ambiguous word. */
  function Resolve(word: string): Option<Opt> {
    match Exact(word, Declared)
    case Some(o) => Some(o)
    case None =>
      var cs := Completions(word, Declared);
      if |cs| == 1 then Some(cs[0]) else None
  }

  /** `Exact` finds an option of that name, or there is none. */
  lemma {:induction false} ExactFinds(word: string, opts: seq<Opt>)
    ensures var r := Exact(word, opts);
      && (r.Some? ==> r.value in opts && Name(r.value) == word)
      && (r.None? ==> forall o | o in opts :: Name(o) != word)
    decreases |opts|
  {
    if opts != [] && Name(opts[0]) != word {
      ExactFinds(word, opts[1..]);
    }
  }

  /** The completions of a word are the options it is a prefix of. */
  lemma {:induction false} CompletionsAre(word: string, opts: seq<Opt>)
    ensures forall o :: o in Completions(word, opts) <==> o in opts && word <= Name(o)
    decreases |opts|
  {
    if opts != [] {
      CompletionsAre(word, opts[1..]);
    }
  }

  /** A word names only an option it spells out or abbreviates. */
  lemma {:induction false} ResolvePrefix(word: string)
    ensures Resolve(word).Some? ==> word <= Name(Resolve(word).value)
  {
    ExactFinds(word, Declared);
    var cs := Completions(word, Declared);
    if Exact(word, Declared).None? && |cs| == 1 {
      CompletionsAre(word, Declared);
      assert cs[0] in cs;
    }
  }

  /** A declared option's own name names it. */
  lemma {:induction false} ResolveName(o: Opt)
    ensures Resolve(Name(o)) == Some(o)
  {
    assert o in Declared;
    ExactFinds(Name(o), Declared);
    var r := Exact(Name(o), Declared);
    NamesDistinct(r.value, o);
  }

  /** A word no declared name starts with, and that is no declared name, names nothing. */
  lemma {:induction false} ResolveUnknown(word: string)
    requires forall o :: !(word <= Name(o))
    ensures Resolve(word).None?
  {
    ExactFinds(word, Declared);
    CompletionsNone(word, Declared);
  }

  lemma {:induction false} CompletionsNone(word: string, opts: seq<Opt>)
    requires forall o | o in opts :: !(word <= Name(o))
    ensures Completions(word, opts) == []
    decreases |opts|
  {
    if opts != [] {
      assert opts[0] in opts;
      CompletionsNone(word, opts[1..]);
    }
  }

  /** The values given, by option, a later occurrence replacing an earlier one; none when
      a word names no option (argparse exits with status 2). */
  function Collect(flags: seq<Flag>): Option<map<Opt, string>> {
    if flags == [] then Some(map[])
    else
      var last := flags[|flags| - 1];
      var before := Collect(flags[..|flags| - 1]);
      var o := Resolve(last.word);
      if before.Some? && o.Some? then Some(before.value[o.value := last.value]) else None
  }

  /** One word that names no option makes `argparse` reject the whole command line. */
  lemma {:induction false} CollectUnknown(flags: seq<Flag>, k: nat)
    requires k < |flags| && Resolve(flags[k].word).None?
    ensures Collect(flags).None?
    decreases |flags|
  {
    var init := flags[..|flags| - 1];
    if k < |init| {
      assert init[k] == flags[k];
      CollectUnknown(init, k);
    }
  }

  /** `type=int`, for the integers this model reads (`-?\d+`). */
  function IntArg(v: string): (r: Option<int>)
    ensures r.Some? <==> IsIntLiteral(v)
  {
    if IsIntLiteral(v) then Some(IntValue(v)) else None
  }

  /** Every option declared with `required=True` was given. */
  predicate HasRequired(m: map<Opt, string>) {
    RealOpt in m && GenOpt in m && ShiftOpt in m && OutRealOpt in m && OutGenOpt in m
  }

  /** `parser.parse_args()`: every word names an option, every required option is given,
      and `--shift` and `--fps` (default 30) are integers; otherwise none. */
  function ParseTrimArgs(flags: seq<Flag>): (r: Option<Args>)
    ensures r.Some? ==> Collect(flags).Some? && HasRequired(Collect(flags).value)
  {
    match Collect(flags)
    case None => None
    case Some(m) =>
      if !HasRequired(m) then None
      else
        var fps := if FpsOpt in m then IntArg(m[FpsOpt]) else Some(30);
        match (IntArg(m[ShiftOpt]), fps)
        case (Some(shift), Some(f)) => Some(Args(m[RealOpt], m[GenOpt], shift, f, m[OutRealOpt], m[OutGenOpt]))
        case _ => None
  }

  /** The script on a command line: exit status 2 with no subprocess when `argparse`
      rejects it, else `main` on the parsed arguments. */
  function TrimCommandLine(flags: seq<Flag>, encodes: bool, copies: bool): Run {
    match ParseTrimArgs(flags)
    case None => Run([], 2)
    case Some(args) => TrimMain(args, encodes, copies)
  }

  /** The value the pipelines pass for an option. */
  function Value(args: Args, o: Opt): string {
    match o
    case RealOpt => args.realPath
    case GenOpt => args.genPath
    case ShiftOpt => IntToString(args.shift)
    case FpsOpt => IntToString(args.fps)
    case OutRealOpt => args.outReal
    case OutGenOpt => args.outGen
  }

  /** The option names the pipelines write: `--out-real` and `--out-gen` with hyphens. */
  function WrittenName(o: Opt): string {
    match o
    case OutRealOpt => "--out-real"
    case OutGenOpt => "--out-gen"
    case _ => Name(o)
  }

  /** The pipelines' command line, `--real … --gen … --shift … --fps … --out-real …
      --out-gen …`, as written. */
  function PipelineFlagsAsWritten(args: Args): (flags: seq<Flag>)
    ensures |flags| == 6 && forall k | 0 <= k < 6 :: flags[k] == Flag(WrittenName(Declared[k]), Value(args, Declared[k]))
  {
    seq(6, k requires 0 <= k < 6 => Flag(WrittenName(Declared[k]), Value(args, Declared[k])))
  }

  /** The same command line with the option names the script declares. */
  function PipelineFlags(args: Args): (flags: seq<Flag>)
    ensures |flags| == 6 && forall k | 0 <= k < 6 :: flags[k] == Flag(Name(Declared[k]), Value(args, Declared[k]))
  {
    seq(6, k requires 0 <= k < 6 => Flag(Name(Declared[k]), Value(args, Declared[k])))
  }

  /** A word that differs from `name` at position `i` does not start it. */
  lemma {:induction false} NotPrefixAt(word: string, name: string, i: nat)
    requires i < |word| && (i >= |name| || word[i] != name[i])
    ensures !(word <= name)
  {
  }

  /** `--out-gen` is neither a declared option nor an abbreviation of one: its sixth
      character is a hyphen where the declared names have an underscore. */
  lemma {:induction false} HyphenatedUnknown()
    ensures Resolve("--out-gen").None?
  {
    var w := "--out-gen";
    forall o ensures !(w <= Name(o)) {
      NotPrefixAt(w, Name(o), 5);
    }
    ResolveUnknown(w);
  }

  /** As the pipelines call it, the trim script never runs: `argparse` rejects the command
      line and exits with status 2, before any subprocess starts. */
  lemma {:induction false} PipelineCallRejected(args: Args, encodes: bool, copies: bool)
    ensures TrimCommandLine(PipelineFlagsAsWritten(args), encodes, copies) == Run([], 2)
  {
    var flags := PipelineFlagsAsWritten(args);
    assert flags[5].word == "--out-gen";
    HyphenatedUnknown();
    CollectUnknown(flags, 5);
  }

  /** When every word names an option, the values are collected. */
  lemma {:induction false} CollectKnown(flags: seq<Flag>)
    requires forall k | 0 <= k < |flags| :: Resolve(flags[k].word).Some?
    ensures Collect(flags).Some?
    decreases |flags|
  {
    if flags != [] {
      var init := flags[..|flags| - 1];
      forall k | 0 <= k < |init| ensures Resolve(init[k].word).Some? {
        assert init[k] == flags[k];
      }
      CollectKnown(init);
    }
  }

  /** The value recorded for an option is the one after its last occurrence. */
  lemma {:induction false} CollectLast(flags: seq<Flag>, k: nat, o: Opt)
    requires k < |flags| && Collect(flags).Some? && Resolve(flags[k].word) == Some(o)
    requires forall j | k < j < |flags| :: Resolve(flags[j].word) != Some(o)
    ensures o in Collect(flags).value && Collect(flags).value[o] == flags[k].value
    decreases |flags|
  {
    var init := flags[..|flags| - 1];
    if k < |init| {
      assert init[k] == flags[k];
      forall j | k < j < |init| ensures Resolve(init[j].word) != Some(o) {
        assert init[j] == flags[j];
      }
      CollectLast(init, k, o);
    }
  }

  lemma {:induction false} PipelineFlagsResolve(args: Args)
    ensures forall k | 0 <= k < 6 :: Resolve(PipelineFlags(args)[k].word) == Some(Declared[k])
  {
    forall k | 0 <= k < 6 ensures Resolve(PipelineFlags(args)[k].word) == Some(Declared[k]) {
      ResolveName(Declared[k]);
    }
  }

  lemma {:induction false} DeclaredDistinct()
    ensures forall j, k | 0 <= j < k < |Declared| :: Declared[j] != Declared[k]
  {
  }

  /** `int()` reads back what `str()` printed. */
  lemma {:induction false} IntArgOf(i: int)
    ensures IntArg(IntToString(i)) == Some(i)
  {
    IntToStringValue(i);
  }

  /** The values `argparse` records for the pipelines' command line with the declared
      names. */
  lemma {:induction false} CollectPipelineFlags(args: Args)
    ensures var m := Collect(PipelineFlags(args));
      && m.Some? && HasRequired(m.value) && FpsOpt in m.value
      && m.value[RealOpt] == args.realPath && m.value[GenOpt] == args.genPath
      && m.value[ShiftOpt] == IntToString(args.shift) && m.value[FpsOpt] == IntToString(args.fps)
      && m.value[OutRealOpt] == args.outReal && m.value[OutGenOpt] == args.outGen
  {
    var flags := PipelineFlags(args);
    PipelineFlagsResolve(args);
    DeclaredDistinct();
    CollectKnown(flags);
    forall k | 0 <= k < 6
      ensures Declared[k] in Collect(flags).value && Collect(flags).value[Declared[k]] == Value(args, Declared[k])
    {
      CollectLast(flags, k, Declared[k]);
    }
    var m := Collect(flags).value;
    assert m[Declared[0]] == Value(args, RealOpt) && m[Declared[1]] == Value(args, GenOpt);
    assert m[Declared[2]] == Value(args, ShiftOpt) && m[Declared[3]] == Value(args, FpsOpt);
    assert m[Declared[4]] == Value(args, OutRealOpt) && m[Declared[5]] == Value(args, OutGenOpt);
  }

  /** `parse_args` gives back the pipeline's arguments. */
  lemma {:induction false} ParsePipelineFlags(args: Args)
    ensures ParseTrimArgs(PipelineFlags(args)) == Some(args)
  {
    CollectPipelineFlags(args);
    IntArgOf(args.shift);
    IntArgOf(args.fps);
  }

  /** With the declared option names, the command line reaches `main` with the pipeline's
      arguments. */
  lemma {:induction false} PipelineCallTrims(args: Args, encodes: bool, copies: bool)
    ensures TrimCommandLine(PipelineFlags(args), encodes, copies) == TrimMain(args, encodes, copies)
  {
    ParsePipelineFlags(args);
  }

  /** Exactly one video is re-encoded, cut by `|shift|` frames, which is `seconds * fps`, and
      the other is copied, in that order: the real video when the shift is at least 0 (shift
      0 included) and the generated one otherwise. */
  lemma {:induction false} TrimDecision(args: Args, encodes: bool, copies: bool)
    requires args.fps != 0 && encodes
    ensures var r := TrimMain(args, encodes, copies);
      && |r.commands| == 2 && r.commands[0].Encode? && r.commands[1].Copy?
      && r.commands[0].seconds * args.fps as real == (if args.shift >= 0 then args.shift else -args.shift) as real
      && (args.shift >= 0 ==>
            r.commands[0].input == args.realPath && r.commands[0].output == args.outReal
            && r.commands[1] == Copy(args.genPath, args.outGen))
      && (args.shift < 0 ==>
            r.commands[0].input == args.genPath && r.commands[0].output == args.outGen
            && r.commands[1] == Copy(args.realPath, args.outReal))
  {
  }

  /** The exit status: 0 exactly when `fps` is not 0 and both subprocesses succeed; when the
      frame rate is 0 no subprocess starts, and when `ffmpeg` fails the copy is not started. */
  lemma {:induction false} TrimFailures(args: Args, encodes: bool, copies: bool)
    ensures var r := TrimMain(args, encodes, copies);
      && (r.status == 0 <==> args.fps != 0 && encodes && copies)
      && (r.status != 0 ==> r.status == 1)
      && (args.fps == 0 ==> r.commands == [])
      && (args.fps != 0 && !encodes ==> |r.commands| == 1 && r.commands[0].Encode?)
  {
  }

  /** The two videos as frame sequences after the plan has run: the trimmed one without its
      first `frames` frames, the copied one whole. */
  function Trimmed<T>(plan: Plan, realFrames: seq<T>, genFrames: seq<T>): (seq<T>, seq<T>) {
    if plan.trimmed == RealSide then (Drop(realFrames, plan.frames), genFrames)
    else (realFrames, Drop(genFrames, plan.frames))
  }

  /** The sign convention agrees with the search's alignment (`s1 = real[shift:]` for a
      positive shift, `s2 = gen[-shift:]` for a negative one): the pair of sequences the
      search scored for `shift` are the leading frames of the two trimmed videos, so frame `k`
      of one trimmed video is frame `k` of the other in the scored alignment. */
  lemma {:induction false} TrimMatchesAlignment<T>(realFrames: seq<T>, genFrames: seq<T>, shift: int)
    ensures var (s1, s2) := Align(realFrames, genFrames, shift);
      var (t1, t2) := Trimmed(PlanFor(shift), realFrames, genFrames);
      && |s1| <= |t1| && s1 == t1[..|s1|]
      && |s2| <= |t2| && s2 == t2[..|s2|]
  {
    var (s1, s2) := Align(realFrames, genFrames, shift);
    var (t1, t2) := Trimmed(PlanFor(shift), realFrames, genFrames);
    AlignFrames(realFrames, genFrames, shift);
    assert |s1| <= |t1| && |s2| <= |t2|;
    assert s1 == t1[..|s1|];
    assert s2 == t2[..|s2|];
  }
}
