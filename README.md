# Temporal alignment of a real and a generated talking-face video

This project models the part of the evaluation pipeline that lines up a real video with a
generated one in time. It proves properties of that model. There are four pieces:

1. **The shift search.** These are the scripts `evaluation/compute_dtw_min_diff_improved.py`,
   `evaluation/compute_dtw_min_diff.py` and `evaluation/compute_dtw_max_diff.py`.
   - Each shift in an inclusive range aligns the two per-frame feature sequences. A positive
     shift drops leading real frames, a negative one drops leading generated frames, and the
     other side is cut to match.
   - A length check decides whether the shift is scored.
   - A strict running comparison keeps the best score, from a start of infinity.
   - The improved script can first drop frames whose features sum to (nearly) zero. These
     are the frames with no face detected.
   - Each script's standard output is modelled line by line: the per-shift lines, the
     summary, and the direction message.
2. **The two parsers that read the printed output back as one shift.**
   - `extract_optimal_shift` in `run_evaluation_pipeline_auto.py`.
   - `extract_optimal_shift_windows` in `run_evaluation_pipeline_windows_auto.py`.
   - Each regular expression they use is an explicit matcher over one line. The matcher
     has literals, `\s+`/`\s*` runs, `-?\d+`, `[\d.]+` and a greedy `.*`.
   - The round trips from the improved script's output to the parsed shift are proved for
     both parsers. So is the Windows parser's reading of the direction messages.
3. **The trim decision** of `preprocessing/shift_videos_trim.py`. The sign of the shift
   decides which video loses how many leading frames. The seek time is `frames / fps`.
4. **Clip windowing** in `preprocessing/clip_split.py`.
   - The sorted image files are cut into sliding windows of `clip_size` images.
   - A window is saved as the next numbered clip when every image in it reads.

The DTW distance is a parameter `score` of the search. The readability of an image and the
success of a write are parameters `readable` and `writes`. The directory listing is a
parameter too.

Behaviour of the code worth knowing:
- The skip test of the two min-diff scripts looks only at the real-side sequence `s1`,
  not at the shorter of the two (`ShiftSearch.EvaluatedIff`).
  - `ShiftSearch.ShortGeneratedSideScored` shows that the improved script scores
    alignments whose generated side is shorter than 10 frames.
- Shift 0 compares the two sequences whole, even when their lengths differ.
- The trim script re-encodes one video and copies the other one unchanged. It does not
  re-encode both to the same duration.
- The auto pipeline's parser can raise: `float()` on a captured norm such as `1.2.3`
  raises `ValueError` (`AutoParser.Outcome.ValueError`). Nothing in `extract_optimal_shift`
  catches it; `main` (run_evaluation_pipeline_auto.py:378-380) turns it into exit status 1.
  The Windows parser never raises.
- Without a summary line the two parsers pick differently from the same per-shift lines.
  The auto parser takes the lowest printed norm. In the Windows parser the third summary
  pattern already matches the first per-shift line, so its argmin stage never sees them
  and the first shift printed wins (`PartialListing.ParsersDisagree`).
- The pipelines pass `--out-real`/`--out-gen` to the trim script, which declares
  `--out_real`/`--out_gen`, so `argparse` rejects every such call (see Findings).

Modules (one file each): `Wrappers`, `Text` (characters, lines, case folding), `Numerals`
(`str(int)`, `float()`, `{:.3f}`, `{:04d}`), `Patterns` (the regular expressions),
`Recognition` (the summary line against the summary patterns), `Extremum` (the running best),
`Sanitizer`, `Report` (the printed lines), `ShiftSearch`, `AutoParser`, `WindowsParser`,
`RoundTrip`, `PartialListing` (both parsers on per-shift lines without a summary),
`LeadScan`, `ShiftTrim` (with its command line), `ClipSplit`.

## Model

| member | source | states |
|---|---|---|
| Sanitizer.RemoveInvalidFrames | evaluation/compute_dtw_min_diff_improved.py:15-18 | The mask has one entry per frame. An entry holds exactly when the frame's L1 norm exceeds the threshold. The frames returned are the masked frames in their original order. |
| Sanitizer.RemoveInvalidFramesKeepsExactly | evaluation/compute_dtw_min_diff_improved.py:17-18 | Every frame returned is over the threshold. Every frame over the threshold is returned, in its own place. |
| Sanitizer.NoFaceFrameDropped | extract_sequence_features.py:20 | The `[0.0, 0.0]` frame written for no detected face is never kept under the default threshold 1e-6. |
| Sanitizer.RemoveInvalidFramesIdempotent | evaluation/compute_dtw_min_diff_improved.py:15-18 | Cleaning never adds frames, and cleaning a cleaned sequence changes nothing. |
| Sanitizer.L1 | evaluation/compute_dtw_min_diff_improved.py:17 | `np.sum(np.abs(frame))` is never negative. |
| ShiftSearch.Drop | evaluation/compute_dtw_min_diff_improved.py:56 | `s[n:]` has the elements after the first `n`, and is empty when `n` is past the end. |
| ShiftSearch.Take | evaluation/compute_dtw_min_diff_improved.py:57 | `s[:n]` has the first `n` elements, or all of them when there are fewer. |
| ShiftSearch.Align | evaluation/compute_dtw_min_diff_improved.py:55-62 | Drops `shift` real frames for a positive shift and `-shift` generated frames for a negative one, then cuts the other side to the same length. Shift 0 leaves both whole. |
| ShiftSearch.AlignFrames | evaluation/compute_dtw_min_diff_improved.py:55-62 | Position `k` of the aligned pair holds real frame `k + max(shift, 0)` and generated frame `k + max(-shift, 0)`. |
| ShiftSearch.EvaluatedIff | evaluation/compute_dtw_min_diff_improved.py:64-65 | The skip rules in terms of the input lengths and the shift. Improved: `len(s1) >= 10`. Min-diff: `len(s1) >= 2`. Max-diff: both lengths at least 2 (evaluation/compute_dtw_max_diff.py:61-62). |
| ShiftSearch.ShortGeneratedSideScored | evaluation/compute_dtw_min_diff_improved.py:64 | With 12 real and 5 generated frames, shift 0 is scored although the generated side has fewer than 10 frames. |
| ShiftSearch.EvaluationsSound | evaluation/compute_dtw_min_diff_improved.py:50-68 | `results` holds only shifts of the range that pass the check, each with its own norm, in strictly ascending order. |
| ShiftSearch.EvaluationsComplete | evaluation/compute_dtw_min_diff_improved.py:53-68 | Every shift in the range that passes the check is in `results`. |
| ShiftSearch.SearchShifts | evaluation/compute_dtw_min_diff_improved.py:48-73 | The loop returns the evaluated shifts in ascending order with their norms, the running best of them, and one printed line per evaluated shift. |
| ShiftSearch.ScoreShift | evaluation/compute_dtw_min_diff_improved.py:54-73 | One turn of the loop keeps results, best and printed lines equal to their definitions over the shifts seen so far. |
| ShiftSearch.RunScript | evaluation/compute_dtw_min_diff_improved.py:37-86 | `main` after loading: it sanitises only for the improved script run with `--remove_invalid`, and does the search. It prints the header, the per-shift lines and the ending, and best is the first optimum of the evaluated shifts. |
| ShiftSearch.BestIsFirstOptimalShift | evaluation/compute_dtw_min_diff_improved.py:71-78 | The best is None exactly when no shift in the range is scored. Otherwise it is a scored shift of the range, with its own norm, that no scored shift beats and that strictly beats every scored shift before it (ties go to the smallest shift). |
| ShiftSearch.StricterEvaluations | evaluation/compute_dtw_max_diff.py:61-62 | The max-diff script's scored shifts and the improved script's scored shifts are those of the min-diff script (evaluation/compute_dtw_min_diff.py:62-63) that pass their own stricter check. Norms and order are the same. |
| ShiftSearch.ShiftLinesAt | evaluation/compute_dtw_min_diff.py:65 | There is one printed line per scored shift, and line `k` is the line of the `k`-th scored shift. |
| ShiftSearch.StdoutEnding | evaluation/compute_dtw_min_diff.py:70-73 | `No valid shifts evaluated.` is printed, and is the last line, exactly when nothing was scored. Otherwise the summary (`Min`, or `Max` for evaluation/compute_dtw_max_diff.py:69-72) names the best. |
| ShiftSearch.FooterShape | evaluation/compute_dtw_min_diff_improved.py:75-86 | Without a best the ending is the single line `No valid shifts evaluated.`. With a best the summary is the second line of the ending, and the no-valid line is absent. |
| Extremum.BestOf | evaluation/compute_dtw_min_diff_improved.py:48-49 | The running best is None exactly for an empty sequence, and otherwise one of its elements. |
| Extremum.BestIsFirstOptimum | evaluation/compute_dtw_max_diff.py:65-67 | The running best with a strict `<` (or `>`) is the first optimum: nothing beats it and it beats everything before it. |
| Extremum.BestIff | evaluation/compute_dtw_min_diff.py:66-68 | The running best returns index `i` exactly when `i` is the first optimum. |
| Extremum.FirstOptimumUnique | evaluation/compute_dtw_min_diff.py:66-68 | There is only one first optimum. |
| Extremum.BestTiesGoFirst | evaluation/compute_dtw_min_diff.py:66 | An element tied with the best comes no earlier than it. |
| Extremum.BetterOrder | evaluation/compute_dtw_max_diff.py:65 | The strict comparison is irreflexive, transitive, asymmetric and total on distinct values. |
| Extremum.BestOfSnoc | evaluation/compute_dtw_min_diff_improved.py:71-73 | Adding one element replaces the best exactly when the element is strictly better. |
| Report.LeadOfShift | evaluation/compute_dtw_min_diff_improved.py:81-86 | The direction message loses nothing. It names the real video exactly for a positive shift and the generated one exactly for a negative one, always with a positive count. The shift comes back from the message. |
| Report.IntQuiet | evaluation/compute_dtw_min_diff_improved.py:69 | A printed integer holds none of the letter pairs any pattern keyword needs, begins with a digit or `-` and ends with a digit. |
| Report.ShapesLineQuiet | evaluation/compute_dtw_min_diff_improved.py:40-45 | The shape lines hold no letter pair a pattern keyword needs. |
| Report.EvaluatingLineQuiet | evaluation/compute_dtw_min_diff_improved.py:52 | The `Evaluating shifts …` line holds no letter pair a pattern keyword needs. |
| Report.NoValidLineQuiet | evaluation/compute_dtw_min_diff_improved.py:76 | `No valid shifts evaluated.` and the empty line hold no letter pair a pattern keyword needs. |
| Text.Lowercase | run_evaluation_pipeline_windows_auto.py:170 | ASCII case folding (the model of `str.lower()`) keeps the length and folds each character on its own. |
| Text.LinesOfPrinted | run_evaluation_pipeline_windows_auto.py:167 | Lines printed one per `print` and then split on newlines come back as the same lines, followed by the lines of what comes after. |
| Numerals.NatToStringValue | evaluation/compute_dtw_min_diff_improved.py:84 | `int()` reads back `str(n)` as `n`. |
| Numerals.IntToStringValue | run_evaluation_pipeline_auto.py:62 | `int()` reads back a printed shift, negative ones included, as the shift. |
| Numerals.IntToString | evaluation/compute_dtw_min_diff_improved.py:69 | `str(shift)` is an integer literal, and has only digits for a shift that is not negative. |
| Numerals.RoundHalfEven | evaluation/compute_dtw_min_diff_improved.py:69 | Rounding to an integer moves the value by at most one half. |
| Numerals.Thousandths | evaluation/compute_dtw_min_diff_improved.py:69 | The three printed decimals are the norm in thousandths, within one half of a thousandth. |
| Numerals.PadLeft | evaluation/compute_dtw_min_diff_improved.py:69 | `{shift:3d}` keeps the number at the end and pads only with spaces on the left. |
| Numerals.Fixed3 | evaluation/compute_dtw_min_diff_improved.py:69 | `{norm:.3f}` is made of digits, the point and, for a negative norm, a minus sign. For a non-negative norm it is the rounded magnitude and `float()` accepts it. |
| Numerals.Fixed3Value | run_evaluation_pipeline_auto.py:77 | `float()` of the printed norm is the norm rounded to thousandths, not the norm. So the auto parser's fallback compares printed 3-decimal values. |
| Numerals.ZeroPad4Value | preprocessing/clip_split.py:35 | `{clip_count:04d}` reads back as the clip number. |
| Numerals.ZeroPad4Injective | preprocessing/clip_split.py:35 | Distinct clip numbers give distinct file names. |
| Patterns.SignedInt | run_evaluation_pipeline_windows_auto.py:171 | What `-?\d+` matches is never empty, lies within the line and is an integer literal that `int()` accepts. |
| Patterns.RunEndClass | run_evaluation_pipeline_windows_auto.py:108 | A greedy `\s+`, `\d+` or `[\d.]+` run takes every character of its class and stops at the first one outside it. |
| Patterns.TextMatchesConcat | run_evaluation_pipeline_auto.py:68 | The matches in a text are those of its first part followed by those of the rest. |
| Patterns.MatchAt | run_evaluation_pipeline_auto.py:58-68 | A match is never empty and lies within the line. Its captured shift converts with `int()`. Its captured norm, for every pattern with a norm group, is a `[\d.]+` run. |
| Patterns.FindAll | run_evaluation_pipeline_auto.py:68 | Every match `re.findall` returns within a line is well formed. |
| Patterns.FindAllFirst | run_evaluation_pipeline_auto.py:59 | The first match found is the leftmost one. |
| Patterns.FirstTextMatch | run_evaluation_pipeline_auto.py:59 | The first match in a text is the leftmost match on the first line that has one. |
| Patterns.NoMatchWithoutBigram | run_evaluation_pipeline_windows_auto.py:114 | A line without a letter pair of a pattern's literal (case-folded when the pattern ignores case) has no match of it. |
| Patterns.TextMatchesQuiet | run_evaluation_pipeline_auto.py:68 | Lines without the keywords' letter pairs add no matches of any keyword pattern. |
| Patterns.LastMatchFinds | run_evaluation_pipeline_windows_auto.py:110 | The greedy `.*` finds the rest of the pattern wherever it matches later in the line. |
| Patterns.ConvertibleContents | run_evaluation_pipeline_windows_auto.py:149-160 | The Windows argmin loop keeps a match exactly when `float()` accepts its norm. |
| Recognition.SummaryLineMatch | run_evaluation_pipeline_auto.py:58 | The printed line `Min DTW-norm {norm:.3f} at shift {shift}` is matched from its first character by the auto summary pattern and by the Windows English one (run_evaluation_pipeline_windows_auto.py:108). Each captures the printed shift and norm. |
| AutoParser.ExtractOptimalShift | run_evaluation_pipeline_auto.py:53-90 | The parser as written gives the result of the summary-then-fallback decision on the lines of the text. |
| AutoParser.LowestNorm | run_evaluation_pipeline_auto.py:70-86 | The loop raises exactly when some norm does not convert. Otherwise it returns the running minimum with a strict `<`, from infinity. |
| AutoParser.FirstSummaryWins | run_evaluation_pipeline_auto.py:57-64 | The first summary match in text order decides, whatever follows it. |
| AutoParser.FallbackIsFirstMinimum | run_evaluation_pipeline_auto.py:66-86 | Without a summary, and with every norm convertible, the result is the shift of the first per-shift match with the smallest norm. |
| AutoParser.FallbackOrigin | run_evaluation_pipeline_auto.py:66-90 | The fallback raises exactly when some norm does not convert. It gives 0 when nothing matches, and otherwise the shift of one of the matches. |
| AutoParser.ExtractOrigin | run_evaluation_pipeline_auto.py:53-90 | The result is `ValueError` exactly when there is no summary and some per-shift norm does not convert. It is 0 when neither pattern matches (empty text included). Otherwise it is a shift printed in the text. |
| AutoParser.DecideOrigin | run_evaluation_pipeline_auto.py:58-90 | The same account of the result for any summary and per-shift matches: an error only when no summary exists and a norm does not convert, 0 only when nothing matched, and otherwise a captured shift. |
| WindowsParser.ExtractOptimalShiftWindows | run_evaluation_pipeline_windows_auto.py:92-195 | Blank text gives 0. Then the summary stage, the argmin stage and the line scan are tried in turn, and the first that finds a shift decides. Otherwise the result is 0. |
| WindowsParser.FindSummary | run_evaluation_pipeline_windows_auto.py:107-129 | The three summary patterns are tried in order. The first one whose first match's norm converts decides, reading its groups in that pattern's order. A failed conversion moves on to the next pattern. |
| WindowsParser.LowestConvertible | run_evaluation_pipeline_windows_auto.py:142-164 | Over the English matches and then the Japanese ones, a match whose norm does not convert is skipped. The first strictly smallest norm wins. |
| WindowsParser.LowestSnoc | run_evaluation_pipeline_windows_auto.py:149-160 | One turn of the argmin loop: skip, or replace the best when strictly smaller. |
| WindowsParser.FindLowest | run_evaluation_pipeline_windows_auto.py:132-164 | The argmin stage as written collects the English and then the Japanese per-shift matches and gives the shift of the lowest convertible norm, or nothing. |
| WindowsParser.ScanLines | run_evaluation_pipeline_windows_auto.py:167-189 | The line scan returns the verdict of the first line that has one. A real-video line is checked first and gives its first integer; a generated-video line gives that integer negated. |
| WindowsParser.ShadowAt | run_evaluation_pipeline_windows_auto.py:110 | Wherever the English per-shift pattern (line 133) matches, the summary pattern `shift … DTW-norm = …` matches too, with the same shift. |
| WindowsParser.PerShiftShadowed | run_evaluation_pipeline_windows_auto.py:113-133 | In a text with an English per-shift line, the third summary pattern matches as well. So the summary stage can fail, and leave the decision to the argmin, only when that pattern's first captured norm does not convert. |
| Recognition.PerShiftLineThirdPattern | run_evaluation_pipeline_windows_auto.py:109-113 | The per-shift line (evaluation/compute_dtw_min_diff_improved.py:69) is matched by the third summary pattern from its second character on, not from the first, and the match captures the printed shift and norm. |
| Recognition.PerShiftLineAutoMatch | run_evaluation_pipeline_auto.py:68 | The auto per-shift pattern finds exactly one match in a per-shift line, with the printed shift and norm. |
| RoundTrip.ListingShape | evaluation/compute_dtw_min_diff_improved.py:40-86 | The improved script prints plain and per-shift lines and then, when a shift was scored, the summary second to last. When nothing was scored, every line is plain. |
| RoundTrip.PartsShape | evaluation/compute_dtw_min_diff_improved.py:75-86 | The footer after the header and per-shift lines puts the summary second to last, or ends plain lines with `No valid shifts evaluated.`. |
| RoundTrip.SummaryFirst | run_evaluation_pipeline_auto.py:58-59 | In the improved script's output followed by any text, the first match of the auto or English Windows summary pattern is the summary line. It captures the printed best shift. |
| RoundTrip.ListingNoNewlines | evaluation/compute_dtw_min_diff_improved.py:40-86 | No printed line holds a newline, so the text splits back into exactly the printed lines. |
| RoundTrip.NoSummaryBefore | evaluation/compute_dtw_min_diff_improved.py:69 | No line printed before the summary, per-shift lines included, matches a summary pattern. |
| RoundTrip.AutoRoundTrip | run_evaluation_pipeline_auto.py:53-90 | The auto parser reads the improved script's output (evaluation/compute_dtw_min_diff_improved.py:78) back as the script's best shift. With nothing scored it reads 0. |
| RoundTrip.AutoQuiet | run_evaluation_pipeline_auto.py:88-90 | Output with only plain lines makes the auto parser fall back to 0. |
| RoundTrip.QuietText | run_evaluation_pipeline_windows_auto.py:113-189 | All three stages of the Windows parser find nothing in text made of plain lines. |
| RoundTrip.QuietVerdict | run_evaluation_pipeline_windows_auto.py:170-181 | A plain line names neither video as leading. |
| RoundTrip.WindowsRoundTrip | run_evaluation_pipeline_windows_auto.py:39-46 | The Windows parser reads the combined output back as the improved script's best shift (run_evaluation_pipeline_windows_auto.py:298-304), whatever standard error holds. With nothing scored and empty standard error it reads 0. |
| RoundTrip.WindowsSummary | run_evaluation_pipeline_windows_auto.py:97-126 | A listing with the summary second to last, followed by any text, is not blank, and the English summary pattern decides with the printed shift. |
| RoundTrip.ListingNotBlank | run_evaluation_pipeline_windows_auto.py:97-99 | Output that holds a summary line is never blank, so the Windows parser does not return early. |
| PartialListing.NoSummaryInListing | run_evaluation_pipeline_windows_auto.py:107-108 | In header lines followed by per-shift lines there is no match of the English or Japanese Windows summary pattern, nor of the auto one (run_evaluation_pipeline_auto.py:58). |
| PartialListing.ThirdPatternFirst | run_evaluation_pipeline_windows_auto.py:109-113 | In such a listing the first match of `shift\s+(-?\d+).*DTW-norm\s*=\s*([\d.]+)` is on the first per-shift line, with its printed shift and norm. |
| PartialListing.WindowsTakesFirstPerShift | run_evaluation_pipeline_windows_auto.py:107-129 | After the script's other lines, per-shift lines with any non-negative norms make the Windows parser return the first per-shift line's shift: the summary stage decides on it, and the argmin stage (lines 132-164) is not reached. |
| PartialListing.AutoPerShiftMatches | run_evaluation_pipeline_auto.py:68 | In such a listing the auto per-shift matches are the per-shift lines' printed shifts and norms, one per line, in order. |
| PartialListing.AutoTakesLowestPrinted | run_evaluation_pipeline_auto.py:66-86 | On the same listing the auto parser returns the shift of the first per-shift line whose printed norm (in thousandths) is lowest. |
| PartialListing.ParsersDisagree | run_evaluation_pipeline_windows_auto.py:107-164 | Two per-shift lines, shift 0 with norm 2.0 and then shift 1 with norm 1.0: the Windows parser returns 0 and the auto parser (run_evaluation_pipeline_auto.py:66-86) returns 1. |
| LeadScan.FirstInteger | run_evaluation_pipeline_windows_auto.py:171 | The first integer `re.findall(r'(-?\d+)')` finds after text with no digit or `-` is the following run of digits. |
| LeadScan.NoInteger | run_evaluation_pipeline_windows_auto.py:171-172 | A line with no digit and no `-` has no integer. |
| LeadScan.LeadScanned | run_evaluation_pipeline_windows_auto.py:167-189 | The line scan reads a direction message back as the shift it stands for. This holds for the improved script's English message (evaluation/compute_dtw_min_diff_improved.py:81-86) and the pipelines' Japanese one (run_evaluation_pipeline_windows_auto.py:306-312). The synchronized message is passed by. |
| LeadScan.DirectionRoundTrip | run_evaluation_pipeline_auto.py:235-240 | The direction message printed for any non-zero shift, in either language, is read back by the line scan as that shift. The message for 0 is passed by. |
| LeadScan.NotRealLine | run_evaluation_pipeline_windows_auto.py:170 | A line without the letter pairs `re` and `実写` fails the real-video test, so a generated-video line reaches the second test. |
| ShiftTrim.Seconds | preprocessing/shift_videos_trim.py:25 | `seconds = frame_trim / fps` satisfies `seconds * fps == frame_trim`. It exists exactly when `fps` is not 0. |
| ShiftTrim.TrimDecision | preprocessing/shift_videos_trim.py:50-59 | When `fps` is not 0 and `ffmpeg` succeeds, exactly one video is re-encoded, cut by `abs(shift)` frames (`seconds * fps`), and the other is copied, in that order. The real video is cut for shift ≥ 0 (0 included), the generated one otherwise. |
| ShiftTrim.TrimFailures | preprocessing/shift_videos_trim.py:32-36 | The exit status is 0 exactly when `fps` is not 0 and both subprocesses succeed, and 1 otherwise. No copy follows a failed `ffmpeg`. |
| ShiftTrim.ResolveName | preprocessing/shift_videos_trim.py:41-47 | Each declared option is named by its own exact spelling. |
| ShiftTrim.ResolvePrefix | preprocessing/shift_videos_trim.py:48 | A word names only an option it spells out or abbreviates. |
| ShiftTrim.ResolveUnknown | preprocessing/shift_videos_trim.py:48 | A word that is no declared name and abbreviates none names no option. |
| ShiftTrim.CollectUnknown | preprocessing/shift_videos_trim.py:48 | One word that names no option makes `parse_args` reject the whole command line. |
| ShiftTrim.CollectKnown | preprocessing/shift_videos_trim.py:48 | When every word names an option, the values are collected. |
| ShiftTrim.CollectLast | preprocessing/shift_videos_trim.py:48 | The value recorded for an option is the one given at its last occurrence. |
| ShiftTrim.HyphenatedUnknown | run_evaluation_pipeline_auto.py:249 | `--out-gen` neither spells out nor abbreviates a declared option (preprocessing/shift_videos_trim.py:46-47). |
| ShiftTrim.PipelineCallRejected | run_evaluation_pipeline_auto.py:249 | The trim command line as the pipeline writes it makes the script exit with status 2 before any subprocess starts. |
| ShiftTrim.ParsePipelineFlags | preprocessing/shift_videos_trim.py:40-48 | With the declared names, `parse_args` gives back exactly the arguments the pipeline passes. |
| ShiftTrim.PipelineCallTrims | preprocessing/shift_videos_trim.py:39-59 | With the declared names, the command line runs `main` on the pipeline's arguments. |
| ShiftTrim.TrimMatchesAlignment | preprocessing/shift_videos_trim.py:10-11 | The sign convention agrees with the search: the frames the search scored for a shift are the leading frames of the two trimmed videos (evaluation/compute_dtw_min_diff_improved.py:55-62). |
| ClipSplit.Insert | preprocessing/clip_split.py:9 | Inserting a name into a sorted list keeps it sorted and adds exactly that name. |
| ClipSplit.SortNames | preprocessing/clip_split.py:9 | `sorted()` gives a sorted permutation. |
| ClipSplit.NameLeqTotal | preprocessing/clip_split.py:9 | Python's string order, as `sorted()` uses it, compares any two names. |
| ClipSplit.NameLeqTrans | preprocessing/clip_split.py:9 | That order is transitive. |
| ClipSplit.ImagesAreTheSortedImageFiles | preprocessing/clip_split.py:8-9 | `imgs` is sorted and holds each `.png`/`.jpg`/`.jpeg` file of the listing (case-insensitive), as often as the listing does, and nothing else. |
| ClipSplit.FilterCount | preprocessing/clip_split.py:9 | The comprehension keeps each accepted name as often as it occurs, and no other name. |
| ClipSplit.ReadWindow | preprocessing/clip_split.py:18-28 | The inner loop succeeds exactly when every image of the window reads, and then holds the window. Otherwise it stopped at the first image that does not read. |
| ClipSplit.SaveWindows | preprocessing/clip_split.py:13-36 | The outer loop over window starts `0 .. len(imgs) - clip_size` saves exactly the clips of the definition, and `clip_count` is their number. |
| ClipSplit.SplitClips | preprocessing/clip_split.py:4-40 | `split_clips` saves the clips of the sorted image files, and its final count is their number. |
| ClipSplit.ClipsWellFormed | preprocessing/clip_split.py:13-36 | Clips are numbered 0, 1, 2, … without gaps. Each holds the `clip_size` images `imgs[i..i+clip_size]` of a window whose images all read. Clips follow the window order, and there are never more clips than windows. |
| ClipSplit.SavedIffKept | preprocessing/clip_split.py:31-36 | A window is saved exactly when all its images read and the write succeeds. |
| ClipSplit.ClipFileNamesDistinct | preprocessing/clip_split.py:35 | No two saved clips are written to the same `clip_{clip_count:04d}.npz` file, so none overwrites another. |
| ClipSplit.KeptWindowSaved | preprocessing/clip_split.py:14-36 | A window whose images all read and whose write succeeds is among the saved clips once the loop has passed it. |

## Left out

- The DTW distance (`compute_dtw_norm`, the `dtw` library) is left out. It is the parameter
  `score`, and the model assumes it returns a real number (no NaN) for every pair of
  sequences. That includes an empty generated side: with `--remove_invalid` and every
  generated frame a no-face frame, shift 0 passes the `len(s1)` check and calls
  `score(real, [])`. Whether the `dtw` library raises there is not modelled.
- Floating point is left out.
  - Norms are reals.
  - `np.inf` and `-np.inf` as the start of the running best are `None`.
  - `float()` is the exact value of the decimal text, with no overflow to infinity.
  - `{:.3f}` rounds the real value half to even; binary doubles are not modelled.
- Loading the `.npy` files, printing, `os.listdir`, `os.makedirs`, `cv2.imread` and
  `np.savez` are not modelled as I/O. The listing, `readable` and `writes` are parameters.
  The parsers' own diagnostic prints are not modelled.
- The `ffmpeg` and `cp` subprocesses are reduced to the commands started and whether each
  succeeded. `str(seconds)` as the text of the `-ss` argument is not modelled; the command
  holds the exact quotient.
- Pipeline orchestration is left out: `run_command`, `get_python_command`, directory and
  file checks, and the stage order of `main`. Only the way `run_command_with_output` joins
  standard output and standard error is kept (`WindowsParser.CombinedOutput`).
- `argparse` is modelled only for the option words and values the pipelines pass. Left out:
  `-h`/`--help`, the `--opt=value` form, values that begin with `-`, and the forms of
  integer `int()` accepts beyond `-?\d+`. The shell's split of the command line into words
  is modelled as pairs of option and value.
- The regular expressions are matched per line of the text. In Python, `\s+` and `\s*`
  could also span a newline. A match that does so is not found by this model.
- Case folding (`str.lower()`, `re.IGNORECASE`) covers ASCII letters only. `\d` covers the
  ASCII digits only.
- RoundTrip.AutoRoundTrip: requires the best norm to be non-negative, which a DTW distance
  is. A negative norm prints with a `-` that `[\d.]+` does not match.
- RoundTrip.WindowsRoundTrip: requires the same non-negative norm. With nothing scored it
  states the result only when standard error is empty.
- RoundTrip.SummaryFirst: states the match for a non-negative norm only.
- LeadScan.DirectionRoundTrip: covers the direction line on its own. In the improved
  script's full output the summary line decides first (`RoundTrip.WindowsRoundTrip`).
- The Windows parser's exception path in `run_command_with_output`, which returns the
  exception text, is left out.
- The model and training files, the floating-point metrics files and the
  dataset-preparation helper are not part of this model. Neither are
  `evaluation/compute_dtw.py` and `run_evaluation_pipeline_windows.py`.

## Findings

| source | as written | input that shows it | evidently intended | confidence | as-written member | corrected member |
|---|---|---|---|---|---|---|
| run_evaluation_pipeline_auto.py:249 | The trim step passes `--out-real {shifted_real} --out-gen {shifted_gen}`, but preprocessing/shift_videos_trim.py:46-47 declares `--out_real` and `--out_gen`. | Any run that reaches the trim step. `--out-gen` is no declared name and abbreviates none, so `argparse` exits with status 2 and nothing is trimmed. The same command is at run_evaluation_pipeline_windows_auto.py:318. | Pass `--out_real` and `--out_gen`. | not executed | ShiftTrim.PipelineCallRejected | ShiftTrim.PipelineCallTrims |
