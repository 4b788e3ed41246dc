/** `split_clips` of `preprocessing/clip_split.py`: the image files of a directory, in
    sorted order, cut into overlapping windows of `clip_size` consecutive images; a window
    is saved as the next numbered clip when every image in it can be read. */
module ClipSplit {
  import opened Text
  import opened Numerals

  // ---------------------------------------------------------------------------------------
  // Which files are images, and their order.

  predicate EndsWith(s: string, suffix: string) {
    |suffix| <= |s| && s[|s| - |suffix|..] == suffix
  }

  /** `f.lower().endswith(('.png', '.jpg', '.jpeg'))`. */
  predicate IsImageName(name: string) {
    var folded := Lowercase(name);
    EndsWith(folded, ".png") || EndsWith(folded, ".jpg") || EndsWith(folded, ".jpeg")
  }

  /** The names `keep` accepts, in their order. */
  function Filter(names: seq<string>, keep: string -> bool): seq<string> {
    if names == [] then []
    else
      var rest := Filter(names[1..], keep);
      if keep(names[0]) then [names[0]] + rest else rest
  }

  /** A filter keeps each accepted name as often as it occurs, and no other name. */
  lemma {:induction false} FilterCount(names: seq<string>, keep: string -> bool, name: string)
    ensures multiset(Filter(names, keep))[name] == if keep(name) then multiset(names)[name] else 0
  {
    if names != [] {
      var x, rest := names[0], names[1..];
      FilterCount(rest, keep, name);
      assert names == [x] + rest;
      assert multiset(names) == multiset{x} + multiset(rest);
      if keep(x) {
        assert multiset([x] + Filter(rest, keep)) == multiset{x} + multiset(Filter(rest, keep));
      }
    }
  }

  /** The listing's image files, in the listing's order. */
  function ImageNames(listing: seq<string>): seq<string> {
    Filter(listing, IsImageName)
  }

  /** Python's `<=` on `str`: code points compared from the left, a prefix first. */
  predicate NameLeq(a: string, b: string) {
    if a == [] then true
    else if b == [] then false
    else if a[0] != b[0] then a[0] < b[0]
    else NameLeq(a[1..], b[1..])
  }

  lemma {:induction false} NameLeqTotal(a: string, b: string)
    ensures NameLeq(a, b) || NameLeq(b, a)
  {
    if a != [] && b != [] && a[0] == b[0] {
      NameLeqTotal(a[1..], b[1..]);
    }
  }

  lemma {:induction false} NameLeqTrans(a: string, b: string, c: string)
    requires NameLeq(a, b) && NameLeq(b, c)
    ensures NameLeq(a, c)
  {
    if a != [] && b != [] && c != [] && a[0] == b[0] && b[0] == c[0] {
      NameLeqTrans(a[1..], b[1..], c[1..]);
    }
  }

  predicate SortedNames(s: seq<string>) {
    forall i, j | 0 <= i < j < |s| :: NameLeq(s[i], s[j])
  }

  /** `x` put in front of the first name of `s` it does not follow. */
  function Insert(x: string, s: seq<string>): (r: seq<string>)
    requires SortedNames(s)
    ensures SortedNames(r) && multiset(r) == multiset(s) + multiset{x}
  {
    if s == [] then [x]
    else if NameLeq(x, s[0]) then
      InsertFront(x, s);
      [x] + s
    else
      var tail := Insert(x, s[1..]);
      InsertBehind(x, s, tail);
      [s[0]] + tail
  }

  lemma {:induction false} InsertFront(x: string, s: seq<string>)
    requires SortedNames(s) && s != [] && NameLeq(x, s[0])
    ensures SortedNames([x] + s) && multiset([x] + s) == multiset(s) + multiset{x}
  {
    var r := [x] + s;
    forall i, j | 0 <= i < j < |r| ensures NameLeq(r[i], r[j]) {
      assert r[j] == s[j - 1];
      if i == 0 {
        if j > 1 {
          NameLeqTrans(x, s[0], s[j - 1]);
        }
      } else {
        assert r[i] == s[i - 1];
      }
    }
  }

  lemma {:induction false} InsertBehind(x: string, s: seq<string>, tail: seq<string>)
    requires SortedNames(s) && s != [] && !NameLeq(x, s[0])
    requires SortedNames(tail) && multiset(tail) == multiset(s[1..]) + multiset{x}
    ensures SortedNames([s[0]] + tail) && multiset([s[0]] + tail) == multiset(s) + multiset{x}
  {
    HeadBelowTail(x, s, tail);
    ConsSorted(s[0], tail);
    assert s == [s[0]] + s[1..];
  }

  /** Every name of the tail follows the head of `s`: it is `x` or a later name of `s`. */
  lemma {:induction false} HeadBelowTail(x: string, s: seq<string>, tail: seq<string>)
    requires SortedNames(s) && s != [] && !NameLeq(x, s[0])
    requires multiset(tail) == multiset(s[1..]) + multiset{x}
    ensures forall k | 0 <= k < |tail| :: NameLeq(s[0], tail[k])
  {
    NameLeqTotal(x, s[0]);
    forall k | 0 <= k < |tail| ensures NameLeq(s[0], tail[k]) {
      assert tail[k] in multiset(tail);
      if tail[k] != x {
        assert tail[k] in multiset(s[1..]);
        var j :| 0 <= j < |s[1..]| && s[1..][j] == tail[k];
        assert s[j + 1] == tail[k];
      }
    }
  }

  lemma {:induction false} ConsSorted(h: string, tail: seq<string>)
    requires SortedNames(tail) && forall k | 0 <= k < |tail| :: NameLeq(h, tail[k])
    ensures SortedNames([h] + tail)
  {
    assert forall k | 0 <= k < |tail| :: ([h] + tail)[k + 1] == tail[k];
  }

  /** `sorted(names)`. */
  function SortNames(names: seq<string>): (r: seq<string>)
    ensures SortedNames(r) && multiset(r) == multiset(names)
  {
    if names == [] then []
    else
      assert names == [names[0]] + names[1..];
      Insert(names[0], SortNames(names[1..]))
  }

  /** `imgs`: the image files of the listing, sorted. */
  function Images(listing: seq<string>): seq<string> {
    SortNames(ImageNames(listing))
  }

  /** `imgs` is sorted and holds each image file of the listing, and nothing else, as often
      as the listing does. */
  lemma {:induction false} ImagesAreTheSortedImageFiles(listing: seq<string>, name: string)
    ensures SortedNames(Images(listing))
    ensures multiset(Images(listing))[name] == if IsImageName(name) then multiset(listing)[name] else 0
    ensures name in Images(listing) <==> name in listing && IsImageName(name)
  {
    FilterCount(listing, IsImageName, name);
    assert name in Images(listing) <==> multiset(Images(listing))[name] > 0;
    assert name in listing <==> multiset(listing)[name] > 0;
  }

  // ---------------------------------------------------------------------------------------
  // Windows and clips.

  /** `len(range(0, n - clip_size + 1))`. */
  function WindowCount(n: nat, clipSize: int): nat {
    if n - clipSize + 1 > 0 then n - clipSize + 1 else 0
  }

  /** A saved clip: its number in `clip_{number:04d}.npz`, the window it was cut from and the
      images it holds. */
  datatype Clip = Clip(number: nat, start: nat, frames: seq<string>)

  /** Whether the window starting at `i` is saved: every image in it reads (`cv2.imread` is
      not `None`), and `np.stack` and `np.savez` succeed, which needs at least one image. */
  predicate AllReadable(frames: seq<string>, readable: string -> bool) {
    forall k | 0 <= k < |frames| :: readable(frames[k])
  }

  predicate Kept(images: seq<string>, clipSize: int, readable: string -> bool, writes: nat -> bool, i: nat)
    requires i < WindowCount(|images|, clipSize)
  {
    && clipSize > 0
    && AllReadable(images[i..i + clipSize], readable)
    && writes(i)
  }

  /** The clips saved from the first `w` windows. */
  function ClipsUpTo(images: seq<string>, clipSize: int, readable: string -> bool, writes: nat -> bool, w: nat): (clips: seq<Clip>)
    requires w <= WindowCount(|images|, clipSize)
  {
    if w == 0 then []
    else
      var before := ClipsUpTo(images, clipSize, readable, writes, w - 1);
      if Kept(images, clipSize, readable, writes, w - 1)
      then before + [Clip(|before|, w - 1, images[w - 1..w - 1 + clipSize])]
      else before
  }

  function SavedClips(images: seq<string>, clipSize: int, readable: string -> bool, writes: nat -> bool): seq<Clip> {
    ClipsUpTo(images, clipSize, readable, writes, WindowCount(|images|, clipSize))
  }

  /** What the saved clips are: numbered 0, 1, 2, … without gaps, each holding the
      `clip_size` readable images of a window, in the order of the windows, and never more
      clips than windows. */
  lemma {:induction false} ClipsWellFormed(images: seq<string>, clipSize: int, readable: string -> bool, writes: nat -> bool, w: nat)
    requires w <= WindowCount(|images|, clipSize)
    ensures var clips := ClipsUpTo(images, clipSize, readable, writes, w);
      && |clips| <= w
      && (forall k | 0 <= k < |clips| ::
            && clips[k].number == k
            && clips[k].start < w
            && Kept(images, clipSize, readable, writes, clips[k].start)
            && |clips[k].frames| == clipSize
            && clips[k].frames == images[clips[k].start..clips[k].start + clipSize])
      && (forall k, l | 0 <= k < l < |clips| :: clips[k].start < clips[l].start)
  {
    if w > 0 {
      ClipsWellFormed(images, clipSize, readable, writes, w - 1);
    }
  }

  /** The file a clip is written to, `f"{dst_dir}/clip_{clip_count:04d}.npz"`, relative to
      the destination directory. */
  function ClipFileName(c: Clip): string {
    "clip_" + ZeroPad4(c.number) + ".npz"
  }

  /** The number between the fixed prefix and suffix of a clip's file name. */
  lemma {:induction false} ClipFileNameParts(c: Clip)
    ensures var name := ClipFileName(c);
      |name| == |ZeroPad4(c.number)| + 9 && name[5..|name| - 4] == ZeroPad4(c.number)
  {
  }

  /** No two saved clips are written to the same file, so none overwrites another. */
  lemma {:induction false} ClipFileNamesDistinct(images: seq<string>, clipSize: int, readable: string -> bool, writes: nat -> bool, k: nat, l: nat)
    requires var clips := SavedClips(images, clipSize, readable, writes);
      k < |clips| && l < |clips| && k != l
    ensures var clips := SavedClips(images, clipSize, readable, writes);
      ClipFileName(clips[k]) != ClipFileName(clips[l])
  {
    var clips := SavedClips(images, clipSize, readable, writes);
    ClipsWellFormed(images, clipSize, readable, writes, WindowCount(|images|, clipSize));
    if ClipFileName(clips[k]) == ClipFileName(clips[l]) {
      ClipFileNameParts(clips[k]);
      ClipFileNameParts(clips[l]);
      ZeroPad4Injective(clips[k].number, clips[l].number);
    }
  }

  /** Every window that can be saved is saved. */
  lemma {:induction false} KeptWindowSaved(images: seq<string>, clipSize: int, readable: string -> bool, writes: nat -> bool, w: nat, i: nat)
    requires i < w <= WindowCount(|images|, clipSize)
    requires Kept(images, clipSize, readable, writes, i)
    ensures exists k | 0 <= k < |ClipsUpTo(images, clipSize, readable, writes, w)| ::
      ClipsUpTo(images, clipSize, readable, writes, w)[k].start == i
  {
    var before := ClipsUpTo(images, clipSize, readable, writes, w - 1);
    if i == w - 1 {
      assert ClipsUpTo(images, clipSize, readable, writes, w)[|before|].start == i;
    } else {
      KeptWindowSaved(images, clipSize, readable, writes, w - 1, i);
      var k :| 0 <= k < |before| && before[k].start == i;
      assert ClipsUpTo(images, clipSize, readable, writes, w)[k] == before[k];
    }
  }

  /** A window is saved exactly when all its images read and the write succeeds. */
  lemma {:induction false} SavedIffKept(images: seq<string>, clipSize: int, readable: string -> bool, writes: nat -> bool, i: nat)
    requires i < WindowCount(|images|, clipSize)
    ensures var clips := SavedClips(images, clipSize, readable, writes);
      (exists k | 0 <= k < |clips| :: clips[k].start == i) <==> Kept(images, clipSize, readable, writes, i)
  {
    var w := WindowCount(|images|, clipSize);
    ClipsWellFormed(images, clipSize, readable, writes, w);
    var clips := SavedClips(images, clipSize, readable, writes);
    if Kept(images, clipSize, readable, writes, i) {
      KeptWindowSaved(images, clipSize, readable, writes, w, i);
    }
    if exists k | 0 <= k < |clips| :: clips[k].start == i {
      var k :| 0 <= k < |clips| && clips[k].start == i;
      assert Kept(images, clipSize, readable, writes, clips[k].start);
    }
  }

  // ---------------------------------------------------------------------------------------
  // The loops.

  /** The inner loop over one window: images are read in turn and the first one that does
      not read ends it (`valid_clip = False; break`). */
  method ReadWindow(images: seq<string>, i: nat, clipSize: int, readable: string -> bool)
    returns (valid: bool, clip: seq<string>)
    requires clipSize > 0 ==> i + clipSize <= |images|
    ensures valid <==> clipSize <= 0 || AllReadable(images[i..i + clipSize], readable)
    ensures valid ==> clip == if clipSize > 0 then images[i..i + clipSize] else []
    ensures !valid ==> && |clip| < clipSize && clip == images[i..i + |clip|]
                       && !readable(images[i + |clip|])
  {
    valid, clip := true, [];
    var j := 0;
    while j < clipSize
      invariant 0 <= j <= (if clipSize > 0 then clipSize else 0)
      invariant valid && (if j == 0 then clip == [] else clip == images[i..i + j])
      invariant AllReadable(clip, readable)
    {
      if !readable(images[i + j]) {
        assert images[i..i + clipSize][j] == images[i + j];
        valid := false;
        return;
      }
      clip := clip + [images[i + j]];
      j := j + 1;
    }
    assert clipSize > 0 ==> clip == images[i..i + clipSize];
  }

  /** `split_clips(src_dir, dst_dir, clip_size)` after `os.listdir`: `readable` tells which
      files `cv2.imread` can read and `writes` which windows' `np.savez` succeeds. It returns
      the clips saved and the final `clip_count`. */
  method SplitClips(listing: seq<string>, clipSize: int, readable: string -> bool, writes: nat -> bool)
    returns (clips: seq<Clip>, clipCount: nat)
    ensures clips == SavedClips(Images(listing), clipSize, readable, writes)
    ensures clipCount == |clips|
  {
    var images := Images(listing);
    clips, clipCount := SaveWindows(images, clipSize, readable, writes);
  }

  /** The outer loop over the window starts `0 .. len(imgs) - clip_size`. */
  method SaveWindows(images: seq<string>, clipSize: int, readable: string -> bool, writes: nat -> bool)
    returns (clips: seq<Clip>, clipCount: nat)
    ensures clips == SavedClips(images, clipSize, readable, writes)
    ensures clipCount == |clips|
  {
    clips, clipCount := [], 0;
    var windows := WindowCount(|images|, clipSize);
    for i := 0 to windows
      invariant clips == ClipsUpTo(images, clipSize, readable, writes, i)
      invariant clipCount == |clips|
    {
      var valid, clip := ReadWindow(images, i, clipSize, readable);
      assert ClipsUpTo(images, clipSize, readable, writes, i + 1) ==
        if Kept(images, clipSize, readable, writes, i)
        then clips + [Clip(|clips|, i, images[i..i + clipSize])]
        else clips;
      if valid && |clip| == clipSize {
        if clipSize > 0 && writes(i) {
          clips := clips + [Clip(clipCount, i, clip)];
          clipCount := clipCount + 1;
        }
      }
    }
  }
}
