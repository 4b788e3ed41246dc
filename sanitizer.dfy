/** `remove_invalid_frames` of the improved search: a frame whose features sum, in absolute
    value, to at most the threshold is a failed face detection and is dropped. */
module Sanitizer {

  /** One frame of features (mouth opening and eye opening in the pipeline). */
  type Frame = seq<real>

  /** A sequence of frames, one per video frame. */
  type Features = seq<Frame>

  /** The default `threshold=1e-6`. */
  const DefaultThreshold: real := 0.000001

  function Abs(x: real): (r: real)
    ensures r >= 0.0 && (r == x || r == -x)
  {
    if x < 0.0 then -x else x
  }

  /** `np.sum(np.abs(frame))` over one frame; it is never negative. */
  function L1(f: Frame): (r: real)
    ensures r >= 0.0
  {
    if f == [] then 0.0 else Abs(f[0]) + L1(f[1..])
  }

  /** The indices of the frames the mask keeps, in increasing order. */
  function Kept(mask: seq<bool>): (ks: seq<nat>)
    ensures forall k | 0 <= k < |ks| :: ks[k] < |mask| && mask[ks[k]]
    ensures forall k, l | 0 <= k < l < |ks| :: ks[k] < ks[l]
    ensures forall i | 0 <= i < |mask| && mask[i] :: i in ks
  {
    if mask == [] then []
    else
      var ks := Kept(mask[..|mask| - 1]);
      assert forall i | 0 <= i < |mask| - 1 && mask[i] :: i in ks by {
        forall i | 0 <= i < |mask| - 1 && mask[i] ensures i in ks {
          assert mask[..|mask| - 1][i] == mask[i];
        }
      }
      if mask[|mask| - 1] then ks + [|mask| - 1] else ks
  }

  /** `seq[mask]`: the frames whose mask entry holds, in their original order. */
  function Select(frames: Features, mask: seq<bool>): (clean: Features)
    requires |mask| == |frames|
    ensures |clean| == |Kept(mask)|
    ensures forall k | 0 <= k < |clean| :: clean[k] == frames[Kept(mask)[k]]
  {
    var ks := Kept(mask);
    seq(|ks|, k requires 0 <= k < |ks| => frames[ks[k]])
  }

  /** `remove_invalid_frames(seq, threshold)`: the mask has one entry per frame, true
      exactly for the frames over the threshold, and the frames returned are the masked
      frames in their original order. */
  function RemoveInvalidFrames(frames: Features, threshold: real): (r: (Features, seq<bool>))
    ensures |r.1| == |frames|
    ensures forall i | 0 <= i < |frames| :: r.1[i] <==> L1(frames[i]) > threshold
    ensures |r.0| == |Kept(r.1)|
    ensures forall k | 0 <= k < |r.0| :: r.0[k] == frames[Kept(r.1)[k]]
  {
    var mask := seq(|frames|, i requires 0 <= i < |frames| => L1(frames[i]) > threshold);
    (Select(frames, mask), mask)
  }

  /** Every frame that survives is over the threshold, and every frame over the threshold
      survives (at its place among the others). */
  lemma {:induction false} RemoveInvalidFramesKeepsExactly(frames: Features, threshold: real)
    ensures var (clean, mask) := RemoveInvalidFrames(frames, threshold);
      && (forall k | 0 <= k < |clean| :: L1(clean[k]) > threshold)
      && (forall i | 0 <= i < |frames| && L1(frames[i]) > threshold ::
            exists k | 0 <= k < |clean| :: Kept(mask)[k] == i && clean[k] == frames[i])
  {
    var (clean, mask) := RemoveInvalidFrames(frames, threshold);
    var ks := Kept(mask);
    forall i | 0 <= i < |frames| && L1(frames[i]) > threshold
      ensures exists k | 0 <= k < |clean| :: ks[k] == i && clean[k] == frames[i]
    {
      assert mask[i];
      assert i in ks;
      var k :| 0 <= k < |ks| && ks[k] == i;
      assert clean[k] == frames[i];
    }
  }

  /** The `[0.0, 0.0]` frame written for a frame with no face is always dropped. */
  lemma {:induction false} NoFaceFrameDropped(frames: Features, i: nat)
    requires i < |frames| && frames[i] == [0.0, 0.0]
    ensures !RemoveInvalidFrames(frames, DefaultThreshold).1[i]
    ensures [0.0, 0.0] !in RemoveInvalidFrames(frames, DefaultThreshold).0
  {
    assert L1([0.0, 0.0]) == 0.0 by {
      assert [0.0, 0.0][1..] == [0.0];
      assert [0.0][1..] == [];
    }
    RemoveInvalidFramesKeepsExactly(frames, DefaultThreshold);
  }

  /** Lines 42-46: the sequences the search runs on, cleaned only with `--remove_invalid`. */
  function Prepared(frames: Features, removeInvalid: bool): Features {
    if removeInvalid then RemoveInvalidFrames(frames, DefaultThreshold).0 else frames
  }

  /** Cleaning never adds frames, and cleaning twice changes nothing more. */
  lemma {:induction false} RemoveInvalidFramesIdempotent(frames: Features, threshold: real)
    ensures |RemoveInvalidFrames(frames, threshold).0| <= |frames|
    ensures var clean := RemoveInvalidFrames(frames, threshold).0;
      RemoveInvalidFrames(clean, threshold).0 == clean
  {
    var (clean, mask) := RemoveInvalidFrames(frames, threshold);
    KeptLength(mask);
    RemoveInvalidFramesKeepsExactly(frames, threshold);
    var (again, mask2) := RemoveInvalidFrames(clean, threshold);
    assert forall i | 0 <= i < |clean| :: mask2[i];
    KeptAll(mask2);
  }

  lemma {:induction false} KeptLength(mask: seq<bool>)
    ensures |Kept(mask)| <= |mask|
  {
    if mask != [] {
      KeptLength(mask[..|mask| - 1]);
    }
  }

  lemma {:induction false} KeptAll(mask: seq<bool>)
    requires forall i | 0 <= i < |mask| :: mask[i]
    ensures Kept(mask) == seq(|mask|, i => i)
  {
    if mask != [] {
      KeptAll(mask[..|mask| - 1]);
    }
  }
}
