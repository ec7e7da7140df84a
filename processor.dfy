/**
 * The source's `Processor`: it keeps the loaded part list and the largest
 * part height and width seen. `GetBitmap` is meant to skip the parts of
 * `data` that are out of the ROI, paint the others and drop from its list
 * the parts that are not out of the ROI and lie within it. As written it
 * bounds its loop by the list it shrinks, so it can leave parts untested
 * and remove the wrong entry: `GetBitmap` models that code and
 * `GetBitmapCorrected` the intended pass. Drawing is external: what the
 * model keeps of it is the parts filled and, for each, the point list
 * handed to the drawing call.
 */
module Processing {
  import opened Geometry
  import opened Overlap
  import opened Selection

  /** `Math.Max` on two reals. */
  function Max(a: real, b: real): real {
    if a >= b then a else b
  }

  /** The loader's running maximum of s, started at m. */
  function RunningMax(m: real, s: seq<real>): real
    decreases |s|
  {
    if s == [] then m
    else RunningMax(if m < s[0] then s[0] else m, s[1..])
  }

  /**
   * The running maximum only grows, bounds every value seen, and is either
   * the start value or one of them.
   */
  lemma {:induction false} RunningMaxSpec(m: real, s: seq<real>)
    ensures var r := RunningMax(m, s);
      && m <= r
      && (forall k :: 0 <= k < |s| ==> s[k] <= r)
      && (r == m || r in s)
    decreases |s|
  {
    if s != [] {
      RunningMaxSpec(if m < s[0] then s[0] else m, s[1..]);
      assert forall k :: 1 <= k < |s| ==> s[k] == s[1..][k - 1];
      assert RunningMax(m, s) in s[1..] ==> RunningMax(m, s) in s;
    }
  }

  lemma AppendAssoc<T>(a: seq<T>, b: seq<T>, c: seq<T>)
    ensures a + (b + c) == (a + b) + c
  {
  }

  function Heights(parts: seq<Rect>): seq<real> {
    seq(|parts|, k requires 0 <= k < |parts| => parts[k].height)
  }

  function Widths(parts: seq<Rect>): seq<real> {
    seq(|parts|, k requires 0 <= k < |parts| => parts[k].width)
  }

  /**
   * The corrected painting pass: the parts of `data` that are not out of
   * the ROI, in their order, and no others.
   */
  method PaintVisible(data: seq<Rect>, roi: Rect) returns (filled: seq<Rect>)
    ensures var shown := VisibleIndices(data, roi, 0, |data|);
      && |filled| == |shown|
      && (forall j :: 0 <= j < |filled| ==> shown[j] < |data| && filled[j] == data[shown[j]])
    ensures forall k :: 0 <= k < |data| && !Out(data[k], roi) ==> data[k] in filled
    ensures forall j :: 0 <= j < |filled| ==> !Out(filled[j], roi)
  {
    filled := [];
    ghost var shown: seq<nat> := [];
    for i := 0 to |data|
      invariant VisibleIndices(data, roi, 0, |data|) == shown + VisibleIndices(data, roi, i, |data|)
      invariant |filled| == |shown|
      invariant forall j :: 0 <= j < |shown| ==> shown[j] < |data| && filled[j] == data[shown[j]]
    {
      if !Out(data[i], roi) {
        filled := filled + [data[i]];
        shown := shown + [i];
      }
    }
    forall k | 0 <= k < |data| && !Out(data[k], roi)
      ensures data[k] in filled
    {
      VisibleIndicesSpec(data, roi, 0, |data|);
      var j :| 0 <= j < |shown| && shown[j] == k;
      assert filled[j] == data[k];
    }
    assert forall j :: 0 <= j < |filled| ==> !Out(filled[j], roi) by {
      VisibleIndicesSpec(data, roi, 0, |data|);
      assert forall j :: 0 <= j < |shown| ==> shown[j] in shown;
    }
  }

  class Processor {
    var maxHeight: real
    var maxWidth: real
    var recs: seq<Rect>

    /** Both running maxima start at 0 and only grow, so they stay non-negative. */
    ghost predicate Valid()
      reads this
    {
      0.0 <= maxHeight && 0.0 <= maxWidth
    }

    /** Loads the parts; the running maxima start from 0. */
    constructor (parts: seq<Rect>)
      ensures Valid() && recs == parts
      ensures maxHeight == RunningMax(0.0, Heights(parts))
      ensures maxWidth == RunningMax(0.0, Widths(parts))
    {
      maxHeight, maxWidth, recs := 0.0, 0.0, [];
      new;
      DataParser(parts);
    }

    /**
     * Replaces the part list with the parsed parts, in order, and folds
     * their heights and widths into the running maxima (which are not
     * reset first).
     */
    method DataParser(parts: seq<Rect>)
      requires Valid()
      modifies this
      ensures Valid() && recs == parts
      ensures maxHeight == RunningMax(old(maxHeight), Heights(parts))
      ensures maxWidth == RunningMax(old(maxWidth), Widths(parts))
      ensures forall k :: 0 <= k < |parts| ==> parts[k].height <= maxHeight && parts[k].width <= maxWidth
    {
      recs := [];
      var i := 0;
      while i < |parts|
        invariant 0 <= i <= |parts|
        invariant recs == parts[..i]
        invariant 0.0 <= maxHeight && 0.0 <= maxWidth
        invariant RunningMax(old(maxHeight), Heights(parts)) == RunningMax(maxHeight, Heights(parts)[i..])
        invariant RunningMax(old(maxWidth), Widths(parts)) == RunningMax(maxWidth, Widths(parts)[i..])
      {
        var temp := parts[i];
        assert Heights(parts)[i..][1..] == Heights(parts)[i + 1..];
        assert Widths(parts)[i..][1..] == Widths(parts)[i + 1..];
        if maxHeight < temp.height {
          maxHeight := temp.height;
        }
        if maxWidth < temp.width {
          maxWidth := temp.width;
        }
        assert parts[..i + 1] == parts[..i] + [temp];
        recs := recs + [temp];
        i := i + 1;
      }
      RunningMaxSpec(old(maxHeight), Heights(parts));
      RunningMaxSpec(old(maxWidth), Widths(parts));
      assert forall k :: 0 <= k < |parts| ==> Heights(parts)[k] == parts[k].height && Widths(parts)[k] == parts[k].width;
    }

    /**
     * `GetBitmap` as written. The padding is the larger running maximum;
     * `filled` lists the parts the loop hands to `FillPolygon`, in order,
     * and `points` the point list drawn for each. Every part filled is a
     * part of `data` that is not out of the ROI, and what is left of the
     * list is a subsequence of it.
     */
    method GetBitmap(data: seq<Rect>, roi: Rect)
      returns (filled: seq<Rect>, points: seq<seq<Coord>>, peri: real, completed: bool)
      requires Valid()
      modifies this`recs
      ensures peri == Max(maxWidth, maxHeight) && 0.0 <= peri
      ensures |points| == |filled| && forall j :: 0 <= j < |filled| ==> points[j] == FillPoints(filled[j], roi, peri)
      ensures var s := Sweep(old(recs), data, roi, 0);
        && recs == s.recs && completed == !s.fault
        && |filled| == |s.painted|
        && (forall j :: 0 <= j < |filled| ==>
              s.painted[j] < |data| && filled[j] == data[s.painted[j]] && !Out(filled[j], roi))
      ensures IsSubseq(recs, old(recs))
    {
      peri := Max(maxWidth, maxHeight);
      filled, completed := SweepParts(data, roi);
      ghost var s := Sweep(old(recs), data, roi, 0);
      assert |s.filled| == |s.painted| && forall j :: 0 <= j < |s.painted| ==> s.painted[j] < |data| && s.filled[j] == data[s.painted[j]] by {
        SweepFills(old(recs), data, roi, 0);
      }
      assert forall j :: 0 <= j < |s.painted| ==> s.painted[j] < |data| && !Out(data[s.painted[j]], roi) by {
        PaintedAreVisible(old(recs), data, roi, 0);
      }
      assert IsSubseq(recs, old(recs)) by {
        SweepRemovals(old(recs), data, roi, 0);
      }
      points := seq(|filled|, j requires 0 <= j < |filled| => FillPoints(filled[j], roi, peri));
    }

    /**
     * The loop of `GetBitmap` as written. It takes its bound from, and
     * removes from, the processor's list `recs`, but reads parts from
     * `data`. `completed` is false when it indexed past the end of `data`,
     * where the source throws.
     */
    method SweepParts(data: seq<Rect>, roi: Rect) returns (filled: seq<Rect>, completed: bool)
      modifies this`recs
      ensures var s := Sweep(old(recs), data, roi, 0);
        recs == s.recs && completed == !s.fault && filled == s.filled
    {
      filled := [];
      completed := true;
      ghost var s0 := Sweep(recs, data, roi, 0);
      var i: nat := 0;
      while i < |recs|
        invariant s0.recs == Sweep(recs, data, roi, i).recs
        invariant s0.fault == Sweep(recs, data, roi, i).fault
        invariant s0.filled == filled + Sweep(recs, data, roi, i).filled
        decreases |recs| - i
      {
        if i >= |data| {
          completed := false;
          break;
        }
        var drawn := SweepPart(data, roi, i);
        AppendAssoc(filled, drawn, Sweep(recs, data, roi, i + 1).filled);
        filled := filled + drawn;
        i := i + 1;
      }
    }

    /**
     * One pass of the loop of `GetBitmap` at index i: a part of `data` out
     * of the ROI is skipped; any other is filled, and when it is within the
     * ROI the list loses its entry at position i. What the rest of the loop
     * does from i + 1 on the new list completes what it would have done from
     * i on the old one.
     */
    method SweepPart(data: seq<Rect>, roi: Rect, i: nat) returns (drawn: seq<Rect>)
      requires i < |recs| && i < |data|
      modifies this`recs
      ensures drawn == if Out(data[i], roi) then [] else [data[i]]
      ensures recs == if !Out(data[i], roi) && Within(data[i], roi) then old(recs)[..i] + old(recs)[i + 1..] else old(recs)
      ensures var s, t := Sweep(old(recs), data, roi, i), Sweep(recs, data, roi, i + 1);
        s.recs == t.recs && s.fault == t.fault && s.filled == drawn + t.filled
    {
      SweepStep(recs, data, roi, i);
      drawn := [];
      if !Out(data[i], roi) {
        if Within(data[i], roi) {
          recs := recs[..i] + recs[i + 1..];
        }
        drawn := [data[i]];
      }
    }

    /**
     * The selection as evidently intended: every part of `data` that is not
     * out of the ROI is filled, in order, and drawn with its corners in
     * boundary order; the parts that are not out of the ROI and lie within
     * it are dropped from the list after the sweep.
     */
    method GetBitmapCorrected(data: seq<Rect>, roi: Rect)
      returns (filled: seq<Rect>, points: seq<seq<Coord>>, peri: real)
      requires Valid()
      modifies this`recs
      ensures peri == Max(maxWidth, maxHeight) && 0.0 <= peri
      ensures |points| == |filled| && forall j :: 0 <= j < |filled| ==> points[j] == BoundaryPoints(filled[j], roi, peri)
      ensures var shown := VisibleIndices(data, roi, 0, |data|);
        && |filled| == |shown|
        && (forall j :: 0 <= j < |filled| ==> shown[j] < |data| && filled[j] == data[shown[j]])
      ensures forall k :: 0 <= k < |data| && !Out(data[k], roi) ==> data[k] in filled
      ensures forall j :: 0 <= j < |filled| ==> !Out(filled[j], roi)
      ensures recs == Prune(old(recs), roi)
    {
      peri := Max(maxWidth, maxHeight);
      filled := PaintVisible(data, roi);
      PruneParts(roi);
      points := seq(|filled|, j requires 0 <= j < |filled| => BoundaryPoints(filled[j], roi, peri));
    }

    /**
     * The corrected removal: after the sweep, the list keeps exactly the
     * parts that are out of, or not within, the ROI, in their order.
     */
    method PruneParts(roi: Rect)
      modifies this`recs
      ensures recs == Prune(old(recs), roi)
    {
      var kept: seq<Rect> := [];
      for k := 0 to |recs|
        invariant Prune(recs, roi) == kept + Prune(recs[k..], roi)
      {
        assert recs[k..][1..] == recs[k + 1..];
        if Kept(recs[k], roi) {
          kept := kept + [recs[k]];
        }
      }
      recs := kept;
    }
  }
}
