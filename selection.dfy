/**
 * What the `GetBitmap` loop selects, as functions: which parts it paints
 * and what its removals leave in the processor's part list. The loop reads
 * parts from the `data` argument but takes its bound from, and removes
 * from, the processor's own list `recs`; `Sweep` follows it step by step.
 */
module Selection {
  import opened Geometry
  import opened Overlap

  /** a can be obtained from b by deleting elements. */
  predicate IsSubseq<T(==)>(a: seq<T>, b: seq<T>)
    decreases |b|
  {
    if b == [] then a == []
    else (a != [] && a[0] == b[0] && IsSubseq(a[1..], b[1..])) || IsSubseq(a, b[1..])
  }

  lemma {:induction false} SubseqReflexive<T>(s: seq<T>)
    ensures IsSubseq(s, s)
    decreases |s|
  {
    if s != [] {
      SubseqReflexive(s[1..]);
    }
  }

  /** Deleting the element at one position gives a subsequence. */
  lemma {:induction false} SubseqDropAt<T>(s: seq<T>, i: nat)
    requires i < |s|
    ensures IsSubseq(s[..i] + s[i + 1..], s)
    decreases i
  {
    var t := s[..i] + s[i + 1..];
    if i == 0 {
      assert t == s[1..];
      SubseqReflexive(s[1..]);
    } else {
      SubseqDropAt(s[1..], i - 1);
      assert t[0] == s[0];
      assert t[1..] == s[1..][..i - 1] + s[1..][i..];
    }
  }

  lemma {:induction false} SubseqTransitive<T>(a: seq<T>, b: seq<T>, c: seq<T>)
    requires IsSubseq(a, b) && IsSubseq(b, c)
    ensures IsSubseq(a, c)
    decreases |c|
  {
    if c == [] {
    } else if IsSubseq(b, c[1..]) {
      SubseqTransitive(a, b, c[1..]);
    } else {
      assert b != [] && b[0] == c[0] && IsSubseq(b[1..], c[1..]);
      if a != [] && a[0] == b[0] && IsSubseq(a[1..], b[1..]) {
        SubseqTransitive(a[1..], b[1..], c[1..]);
      } else {
        SubseqTransitive(a, b[1..], c[1..]);
      }
    }
  }

  /** The indices k in lo .. hi - 1 of parts of `data` that are not out of the ROI. */
  function VisibleIndices(data: seq<Rect>, roi: Rect, lo: nat, hi: nat): seq<nat>
    decreases hi - lo
  {
    if lo >= hi then []
    else
      var rest := VisibleIndices(data, roi, lo + 1, hi);
      if lo < |data| && !Out(data[lo], roi) then [lo] + rest else rest
  }

  /**
   * `VisibleIndices` lists exactly the indices in lo .. hi - 1 of parts
   * that exist and are not out of the ROI, each once, in increasing order.
   */
  lemma {:induction false} VisibleIndicesSpec(data: seq<Rect>, roi: Rect, lo: nat, hi: nat)
    ensures var ks := VisibleIndices(data, roi, lo, hi);
      && (forall k :: k in ks <==> lo <= k < hi && k < |data| && !Out(data[k], roi))
      && (forall j, j' :: 0 <= j < j' < |ks| ==> ks[j] < ks[j'])
    decreases hi - lo
  {
    if lo < hi {
      VisibleIndicesSpec(data, roi, lo + 1, hi);
      var rest := VisibleIndices(data, roi, lo + 1, hi);
      forall j | 0 <= j < |rest|
        ensures lo < rest[j]
      {
        assert rest[j] in rest;
      }
      if lo < |data| && !Out(data[lo], roi) {
        var ks := [lo] + rest;
        assert forall j :: 1 <= j < |ks| ==> ks[j] == rest[j - 1];
      }
    }
  }

  /**
   * The end state of the loop from index i on: the list left in `recs`, the
   * indices of `data` painted, the parts handed to `FillPolygon` (those at
   * the painted indices), the indices at which `RemoveAt` was called,
   * the index at which the loop stopped, and whether it stopped on an index
   * past the end of `data` (the source then throws).
   */
  datatype Outcome = Outcome(recs: seq<Rect>, painted: seq<nat>, filled: seq<Rect>, removed: seq<nat>, stop: nat, fault: bool)

  /** The `GetBitmap` loop, from index i, over the list `recs`. */
  function Sweep(recs: seq<Rect>, data: seq<Rect>, roi: Rect, i: nat): Outcome
    decreases |recs| - i
  {
    if i >= |recs| then Outcome(recs, [], [], [], i, false)
    else if i >= |data| then Outcome(recs, [], [], [], i, true)
    else if Out(data[i], roi) then Sweep(recs, data, roi, i + 1)
    else if Within(data[i], roi) then
      var rest := Sweep(recs[..i] + recs[i + 1..], data, roi, i + 1);
      rest.(painted := [i] + rest.painted, filled := [data[i]] + rest.filled, removed := [i] + rest.removed)
    else
      var rest := Sweep(recs, data, roi, i + 1);
      rest.(painted := [i] + rest.painted, filled := [data[i]] + rest.filled)
  }

  /** One step of the loop at an index of both lists, by the outcome of the step after it. */
  lemma SweepStep(recs: seq<Rect>, data: seq<Rect>, roi: Rect, i: nat)
    requires i < |recs| && i < |data|
    ensures Out(data[i], roi) ==> Sweep(recs, data, roi, i) == Sweep(recs, data, roi, i + 1)
    ensures !Out(data[i], roi) && Within(data[i], roi) ==>
      var s, t := Sweep(recs, data, roi, i), Sweep(recs[..i] + recs[i + 1..], data, roi, i + 1);
      s.recs == t.recs && s.fault == t.fault && s.painted == [i] + t.painted && s.filled == [data[i]] + t.filled
    ensures !Out(data[i], roi) && !Within(data[i], roi) ==>
      var s, t := Sweep(recs, data, roi, i), Sweep(recs, data, roi, i + 1);
      s.recs == t.recs && s.fault == t.fault && s.painted == [i] + t.painted && s.filled == [data[i]] + t.filled
  {
  }

  /** The parts handed to `FillPolygon` are the parts of `data` at the painted indices. */
  lemma {:induction false} SweepFills(recs: seq<Rect>, data: seq<Rect>, roi: Rect, i: nat)
    ensures var s := Sweep(recs, data, roi, i);
      && |s.filled| == |s.painted|
      && forall j :: 0 <= j < |s.painted| ==> s.painted[j] < |data| && s.filled[j] == data[s.painted[j]]
    decreases |recs| - i
  {
    if i >= |recs| || i >= |data| {
    } else if Out(data[i], roi) {
      SweepFills(recs, data, roi, i + 1);
    } else if Within(data[i], roi) {
      SweepFills(recs[..i] + recs[i + 1..], data, roi, i + 1);
    } else {
      SweepFills(recs, data, roi, i + 1);
    }
  }

  /**
   * The loop paints exactly the parts of `data` that are not out of the
   * ROI among the indices it visits, i .. stop - 1; it stops on a fault
   * only at an index past the end of `data`, and otherwise once the index
   * has reached the length of the shrunken list.
   */
  lemma {:induction false} SweepPaintsVisited(recs: seq<Rect>, data: seq<Rect>, roi: Rect, i: nat)
    ensures var s := Sweep(recs, data, roi, i);
      && i <= s.stop
      && s.painted == VisibleIndices(data, roi, i, s.stop)
      && (s.fault ==> |data| <= s.stop < |s.recs|)
      && (!s.fault ==> |s.recs| <= s.stop)
    decreases |recs| - i
  {
    if i >= |recs| || i >= |data| {
    } else if Out(data[i], roi) {
      SweepPaintsVisited(recs, data, roi, i + 1);
    } else if Within(data[i], roi) {
      SweepPaintsVisited(recs[..i] + recs[i + 1..], data, roi, i + 1);
    } else {
      SweepPaintsVisited(recs, data, roi, i + 1);
    }
  }

  /** Every index the loop paints is an index of `data` whose part is not out of the ROI. */
  lemma PaintedAreVisible(recs: seq<Rect>, data: seq<Rect>, roi: Rect, i: nat)
    ensures var s := Sweep(recs, data, roi, i);
      forall j :: 0 <= j < |s.painted| ==> s.painted[j] < |data| && !Out(data[s.painted[j]], roi)
  {
    var s := Sweep(recs, data, roi, i);
    SweepPaintsVisited(recs, data, roi, i);
    VisibleIndicesSpec(data, roi, i, s.stop);
    assert forall j :: 0 <= j < |s.painted| ==> s.painted[j] in s.painted;
  }

  /**
   * Removal happens only at a visited index whose part in `data` is within
   * (and so, being painted, not out of) the ROI; every removal shortens the
   * list by one, and the list left is a subsequence of the one before.
   */
  lemma {:induction false} SweepRemovals(recs: seq<Rect>, data: seq<Rect>, roi: Rect, i: nat)
    ensures var s := Sweep(recs, data, roi, i);
      && (forall k :: k in s.removed ==> k in s.painted && k < |data| && Within(data[k], roi))
      && |s.recs| + |s.removed| == |recs|
      && IsSubseq(s.recs, recs)
    decreases |recs| - i
  {
    if i >= |recs| || i >= |data| {
      SubseqReflexive(recs);
    } else if Out(data[i], roi) {
      SweepRemovals(recs, data, roi, i + 1);
    } else if Within(data[i], roi) {
      var shorter := recs[..i] + recs[i + 1..];
      SweepRemovals(shorter, data, roi, i + 1);
      SubseqDropAt(recs, i);
      SubseqTransitive(Sweep(shorter, data, roi, i + 1).recs, shorter, recs);
    } else {
      SweepRemovals(recs, data, roi, i + 1);
    }
  }

  /**
   * The loop as written, on the part list it was loaded with: two parts
   * inside the ROI. Removing the first shrinks the bound to 1, so the loop
   * ends before the second, visible part is painted.
   */
  lemma SweepSkipsVisiblePart()
    ensures var roi := Build(Origin, 10.0, 10.0);
      var a, b := Build(Origin, 2.0, 2.0), Build(Coord(1.0, 1.0), 2.0, 2.0);
      var s := Sweep([a, b], [a, b], roi, 0);
      && !Out(b, roi) && !s.fault
      && 1 !in s.painted
  {
    var roi := Build(Origin, 10.0, 10.0);
    var a, b := Build(Origin, 2.0, 2.0), Build(Coord(1.0, 1.0), 2.0, 2.0);
    assert roi.corners.topLeft == Coord(-5.0, 5.0) && roi.corners.bottomRight == Coord(5.0, -5.0);
    assert a.corners.topLeft == Coord(-1.0, 1.0) && a.corners.bottomRight == Coord(1.0, -1.0);
    assert b.corners.topLeft == Coord(0.0, 2.0) && b.corners.bottomRight == Coord(2.0, 0.0);
    assert !Out(a, roi) && Within(a, roi) && !Out(b, roi);
    assert [a, b][..0] + [a, b][1..] == [b];
    assert Sweep([b], [a, b], roi, 1) == Outcome([b], [], [], [], 1, false);
    assert Sweep([a, b], [a, b], roi, 0) == Outcome([b], [0], [a], [0], 1, false);
  }

  /**
   * The loop as written, on three parts: the first two inside the ROI, the
   * third far outside it. After the first removal the list and `data` are
   * out of step, so the second removal deletes the third part, which is not
   * within the ROI, and keeps the second, which is.
   */
  lemma SweepRemovesWrongPart()
    ensures var roi := Build(Origin, 10.0, 10.0);
      var a, b := Build(Origin, 2.0, 2.0), Build(Coord(1.0, 1.0), 2.0, 2.0);
      var c := Build(Coord(100.0, 100.0), 2.0, 2.0);
      var s := Sweep([a, b, c], [a, b, c], roi, 0);
      && Within(b, roi) && Out(c, roi) && !Within(c, roi)
      && s.recs == [b]
  {
    var roi := Build(Origin, 10.0, 10.0);
    var a, b := Build(Origin, 2.0, 2.0), Build(Coord(1.0, 1.0), 2.0, 2.0);
    var c := Build(Coord(100.0, 100.0), 2.0, 2.0);
    assert roi.corners.topLeft == Coord(-5.0, 5.0) && roi.corners.bottomRight == Coord(5.0, -5.0);
    assert a.corners.topLeft == Coord(-1.0, 1.0) && a.corners.bottomRight == Coord(1.0, -1.0);
    assert b.corners.topLeft == Coord(0.0, 2.0) && b.corners.bottomRight == Coord(2.0, 0.0);
    assert c.corners.topLeft == Coord(99.0, 101.0) && c.corners.bottomRight == Coord(101.0, 99.0);
    assert !Out(a, roi) && Within(a, roi) && !Out(b, roi) && Within(b, roi) && Out(c, roi);
    assert [a, b, c][..0] + [a, b, c][1..] == [b, c];
    assert [b, c][..1] + [b, c][2..] == [b];
    assert Sweep([b], [a, b, c], roi, 2) == Outcome([b], [], [], [], 2, false);
    assert Sweep([b, c], [a, b, c], roi, 1) == Outcome([b], [1], [b], [1], 2, false);
    assert Sweep([a, b, c], [a, b, c], roi, 0) == Outcome([b], [0, 1], [a, b], [0, 1], 2, false);
  }

  /** A part stays in the list unless it is visible and within the ROI. */
  predicate Kept(r: Rect, roi: Rect) {
    Out(r, roi) || !Within(r, roi)
  }

  /** The intended pruning: the parts of `recs` kept by `Kept`, in their order. */
  function Prune(recs: seq<Rect>, roi: Rect): seq<Rect> {
    if recs == [] then []
    else if Kept(recs[0], roi) then [recs[0]] + Prune(recs[1..], roi)
    else Prune(recs[1..], roi)
  }

  /**
   * The pruned list holds exactly the kept parts of the list, each as many
   * times as the list does and the dropped parts not at all, is no longer
   * than it, and is a subsequence of it.
   */
  lemma {:induction false} PruneSpec(recs: seq<Rect>, roi: Rect)
    ensures var kept := Prune(recs, roi);
      && (forall r :: r in kept <==> r in recs && Kept(r, roi))
      && (forall r :: multiset(kept)[r] == if Kept(r, roi) then multiset(recs)[r] else 0)
      && |kept| <= |recs|
      && IsSubseq(kept, recs)
  {
    if recs != [] {
      PruneSpec(recs[1..], roi);
      assert recs == [recs[0]] + recs[1..];
      assert forall r :: r in recs <==> r == recs[0] || r in recs[1..];
      assert multiset(recs) == multiset([recs[0]]) + multiset(recs[1..]);
      if Kept(recs[0], roi) {
        assert Prune(recs, roi)[1..] == Prune(recs[1..], roi);
      }
    }
  }
}
