/** The cache-invalidation state a texture keeps between uploads: an "all dirty" flag and
    an accumulated dirty rectangle. These functions specify the methods of
    AndroidTexture.GLESBaseTexture that change it. */
module DirtyRegion {
  import opened Geometry

  datatype DirtyState = DirtyState(allDirty: bool, rect: Rect)

  /** The state `clearDirty()` leaves: flag off, rectangle (0,0,0,0). */
  const Clean: DirtyState := DirtyState(false, Rect(0, 0, 0, 0))

  /** `dirty()`: something must be uploaded before the next draw. */
  predicate IsDirty(s: DirtyState) {
    s.allDirty || !IsEmpty(s.rect)
  }

  /** `setDirty()`: the whole texture must be uploaded; the rectangle is kept as it was. */
  function MarkAll(s: DirtyState): (t: DirtyState)
    ensures t.allDirty && IsDirty(t)
    ensures t.rect == s.rect
  {
    s.(allDirty := true)
  }

  /** `setDirtyRect(r)`: skipped while all dirty; otherwise `r` replaces an empty rectangle
      and is merged into a non-empty one by bounding box. */
  function AddRect(s: DirtyState, r: Rect): (t: DirtyState)
    ensures t.allDirty == s.allDirty
    ensures s.allDirty ==> t == s
    ensures !s.allDirty && IsEmpty(s.rect) ==> t.rect == r
    ensures !s.allDirty && !IsEmpty(s.rect) ==>
              Encloses(t.rect, s.rect) && Encloses(t.rect, r) && !IsEmpty(t.rect)
    ensures IsDirty(s) ==> IsDirty(t)
  {
    if s.allDirty then s
    else if IsEmpty(s.rect) then s.(rect := r)
    else s.(rect := Extend(s.rect, r))
  }

  /** A run of `setDirtyRect` calls, first to last. */
  function AddRects(s: DirtyState, rs: seq<Rect>): DirtyState
    decreases |rs|
  {
    if rs == [] then s else AddRects(AddRect(s, rs[0]), rs[1..])
  }

  lemma CleanIsNotDirty()
    ensures !IsDirty(Clean)
  {
  }

  /** Right after `clearDirty()`, `setDirtyRect(r)` records exactly `r`. */
  lemma AddRectAfterClear(r: Rect)
    ensures AddRect(Clean, r) == DirtyState(false, r)
    ensures IsDirty(AddRect(Clean, r)) <==> !IsEmpty(r)
  {
  }

  /** While the whole texture is dirty, no run of rectangles changes the state. */
  lemma {:induction false} AddRectsWhileAllDirty(s: DirtyState, rs: seq<Rect>)
    requires s.allDirty
    ensures AddRects(s, rs) == s
    decreases |rs|
  {
    if rs != [] {
      AddRectsWhileAllDirty(AddRect(s, rs[0]), rs[1..]);
    }
  }

  /** Without the flag, the state ends dirty exactly when it started dirty or some added
      rectangle was non-empty. */
  lemma {:induction false} AddRectsDirtyIff(s: DirtyState, rs: seq<Rect>)
    requires !s.allDirty
    ensures IsDirty(AddRects(s, rs)) <==>
              IsDirty(s) || exists i :: 0 <= i < |rs| && !IsEmpty(rs[i])
    decreases |rs|
  {
    if rs != [] {
      var t := AddRect(s, rs[0]);
      AddRectsDirtyIff(t, rs[1..]);
      if exists i :: 0 <= i < |rs[1..]| && !IsEmpty(rs[1..][i]) {
        var i :| 0 <= i < |rs[1..]| && !IsEmpty(rs[1..][i]);
        assert !IsEmpty(rs[i + 1]);
      }
      if exists i :: 0 <= i < |rs| && !IsEmpty(rs[i]) {
        var i :| 0 <= i < |rs| && !IsEmpty(rs[i]);
        if i > 0 {
          assert !IsEmpty(rs[1..][i - 1]);
        }
      }
    }
  }

  /** Once the rectangle is non-empty, later additions only grow it. */
  lemma {:induction false} AddRectsKeepsStart(s: DirtyState, rs: seq<Rect>)
    requires !s.allDirty && !IsEmpty(s.rect)
    ensures Encloses(AddRects(s, rs).rect, s.rect)
    decreases |rs|
  {
    if rs != [] {
      var t := AddRect(s, rs[0]);
      AddRectsKeepsStart(t, rs[1..]);
      EnclosesTransitive(AddRects(t, rs[1..]).rect, t.rect, s.rect);
    }
  }

  /** Every non-empty rectangle added ends up inside the accumulated rectangle. */
  lemma {:induction false} AddRectsEnclosesEach(s: DirtyState, rs: seq<Rect>, i: nat)
    requires !s.allDirty && i < |rs| && !IsEmpty(rs[i])
    ensures Encloses(AddRects(s, rs).rect, rs[i])
    decreases |rs|
  {
    var t := AddRect(s, rs[0]);
    if i == 0 {
      AddRectsKeepsStart(t, rs[1..]);
      EnclosesTransitive(AddRects(t, rs[1..]).rect, t.rect, rs[0]);
    } else {
      AddRectsEnclosesEach(t, rs[1..], i - 1);
    }
  }

  /** The accumulated rectangle is the least one: any rectangle enclosing the starting
      rectangle (or, when that is empty, nothing but the added rectangles, of which there
      is at least one) and every added rectangle encloses it. */
  lemma {:induction false} AddRectsLeast(s: DirtyState, rs: seq<Rect>, c: Rect)
    requires !s.allDirty
    requires Encloses(c, s.rect) || (IsEmpty(s.rect) && |rs| > 0)
    requires forall i :: 0 <= i < |rs| ==> Encloses(c, rs[i])
    ensures Encloses(c, AddRects(s, rs).rect)
    decreases |rs|
  {
    if rs != [] {
      var t := AddRect(s, rs[0]);
      assert Encloses(c, t.rect);
      AddRectsLeast(t, rs[1..], c);
    }
  }

  /** Summary: after a clear, a non-empty run of non-empty rectangles leaves
      exactly their bounding box, and the texture dirty. */
  lemma BoundingBoxAfterClear(rs: seq<Rect>, c: Rect)
    requires |rs| > 0 && forall i :: 0 <= i < |rs| ==> !IsEmpty(rs[i])
    requires forall i :: 0 <= i < |rs| ==> Encloses(c, rs[i])
    ensures IsDirty(AddRects(Clean, rs))
    ensures forall i :: 0 <= i < |rs| ==> Encloses(AddRects(Clean, rs).rect, rs[i])
    ensures Encloses(c, AddRects(Clean, rs).rect)
  {
    AddRectsDirtyIff(Clean, rs);
    assert !IsEmpty(rs[0]);
    forall i | 0 <= i < |rs|
      ensures Encloses(AddRects(Clean, rs).rect, rs[i])
    {
      AddRectsEnclosesEach(Clean, rs, i);
    }
    AddRectsLeast(Clean, rs, c);
  }
}
