/** The inline state logic of `GLESBaseTexture` and `GLESFakePaletteTexture`
    (backends/platform/android3d/texture.h): dirty tracking, the default draw rectangle,
    size and palette queries, and the accessors that invalidate the upload cache.
    GL calls and the out-of-line buffer code are not part of this model. */
module AndroidTexture {
  import opened Geometry
  import opened PixelFormats
  import opened DirtyRegion

  /** A C++ `uint16`. */
  type Uint16 = x: int | 0 <= x < 0x1_0000

  /** The CPU-side buffer, reduced to its dimensions; its pixels are written by code
      outside this model. */
  datatype GraphicsSurface = GraphicsSurface(w: Uint16, h: Uint16, pitch: Uint16)

  /** Which branch of the class hierarchy a texture belongs to: one of the direct-format
      `GLESTexture` subclasses, or a `GLESFakePaletteTexture` with its palette table. */
  datatype TextureKind = Direct | FakePalette(table: array<bv16>)

  /** The arguments of a call to the five-argument `drawTexture(x, y, w, h, clip)`. */
  datatype DrawCall = DrawCall(x: Int16, y: Int16, w: Int16, h: Int16, clip: Rect)

  class GLESBaseTexture {
    const kind: TextureKind
    const pixelFormat: PixelFormat
    const palettePixelFormat: PixelFormat
    var surface: GraphicsSurface
    var drawRect: Rect
    var allDirty: bool
    var dirtyRect: Rect
    var isGameTexture: bool

    /** A texture has a palette format exactly when it is a fake-palette texture. */
    predicate Valid()
      reads this
    {
      kind.FakePalette? <==> palettePixelFormat.bytesPerPixel > 0
    }

    /** The constructors live in texture.cpp, so every initial value is a parameter. */
    constructor (kind: TextureKind, pixelFormat: PixelFormat, palettePixelFormat: PixelFormat,
                 surface: GraphicsSurface, drawRect: Rect, dirty: DirtyState, isGameTexture: bool)
      requires kind.FakePalette? <==> palettePixelFormat.bytesPerPixel > 0
      ensures Valid()
      ensures this.kind == kind && this.pixelFormat == pixelFormat
      ensures this.palettePixelFormat == palettePixelFormat
      ensures this.surface == surface && this.drawRect == drawRect
      ensures DirtyStateOf() == dirty && this.isGameTexture == isGameTexture
    {
      this.kind := kind;
      this.pixelFormat := pixelFormat;
      this.palettePixelFormat := palettePixelFormat;
      this.surface := surface;
      this.drawRect := drawRect;
      this.allDirty := dirty.allDirty;
      this.dirtyRect := dirty.rect;
      this.isGameTexture := isGameTexture;
    }

    /** The two dirty-tracking fields as one value. */
    function DirtyStateOf(): DirtyState
      reads this
    {
      DirtyState(allDirty, dirtyRect)
    }

    /** `dirty()`. */
    predicate Dirty()
      reads this
      ensures Dirty() <==> IsDirty(DirtyStateOf())
    {
      allDirty || !Geometry.IsEmpty(dirtyRect)
    }

    /** `setDirty()`. */
    method SetDirty()
      modifies this`allDirty
      ensures DirtyStateOf() == MarkAll(old(DirtyStateOf()))
      ensures Dirty()
    {
      allDirty := true;
    }

    /** `clearDirty()`. */
    method ClearDirty()
      modifies this`allDirty, this`dirtyRect
      ensures DirtyStateOf() == Clean
      ensures !Dirty()
    {
      allDirty := false;
      dirtyRect := dirtyRect.(top := 0);
      dirtyRect := dirtyRect.(left := 0);
      dirtyRect := dirtyRect.(bottom := 0);
      dirtyRect := dirtyRect.(right := 0);
    }

    /** `setDirtyRect(r)`. */
    method SetDirtyRect(r: Rect)
      modifies this`dirtyRect
      ensures DirtyStateOf() == AddRect(old(DirtyStateOf()), r)
      ensures old(allDirty) ==> dirtyRect == old(dirtyRect)
      ensures old(Dirty()) ==> Dirty()
    {
      if !allDirty {
        if Geometry.IsEmpty(dirtyRect) {
          dirtyRect := r;
        } else {
          dirtyRect := Extend(dirtyRect, r);
        }
      }
    }

    /** `setDrawRect(const Common::Rect &rect)`. */
    method SetDrawRect(rect: Rect)
      modifies this`drawRect
      ensures GetDrawRect() == rect
    {
      drawRect := rect;
    }

    /** `setDrawRect(int16 w, int16 h)`. */
    method SetDrawRectSize(w: Int16, h: Int16)
      modifies this`drawRect
      ensures GetDrawRect().left == 0 && GetDrawRect().top == 0
      ensures Geometry.Width(GetDrawRect()) == w && Geometry.Height(GetDrawRect()) == h
    {
      drawRect := RectOfSize(w, h);
    }

    /** `setDrawRect(int16 x1, int16 y1, int16 x2, int16 y2)`. */
    method SetDrawRectEdges(x1: Int16, y1: Int16, x2: Int16, y2: Int16)
      modifies this`drawRect
      ensures GetDrawRect() == Rect(x1, y1, x2, y2)
    {
      drawRect := Rect(x1, y1, x2, y2);
    }

    /** `getDrawRect()`. */
    function GetDrawRect(): Rect
      reads this
    {
      drawRect
    }

    /** `width()`: the surface width, widened to `GLuint`. */
    function Width(): nat
      reads this
    {
      surface.w
    }

    /** `height()`. */
    function Height(): nat
      reads this
    {
      surface.h
    }

    /** `pitch()`. */
    function Pitch(): Uint16
      reads this
    {
      surface.pitch
    }

    /** The clip that the four-argument `drawTexture(x, y, w, h)` passes on:
        `Rect(0, 0, width(), height())`, with the `GLuint` sizes stored into int16 edges. */
    function DefaultClip(): (clip: Rect)
      reads this
      ensures clip.left == 0 && clip.top == 0
      ensures clip.right == surface.w <==> surface.w < 0x8000
      ensures clip.bottom == surface.h <==> surface.h < 0x8000
    {
      Rect(0, 0, ToInt16(Width()), ToInt16(Height()))
    }

    /** `drawTextureRect()`: the call it makes, through the four-argument overload. */
    function DrawTextureRectCall(): (c: DrawCall)
      reads this
      ensures c.x == drawRect.left && c.y == drawRect.top
      ensures c.x + c.w == drawRect.right <==> FitsInt16(drawRect.right - drawRect.left)
      ensures c.y + c.h == drawRect.bottom <==> FitsInt16(drawRect.bottom - drawRect.top)
      ensures c.clip == DefaultClip()
    {
      DrawCall(drawRect.left, drawRect.top, Geometry.Width(drawRect), Geometry.Height(drawRect),
               DefaultClip())
    }

    /** `drawTextureOrigin()`: the call it makes, through the four-argument overload. */
    function DrawTextureOriginCall(): (c: DrawCall)
      reads this
      ensures c.x == 0 && c.y == 0
      ensures c.w == surface.w && c.h == surface.h <==> surface.w < 0x8000 && surface.h < 0x8000
      ensures c.clip == DefaultClip()
    {
      DrawCall(0, 0, ToInt16(surface.w), ToInt16(surface.h), DefaultClip())
    }

    /** `isEmpty()`. */
    predicate IsEmpty()
      reads this
      ensures IsEmpty() <==> DrawTextureOriginCall().w == 0 || DrawTextureOriginCall().h == 0
    {
      surface.w == 0 || surface.h == 0
    }

    /** `surface_const()`: read access, the cache stays valid. */
    function SurfaceConst(): GraphicsSurface
      reads this
    {
      surface
    }

    /** `surface()`: write access, so the whole texture must be uploaded again. */
    method Surface() returns (s: GraphicsSurface)
      modifies this`allDirty
      ensures s == SurfaceConst()
      ensures DirtyStateOf() == MarkAll(old(DirtyStateOf()))
      ensures Dirty()
    {
      SetDirty();
      s := surface;
    }

    /** `palette_const()`: null on a direct-format texture (the base class), the palette
        table on a fake-palette texture (its override). */
    function PaletteConst(): (p: array?<bv16>)
      reads this
      ensures p == null <==> kind.Direct?
      ensures kind.FakePalette? ==> p == kind.table
    {
      match kind
      case Direct => null
      case FakePalette(table) => table
    }

    /** `palette()`: the base class returns null and changes nothing; the fake-palette
        override hands out the table for writing, so the whole texture must be uploaded. */
    method Palette() returns (p: array?<bv16>)
      modifies this`allDirty
      ensures p == PaletteConst()
      ensures kind.Direct? ==> DirtyStateOf() == old(DirtyStateOf())
      ensures kind.FakePalette? ==> DirtyStateOf() == MarkAll(old(DirtyStateOf())) && Dirty()
    {
      match kind
      case Direct =>
        p := null;
      case FakePalette(table) =>
        SetDirty();
        p := table;
    }

    /** `hasPalette()`. */
    predicate HasPalette()
      requires Valid()
      reads this
      ensures HasPalette() <==> PaletteConst() != null
      ensures HasPalette() <==> kind.FakePalette?
    {
      palettePixelFormat.bytesPerPixel > 0
    }

    /** `getPalettePixelFormat()`. */
    function GetPalettePixelFormat(): PixelFormat
      reads this
    {
      palettePixelFormat
    }

    /** `setGameTexture()`. */
    method SetGameTexture()
      modifies this`isGameTexture
      ensures isGameTexture
    {
      isGameTexture := true;
    }
  }

  /** Two calls a caller makes between draws: after a clear, a recorded rectangle is
      exactly what was passed; after write access to the surface, no rectangle is
      recorded any more until the next clear. */
  method DirtyTrackingScenario(t: GLESBaseTexture, r1: Rect, r2: Rect)
    modifies t`allDirty, t`dirtyRect
    ensures t.dirtyRect == r1 && t.allDirty
    ensures t.Dirty()
  {
    t.ClearDirty();
    t.SetDirtyRect(r1);
    assert t.dirtyRect == r1;
    var s := t.Surface();
    t.SetDirtyRect(r2);
  }
}
