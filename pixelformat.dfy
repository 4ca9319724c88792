/** The pixel-format record of graphics/pixelformat.h, reduced to what texture.h gives it:
    a byte width and, for red, green, blue and alpha, a bit count and a shift. */
module PixelFormats {

  datatype PixelFormat = PixelFormat(
    bytesPerPixel: nat,
    rBits: nat, gBits: nat, bBits: nat, aBits: nat,
    rShift: nat, gShift: nat, bShift: nat, aShift: nat)

  /** One colour channel: `bits` consecutive bits starting at bit `shift`. */
  datatype Channel = Channel(bits: nat, shift: nat)

  /** The channels in the order red, green, blue, alpha. */
  function Channels(f: PixelFormat): seq<Channel> {
    [Channel(f.rBits, f.rShift), Channel(f.gBits, f.gShift),
     Channel(f.bBits, f.bShift), Channel(f.aBits, f.aShift)]
  }

  /** 2 to the power `n`. */
  function Pow2(n: nat): (r: nat)
    ensures r >= 1
  {
    if n == 0 then 1 else 2 * Pow2(n - 1)
  }

  /** The bits a channel occupies, as the integer value of its mask. */
  function Mask(c: Channel): nat {
    (Pow2(c.bits) - 1) * Pow2(c.shift)
  }

  /** Two channels share no bit. */
  predicate Disjoint(a: Channel, b: Channel) {
    a.bits == 0 || b.bits == 0 || a.shift + a.bits <= b.shift || b.shift + b.bits <= a.shift
  }

  /** The total number of bits the four channels claim. */
  function BitCount(f: PixelFormat): nat {
    f.rBits + f.gBits + f.bBits + f.aBits
  }

  /** Every channel fits inside the pixel. */
  predicate ChannelsInPixel(f: PixelFormat) {
    forall i :: 0 <= i < 4 ==> Channels(f)[i].bits + Channels(f)[i].shift <= 8 * f.bytesPerPixel
  }

  /** A sensible packed layout: one to four bytes, every channel inside the pixel, no two
      channels sharing a bit, and the channels' bit counts adding up to the pixel's width,
      so that together they cover every bit of the pixel. */
  predicate WellFormed(f: PixelFormat) {
    1 <= f.bytesPerPixel <= 4 &&
    BitCount(f) == 8 * f.bytesPerPixel &&
    ChannelsInPixel(f) &&
    forall i, j :: 0 <= i < j < 4 ==> Disjoint(Channels(f)[i], Channels(f)[j])
  }

  /** `GLES8888Texture::pixelFormat()`: RGBA, one byte per channel. */
  function Format8888(): (f: PixelFormat)
    ensures WellFormed(f) && f.bytesPerPixel == 4
    ensures Mask(Channels(f)[0]) == 0xFF00_0000 && Mask(Channels(f)[1]) == 0x00FF_0000
    ensures Mask(Channels(f)[2]) == 0x0000_FF00 && Mask(Channels(f)[3]) == 0x0000_00FF
  {
    assert Pow2(8) == 0x100 && Pow2(16) == 0x1_0000 && Pow2(24) == 0x100_0000;
    PixelFormat(4, 8, 8, 8, 8, 24, 16, 8, 0)
  }

  /** `GLES4444Texture::pixelFormat()`: RGBA, four bits per channel. */
  function Format4444(): (f: PixelFormat)
    ensures WellFormed(f) && f.bytesPerPixel == 2
    ensures Mask(Channels(f)[0]) == 0xF000 && Mask(Channels(f)[1]) == 0x0F00
    ensures Mask(Channels(f)[2]) == 0x00F0 && Mask(Channels(f)[3]) == 0x000F
  {
    PixelFormat(2, 4, 4, 4, 4, 12, 8, 4, 0)
  }

  /** `GLES5551Texture::pixelFormat()`: five bits per colour, one alpha bit at the bottom. */
  function Format5551(): (f: PixelFormat)
    ensures WellFormed(f) && f.bytesPerPixel == 2
    ensures Mask(Channels(f)[0]) == 0xF800 && Mask(Channels(f)[1]) == 0x07C0
    ensures Mask(Channels(f)[2]) == 0x003E && Mask(Channels(f)[3]) == 0x0001
  {
    PixelFormat(2, 5, 5, 5, 1, 11, 6, 1, 0)
  }

  /** `GLES565Texture::pixelFormat()`: red bits 11-15, green bits 5-10, blue bits 0-4, no alpha. */
  function Format565(): (f: PixelFormat)
    ensures WellFormed(f) && f.bytesPerPixel == 2 && f.aBits == 0
    ensures Mask(Channels(f)[0]) == 0xF800 && Mask(Channels(f)[1]) == 0x07E0
    ensures Mask(Channels(f)[2]) == 0x001F
  {
    PixelFormat(2, 5, 6, 5, 0, 11, 5, 0, 0)
  }
}
