/** The colour helpers: a colour is an `unsigned long` holding 0xRRGGBB, modelled as a 32-bit
    bit vector; a channel is a `byte`, modelled as an 8-bit bit vector. */
module Colors {

  /** The three channels of a packed colour, in the order red, green, blue. */
  type Channels = (bv8, bv8, bv8)

  /** `RGB2Long`: packs three channels with shifts and a bitwise or. */
  function RGB2Long(red: bv8, green: bv8, blue: bv8): (color: bv32)
    ensures color < 0x100_0000
    ensures color == red as bv32 * 0x1_0000 + green as bv32 * 0x100 + blue as bv32
  {
    (red as bv32 << 16) | (green as bv32 << 8) | blue as bv32
  }

  /** `Long2RGB` with `byte` outputs: each channel is the colour shifted right and truncated
      to a byte; the top byte of the colour is ignored. */
  function Long2RGB(color: bv32): (rgb: Channels)
    ensures RGB2Long(rgb.0, rgb.1, rgb.2) == color & 0xFF_FFFF
  {
    (((color >> 16) & 0xFF) as bv8, ((color >> 8) & 0xFF) as bv8, (color & 0xFF) as bv8)
  }

  /** A byte widened to `int`, as C promotes it. */
  function Widen(b: bv8): (v: int)
    ensures 0 <= v < 256
  {
    b as int
  }

  /** `Long2RGB` with `int` outputs: the same bytes, widened. */
  function Long2RGBInt(color: bv32): (rgb: (int, int, int))
    ensures 0 <= rgb.0 < 256 && 0 <= rgb.1 < 256 && 0 <= rgb.2 < 256
  {
    var (r, g, b) := Long2RGB(color);
    (Widen(r), Widen(g), Widen(b))
  }

  /** `GetRed`: masks the red byte in place, then shifts it down; this is the byte `Long2RGB`
      extracts by shifting first. */
  function GetRed(color: bv32): (red: bv8)
    ensures red == Long2RGB(color).0
  {
    ((color & 0xFF_0000) >> 16) as bv8
  }

  /** `GetGreen`. */
  function GetGreen(color: bv32): (green: bv8)
    ensures green == Long2RGB(color).1
  {
    ((color & 0x00_FF00) >> 8) as bv8
  }

  /** `GetBlue`. */
  function GetBlue(color: bv32): (blue: bv8)
    ensures blue == Long2RGB(color).2
  {
    (color & 0x00_00FF) as bv8
  }

  /** Unpacking a packed colour gives back its channels, through every unpacking helper. */
  lemma RoundTrip(red: bv8, green: bv8, blue: bv8)
    ensures Long2RGB(RGB2Long(red, green, blue)) == (red, green, blue)
    ensures Long2RGBInt(RGB2Long(red, green, blue)) == (red as int, green as int, blue as int)
    ensures GetRed(RGB2Long(red, green, blue)) == red
    ensures GetGreen(RGB2Long(red, green, blue)) == green
    ensures GetBlue(RGB2Long(red, green, blue)) == blue
  {
  }

  /** The single-channel getters agree with `Long2RGB` on every 32-bit value, including
      values whose top byte is set. */
  lemma GettersAgree(color: bv32)
    ensures Long2RGB(color) == (GetRed(color), GetGreen(color), GetBlue(color))
  {
  }

  /** `Long2RGB` into an `int[3]`. */
  method Long2RGBArray(color: bv32, rgb: array<int>)
    requires rgb.Length >= 3
    modifies rgb
    ensures rgb[..3] == [Long2RGBInt(color).0, Long2RGBInt(color).1, Long2RGBInt(color).2]
    ensures rgb[3..] == old(rgb[3..])
  {
    rgb[0] := (((color >> 16) & 0xFF) as bv8) as int;
    rgb[1] := (((color >> 8) & 0xFF) as bv8) as int;
    rgb[2] := ((color & 0xFF) as bv8) as int;
  }

  /** `CopyColor`: copies the three channels of `src` into `dest`. */
  method CopyColor(dest: array<int>, src: array<int>)
    requires dest.Length >= 3 && src.Length >= 3
    modifies dest
    ensures dest[..3] == old(src[..3])
    ensures dest[3..] == old(dest[3..])
  {
    for i := 0 to 3
      invariant forall k :: 0 <= k < i ==> dest[k] == old(src[k])
      invariant forall k :: i <= k < dest.Length ==> dest[k] == old(dest[k])
      invariant forall k :: i <= k < src.Length ==> src[k] == old(src[k])
    {
      dest[i] := src[i];
    }
  }
}
