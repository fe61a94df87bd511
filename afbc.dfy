/**
 * The AFBC (Arm frame-buffer compression) decoder in front of a DE3 video
 * channel.
 *
 * A plane may be scanned out from an AFBC-compressed buffer when its format
 * and modifier are accepted here; the decoder is then programmed with the
 * source size, crop, pixel format, buffer address, overlay window, default
 * colour and global alpha, and its control register switched on last.
 * Register addresses are offsets from the channel's decoder base.
 */
module Afbc {
  import opened Wrappers
  import opened Regmap
  import opened SunxiEngine

  /** fourcc_code(a, b, c, d) of the DRM uapi: four characters, first in
      the low byte. */
  function FourCC(a: char, b: char, c: char, d: char): int
    requires a < 128 as char && b < 128 as char && c < 128 as char && d < 128 as char
  {
    a as int + 0x100 * b as int + 0x1_0000 * c as int + 0x100_0000 * d as int
  }

  const DRM_FORMAT_RGBA8888: int := 0x3432_4152
  const DRM_FORMAT_RGB888: int := 0x3432_4752
  const DRM_FORMAT_RGB565: int := 0x3631_4752
  const DRM_FORMAT_RGBA4444: int := 0x3231_4152
  const DRM_FORMAT_RGBA5551: int := 0x3531_4152
  const DRM_FORMAT_RGBA1010102: int := 0x3033_4152
  const DRM_FORMAT_YUYV: int := 0x5659_5559
  const DRM_FORMAT_Y210: int := 0x3031_3259
  const DRM_FORMAT_YUV420_8BIT: int := 0x3830_5559
  const DRM_FORMAT_YUV420_10BIT: int := 0x3031_5559

  /** The format codes are the fourcc codes of their names. */
  lemma FormatCodes()
    ensures DRM_FORMAT_RGBA8888 == FourCC('R', 'A', '2', '4')
    ensures DRM_FORMAT_RGB888 == FourCC('R', 'G', '2', '4')
    ensures DRM_FORMAT_RGB565 == FourCC('R', 'G', '1', '6')
    ensures DRM_FORMAT_RGBA4444 == FourCC('R', 'A', '1', '2')
    ensures DRM_FORMAT_RGBA5551 == FourCC('R', 'A', '1', '5')
    ensures DRM_FORMAT_RGBA1010102 == FourCC('R', 'A', '3', '0')
    ensures DRM_FORMAT_YUYV == FourCC('Y', 'U', 'Y', 'V')
    ensures DRM_FORMAT_Y210 == FourCC('Y', '2', '1', '0')
    ensures DRM_FORMAT_YUV420_8BIT == FourCC('Y', 'U', '0', '8')
    ensures DRM_FORMAT_YUV420_10BIT == FourCC('Y', 'U', '1', '0')
  {
  }

  /** The six RGB formats the decoder takes. */
  predicate IsRgb(format: int) {
    format in {DRM_FORMAT_RGBA8888, DRM_FORMAT_RGB888, DRM_FORMAT_RGB565,
               DRM_FORMAT_RGBA4444, DRM_FORMAT_RGBA5551, DRM_FORMAT_RGBA1010102}
  }

  /** The four YUV formats the decoder takes. */
  predicate IsYuv(format: int) {
    format in {DRM_FORMAT_YUYV, DRM_FORMAT_Y210, DRM_FORMAT_YUV420_8BIT, DRM_FORMAT_YUV420_10BIT}
  }

  /** The ten format codes are distinct, so each case of the driver's
      switches is reached by exactly one format. */
  lemma FormatsDistinct()
    ensures |{DRM_FORMAT_RGBA8888, DRM_FORMAT_RGB888, DRM_FORMAT_RGB565, DRM_FORMAT_RGBA4444,
              DRM_FORMAT_RGBA5551, DRM_FORMAT_RGBA1010102, DRM_FORMAT_YUYV, DRM_FORMAT_Y210,
              DRM_FORMAT_YUV420_8BIT, DRM_FORMAT_YUV420_10BIT}| == 10
  {
  }

  /** Format modifiers (64-bit, vendor in the top byte). */
  const DRM_FORMAT_MOD_LINEAR: bv64 := 0
  const DRM_FORMAT_MOD_INVALID: bv64 := 0x00ff_ffff_ffff_ffff
  const DRM_FORMAT_MOD_VENDOR_ARM: bv64 := 0x08
  const AFBC_FORMAT_MOD_BLOCK_SIZE_16x16: bv64 := 1
  const AFBC_FORMAT_MOD_YTR: bv64 := 1 << 4
  const AFBC_FORMAT_MOD_SPLIT: bv64 := 1 << 5
  const AFBC_FORMAT_MOD_SPARSE: bv64 := 1 << 6

  /** DRM_FORMAT_MOD_ARM_AFBC(mode): an Arm modifier of type AFBC (0). */
  function ArmAfbc(mode: bv64): bv64 {
    (DRM_FORMAT_MOD_VENDOR_ARM << 56) | (mode & 0x000f_ffff_ffff_ffff)
  }

  /** sun50i_afbc_format_mod_supported: the invalid modifier is never
      taken, and a compressed one only on DE3 for a format the decoder
      reads. */
  predicate FormatModSupported(isDe3: bool, format: int, modifier: bv64)
    ensures FormatModSupported(isDe3, format, modifier) ==> modifier != DRM_FORMAT_MOD_INVALID
    ensures FormatModSupported(isDe3, format, modifier) && modifier != DRM_FORMAT_MOD_LINEAR ==>
      isDe3 && (IsRgb(format) || IsYuv(format))
  {
    if modifier == DRM_FORMAT_MOD_INVALID then false
    else if modifier == DRM_FORMAT_MOD_LINEAR then
      !(format == DRM_FORMAT_YUV420_8BIT || format == DRM_FORMAT_YUV420_10BIT || format == DRM_FORMAT_Y210)
    else if !isDe3 then false
    else
      var mode := AFBC_FORMAT_MOD_BLOCK_SIZE_16x16 | AFBC_FORMAT_MOD_SPARSE | AFBC_FORMAT_MOD_SPLIT;
      if IsRgb(format) then modifier == ArmAfbc(mode | AFBC_FORMAT_MOD_YTR)
      else if IsYuv(format) then modifier == ArmAfbc(mode)
      else false
  }

  /** The one compressed layout the decoder reads for each format: 16x16
      superblocks, sparse and split, with the YUV transform exactly for the
      RGB formats; none for any other format. */
  function AfbcLayout(format: int): (m: Option<bv64>)
    ensures m.Some? <==> IsRgb(format) || IsYuv(format)
  {
    if IsRgb(format) then Some(0x0800_0000_0000_0071)
    else if IsYuv(format) then Some(0x0800_0000_0000_0061)
    else None
  }

  /** The two layouts carry the Arm vendor code, 16x16 blocks, sparse and
      split, differ only in the YUV transform, and are neither linear nor
      invalid. */
  lemma AfbcLayoutBits(format: int)
    requires AfbcLayout(format).Some?
    ensures AfbcLayout(format).value >> 56 == DRM_FORMAT_MOD_VENDOR_ARM
    ensures AfbcLayout(format).value & 0x61 == AFBC_FORMAT_MOD_BLOCK_SIZE_16x16 | AFBC_FORMAT_MOD_SPLIT | AFBC_FORMAT_MOD_SPARSE
    ensures (AfbcLayout(format).value & AFBC_FORMAT_MOD_YTR != 0) <==> IsRgb(format)
    ensures AfbcLayout(format).value !in {DRM_FORMAT_MOD_LINEAR, DRM_FORMAT_MOD_INVALID}
  {
  }

  /** Which format/modifier pairs are accepted: never the invalid modifier;
      the linear one for every format but the two 4:2:0 formats and Y210,
      on every mixer; otherwise nothing on a pre-DE3 mixer, and on DE3
      exactly the format's one AFBC layout. */
  lemma FormatModSupportedSpec(isDe3: bool, format: int, modifier: bv64)
    ensures !FormatModSupported(isDe3, format, DRM_FORMAT_MOD_INVALID)
    ensures FormatModSupported(isDe3, format, DRM_FORMAT_MOD_LINEAR) <==>
      format !in {DRM_FORMAT_YUV420_8BIT, DRM_FORMAT_YUV420_10BIT, DRM_FORMAT_Y210}
    ensures modifier != DRM_FORMAT_MOD_LINEAR && !isDe3 ==> !FormatModSupported(isDe3, format, modifier)
    ensures modifier != DRM_FORMAT_MOD_LINEAR && isDe3 ==>
      (FormatModSupported(isDe3, format, modifier) <==> AfbcLayout(format) == Some(modifier))
  {
    assert ArmAfbc(AFBC_FORMAT_MOD_BLOCK_SIZE_16x16 | AFBC_FORMAT_MOD_SPARSE | AFBC_FORMAT_MOD_SPLIT | AFBC_FORMAT_MOD_YTR)
      == 0x0800_0000_0000_0071;
    assert ArmAfbc(AFBC_FORMAT_MOD_BLOCK_SIZE_16x16 | AFBC_FORMAT_MOD_SPARSE | AFBC_FORMAT_MOD_SPLIT)
      == 0x0800_0000_0000_0061;
  }

  /** AFBC input-format codes of the decoder. */
  const AFBC_RGBA_8888: bv32 := 0x02
  const AFBC_RGB_888: bv32 := 0x08
  const AFBC_RGB_565: bv32 := 0x0a
  const AFBC_RGBA_4444: bv32 := 0x0e
  const AFBC_RGBA_5551: bv32 := 0x12
  const AFBC_RGBA1010102: bv32 := 0x16
  const AFBC_YUV422: bv32 := 0x26
  const AFBC_YUV420: bv32 := 0x2a
  const AFBC_P010: bv32 := 0x30
  const AFBC_P210: bv32 := 0x32

  /** The decoder's input code for each format it takes. */
  function InputCode(format: int): (c: Option<bv32>)
    ensures c.Some? <==> IsRgb(format) || IsYuv(format)
  {
    if format == DRM_FORMAT_RGBA8888 then Some(AFBC_RGBA_8888)
    else if format == DRM_FORMAT_RGB888 then Some(AFBC_RGB_888)
    else if format == DRM_FORMAT_RGB565 then Some(AFBC_RGB_565)
    else if format == DRM_FORMAT_RGBA4444 then Some(AFBC_RGBA_4444)
    else if format == DRM_FORMAT_RGBA5551 then Some(AFBC_RGBA_5551)
    else if format == DRM_FORMAT_RGBA1010102 then Some(AFBC_RGBA1010102)
    else if format == DRM_FORMAT_YUV420_8BIT then Some(AFBC_YUV420)
    else if format == DRM_FORMAT_YUYV then Some(AFBC_YUV422)
    else if format == DRM_FORMAT_YUV420_10BIT then Some(AFBC_P010)
    else if format == DRM_FORMAT_Y210 then Some(AFBC_P210)
    else None
  }

  /** Distinct formats get distinct codes, and every code fits the six low
      bits of the format register, below YUV_TRAN. */
  lemma InputCodeInjective(f: int, g: int)
    requires InputCode(f).Some? && InputCode(g).Some?
    ensures InputCode(f) == InputCode(g) <==> f == g
    ensures InputCode(f).value < 0x40
  {
  }

  /** Register offsets of one channel's decoder. */
  const AFBC_CH_OFFSET: int := 0x300
  function FbdCtl(base: int): int { base + 0x00 }
  function FbdSize(base: int): int { base + 0x08 }
  function FbdBlkSize(base: int): int { base + 0x0c }
  function FbdSrcCrop(base: int): int { base + 0x10 }
  function FbdLayCrop(base: int): int { base + 0x14 }
  function FbdFmt(base: int): int { base + 0x18 }
  function FbdLaddr(base: int): int { base + 0x20 }
  function FbdHaddr(base: int): int { base + 0x24 }
  function FbdOvlSize(base: int): int { base + 0x30 }
  function FbdOvlCoor(base: int): int { base + 0x34 }
  function FbdOvlBgColor(base: int): int { base + 0x38 }
  function FbdDefaultColor0(base: int): int { base + 0x50 }
  function FbdDefaultColor1(base: int): int { base + 0x54 }

  /** FBD_CTL fields. */
  const FBD_CTL_CLK_GATE: bv32 := 1 << 4
  const FBD_CTL_ALPHA_MODE_PIXEL: bv32 := 0 << 2
  const FBD_CTL_ALPHA_MODE_LAYER: bv32 := 1 << 2
  const FBD_CTL_ALPHA_MODE_COMBINED: bv32 := 2 << 2
  const FBD_CTL_FBD_FCEN: bv32 := 1 << 1
  const FBD_CTL_FBD_EN: bv32 := 1
  const FBD_FMT_YUV_TRAN: bv32 := 1 << 7

  /** The alpha modes occupy bits 2 and 3 and are distinct; the enable bit
      is bit 0 and lies outside them. */
  lemma CtlFieldsLayout()
    ensures |{FBD_CTL_ALPHA_MODE_PIXEL, FBD_CTL_ALPHA_MODE_LAYER, FBD_CTL_ALPHA_MODE_COMBINED}| == 3
    ensures FBD_CTL_ALPHA_MODE_LAYER >> 2 == 1 && FBD_CTL_ALPHA_MODE_COMBINED >> 2 == 2
    ensures (FBD_CTL_ALPHA_MODE_PIXEL | FBD_CTL_ALPHA_MODE_LAYER | FBD_CTL_ALPHA_MODE_COMBINED) & !0xc == 0
    ensures FBD_CTL_FBD_EN & 0xc == 0 && FBD_CTL_FBD_EN == 1
  {
  }

  /** struct drm_rect: 32-bit C ints, held as their two's-complement
      bits; the source rectangle is in 16.16 fixed point. */
  datatype Rect = Rect(x1: bv32, y1: bv32, x2: bv32, y2: bv32)

  /** drm_rect_width and drm_rect_height: a difference in 32-bit arithmetic. */
  function Width(r: Rect): bv32 {
    r.x2 - r.x1
  }

  function Height(r: Rect): bv32 {
    r.y2 - r.y1
  }

  /** A 16.16 quantity shifted right by 16 as a C int (arithmetic shift,
      copying the sign bit) and stored in a u32: its whole pixels. */
  function Pixels(fixed: bv32): bv32 {
    if fixed & 0x8000_0000 != 0 then (fixed >> 16) | 0xffff_0000 else fixed >> 16
  }

  /** SUN50I_FBD_SIZE_HEIGHT(h) | SUN50I_FBD_SIZE_WIDTH(w), also the layout
      of OVL_SIZE: each dimension minus one, in u32 arithmetic. */
  function SizeWord(w: bv32, h: bv32): bv32 {
    ((h - 1) << 16) | (w - 1)
  }

  /** For dimensions from 1 to 65536 both come back out of the word. */
  lemma SizeWordRoundTrip(w: bv32, h: bv32)
    requires 1 <= w <= 0x1_0000 && 1 <= h <= 0x1_0000
    ensures SizeWord(w, h) >> 16 == h - 1
    ensures SizeWord(w, h) & 0xffff == w - 1
  {
  }

  /** A zero width is not representable: w - 1 wraps to all ones and wipes
      out the height field, whatever the height. */
  lemma SizeWordZeroWidth(h: bv32)
    ensures SizeWord(0, h) == 0xffff_ffff
  {
  }

  /** A top/left (or y/x) pair: the vertical coordinate in the high half. */
  function PairWord(high: bv32, low: bv32): bv32 {
    (high << 16) | low
  }

  lemma PairWordRoundTrip(high: bv32, low: bv32)
    requires high < 0x1_0000 && low < 0x1_0000
    ensures PairWord(high, low) >> 16 == high
    ensures PairWord(high, low) & 0xffff == low
  {
  }

  /** DIV_ROUND_UP(n, 16) on a u32. */
  function BlocksOf16(n: bv32): bv32 {
    (n + 15) / 16
  }

  /** The block-size word as sun50i_afbc_atomic_update computes it: the
      height term is assigned to val and then overwritten by the width
      term instead of being or-ed with it. */
  function BlkSizeWordAsWritten(w: bv32, h: bv32): (r: bv32)
    ensures r == BlocksOf16(w)
  {
    var val := BlocksOf16(h) << 16;
    var val' := BlocksOf16(w) << 0;
    val'
  }

  /** The height is lost: any two heights give the same word, so a 1080
      line source is programmed with zero block rows. */
  lemma BlkSizeLosesHeight(w: bv32, h1: bv32, h2: bv32)
    ensures BlkSizeWordAsWritten(w, h1) == BlkSizeWordAsWritten(w, h2)
    ensures BlkSizeWordAsWritten(1920, 1080) >> 16 == 0 && BlocksOf16(1080) == 68
  {
  }

  /** The block-size word with both fields: the number of 16-pixel block
      rows in the high half and of block columns in the low half. */
  function BlkSizeWord(w: bv32, h: bv32): bv32 {
    PairWord(BlocksOf16(h), BlocksOf16(w))
  }

  /** Up to 65536 pixels, the number of 16-pixel blocks is the least one
      whose blocks cover the dimension, and fits in 16 bits. */
  lemma BlocksCover(n: bv32)
    requires n <= 0x1_0000
    ensures BlocksOf16(n) <= 0x1000
    ensures 16 * BlocksOf16(n) >= n
    ensures BlocksOf16(n) == 0 || 16 * (BlocksOf16(n) - 1) < n
  {
  }

  /** Each field holds the number of 16-pixel blocks that cover the
      dimension, for dimensions up to 65536. */
  lemma BlkSizeRoundTrip(w: bv32, h: bv32)
    requires w <= 0x1_0000 && h <= 0x1_0000
    ensures BlkSizeWord(w, h) >> 16 == BlocksOf16(h)
    ensures BlkSizeWord(w, h) & 0xffff == BlocksOf16(w)
  {
    BlocksCover(w);
    BlocksCover(h);
    PairWordRoundTrip(BlocksOf16(h), BlocksOf16(w));
  }

  /** The sub-block sizes (SBS1, SBS0) of each format. */
  function SubBlocks(format: int): (bv32, bv32) {
    if format == DRM_FORMAT_YUYV || format == DRM_FORMAT_YUV420_10BIT then (2, 1)
    else if format == DRM_FORMAT_Y210 then (3, 2)
    else (1, 1)
  }

  /** The FBD_FMT word: sub-block sizes, the YUV transform for RGB input,
      and the input code. */
  function FmtWord(format: int): bv32 {
    var (sbs1, sbs0) := SubBlocks(format);
    var val := (sbs1 << 18) | (sbs0 << 16);
    var tran := if IsRgb(format) then FBD_FMT_YUV_TRAN else 0;
    var code := match InputCode(format) case Some(c) => c case None => 0;
    val | tran | code
  }

  /** The fields of FBD_FMT read back as chosen: YUV_TRAN exactly for the
      six RGB formats, the input code in the low bits (zero for a format
      the decoder does not take), SBS1/SBS0 2/1 for YUYV and 10-bit 4:2:0,
      3/2 for Y210 and 1/1 for every other format. */
  lemma FmtWordFields(format: int)
    ensures (FmtWord(format) & FBD_FMT_YUV_TRAN != 0) <==> IsRgb(format)
    ensures FmtWord(format) & 0x3f == match InputCode(format) case Some(c) => c case None => 0
    ensures (FmtWord(format) >> 18) & 3 ==
      if format == DRM_FORMAT_YUYV || format == DRM_FORMAT_YUV420_10BIT then 2
      else if format == DRM_FORMAT_Y210 then 3 else 1
    ensures (FmtWord(format) >> 16) & 3 == if format == DRM_FORMAT_Y210 then 2 else 1
  {
    var code := match InputCode(format) case Some(c) => c case None => 0;
    if InputCode(format).Some? {
      InputCodeInjective(format, format);
    }
    FmtWordBits(SubBlocks(format).0, SubBlocks(format).1, IsRgb(format), code);
  }

  lemma FmtWordBits(sbs1: bv32, sbs0: bv32, rgb: bool, code: bv32)
    requires sbs1 < 4 && sbs0 < 4 && code < 0x40
    ensures var w := (sbs1 << 18) | (sbs0 << 16) | (if rgb then FBD_FMT_YUV_TRAN else 0) | code;
      && ((w & FBD_FMT_YUV_TRAN != 0) <==> rgb)
      && w & 0x3f == code
      && (w >> 18) & 3 == sbs1
      && (w >> 16) & 3 == sbs0
  {
  }

  /** The default colour: white in the format's own colour space. */
  datatype White = White(alpha: bv32, yr: bv32, ug: bv32, vb: bv32)

  function DefaultWhite(format: int): (w: White)
    ensures w.alpha < 0x1_0000 && w.yr < 0x1_0000 && w.ug < 0x1_0000 && w.vb < 0x1_0000
  {
    if format == DRM_FORMAT_RGBA8888 then White(255, 255, 256, 256)
    else if format == DRM_FORMAT_RGB888 then White(0, 255, 256, 256)
    else if format == DRM_FORMAT_RGB565 then White(0, 31, 64, 32)
    else if format == DRM_FORMAT_RGBA4444 then White(15, 15, 16, 16)
    else if format == DRM_FORMAT_RGBA5551 then White(1, 31, 32, 32)
    else if format == DRM_FORMAT_RGBA1010102 then White(3, 1023, 1024, 1024)
    else if format == DRM_FORMAT_YUV420_8BIT || format == DRM_FORMAT_YUYV then White(0, 255, 128, 128)
    else if format == DRM_FORMAT_YUV420_10BIT || format == DRM_FORMAT_Y210 then White(0, 1023, 512, 512)
    else White(0, 0, 0, 0)
  }

  /** Bits per component of each format: alpha, then R/Y, G/U, B/V. */
  datatype Depths = Depths(a: nat, r: nat, g: nat, b: nat)

  function ComponentDepths(format: int): Depths {
    if format == DRM_FORMAT_RGBA8888 then Depths(8, 8, 8, 8)
    else if format == DRM_FORMAT_RGB888 then Depths(0, 8, 8, 8)
    else if format == DRM_FORMAT_RGB565 then Depths(0, 5, 6, 5)
    else if format == DRM_FORMAT_RGBA4444 then Depths(4, 4, 4, 4)
    else if format == DRM_FORMAT_RGBA5551 then Depths(1, 5, 5, 5)
    else if format == DRM_FORMAT_RGBA1010102 then Depths(2, 10, 10, 10)
    else if format == DRM_FORMAT_YUV420_8BIT || format == DRM_FORMAT_YUYV then Depths(0, 8, 8, 8)
    else Depths(0, 10, 10, 10)
  }

  function Pow2(n: nat): nat {
    if n == 0 then 1 else 2 * Pow2(n - 1)
  }

  /** The default colour is white at the format's depth: alpha and R at
      their maximum with G and B one above theirs for RGB formats (the
      off-by-one the driver notes), full luma and centred chroma for YUV
      formats. */
  lemma DefaultIsWhite(format: int)
    requires IsRgb(format) || IsYuv(format)
    ensures WhiteAtDepth(DefaultWhite(format), ComponentDepths(format), IsRgb(format))
  {
    if IsRgb(format) {
      RgbWhite(format);
    } else {
      YuvWhite(format);
    }
  }

  /** Full alpha and full first component; the other two one above full
      (RGB) or at the midpoint (YUV). */
  predicate WhiteAtDepth(w: White, d: Depths, rgb: bool) {
    && w.alpha as int == Pow2(d.a) - 1
    && w.yr as int == Pow2(d.r) - 1
    && (rgb ==> w.ug as int == Pow2(d.g) && w.vb as int == Pow2(d.b))
    && (!rgb ==> d.g > 0 && d.b > 0 && w.ug as int == Pow2(d.g - 1) && w.vb as int == Pow2(d.b - 1))
  }

  lemma RgbWhite(format: int)
    requires IsRgb(format)
    ensures WhiteAtDepth(DefaultWhite(format), ComponentDepths(format), true)
  {
    if format == DRM_FORMAT_RGBA8888 {
      assert WhiteAtDepth(White(255, 255, 256, 256), Depths(8, 8, 8, 8), true);
    } else if format == DRM_FORMAT_RGB888 {
      assert WhiteAtDepth(White(0, 255, 256, 256), Depths(0, 8, 8, 8), true);
    } else if format == DRM_FORMAT_RGB565 {
      assert WhiteAtDepth(White(0, 31, 64, 32), Depths(0, 5, 6, 5), true);
    } else if format == DRM_FORMAT_RGBA4444 {
      assert WhiteAtDepth(White(15, 15, 16, 16), Depths(4, 4, 4, 4), true);
    } else if format == DRM_FORMAT_RGBA5551 {
      assert WhiteAtDepth(White(1, 31, 32, 32), Depths(1, 5, 5, 5), true);
    } else {
      assert WhiteAtDepth(White(3, 1023, 1024, 1024), Depths(2, 10, 10, 10), true);
    }
  }

  lemma YuvWhite(format: int)
    requires IsYuv(format)
    ensures WhiteAtDepth(DefaultWhite(format), ComponentDepths(format), false)
  {
    if format == DRM_FORMAT_YUV420_8BIT || format == DRM_FORMAT_YUYV {
      assert WhiteAtDepth(White(0, 255, 128, 128), Depths(0, 8, 8, 8), false);
    } else {
      assert WhiteAtDepth(White(0, 1023, 512, 512), Depths(0, 10, 10, 10), false);
    }
  }

  /** DEFAULT_COLOR0: alpha high, Y/R low; DEFAULT_COLOR1: V/B high, U/G low. */
  function DefaultColor0(w: White): bv32 {
    PairWord(w.alpha, w.yr)
  }

  function DefaultColor1(w: White): bv32 {
    PairWord(w.vb, w.ug)
  }

  lemma DefaultColorFields(format: int)
    ensures DefaultColor0(DefaultWhite(format)) >> 16 == DefaultWhite(format).alpha
    ensures DefaultColor0(DefaultWhite(format)) & 0xffff == DefaultWhite(format).yr
    ensures DefaultColor1(DefaultWhite(format)) >> 16 == DefaultWhite(format).vb
    ensures DefaultColor1(DefaultWhite(format)) & 0xffff == DefaultWhite(format).ug
  {
    var w := DefaultWhite(format);
    PairWordRoundTrip(w.alpha, w.yr);
    PairWordRoundTrip(w.vb, w.ug);
  }

  /** The buffer address, split into the two 32-bit address registers. */
  function Lower32(a: bv64): bv32 {
    (a & 0xffff_ffff) as bv32
  }

  function Upper32(a: bv64): bv32 {
    (a >> 32) as bv32
  }

  lemma AddressSplit(a: bv64)
    ensures ((Upper32(a) as bv64) << 32) | (Lower32(a) as bv64) == a
  {
  }

  const DRM_BLEND_ALPHA_OPAQUE: bv16 := 0xffff

  /** The control word as written: the plane's 16-bit alpha shifted right
      by 16 into the global-alpha field. */
  function CtlWordAsWritten(alpha: bv16): (r: bv32)
    ensures r >> 24 == 0
    ensures r & FBD_CTL_FBD_EN != 0 && r & FBD_CTL_CLK_GATE != 0
    ensures (r >> 2) & 3 == if alpha == DRM_BLEND_ALPHA_OPAQUE then 0 else 2
  {
    var val := ((alpha as bv32) >> 16) << 24;
    var val' := val | FBD_CTL_CLK_GATE;
    var val'' := val' | if alpha == DRM_BLEND_ALPHA_OPAQUE then FBD_CTL_ALPHA_MODE_PIXEL else FBD_CTL_ALPHA_MODE_COMBINED;
    val'' | FBD_CTL_FBD_EN
  }

  /** A 16-bit alpha shifted right by 16 is always zero: a half transparent
      plane (0x8000) gets global alpha 0 rather than 0x80. */
  lemma GlobalAlphaLost(alpha: bv16)
    ensures CtlWordAsWritten(alpha) >> 24 == 0
    ensures CtlWordAsWritten(0x8000) >> 24 != 0x80
  {
  }

  /** The control word with the top byte of the alpha as global alpha. */
  function CtlWord(alpha: bv16): bv32 {
    var val := ((alpha >> 8) as bv32) << 24;
    var val' := val | FBD_CTL_CLK_GATE;
    var val'' := val' | if alpha == DRM_BLEND_ALPHA_OPAQUE then FBD_CTL_ALPHA_MODE_PIXEL else FBD_CTL_ALPHA_MODE_COMBINED;
    val'' | FBD_CTL_FBD_EN
  }

  /** The decoder is on with its clock ungated, the global alpha is the
      plane's alpha scaled to 8 bits, and per-pixel alpha alone is used
      exactly when the plane is opaque. */
  lemma CtlWordFields(alpha: bv16)
    ensures CtlWord(alpha) & FBD_CTL_FBD_EN != 0
    ensures CtlWord(alpha) & FBD_CTL_CLK_GATE != 0
    ensures CtlWord(alpha) & FBD_CTL_FBD_FCEN == 0
    ensures CtlWord(alpha) >> 24 == (alpha >> 8) as bv32
    ensures (CtlWord(alpha) >> 2) & 3 == if alpha == DRM_BLEND_ALPHA_OPAQUE then 0 else 2
    ensures alpha == DRM_BLEND_ALPHA_OPAQUE ==> CtlWord(alpha) >> 24 == 0xff
  {
  }

  /** The parts of a drm_plane_state the decoder is programmed from: the
      source rectangle (16.16), the alpha, the framebuffer's format, the
      DMA address of its buffer object and its first plane offset. */
  datatype PlaneState = PlaneState(src: Rect, alpha: bv16, format: int, gemAddr: bv64, offset0: bv32)

  /** The bus address of the framebuffer's first plane: the buffer
      object's address plus the plane offset, in 64 bits. */
  function DmaAddress(s: PlaneState): bv64 {
    s.gemAddr + s.offset0 as bv64
  }

  /** The thirteen words sun50i_afbc_atomic_update writes. */
  datatype FbdWords = FbdWords(
    size: bv32, blkSize: bv32, srcCrop: bv32, layCrop: bv32, fmt: bv32, laddr: bv32, haddr: bv32,
    ovlSize: bv32, ovlCoor: bv32, bgColor: bv32, color0: bv32, color1: bv32, ctl: bv32)

  /** The registers sun50i_afbc_atomic_update writes, in order. */
  function Program(base: int, r: FbdWords): (p: seq<Access>)
    ensures |p| == 13
  {
    [ Write(FbdSize(base), r.size),
      Write(FbdBlkSize(base), r.blkSize),
      Write(FbdSrcCrop(base), r.srcCrop),
      Write(FbdLayCrop(base), r.layCrop),
      Write(FbdFmt(base), r.fmt),
      Write(FbdLaddr(base), r.laddr),
      Write(FbdHaddr(base), r.haddr),
      Write(FbdOvlSize(base), r.ovlSize),
      Write(FbdOvlCoor(base), r.ovlCoor),
      Write(FbdOvlBgColor(base), r.bgColor),
      Write(FbdDefaultColor0(base), r.color0),
      Write(FbdDefaultColor1(base), r.color1),
      Write(FbdCtl(base), r.ctl) ]
  }

  /** The words sun50i_afbc_atomic_update computes for a plane, as
      written: the block-size word carries the width's block count alone
      and the global alpha is `alpha >> 16`. `black` is the mixer's
      SUN8I_MIXER_BLEND_COLOR_BLACK. */
  function UpdateWords(s: PlaneState, black: bv32): (r: FbdWords)
    ensures r.size == r.ovlSize
    ensures r.srcCrop == 0 && r.ovlCoor == 0
    ensures r.bgColor == black
    ensures r.blkSize == BlocksOf16(Pixels(Width(s.src)))
    ensures r.ctl >> 24 == 0 && r.ctl & FBD_CTL_FBD_EN != 0
  {
    var w, h := Pixels(Width(s.src)), Pixels(Height(s.src));
    var addr := DmaAddress(s);
    FbdWords(
      SizeWord(w, h), BlkSizeWordAsWritten(w, h), PairWord(0, 0),
      PairWord(Pixels(s.src.y1), Pixels(s.src.x1)), FmtWord(s.format),
      Lower32(addr), Upper32(addr), SizeWord(w, h), PairWord(0, 0), black,
      DefaultColor0(DefaultWhite(s.format)), DefaultColor1(DefaultWhite(s.format)),
      CtlWordAsWritten(s.alpha))
  }

  /** The words with the two defects of the update corrected: both block
      counts in the block-size word and the top byte of the alpha as the
      global alpha. Every other word is the one the update writes. */
  function CorrectedWords(s: PlaneState, black: bv32): FbdWords {
    var w, h := Pixels(Width(s.src)), Pixels(Height(s.src));
    UpdateWords(s, black).(blkSize := BlkSizeWord(w, h), ctl := CtlWord(s.alpha))
  }

  /** The register writes of sun50i_afbc_atomic_update, in order. */
  function UpdateWrites(base: int, s: PlaneState, black: bv32): (p: seq<Access>)
    ensures |p| == 13 && p[12] == Write(FbdCtl(base), UpdateWords(s, black).ctl)
    ensures forall k :: 0 <= k < 13 ==> p[k].Write?
  {
    Program(base, UpdateWords(s, black))
  }

  /** sun50i_afbc_atomic_update; `chanBase` is sun8i_channel_base of the
      channel. */
  method AtomicUpdate(engine: Engine, chanBase: int, s: PlaneState, black: bv32)
    modifies engine.regs
    ensures engine.regs.log == old(engine.regs.log) + UpdateWrites(chanBase + AFBC_CH_OFFSET, s, black)
  {
    ghost var log0 := engine.regs.log;
    var base := chanBase + AFBC_CH_OFFSET;
    var regs := engine.regs;

    var srcW := Pixels(Width(s.src));
    var srcH := Pixels(Height(s.src));

    var size := SizeWord(srcW, srcH);
    regs.RegWrite(FbdSize(base), size);

    var blk := BlkSizeWordAsWritten(srcW, srcH);
    regs.RegWrite(FbdBlkSize(base), blk);

    var srcCrop := PairWord(0, 0);
    regs.RegWrite(FbdSrcCrop(base), srcCrop);

    var layCrop := PairWord(Pixels(s.src.y1), Pixels(s.src.x1));
    regs.RegWrite(FbdLayCrop(base), layCrop);

    var white := DefaultWhite(s.format);
    var fmt := FmtWord(s.format);
    regs.RegWrite(FbdFmt(base), fmt);

    var dmaAddr := DmaAddress(s);
    var laddr, haddr := Lower32(dmaAddr), Upper32(dmaAddr);
    regs.RegWrite(FbdLaddr(base), laddr);
    regs.RegWrite(FbdHaddr(base), haddr);

    var ovlSize := SizeWord(srcW, srcH);
    regs.RegWrite(FbdOvlSize(base), ovlSize);

    var ovlCoor := PairWord(0, 0);
    regs.RegWrite(FbdOvlCoor(base), ovlCoor);

    var color0, color1 := DefaultColor0(white), DefaultColor1(white);
    regs.RegWrite(FbdOvlBgColor(base), black);
    regs.RegWrite(FbdDefaultColor0(base), color0);
    regs.RegWrite(FbdDefaultColor1(base), color1);

    var ctl := CtlWordAsWritten(s.alpha);
    regs.RegWrite(FbdCtl(base), ctl);

    ghost var r := FbdWords(size, blk, srcCrop, layCrop, fmt, laddr, haddr, ovlSize, ovlCoor, black, color0, color1, ctl);
    WordsOfPlane(s, black, r);
    ProgramIssued(log0, base, r);
  }

  /** The words computed step by step are the plane's words. */
  lemma WordsOfPlane(s: PlaneState, black: bv32, r: FbdWords)
    requires r.size == r.ovlSize == SizeWord(Pixels(Width(s.src)), Pixels(Height(s.src)))
    requires r.blkSize == BlkSizeWordAsWritten(Pixels(Width(s.src)), Pixels(Height(s.src)))
    requires r.srcCrop == r.ovlCoor == PairWord(0, 0)
    requires r.layCrop == PairWord(Pixels(s.src.y1), Pixels(s.src.x1))
    requires r.fmt == FmtWord(s.format)
    requires r.laddr == Lower32(DmaAddress(s))
    requires r.haddr == Upper32(DmaAddress(s))
    requires r.bgColor == black
    requires r.color0 == DefaultColor0(DefaultWhite(s.format))
    requires r.color1 == DefaultColor1(DefaultWhite(s.format))
    requires r.ctl == CtlWordAsWritten(s.alpha)
    ensures r == UpdateWords(s, black)
  {
    var u := UpdateWords(s, black);
    assert r.size == u.size && r.blkSize == u.blkSize && r.srcCrop == u.srcCrop;
    assert r.layCrop == u.layCrop && r.fmt == u.fmt && r.laddr == u.laddr && r.haddr == u.haddr;
    assert r.ovlSize == u.ovlSize && r.ovlCoor == u.ovlCoor && r.bgColor == u.bgColor;
    assert r.color0 == u.color0 && r.color1 == u.color1 && r.ctl == u.ctl;
  }

  /** Thirteen single writes in a row issue the whole program. */
  lemma ProgramIssued(log: seq<Access>, base: int, r: FbdWords)
    ensures log + [Write(FbdSize(base), r.size)] + [Write(FbdBlkSize(base), r.blkSize)]
      + [Write(FbdSrcCrop(base), r.srcCrop)] + [Write(FbdLayCrop(base), r.layCrop)]
      + [Write(FbdFmt(base), r.fmt)] + [Write(FbdLaddr(base), r.laddr)]
      + [Write(FbdHaddr(base), r.haddr)] + [Write(FbdOvlSize(base), r.ovlSize)]
      + [Write(FbdOvlCoor(base), r.ovlCoor)] + [Write(FbdOvlBgColor(base), r.bgColor)]
      + [Write(FbdDefaultColor0(base), r.color0)] + [Write(FbdDefaultColor1(base), r.color1)]
      + [Write(FbdCtl(base), r.ctl)] == log + Program(base, r)
  {
  }

  /** The decoder is switched on by the last write, after everything it
      reads has been set, and by no other. */
  lemma EnabledLast(base: int, r: FbdWords)
    ensures Program(base, r)[12] == Write(FbdCtl(base), r.ctl)
    ensures forall k :: 0 <= k < 12 ==> !Hits(Program(base, r)[k], FbdCtl(base))
  {
  }

  /** Every decoder register ends up with the value written to it. */
  lemma ProgramControl(base: int, r: FbdWords, cur: bv32)
    ensures Value(Program(base, r), FbdCtl(base), cur) == r.ctl
    ensures Value(Program(base, r), FbdFmt(base), cur) == r.fmt
  {
    ValueUnique(Program(base, r), 12, FbdCtl(base), cur);
    ValueUnique(Program(base, r), 4, FbdFmt(base), cur);
  }

  lemma ProgramSizes(base: int, r: FbdWords, cur: bv32)
    ensures Value(Program(base, r), FbdSize(base), cur) == r.size
    ensures Value(Program(base, r), FbdOvlSize(base), cur) == r.ovlSize
  {
    ValueUnique(Program(base, r), 0, FbdSize(base), cur);
    ValueUnique(Program(base, r), 7, FbdOvlSize(base), cur);
  }

  lemma ProgramBlocks(base: int, r: FbdWords, cur: bv32)
    ensures Value(Program(base, r), FbdBlkSize(base), cur) == r.blkSize
  {
    ValueUnique(Program(base, r), 1, FbdBlkSize(base), cur);
  }

  lemma ProgramAddress(base: int, r: FbdWords, cur: bv32)
    ensures Value(Program(base, r), FbdLaddr(base), cur) == r.laddr
    ensures Value(Program(base, r), FbdHaddr(base), cur) == r.haddr
  {
    ValueUnique(Program(base, r), 5, FbdLaddr(base), cur);
    ValueUnique(Program(base, r), 6, FbdHaddr(base), cur);
  }

  /** After an update the decoder is switched on with its clock ungated,
      per-pixel alpha alone is used exactly for an opaque plane, the global
      alpha is zero whatever the plane's alpha, and the format register
      holds the format's word. */
  lemma UpdateEnables(base: int, s: PlaneState, black: bv32, cur: bv32)
    ensures Value(UpdateWrites(base, s, black), FbdCtl(base), cur) & FBD_CTL_FBD_EN != 0
    ensures Value(UpdateWrites(base, s, black), FbdCtl(base), cur) & FBD_CTL_CLK_GATE != 0
    ensures (Value(UpdateWrites(base, s, black), FbdCtl(base), cur) >> 2) & 3 ==
      if s.alpha == DRM_BLEND_ALPHA_OPAQUE then 0 else 2
    ensures Value(UpdateWrites(base, s, black), FbdCtl(base), cur) >> 24 == 0
    ensures Value(UpdateWrites(base, s, black), FbdFmt(base), cur) == FmtWord(s.format)
  {
    var u := UpdateWords(s, black);
    ProgramControl(base, u, cur);
    assert u.ctl == CtlWordAsWritten(s.alpha);
    GlobalAlphaLost(s.alpha);
  }

  /** After an update the size and overlay registers hold the source size in
      pixels, and the block register the number of 16-pixel block columns
      alone: for any width up to 65536 its block-row half is zero. */
  lemma UpdateSizes(base: int, s: PlaneState, black: bv32, cur: bv32)
    ensures Value(UpdateWrites(base, s, black), FbdSize(base), cur)
      == SizeWord(Pixels(Width(s.src)), Pixels(Height(s.src)))
    ensures Value(UpdateWrites(base, s, black), FbdOvlSize(base), cur)
      == Value(UpdateWrites(base, s, black), FbdSize(base), cur)
    ensures Value(UpdateWrites(base, s, black), FbdBlkSize(base), cur) == BlocksOf16(Pixels(Width(s.src)))
    ensures Pixels(Width(s.src)) <= 0x1_0000 ==> Value(UpdateWrites(base, s, black), FbdBlkSize(base), cur) >> 16 == 0
  {
    ProgramSizes(base, UpdateWords(s, black), cur);
    ProgramBlocks(base, UpdateWords(s, black), cur);
    if Pixels(Width(s.src)) <= 0x1_0000 {
      BlocksCover(Pixels(Width(s.src)));
    }
  }

  /** With the corrected words the block register holds both block counts
      and the control register the plane's alpha scaled to 8 bits, while the
      decoder is still switched on by the last write. */
  lemma CorrectedUpdate(base: int, s: PlaneState, black: bv32, cur: bv32)
    requires Pixels(Width(s.src)) <= 0x1_0000 && Pixels(Height(s.src)) <= 0x1_0000
    ensures Value(Program(base, CorrectedWords(s, black)), FbdBlkSize(base), cur) >> 16 == BlocksOf16(Pixels(Height(s.src)))
    ensures Value(Program(base, CorrectedWords(s, black)), FbdBlkSize(base), cur) & 0xffff == BlocksOf16(Pixels(Width(s.src)))
    ensures Value(Program(base, CorrectedWords(s, black)), FbdCtl(base), cur) >> 24 == (s.alpha >> 8) as bv32
    ensures Value(Program(base, CorrectedWords(s, black)), FbdCtl(base), cur) & FBD_CTL_FBD_EN != 0
    ensures Value(Program(base, CorrectedWords(s, black)), FbdFmt(base), cur)
      == Value(UpdateWrites(base, s, black), FbdFmt(base), cur)
  {
    var c := CorrectedWords(s, black);
    ProgramBlocks(base, c, cur);
    ProgramControl(base, c, cur);
    ProgramControl(base, UpdateWords(s, black), cur);
    BlkSizeRoundTrip(Pixels(Width(s.src)), Pixels(Height(s.src)));
    CtlWordFields(s.alpha);
  }

  /** After an update the two address registers together hold the buffer
      address. */
  lemma UpdateAddress(base: int, s: PlaneState, black: bv32, cur: bv32)
    ensures ((Value(UpdateWrites(base, s, black), FbdHaddr(base), cur) as bv64) << 32)
      | (Value(UpdateWrites(base, s, black), FbdLaddr(base), cur) as bv64) == DmaAddress(s)
  {
    var u := UpdateWords(s, black);
    ProgramAddress(base, u, cur);
    assert u.laddr == Lower32(DmaAddress(s));
    assert u.haddr == Upper32(DmaAddress(s));
    AddressSplit(DmaAddress(s));
  }

  /** sun50i_afbc_disable */
  method Disable(engine: Engine, chanBase: int)
    modifies engine.regs
    ensures engine.regs.log == old(engine.regs.log) + [Write(FbdCtl(chanBase + AFBC_CH_OFFSET), 0)]
  {
    var base := chanBase + AFBC_CH_OFFSET;
    engine.regs.RegWrite(FbdCtl(base), 0);
  }

  /** Disabling clears the whole control register, the enable bit with it,
      whatever it held. */
  lemma DisableTurnsOff(log: seq<Access>, chanBase: int, cur: bv32)
    ensures Value(log + [Write(FbdCtl(chanBase + AFBC_CH_OFFSET), 0)], FbdCtl(chanBase + AFBC_CH_OFFSET), cur) & FBD_CTL_FBD_EN == 0
  {
    var last := [Write(FbdCtl(chanBase + AFBC_CH_OFFSET), 0)];
    ValueAppend(log, last, FbdCtl(chanBase + AFBC_CH_OFFSET), cur);
    assert last[1..] == [];
  }
}
