/**
 * State shared by the display-engine pieces: the colour encodings and
 * ranges of DRM, the media bus formats the engine can output, and the
 * engine record that the HDMI encoder updates and the colour-space
 * converters read.
 */
module SunxiEngine {
  import opened Regmap

  /** enum drm_color_encoding */
  datatype Encoding = BT601 | BT709 | BT2020

  /** enum drm_color_range */
  datatype ColorRange = LimitedRange | FullRange

  /** Media bus format codes (include/uapi/linux/media-bus-format.h). */
  const MEDIA_BUS_FMT_RGB888_1X24: int := 0x100a
  const MEDIA_BUS_FMT_RGB101010_1X30: int := 0x1018
  const MEDIA_BUS_FMT_UYVY8_1X16: int := 0x200f
  const MEDIA_BUS_FMT_YUV10_1X30: int := 0x2016
  const MEDIA_BUS_FMT_UYVY10_1X20: int := 0x201a
  const MEDIA_BUS_FMT_YUV8_1X24: int := 0x2025
  const MEDIA_BUS_FMT_UYYVYY8_0_5X24: int := 0x2026
  const MEDIA_BUS_FMT_UYYVYY10_0_5X30: int := 0x2027

  /** struct sunxi_engine: the output bus format and YCbCr encoding chosen
      for the current mode, and the engine's register map. */
  class Engine {
    var format: int
    var encoding: Encoding
    const regs: RegMap

    constructor (regs: RegMap)
      ensures this.regs == regs
      ensures format == 0 && encoding == BT601
    {
      this.regs := regs;
      format := 0;
      encoding := BT601;
    }
  }
}
