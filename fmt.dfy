/**
 * The output formatter of the DE3 mixer.
 *
 * After blending, the formatter converts the mixer's 4:4:4 output to the
 * bus format the encoder asked for (4:4:4, 4:2:2 or 4:2:0, 8 or 10 bits per
 * component) and clamps every component to the range that format allows.
 */
module Fmt {
  import opened Regmap
  import opened SunxiEngine

  /** Register addresses. */
  const FMT_CTRL: int := 0xa8000
  const FMT_SIZE: int := 0xa8004
  const FMT_SWAP: int := 0xa8008
  const FMT_DEPTH: int := 0xa800c
  const FMT_FORMAT: int := 0xa8010
  const FMT_COEF: int := 0xa8014
  const FMT_LMT_Y: int := 0xa8020
  const FMT_LMT_C0: int := 0xa8024
  const FMT_LMT_C1: int := 0xa8028

  /** Colour-space codes. */
  const FMT_CS_YUV444RGB: bv32 := 0
  const FMT_CS_YUV422: bv32 := 1
  const FMT_CS_YUV420: bv32 := 2

  /** SUN50I_FMT_LIMIT(low, high): the upper clamp in the high half, the
      lower clamp in the low half. */
  function Limit(low: bv32, high: bv32): bv32 {
    (high << 16) | low
  }

  /** Both halves of a limit come back out when each fits in 16 bits. */
  lemma LimitRoundTrip(low: bv32, high: bv32)
    requires low < 0x1_0000 && high < 0x1_0000
    ensures Limit(low, high) >> 16 == high
    ensures Limit(low, high) & 0xffff == low
  {
  }

  /** The nine registers are distinct and the three limit registers are
      consecutive words; the colour-space codes are distinct. */
  lemma FmtRegistersDistinct()
    ensures |{FMT_CTRL, FMT_SIZE, FMT_SWAP, FMT_DEPTH, FMT_FORMAT, FMT_COEF, FMT_LMT_Y, FMT_LMT_C0, FMT_LMT_C1}| == 9
    ensures FMT_LMT_C0 == FMT_LMT_Y + 4 && FMT_LMT_C1 == FMT_LMT_C0 + 4
    ensures |{FMT_CS_YUV444RGB, FMT_CS_YUV422, FMT_CS_YUV420}| == 3
  {
  }

  /** sun50i_fmt_is_10bit: the 10-bit RGB, YUV 4:4:4, 4:2:0 and 4:2:2
      formats, none of their 8-bit counterparts. */
  predicate IsTenBit(format: int)
    ensures IsTenBit(format) ==> format !in {MEDIA_BUS_FMT_RGB888_1X24, MEDIA_BUS_FMT_YUV8_1X24,
                                             MEDIA_BUS_FMT_UYYVYY8_0_5X24, MEDIA_BUS_FMT_UYVY8_1X16}
  {
    format in {MEDIA_BUS_FMT_RGB101010_1X30, MEDIA_BUS_FMT_YUV10_1X30,
               MEDIA_BUS_FMT_UYYVYY10_0_5X30, MEDIA_BUS_FMT_UYVY10_1X20}
  }

  /** sun50i_fmt_get_colorspace */
  function Colorspace(format: int): (cs: bv32)
    ensures cs == FMT_CS_YUV420 <==> format in {MEDIA_BUS_FMT_UYYVYY8_0_5X24, MEDIA_BUS_FMT_UYYVYY10_0_5X30}
    ensures cs == FMT_CS_YUV422 <==> format in {MEDIA_BUS_FMT_UYVY8_1X16, MEDIA_BUS_FMT_UYVY10_1X20}
    ensures cs == FMT_CS_YUV444RGB <==>
      format !in {MEDIA_BUS_FMT_UYYVYY8_0_5X24, MEDIA_BUS_FMT_UYYVYY10_0_5X30,
                  MEDIA_BUS_FMT_UYVY8_1X16, MEDIA_BUS_FMT_UYVY10_1X20}
  {
    if format == MEDIA_BUS_FMT_UYYVYY8_0_5X24 || format == MEDIA_BUS_FMT_UYYVYY10_0_5X30 then FMT_CS_YUV420
    else if format == MEDIA_BUS_FMT_UYVY8_1X16 || format == MEDIA_BUS_FMT_UYVY10_1X20 then FMT_CS_YUV422
    else FMT_CS_YUV444RGB
  }

  /** The clamp words of the luma and the two chroma channels, as
      sun50i_fmt_setup chooses them. */
  function Limits(format: int): (l: seq<bv32>)
    ensures |l| == 3
  {
    LimitsOf(Colorspace(format), IsTenBit(format))
  }

  /** The clamp words for a colour space and a depth. */
  function LimitsOf(colorspace: bv32, bit10: bool): (l: seq<bv32>)
    ensures |l| == 3
  {
    if colorspace != FMT_CS_YUV444RGB then [Limit(64, 940), Limit(64, 960), Limit(64, 960)]
    else if bit10 then [Limit(0, 1023), Limit(0, 1023), Limit(0, 1023)]
    else [Limit(0, 1021), Limit(0, 1021), Limit(0, 1021)]
  }

  /** The range each channel is meant to be clamped to: studio swing (64
      to 940 for luma, 64 to 960 for chroma) when the output is subsampled,
      the full 10-bit range for 10-bit 4:4:4, and 0 to 1021 otherwise. */
  function ClampLow(format: int): bv32 {
    if Colorspace(format) != FMT_CS_YUV444RGB then 64 else 0
  }

  function ClampHigh(format: int, channel: int): bv32 {
    if Colorspace(format) != FMT_CS_YUV444RGB then (if channel == 0 then 940 else 960)
    else if IsTenBit(format) then 1023
    else 1021
  }

  /** The registers sun50i_fmt_setup writes, in order, each given the
      value at the same position of `v`. */
  function Program(v: seq<bv32>): (p: seq<Access>)
    requires |v| == 10
    ensures |p| == 10
  {
    [ Write(FMT_CTRL, v[0]),
      Write(FMT_SIZE, v[1]),
      Write(FMT_SWAP, v[2]),
      Write(FMT_DEPTH, v[3]),
      Write(FMT_FORMAT, v[4]),
      Write(FMT_COEF, v[5]),
      Write(FMT_LMT_Y, v[6]),
      Write(FMT_LMT_C0, v[7]),
      Write(FMT_LMT_C1, v[8]),
      Write(FMT_CTRL, v[9]) ]
  }

  /** The values sun50i_fmt_setup writes; `size` is the mixer's
      SUN8I_MIXER_SIZE(width, height). */
  function FmtValues(size: bv32, format: int): (v: seq<bv32>)
    ensures |v| == 10
  {
    ValuesOf(size, Colorspace(format), IsTenBit(format))
  }

  /** The ten words for a colour space and a depth. */
  function ValuesOf(size: bv32, colorspace: bv32, bit10: bool): (v: seq<bv32>)
    ensures |v| == 10
  {
    var limits := LimitsOf(colorspace, bit10);
    [ 0, size, 0, if bit10 then 1 else 0, colorspace, 0, limits[0], limits[1], limits[2], 1 ]
  }

  /** The register writes of sun50i_fmt_setup, in order. */
  function FmtWrites(size: bv32, format: int): seq<Access> {
    Program(FmtValues(size, format))
  }

  /** sun50i_fmt_setup */
  method FmtSetup(engine: Engine, size: bv32, format: int)
    modifies engine.regs
    ensures engine.regs.log == old(engine.regs.log) + FmtWrites(size, format)
  {
    ghost var log0 := engine.regs.log;
    var colorspace := Colorspace(format);
    var bit10 := IsTenBit(format);
    // limit[] lives on the stack in the driver: a value, not a heap buffer
    var limit: seq<bv32> := [0, 0, 0];

    engine.regs.RegWrite(FMT_CTRL, 0);
    engine.regs.RegWrite(FMT_SIZE, size);
    engine.regs.RegWrite(FMT_SWAP, 0);
    engine.regs.RegWrite(FMT_DEPTH, if bit10 then 1 else 0);
    engine.regs.RegWrite(FMT_FORMAT, colorspace);
    engine.regs.RegWrite(FMT_COEF, 0);

    if colorspace != FMT_CS_YUV444RGB {
      limit := limit[0 := Limit(64, 940)];
      limit := limit[1 := Limit(64, 960)];
      limit := limit[2 := Limit(64, 960)];
    } else if bit10 {
      limit := limit[0 := Limit(0, 1023)];
      limit := limit[1 := Limit(0, 1023)];
      limit := limit[2 := Limit(0, 1023)];
    } else {
      limit := limit[0 := Limit(0, 1021)];
      limit := limit[1 := Limit(0, 1021)];
      limit := limit[2 := Limit(0, 1021)];
    }
    assert limit == LimitsOf(colorspace, bit10);

    engine.regs.RegWrite(FMT_LMT_Y, limit[0]);
    engine.regs.RegWrite(FMT_LMT_C0, limit[1]);
    engine.regs.RegWrite(FMT_LMT_C1, limit[2]);

    engine.regs.RegWrite(FMT_CTRL, 1);
    ProgramIssued(log0, 0, size, 0, if bit10 then 1 else 0, colorspace, 0, limit[0], limit[1], limit[2], 1);
    ValuesOfWords(size, colorspace, bit10, limit[0], limit[1], limit[2]);
  }

  /** The ten words FmtSetup writes, given clamp words of the colour space
      and depth, are those of ValuesOf. */
  lemma ValuesOfWords(size: bv32, colorspace: bv32, bit10: bool, lmtY: bv32, lmtC0: bv32, lmtC1: bv32)
    requires [lmtY, lmtC0, lmtC1] == LimitsOf(colorspace, bit10)
    ensures [0, size, 0, if bit10 then 1 else 0, colorspace, 0, lmtY, lmtC0, lmtC1, 1] == ValuesOf(size, colorspace, bit10)
  {
  }

  /** Ten single writes in a row issue the whole program. */
  lemma ProgramIssued(log: seq<Access>, ctrl0: bv32, size: bv32, swap: bv32, depth: bv32, format: bv32,
                      coef: bv32, lmtY: bv32, lmtC0: bv32, lmtC1: bv32, ctrl1: bv32)
    ensures log + [Write(FMT_CTRL, ctrl0)] + [Write(FMT_SIZE, size)] + [Write(FMT_SWAP, swap)]
      + [Write(FMT_DEPTH, depth)] + [Write(FMT_FORMAT, format)] + [Write(FMT_COEF, coef)]
      + [Write(FMT_LMT_Y, lmtY)] + [Write(FMT_LMT_C0, lmtC0)] + [Write(FMT_LMT_C1, lmtC1)]
      + [Write(FMT_CTRL, ctrl1)] == log + Program([ctrl0, size, swap, depth, format, coef, lmtY, lmtC0, lmtC1, ctrl1])
  {
  }

  /** The unit is switched off by the first write and on by the last, and
      no write in between touches the control register: it is never
      running while it is being reprogrammed. */
  lemma FmtDisabledWhileProgrammed(size: bv32, format: int)
    ensures FmtWrites(size, format)[0] == Write(FMT_CTRL, 0)
    ensures FmtWrites(size, format)[|FmtWrites(size, format)| - 1] == Write(FMT_CTRL, 1)
    ensures forall k :: 0 < k < |FmtWrites(size, format)| - 1 ==> !Hits(FmtWrites(size, format)[k], FMT_CTRL)
  {
  }

  /** Every register of the formatter ends up with the value written to
      it; the control register with the second of its two values. */
  lemma ProgramControl(v: seq<bv32>, cur: bv32)
    requires |v| == 10
    ensures Value(Program(v), FMT_CTRL, cur) == v[9]
    ensures Value(Program(v), FMT_SIZE, cur) == v[1]
    ensures Value(Program(v), FMT_SWAP, cur) == v[2]
    ensures Value(Program(v), FMT_DEPTH, cur) == v[3]
  {
    var w := Program(v);
    var head, last := w[..9], [w[9]];
    assert w == head + last;
    assert last[1..] == [];
    ValueAppend(head, last, FMT_CTRL, cur);
    ValueUnique(w, 1, FMT_SIZE, cur);
    ValueUnique(w, 2, FMT_SWAP, cur);
    ValueUnique(w, 3, FMT_DEPTH, cur);
  }

  lemma ProgramData(v: seq<bv32>, cur: bv32)
    requires |v| == 10
    ensures Value(Program(v), FMT_FORMAT, cur) == v[4]
    ensures Value(Program(v), FMT_COEF, cur) == v[5]
  {
    var w := Program(v);
    ValueUnique(w, 4, FMT_FORMAT, cur);
    ValueUnique(w, 5, FMT_COEF, cur);
  }

  /** The three clamp registers hold the seventh to ninth words. */
  lemma ProgramLimits(v: seq<bv32>, cur: bv32)
    requires |v| == 10
    ensures Value(Program(v), FMT_LMT_Y, cur) == v[6]
    ensures Value(Program(v), FMT_LMT_C0, cur) == v[7]
    ensures Value(Program(v), FMT_LMT_C1, cur) == v[8]
  {
    var w := Program(v);
    ValueUnique(w, 6, FMT_LMT_Y, cur);
    ValueUnique(w, 7, FMT_LMT_C0, cur);
    ValueUnique(w, 8, FMT_LMT_C1, cur);
  }

  /** What each register holds once sun50i_fmt_setup is done: the unit is
      on, DEPTH is 1 exactly for 10-bit formats, SWAP and COEF are 0, and
      each channel is clamped to its range. */
  lemma FmtRegisters(size: bv32, format: int, cur: bv32)
    ensures Value(FmtWrites(size, format), FMT_CTRL, cur) == 1
    ensures Value(FmtWrites(size, format), FMT_SIZE, cur) == size
    ensures Value(FmtWrites(size, format), FMT_SWAP, cur) == 0
    ensures Value(FmtWrites(size, format), FMT_DEPTH, cur) == 1 <==> IsTenBit(format)
    ensures Value(FmtWrites(size, format), FMT_FORMAT, cur) == Colorspace(format)
    ensures Value(FmtWrites(size, format), FMT_COEF, cur) == 0
    ensures Value(FmtWrites(size, format), FMT_LMT_Y, cur) == Limits(format)[0]
    ensures Value(FmtWrites(size, format), FMT_LMT_C0, cur) == Limits(format)[1]
    ensures Value(FmtWrites(size, format), FMT_LMT_C1, cur) == Limits(format)[2]
  {
    ProgramControl(FmtValues(size, format), cur);
    ProgramData(FmtValues(size, format), cur);
    ProgramLimits(FmtValues(size, format), cur);
  }

  /** Each clamp word holds its channel's range: the upper bound in the
      high half and the lower bound in the low half, both recoverable, with
      the lower bound below the upper one. */
  lemma FmtClamps(format: int, channel: int)
    requires 0 <= channel < 3
    ensures Limits(format)[channel] >> 16 == ClampHigh(format, channel)
    ensures Limits(format)[channel] & 0xffff == ClampLow(format)
    ensures ClampLow(format) < ClampHigh(format, channel)
  {
    LimitRoundTrip(ClampLow(format), ClampHigh(format, channel));
  }
}
