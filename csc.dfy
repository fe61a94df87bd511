/**
 * Colour-space conversion (CSC) units of the Allwinner display engine.
 *
 * A plane whose pixels are YUV or YVU is converted to the mixer's colour
 * space by a 3x4 matrix of coefficients. The non-DE3 mixers have one CSC
 * unit per video channel; DE3 mixers convert in the blender, where a per
 * layer enable bit in a shared control register switches the conversion on.
 * The coefficient tables are the driver's precomputed fixed-point values;
 * only their shape (twelve words) and the identity entries matter below.
 */
module Csc {
  import opened Wrappers
  import opened Regmap
  import opened SunxiEngine

  /** VI channel CSC unit offsets. */
  const CCSC00_OFFSET: int := 0xAA050
  const CCSC01_OFFSET: int := 0xFA050
  const CCSC01_D1_OFFSET: int := 0xFA000
  const CCSC10_OFFSET: int := 0xA0000
  const CCSC11_OFFSET: int := 0xF0000

  /** SUN8I_CSC_CTRL(base) */
  function CscCtrl(base: int): int {
    base
  }

  /** SUN8I_CSC_COEFF(base, i) */
  function CscCoeff(base: int, i: int): int {
    base + 0x10 + 4 * i
  }

  const CSC_CTRL_EN: bv32 := 1

  /** enum format_type; any other value reaches the driver's default case. */
  const FORMAT_TYPE_RGB: int := 0
  const FORMAT_TYPE_YUV: int := 1
  const FORMAT_TYPE_YVU: int := 2

  /** The CSC unit layouts of the mixers (an enum of sun8i_mixer.h). */
  datatype CcscLayout = Mixer0Layout | Mixer1Layout | D1Mixer0Layout

  /** ccsc_base[layout][layer]: two video channels per mixer. */
  function CcscBase(layout: CcscLayout, layer: int): int
    requires 0 <= layer < 2
  {
    match layout
    case Mixer0Layout => if layer == 0 then CCSC00_OFFSET else CCSC01_OFFSET
    case Mixer1Layout => if layer == 0 then CCSC10_OFFSET else CCSC11_OFFSET
    case D1Mixer0Layout => if layer == 0 then CCSC00_OFFSET else CCSC01_D1_OFFSET
  }

  /** The five unit offsets are pairwise distinct, so the layers of one
      layout never share a unit. */
  lemma CcscOffsetsDistinct(layout: CcscLayout)
    ensures CcscBase(layout, 0) != CcscBase(layout, 1)
    ensures |{CCSC00_OFFSET, CCSC01_OFFSET, CCSC01_D1_OFFSET, CCSC10_OFFSET, CCSC11_OFFSET}| == 5
  {
  }

  /** The coefficient registers of one unit are distinct and none of them
      is its control register. */
  lemma CscAddressesDistinct(base: int, i: int, j: int)
    requires 0 <= i && 0 <= j
    ensures CscCoeff(base, i) == CscCoeff(base, j) <==> i == j
    ensures CscCoeff(base, i) != CscCtrl(base)
  {
  }

  /** The value of enum drm_color_range, the first index of the tables. */
  function RangeIndex(r: ColorRange): (i: int)
    ensures 0 <= i < 2
  {
    match r
    case LimitedRange => 0
    case FullRange => 1
  }

  /** The value of enum drm_color_encoding. */
  function EncodingIndex(e: Encoding): (i: int)
    ensures 0 <= i < 3
  {
    match e
    case BT601 => 0
    case BT709 => 1
    case BT2020 => 2
  }

  /** yuv2rgb[range][encoding]: BT601 and BT709 only. */
  const YUV2RGB: seq<seq<seq<bv32>>> := [
    [
      [
        0x000004A8, 0x00000000, 0x00000662, 0xFFFC8451,
        0x000004A8, 0xFFFFFE6F, 0xFFFFFCC0, 0x00021E4D,
        0x000004A8, 0x00000811, 0x00000000, 0xFFFBACA9
      ],
      [
        0x000004A8, 0x00000000, 0x0000072B, 0xFFFC1F99,
        0x000004A8, 0xFFFFFF26, 0xFFFFFDDF, 0x00013383,
        0x000004A8, 0x00000873, 0x00000000, 0xFFFB7BEF
      ]
    ],
    [
      [
        0x00000400, 0x00000000, 0x0000059B, 0xFFFD322E,
        0x00000400, 0xFFFFFEA0, 0xFFFFFD25, 0x00021DD5,
        0x00000400, 0x00000716, 0x00000000, 0xFFFC74BD
      ],
      [
        0x00000400, 0x00000000, 0x0000064C, 0xFFFCD9B4,
        0x00000400, 0xFFFFFF41, 0xFFFFFE21, 0x00014F96,
        0x00000400, 0x0000076C, 0x00000000, 0xFFFC49EF
      ]
    ]
  ]

  /** yuv2rgb_de3[range][encoding] */
  const YUV2RGB_DE3: seq<seq<seq<bv32>>> := [
    [
      [
        0x0002542A, 0x00000000, 0x0003312A, 0xFFC00000,
        0x0002542A, 0xFFFF376B, 0xFFFE5FC3, 0xFE000000,
        0x0002542A, 0x000408D2, 0x00000000, 0xFE000000
      ],
      [
        0x0002542A, 0x00000000, 0x000395E2, 0xFFC00000,
        0x0002542A, 0xFFFF92D2, 0xFFFEEF27, 0xFE000000,
        0x0002542A, 0x0004398C, 0x00000000, 0xFE000000
      ],
      [
        0x0002542A, 0x00000000, 0x00035B7B, 0xFFC00000,
        0x0002542A, 0xFFFFA017, 0xFFFEB2FC, 0xFE000000,
        0x0002542A, 0x00044896, 0x00000000, 0xFE000000
      ]
    ],
    [
      [
        0x00020000, 0x00000000, 0x0002CDD2, 0x00000000,
        0x00020000, 0xFFFF4FCE, 0xFFFE925D, 0xFE000000,
        0x00020000, 0x00038B43, 0x00000000, 0xFE000000
      ],
      [
        0x00020000, 0x00000000, 0x0003264C, 0x00000000,
        0x00020000, 0xFFFFA018, 0xFFFF1053, 0xFE000000,
        0x00020000, 0x0003B611, 0x00000000, 0xFE000000
      ],
      [
        0x00020000, 0x00000000, 0x0002F2FE, 0x00000000,
        0x00020000, 0xFFFFABC0, 0xFFFEDB78, 0xFE000000,
        0x00020000, 0x0003C346, 0x00000000, 0xFE000000
      ]
    ]
  ]

  /** rgb2yuv_de3[encoding]: always to limited range. */
  const RGB2YUV_DE3: seq<seq<bv32>> := [
    [
      0x0000837A, 0x0001021D, 0x00003221, 0x00000040,
      0xFFFFB41C, 0xFFFF6B03, 0x0000E0E1, 0x00000200,
      0x0000E0E1, 0xFFFF43B1, 0xFFFFDB6E, 0x00000200
    ],
    [
      0x00005D7C, 0x00013A7C, 0x00001FBF, 0x00000040,
      0xFFFFCC78, 0xFFFF52A7, 0x0000E0E1, 0x00000200,
      0x0000E0E1, 0xFFFF33BE, 0xFFFFEB61, 0x00000200
    ],
    [
      0x00007384, 0x00012A21, 0x00001A13, 0x00000040,
      0xFFFFC133, 0xFFFF5DEC, 0x0000E0E1, 0x00000200,
      0x0000E0E1, 0xFFFF3135, 0xFFFFEDEA, 0x00000200
    ]
  ]

  /** yuv2yuv_de3[range][in encoding][out encoding]: always to limited range. */
  const YUV2YUV_DE3: seq<seq<seq<seq<bv32>>>> := [
    [
      [
        [
          0x00020000, 0x00000000, 0x00000000, 0x00000000,
          0x00000000, 0x00020000, 0x00000000, 0x00000000,
          0x00000000, 0x00000000, 0x00020000, 0x00000000
        ],
        [
          0x00020000, 0xFFFFC4D7, 0xFFFF9589, 0xFFC00040,
          0x00000000, 0x0002098B, 0x00003AAF, 0xFE000200,
          0x00000000, 0x0000266D, 0x00020CF8, 0xFE000200
        ],
        [
          0x00020000, 0xFFFFBFCE, 0xFFFFC5FF, 0xFFC00040,
          0x00000000, 0x00020521, 0x00001F89, 0xFE000200,
          0x00000000, 0x00002C87, 0x00020F07, 0xFE000200
        ]
      ],
      [
        [
          0x00020000, 0x000032D9, 0x00006226, 0xFFC00040,
          0x00000000, 0x0001FACE, 0xFFFFC759, 0xFE000200,
          0x00000000, 0xFFFFDAE7, 0x0001F780, 0xFE000200
        ],
        [
          0x00020000, 0x00000000, 0x00000000, 0x00000000,
          0x00000000, 0x00020000, 0x00000000, 0x00000000,
          0x00000000, 0x00000000, 0x00020000, 0x00000000
        ],
        [
          0x00020000, 0xFFFFF782, 0x00003036, 0xFFC00040,
          0x00000000, 0x0001FD99, 0xFFFFE5CA, 0xFE000200,
          0x00000000, 0x000005E4, 0x0002015A, 0xFE000200
        ]
      ],
      [
        [
          0x00020000, 0x00003B03, 0x000034D2, 0xFFC00040,
          0x00000000, 0x0001FD8C, 0xFFFFE183, 0xFE000200,
          0x00000000, 0xFFFFD4F3, 0x0001F3FA, 0xFE000200
        ],
        [
          0x00020000, 0x00000916, 0xFFFFD061, 0xFFC00040,
          0x00000000, 0x0002021C, 0x00001A40, 0xFE000200,
          0x00000000, 0xFFFFFA19, 0x0001FE5A, 0xFE000200
        ],
        [
          0x00020000, 0x00000000, 0x00000000, 0x00000000,
          0x00000000, 0x00020000, 0x00000000, 0x00000000,
          0x00000000, 0x00000000, 0x00020000, 0x00000000
        ]
      ]
    ],
    [
      [
        [
          0x0001B7B8, 0x00000000, 0x00000000, 0x00000040,
          0x00000000, 0x0001C1C2, 0x00000000, 0xFE000200,
          0x00000000, 0x00000000, 0x0001C1C2, 0xFE000200
        ],
        [
          0x0001B7B8, 0xFFFFCC08, 0xFFFFA27B, 0x00000040,
          0x00000000, 0x0001CA24, 0x0000338D, 0xFE000200,
          0x00000000, 0x000021C1, 0x0001CD26, 0xFE000200
        ],
        [
          0x0001B7B8, 0xFFFFC79C, 0xFFFFCD0C, 0x00000040,
          0x00000000, 0x0001C643, 0x00001BB4, 0xFE000200,
          0x00000000, 0x0000271D, 0x0001CEF5, 0xFE000200
        ]
      ],
      [
        [
          0x0001B7B8, 0x00002CAB, 0x00005638, 0x00000040,
          0x00000000, 0x0001BD32, 0xFFFFCE3C, 0xFE000200,
          0x00000000, 0xFFFFDF6A, 0x0001BA4A, 0xFE000200
        ],
        [
          0x0001B7B8, 0x00000000, 0x00000000, 0x00000040,
          0x00000000, 0x0001C1C2, 0x00000000, 0xFE000200,
          0x00000000, 0x00000000, 0x0001C1C2, 0xFE000200
        ],
        [
          0x0001B7B8, 0xFFFFF88A, 0x00002A5A, 0x00000040,
          0x00000000, 0x0001BFA5, 0xFFFFE8FA, 0xFE000200,
          0x00000000, 0x0000052D, 0x0001C2F1, 0xFE000200
        ]
      ],
      [
        [
          0x0001B7B8, 0x000033D6, 0x00002E66, 0x00000040,
          0x00000000, 0x0001BF9A, 0xFFFFE538, 0xFE000200,
          0x00000000, 0xFFFFDA2F, 0x0001B732, 0xFE000200
        ],
        [
          0x0001B7B8, 0x000007FB, 0xFFFFD62B, 0x00000040,
          0x00000000, 0x0001C39D, 0x0000170F, 0xFE000200,
          0x00000000, 0xFFFFFAD1, 0x0001C04F, 0xFE000200
        ],
        [
          0x0001B7B8, 0x00000000, 0x00000000, 0x00000040,
          0x00000000, 0x0001C1C2, 0x00000000, 0xFE000200,
          0x00000000, 0x00000000, 0x0001C1C2, 0xFE000200
        ]
      ]
    ]
  ]

  function Yuv2Rgb(range: ColorRange, enc: Encoding): (t: seq<bv32>)
    requires enc != BT2020
    ensures |t| == 12
  {
    YUV2RGB[RangeIndex(range)][EncodingIndex(enc)]
  }

  function Yuv2RgbDe3(range: ColorRange, enc: Encoding): (t: seq<bv32>)
    ensures |t| == 12
  {
    YUV2RGB_DE3[RangeIndex(range)][EncodingIndex(enc)]
  }

  function Rgb2YuvDe3(enc: Encoding): (t: seq<bv32>)
    ensures |t| == 12
  {
    RGB2YUV_DE3[EncodingIndex(enc)]
  }

  function Yuv2YuvDe3(range: ColorRange, inEnc: Encoding, outEnc: Encoding): (t: seq<bv32>)
    ensures |t| == 12
  {
    YUV2YUV_DE3[RangeIndex(range)][EncodingIndex(inEnc)][EncodingIndex(outEnc)]
  }

  /** The YVU writes send table word `i` to coefficient slot YvuSlot(i):
      the second and third columns of each row change places. */
  function YvuSlot(i: int): int {
    if i % 4 == 1 then i + 1 else if i % 4 == 2 then i - 1 else i
  }

  /** The column swap is a permutation of the twelve slots that undoes
      itself. */
  lemma YvuSlotInvolution(i: int)
    requires 0 <= i < 12
    ensures 0 <= YvuSlot(i) < 12
    ensures YvuSlot(YvuSlot(i)) == i
    ensures YvuSlot(i) % 4 == 0 || YvuSlot(i) % 4 == 3 <==> YvuSlot(i) == i
  {
  }

  /** The table as the slots hold it after the YVU writes. */
  function Swapped(table: seq<bv32>): (t: seq<bv32>)
    requires |table| == 12
    ensures |t| == 12
  {
    seq(12, j requires 0 <= j < 12 => table[YvuSlot(j)])
  }

  /** The writes of the YVU loop, starting at coefficient register `first`. */
  function YvuWrites(first: int, table: seq<bv32>): (w: seq<Access>)
    requires |table| == 12
    ensures |w| == 12
  {
    seq(12, i requires 0 <= i < 12 => Write(first + 4 * YvuSlot(i), table[i]))
  }

  /** After the YVU loop every coefficient register holds the swapped table. */
  lemma YvuStores(first: int, table: seq<bv32>, j: int, cur: bv32)
    requires |table| == 12 && 0 <= j < 12
    ensures Value(YvuWrites(first, table), first + 4 * j, cur) == Swapped(table)[j]
  {
    var w := YvuWrites(first, table);
    var k := YvuSlot(j);
    YvuSlotInvolution(j);
    YvuSlotInvolution(k);
    forall m | 0 <= m < 12 && m != k
      ensures !Hits(w[m], first + 4 * j)
    {
      YvuSlotInvolution(m);
    }
    ValueUnique(w, k, first + 4 * j, cur);
  }

  /** A bulk write of the table stores word `j` in coefficient register `j`. */
  lemma BulkStores(first: int, table: seq<bv32>, j: int, cur: bv32)
    requires |table| == 12 && 0 <= j < 12
    ensures Value([BulkWrite(first, table)], first + 4 * j, cur) == table[j]
  {
    var w := [BulkWrite(first, table)];
    assert w[1..] == [];
    assert (first + 4 * j - first) / 4 == j;
  }

  /** A log of coefficient writes that stay within the twelve registers
      from `first` on leaves every other register alone. */
  lemma CoefficientsOnly(first: int, table: seq<bv32>, addr: int, cur: bv32)
    requires |table| == 12
    requires addr < first || first + 48 <= addr
    ensures Value([BulkWrite(first, table)], addr, cur) == cur
    ensures Value(YvuWrites(first, table), addr, cur) == cur
  {
    var w := [BulkWrite(first, table)];
    assert w[1..] == [];
    forall m | 0 <= m < 12
      ensures !Hits(YvuWrites(first, table)[m], addr)
    {
      YvuSlotInvolution(m);
    }
    ValueUntouched(YvuWrites(first, table), addr, cur);
  }

  /** The YVU loop of sun8i_csc_setup and sun8i_de3_ccsc_setup. */
  method WriteSwapped(regs: RegMap, first: int, table: seq<bv32>)
    requires |table| == 12
    modifies regs
    ensures regs.log == old(regs.log) + YvuWrites(first, table)
  {
    var i := 0;
    while i < 12
      invariant 0 <= i <= 12
      invariant regs.log == old(regs.log) + YvuWrites(first, table)[..i]
    {
      var addr;
      if i % 4 == 1 {
        addr := first + 4 * (i + 1);
      } else if i % 4 == 2 {
        addr := first + 4 * (i - 1);
      } else {
        addr := first + 4 * i;
      }
      regs.RegWrite(addr, table[i]);
      assert YvuWrites(first, table)[..i + 1] == YvuWrites(first, table)[..i] + [Write(addr, table[i])];
      i := i + 1;
    }
    assert YvuWrites(first, table)[..12] == YvuWrites(first, table);
  }

  /** What sun8i_csc_setup issues. */
  function CscSetupWrites(base: int, fmt: int, enc: Encoding, range: ColorRange): seq<Access>
    requires enc != BT2020
  {
    if fmt == FORMAT_TYPE_RGB then [Write(CscCtrl(base), 0)]
    else YuvSetupWrites(base, fmt, Yuv2Rgb(range, enc))
  }

  /** The YUV and YVU branches of sun8i_csc_setup for a given table. */
  function YuvSetupWrites(base: int, fmt: int, table: seq<bv32>): seq<Access>
    requires |table| == 12
  {
    if fmt == FORMAT_TYPE_YUV then [BulkWrite(CscCoeff(base, 0), table), Write(CscCtrl(base), CSC_CTRL_EN)]
    else if fmt == FORMAT_TYPE_YVU then YvuWrites(CscCoeff(base, 0), table) + [Write(CscCtrl(base), CSC_CTRL_EN)]
    else []
  }

  /** sun8i_csc_setup. The yuv2rgb table is indexed before the format is
      looked at, so even an RGB plane needs a BT601 or BT709 encoding. */
  method CscSetup(regs: RegMap, base: int, fmt: int, enc: Encoding, range: ColorRange)
    requires enc != BT2020
    modifies regs
    ensures regs.log == old(regs.log) + CscSetupWrites(base, fmt, enc, range)
  {
    var table := Yuv2Rgb(range, enc);
    var val: bv32;
    if fmt == FORMAT_TYPE_RGB {
      val := 0;
    } else if fmt == FORMAT_TYPE_YUV {
      val := CSC_CTRL_EN;
      regs.RegBulkWrite(CscCoeff(base, 0), table);
    } else if fmt == FORMAT_TYPE_YVU {
      val := CSC_CTRL_EN;
      WriteSwapped(regs, CscCoeff(base, 0), table);
    } else {
      return;
    }
    regs.RegWrite(CscCtrl(base), val);
  }

  /** RGB only clears the control register; an unknown format type writes
      nothing; YUV and YVU end by setting the enable bit. */
  lemma CscSetupControl(base: int, fmt: int, enc: Encoding, range: ColorRange, cur: bv32)
    requires enc != BT2020
    ensures fmt == FORMAT_TYPE_RGB ==> CscSetupWrites(base, fmt, enc, range) == [Write(CscCtrl(base), 0)]
    ensures fmt !in {FORMAT_TYPE_RGB, FORMAT_TYPE_YUV, FORMAT_TYPE_YVU} ==> CscSetupWrites(base, fmt, enc, range) == []
    ensures fmt in {FORMAT_TYPE_YUV, FORMAT_TYPE_YVU} ==>
      Value(CscSetupWrites(base, fmt, enc, range), CscCtrl(base), cur) == CSC_CTRL_EN
  {
    if fmt in {FORMAT_TYPE_YUV, FORMAT_TYPE_YVU} {
      var table := Yuv2Rgb(range, enc);
      var first := CscCoeff(base, 0);
      var coeffs: seq<Access> := if fmt == FORMAT_TYPE_YUV then [BulkWrite(first, table)] else YvuWrites(first, table);
      var ctrl: seq<Access> := [Write(CscCtrl(base), CSC_CTRL_EN)];
      assert CscSetupWrites(base, fmt, enc, range) == coeffs + ctrl;
      ValueAppend(coeffs, ctrl, CscCtrl(base), cur);
      CoefficientsOnly(first, table, CscCtrl(base), cur);
      assert ctrl[1..] == [];
    }
  }

  /** YUV and YVU fill all twelve coefficient registers: YUV with the table
      as it is, YVU with its second and third columns swapped. */
  lemma CscSetupCoefficients(base: int, fmt: int, enc: Encoding, range: ColorRange, j: int, cur: bv32)
    requires enc != BT2020 && 0 <= j < 12
    requires fmt == FORMAT_TYPE_YUV || fmt == FORMAT_TYPE_YVU
    ensures Value(CscSetupWrites(base, fmt, enc, range), CscCoeff(base, j), cur) ==
      if fmt == FORMAT_TYPE_YUV then Yuv2Rgb(range, enc)[j] else Swapped(Yuv2Rgb(range, enc))[j]
  {
    YuvSetupStores(base, fmt, Yuv2Rgb(range, enc), j, cur);
  }

  /** The coefficient registers after either branch, for any table. */
  lemma YuvSetupStores(base: int, fmt: int, table: seq<bv32>, j: int, cur: bv32)
    requires |table| == 12 && 0 <= j < 12
    requires fmt == FORMAT_TYPE_YUV || fmt == FORMAT_TYPE_YVU
    ensures Value(YuvSetupWrites(base, fmt, table), CscCoeff(base, j), cur) ==
      if fmt == FORMAT_TYPE_YUV then table[j] else Swapped(table)[j]
  {
    var first := CscCoeff(base, 0);
    assert CscCoeff(base, j) == first + 4 * j;
    if fmt == FORMAT_TYPE_YUV {
      var coeffs: seq<Access> := [BulkWrite(first, table)];
      assert YuvSetupWrites(base, fmt, table) == coeffs + [Write(CscCtrl(base), CSC_CTRL_EN)];
      ThenEnable(coeffs, base, j, cur);
      BulkStores(first, table, j, cur);
    } else {
      var coeffs := YvuWrites(first, table);
      ThenEnable(coeffs, base, j, cur);
      YvuStores(first, table, j, cur);
    }
  }

  /** Enabling the converter after the coefficients leaves them as written. */
  lemma ThenEnable(coeffs: seq<Access>, base: int, j: int, cur: bv32)
    requires 0 <= j < 12
    ensures Value(coeffs + [Write(CscCtrl(base), CSC_CTRL_EN)], CscCoeff(base, j), cur) ==
      Value(coeffs, CscCoeff(base, j), cur)
  {
    var ctrl: seq<Access> := [Write(CscCtrl(base), CSC_CTRL_EN)];
    ValueAppend(coeffs, ctrl, CscCoeff(base, j), cur);
    assert ctrl[1..] == [];
  }

  /** The blender CSC registers of one DE3 layer: the shared control
      register, the layer's first coefficient register and the layer's
      enable bit in the control register (macros of sun8i_mixer.h). */
  datatype BlendCsc = BlendCsc(ctl: int, coeff: int, enable: bv32)

  /** sun8i_csc_get_de3_yuv_table; None stands for NULL, the identity. */
  function De3YuvTable(inEnc: Encoding, inRange: ColorRange, outFormat: int, outEnc: Encoding): (t: Option<seq<bv32>>)
    ensures t.Some? ==> |t.value| == 12
  {
    if outFormat == MEDIA_BUS_FMT_RGB888_1X24 then Some(Yuv2RgbDe3(inRange, inEnc))
    else if inRange == LimitedRange && outEnc == inEnc then None
    else Some(Yuv2YuvDe3(inRange, inEnc, outEnc))
  }

  /** A matrix that leaves every component as it is: 1.0 (0x20000 with 17
      fraction bits) on the diagonal, zero elsewhere and no offsets. */
  predicate IsIdentity(t: seq<bv32>)
    requires |t| == 12
  {
    forall k :: 0 <= k < 12 ==> t[k] == if k == 0 || k == 5 || k == 10 then 0x20000 else 0
  }

  /** Skipping the conversion is right: the table sun8i_csc_get_de3_yuv_table
      declines to return is the identity. */
  lemma NullTableIsIdentity(inEnc: Encoding, inRange: ColorRange, outFormat: int, outEnc: Encoding)
    requires De3YuvTable(inEnc, inRange, outFormat, outEnc).None?
    ensures IsIdentity(Yuv2YuvDe3(inRange, inEnc, outEnc))
  {
    var t := Yuv2YuvDe3(inRange, inEnc, outEnc);
    assert inRange == LimitedRange && outEnc == inEnc;
    match inEnc
    case BT601 => assert t == Yuv2YuvDe3(LimitedRange, BT601, BT601);
    case BT709 => assert t == Yuv2YuvDe3(LimitedRange, BT709, BT709);
    case BT2020 => assert t == Yuv2YuvDe3(LimitedRange, BT2020, BT2020);
  }

  /** The shortcut is tied to limited range: a full-range input with the
      same encoding still needs its range compressed. */
  lemma FullRangeIsNotIdentity(enc: Encoding)
    ensures !IsIdentity(Yuv2YuvDe3(FullRange, enc, enc))
  {
    assert Yuv2YuvDe3(FullRange, enc, enc)[0] == 0x0001B7B8;
  }

  /** An RGB888 output always takes the YUV-to-RGB table, whatever
      encoding the output has; otherwise NULL comes back exactly for a
      limited-range input already in the output's encoding. */
  lemma De3YuvTableChoice(inEnc: Encoding, inRange: ColorRange, outFormat: int, outEnc: Encoding, otherEnc: Encoding)
    ensures outFormat == MEDIA_BUS_FMT_RGB888_1X24 ==>
      De3YuvTable(inEnc, inRange, outFormat, outEnc) == De3YuvTable(inEnc, inRange, outFormat, otherEnc) == Some(Yuv2RgbDe3(inRange, inEnc))
    ensures outFormat != MEDIA_BUS_FMT_RGB888_1X24 ==>
      (De3YuvTable(inEnc, inRange, outFormat, outEnc).None? <==> inRange == LimitedRange && outEnc == inEnc)
  {
  }

  /** Whether sun8i_de3_ccsc_setup leaves the layer's conversion off. */
  predicate De3Bypass(fmt: int, enc: Encoding, range: ColorRange, engineFormat: int, engineEnc: Encoding) {
    || (fmt == FORMAT_TYPE_RGB && engineFormat == MEDIA_BUS_FMT_RGB888_1X24)
    || (fmt == FORMAT_TYPE_YUV && De3YuvTable(enc, range, engineFormat, engineEnc).None?)
  }

  /** The table the DE3 YVU path writes: the chosen one, or the identity
      of the plane's own encoding when none is chosen. */
  function De3YvuTable(enc: Encoding, range: ColorRange, engineFormat: int, engineEnc: Encoding): (t: seq<bv32>)
    ensures |t| == 12
  {
    match De3YuvTable(enc, range, engineFormat, engineEnc)
    case Some(t) => t
    case None => Yuv2YuvDe3(range, enc, enc)
  }

  /** What sun8i_de3_ccsc_setup issues. */
  function De3CcscWrites(b: BlendCsc, fmt: int, enc: Encoding, range: ColorRange, engineFormat: int, engineEnc: Encoding): seq<Access> {
    if fmt == FORMAT_TYPE_RGB then
      if engineFormat == MEDIA_BUS_FMT_RGB888_1X24 then [UpdateBits(b.ctl, b.enable, 0)]
      else [BulkWrite(b.coeff, Rgb2YuvDe3(engineEnc)), UpdateBits(b.ctl, b.enable, b.enable)]
    else if fmt == FORMAT_TYPE_YUV then
      match De3YuvTable(enc, range, engineFormat, engineEnc)
      case None => [UpdateBits(b.ctl, b.enable, 0)]
      case Some(t) => [BulkWrite(b.coeff, t), UpdateBits(b.ctl, b.enable, b.enable)]
    else if fmt == FORMAT_TYPE_YVU then
      YvuWrites(b.coeff, De3YvuTable(enc, range, engineFormat, engineEnc)) + [UpdateBits(b.ctl, b.enable, b.enable)]
    else []
  }

  /** sun8i_de3_ccsc_setup */
  method De3CcscSetup(engine: Engine, b: BlendCsc, fmt: int, enc: Encoding, range: ColorRange)
    modifies engine.regs
    ensures engine.regs.log == old(engine.regs.log) + De3CcscWrites(b, fmt, enc, range, engine.format, engine.encoding)
  {
    var outFormat, outEnc := engine.format, engine.encoding;
    ghost var log0 := engine.regs.log;
    De3Branches(b, fmt, enc, range, outFormat, outEnc);
    var mask := b.enable;
    var val: bv32 := 0;
    if fmt == FORMAT_TYPE_RGB {
      if outFormat != MEDIA_BUS_FMT_RGB888_1X24 {
        val := mask;
        engine.regs.RegBulkWrite(b.coeff, Rgb2YuvDe3(outEnc));
      }
    } else if fmt == FORMAT_TYPE_YUV {
      var table := De3YuvTable(enc, range, outFormat, outEnc);
      if table.Some? {
        val := mask;
        engine.regs.RegBulkWrite(b.coeff, table.value);
      }
    } else if fmt == FORMAT_TYPE_YVU {
      var table := De3YuvTable(enc, range, outFormat, outEnc);
      if table.None? {
        table := Some(Yuv2YuvDe3(range, enc, enc));
      }
      val := mask;
      WriteSwapped(engine.regs, b.coeff, table.value);
    } else {
      return;
    }
    De3Shape(b, fmt, enc, range, outFormat, outEnc);
    engine.regs.RegUpdateBits(b.ctl, mask, val);
    Associate(log0, De3Coefficients(b, fmt, enc, range, outFormat, outEnc), [UpdateBits(b.ctl, mask, val)]);
  }

  /** The coefficients and the bypass decision of each format type. */
  lemma De3Branches(b: BlendCsc, fmt: int, enc: Encoding, range: ColorRange, f: int, e: Encoding)
    ensures fmt == FORMAT_TYPE_RGB ==>
      (De3Bypass(fmt, enc, range, f, e) <==> f == MEDIA_BUS_FMT_RGB888_1X24) &&
      De3Coefficients(b, fmt, enc, range, f, e) == if f == MEDIA_BUS_FMT_RGB888_1X24 then [] else [BulkWrite(b.coeff, Rgb2YuvDe3(e))]
    ensures fmt == FORMAT_TYPE_YUV ==>
      (De3Bypass(fmt, enc, range, f, e) <==> De3YuvTable(enc, range, f, e).None?) &&
      De3Coefficients(b, fmt, enc, range, f, e) ==
        if De3YuvTable(enc, range, f, e).None? then [] else [BulkWrite(b.coeff, De3YuvTable(enc, range, f, e).value)]
    ensures fmt == FORMAT_TYPE_YVU ==>
      !De3Bypass(fmt, enc, range, f, e) &&
      De3Coefficients(b, fmt, enc, range, f, e) == YvuWrites(b.coeff, De3YvuTable(enc, range, f, e))
    ensures fmt !in {FORMAT_TYPE_RGB, FORMAT_TYPE_YUV, FORMAT_TYPE_YVU} ==> De3CcscWrites(b, fmt, enc, range, f, e) == []
  {
  }

  /** The coefficient writes of sun8i_de3_ccsc_setup, before the
      control register update. */
  function De3Coefficients(b: BlendCsc, fmt: int, enc: Encoding, range: ColorRange, engineFormat: int, engineEnc: Encoding): seq<Access>
    requires fmt in {FORMAT_TYPE_RGB, FORMAT_TYPE_YUV, FORMAT_TYPE_YVU}
  {
    if De3Bypass(fmt, enc, range, engineFormat, engineEnc) then []
    else if fmt == FORMAT_TYPE_RGB then [BulkWrite(b.coeff, Rgb2YuvDe3(engineEnc))]
    else if fmt == FORMAT_TYPE_YUV then [BulkWrite(b.coeff, De3YuvTable(enc, range, engineFormat, engineEnc).value)]
    else YvuWrites(b.coeff, De3YvuTable(enc, range, engineFormat, engineEnc))
  }

  /** sun8i_de3_ccsc_setup is its coefficient writes followed by one update
      of the control register that sets the layer's bit unless the
      conversion is bypassed. */
  lemma De3Shape(b: BlendCsc, fmt: int, enc: Encoding, range: ColorRange, engineFormat: int, engineEnc: Encoding)
    requires fmt in {FORMAT_TYPE_RGB, FORMAT_TYPE_YUV, FORMAT_TYPE_YVU}
    ensures De3CcscWrites(b, fmt, enc, range, engineFormat, engineEnc) ==
      De3Coefficients(b, fmt, enc, range, engineFormat, engineEnc)
      + [UpdateBits(b.ctl, b.enable, if De3Bypass(fmt, enc, range, engineFormat, engineEnc) then 0 else b.enable)]
  {
  }

  /** Setting or clearing one bit with regmap_update_bits. */
  lemma EnableBitOnly(cur: bv32, mask: bv32, on: bool)
    ensures UpdateBitsValue(cur, mask, if on then mask else 0) & !mask == cur & !mask
    ensures UpdateBitsValue(cur, mask, if on then mask else 0) & mask == if on then mask else 0
  {
    assert (if on then mask else 0) & mask == if on then mask else 0;
  }

  /** DE3 setup changes only the layer's enable bit of the control
      register: it is cleared exactly when the conversion is bypassed (RGB
      into an RGB888 output, or YUV already in the output's encoding and
      range) and set otherwise, YVU included. An unknown format type writes
      nothing. The control register lies outside the coefficient block. */
  lemma De3EnableBit(b: BlendCsc, fmt: int, enc: Encoding, range: ColorRange, engineFormat: int, engineEnc: Encoding, cur: bv32)
    requires b.ctl < b.coeff || b.coeff + 48 <= b.ctl
    ensures fmt in {FORMAT_TYPE_RGB, FORMAT_TYPE_YUV, FORMAT_TYPE_YVU} ==>
      Value(De3CcscWrites(b, fmt, enc, range, engineFormat, engineEnc), b.ctl, cur) ==
      UpdateBitsValue(cur, b.enable, if De3Bypass(fmt, enc, range, engineFormat, engineEnc) then 0 else b.enable)
    ensures fmt !in {FORMAT_TYPE_RGB, FORMAT_TYPE_YUV, FORMAT_TYPE_YVU} ==>
      De3CcscWrites(b, fmt, enc, range, engineFormat, engineEnc) == []
  {
    if fmt in {FORMAT_TYPE_RGB, FORMAT_TYPE_YUV, FORMAT_TYPE_YVU} {
      var coeffs := De3Coefficients(b, fmt, enc, range, engineFormat, engineEnc);
      var v: bv32 := if De3Bypass(fmt, enc, range, engineFormat, engineEnc) then 0 else b.enable;
      var last: seq<Access> := [UpdateBits(b.ctl, b.enable, v)];
      De3Shape(b, fmt, enc, range, engineFormat, engineEnc);
      ValueAppend(coeffs, last, b.ctl, cur);
      if !De3Bypass(fmt, enc, range, engineFormat, engineEnc) {
        var table := if fmt == FORMAT_TYPE_RGB then Rgb2YuvDe3(engineEnc)
          else if fmt == FORMAT_TYPE_YUV then De3YuvTable(enc, range, engineFormat, engineEnc).value
          else De3YvuTable(enc, range, engineFormat, engineEnc);
        CoefficientsOnly(b.coeff, table, b.ctl, cur);
      }
      assert last[1..] == [];
    }
  }

  /** A control register update after the YVU loop does not disturb the
      coefficients. */
  lemma YvuThenUpdate(first: int, table: seq<bv32>, ctl: int, mask: bv32, v: bv32, j: int, cur: bv32)
    requires |table| == 12 && 0 <= j < 12
    requires ctl < first || first + 48 <= ctl
    ensures Value(YvuWrites(first, table) + [UpdateBits(ctl, mask, v)], first + 4 * j, cur) == Swapped(table)[j]
  {
    var last: seq<Access> := [UpdateBits(ctl, mask, v)];
    assert last[1..] == [];
    ValueAppend(YvuWrites(first, table), last, first + 4 * j, cur);
    YvuStores(first, table, j, cur);
  }

  /** The DE3 YVU path fills the layer's coefficients with the swapped
      table, falling back to the identity of the plane's encoding. */
  lemma De3YvuCoefficients(b: BlendCsc, enc: Encoding, range: ColorRange, engineFormat: int, engineEnc: Encoding, j: int, cur: bv32)
    requires b.ctl < b.coeff || b.coeff + 48 <= b.ctl
    requires 0 <= j < 12
    ensures Value(De3CcscWrites(b, FORMAT_TYPE_YVU, enc, range, engineFormat, engineEnc), b.coeff + 4 * j, cur) ==
      Swapped(De3YvuTable(enc, range, engineFormat, engineEnc))[j]
  {
    De3Shape(b, FORMAT_TYPE_YVU, enc, range, engineFormat, engineEnc);
    YvuThenUpdate(b.coeff, De3YvuTable(enc, range, engineFormat, engineEnc), b.ctl, b.enable, b.enable, j, cur);
  }

  /** The parts of struct sun8i_mixer_cfg the conversion looks at. */
  datatype MixerCfg = MixerCfg(isDe3: bool, viNum: int, ccsc: CcscLayout)

  /** What sun8i_csc_set_ccsc issues. */
  function SetCcscWrites(cfg: MixerCfg, b: BlendCsc, layer: int, fmt: int, enc: Encoding, range: ColorRange, engineFormat: int, engineEnc: Encoding): seq<Access>
    requires !cfg.isDe3 && layer < cfg.viNum ==> 0 <= layer < 2 && enc != BT2020
  {
    if cfg.isDe3 then De3CcscWrites(b, fmt, enc, range, engineFormat, engineEnc)
    else if layer < cfg.viNum then CscSetupWrites(CcscBase(cfg.ccsc, layer), fmt, enc, range)
    else []
  }

  /** sun8i_csc_set_ccsc. On a non-DE3 mixer the layer must be a video
      channel the ccsc_base table has a column for, and the encoding one
      the yuv2rgb table has a row for. */
  method SetCcsc(cfg: MixerCfg, engine: Engine, b: BlendCsc, layer: int, fmt: int, enc: Encoding, range: ColorRange)
    requires !cfg.isDe3 && layer < cfg.viNum ==> 0 <= layer < 2 && enc != BT2020
    modifies engine.regs
    ensures engine.regs.log == old(engine.regs.log) + SetCcscWrites(cfg, b, layer, fmt, enc, range, engine.format, engine.encoding)
  {
    if cfg.isDe3 {
      De3CcscSetup(engine, b, fmt, enc, range);
      return;
    }
    if layer < cfg.viNum {
      var base := CcscBase(cfg.ccsc, layer);
      CscSetup(engine.regs, base, fmt, enc, range);
    } else {
      assert SetCcscWrites(cfg, b, layer, fmt, enc, range, engine.format, engine.encoding) == [];
    }
  }

  /** A non-DE3 mixer leaves the UI layers, which have no CSC unit, alone;
      a DE3 mixer ignores the video channel count. */
  lemma SetCcscScope(cfg: MixerCfg, b: BlendCsc, layer: int, fmt: int, enc: Encoding, range: ColorRange, engineFormat: int, engineEnc: Encoding)
    requires !cfg.isDe3 && layer < cfg.viNum ==> 0 <= layer < 2 && enc != BT2020
    ensures !cfg.isDe3 && layer >= cfg.viNum ==> SetCcscWrites(cfg, b, layer, fmt, enc, range, engineFormat, engineEnc) == []
    ensures cfg.isDe3 ==>
      SetCcscWrites(cfg, b, layer, fmt, enc, range, engineFormat, engineEnc) == SetCcscWrites(cfg.(viNum := 0), b, layer, fmt, enc, range, engineFormat, engineEnc)
  {
  }
}
