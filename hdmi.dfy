/**
 * The Allwinner glue around the DesignWare HDMI controller: the encoder's
 * choice of YCbCr encoding and output format, its input-format negotiation,
 * the TMDS clock rate, mode validation per SoC, and the bind/unbind
 * sequence that switches the controller's supplies on and off.
 *
 * Every call into the clock, reset, regulator, PHY, DRM and CEC frameworks
 * is a parameter: its result is a field of `BindEnv`. A ghost event log
 * records each supply switched on (`Take`) and off (`Put`).
 */
module DwHdmi {
  import opened Wrappers
  import opened ErrorCodes
  import opened Nesting
  import opened SunxiEngine

  /* ---------------------------------------------------------------- */
  /* Colorimetry                                                       */
  /* ---------------------------------------------------------------- */

  /** DRM_MODE_COLORIMETRY_* (include/drm/drm_connector.h). */
  const DRM_MODE_COLORIMETRY_NO_DATA := 0
  const DRM_MODE_COLORIMETRY_SMPTE_170M_YCC := 1
  const DRM_MODE_COLORIMETRY_BT709_YCC := 2
  const DRM_MODE_COLORIMETRY_XVYCC_601 := 3
  const DRM_MODE_COLORIMETRY_XVYCC_709 := 4
  const DRM_MODE_COLORIMETRY_SYCC_601 := 5
  const DRM_MODE_COLORIMETRY_OPYCC_601 := 6
  const DRM_MODE_COLORIMETRY_OPRGB := 7
  const DRM_MODE_COLORIMETRY_BT2020_CYCC := 8
  const DRM_MODE_COLORIMETRY_BT2020_RGB := 9
  const DRM_MODE_COLORIMETRY_BT2020_YCC := 10
  const DRM_MODE_COLORIMETRY_DCI_P3_RGB_D65 := 11
  const DRM_MODE_COLORIMETRY_DCI_P3_RGB_THEATER := 12
  const DRM_MODE_COLORIMETRY_RGB_WIDE_FIXED := 13
  const DRM_MODE_COLORIMETRY_RGB_WIDE_FLOAT := 14
  const DRM_MODE_COLORIMETRY_BT601_YCC := 15

  /** The switch of sun8i_hdmi_enc_atomic_check on the connector's
      colorspace, by the numeric values of its case labels. */
  function EncodingFor(colorspace: int): (e: Encoding)
    ensures colorspace == DRM_MODE_COLORIMETRY_NO_DATA ==> e == BT709
    ensures e != BT709 ==> DRM_MODE_COLORIMETRY_NO_DATA < colorspace <= DRM_MODE_COLORIMETRY_BT601_YCC
  {
    match colorspace
    case 1 | 3 | 5 | 6 | 15 => BT601
    case 8 | 9 | 10 | 11 | 12 => BT2020
    case _ => BT709
  }

  /** The five ITU-R BT.601 colorimetries select BT.601, the three BT.2020
      and the two DCI-P3 ones select BT.2020, and everything else (the
      BT.709 group, the wide-gamut RGB ones, OPRGB, which has no case of
      its own, and any unknown value) selects BT.709. */
  lemma EncodingMapping(colorspace: int)
    ensures EncodingFor(colorspace) == BT601 <==>
      colorspace in {DRM_MODE_COLORIMETRY_SMPTE_170M_YCC, DRM_MODE_COLORIMETRY_XVYCC_601,
                     DRM_MODE_COLORIMETRY_SYCC_601, DRM_MODE_COLORIMETRY_OPYCC_601,
                     DRM_MODE_COLORIMETRY_BT601_YCC}
    ensures EncodingFor(colorspace) == BT2020 <==>
      colorspace in {DRM_MODE_COLORIMETRY_BT2020_CYCC, DRM_MODE_COLORIMETRY_BT2020_YCC,
                     DRM_MODE_COLORIMETRY_BT2020_RGB, DRM_MODE_COLORIMETRY_DCI_P3_RGB_D65,
                     DRM_MODE_COLORIMETRY_DCI_P3_RGB_THEATER}
    ensures EncodingFor(DRM_MODE_COLORIMETRY_OPRGB) == BT709
    ensures !(0 <= colorspace <= DRM_MODE_COLORIMETRY_BT601_YCC) ==> EncodingFor(colorspace) == BT709
  {
  }

  /** The part of drm_crtc_state that atomic_check updates. */
  class CrtcState {
    var modeChanged: bool

    constructor (modeChanged: bool)
      ensures this.modeChanged == modeChanged
    {
      this.modeChanged := modeChanged;
    }
  }

  /** sun8i_hdmi_enc_atomic_check: pick the engine's encoding from the
      colorimetry, take the bridge's output bus format, and force a mode
      change when the HDR metadata differs from the old connector state's.
      `hdrEqual` is drm_connector_atomic_hdr_metadata_equal. */
  method AtomicCheck(engine: Engine, crtc: CrtcState, colorspace: int, outputFormat: int, hdrEqual: bool)
    returns (ret: int)
    modifies engine, crtc
    ensures ret == 0
    ensures engine.encoding == EncodingFor(colorspace)
    ensures engine.format == outputFormat
    ensures crtc.modeChanged == (old(crtc.modeChanged) || !hdrEqual)
  {
    engine.encoding := EncodingFor(colorspace);
    engine.format := outputFormat;
    if !hdrEqual {
      crtc.modeChanged := true;
    }
    return 0;
  }

  /* ---------------------------------------------------------------- */
  /* Input bus format negotiation                                      */
  /* ---------------------------------------------------------------- */

  /** sun8i_hdmi_enc_get_input_bus_fmts. `supported` is what
      sunxi_engine_get_supported_formats returned (None for NULL) and
      `allocOk` whether the kzalloc of the one-entry answer succeeds. The
      answer is the returned array; its length is *num_input_fmts, and the
      empty answer stands for NULL. */
  method GetInputBusFmts(supported: Option<seq<int>>, outputFmt: int, allocOk: bool)
    returns (inputFmts: seq<int>)
    ensures inputFmts == if supported.Some? && outputFmt in supported.value && allocOk then [outputFmt] else []
  {
    inputFmts := [];
    if supported == None || |supported.value| == 0 {
      return;
    }
    var list := supported.value;
    var i := 0;
    while i < |list|
      invariant 0 <= i <= |list|
      invariant outputFmt !in list[..i]
      invariant inputFmts == []
    {
      if outputFmt == list[i] {
        if !allocOk {
          break;
        }
        inputFmts := [outputFmt];
        break;
      }
      i := i + 1;
    }
  }

  /* ---------------------------------------------------------------- */
  /* TMDS clock                                                        */
  /* ---------------------------------------------------------------- */

  /** The divisor of sun8i_dw_hdmi_encoder_atomic_mode_set. */
  function TmdsDivisor(format: int): int {
    if format == MEDIA_BUS_FMT_UYYVYY8_0_5X24 || format == MEDIA_BUS_FMT_UYYVYY10_0_5X30 then 2 else 1
  }

  /** The rate handed to clk_set_rate, in Hz, for a pixel clock in kHz. */
  function TmdsRate(format: int, crtcClock: int): (r: int)
    ensures r == crtcClock * 1000 || 2 * r == crtcClock * 1000
    ensures crtcClock >= 0 ==> 0 <= r <= crtcClock * 1000
  {
    crtcClock * 1000 / TmdsDivisor(format)
  }

  /** The TMDS clock runs at half the pixel rate for the two 4:2:0 bus
      formats and at the pixel rate for every other format; the division
      is exact, so it rounds the same whichever way division rounds. */
  lemma TmdsRateExact(format: int, crtcClock: int)
    ensures TmdsDivisor(format) == 2 <==>
      format == MEDIA_BUS_FMT_UYYVYY8_0_5X24 || format == MEDIA_BUS_FMT_UYYVYY10_0_5X30
    ensures TmdsDivisor(format) == 1 || TmdsDivisor(format) == 2
    ensures TmdsRate(format, crtcClock) * TmdsDivisor(format) == crtcClock * 1000
  {
  }

  /* ---------------------------------------------------------------- */
  /* Mode validation and quirks                                        */
  /* ---------------------------------------------------------------- */

  datatype ModeStatus = ModeOk | ModeClockHigh

  /** The parts of a drm_display_mode the validators read (both clocks in
      kHz), and whether drm_mode_is_420 holds for it. */
  datatype DisplayMode = DisplayMode(clock: int, crtcClock: int, is420: bool)

  /** sun8i_dw_hdmi_mode_valid_a83t */
  function ModeValidA83t(mode: DisplayMode): (r: ModeStatus)
    ensures r == ModeOk <==> mode.clock <= 297000
  {
    if mode.clock > 297000 then ModeClockHigh else ModeOk
  }

  /** sun8i_dw_hdmi_mode_valid_h6: the TMDS rate is computed, and halved
      for 4:2:0, but the verdict is taken on the mode's clock alone. */
  function ModeValidH6(mode: DisplayMode): (r: ModeStatus)
    ensures r == ModeOk <==> mode.clock <= 594000
  {
    var rate := mode.crtcClock * 1000;
    var rate' := if mode.is420 then rate / 2 else rate;
    if mode.clock > 594000 then ModeClockHigh else ModeOk
  }

  /** The mode_valid hook of each quirks table. */
  datatype ModeValidHook = A83tModeValid | H6ModeValid

  /** struct sun8i_dw_hdmi_quirks */
  datatype Quirks = Quirks(modeValid: ModeValidHook, useDrmInfoframe: bool)

  const SUN8I_A83T_QUIRKS := Quirks(A83tModeValid, false)
  const SUN50I_H6_QUIRKS := Quirks(H6ModeValid, true)

  /** sun8i_dw_hdmi_dt_ids: compatible string and match data. */
  const DT_IDS: seq<(string, Quirks)> := [
    ("allwinner,sun8i-a83t-dw-hdmi", SUN8I_A83T_QUIRKS),
    ("allwinner,sun50i-h6-dw-hdmi", SUN50I_H6_QUIRKS)
  ]

  /** of_device_get_match_data over the table, first match wins. */
  function MatchData(ids: seq<(string, Quirks)>, compatible: string): (q: Option<Quirks>)
    ensures q.Some? ==> exists k :: 0 <= k < |ids| && ids[k] == (compatible, q.value)
    ensures q.None? ==> forall k :: 0 <= k < |ids| ==> ids[k].0 != compatible
    decreases |ids|
  {
    if ids == [] then None
    else if ids[0].0 == compatible then Some(ids[0].1)
    else
      var q := MatchData(ids[1..], compatible);
      assert q.Some? ==> exists k :: 0 <= k < |ids[1..]| && ids[1..][k] == (compatible, q.value);
      assert q.Some? ==> exists k :: 0 <= k < |ids| && ids[k] == (compatible, q.value);
      q
  }

  /** Call the quirks' mode_valid hook. */
  function ModeValid(q: Quirks, mode: DisplayMode): ModeStatus {
    match q.modeValid
    case A83tModeValid => ModeValidA83t(mode)
    case H6ModeValid => ModeValidH6(mode)
  }

  /** The highest pixel clock, in kHz, each controller takes. */
  function MaxClock(q: Quirks): int {
    match q.modeValid
    case A83tModeValid => 297000
    case H6ModeValid => 594000
  }

  /** A mode is accepted exactly when its clock is within the controller's
      limit; on the H6 neither the CRTC clock nor 4:2:0 sampling changes
      the verdict. */
  lemma ModeValidLimits(q: Quirks, mode: DisplayMode, crtcClock: int, is420: bool)
    ensures ModeValid(q, mode) == ModeOk <==> mode.clock <= MaxClock(q)
    ensures ModeValidH6(mode) == ModeValidH6(DisplayMode(mode.clock, crtcClock, is420))
  {
  }

  /** Every mode the A83T accepts the H6 accepts too. */
  lemma H6AcceptsA83tModes(mode: DisplayMode)
    requires ModeValid(SUN8I_A83T_QUIRKS, mode) == ModeOk
    ensures ModeValid(SUN50I_H6_QUIRKS, mode) == ModeOk
  {
    ModeValidLimits(SUN8I_A83T_QUIRKS, mode, mode.crtcClock, mode.is420);
    ModeValidLimits(SUN50I_H6_QUIRKS, mode, mode.crtcClock, mode.is420);
  }

  /** V4L2_YCBCR_ENC_709 */
  const V4L2_YCBCR_ENC_709 := 2

  /** The fields of dw_hdmi_plat_data that bind fills in. */
  datatype PlatData = PlatData(
    modeValid: ModeValidHook, useDrmInfoframe: bool, ycbcr420Allowed: bool,
    inputBusEncoding: int, outputPort: int)

  /** Lines 354-358 of sun8i_dw_hdmi_bind. */
  function PlatDataFor(q: Quirks): PlatData {
    PlatData(q.modeValid, q.useDrmInfoframe, q.useDrmInfoframe, V4L2_YCBCR_ENC_709, 1)
  }

  /** DRM infoframes, and with them 4:2:0 output, are used exactly for the
      H6 compatible; the A83T validator goes with the A83T compatible. */
  lemma InfoframesOnlyOnH6(compatible: string)
    ensures var q := MatchData(DT_IDS, compatible);
      q.Some? && PlatDataFor(q.value).useDrmInfoframe <==> compatible == "allwinner,sun50i-h6-dw-hdmi"
    ensures var q := MatchData(DT_IDS, compatible);
      q.Some? && PlatDataFor(q.value).ycbcr420Allowed <==> compatible == "allwinner,sun50i-h6-dw-hdmi"
    ensures var q := MatchData(DT_IDS, compatible);
      q.Some? && q.value.modeValid == A83tModeValid <==> compatible == "allwinner,sun8i-a83t-dw-hdmi"
  {
    assert DT_IDS[1..][1..] == [];
  }

  /* ---------------------------------------------------------------- */
  /* Bind and unbind                                                   */
  /* ---------------------------------------------------------------- */

  /** The error of an ERR_PTR: -MAX_ERRNO .. -1. */
  type ErrPtr = e: int | -4095 <= e <= -1 witness -1

  /** A lookup that returns a pointer or an ERR_PTR. */
  datatype Lookup = Got | Err(err: ErrPtr)

  /** Everything bind obtains from the platform and the frameworks. */
  datatype BindEnv = BindEnv(
    ofNode: bool,            // pdev->dev.of_node
    phyNode: bool,           // of_parse_phandle(.., "phys", 0)
    phy: Lookup,             // sun8i_hdmi_phy_get
    allocOk: bool,           // drmm_kzalloc of the driver data
    quirks: Quirks,          // of_device_get_match_data
    possibleCrtcs: int,      // sun8i_dw_hdmi_find_possible_crtcs
    rstCtrl: Lookup,         // devm_reset_control_get(.., "ctrl")
    clkTmds: Lookup,         // devm_clk_get(.., "tmds")
    regulator: Lookup,       // devm_regulator_get(.., "hvcc")
    regulatorEnableRet: int, // regulator_enable
    deassertRet: int,        // reset_control_deassert
    clkEnableRet: int,       // clk_prepare_enable
    phyInitRet: int,         // sun8i_hdmi_phy_init
    encoderInitRet: int,     // drm_simple_encoder_init
    dwHdmi: Lookup,          // dw_hdmi_probe
    bridgeAttachRet: int,    // drm_bridge_attach
    connector: Lookup,       // drm_bridge_connector_init
    cecOk: bool)             // cec_notifier_conn_register

  /** What bind switches on, and unbind off. */
  datatype Resource =
    | RegulatorOn      // regulator_enable / regulator_disable
    | ResetDeasserted  // reset_control_deassert / reset_control_assert
    | TmdsClock        // clk_prepare_enable / clk_disable_unprepare
    | PhyInit          // sun8i_hdmi_phy_init / sun8i_hdmi_phy_deinit
    | DwHdmiCore       // dw_hdmi_probe / dw_hdmi_remove
    | EncBridge        // drm_bridge_add / drm_bridge_remove

  /** Bind records no other actions. */
  datatype Action = NoAction

  type Event = Step<Resource, Action>

  /** Everything a successful bind leaves switched on, in the order it is
      switched on. */
  const ENABLED: seq<Resource> := [RegulatorOn, ResetDeasserted, TmdsClock, PhyInit, DwHdmiCore, EncBridge]

  /** The events of a successful bind. */
  const BIND_EVENTS: seq<Event> :=
    [Take(RegulatorOn), Take(ResetDeasserted), Take(TmdsClock), Take(PhyInit), Take(DwHdmiCore), Take(EncBridge)]

  /** The events of sun8i_dw_hdmi_unbind. */
  const UNBIND_EVENTS: seq<Event> :=
    [Put(EncBridge), Put(DwHdmiCore), Put(PhyInit), Put(TmdsClock), Put(ResetDeasserted), Put(RegulatorOn)]

  /** The error bind returns before it switches anything on (lines 275-325),
      if any. */
  function SetupFailure(env: BindEnv): Option<int> {
    if !env.ofNode then Some(-ENODEV)
    else if !env.phyNode then Some(-EINVAL)
    else if env.phy.Err? then Some(env.phy.err)
    else if !env.allocOk then Some(-ENOMEM)
    else if env.possibleCrtcs == 0 then Some(-EPROBE_DEFER)
    else if env.rstCtrl.Err? then Some(env.rstCtrl.err)
    else if env.clkTmds.Err? then Some(env.clkTmds.err)
    else if env.regulator.Err? then Some(env.regulator.err)
    else None
  }

  /** The error of the first power step that fails, if any (lines 327-347). */
  function PowerFailure(env: BindEnv): Option<int> {
    if env.regulatorEnableRet != 0 then Some(env.regulatorEnableRet)
    else if env.deassertRet != 0 then Some(env.deassertRet)
    else if env.clkEnableRet != 0 then Some(env.clkEnableRet)
    else if env.phyInitRet != 0 then Some(env.phyInitRet)
    else None
  }

  /** The error of the first registration step that fails, if any (lines
      349-411). */
  function CoreFailure(env: BindEnv): Option<int> {
    if env.encoderInitRet != 0 then Some(env.encoderInitRet)
    else if env.dwHdmi.Err? then Some(env.dwHdmi.err)
    else if env.bridgeAttachRet != 0 then Some(env.bridgeAttachRet)
    else if env.connector.Err? then Some(env.connector.err)
    else if !env.cecOk then Some(-ENOMEM)
    else None
  }

  /** The error of the first step from regulator_enable on that fails. */
  function EnableFailure(env: BindEnv): Option<int> {
    if PowerFailure(env).Some? then PowerFailure(env) else CoreFailure(env)
  }

  /** Every step succeeds. */
  predicate Bound(env: BindEnv) {
    SetupFailure(env).None? && EnableFailure(env).None?
  }

  /** sun8i_dw_hdmi_bind's return value. */
  function BindRet(env: BindEnv): int {
    match SetupFailure(env)
    case Some(e) => e
    case None => match EnableFailure(env) case Some(e) => e case None => 0
  }

  /** `inner` run after switching `r` on; `r` is switched off again after
      it when `close`. */
  function Open(r: Resource, inner: seq<Event>, close: bool): seq<Event> {
    [Take(r)] + inner + (if close then [Put(r)] else [])
  }

  /** Lines 363-411 and 415-417: dw_hdmi_probe, drm_bridge_add, and the
      err_remove_dw_hdmi exit. */
  function CoreEvents(env: BindEnv, close: bool): seq<Event> {
    if env.encoderInitRet != 0 || env.dwHdmi.Err? then []
    else Open(DwHdmiCore, Open(EncBridge, [], close), close)
  }

  /** Lines 345-347 and the err_deinit_phy exit. */
  function PhyEvents(env: BindEnv, close: bool): seq<Event> {
    if env.phyInitRet != 0 then [] else Open(PhyInit, CoreEvents(env, close), close)
  }

  /** Lines 339-343 and the err_disable_clk_tmds exit. */
  function ClockEvents(env: BindEnv, close: bool): seq<Event> {
    if env.clkEnableRet != 0 then [] else Open(TmdsClock, PhyEvents(env, close), close)
  }

  /** Lines 333-337 and the err_assert_ctrl_reset exit. */
  function ResetEvents(env: BindEnv, close: bool): seq<Event> {
    if env.deassertRet != 0 then [] else Open(ResetDeasserted, ClockEvents(env, close), close)
  }

  /** Lines 327-331 and the err_disable_regulator exit. */
  function RegulatorEvents(env: BindEnv, close: bool): seq<Event> {
    if env.regulatorEnableRet != 0 then [] else Open(RegulatorOn, ResetEvents(env, close), close)
  }

  /** The events of the whole of sun8i_dw_hdmi_bind. */
  function BindEvents(env: BindEnv): seq<Event> {
    if SetupFailure(env).Some? then [] else RegulatorEvents(env, !Bound(env))
  }

  /** Bind returns 0 exactly when every step succeeds; otherwise it returns
      the failing step's (non-zero) error. */
  lemma BindRetZeroIff(env: BindEnv)
    ensures BindRet(env) == 0 <==> Bound(env)
  {
  }

  /** Without a CRTC to drive, bind defers before it enables anything. */
  lemma DeferBeforeEnable(env: BindEnv)
    requires env.ofNode && env.phyNode && env.phy.Got? && env.allocOk
    requires env.possibleCrtcs == 0
    ensures BindRet(env) == -EPROBE_DEFER
    ensures BindEvents(env) == []
  {
  }

  /** A successful bind switches on the regulator, then deasserts the
      reset, then enables the TMDS clock, then initialises the PHY, then
      probes the core and adds the bridge, and leaves all of them on. */
  lemma BindSuccessOrder(env: BindEnv)
    requires Bound(env)
    ensures BindEvents(env) == BIND_EVENTS
    ensures Unwind(BindEvents(env), []) == Some(ENABLED)
  {
    var none: seq<Resource> := [];
    assert BIND_EVENTS == Takes(ENABLED);
    TakesUnwind<Resource, Action>(ENABLED, none);
    assert none + ENABLED == ENABLED;
  }

  /** A failed bind switches off everything it switched on, in reverse
      order, and nothing else: its events are well nested. */
  lemma BindFailureUnwinds(env: BindEnv)
    requires !Bound(env)
    ensures WellNested(BindEvents(env))
  {
    var none: seq<Event> := [];
    BracketNested(EncBridge, none);
    assert Open(EncBridge, [], true) == Bracket(EncBridge, none);
    BracketNested(DwHdmiCore, Open(EncBridge, [], true));
    assert WellNested(CoreEvents(env, true));
    BracketNested(PhyInit, CoreEvents(env, true));
    assert WellNested(PhyEvents(env, true));
    BracketNested(TmdsClock, PhyEvents(env, true));
    assert WellNested(ClockEvents(env, true));
    BracketNested(ResetDeasserted, ClockEvents(env, true));
    assert WellNested(ResetEvents(env, true));
    BracketNested(RegulatorOn, ResetEvents(env, true));
    assert WellNested(RegulatorEvents(env, true));
  }

  /** Unbind after a successful bind switches everything off, in reverse
      order: bind and unbind together are well nested. */
  lemma BindUnbindNested(env: BindEnv)
    requires Bound(env)
    ensures WellNested(BindEvents(env) + UNBIND_EVENTS)
  {
    BindSuccessOrder(env);
    assert BIND_EVENTS == Takes(ENABLED);
    assert UNBIND_EVENTS == Puts(Reversed(ENABLED));
    TakesPutsNested<Resource, Action>(ENABLED);
  }

  /** Appending the steps of `Open` one at a time appends `Open`. */
  lemma OpenAppend(log: seq<Event>, r: Resource, inner: seq<Event>, close: bool)
    ensures log + [Take(r)] + inner + (if close then [Put(r)] else []) == log + Open(r, inner, close)
  {
  }

  /** struct sun8i_dw_hdmi: the driver data bind fills in, the supplies it
      holds switched on (last switched on last), and the rate set on the
      TMDS clock. */
  class Hdmi {
    var quirks: Quirks
    var possibleCrtcs: int
    var platData: PlatData
    var ycbcr420Allowed: bool   // connector->ycbcr_420_allowed
    var tmdsRate: int
    var enabled: set<Resource>
    ghost var events: seq<Event>

    constructor ()
      ensures enabled == {} && events == []
    {
      quirks := SUN8I_A83T_QUIRKS;
      possibleCrtcs := 0;
      platData := PlatDataFor(SUN8I_A83T_QUIRKS);
      ycbcr420Allowed := false;
      tmdsRate := 0;
      enabled := {};
      events := [];
    }

    /** Switch `r` on. */
    method Acquire(r: Resource)
      requires r !in enabled
      modifies this`enabled, this`events
      ensures enabled == old(enabled) + {r}
      ensures events == old(events) + [Take(r)]
    {
      enabled := enabled + {r};
      events := events + [Take(r)];
    }

    /** Switch `r` off. */
    method Release(r: Resource)
      requires r in enabled
      modifies this`enabled, this`events
      ensures enabled == old(enabled) - {r}
      ensures events == old(events) + [Put(r)]
    {
      enabled := enabled - {r};
      events := events + [Put(r)];
    }

    /** sun8i_dw_hdmi_bind */
    method Bind(env: BindEnv) returns (ret: int)
      requires enabled == {}
      modifies this
      ensures ret == BindRet(env)
      ensures events == old(events) + BindEvents(env)
      ensures enabled == if Bound(env) then set r <- ENABLED else {}
      ensures Bound(env) ==> quirks == env.quirks && possibleCrtcs == env.possibleCrtcs
      ensures Bound(env) ==> platData == PlatDataFor(env.quirks) && ycbcr420Allowed == env.quirks.useDrmInfoframe
    {
      if !env.ofNode {
        assert events == old(events) + [];
        return -ENODEV;
      }
      if !env.phyNode {
        assert events == old(events) + [];
        return -EINVAL;
      }
      if env.phy.Err? {
        assert events == old(events) + [];
        return env.phy.err;
      }
      if !env.allocOk {
        assert events == old(events) + [];
        return -ENOMEM;
      }
      quirks := env.quirks;
      possibleCrtcs := env.possibleCrtcs;
      if possibleCrtcs == 0 {
        assert events == old(events) + [];
        return -EPROBE_DEFER;
      }
      if env.rstCtrl.Err? {
        assert events == old(events) + [];
        return env.rstCtrl.err;
      }
      if env.clkTmds.Err? {
        assert events == old(events) + [];
        return env.clkTmds.err;
      }
      if env.regulator.Err? {
        assert events == old(events) + [];
        return env.regulator.err;
      }
      ret := PowerUp(env);
    }

    /** Lines 327-337 and 422-427 of sun8i_dw_hdmi_bind: switch on the
        regulator and deassert the reset, go on to the clock, and on any
        failure switch off what was switched on, last first. */
    method PowerUp(env: BindEnv) returns (ret: int)
      requires SetupFailure(env).None? && enabled == {}
      modifies this`enabled, this`events, this`platData, this`ycbcr420Allowed
      ensures ret == match EnableFailure(env) case Some(e) => e case None => 0
      ensures events == old(events) + RegulatorEvents(env, EnableFailure(env).Some?)
      ensures enabled == if Bound(env) then set r <- ENABLED else {}
      ensures Bound(env) ==> platData == PlatDataFor(quirks) && ycbcr420Allowed == quirks.useDrmInfoframe
    {
      ret := env.regulatorEnableRet;
      if ret != 0 {
        assert events == old(events) + [];
        return;
      }
      ghost var close := EnableFailure(env).Some?;
      ghost var e0 := events;
      Acquire(RegulatorOn);
      label err_disable_regulator: {
        ret := env.deassertRet;
        if ret != 0 {
          break err_disable_regulator;
        }
        ghost var e1 := events;
        Acquire(ResetDeasserted);
        ret := ClockUp(env);
        if ret == 0 {
          OpenAppend(e1, ResetDeasserted, ClockEvents(env, close), false);
          OpenAppend(e0, RegulatorOn, ResetEvents(env, close), false);
          return;
        }
        // err_assert_ctrl_reset
        Release(ResetDeasserted);
        OpenAppend(e1, ResetDeasserted, ClockEvents(env, close), true);
      }
      Release(RegulatorOn);
      OpenAppend(e0, RegulatorOn, ResetEvents(env, close), true);
    }

    /** Lines 339-347 and 418-421 of sun8i_dw_hdmi_bind: enable the TMDS
        clock and initialise the PHY, go on to register the controller, and
        on any failure switch off what was switched on, last first. */
    method ClockUp(env: BindEnv) returns (ret: int)
      requires SetupFailure(env).None? && env.regulatorEnableRet == 0 && env.deassertRet == 0
      requires enabled == {RegulatorOn, ResetDeasserted}
      modifies this`enabled, this`events, this`platData, this`ycbcr420Allowed
      ensures ret == match EnableFailure(env) case Some(e) => e case None => 0
      ensures events == old(events) + ClockEvents(env, EnableFailure(env).Some?)
      ensures enabled == if Bound(env) then set r <- ENABLED else old(enabled)
      ensures Bound(env) ==> platData == PlatDataFor(quirks) && ycbcr420Allowed == quirks.useDrmInfoframe
    {
      ret := env.clkEnableRet;
      if ret != 0 {
        assert events == old(events) + [];
        return;
      }
      ghost var close := EnableFailure(env).Some?;
      ghost var e2 := events;
      Acquire(TmdsClock);
      label err_disable_clk_tmds: {
        ret := env.phyInitRet;
        if ret != 0 {
          break err_disable_clk_tmds;
        }
        ghost var e3 := events;
        Acquire(PhyInit);
        ret := Register(env);
        if ret == 0 {
          OpenAppend(e3, PhyInit, CoreEvents(env, close), false);
          OpenAppend(e2, TmdsClock, PhyEvents(env, close), false);
          return;
        }
        // err_deinit_phy
        Release(PhyInit);
        OpenAppend(e3, PhyInit, CoreEvents(env, close), true);
      }
      Release(TmdsClock);
      OpenAppend(e2, TmdsClock, PhyEvents(env, close), true);
    }

    /** Lines 349-417 of sun8i_dw_hdmi_bind: register the encoder, probe
        the DesignWare core, add and attach the bridge, create the connector
        and the CEC notifier; on a failure after the core is probed, remove
        the bridge and the core again. */
    method Register(env: BindEnv) returns (ret: int)
      requires SetupFailure(env).None? && PowerFailure(env).None?
      requires DwHdmiCore !in enabled && EncBridge !in enabled
      modifies this`enabled, this`events, this`platData, this`ycbcr420Allowed
      ensures ret == match CoreFailure(env) case Some(e) => e case None => 0
      ensures events == old(events) + CoreEvents(env, CoreFailure(env).Some?)
      ensures enabled == if Bound(env) then old(enabled) + {DwHdmiCore, EncBridge} else old(enabled)
      ensures Bound(env) ==> platData == PlatDataFor(quirks) && ycbcr420Allowed == quirks.useDrmInfoframe
    {
      ret := env.encoderInitRet;
      if ret != 0 {
        assert events == old(events) + [];
        return;
      }
      platData := PlatDataFor(quirks);
      if env.dwHdmi.Err? {
        assert events == old(events) + [];
        return env.dwHdmi.err;
      }
      Acquire(DwHdmiCore);
      Acquire(EncBridge);
      label err_remove_dw_hdmi: {
        ret := env.bridgeAttachRet;
        if ret != 0 {
          break err_remove_dw_hdmi;
        }
        if env.connector.Err? {
          ret := env.connector.err;
          break err_remove_dw_hdmi;
        }
        ycbcr420Allowed := quirks.useDrmInfoframe;
        if !env.cecOk {
          ret := -ENOMEM;
          break err_remove_dw_hdmi;
        }
        assert Bound(env);
        return 0;
      }
      Release(EncBridge);
      Release(DwHdmiCore);
    }

    /** sun8i_dw_hdmi_unbind */
    method Unbind()
      requires enabled == set r <- ENABLED
      modifies this`enabled, this`events
      ensures enabled == {}
      ensures events == old(events) + UNBIND_EVENTS
    {
      Release(EncBridge);
      Release(DwHdmiCore);
      Release(PhyInit);
      Release(TmdsClock);
      Release(ResetDeasserted);
      Release(RegulatorOn);
    }

    /** sun8i_dw_hdmi_encoder_atomic_mode_set: set the TMDS clock for the
        engine's output format. */
    method AtomicModeSet(engine: Engine, mode: DisplayMode)
      modifies this`tmdsRate
      ensures tmdsRate == TmdsRate(engine.format, mode.crtcClock)
    {
      var div;
      if engine.format == MEDIA_BUS_FMT_UYYVYY8_0_5X24 || engine.format == MEDIA_BUS_FMT_UYYVYY10_0_5X30 {
        div := 2;
      } else {
        div := 1;
      }
      tmdsRate := mode.crtcClock * 1000 / div;
    }
  }
}
