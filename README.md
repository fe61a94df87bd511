# Q8 hardware manager and sun4i display-engine helpers, in Dafny

This project models four pieces of an Allwinner (sunxi) Linux tree and
proves properties of them.

- **The q8 tablet hardware manager** (`drivers/misc/q8-hardwaremgr.c`).
  It finds out which touchscreen controller a q8 tablet carries and
  patches the device tree to match.
  - Three chip probes (Silead GSL1680, ELAN eKTF2127, Zeitec ZET6251) are
    pure functions of the I2C replies (`q8_probes.dfy`).
  - The ordered candidate search over 0x40, 0x15 and 0x76 is a recursive
    function (`q8_search.dfy`).
  - The variant tables, the module-parameter overrides and the
    `of_changeset` builder are functions over a settings record
    (`q8_config.dfy`).
  - `HardwareMgr` is a class holding the fields of `q8_hardwaremgr_data`.
    Its methods follow the driver step by step. The goto ladder of
    `q8_hardwaremgr_do_probe` is a chain of methods that append to a log
    of acquire and release events (`q8_manager.dfy`).
- **The mixer's colour-space converters** (`sun8i_csc.c`, `sun8i_csc.h`).
  The register traffic of the DE2 and DE3 setup paths is a log of
  regmap accesses (`csc.dfy`). The coefficient tables are constants.
- **The AFBC frame-buffer decoder** (`sun50i_afbc.c`, `sun50i_afbc.h`).
  - The format/modifier check is a predicate.
  - The thirteen register words of an atomic update are functions with
    round-trip lemmas.
  - The update itself is a method over the engine's register map
    (`afbc.dfy`).
- **The DE3 output formatter** (`sun50i_fmt.c`, `sun50i_fmt.h`).
  The format classification and clamp limits are functions.
  `sun50i_fmt_setup` is a method with its `limit[3]` values as a sequence (`fmt.dfy`).
- **The DesignWare HDMI glue** (the decision parts of
  `sun8i_dw_hdmi.c`):
  - colorimetry to YCbCr encoding;
  - the input bus format;
  - the TMDS divisor;
  - mode validation and the quirk tables;
  - bind/unbind as an enable/unwind sequence on the `Hdmi` class
    (`hdmi.dfy`).

Shared pieces:

- `regmap.dfy` is the register-access log. `Value` folds it into what a
  register holds, and `RegMap` is the mutable map the drivers write.
- `nesting.dfy` is a generic acquire/release log with a stack checker.
  `WellNested` means every resource taken is released, last taken first
  released.
- `sunxi_engine.dfy` holds the engine state: output bus format, encoding
  and registers.
- `error_codes.dfy` holds the Linux errno values.
- `wrappers.dfy` holds `Option`.

Foreign calls are parameters.

- The I2C transfers are `Reply` values and byte counts.
- Regulator, GPIO, pinctrl, adapter and node lookups are the fields of
  `Platform` (q8) and `BindEnv` (HDMI). Each field is either the value
  obtained or an error code.
- `sun8i_channel_base`, `SUN8I_MIXER_SIZE`, the blender CSC register
  addresses and `SUN8I_MIXER_BLEND_COLOR_BLACK` come from
  `sun8i_mixer.h`, which is not part of this model. They are parameters
  as well.

Three behaviours of the code are easy to misread; the model keeps all three:

- **A failed probe is never reported.** The comment at
  q8-hardwaremgr.c:154 names three outcomes of a probe: 0, `-ETIMEDOUT`
  for a stuck bus, and `-ENODEV`. Yet `q8_hardwaremgr_do_probe` turns
  every non-zero probe result into 0 (q8-hardwaremgr.c:484-488), which
  includes a stuck bus and a failed client allocation (`-ENOMEM`). The
  model returns 0, as the code does (`Q8Manager.ProbeFailureIsNotAnError`,
  `Q8Manager.TimeoutSwallowed`). The return value that forgives only
  `-ENODEV` is `Q8Manager.DoProbeRetReporting` (see Findings).
- **An unknown variant keeps its number.** For a variant number the
  tables do not know, the variant functions apply the variant 0
  settings. `touchscreen_variant` keeps the unknown number, as the code
  does (`Q8Config.UnknownVariantActsAsZero`).
- **The AFBC update writes what the code computes.** `Afbc.AtomicUpdate`
  programs the block-size word with the width's block count alone and
  the global alpha as `alpha >> 16`, as sun50i_afbc.c:82-84 and 226 do.
  The corrected words are `Afbc.CorrectedWords`, used only by the lemma
  about them (see Findings).

## Model

| member | source | states |
|---|---|---|
| Q8Probes.Le32 | drivers/misc/q8-hardwaremgr.c:174-182 | le32_to_cpu is below 2^32, with the first byte received as its low byte and the last as its high byte |
| Q8Probes.Le32RoundTrip | drivers/misc/q8-hardwaremgr.c:174-182 | le32_to_cpu of the four bytes read is below 2^32, and re-encoding it least significant byte first gives back the bytes received |
| Q8Probes.Errno | drivers/misc/q8-hardwaremgr.c:154-161 | a probe returns 0 exactly when it found a chip and -ENODEV exactly when no chip answered |
| Q8Probes.ShortTransfer | drivers/misc/q8-hardwaremgr.c:179-180 | a transfer of the wrong length yields -ETIMEDOUT exactly when the bus returned -ETIMEDOUT, otherwise -ENODEV |
| Q8Probes.ProbeSilead | drivers/misc/q8-hardwaremgr.c:171-199 | one 4-byte block read of register 0xFC; chip id 0xa0820000 gives gsl1680_a082 and 0xb4820000 gives gsl1680_b482, both "silead,gsl1680"; any other full read -ENODEV; a short read follows the timeout rule |
| Q8Probes.ProbeEktf2127 | drivers/misc/q8-hardwaremgr.c:201-235 | the first transfer that does not move 4 bytes ends the probe: only the hello read, then the send of 0x53 0x63 0x00 0x00, then the response read are issued, each within the 4-byte buffer; the chip is found iff all three move 4 bytes and the response starts 0x52 0x63, and then it is ektf2127 with "elan,ektf2127"; otherwise -ETIMEDOUT iff the failing transfer timed out, else -ENODEV |
| Q8Probes.ProbeZet6251AsWritten | drivers/misc/q8-hardwaremgr.c:237-255 | as written: one receive of 24 bytes into a 4-byte buffer; a full packet means zet6251 with "zeitec,zet6251"; a short one -ETIMEDOUT iff the bus timed out, else -ENODEV |
| Q8Probes.ProbeZet6251 | drivers/misc/q8-hardwaremgr.c:237-255 | corrected: one receive of 24 bytes into a 24-byte buffer, with the as-written verdict: zet6251 with "zeitec,zet6251" for a full packet, whatever it holds; a short one -ETIMEDOUT iff the bus timed out, else -ENODEV |
| Q8Search.ClientVerdict | drivers/misc/q8-hardwaremgr.c:142-162 | probing one candidate yields -ENOMEM exactly when the dummy client cannot be created; a found chip has a known model |
| Q8Search.Search | drivers/misc/q8-hardwaremgr.c:164-169 | the addresses probed are a prefix of the candidates, in order; a found outcome names the address that answered |
| Q8Search.SearchStopsAtFirstAnswer | drivers/misc/q8-hardwaremgr.c:164-169 | every candidate before the last one probed answered -ENODEV; any other answer is returned at once; the result is -ENODEV iff every candidate answered -ENODEV, and then all were probed |
| Q8Search.CandidateOrder | drivers/misc/q8-hardwaremgr.c:257-267 | the addresses probed are a prefix of 0x40, 0x15, 0x76, and all three are probed when none answers |
| Q8Search.Record | drivers/misc/q8-hardwaremgr.c:156-157 | when a chip is found the record takes its model, its compatible string and the last address probed; otherwise the record is unchanged; delete_regulator is never touched; a known model keeps its compatible string |
| Q8Config.A082Variant | drivers/misc/q8-hardwaremgr.c:269-292 | the variant is the parameter unless AUTO, else the stored variant (0 after allocation); variant 1 is 480x800 with swap_x_y set and firmware gsl1680-a082-q8-a70.fw, any other is 1024x600 with swap_x_y kept and firmware gsl1680-a082-q8-700.fw; neither inversion setting changes |
| Q8Config.B482Variant | drivers/misc/q8-hardwaremgr.c:294-316 | the variant is the parameter unless AUTO, else the stored variant (0 after allocation); the panel is always 960x640; the firmware is gsl1680-b482-q8-a70.fw exactly for variant 1, else gsl1680-b482-q8-d702.fw; inversion and swap_x_y are unchanged |
| Q8Config.UnknownVariantActsAsZero | drivers/misc/q8-hardwaremgr.c:275-284 | a variant other than 1 gets exactly the variant 0 settings, while the number itself is kept |
| Q8Config.B482VariantsDifferInFirmwareOnly | drivers/misc/q8-hardwaremgr.c:300-315 | the two b482 variants differ only in the firmware name, and their firmware names differ |
| Q8Config.ApplyOverrides | drivers/misc/q8-hardwaremgr.c:363-379 | each parameter that is not -1 replaces its setting and each parameter left at -1 keeps it; a firmware name replaces the setting and a NULL one keeps it; the variant is never changed |
| Q8Config.Resolve | drivers/misc/q8-hardwaremgr.c:348-379 | an unknown model leaves the settings alone; the gsl1680 models end with the variant parameter, or the stored variant when it is -1, and always a firmware name; ektf2127 and zet6251 keep the stored variant |
| Q8Config.OverridesWin | drivers/misc/q8-hardwaremgr.c:348-379 | for a known model each final setting is its parameter when that is not -1 (the firmware name when not NULL), and otherwise the value the model's variant table chose (the settings as they were for ektf2127 and zet6251) |
| Q8Config.OverridesIdempotent | drivers/misc/q8-hardwaremgr.c:363-379 | merging the same parameters twice equals merging them once; all-auto parameters change nothing |
| Q8Config.SingleVariantModels | drivers/misc/q8-hardwaremgr.c:357-360 | for ektf2127 and zet6251 the variant parameter changes nothing and the stored variant is kept |
| Q8Config.U32 | drivers/misc/q8-hardwaremgr.c:123 | the u32 cell of an int is below 2^32 and equals the int when the int is in range |
| Q8Config.ChangesetHeader | drivers/misc/q8-hardwaremgr.c:111-137 | no changeset for an unknown model or a missing node; otherwise it starts with reg, compatible and status "okay", and removes vddio-supply iff delete_regulator is set and the property exists |
| Q8Config.Changeset | drivers/misc/q8-hardwaremgr.c:111-137 | apply_common with the additions of apply_touchscreen (lines 385-409): no changeset iff the model is unknown or the node is missing; otherwise between 3 and 10 changes, the first setting reg to the address |
| Q8Config.ChangesetGathers | drivers/misc/q8-hardwaremgr.c:385-409 | for a known model and a present node the changeset is exactly the present entries, in driver order |
| Q8Config.ChangesetDistinct | drivers/misc/q8-hardwaremgr.c:385-409 | no property is named twice in a changeset |
| Q8Config.ChangesetHasEntry | drivers/misc/q8-hardwaremgr.c:390-407 | each possible change is in the changeset iff its condition holds |
| Q8Config.ChangesetSettings | drivers/misc/q8-hardwaremgr.c:390-407 | size-x, size-y, inverted-x, inverted-y and swapped-x-y are added iff their setting is non-zero; a set firmware name is added |
| Q8Config.ChangesetWithoutFirmware | drivers/misc/q8-hardwaremgr.c:405-407 | without a firmware name no firmware-name property is added |
| Q8Manager.SearchEvents | drivers/misc/q8-hardwaremgr.c:150-159 | every dummy client created during the search is unregistered, and nothing else is acquired |
| Q8Manager.AttemptsDevice | drivers/misc/q8-hardwaremgr.c:469-482 | after the probing part the record holds the chip the deciding search found (the second search when the regulator was enabled for it, else the first), with its compatible string and address, and is unchanged otherwise; delete_regulator is set besides iff a regulator exists and no second attempt was due |
| Q8Manager.DoProbeDevice | drivers/misc/q8-hardwaremgr.c:414-515 | after do_probe the record holds the chip the deciding search found, with its compatible string and address, when setup succeeded; otherwise model, compatible and address are unchanged |
| Q8Manager.DoProbeRecord | drivers/misc/q8-hardwaremgr.c:469-488 | from an unknown touchscreen, a model is known after do_probe iff setup succeeded and the first search, or the second one when it ran, found a chip |
| Q8Manager.DoProbeNested | drivers/misc/q8-hardwaremgr.c:414-515 | on every path do_probe releases all it takes, last taken first released |
| Q8Manager.AttemptsNested | drivers/misc/q8-hardwaremgr.c:469-482 | the two probing rounds, the second inside the regulator's enable/disable, are well nested |
| Q8Manager.SearchThree | drivers/misc/q8-hardwaremgr.c:262-266 | the three PROBE_CLIENT steps give the search's return value, record and events, stopping at the first answer other than -ENODEV |
| Q8Manager.AttemptsHas | drivers/misc/q8-hardwaremgr.c:469-482 | the probing part acquires nothing but the regulator enable, and that exactly when a second attempt runs |
| Q8Manager.DoProbeDrives | drivers/misc/q8-hardwaremgr.c:462-478 | the power GPIO is driven high iff it exists and setup got that far; the regulator is enabled iff the second, powered attempt is made |
| Q8Manager.DoProbeHas | drivers/misc/q8-hardwaremgr.c:446-478 | the acquisition of the GPIO drive and of the regulator enable, by the conditions of each step |
| Q8Manager.DoProbeRestores | drivers/misc/q8-hardwaremgr.c:480-492 | the GPIO is driven low again iff it was driven high, and the regulator is disabled iff it was enabled |
| Q8Manager.DeleteRegulatorIff | drivers/misc/q8-hardwaremgr.c:481-482 | delete_regulator ends up set iff setup succeeds, a regulator exists and the first attempt found the chip |
| Q8Manager.ProbeFailureIsNotAnError | drivers/misc/q8-hardwaremgr.c:484-488 | once setup and the regulator enable succeed, do_probe returns 0 whatever the bus answers |
| Q8Manager.TimeoutSwallowed | drivers/misc/q8-hardwaremgr.c:484-488 | a bus that times out in both attempts still makes do_probe return 0, with no chip recorded |
| Q8Manager.BusFaultsReported | drivers/misc/q8-hardwaremgr.c:484-488 | corrected: with only -ENODEV forgiven, a timeout or a failed client allocation in the deciding search is returned, 0 is returned iff a chip was found or none answered, and this differs from the as-written value exactly in those two fault cases |
| Q8Manager.ChangesetOnlyAfterDetection | drivers/misc/q8-hardwaremgr.c:529-534 | a changeset is applied iff the allocation succeeds, do_probe returns 0 and a touchscreen was found |
| Q8Manager.HardwareMgr.constructor | drivers/misc/q8-hardwaremgr.c:522-527 | kzalloc: an unknown device, all settings zero or NULL, nothing held |
| Q8Manager.HardwareMgr.ProbeClient | drivers/misc/q8-hardwaremgr.c:142-162 | returns the probe's verdict; the address is recorded only on success; the dummy client is unregistered |
| Q8Manager.HardwareMgr.ProbeTouchscreen | drivers/misc/q8-hardwaremgr.c:257-267 | returns the search's verdict, records the chip that decided it, and leaves the search's nested events |
| Q8Manager.HardwareMgr.ApplyA082Variant | drivers/misc/q8-hardwaremgr.c:269-292 | the settings become the a082 table's entry for the variant |
| Q8Manager.HardwareMgr.ApplyB482Variant | drivers/misc/q8-hardwaremgr.c:294-316 | the settings become the b482 table's entry for the variant |
| Q8Manager.HardwareMgr.OverrideSettings | drivers/misc/q8-hardwaremgr.c:363-379 | the settings become the override merge of the old settings |
| Q8Manager.HardwareMgr.BuildChangeset | drivers/misc/q8-hardwaremgr.c:385-409 | the changeset built step by step is the specified changeset |
| Q8Manager.HardwareMgr.ApplyTouchscreen | drivers/misc/q8-hardwaremgr.c:343-412 | the settings become the variant table plus overrides for the model, and the changeset applied is the one for those settings |
| Q8Manager.HardwareMgr.Attempts | drivers/misc/q8-hardwaremgr.c:469-488 | return value, record and events of the two probing rounds |
| Q8Manager.HardwareMgr.PowerAndProbe | drivers/misc/q8-hardwaremgr.c:446-498 | a regulator or GPIO failure is returned with the record untouched; otherwise the probing part's result and record |
| Q8Manager.HardwareMgr.DoProbe | drivers/misc/q8-hardwaremgr.c:414-515 | returns do_probe's value, leaves the record do_probe specifies, and appends its events; node and pins are released on exit |
| Q8Manager.Probe | drivers/misc/q8-hardwaremgr.c:517-540 | returns -ENOMEM when allocation fails, else do_probe's value; applies the changeset only after a successful do_probe |
| Csc.CcscOffsetsDistinct | drivers/gpu/drm/sun4i/sun8i_csc.c:13-17 | the two video layers of every mixer layout have different CSC units, and the five unit offsets are distinct |
| Csc.CscAddressesDistinct | drivers/gpu/drm/sun4i/sun8i_csc.h:20-21 | coefficient registers are distinct for distinct indices, and none is the control register |
| Csc.RangeIndex | drivers/gpu/drm/sun4i/sun8i_csc.c:250 | the range index is within the table's two rows |
| Csc.EncodingIndex | drivers/gpu/drm/sun4i/sun8i_csc.c:288 | the encoding index is within the three encodings |
| Csc.Yuv2Rgb | drivers/gpu/drm/sun4i/sun8i_csc.c:25-50 | for BT601 and BT709 the table has 12 words; BT2020 has no row |
| Csc.YvuSlotInvolution | drivers/gpu/drm/sun4i/sun8i_csc.c:263-270 | the YVU slot map is a self-inverse permutation of 0..11 that fixes exactly the slots 0 and 3 of each row |
| Csc.YvuStores | drivers/gpu/drm/sun4i/sun8i_csc.c:263-271 | after the YVU loop coefficient register j holds the table word of slot YvuSlot(j) |
| Csc.BulkStores | drivers/gpu/drm/sun4i/sun8i_csc.c:258-259 | the bulk write stores table word j in coefficient register j |
| Csc.CoefficientsOnly | drivers/gpu/drm/sun4i/sun8i_csc.c:258-271 | neither coefficient path touches a register outside the twelve coefficients |
| Csc.WriteSwapped | drivers/gpu/drm/sun4i/sun8i_csc.c:263-271 | the loop issues exactly the twelve YVU writes, in order |
| Csc.CscSetup | drivers/gpu/drm/sun4i/sun8i_csc.c:241-280 | issues exactly the writes of sun8i_csc_setup |
| Csc.CscSetupControl | drivers/gpu/drm/sun4i/sun8i_csc.c:252-279 | RGB writes only CTRL = 0; an unknown format type writes nothing; YUV and YVU end with CTRL = EN and write nothing after it |
| Csc.CscSetupCoefficients | drivers/gpu/drm/sun4i/sun8i_csc.c:250-271 | YUV leaves yuv2rgb[range][encoding] in the coefficients, YVU leaves it column-swapped |
| Csc.YuvSetupStores | drivers/gpu/drm/sun4i/sun8i_csc.c:256-279 | the coefficient registers after either branch, for any 12-word table |
| Csc.De3YuvTable | drivers/gpu/drm/sun4i/sun8i_csc.c:282-295 | a table, when there is one, has 12 words |
| Csc.De3YuvTableChoice | drivers/gpu/drm/sun4i/sun8i_csc.c:282-295 | an RGB888 output takes yuv2rgb_de3[range][in encoding] whatever the output encoding; otherwise NULL iff limited range with equal encodings, else yuv2yuv_de3 |
| Csc.NullTableIsIdentity | drivers/gpu/drm/sun4i/sun8i_csc.c:290-292 | whenever the lookup returns NULL, the table it skips is the identity matrix |
| Csc.FullRangeIsNotIdentity | drivers/gpu/drm/sun4i/sun8i_csc.c:132-239 | a full-range table with equal encodings is not the identity, so the shortcut must be limited to limited range |
| Csc.De3CcscSetup | drivers/gpu/drm/sun4i/sun8i_csc.c:297-359 | issues exactly the writes of sun8i_de3_ccsc_setup |
| Csc.De3Branches | drivers/gpu/drm/sun4i/sun8i_csc.c:311-355 | which table each format type writes, and when the layer's converter stays off |
| Csc.De3Shape | drivers/gpu/drm/sun4i/sun8i_csc.c:311-358 | for a known format type the setup is its coefficient writes followed by one update of the control register |
| Csc.EnableBitOnly | drivers/gpu/drm/sun4i/sun8i_csc.c:357-358 | regmap_update_bits with one mask sets or clears that bit and keeps every other bit |
| Csc.De3EnableBit | drivers/gpu/drm/sun4i/sun8i_csc.c:307-358 | the setup changes only the layer's enable bit; it is cleared for RGB to RGB888 and for YUV with an identity table, and set otherwise; an unknown type changes nothing |
| Csc.De3YvuCoefficients | drivers/gpu/drm/sun4i/sun8i_csc.c:329-349 | the DE3 YVU path leaves the chosen table, or the same-encoding yuv2yuv_de3 table, column-swapped in the coefficients |
| Csc.SetCcsc | drivers/gpu/drm/sun4i/sun8i_csc.c:361-380 | issues exactly the writes of sun8i_csc_set_ccsc |
| Csc.SetCcscScope | drivers/gpu/drm/sun4i/sun8i_csc.c:368-379 | a DE3 mixer runs the DE3 setup; otherwise a layer at or past vi_num writes nothing and a video layer runs the DE2 setup on its unit |
| Afbc.FormatCodes | drivers/gpu/drm/sun4i/sun50i_afbc.c:39-51 | each format constant is the fourcc code of its name |
| Afbc.FormatsDistinct | drivers/gpu/drm/sun4i/sun50i_afbc.c:39-51 | the ten formats are distinct, so each case of the switch is reachable |
| Afbc.AfbcLayout | drivers/gpu/drm/sun4i/sun50i_afbc.c:35-55 | a compressed layout exists exactly for the six RGB and four YUV formats |
| Afbc.AfbcLayoutBits | drivers/gpu/drm/sun4i/sun50i_afbc.c:35-57 | the layout is an Arm modifier with 16x16 blocks, split and sparse, with YTR exactly for RGB, and is neither LINEAR nor INVALID |
| Afbc.FormatModSupported | drivers/gpu/drm/sun4i/sun50i_afbc.c:16-58 | an accepted modifier is never INVALID, and an accepted modifier other than LINEAR needs DE3 and one of the ten formats the decoder reads |
| Afbc.FormatModSupportedSpec | drivers/gpu/drm/sun4i/sun50i_afbc.c:16-58 | INVALID never; LINEAR iff the format is not one of the three YUV-only ones; any other modifier never on DE2, and on DE3 exactly the format's one layout |
| Afbc.InputCode | drivers/gpu/drm/sun4i/sun50i_afbc.c:122-199 | an input code exists exactly for the ten supported formats |
| Afbc.InputCodeInjective | drivers/gpu/drm/sun4i/sun50i_afbc.h:13-22 | distinct formats get distinct codes, and every code fits the six-bit IN_FMT field |
| Afbc.CtlFieldsLayout | drivers/gpu/drm/sun4i/sun50i_afbc.h:25-31 | the alpha modes 0, 1, 2 sit in bits 2-3 and FBD_EN is bit 0 |
| Afbc.SizeWordRoundTrip | drivers/gpu/drm/sun4i/sun50i_afbc.h:33-35 | for sizes 1..65536 the high half holds height - 1 and the low half width - 1 |
| Afbc.SizeWordZeroWidth | drivers/gpu/drm/sun4i/sun50i_afbc.h:35 | a zero width wraps to all ones and wipes the height field |
| Afbc.PairWordRoundTrip | drivers/gpu/drm/sun4i/sun50i_afbc.h:41-47 | a top/left pair below 2^16 is recovered from its two halves |
| Afbc.BlkSizeWordAsWritten | drivers/gpu/drm/sun4i/sun50i_afbc.c:82-84 | as written: the word is only the width's block count |
| Afbc.BlkSizeLosesHeight | drivers/gpu/drm/sun4i/sun50i_afbc.c:82-84 | the word is the same for every height; for 1920x1080 its height field is 0 instead of 68 |
| Afbc.BlocksCover | drivers/gpu/drm/sun4i/sun50i_afbc.c:82-83 | DIV_ROUND_UP(n, 16) is the least number of 16-pixel blocks covering n |
| Afbc.BlkSizeRoundTrip | drivers/gpu/drm/sun4i/sun50i_afbc.h:37-39 | corrected: the high half holds the height's block count and the low half the width's |
| Afbc.FmtWordFields | drivers/gpu/drm/sun4i/sun50i_afbc.c:106-200 | YUV_TRAN iff RGB; IN_FMT is the format's code; SBS1/SBS0 are 2/1 for YUYV and YUV420_10BIT, 3/2 for Y210, 1/1 otherwise |
| Afbc.FmtWordBits | drivers/gpu/drm/sun4i/sun50i_afbc.h:50-53 | the four FBD_FMT fields read back as packed |
| Afbc.DefaultWhite | drivers/gpu/drm/sun4i/sun50i_afbc.c:122-199 | each default colour component fits its 16-bit field |
| Afbc.DefaultIsWhite | drivers/gpu/drm/sun4i/sun50i_afbc.c:94-199 | the default colour is white at the format's depth: alpha at its maximum for the format's alpha depth (0 when the format has no alpha), first component at its maximum, the other two one above it for RGB and at mid-scale for YUV |
| Afbc.RgbWhite | drivers/gpu/drm/sun4i/sun50i_afbc.c:123-170 | the RGB formats' defaults are white at their depths |
| Afbc.YuvWhite | drivers/gpu/drm/sun4i/sun50i_afbc.c:171-198 | the YUV formats' defaults are white at their depths |
| Afbc.DefaultColorFields | drivers/gpu/drm/sun4i/sun50i_afbc.h:69-75 | DEFAULT_COLOR0 holds alpha high and Y/R low; DEFAULT_COLOR1 holds V/B high and U/G low |
| Afbc.AddressSplit | drivers/gpu/drm/sun4i/sun50i_afbc.c:210-211 | the two address registers together give back the 64-bit address |
| Afbc.CtlWordAsWritten | drivers/gpu/drm/sun4i/sun50i_afbc.c:226-232 | as written: the global-alpha byte is always zero, the decoder enable and clock gate bits are set, and the alpha mode is per-pixel for an opaque plane and combined otherwise |
| Afbc.GlobalAlphaLost | drivers/gpu/drm/sun4i/sun50i_afbc.c:226 | alpha >> 16 of a 16-bit alpha is always 0, so a half transparent plane gets global alpha 0 instead of 0x80 |
| Afbc.CtlWordFields | drivers/gpu/drm/sun4i/sun50i_afbc.c:226-232 | corrected: FBD_EN and CLK_GATE set, FCEN clear, global alpha the top byte of alpha (0xff when opaque), alpha mode PIXEL iff opaque, else COMBINED |
| Afbc.Program | drivers/gpu/drm/sun4i/sun50i_afbc.c:78-232 | the update is thirteen register writes |
| Afbc.UpdateWords | drivers/gpu/drm/sun4i/sun50i_afbc.c:75-232 | as written: the overlay size equals the source size, both crops are at the origin, the background is the mixer's black, the block-size word is the width's block count alone, and the control word switches the decoder on with global alpha 0 |
| Afbc.UpdateWrites | drivers/gpu/drm/sun4i/sun50i_afbc.c:80-232 | thirteen single-register writes, the last one to FBD_CTL with the control word |
| Afbc.AtomicUpdate | drivers/gpu/drm/sun4i/sun50i_afbc.c:60-233 | appends exactly the thirteen writes of sun50i_afbc_atomic_update to the register log, with the block-size and control words as the source computes them |
| Afbc.WordsOfPlane | drivers/gpu/drm/sun4i/sun50i_afbc.c:75-232 | the words computed step by step, including the width-only block-size word and the control word with alpha >> 16, are the plane's words as written |
| Afbc.EnabledLast | drivers/gpu/drm/sun4i/sun50i_afbc.c:232 | the decoder is switched on by the last write, and no earlier write touches FBD_CTL |
| Afbc.ProgramControl | drivers/gpu/drm/sun4i/sun50i_afbc.c:200-232 | FBD_CTL and FBD_FMT end up holding the words written to them |
| Afbc.ProgramSizes | drivers/gpu/drm/sun4i/sun50i_afbc.c:80-215 | FBD_SIZE and OVL_SIZE end up holding the words written to them |
| Afbc.ProgramBlocks | drivers/gpu/drm/sun4i/sun50i_afbc.c:84 | FBD_BLK_SIZE ends up holding the word written to it |
| Afbc.ProgramAddress | drivers/gpu/drm/sun4i/sun50i_afbc.c:210-211 | LADDR and HADDR end up holding the words written to them |
| Afbc.UpdateEnables | drivers/gpu/drm/sun4i/sun50i_afbc.c:200-232 | after an update the decoder is on with its clock ungated, per-pixel alpha alone is used iff the plane is opaque, the global alpha is 0 whatever the plane's alpha, and FBD_FMT holds the format's word |
| Afbc.UpdateSizes | drivers/gpu/drm/sun4i/sun50i_afbc.c:75-84 | after an update FBD_SIZE and OVL_SIZE hold the source size minus one, and BLK_SIZE only the number of 16-pixel block columns: for widths up to 65536 its block-row half is 0 |
| Afbc.UpdateAddress | drivers/gpu/drm/sun4i/sun50i_afbc.c:208-211 | after an update the two address registers hold the buffer address |
| Afbc.CorrectedUpdate | drivers/gpu/drm/sun4i/sun50i_afbc.c:82-84 | corrected: with `val |=` and `alpha >> 8`, BLK_SIZE holds both block counts, the global alpha is the top byte of the plane alpha, the decoder is still enabled, and FBD_FMT is the same as written |
| Afbc.Disable | drivers/gpu/drm/sun4i/sun50i_afbc.c:235-240 | writes 0 to the channel's FBD_CTL and nothing else |
| Afbc.DisableTurnsOff | drivers/gpu/drm/sun4i/sun50i_afbc.c:239 | after disabling, the enable bit is clear |
| Fmt.LimitRoundTrip | drivers/gpu/drm/sun4i/sun50i_fmt.h:21 | for bounds below 2^16 both halves of SUN50I_FMT_LIMIT are recovered |
| Fmt.FmtRegistersDistinct | drivers/gpu/drm/sun4i/sun50i_fmt.h:11-25 | the nine registers are distinct, the limit registers are consecutive words, and the colour-space codes are distinct |
| Fmt.IsTenBit | drivers/gpu/drm/sun4i/sun50i_fmt.c:10-21 | a 10-bit format is none of the four 8-bit bus formats |
| Fmt.Colorspace | drivers/gpu/drm/sun4i/sun50i_fmt.c:23-35 | YUV420 exactly for the two UYYVYY formats, YUV422 exactly for the two UYVY formats, YUV444/RGB otherwise |
| Fmt.LimitsOf | drivers/gpu/drm/sun4i/sun50i_fmt.c:55-67 | one clamp word per channel |
| Fmt.FmtSetup | drivers/gpu/drm/sun4i/sun50i_fmt.c:37-74 | appends exactly the formatter's write sequence for the format to the register log |
| Fmt.ProgramIssued | drivers/gpu/drm/sun4i/sun50i_fmt.c:46-73 | the ten single writes in a row are the formatter's program |
| Fmt.FmtDisabledWhileProgrammed | drivers/gpu/drm/sun4i/sun50i_fmt.c:46-73 | CTRL is written 0 first and 1 last, and no write in between touches it |
| Fmt.ProgramControl | drivers/gpu/drm/sun4i/sun50i_fmt.c:46-73 | CTRL, SIZE, SWAP and DEPTH end up holding the words written to them, CTRL its second word |
| Fmt.ProgramData | drivers/gpu/drm/sun4i/sun50i_fmt.c:52-53 | FORMAT and COEF end up holding the words written to them |
| Fmt.ProgramLimits | drivers/gpu/drm/sun4i/sun50i_fmt.c:69-71 | the three limit registers end up holding the three limit words |
| Fmt.FmtRegisters | drivers/gpu/drm/sun4i/sun50i_fmt.c:37-74 | after setup the unit is on; DEPTH is 1 iff the format is 10-bit; SWAP and COEF are 0; FORMAT is the colour space; each channel has its clamp word |
| Fmt.FmtClamps | drivers/gpu/drm/sun4i/sun50i_fmt.c:55-67 | each clamp word holds its channel's range: 64..940/960 when subsampled, 0..1023 for 10-bit 4:4:4, 0..1021 otherwise |
| DwHdmi.EncodingMapping | drivers/gpu/drm/sun4i/sun8i_dw_hdmi.c:82-107 | BT601 exactly for the five 601 colorimetries, BT2020 exactly for the three BT2020 and two DCI-P3 ones, BT709 for the rest, unknown values included |
| DwHdmi.EncodingFor | drivers/gpu/drm/sun4i/sun8i_dw_hdmi.c:82-107 | NO_DATA selects BT709, and BT601 or BT2020 is selected only for colorimetries from 1 to 15 |
| DwHdmi.AtomicCheck | drivers/gpu/drm/sun4i/sun8i_dw_hdmi.c:69-116 | returns 0, sets the encoding by the mapping and the engine format to the output bus format, and sets mode_changed when the HDR metadata differs, never clearing it |
| DwHdmi.GetInputBusFmts | drivers/gpu/drm/sun4i/sun8i_dw_hdmi.c:118-151 | one input format equal to the output format iff the engine lists it and the allocation succeeds, otherwise none |
| DwHdmi.TmdsRateExact | drivers/gpu/drm/sun4i/sun8i_dw_hdmi.c:174-184 | the divisor is 2 exactly for the two UYYVYY formats and 1 otherwise, and the rate times the divisor is the pixel clock in Hz |
| DwHdmi.TmdsRate | drivers/gpu/drm/sun4i/sun8i_dw_hdmi.c:174-184 | the rate is the pixel clock in Hz or exactly half of it, and lies between 0 and the pixel clock for a non-negative clock |
| DwHdmi.MatchData | drivers/gpu/drm/sun4i/sun8i_dw_hdmi.c:467-477 | the match data returned is that of an entry with the compatible string; none when no entry has it |
| DwHdmi.ModeValidLimits | drivers/gpu/drm/sun4i/sun8i_dw_hdmi.c:192-221 | a mode is accepted iff its clock is at most 297000 kHz (A83T) or 594000 kHz (H6); on the H6 neither the CRTC clock nor 4:2:0 changes the verdict |
| DwHdmi.ModeValidA83t | drivers/gpu/drm/sun4i/sun8i_dw_hdmi.c:191-200 | MODE_OK iff the mode clock is at most 297000 kHz |
| DwHdmi.ModeValidH6 | drivers/gpu/drm/sun4i/sun8i_dw_hdmi.c:202-221 | MODE_OK iff the mode clock is at most 594000 kHz, whatever the CRTC clock and 4:2:0 sampling |
| DwHdmi.H6AcceptsA83tModes | drivers/gpu/drm/sun4i/sun8i_dw_hdmi.c:197-218 | every mode the A83T accepts, the H6 accepts |
| DwHdmi.InfoframesOnlyOnH6 | drivers/gpu/drm/sun4i/sun8i_dw_hdmi.c:458-475 | DRM infoframes and 4:2:0 are enabled exactly for the H6 compatible, and the A83T validator goes with the A83T compatible |
| DwHdmi.BindRetZeroIff | drivers/gpu/drm/sun4i/sun8i_dw_hdmi.c:261-428 | bind returns 0 exactly when every step succeeds |
| DwHdmi.DeferBeforeEnable | drivers/gpu/drm/sun4i/sun8i_dw_hdmi.c:301-310 | with no CRTC found, bind returns -EPROBE_DEFER and has enabled nothing |
| DwHdmi.BindSuccessOrder | drivers/gpu/drm/sun4i/sun8i_dw_hdmi.c:327-375 | a successful bind enables regulator, reset deassert, TMDS clock, PHY, core and bridge in that order and leaves them all on |
| DwHdmi.BindFailureUnwinds | drivers/gpu/drm/sun4i/sun8i_dw_hdmi.c:415-427 | a failed bind switches off everything it switched on, in reverse order |
| DwHdmi.BindUnbindNested | drivers/gpu/drm/sun4i/sun8i_dw_hdmi.c:430-441 | unbind after a successful bind switches everything off in reverse order |
| DwHdmi.Hdmi.Bind | drivers/gpu/drm/sun4i/sun8i_dw_hdmi.c:261-428 | returns bind's value, appends its events, leaves on exactly what a successful bind enables, and fills the platform data from the quirks |
| DwHdmi.Hdmi.PowerUp | drivers/gpu/drm/sun4i/sun8i_dw_hdmi.c:327-337 | the regulator and reset steps with their unwinding |
| DwHdmi.Hdmi.ClockUp | drivers/gpu/drm/sun4i/sun8i_dw_hdmi.c:339-347 | the TMDS clock and PHY steps with their unwinding |
| DwHdmi.Hdmi.Register | drivers/gpu/drm/sun4i/sun8i_dw_hdmi.c:349-417 | encoder init, dw_hdmi_probe and bridge registration, and their unwinding |
| DwHdmi.Hdmi.Unbind | drivers/gpu/drm/sun4i/sun8i_dw_hdmi.c:430-441 | switches off all six resources in reverse order |
| DwHdmi.Hdmi.AtomicModeSet | drivers/gpu/drm/sun4i/sun8i_dw_hdmi.c:164-185 | the TMDS clock is set to the rate for the engine format and the CRTC clock |

## Left out

- Timing: the `msleep` calls of q8-hardwaremgr.c:221 and 260 only wait, and are not modelled.
- Logging: all `dev_info`, `dev_warn`, `dev_err` and `DRM_*` output, including `q8_hardwaremgr_issue_gsl1680_warning` (q8-hardwaremgr.c:318-341), which only prints advice.
- Module parameters (q8-hardwaremgr.c:38-64) are one immutable `Overrides` record passed in. `q8_hardwaremgr_init` (q8-hardwaremgr.c:549-577) only registers the platform device and is not modelled. The SoC type it passes is stored but never read.
- `kfree` and `drmm_kzalloc` are not modelled beyond their failure. Memory is not modelled.
- The I2C, regulator, GPIO, pinctrl, adapter and device-tree primitives are inputs. The model records which resources are taken and released, not what the hardware does.
- The regmap, clock and reset calls are entries in a log, not implementations.
- DRM/CEC plumbing in sun8i_dw_hdmi.c is not modelled:
  - bridge attach/detach (lines 33-48);
  - hpd_notify, EDID and CEC (lines 50-67, 404-411);
  - the connector properties (lines 389-402);
  - probe/remove and init/exit (lines 448-513).
  The notifier registration is kept only as a step that can fail with -ENOMEM.
- `sun8i_dw_hdmi_find_possible_crtcs` (sun8i_dw_hdmi.c:223-259) walks the of_graph. Its result is an input.
- GEM/DMA lookup in AFBC: the buffer's bus address is an input. The model keeps the addition of `offsets[0]` (64-bit wrap-around) and the low/high split.
- `sun8i_channel_base`, `SUN8I_MIXER_SIZE`, the DE3 blender CSC register addresses and `SUN8I_MIXER_BLEND_COLOR_BLACK` are defined in `sun8i_mixer.h`, which is not part of this model. They are parameters.
- Fmt.FmtSetup: takes the `SUN8I_MIXER_SIZE(width, height)` word rather than the width and height. The `limit[3]` stack array is a sequence value, since nothing else can see it.
- Csc.CscSetup: requires an encoding other than BT2020. `yuv2rgb` has only the BT601 and BT709 rows and is indexed before the format is examined, so a BT2020 encoding reads past the table. The model cannot give that read a value.
- Csc.SetCcsc: on a non-DE3 mixer, a video layer must be 0 or 1 and the encoding must not be BT2020, for the same indexing reasons.
- The CSC coefficient values are constants with no arithmetic done on them. Only their identity-matrix property is proved.
- DwHdmi.TmdsRate: `crtc_clock * 1000` is unbounded here; the source computes it in a C `int`/`unsigned long`. A clock beyond 2^31/1000 kHz is not a real mode.
- DwHdmi.Hdmi.Bind: the quirks record is always present. `of_device_get_match_data` (sun8i_dw_hdmi.c:299) can return NULL in the source, but the driver binds only through its own match table, whose two entries both carry quirks, so the NULL case is not modelled.
- DwHdmi.ModeValidH6: the halved 4:2:0 rate is computed but unused in the source. The model keeps the computation, and its lemma shows the verdict does not depend on it.

## Findings

| source | as written | input that shows it | evidently intended | confidence | as-written member | corrected member |
|---|---|---|---|---|---|---|
| drivers/misc/q8-hardwaremgr.c:248 | `i2c_master_recv(client, buff, 24)` into `unsigned char buff[4]` (line 240) | any zet6251 that answers with a full 24-byte finger packet: 20 bytes land past the buffer | a buffer of at least 24 bytes | high, not executed | Q8Probes.ProbeZet6251AsWritten | Q8Probes.ProbeZet6251 |
| drivers/gpu/drm/sun4i/sun50i_afbc.c:82-84 | the second `val =` overwrites the height field set by the first | a 1920x1080 source: BLK_SIZE holds 120 blocks wide and 0 high instead of 68 | `val |=` on line 83, as for every other two-field register | high, not executed | Afbc.BlkSizeLosesHeight | Afbc.CorrectedUpdate |
| drivers/gpu/drm/sun4i/sun50i_afbc.c:226 | `SUN50I_FBD_CTL_GLB_ALPHA(state->alpha >> 16)` on the 16-bit plane alpha | alpha 0x8000 (half transparent): global alpha 0 instead of 0x80 | `state->alpha >> 8`, the top byte of the 16-bit alpha | medium (the width of `alpha` comes from the DRM headers), not executed | Afbc.GlobalAlphaLost | Afbc.CorrectedUpdate |
| drivers/misc/q8-hardwaremgr.c:484-488 | `else ret = 0;` after the probing, for every non-zero result | a bus that times out at 0x40 in both attempts: the probe comment (line 154) calls this "Bus stuck", yet do_probe returns 0 and the manager carries on as if no touchscreen were fitted | forgive only `-ENODEV` ("Not finding a device is not an error") and return `-ETIMEDOUT` and `-ENOMEM` | low (the comment at line 488 may mean every failure), not executed | Q8Manager.TimeoutSwallowed | Q8Manager.BusFaultsReported |
