/**
 * Touchscreen configuration of the q8 manager: the per-model variant tables,
 * the module-parameter overrides and the device-tree changeset that enables
 * the detected touchscreen node.
 */
module Q8Config {
  import opened Wrappers
  import opened ErrorCodes
  import opened Q8Probes
  import opened Q8Search

  /** The value of an integer module parameter that means "auto". */
  const AUTO := -1

  /** The touchscreen settings held in q8_hardwaremgr_data. */
  datatype Settings = Settings(
    variant: int, width: int, height: int,
    invertX: int, invertY: int, swapXY: int,
    fwName: Option<string>)

  /** kzalloc: every setting zero or NULL. */
  const INITIAL_SETTINGS := Settings(0, 0, 0, 0, 0, 0, None)

  /** The touchscreen_* module parameters; AUTO, or no firmware name, leaves
      the setting to the detected model. */
  datatype Overrides = Overrides(
    variant: int, width: int, height: int,
    invertX: int, invertY: int, swapXY: int,
    fwName: Option<string>)

  const NO_OVERRIDES := Overrides(AUTO, AUTO, AUTO, AUTO, AUTO, AUTO, None)

  /** q8_hardwaremgr_apply_gsl1680_a082_variant. */
  function A082Variant(s: Settings, variant: int): (r: Settings)
    ensures r.variant == if variant != AUTO then variant else s.variant
    ensures r.variant == 1 ==>
      r.width == 480 && r.height == 800 && r.swapXY == 1 && r.fwName == Some("gsl1680-a082-q8-a70.fw")
    ensures r.variant != 1 ==>
      r.width == 1024 && r.height == 600 && r.swapXY == s.swapXY && r.fwName == Some("gsl1680-a082-q8-700.fw")
    ensures r.invertX == s.invertX && r.invertY == s.invertY
  {
    var v := if variant != AUTO then variant else s.variant;
    if v == 1 then s.(variant := v, width := 480, height := 800, swapXY := 1, fwName := Some("gsl1680-a082-q8-a70.fw"))
    else s.(variant := v, width := 1024, height := 600, fwName := Some("gsl1680-a082-q8-700.fw"))
  }

  /** q8_hardwaremgr_apply_gsl1680_b482_variant. */
  function B482Variant(s: Settings, variant: int): (r: Settings)
    ensures r.variant == if variant != AUTO then variant else s.variant
    ensures r.width == 960 && r.height == 640
    ensures r.fwName == if r.variant == 1 then Some("gsl1680-b482-q8-a70.fw") else Some("gsl1680-b482-q8-d702.fw")
    ensures r.invertX == s.invertX && r.invertY == s.invertY && r.swapXY == s.swapXY
  {
    var v := if variant != AUTO then variant else s.variant;
    if v == 1 then s.(variant := v, width := 960, height := 640, fwName := Some("gsl1680-b482-q8-a70.fw"))
    else s.(variant := v, width := 960, height := 640, fwName := Some("gsl1680-b482-q8-d702.fw"))
  }

  /** Lines 363-379 of apply_touchscreen: each parameter other than AUTO,
      and a firmware name when one is given, replaces the setting; a
      parameter left at AUTO, and a missing firmware name, keep it. */
  function ApplyOverrides(s: Settings, o: Overrides): (r: Settings)
    ensures r.variant == s.variant
    ensures o.width != AUTO ==> r.width == o.width
    ensures o.width == AUTO ==> r.width == s.width
    ensures o.height != AUTO ==> r.height == o.height
    ensures o.height == AUTO ==> r.height == s.height
    ensures o.invertX != AUTO ==> r.invertX == o.invertX
    ensures o.invertX == AUTO ==> r.invertX == s.invertX
    ensures o.invertY != AUTO ==> r.invertY == o.invertY
    ensures o.invertY == AUTO ==> r.invertY == s.invertY
    ensures o.swapXY != AUTO ==> r.swapXY == o.swapXY
    ensures o.swapXY == AUTO ==> r.swapXY == s.swapXY
    ensures o.fwName.Some? ==> r.fwName == o.fwName
    ensures o.fwName.None? ==> r.fwName == s.fwName
  {
    Settings(
      s.variant,
      if o.width != AUTO then o.width else s.width,
      if o.height != AUTO then o.height else s.height,
      if o.invertX != AUTO then o.invertX else s.invertX,
      if o.invertY != AUTO then o.invertY else s.invertY,
      if o.swapXY != AUTO then o.swapXY else s.swapXY,
      if o.fwName.Some? then o.fwName else s.fwName)
  }

  /** The settings the switch of apply_touchscreen leaves for a model: its
      variant table for the two gsl1680 revisions, the settings as they are
      for every other model. */
  function VariantTable(model: Model, s: Settings, variant: int): Settings {
    match model
    case Gsl1680A082 => A082Variant(s, variant)
    case Gsl1680B482 => B482Variant(s, variant)
    case _ => s
  }

  /** The settings apply_touchscreen ends with for a detected model: the
      model's variant table, if it has one, then the overrides. An unknown
      model is left alone. */
  function Resolve(model: Model, s: Settings, o: Overrides): (r: Settings)
    ensures model == Unknown ==> r == s
    ensures model in {Ektf2127, Zet6251} ==> r.variant == s.variant
    ensures model in {Gsl1680A082, Gsl1680B482} ==> r.variant == if o.variant != AUTO then o.variant else s.variant
    ensures model in {Gsl1680A082, Gsl1680B482} ==> r.fwName.Some?
  {
    match model
    case Unknown => s
    case Gsl1680A082 => ApplyOverrides(A082Variant(s, o.variant), o)
    case Gsl1680B482 => ApplyOverrides(B482Variant(s, o.variant), o)
    case Ektf2127 => ApplyOverrides(s, o)
    case Zet6251 => ApplyOverrides(s, o)
  }

  /** Any variant other than 1 gets the variant 0 configuration, although
      the invalid number itself is what stays recorded. */
  lemma UnknownVariantActsAsZero(s: Settings, variant: int)
    ensures var a := A082Variant(s, variant);
      a.variant != 1 ==> a == A082Variant(s, 0).(variant := a.variant)
    ensures var b := B482Variant(s, variant);
      b.variant != 1 ==> b == B482Variant(s, 0).(variant := b.variant)
  {
  }

  /** The two gsl1680 b482 variants differ only in their firmware file. */
  lemma B482VariantsDifferInFirmwareOnly(s: Settings)
    ensures B482Variant(s, 0).(variant := 1, fwName := None) == B482Variant(s, 1).(fwName := None)
    ensures B482Variant(s, 0).fwName != B482Variant(s, 1).fwName
  {
  }

  /** For a detected model each setting is the parameter when it is not
      AUTO (the firmware name when one is given), and otherwise what the
      model's variant table chose; the variant is the table's. */
  lemma OverridesWin(model: Model, s: Settings, o: Overrides)
    requires model != Unknown
    ensures var r, t := Resolve(model, s, o), VariantTable(model, s, o.variant);
      && r.variant == t.variant
      && r.width == (if o.width != AUTO then o.width else t.width)
      && r.height == (if o.height != AUTO then o.height else t.height)
      && r.invertX == (if o.invertX != AUTO then o.invertX else t.invertX)
      && r.invertY == (if o.invertY != AUTO then o.invertY else t.invertY)
      && r.swapXY == (if o.swapXY != AUTO then o.swapXY else t.swapXY)
      && r.fwName == (if o.fwName.Some? then o.fwName else t.fwName)
  {
  }

  /** Applying the same overrides twice changes nothing more. */
  lemma OverridesIdempotent(s: Settings, o: Overrides)
    ensures ApplyOverrides(ApplyOverrides(s, o), o) == ApplyOverrides(s, o)
    ensures ApplyOverrides(s, NO_OVERRIDES) == s
  {
  }

  /** The ELAN and Zeitec controllers have a single configuration: the
      variant parameter has no effect on them. */
  lemma SingleVariantModels(model: Model, s: Settings, o: Overrides, variant: int)
    requires model == Ektf2127 || model == Zet6251
    ensures Resolve(model, s, o) == Resolve(model, s, o.(variant := variant))
    ensures Resolve(model, s, o).variant == s.variant
  {
  }

  /** A u32 device-tree cell holding a C int: its two's-complement bits. */
  function U32(x: int): (r: int)
    ensures 0 <= r < 0x1_0000_0000
    ensures 0 <= x < 0x1_0000_0000 ==> r == x
  {
    x % 0x1_0000_0000
  }

  /** The properties of the touchscreen node the manager touches. */
  datatype PropName =
    | Reg | Compatible | Status | VddioSupply
    | SizeX | SizeY | InvertedX | InvertedY | SwappedXY | FirmwareName

  /** The property names as they appear in the device tree. */
  function PropText(n: PropName): string {
    match n
    case Reg => "reg"
    case Compatible => "compatible"
    case Status => "status"
    case VddioSupply => "vddio-supply"
    case SizeX => "touchscreen-size-x"
    case SizeY => "touchscreen-size-y"
    case InvertedX => "touchscreen-inverted-x"
    case InvertedY => "touchscreen-inverted-y"
    case SwappedXY => "touchscreen-swapped-x-y"
    case FirmwareName => "firmware-name"
  }

  /** One entry of an of_changeset on the touchscreen node. */
  datatype ChangeOp =
    | AddU32(name: PropName, cell: int)
    | AddString(name: PropName, text: string)
    | UpdateString(name: PropName, text: string)
    | AddBool(name: PropName)
    | RemoveProperty(name: PropName)

  /** What the device tree holds: the touchscreen node, and on it the vddio-supply property. */
  datatype DeviceTree = DeviceTree(nodePresent: bool, vddioPresent: bool)

  /** A change the manager may make, and whether it makes it. */
  datatype Entry = Entry(present: bool, op: ChangeOp)

  /** The changes made, in order. */
  function Gather(es: seq<Entry>): (ops: seq<ChangeOp>)
    ensures |ops| <= |es|
    decreases |es|
  {
    if es == [] then [] else (if es[0].present then [es[0].op] else []) + Gather(es[1..])
  }

  /** Every change apply_common and apply_touchscreen may make, in their
      order: the address, the compatible string and status "okay" always;
      the removal of vddio-supply when the regulator turned out not to be
      needed and the property exists; then each setting that is non-zero or
      non-NULL. */
  function Entries(dev: Device, s: Settings, tree: DeviceTree): seq<Entry>
    requires Described(dev) && dev.model != Unknown
  {
    [ Entry(true, AddU32(Reg, U32(dev.addr))),
      Entry(true, AddString(Compatible, dev.compatible.value)),
      Entry(true, UpdateString(Status, "okay")),
      Entry(dev.deleteRegulator && tree.vddioPresent, RemoveProperty(VddioSupply)),
      Entry(s.width != 0, AddU32(SizeX, U32(s.width))),
      Entry(s.height != 0, AddU32(SizeY, U32(s.height))),
      Entry(s.invertX != 0, AddBool(InvertedX)),
      Entry(s.invertY != 0, AddBool(InvertedY)),
      Entry(s.swapXY != 0, AddBool(SwappedXY)),
      Entry(s.fwName.Some?, AddString(FirmwareName, if s.fwName.Some? then s.fwName.value else "")) ]
  }

  function Optional(present: bool, op: ChangeOp): seq<ChangeOp> {
    if present then [op] else []
  }

  /** The changeset apply_touchscreen applies, if any: none for an unknown
      model, none when apply_common finds no touchscreen node. */
  function Changeset(dev: Device, s: Settings, tree: DeviceTree): (cs: Option<seq<ChangeOp>>)
    requires Described(dev)
    ensures cs.None? <==> dev.model == Unknown || !tree.nodePresent
    ensures cs.Some? ==> 3 <= |cs.value| <= 10 && cs.value[0] == AddU32(Reg, U32(dev.addr))
  {
    if dev.model == Unknown || !tree.nodePresent then None
    else Some(
      [AddU32(Reg, U32(dev.addr)), AddString(Compatible, dev.compatible.value), UpdateString(Status, "okay")]
      + Optional(dev.deleteRegulator && tree.vddioPresent, RemoveProperty(VddioSupply))
      + Optional(s.width != 0, AddU32(SizeX, U32(s.width)))
      + Optional(s.height != 0, AddU32(SizeY, U32(s.height)))
      + Optional(s.invertX != 0, AddBool(InvertedX))
      + Optional(s.invertY != 0, AddBool(InvertedY))
      + Optional(s.swapXY != 0, AddBool(SwappedXY))
      + Optional(s.fwName.Some?, AddString(FirmwareName, if s.fwName.Some? then s.fwName.value else "")))
  }

  /** Position of each property in the changeset order. */
  function Rank(n: PropName): nat {
    match n
    case Reg => 0
    case Compatible => 1
    case Status => 2
    case VddioSupply => 3
    case SizeX => 4
    case SizeY => 5
    case InvertedX => 6
    case InvertedY => 7
    case SwappedXY => 8
    case FirmwareName => 9
  }

  /** Entry k is about the property of rank `from + k`. */
  predicate Ranked(es: seq<Entry>, from: nat) {
    forall k :: 0 <= k < |es| ==> Rank(es[k].op.name) == from + k
  }

  predicate DistinctNames(ops: seq<ChangeOp>) {
    forall i, j :: 0 <= i < j < |ops| ==> ops[i].name != ops[j].name
  }

  lemma EntriesRanked(dev: Device, s: Settings, tree: DeviceTree)
    requires Described(dev) && dev.model != Unknown
    ensures Ranked(Entries(dev, s, tree), 0)
  {
  }

  /** With ranked entries, a change is made iff the entry for its property
      is present and is that change. */
  lemma {:induction false} GatherHas(es: seq<Entry>, from: nat, op: ChangeOp)
    requires Ranked(es, from)
    ensures op in Gather(es) <==>
      from <= Rank(op.name) < from + |es| && es[Rank(op.name) - from] == Entry(true, op)
    decreases |es|
  {
    if es != [] {
      var r := Rank(op.name);
      var tail := es[1..];
      assert Ranked(tail, from + 1) by {
        forall k | 0 <= k < |tail| ensures Rank(tail[k].op.name) == from + 1 + k {
          assert tail[k] == es[k + 1];
        }
      }
      GatherHas(tail, from + 1, op);
      var head: seq<ChangeOp> := if es[0].present then [es[0].op] else [];
      assert Gather(es) == head + Gather(tail);
      assert op in head <==> es[0] == Entry(true, op);
      assert Rank(es[0].op.name) == from;
      if from < r < from + |es| {
        assert tail[r - (from + 1)] == es[r - from];
      }
    }
  }

  /** With ranked entries, the changes made have strictly increasing ranks,
      all at least `from`; so no property is changed twice. */
  lemma {:induction false} GatherAscending(es: seq<Entry>, from: nat)
    requires Ranked(es, from)
    ensures forall k :: 0 <= k < |Gather(es)| ==> from <= Rank(Gather(es)[k].name)
    ensures forall i, j :: 0 <= i < j < |Gather(es)| ==> Rank(Gather(es)[i].name) < Rank(Gather(es)[j].name)
    decreases |es|
  {
    if es != [] {
      assert Ranked(es[1..], from + 1) by {
        forall k | 0 <= k < |es[1..]| ensures Rank(es[1..][k].op.name) == from + 1 + k {
          assert es[1..][k] == es[k + 1];
        }
      }
      GatherAscending(es[1..], from + 1);
      var head: seq<ChangeOp> := if es[0].present then [es[0].op] else [];
      var tail := Gather(es[1..]);
      assert Gather(es) == head + tail;
      forall k | 0 <= k < |Gather(es)| ensures from <= Rank(Gather(es)[k].name) {
        if k >= |head| { assert Gather(es)[k] == tail[k - |head|]; }
      }
      forall i, j | 0 <= i < j < |Gather(es)| ensures Rank(Gather(es)[i].name) < Rank(Gather(es)[j].name) {
        assert Gather(es)[j] == tail[j - |head|];
        if i >= |head| { assert Gather(es)[i] == tail[i - |head|]; }
      }
    }
  }

  /** Gathering a prefix and then one more entry. */
  lemma {:induction false} GatherSnoc(es: seq<Entry>, e: Entry)
    ensures Gather(es + [e]) == Gather(es) + (if e.present then [e.op] else [])
    decreases |es|
  {
    if es == [] {
      assert [e][1..] == [];
    } else {
      assert (es + [e])[1..] == es[1..] + [e];
      GatherSnoc(es[1..], e);
    }
  }

  /** Gathering one more entry of a list. */
  lemma GatherStep(es: seq<Entry>, k: nat)
    requires k < |es|
    ensures Gather(es[..k + 1]) == Gather(es[..k]) + (if es[k].present then [es[k].op] else [])
  {
    assert es[..k + 1] == es[..k] + [es[k]];
    GatherSnoc(es[..k], es[k]);
  }

  /** The part of the changeset q8_hardware_mgr_apply_common builds. */
  lemma GatherCommon(dev: Device, s: Settings, tree: DeviceTree)
    requires Described(dev) && dev.model != Unknown
    ensures Gather(Entries(dev, s, tree)[..4]) ==
      [AddU32(Reg, U32(dev.addr)), AddString(Compatible, dev.compatible.value), UpdateString(Status, "okay")]
      + (if dev.deleteRegulator && tree.vddioPresent then [RemoveProperty(VddioSupply)] else [])
  {
    var es := Entries(dev, s, tree);
    assert es[..0] == [];
    GatherStep(es, 0);
    GatherStep(es, 1);
    GatherStep(es, 2);
    GatherStep(es, 3);
  }

  /** The changeset is exactly the present entries, in order. */
  lemma ChangesetGathers(dev: Device, s: Settings, tree: DeviceTree)
    requires Described(dev) && dev.model != Unknown && tree.nodePresent
    ensures Changeset(dev, s, tree) == Some(Gather(Entries(dev, s, tree)))
  {
    var es := Entries(dev, s, tree);
    GatherCommon(dev, s, tree);
    GatherStep(es, 4);
    GatherStep(es, 5);
    GatherStep(es, 6);
    GatherStep(es, 7);
    GatherStep(es, 8);
    GatherStep(es, 9);
    assert es[..10] == es;
  }

  /** No property appears twice in a changeset. */
  lemma ChangesetDistinct(dev: Device, s: Settings, tree: DeviceTree)
    requires Described(dev)
    requires Changeset(dev, s, tree).Some?
    ensures DistinctNames(Changeset(dev, s, tree).value)
  {
    ChangesetGathers(dev, s, tree);
    EntriesRanked(dev, s, tree);
    GatherAscending(Entries(dev, s, tree), 0);
  }

  /** The changeset's fixed part: nothing for an unknown model or a missing
      node; otherwise reg, compatible and status "okay" come first, and
      vddio-supply is removed iff the regulator is to be deleted and the
      property is there. */
  lemma ChangesetHeader(dev: Device, s: Settings, tree: DeviceTree)
    requires Described(dev)
    ensures var cs := Changeset(dev, s, tree);
      && (cs.Some? <==> dev.model != Unknown && tree.nodePresent)
      && (cs.Some? ==>
          && |cs.value| >= 3
          && cs.value[..3] == [AddU32(Reg, U32(dev.addr)), AddString(Compatible, dev.compatible.value), UpdateString(Status, "okay")]
          && (RemoveProperty(VddioSupply) in cs.value <==> dev.deleteRegulator && tree.vddioPresent))
  {
    if dev.model != Unknown && tree.nodePresent {
      var es := Entries(dev, s, tree);
      ChangesetGathers(dev, s, tree);
      EntriesRanked(dev, s, tree);
      GatherHas(es, 0, RemoveProperty(VddioSupply));
      assert Gather(es) == [es[0].op] + Gather(es[1..]);
      assert es[1..][1..] == es[2..];
      assert Gather(es[1..]) == [es[1].op] + Gather(es[2..]);
      assert es[2..][1..] == es[3..];
      assert Gather(es[2..]) == [es[2].op] + Gather(es[3..]);
    }
  }

  /** A change is in the changeset iff its entry is present. */
  lemma ChangesetHasEntry(dev: Device, s: Settings, tree: DeviceTree, k: nat)
    requires Described(dev)
    requires Changeset(dev, s, tree).Some?
    requires k < |Entries(dev, s, tree)|
    ensures Entries(dev, s, tree)[k].op in Changeset(dev, s, tree).value <==> Entries(dev, s, tree)[k].present
  {
    var es := Entries(dev, s, tree);
    ChangesetGathers(dev, s, tree);
    EntriesRanked(dev, s, tree);
    GatherHas(es, 0, es[k].op);
  }

  /** Each optional property is in the changeset iff its setting is non-zero
      (or, for the firmware name, non-NULL). */
  lemma ChangesetSettings(dev: Device, s: Settings, tree: DeviceTree)
    requires Described(dev)
    requires Changeset(dev, s, tree).Some?
    ensures var cs := Changeset(dev, s, tree).value;
      && (AddU32(SizeX, U32(s.width)) in cs <==> s.width != 0)
      && (AddU32(SizeY, U32(s.height)) in cs <==> s.height != 0)
      && (AddBool(InvertedX) in cs <==> s.invertX != 0)
      && (AddBool(InvertedY) in cs <==> s.invertY != 0)
      && (AddBool(SwappedXY) in cs <==> s.swapXY != 0)
      && (s.fwName.Some? ==> AddString(FirmwareName, s.fwName.value) in cs)
  {
    ChangesetHasEntry(dev, s, tree, 4);
    ChangesetHasEntry(dev, s, tree, 5);
    ChangesetHasEntry(dev, s, tree, 6);
    ChangesetHasEntry(dev, s, tree, 7);
    ChangesetHasEntry(dev, s, tree, 8);
    ChangesetHasEntry(dev, s, tree, 9);
  }

  /** Without a firmware name no firmware-name property is added. */
  lemma ChangesetWithoutFirmware(dev: Device, s: Settings, tree: DeviceTree)
    requires Described(dev)
    requires Changeset(dev, s, tree).Some?
    requires s.fwName.None?
    ensures forall op <- Changeset(dev, s, tree).value :: op.name != FirmwareName
  {
    var es := Entries(dev, s, tree);
    ChangesetGathers(dev, s, tree);
    EntriesRanked(dev, s, tree);
    forall op <- Gather(es) ensures op.name != FirmwareName {
      GatherHas(es, 0, op);
    }
  }
}
