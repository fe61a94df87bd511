/**
 * The q8 hardware manager object and its probe sequence.
 *
 * `HardwareMgr` holds the fields of q8_hardwaremgr_data that the manager
 * updates: the touchscreen record, the touchscreen settings, and the two
 * pieces of the platform device it patches while probing (its device-tree
 * node and its pin state). Everything the manager asks of the platform (the
 * node lookup, pinctrl, the I2C adapter, the regulator, the power GPIO and
 * the bus itself) is a parameter of type `Platform`. A ghost event log
 * records every resource taken and given back.
 */
module Q8Manager {
  import opened Wrappers
  import opened Nesting
  import opened ErrorCodes
  import opened Q8Probes
  import opened Q8Search
  import opened Q8Config

  datatype Resource =
    | OfNode               // of_find_node_by_name / of_node_put, patched into the device
    | Pins                 // pinctrl_bind_pins / devm_pinctrl_put
    | Adapter              // of_get_i2c_adapter_by_node / i2c_put_adapter
    | Regulator            // regulator_get_optional / regulator_put
    | PowerGpio            // fwnode_get_named_gpiod / gpiod_put
    | GpioHigh             // power GPIO driven high / driven low again
    | RegulatorOn          // regulator_enable / regulator_disable
    | DummyClient(addr: int)  // i2c_new_dummy / i2c_unregister_device

  /** A probe attempt, without or with the regulator enabled. */
  datatype Action = Attempt(withRegulator: bool)

  type Event = Step<Resource, Action>

  /** The result of an optional lookup: found, or an error code. */
  datatype Lookup = Acquired | Failed(err: int)

  /** Everything do_probe obtains from the platform. */
  datatype Platform = Platform(
    tree: DeviceTree,
    pinctrlRet: int,          // pinctrl_bind_pins
    pinsAllocated: bool,      // whether binding left pin state on the device
    adapterPresent: bool,     // the parent I2C adapter
    regulator: Lookup,        // the vddio regulator
    gpio: Lookup,             // the power GPIO
    gpioHighRet: int,         // driving the power GPIO high
    regulatorEnableRet: int,  // enabling the regulator
    unpowered: BusReplies,    // the bus with only the GPIO driven
    powered: BusReplies)      // the bus with the regulator enabled too

  /** The dummy-client events of probing one candidate. */
  function ClientEvents(c: Candidate, bus: BusReplies): seq<Event> {
    if c.addr in bus.noClient then [] else [Take(DummyClient(c.addr)), Put(DummyClient(c.addr))]
  }

  /** The events of a search: every dummy client created is unregistered
      before the next candidate is tried. */
  function SearchEvents(cands: seq<Candidate>, bus: BusReplies): (log: seq<Event>)
    ensures WellNested(log)
    ensures forall e <- log :: !e.Do? && e.res.DummyClient?
    decreases |cands|
  {
    if cands == [] then []
    else
      var here := ClientEvents(cands[0], bus);
      var rest := if ClientVerdict(cands[0], bus) != NoDevice then [] else SearchEvents(cands[1..], bus);
      var none: seq<Resource> := [];
      PairNested<Resource, Action>(DummyClient(cands[0].addr));
      NestedInside(here, none, rest);
      here + rest
  }

  /** The error the node, pinctrl and adapter steps of do_probe stop at, if any. */
  function BindFailure(env: Platform): Option<int> {
    if !env.tree.nodePresent then Some(-EINVAL)
    else if env.pinctrlRet != 0 then Some(env.pinctrlRet)
    else if !env.adapterPresent then Some(-EPROBE_DEFER)
    else None
  }

  /** The error the regulator and power-GPIO steps stop at, if any. A
      missing regulator or GPIO is not an error; only a deferral is. */
  function PowerFailure(env: Platform): Option<int> {
    if env.regulator == Failed(-EPROBE_DEFER) then Some(-EPROBE_DEFER)
    else if env.gpio == Failed(-EPROBE_DEFER) then Some(-EPROBE_DEFER)
    else if env.gpio.Acquired? && env.gpioHighRet != 0 then Some(env.gpioHighRet)
    else None
  }

  /** The error do_probe returns before probing anything, if any. */
  function SetupFailure(env: Platform): Option<int> {
    if BindFailure(env).Some? then BindFailure(env) else PowerFailure(env)
  }

  function FirstSearch(env: Platform): Outcome {
    Search(CANDIDATES, env.unpowered)
  }

  function SecondSearch(env: Platform): Outcome {
    Search(CANDIDATES, env.powered)
  }

  /** The first attempt failed (timeout included) and a regulator exists,
      so a second attempt with the regulator enabled is due. */
  predicate Retried(env: Platform) {
    Errno(FirstSearch(env).verdict) != 0 && env.regulator.Acquired?
  }

  /** The return value of the probing part of do_probe: only a failing
      regulator_enable is reported. */
  function AttemptsRet(env: Platform): int {
    if Retried(env) && env.regulatorEnableRet != 0 then env.regulatorEnableRet else 0
  }

  /** The touchscreen record after the probing part of do_probe: the chip
      the deciding search found, with its compatible string and address, or
      the record as it was; delete_regulator is set besides when a
      regulator exists but no second attempt was due. */
  function AttemptsDevice(dev: Device, env: Platform): (d: Device)
    requires Described(dev)
    ensures Described(d)
    ensures var o := DecidingSearch(env);
      o.verdict.Found? ==>
        d.model == o.verdict.model && d.compatible == Some(o.verdict.compatible)
        && d.addr == o.probed[|o.probed| - 1]
    ensures !DecidingSearch(env).verdict.Found? ==>
      d.model == dev.model && d.compatible == dev.compatible && d.addr == dev.addr
    ensures d.deleteRegulator <==> dev.deleteRegulator || (!Retried(env) && env.regulator.Acquired?)
  {
    var first := Record(dev, FirstSearch(env));
    if Retried(env) then
      if env.regulatorEnableRet != 0 then first else Record(first, SecondSearch(env))
    else if env.regulator.Acquired? then first.(deleteRegulator := true)
    else first
  }

  /** do_probe's return value. */
  function DoProbeRet(env: Platform): int {
    match SetupFailure(env)
    case Some(err) => err
    case None => AttemptsRet(env)
  }

  /** The touchscreen record after do_probe: untouched when setup fails,
      otherwise the one the probing part leaves. */
  function DoProbeDevice(dev: Device, env: Platform): (d: Device)
    requires Described(dev)
    ensures Described(d)
    ensures var o := DecidingSearch(env);
      SetupFailure(env).None? && o.verdict.Found? ==>
        d.model == o.verdict.model && d.compatible == Some(o.verdict.compatible)
        && d.addr == o.probed[|o.probed| - 1]
    ensures !(SetupFailure(env).None? && DecidingSearch(env).verdict.Found?) ==>
      d.model == dev.model && d.compatible == dev.compatible && d.addr == dev.addr
  {
    if SetupFailure(env).Some? then dev else AttemptsDevice(dev, env)
  }

  /** The regulator is enabled for a second attempt. */
  predicate Reattempted(env: Platform) {
    Retried(env) && env.regulatorEnableRet == 0
  }

  /** The power GPIO is driven high: it exists and setup got through. */
  predicate GpioDriven(env: Platform) {
    SetupFailure(env).None? && env.gpio.Acquired?
  }

  /** do_probe gets as far as enabling the regulator. */
  predicate SecondAttempt(env: Platform) {
    SetupFailure(env).None? && Reattempted(env)
  }

  /** `inner` run while holding `r` when `held`, otherwise `inner` alone. */
  function HoldingIf(held: bool, r: Resource, inner: seq<Event>): seq<Event> {
    if held then Bracket(r, inner) else inner
  }

  /** The events of lines 469-488 of do_probe. */
  function AttemptsEvents(env: Platform): seq<Event> {
    [Do(Attempt(false))] + SearchEvents(CANDIDATES, env.unpowered)
    + (if Reattempted(env) then Bracket(RegulatorOn, [Do(Attempt(true))] + SearchEvents(CANDIDATES, env.powered)) else [])
  }

  /** The events of lines 462-467 and 490-492 of do_probe: drive the power
      GPIO high around the attempts, unless driving it fails. */
  function DrivenEvents(env: Platform): seq<Event> {
    if env.gpio.Acquired? && env.gpioHighRet != 0 then []
    else HoldingIf(env.gpio.Acquired?, GpioHigh, AttemptsEvents(env))
  }

  /** The events of lines 454-460 and 494-495 of do_probe: hold the power
      GPIO, unless its lookup is deferred. */
  function GpioEvents(env: Platform): seq<Event> {
    if env.gpio == Failed(-EPROBE_DEFER) then []
    else HoldingIf(env.gpio.Acquired?, PowerGpio, DrivenEvents(env))
  }

  /** The events of lines 446-452 and 496-498 of do_probe: hold the
      regulator, unless its lookup is deferred. */
  function PowerEvents(env: Platform): seq<Event> {
    if env.regulator == Failed(-EPROBE_DEFER) then []
    else HoldingIf(env.regulator.Acquired?, Regulator, GpioEvents(env))
  }

  /** The events of lines 440-444 and 500-501 of do_probe. */
  function AdapterEvents(env: Platform): seq<Event> {
    if !env.adapterPresent then [] else Bracket(Adapter, PowerEvents(env))
  }

  /** The events of lines 436-438 and 502-506 of do_probe. */
  function PinsEvents(env: Platform): seq<Event> {
    if env.pinctrlRet != 0 then [] else HoldingIf(env.pinsAllocated, Pins, AdapterEvents(env))
  }

  /** The events of the whole of do_probe. */
  function DoProbeEvents(env: Platform): seq<Event> {
    if !env.tree.nodePresent then [] else Bracket(OfNode, PinsEvents(env))
  }

  lemma HoldingIfNested(held: bool, r: Resource, inner: seq<Event>)
    requires WellNested(inner)
    ensures WellNested(HoldingIf(held, r, inner))
  {
    if held {
      BracketNested(r, inner);
    }
  }

  lemma NestedThen(a: seq<Event>, b: seq<Event>)
    requires WellNested(a) && WellNested(b)
    ensures WellNested(a + b)
  {
    NestedInside(a, [], b);
  }

  lemma ActionNested(a: Action)
    ensures WellNested<Resource, Action>([Do(a)])
  {
    var none: seq<Resource> := [];
    var empty: seq<Event> := [];
    DoStep(empty, none, a);
    assert empty + [Do(a)] == [Do(a)];
  }

  /** do_probe releases everything it takes, last taken first released. */
  lemma DoProbeNested(env: Platform)
    ensures WellNested(DoProbeEvents(env))
  {
    AttemptsNested(env);
    HoldingIfNested(env.gpio.Acquired?, GpioHigh, AttemptsEvents(env));
    HoldingIfNested(env.gpio.Acquired?, PowerGpio, DrivenEvents(env));
    HoldingIfNested(env.regulator.Acquired?, Regulator, GpioEvents(env));
    BracketNested(Adapter, PowerEvents(env));
    HoldingIfNested(env.pinsAllocated, Pins, AdapterEvents(env));
    BracketNested(OfNode, PinsEvents(env));
  }

  /** The two rounds of probing, the second one inside the regulator's
      enable, are balanced. */
  lemma AttemptsNested(env: Platform)
    ensures WellNested(AttemptsEvents(env))
  {
    ActionNested(Attempt(false));
    ActionNested(Attempt(true));
    var first := SearchEvents(CANDIDATES, env.unpowered);
    var second := SearchEvents(CANDIDATES, env.powered);
    NestedThen([Do(Attempt(true))], second);
    BracketNested(RegulatorOn, [Do(Attempt(true))] + second);
    NestedThen([Do(Attempt(false))], first);
    var again: seq<Event> := if Reattempted(env) then Bracket(RegulatorOn, [Do(Attempt(true))] + second) else [];
    NestedThen([Do(Attempt(false))] + first, again);
  }

  /** One candidate of the search: the outcome, the device record and the
      events are those of the first client, followed by those of the rest
      only when the first answered that no device is there. */
  lemma SearchStep(dev: Device, cands: seq<Candidate>, bus: BusReplies)
    requires cands != []
    ensures var v := ClientVerdict(cands[0], bus);
      && Errno(Search(cands, bus).verdict) == (if v != NoDevice then Errno(v) else Errno(Search(cands[1..], bus).verdict))
      && Record(dev, Search(cands, bus)) ==
           (if v != NoDevice then Record(dev, Outcome(v, [cands[0].addr])) else Record(dev, Search(cands[1..], bus)))
      && SearchEvents(cands, bus) ==
           ClientEvents(cands[0], bus) + (if v != NoDevice then [] else SearchEvents(cands[1..], bus))
  {
    RecordStep(dev, cands, bus);
  }

  /** The record kept after the search is that of the client that decided it. */
  lemma RecordStep(dev: Device, cands: seq<Candidate>, bus: BusReplies)
    requires cands != []
    ensures var v := ClientVerdict(cands[0], bus);
      Record(dev, Search(cands, bus)) ==
        (if v != NoDevice then Record(dev, Outcome(v, [cands[0].addr])) else Record(dev, Search(cands[1..], bus)))
  {
    var v := ClientVerdict(cands[0], bus);
    var rest := Search(cands[1..], bus);
    RecordAfter(dev, v, cands[0].addr, rest);
  }

  /** Putting one more address in front of an outcome that does not
      decide at it keeps the record it leads to. */
  lemma RecordAfter(dev: Device, v: Verdict, addr: int, rest: Outcome)
    requires Decided(rest) && (v.Found? ==> v.model != Unknown)
    ensures Decided(Outcome(v, [addr])) && Decided(Outcome(rest.verdict, [addr] + rest.probed))
    ensures Record(dev, Outcome(rest.verdict, [addr] + rest.probed)) == Record(dev, rest)
  {
    if rest.verdict.Found? {
      assert ([addr] + rest.probed)[|rest.probed|] == rest.probed[|rest.probed| - 1];
    }
  }

  /** The search over the three touchscreen candidates, one candidate at a
      time. */
  lemma SearchThree(dev: Device, cands: seq<Candidate>, bus: BusReplies)
    requires |cands| == 3
    ensures var c0, c1, c2 := cands[0], cands[1], cands[2];
      var v0, v1, v2 := ClientVerdict(c0, bus), ClientVerdict(c1, bus), ClientVerdict(c2, bus);
      var ce0, ce1, ce2 := ClientEvents(c0, bus), ClientEvents(c1, bus), ClientEvents(c2, bus);
      var o := Search(cands, bus);
      && (v0 != NoDevice ==>
            Errno(o.verdict) == Errno(v0) && Record(dev, o) == Record(dev, Outcome(v0, [c0.addr])) &&
            SearchEvents(cands, bus) == ce0)
      && (v0 == NoDevice && v1 != NoDevice ==>
            Errno(o.verdict) == Errno(v1) && Record(dev, o) == Record(dev, Outcome(v1, [c1.addr])) &&
            SearchEvents(cands, bus) == ce0 + ce1)
      && (v0 == NoDevice && v1 == NoDevice && v2 != NoDevice ==>
            Errno(o.verdict) == Errno(v2) && Record(dev, o) == Record(dev, Outcome(v2, [c2.addr])) &&
            SearchEvents(cands, bus) == ce0 + (ce1 + ce2))
      && (v0 == NoDevice && v1 == NoDevice && v2 == NoDevice ==>
            o.verdict == NoDevice && SearchEvents(cands, bus) == ce0 + (ce1 + ce2))
  {
    var c0 := cands[0];
    var ce0, ce1, ce2 := ClientEvents(c0, bus), ClientEvents(cands[1], bus), ClientEvents(cands[2], bus);
    SearchStep(dev, cands, bus);
    SearchTwo(dev, cands[1..], bus);
  }

  /** The last two candidates of the search. */
  lemma SearchTwo(dev: Device, cands: seq<Candidate>, bus: BusReplies)
    requires |cands| == 2
    ensures var v1, v2 := ClientVerdict(cands[0], bus), ClientVerdict(cands[1], bus);
      var ce1, ce2 := ClientEvents(cands[0], bus), ClientEvents(cands[1], bus);
      var o := Search(cands, bus);
      && (v1 != NoDevice ==>
            Errno(o.verdict) == Errno(v1) && Record(dev, o) == Record(dev, Outcome(v1, [cands[0].addr])) &&
            SearchEvents(cands, bus) == ce1)
      && (v1 == NoDevice && v2 != NoDevice ==>
            Errno(o.verdict) == Errno(v2) && Record(dev, o) == Record(dev, Outcome(v2, [cands[1].addr])) &&
            SearchEvents(cands, bus) == ce1 + ce2)
      && (v1 == NoDevice && v2 == NoDevice ==>
            o.verdict == NoDevice && SearchEvents(cands, bus) == ce1 + ce2)
  {
    var ce1, ce2 := ClientEvents(cands[0], bus), ClientEvents(cands[1], bus);
    SearchStep(dev, cands, bus);
    assert cands[1..][1..] == [];
    SearchStep(dev, cands[1..], bus);
    assert ce1 + (ce2 + []) == ce1 + ce2;
    assert ce1 + [] == ce1;
  }

  /** The probing part touches no resource but the regulator's enable and
      the dummy clients. */
  lemma AttemptsHas(env: Platform, r: Resource)
    requires !r.DummyClient?
    ensures Take(r) in AttemptsEvents(env) <==> r == RegulatorOn && Reattempted(env)
  {
    var first := SearchEvents(CANDIDATES, env.unpowered);
    var second := SearchEvents(CANDIDATES, env.powered);
    assert Take(r) !in first && Take(r) !in second;
  }

  lemma InHolding(held: bool, r: Resource, inner: seq<Event>, x: Event)
    ensures x in HoldingIf(held, r, inner) <==> (held && (x == Take(r) || x == Put(r))) || x in inner
  {
  }

  /** Which of the power steps of do_probe contain the acquisition of `r`,
      for the two resources that are switched on rather than looked up. */
  lemma PowerHas(env: Platform, r: Resource)
    requires r == GpioHigh || r == RegulatorOn
    ensures Take(r) in PowerEvents(env) <==>
      (PowerFailure(env).None? && ((r == GpioHigh && env.gpio.Acquired?) || (r == RegulatorOn && Reattempted(env))))
  {
    AttemptsHas(env, r);
    InHolding(env.gpio.Acquired?, GpioHigh, AttemptsEvents(env), Take(r));
    InHolding(env.gpio.Acquired?, PowerGpio, DrivenEvents(env), Take(r));
    InHolding(env.regulator.Acquired?, Regulator, GpioEvents(env), Take(r));
  }

  /** The power GPIO is driven high iff it exists and setup got that far,
      and the regulator is enabled iff the second attempt is made. */
  lemma DoProbeDrives(env: Platform)
    ensures Take(GpioHigh) in DoProbeEvents(env) <==> GpioDriven(env)
    ensures Take(RegulatorOn) in DoProbeEvents(env) <==> SecondAttempt(env)
  {
    DoProbeHas(env, GpioHigh);
    DoProbeHas(env, RegulatorOn);
  }

  lemma DoProbeHas(env: Platform, r: Resource)
    requires r == GpioHigh || r == RegulatorOn
    ensures Take(r) in DoProbeEvents(env) <==>
      (SetupFailure(env).None? && ((r == GpioHigh && env.gpio.Acquired?) || (r == RegulatorOn && Reattempted(env))))
  {
    PowerHas(env, r);
    InHolding(env.pinsAllocated, Pins, AdapterEvents(env), Take(r));
    if env.adapterPresent {
      InHolding(true, Adapter, PowerEvents(env), Take(r));
    }
    if env.tree.nodePresent {
      InHolding(true, OfNode, PinsEvents(env), Take(r));
    }
  }

  /** And on every path that drove the GPIO high it is driven low again,
      and an enabled regulator is disabled again. */
  lemma DoProbeRestores(env: Platform)
    ensures Put(GpioHigh) in DoProbeEvents(env) <==> GpioDriven(env)
    ensures Put(RegulatorOn) in DoProbeEvents(env) <==> SecondAttempt(env)
  {
    DoProbeNested(env);
    DoProbeDrives(env);
    WellNestedTakeIffPut(DoProbeEvents(env), GpioHigh);
    WellNestedTakeIffPut(DoProbeEvents(env), RegulatorOn);
  }

  /** What q8_hardwaremgr_probe leaves behind: the changeset applied to the
      device tree, if any. */
  function ProbeChangeset(env: Platform, o: Overrides, memoryOk: bool): Option<seq<ChangeOp>> {
    if !memoryOk || DoProbeRet(env) != 0 then None
    else
      var d := DoProbeDevice(INITIAL_DEVICE, env);
      Changeset(d, Resolve(d.model, INITIAL_SETTINGS, o), env.tree)
  }

  /** delete_regulator is set iff a regulator exists and the first attempt,
      without it, found the touchscreen. */
  lemma DeleteRegulatorIff(dev: Device, env: Platform)
    requires Described(dev) && !dev.deleteRegulator
    ensures DoProbeDevice(dev, env).deleteRegulator <==>
      SetupFailure(env).None? && env.regulator.Acquired? && FirstSearch(env).verdict.Found?
  {
  }

  /** Once setup succeeds, the search result never becomes the return value:
      a missing chip, a bus timeout or a failed client allocation all give 0.
      Only a failing regulator_enable is reported. */
  lemma ProbeFailureIsNotAnError(env: Platform, first: BusReplies, second: BusReplies)
    requires SetupFailure(env).None?
    requires !env.regulator.Acquired? || env.regulatorEnableRet == 0
    ensures DoProbeRet(env.(unpowered := first, powered := second)) == 0
  {
  }

  /** The search whose outcome do_probe keeps: the second one when the
      regulator was enabled for it, the first one otherwise. */
  function DecidingSearch(env: Platform): Outcome {
    if Reattempted(env) then SecondSearch(env) else FirstSearch(env)
  }

  /** Starting from an unknown touchscreen, a model is known after do_probe
      exactly when setup succeeded and the first search, or the second one
      when it ran, found a chip. */
  lemma DoProbeRecord(dev: Device, env: Platform)
    requires Described(dev) && dev.model == Unknown
    ensures DoProbeDevice(dev, env).model != Unknown <==>
      SetupFailure(env).None? &&
      (FirstSearch(env).verdict.Found? || (Reattempted(env) && SecondSearch(env).verdict.Found?))
  {
    if Reattempted(env) {
      assert !FirstSearch(env).verdict.Found?;
    }
  }

  /** The return value do_probe would give if only "no device" were
      forgiven: a stuck bus or a failed client allocation in the deciding
      search is reported like any other error. */
  function DoProbeRetReporting(env: Platform): int {
    match SetupFailure(env)
    case Some(err) => err
    case None =>
      if Retried(env) && env.regulatorEnableRet != 0 then env.regulatorEnableRet
      else if DecidingSearch(env).verdict == NoDevice then 0
      else Errno(DecidingSearch(env).verdict)
  }

  /** With only "no device" forgiven, a timeout or a failed allocation in
      the deciding search becomes the return value, while a found chip and
      an empty bus still give 0; the two return values differ exactly in
      those two cases. */
  lemma BusFaultsReported(env: Platform)
    ensures var v := DecidingSearch(env).verdict;
      var searched := SetupFailure(env).None? && !(Retried(env) && env.regulatorEnableRet != 0);
      && (searched && v == TimedOut ==> DoProbeRetReporting(env) == -ETIMEDOUT)
      && (searched && v == NoMemory ==> DoProbeRetReporting(env) == -ENOMEM)
      && (searched ==> (DoProbeRetReporting(env) == 0 <==> v.Found? || v == NoDevice))
      && (DoProbeRetReporting(env) != DoProbeRet(env) <==> searched && (v == TimedOut || v == NoMemory))
  {
  }

  /** A bus that times out at the first candidate in both attempts: do_probe
      returns 0 and the touchscreen stays unknown. */
  lemma TimeoutSwallowed()
    ensures var stuck := BusReplies({}, Reply(-ETIMEDOUT, [0, 0, 0, 0]), 0, 0, Reply(0, [0, 0, 0, 0]), 0);
      var env := Platform(DeviceTree(true, true), 0, false, true, Acquired, Acquired, 0, 0, stuck, stuck);
      && FirstSearch(env).verdict == TimedOut
      && SecondSearch(env).verdict == TimedOut
      && SecondAttempt(env)
      && DoProbeRet(env) == 0
      && DoProbeDevice(INITIAL_DEVICE, env).model == Unknown
  {
  }

  /** A changeset is applied exactly when the allocation and do_probe
      succeeded and a touchscreen was found; the node lookup in
      apply_common then cannot fail. */
  lemma ChangesetOnlyAfterDetection(env: Platform, o: Overrides, memoryOk: bool)
    ensures ProbeChangeset(env, o, memoryOk).Some? <==>
      memoryOk && DoProbeRet(env) == 0 && DoProbeDevice(INITIAL_DEVICE, env).model != Unknown
  {
  }

  lemma AppendOnce(log: seq<Event>, a: seq<Event>, b: seq<Event>)
    ensures log + a + b == log + (a + b + [])
  {
  }

  lemma AttemptsTwice(log: seq<Event>, first: seq<Event>, second: seq<Event>)
    ensures log + [Do(Attempt(false))] + first + [Take(RegulatorOn), Do(Attempt(true))] + second + [Put(RegulatorOn)]
      == log + ([Do(Attempt(false))] + first + Bracket(RegulatorOn, [Do(Attempt(true))] + second))
  {
  }

  /** Taking `r` when `held`, running `inner`, and putting `r` back. */
  lemma Hold(log: seq<Event>, held: bool, r: Resource, inner: seq<Event>)
    ensures (if held then log + [Take(r)] else log) + inner + (if held then [Put(r)] else [])
      == log + HoldingIf(held, r, inner)
  {
  }

  class HardwareMgr {
    var touchscreen: Device
    var variant: int
    var width: int
    var height: int
    var invertX: int
    var invertY: int
    var swapXY: int
    var fwName: Option<string>
    var nodeBound: bool     // the touchscreen node is patched into the device
    var pinsBound: bool     // the device holds bound pin state
    ghost var events: seq<Event>

    predicate Valid()
      reads this
    {
      Described(touchscreen)
    }

    function CurrentSettings(): Settings
      reads this
    {
      Settings(variant, width, height, invertX, invertY, swapXY, fwName)
    }

    /** kzalloc of q8_hardwaremgr_data. */
    constructor ()
      ensures Valid()
      ensures touchscreen == INITIAL_DEVICE && CurrentSettings() == INITIAL_SETTINGS
      ensures !nodeBound && !pinsBound && events == []
    {
      touchscreen := INITIAL_DEVICE;
      variant, width, height, invertX, invertY, swapXY, fwName := 0, 0, 0, 0, 0, 0, None;
      nodeBound, pinsBound := false, false;
      events := [];
    }

    /** q8_hardwaremgr_probe_client: create a dummy client, run the chip's
        probe, record the address on success, unregister the client. */
    method ProbeClient(c: Candidate, bus: BusReplies) returns (ret: int)
      requires Valid()
      modifies this`touchscreen, this`events
      ensures Valid()
      ensures ret == Errno(ClientVerdict(c, bus))
      ensures touchscreen == Record(old(touchscreen), Outcome(ClientVerdict(c, bus), [c.addr]))
      ensures events == old(events) + ClientEvents(c, bus)
    {
      if c.addr in bus.noClient {
        return -ENOMEM;
      }
      events := events + [Take(DummyClient(c.addr))];
      var run := ChipProbe(c.chip, bus);
      if run.verdict.Found? {
        touchscreen := touchscreen.(compatible := Some(run.verdict.compatible), model := run.verdict.model);
      }
      ret := Errno(run.verdict);
      if ret == 0 {
        touchscreen := touchscreen.(addr := c.addr);
      }
      events := events + [Put(DummyClient(c.addr))];
    }

    /** q8_hardwaremgr_probe_touchscreen with the PROBE_CLIENT early return. */
    method ProbeTouchscreen(bus: BusReplies) returns (ret: int)
      requires Valid()
      modifies this`touchscreen, this`events
      ensures Valid()
      ensures ret == Errno(Search(CANDIDATES, bus).verdict)
      ensures touchscreen == Record(old(touchscreen), Search(CANDIDATES, bus))
      ensures events == old(events) + SearchEvents(CANDIDATES, bus)
    {
      var c0, c1, c2 := CANDIDATES[0], CANDIDATES[1], CANDIDATES[2];
      SearchThree(touchscreen, CANDIDATES, bus);
      ghost var e0 := events;
      ghost var ce0, ce1, ce2 := ClientEvents(c0, bus), ClientEvents(c1, bus), ClientEvents(c2, bus);
      ret := ProbeClient(c0, bus);
      if ret != -ENODEV {
        return;
      }
      ret := ProbeClient(c1, bus);
      assert events == e0 + (ce0 + ce1);
      if ret != -ENODEV {
        return;
      }
      ret := ProbeClient(c2, bus);
      assert events == e0 + (ce0 + (ce1 + ce2));
      if ret != -ENODEV {
        return;
      }
      return -ENODEV;
    }

    /** q8_hardwaremgr_apply_gsl1680_a082_variant. */
    method ApplyA082Variant(o: Overrides)
      modifies this`variant, this`width, this`height, this`swapXY, this`fwName
      ensures CurrentSettings() == A082Variant(old(CurrentSettings()), o.variant)
    {
      if o.variant != AUTO {
        variant := o.variant;
      }
      if variant == 1 {
        width, height, swapXY := 480, 800, 1;
        fwName := Some("gsl1680-a082-q8-a70.fw");
      } else {
        width, height := 1024, 600;
        fwName := Some("gsl1680-a082-q8-700.fw");
      }
    }

    /** q8_hardwaremgr_apply_gsl1680_b482_variant. */
    method ApplyB482Variant(o: Overrides)
      modifies this`variant, this`width, this`height, this`fwName
      ensures CurrentSettings() == B482Variant(old(CurrentSettings()), o.variant)
    {
      if o.variant != AUTO {
        variant := o.variant;
      }
      if variant == 1 {
        width, height := 960, 640;
        fwName := Some("gsl1680-b482-q8-a70.fw");
      } else {
        width, height := 960, 640;
        fwName := Some("gsl1680-b482-q8-d702.fw");
      }
    }

    /** q8_hardwaremgr_apply_touchscreen, returning the changeset it applies. */
    method ApplyTouchscreen(o: Overrides, tree: DeviceTree) returns (cs: Option<seq<ChangeOp>>)
      requires Valid()
      modifies this`variant, this`width, this`height, this`invertX, this`invertY, this`swapXY, this`fwName
      ensures CurrentSettings() == Resolve(touchscreen.model, old(CurrentSettings()), o)
      ensures cs == Changeset(touchscreen, CurrentSettings(), tree)
    {
      match touchscreen.model {
        case Unknown => return None;
        case Gsl1680A082 => ApplyA082Variant(o);
        case Gsl1680B482 => ApplyB482Variant(o);
        case Ektf2127 =>
        case Zet6251 =>
      }
      OverrideSettings(o);
      cs := BuildChangeset(tree);
    }

    /** Lines 363-379 of apply_touchscreen. */
    method OverrideSettings(o: Overrides)
      modifies this`width, this`height, this`invertX, this`invertY, this`swapXY, this`fwName
      ensures CurrentSettings() == ApplyOverrides(old(CurrentSettings()), o)
    {
      if o.width != AUTO { width := o.width; }
      if o.height != AUTO { height := o.height; }
      if o.invertX != AUTO { invertX := o.invertX; }
      if o.invertY != AUTO { invertY := o.invertY; }
      if o.swapXY != AUTO { swapXY := o.swapXY; }
      if o.fwName.Some? { fwName := o.fwName; }
    }

    /** q8_hardware_mgr_apply_common followed by the property additions of
        apply_touchscreen, for a detected touchscreen. */
    method BuildChangeset(tree: DeviceTree) returns (cs: Option<seq<ChangeOp>>)
      requires Valid() && touchscreen.model != Unknown
      ensures cs == Changeset(touchscreen, CurrentSettings(), tree)
    {
      if !tree.nodePresent {
        return None;
      }
      var ops := [AddU32(Reg, U32(touchscreen.addr)), AddString(Compatible, touchscreen.compatible.value), UpdateString(Status, "okay")];
      ghost var made := ops;
      if touchscreen.deleteRegulator && tree.vddioPresent {
        ops := ops + [RemoveProperty(VddioSupply)];
      }
      assert ops == made + Optional(touchscreen.deleteRegulator && tree.vddioPresent, RemoveProperty(VddioSupply));
      made := ops;
      if width != 0 { ops := ops + [AddU32(SizeX, U32(width))]; }
      assert ops == made + Optional(width != 0, AddU32(SizeX, U32(width)));
      made := ops;
      if height != 0 { ops := ops + [AddU32(SizeY, U32(height))]; }
      assert ops == made + Optional(height != 0, AddU32(SizeY, U32(height)));
      made := ops;
      if invertX != 0 { ops := ops + [AddBool(InvertedX)]; }
      assert ops == made + Optional(invertX != 0, AddBool(InvertedX));
      made := ops;
      if invertY != 0 { ops := ops + [AddBool(InvertedY)]; }
      assert ops == made + Optional(invertY != 0, AddBool(InvertedY));
      made := ops;
      if swapXY != 0 { ops := ops + [AddBool(SwappedXY)]; }
      assert ops == made + Optional(swapXY != 0, AddBool(SwappedXY));
      made := ops;
      if fwName.Some? { ops := ops + [AddString(FirmwareName, fwName.value)]; }
      assert ops == made + Optional(fwName.Some?, AddString(FirmwareName, if fwName.Some? then fwName.value else ""));
      cs := Some(ops);
    }

    /** Lines 469-488 of q8_hardwaremgr_do_probe: probe with the power GPIO
        only, then, if that found nothing and a regulator exists, enable it,
        probe again and disable it. A failing regulator_enable goes straight
        to restore_gpio with its error. */
    method Attempts(env: Platform) returns (ret: int)
      requires Valid()
      modifies this`touchscreen, this`events
      ensures Valid()
      ensures ret == AttemptsRet(env)
      ensures touchscreen == AttemptsDevice(old(touchscreen), env)
      ensures events == old(events) + AttemptsEvents(env)
    {
      var reg := env.regulator.Acquired?;
      ghost var e0 := events;
      events := events + [Do(Attempt(false))];
      ret := ProbeTouchscreen(env.unpowered);
      if ret != 0 && reg {
        ret := env.regulatorEnableRet;
        if ret != 0 {
          AppendOnce(e0, [Do(Attempt(false))], SearchEvents(CANDIDATES, env.unpowered));
          return;
        }
        events := events + [Take(RegulatorOn), Do(Attempt(true))];
        ret := ProbeTouchscreen(env.powered);
        events := events + [Put(RegulatorOn)];
        AttemptsTwice(e0, SearchEvents(CANDIDATES, env.unpowered), SearchEvents(CANDIDATES, env.powered));
      } else {
        AppendOnce(e0, [Do(Attempt(false))], SearchEvents(CANDIDATES, env.unpowered));
        if reg {
          touchscreen := touchscreen.(deleteRegulator := true);
        }
      }
      if ret != 0 {
        ret := 0;
      }
    }

    /** Lines 446-467 and 490-498 of q8_hardwaremgr_do_probe: get the
        optional regulator and power GPIO, drive the GPIO high, run the
        attempts, then drive the GPIO low and put what was taken. */
    method PowerAndProbe(env: Platform) returns (ret: int)
      requires Valid()
      modifies this`touchscreen, this`events
      ensures Valid()
      ensures ret == if PowerFailure(env).Some? then PowerFailure(env).value else AttemptsRet(env)
      ensures touchscreen == if PowerFailure(env).Some? then old(touchscreen) else AttemptsDevice(old(touchscreen), env)
      ensures events == old(events) + PowerEvents(env)
    {
      var reg := env.regulator.Acquired?;
      if env.regulator.Failed? {
        ret := env.regulator.err;
        if ret == -EPROBE_DEFER {
          assert events + [] == events;
          return;
        }
      }
      ghost var e0 := events;
      if reg {
        events := events + [Take(Regulator)];
      }
      ghost var e1 := events;
      label put_reg: {
        var gpio := env.gpio.Acquired?;
        if env.gpio.Failed? {
          ret := env.gpio.err;
          if ret == -EPROBE_DEFER {
            assert events == e1 + GpioEvents(env);
            break put_reg;
          }
        }
        if gpio {
          events := events + [Take(PowerGpio)];
        }
        ghost var e2 := events;
        label put_gpio: {
          if gpio {
            ret := env.gpioHighRet;
            if ret != 0 {
              assert events == e2 + DrivenEvents(env);
              break put_gpio;
            }
            events := events + [Take(GpioHigh)];
          }
          ret := Attempts(env);
          // restore_gpio
          if gpio {
            events := events + [Put(GpioHigh)];
          }
          Hold(e2, gpio, GpioHigh, AttemptsEvents(env));
        }
        if gpio {
          events := events + [Put(PowerGpio)];
        }
        Hold(e1, gpio, PowerGpio, DrivenEvents(env));
      }
      if reg {
        events := events + [Put(Regulator)];
      }
      Hold(e0, reg, Regulator, GpioEvents(env));
    }

    /** q8_hardwaremgr_do_probe for the touchscreen: patch the node into the
        device, bind its pins, get the I2C adapter, probe, and unwind. */
    method DoProbe(env: Platform) returns (ret: int)
      requires Valid() && !nodeBound && !pinsBound
      modifies this`touchscreen, this`nodeBound, this`pinsBound, this`events
      ensures Valid() && !nodeBound && !pinsBound
      ensures ret == DoProbeRet(env)
      ensures touchscreen == DoProbeDevice(old(touchscreen), env)
      ensures events == old(events) + DoProbeEvents(env)
    {
      if !env.tree.nodePresent {
        assert events + [] == events;
        return -EINVAL;
      }
      ghost var e0 := events;
      nodeBound := true;
      events := events + [Take(OfNode)];
      ghost var e1 := events;
      label put_node: {
        ret := env.pinctrlRet;
        if ret != 0 {
          assert events == e1 + PinsEvents(env);
          break put_node;
        }
        pinsBound := env.pinsAllocated;
        if pinsBound {
          events := events + [Take(Pins)];
        }
        ghost var e2 := events;
        label put_pins: {
          if !env.adapterPresent {
            ret := -EPROBE_DEFER;
            assert events == e2 + AdapterEvents(env);
            break put_pins;
          }
          events := events + [Take(Adapter)];
          ret := PowerAndProbe(env);
          // put_adapter
          events := events + [Put(Adapter)];
          Hold(e2, true, Adapter, PowerEvents(env));
        }
        if pinsBound {
          events := events + [Put(Pins)];
          pinsBound := false;
        }
        Hold(e1, env.pinsAllocated, Pins, AdapterEvents(env));
      }
      nodeBound := false;
      events := events + [Put(OfNode)];
      Hold(e0, true, OfNode, PinsEvents(env));
    }
  }

  /** q8_hardwaremgr_probe: allocate the manager, probe, and apply the
      touchscreen configuration only when probing returned 0. */
  method Probe(env: Platform, o: Overrides, memoryOk: bool) returns (ret: int, cs: Option<seq<ChangeOp>>)
    ensures ret == (if memoryOk then DoProbeRet(env) else -ENOMEM)
    ensures cs == ProbeChangeset(env, o, memoryOk)
  {
    if !memoryOk {
      return -ENOMEM, None;
    }
    var data := new HardwareMgr();
    ret := data.DoProbe(env);
    cs := None;
    if ret == 0 {
      cs := data.ApplyTouchscreen(o, env.tree);
    }
  }
}
