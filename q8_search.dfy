/**
 * The ordered touchscreen search of the q8 manager: the candidate addresses
 * are tried one after the other, and the first answer other than -ENODEV
 * ends the search.
 */
module Q8Search {
  import opened Wrappers
  import opened ErrorCodes
  import opened Q8Probes

  datatype Chip = Silead | Elan | Zeitec

  datatype Candidate = Candidate(addr: int, chip: Chip)

  /** The order of q8_hardwaremgr_probe_touchscreen. */
  const CANDIDATES: seq<Candidate> :=
    [Candidate(0x40, Silead), Candidate(0x15, Elan), Candidate(0x76, Zeitec)]

  /** What the bus answers, in one power state, at each candidate address. */
  datatype BusReplies = BusReplies(
    noClient: set<int>,    // addresses for which no dummy client can be created
    sileadId: Reply,       // chip-id block read at 0x40
    elanHello: int,        // byte count of the hello read at 0x15
    elanSent: int,         // byte count of the width request
    elanResponse: Reply,   // the width response
    zetFrame: int)         // byte count of the finger packet read at 0x76

  /** The client probe run for a chip. The Zeitec probe is the one with
      the 24-byte buffer: its verdict is that of the probe as written
      (ProbeZet6251's first ensures), and the search reads only verdicts. */
  function ChipProbe(chip: Chip, bus: BusReplies): ProbeRun {
    match chip
    case Silead => ProbeSilead(bus.sileadId)
    case Elan => ProbeEktf2127(bus.elanHello, bus.elanSent, bus.elanResponse)
    case Zeitec => ProbeZet6251(bus.zetFrame)
  }

  /** q8_hardwaremgr_probe_client: -ENOMEM when the dummy client cannot be
      created, otherwise whatever the chip's probe concluded. */
  function ClientVerdict(c: Candidate, bus: BusReplies): (v: Verdict)
    ensures v == NoMemory <==> c.addr in bus.noClient
    ensures v.Found? ==> v.model != Unknown
  {
    if c.addr in bus.noClient then NoMemory else ChipProbe(c.chip, bus).verdict
  }

  /** The search's verdict and the addresses probed, in order. */
  datatype Outcome = Outcome(verdict: Verdict, probed: seq<int>)

  /** A search outcome names the address that answered, and a found chip has a known model. */
  predicate Decided(o: Outcome) {
    && (o.verdict != NoDevice ==> o.probed != [])
    && (o.verdict.Found? ==> o.verdict.model != Unknown)
  }

  function Search(cands: seq<Candidate>, bus: BusReplies): (o: Outcome)
    ensures |o.probed| <= |cands|
    ensures forall k :: 0 <= k < |o.probed| ==> o.probed[k] == cands[k].addr
    ensures Decided(o)
    decreases |cands|
  {
    if cands == [] then Outcome(NoDevice, [])
    else
      var v := ClientVerdict(cands[0], bus);
      if v != NoDevice then Outcome(v, [cands[0].addr])
      else
        var rest := Search(cands[1..], bus);
        Outcome(rest.verdict, [cands[0].addr] + rest.probed)
  }

  /** The search stops at the first candidate that does not answer -ENODEV
      and returns its answer; every candidate probed before it answered
      -ENODEV; the result is -ENODEV exactly when every candidate did. */
  lemma {:induction false} SearchStopsAtFirstAnswer(cands: seq<Candidate>, bus: BusReplies)
    ensures var o := Search(cands, bus);
      && (forall k :: 0 <= k < |o.probed| - 1 ==> ClientVerdict(cands[k], bus) == NoDevice)
      && (o.verdict != NoDevice ==> o.verdict == ClientVerdict(cands[|o.probed| - 1], bus))
      && (o.verdict == NoDevice <==> forall k :: 0 <= k < |cands| ==> ClientVerdict(cands[k], bus) == NoDevice)
      && (o.verdict == NoDevice ==> |o.probed| == |cands|)
    decreases |cands|
  {
    if cands != [] && ClientVerdict(cands[0], bus) == NoDevice {
      SearchStopsAtFirstAnswer(cands[1..], bus);
      var o := Search(cands, bus);
      var rest := Search(cands[1..], bus);
      assert o.probed == [cands[0].addr] + rest.probed;
      forall k | 0 <= k < |o.probed| - 1
        ensures ClientVerdict(cands[k], bus) == NoDevice
      {
        if k > 0 {
          assert cands[k] == cands[1..][k - 1];
        }
      }
      if o.verdict != NoDevice {
        assert cands[|o.probed| - 1] == cands[1..][|rest.probed| - 1];
      }
      if forall k :: 0 <= k < |cands| ==> ClientVerdict(cands[k], bus) == NoDevice {
        forall k | 0 <= k < |cands| - 1
          ensures ClientVerdict(cands[1..][k], bus) == NoDevice
        {
          assert cands[1..][k] == cands[k + 1];
        }
      }
    }
  }

  /** The q8 search probes 0x40, then 0x15, then 0x76, and stops early only
      on an answer other than -ENODEV. */
  lemma CandidateOrder(bus: BusReplies)
    ensures var o := Search(CANDIDATES, bus);
      && o.probed == [0x40, 0x15, 0x76][..|o.probed|]
      && (o.verdict == NoDevice ==> o.probed == [0x40, 0x15, 0x76])
  {
    var o := Search(CANDIDATES, bus);
    SearchStopsAtFirstAnswer(CANDIDATES, bus);
    assert |o.probed| <= 3;
  }

  /** The touchscreen record of q8_hardwaremgr_device. */
  datatype Device = Device(model: Model, addr: int, compatible: Option<string>, deleteRegulator: bool)

  /** kzalloc: every field zero, false or NULL. */
  const INITIAL_DEVICE := Device(Unknown, 0, None, false)

  /** A device whose model is known carries its compatible string. */
  predicate Described(dev: Device) {
    dev.model != Unknown ==> dev.compatible.Some?
  }

  /** The record after a search: a found chip's model and compatible string
      are stored, together with the address it answered at; otherwise the
      record is left alone. */
  function Record(dev: Device, o: Outcome): (d: Device)
    requires Decided(o)
    ensures Described(dev) ==> Described(d)
    ensures o.verdict.Found? ==> d.model != Unknown
    ensures o.verdict.Found? ==>
      d.addr == o.probed[|o.probed| - 1] && d.model == o.verdict.model &&
      d.compatible == Some(o.verdict.compatible)
    ensures d.deleteRegulator == dev.deleteRegulator
    ensures !o.verdict.Found? ==> d == dev
  {
    if o.verdict.Found? then
      dev.(model := o.verdict.model, compatible := Some(o.verdict.compatible), addr := o.probed[|o.probed| - 1])
    else dev
  }
}
