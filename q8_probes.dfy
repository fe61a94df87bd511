/**
 * Candidate probes of the q8 touchscreen manager.
 *
 * Each probe talks to one I2C address and turns what the transfers returned
 * into a verdict: the chip is there (with its model and device-tree
 * compatible string), it is not (-ENODEV), or the bus timed out
 * (-ETIMEDOUT). The transfers themselves are not modelled: their results are
 * parameters, and each probe also reports the transfers it issued so that
 * the buffer sizes it hands to the bus can be checked.
 */
module Q8Probes {
  import opened ErrorCodes

  const SILEAD_REG_ID := 0xFC
  const EKTF2127_RESPONSE := 0x52
  const EKTF2127_REQUEST := 0x53
  const EKTF2127_WIDTH := 0x63

  const SILEAD_ID_A082 := 0xa082_0000
  const SILEAD_ID_B482 := 0xb482_0000

  type byte = x: int | 0 <= x < 256
  type Buf4 = s: seq<byte> | |s| == 4 witness [0, 0, 0, 0]

  /** le32_to_cpu: the value of four bytes received least significant first. */
  function Le32(b: Buf4): (v: int)
    ensures 0 <= v < 0x1_0000_0000
    ensures v % 256 == b[0] && v / 0x100_0000 == b[3]
  {
    var b0, b1, b2, b3: int := b[0], b[1], b[2], b[3];
    b0 + 256 * (b1 + 256 * (b2 + 256 * b3))
  }

  /** The four bytes, least significant first, of a 32-bit value. */
  function Le32Bytes(v: int): (b: Buf4)
    requires 0 <= v < 0x1_0000_0000
    ensures Le32(b) == v
  {
    var v1 := v / 256;
    var v2 := v1 / 256;
    [v % 256, v1 % 256, v2 % 256, v2 / 256]
  }

  /** Decoding the bytes of a value and re-encoding it gives the bytes back,
      so a chip id determines the four bytes on the wire. */
  lemma Le32RoundTrip(b: Buf4)
    ensures 0 <= Le32(b) < 0x1_0000_0000
    ensures Le32Bytes(Le32(b)) == b
  {
    var hi2: int := b[2] as int + 256 * b[3] as int;
    var hi1: int := b[1] as int + 256 * hi2;
    ByteSplit(b[0], hi1);
    ByteSplit(b[1], hi2);
    ByteSplit(b[2], b[3]);
  }

  /** One byte off the bottom of a number. */
  lemma ByteSplit(lo: int, hi: int)
    requires 0 <= lo < 256 && 0 <= hi
    ensures (lo + 256 * hi) % 256 == lo && (lo + 256 * hi) / 256 == hi
  {
  }

  /** The touchscreen models the manager knows (the anonymous enum of the driver). */
  datatype Model = Unknown | Gsl1680A082 | Gsl1680B482 | Ektf2127 | Zet6251

  /** What one probe (or the whole search) concluded. */
  datatype Verdict =
    | Found(model: Model, compatible: string)   // 0
    | NoDevice                                  // -ENODEV
    | TimedOut                                  // -ETIMEDOUT
    | NoMemory                                  // -ENOMEM: no dummy client could be created

  /** The return value the driver uses for a verdict. */
  function Errno(v: Verdict): (ret: int)
    ensures ret == 0 <==> v.Found?
    ensures ret == -ENODEV <==> v == NoDevice
  {
    match v
    case Found(_, _) => 0
    case NoDevice => -ENODEV
    case TimedOut => -ETIMEDOUT
    case NoMemory => -ENOMEM
  }

  /** The rule every probe applies when a transfer moves the wrong number of
      bytes: a timeout is reported as such, anything else as "no device". */
  function ShortTransfer(ret: int): (v: Verdict)
    ensures v == TimedOut <==> ret == -ETIMEDOUT
    ensures v == TimedOut || v == NoDevice
  {
    if ret == -ETIMEDOUT then TimedOut else NoDevice
  }

  /** One transfer a probe issued: `len` bytes moved through a buffer of `room` bytes. */
  datatype BusOp =
    | BlockRead(reg: int, len: nat, room: nat)    // i2c_smbus_read_i2c_block_data
    | Recv(len: nat, room: nat)                   // i2c_master_recv
    | Send(bytes: seq<byte>, room: nat)           // i2c_master_send

  predicate InBounds(op: BusOp) {
    match op
    case BlockRead(_, len, room) => len <= room
    case Recv(len, room) => len <= room
    case Send(bytes, room) => |bytes| <= room
  }

  datatype ProbeRun = ProbeRun(verdict: Verdict, ops: seq<BusOp>)

  /** What a transfer into a 4-byte buffer returned: the byte count or a
      negative error, and the buffer contents afterwards. */
  datatype Reply = Reply(ret: int, data: Buf4)

  const SILEAD_A082_BYTES: Buf4 := [0x00, 0x00, 0x82, 0xa0]
  const SILEAD_B482_BYTES: Buf4 := [0x00, 0x00, 0x82, 0xb4]

  /** q8_hardwaremgr_probe_silead: read the 4-byte chip id at register 0xFC
      and recognise the two GSL1680 revisions. */
  function ProbeSilead(id: Reply): (p: ProbeRun)
    ensures p.ops == [BlockRead(SILEAD_REG_ID, 4, 4)]
    ensures p.verdict ==
      if id.ret != 4 then ShortTransfer(id.ret)
      else if id.data == SILEAD_A082_BYTES then Found(Gsl1680A082, "silead,gsl1680")
      else if id.data == SILEAD_B482_BYTES then Found(Gsl1680B482, "silead,gsl1680")
      else NoDevice
  {
    Le32RoundTrip(id.data);
    var ops := [BlockRead(SILEAD_REG_ID, 4, 4)];
    if id.ret != 4 then ProbeRun(ShortTransfer(id.ret), ops)
    else if Le32(id.data) == SILEAD_ID_A082 then ProbeRun(Found(Gsl1680A082, "silead,gsl1680"), ops)
    else if Le32(id.data) == SILEAD_ID_B482 then ProbeRun(Found(Gsl1680B482, "silead,gsl1680"), ops)
    else ProbeRun(NoDevice, ops)
  }

  const EKTF2127_WIDTH_REQUEST: seq<byte> := [EKTF2127_REQUEST, EKTF2127_WIDTH, 0x00, 0x00]

  /** q8_hardwaremgr_probe_ektf2127: read the hello packet, send the width
      request, read the response and check its tag. `hello` and `sent` are the
      byte counts of the first two transfers; the hello contents are ignored.
      The first transfer that does not move 4 bytes ends the probe, with
      -ETIMEDOUT when it timed out and -ENODEV otherwise. */
  function ProbeEktf2127(hello: int, sent: int, response: Reply): (p: ProbeRun)
    ensures forall op <- p.ops :: InBounds(op)
    ensures |p.ops| == if hello != 4 then 1 else if sent != 4 then 2 else 3
    ensures p.ops[0] == Recv(4, 4)
    ensures |p.ops| >= 2 ==> p.ops[1] == Send([0x53, 0x63, 0x00, 0x00], 4)
    ensures |p.ops| == 3 ==> p.ops[2] == Recv(4, 4)
    ensures p.verdict.Found? <==>
      hello == 4 && sent == 4 && response.ret == 4 && response.data[..2] == [0x52, 0x63]
    ensures p.verdict.Found? ==> p.verdict == Found(Ektf2127, "elan,ektf2127")
    ensures p.verdict == TimedOut <==>
      hello == -ETIMEDOUT || (hello == 4 && sent == -ETIMEDOUT) || (hello == 4 && sent == 4 && response.ret == -ETIMEDOUT)
    ensures p.verdict.Found? || p.verdict == TimedOut || p.verdict == NoDevice
  {
    if hello != 4 then ProbeRun(ShortTransfer(hello), [Recv(4, 4)])
    else if sent != 4 then ProbeRun(ShortTransfer(sent), [Recv(4, 4), Send(EKTF2127_WIDTH_REQUEST, 4)])
    else
      var ops := [Recv(4, 4), Send(EKTF2127_WIDTH_REQUEST, 4), Recv(4, 4)];
      if response.ret != 4 then ProbeRun(ShortTransfer(response.ret), ops)
      else if response.data[0] == EKTF2127_RESPONSE && response.data[1] == EKTF2127_WIDTH
      then ProbeRun(Found(Ektf2127, "elan,ektf2127"), ops)
      else ProbeRun(NoDevice, ops)
  }

  /** q8_hardwaremgr_probe_zet6251 as written: it asks for a 24-byte finger
      packet but hands the bus a 4-byte buffer. A full packet means a
      zet6251; a short one -ETIMEDOUT when the bus timed out and -ENODEV
      otherwise. */
  function ProbeZet6251AsWritten(frame: int): (p: ProbeRun)
    ensures p.verdict.Found? <==> frame == 24
    ensures p.verdict.Found? ==> p.verdict == Found(Zet6251, "zeitec,zet6251")
    ensures p.verdict == TimedOut <==> frame == -ETIMEDOUT
    ensures p.verdict.Found? || p.verdict == TimedOut || p.verdict == NoDevice
    ensures p.ops == [Recv(24, 4)] && !InBounds(p.ops[0])
  {
    ProbeRun(if frame != 24 then ShortTransfer(frame) else Found(Zet6251, "zeitec,zet6251"), [Recv(24, 4)])
  }

  /** q8_hardwaremgr_probe_zet6251 with a buffer as large as the packet it
      reads. Any full 24-byte packet is accepted, whatever it contains,
      because a chip without firmware answers with 0xff bytes. */
  function ProbeZet6251(frame: int): (p: ProbeRun)
    ensures p.ops == [Recv(24, 24)] && InBounds(p.ops[0])
    ensures p.verdict == ProbeZet6251AsWritten(frame).verdict
    ensures p.verdict.Found? <==> frame == 24
    ensures p.verdict.Found? ==> p.verdict == Found(Zet6251, "zeitec,zet6251")
    ensures p.verdict == TimedOut <==> frame == -ETIMEDOUT
    ensures p.verdict.Found? || p.verdict == TimedOut || p.verdict == NoDevice
  {
    ProbeRun(if frame != 24 then ShortTransfer(frame) else Found(Zet6251, "zeitec,zet6251"), [Recv(24, 24)])
  }
}
