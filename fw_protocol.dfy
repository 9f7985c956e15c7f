/**
 * The wire vocabulary of the device firmware (txrx_uhd.c) and the pure
 * decisions its UDP handlers take: which opcode a control request finally
 * gets, what the reply is, which DSP lane a
 * port selects, which routing mode a link speed selects and which inbound
 * frame is an address-recovery frame.
 *
 * Numeric values that live in headers outside this model (port numbers,
 * the compatibility number, the size of the control struct, the SPI flag
 * bits) are fields of a `Build` record instead of guessed constants.
 */
module FwProtocol {
  import opened Common
  import opened SpiEdges

  type u8 = x: int | 0 <= x < 0x100
  type u16 = x: int | 0 <= x < 0x1_0000
  type u32 = x: int | 0 <= x < 0x1_0000_0000

  type IpAddr = u32
  type MacAddr = seq<u8>

  datatype SocketAddress = SocketAddress(addr: IpAddr, port: u16)

  /** What one firmware build was compiled with. */
  datatype Build = Build(
    umtrx: bool,           // UMTRX defined: UmTRX addressing and ZPU actions instead of WAZZUP
    spiI2c: bool,          // NO_SPI_I2C not defined: the SPI and I2C cases exist
    fwCompatNum: u32,      // USRP2_FW_COMPAT_NUM
    ctrlDataSize: nat,     // sizeof(usrp2_ctrl_data_t)
    ctrlPort: u16,         // USRP2_UDP_CTRL_PORT
    rxDsp0Port: u16,       // USRP2_UDP_RX_DSP0_PORT
    rxDsp0_2Port: u16,     // USRP2_UDP_RX_DSP0_2_PORT
    rxDsp1Port: u16,       // USRP2_UDP_RX_DSP1_PORT
    rxDsp1_2Port: u16,     // USRP2_UDP_RX_DSP1_2_PORT
    spif: SpiFlagBits)
  {
    /** The four data ports are distinct case labels of one C switch. */
    predicate Valid() {
      && rxDsp0Port != rxDsp0_2Port && rxDsp0Port != rxDsp1Port && rxDsp0Port != rxDsp1_2Port
      && rxDsp0_2Port != rxDsp1Port && rxDsp0_2Port != rxDsp1_2Port
      && rxDsp1Port != rxDsp1_2Port
    }
  }

  /**
   * Control message ids, request and reply kinds alike, as the request's
   * `id` word names them; `Other` is a word that names none of them.
   */
  datatype CtrlId =
    | HuhWhat
    | WazzupBro | WazzupDude
    | UmtrxCtrlIdRequest | UmtrxCtrlIdResponse
    | UmtrxCtrlIdZpuRequest | UmtrxCtrlIdZpuResponse
    | TransactMeSomeSpiBro | OmgTransactedSpiDude
    | DoAnI2cReadForMeBro | HeresTheI2cDataDude
    | WriteTheseI2cValuesBro | CoolImDoneI2cWriteDude
    | GetThisRegisterForMeBro | OmgGotRegisterSoBadDude
    | HollerAtMeBro | HollerBackDude
    | Other(code: u32)

  datatype RegAction = FpgaPeek32 | FpgaPeek16 | FpgaPoke32 | FpgaPoke16 | FwPeek32 | FwPoke32 | OtherAction(code: u8)

  datatype ZpuAction = GetVctcxoDac | SetVctcxoDac | OtherZpuAction(code: u32)

  datatype SpiMode = SpiTxOnly | SpiTxRx

  datatype SpiArgs = SpiArgs(dev: u32, data: u32, numBits: u8, readback: u8, mosiEdge: ClkEdge, misoEdge: ClkEdge)
  datatype I2cArgs = I2cArgs(addr: u8, bytes: u8, data: seq<u8>)
  datatype RegArgs = RegArgs(addr: u32, data: u32, action: RegAction)
  datatype ZpuArgs = ZpuArgs(action: ZpuAction, data: u32)

  /**
   * A control request as the handler reads it. The payload union is given
   * arm by arm: each case of the handler reads only its own arm.
   */
  datatype CtrlRequest = CtrlRequest(
    protoVer: u32, id: CtrlId, seqNum: u32,
    spi: SpiArgs, i2c: I2cArgs, reg: RegArgs, echoLen: u32, zpu: ZpuArgs)

  /** The arm of the reply union that the handler filled in, if any. */
  datatype ReplyData =
    | Unset
    | IpAddrReply(ip: IpAddr)
    | ZpuReply(action: ZpuAction, dac: Option<u32>)
    | SpiReply(result: u32)
    | I2cReply(bytes: u8, readData: Option<seq<u8>>)
    | RegReply(value: u32)
    | EchoReply(len: u32)

  datatype CtrlResponse = CtrlResponse(protoVer: u32, id: CtrlId, seqNum: u32, data: ReplyData)

  /** A call into the hardware or a foreign driver, in the order made. */
  datatype BusOp =
    | SpiTransact(mode: SpiMode, dev: u32, data: u32, numBits: u8, flags: bv32)
    | I2cRead(i2cAddr: u8, numBytes: u8)
    | I2cWrite(i2cAddr: u8, payload: seq<u8>, numBytes: u8)
    | FpgaRead32(addr: u32)
    | FpgaRead16(addr: u32)
    | FpgaWrite32(addr: u32, word: u32)
    | FpgaWrite16(addr: u32, half: u16)
    | ReadVctcxoDac
    | WriteVctcxoDac(dacValue: u16)

  /** What the hardware answers to the calls the handler makes. */
  datatype HwReplies = HwReplies(spiResult: u32, i2cData: seq<u8>, fpgaWord: u32, fpgaHalf: u16, vctcxoDac: u32)

  /** Console messages the control handler prints. */
  datatype Warning =
    | VersionMismatch(expected: u32, got: u32)
    | ShortPacket(expectedLen: nat, gotLen: u32)

  /** Everything one control request causes. */
  datatype CtrlOutcome = CtrlOutcome(
    reply: CtrlResponse, sendLen: nat, regs: seq<u32>, bus: seq<BusOp>, warnings: seq<Warning>)

  // ---------------------------------------------------------------------
  // Opcode selection
  // ---------------------------------------------------------------------

  /** The addressing probe of the build: UMTRX_CTRL_ID_REQUEST or WAZZUP_BRO. */
  function AddressProbe(b: Build): CtrlId {
    if b.umtrx then UmtrxCtrlIdRequest else WazzupBro
  }

  /** The answer to the addressing probe of the build. */
  function AddressReply(b: Build): CtrlId {
    if b.umtrx then UmtrxCtrlIdResponse else WazzupDude
  }

  /** The protocol-version check applies: at least one word came in and it mismatches. */
  predicate VersionMismatched(b: Build, req: CtrlRequest, payloadLen: u32) {
    payloadLen >= 4 && req.protoVer != b.fwCompatNum
  }

  /**
   * The opcode the handler switches on: a mismatched version turns the
   * request into the addressing probe, and a packet shorter than the
   * control struct is answered as unrecognised whatever its version.
   */
  function FinalOpcode(b: Build, req: CtrlRequest, payloadLen: u32): (op: CtrlId)
    ensures payloadLen < b.ctrlDataSize ==> op == HuhWhat
    ensures payloadLen >= b.ctrlDataSize && VersionMismatched(b, req, payloadLen) ==> op == AddressProbe(b)
    ensures payloadLen >= b.ctrlDataSize && !VersionMismatched(b, req, payloadLen) ==> op == req.id
  {
    var id := if VersionMismatched(b, req, payloadLen) then AddressProbe(b) else req.id;
    if payloadLen < b.ctrlDataSize then HuhWhat else id
  }

  /** The messages printed while the opcode is chosen. */
  function CtrlWarnings(b: Build, req: CtrlRequest, payloadLen: u32): (w: seq<Warning>)
    ensures VersionMismatch(b.fwCompatNum, req.protoVer) in w
            <==> VersionMismatched(b, req, payloadLen) && req.protoVer != 0
    ensures ShortPacket(b.ctrlDataSize, payloadLen) in w <==> payloadLen < b.ctrlDataSize
  {
    (if VersionMismatched(b, req, payloadLen) && req.protoVer != 0
     then [VersionMismatch(b.fwCompatNum, req.protoVer)] else [])
    + (if payloadLen < b.ctrlDataSize then [ShortPacket(b.ctrlDataSize, payloadLen)] else [])
  }

  /** The request kinds the build has a case for. */
  predicate Handled(b: Build, op: CtrlId) {
    || op == AddressProbe(b)
    || (b.umtrx && op == UmtrxCtrlIdZpuRequest)
    || (b.spiI2c && op in {TransactMeSomeSpiBro, DoAnI2cReadForMeBro, WriteTheseI2cValuesBro})
    || op == GetThisRegisterForMeBro
    || op == HollerAtMeBro
  }

  // ---------------------------------------------------------------------
  // The control reply
  // ---------------------------------------------------------------------

  /** The firmware register accessed by the request lies within the 8-entry file. */
  predicate FwRegInRange(b: Build, req: CtrlRequest, payloadLen: u32) {
    FinalOpcode(b, req, payloadLen) == GetThisRegisterForMeBro && req.reg.action in {FwPeek32, FwPoke32}
    ==> req.reg.addr < 8
  }

  /** The register action of a GET_THIS_REGISTER request: reply data, register file, bus calls. */
  function RegisterAction(r: RegArgs, regs: seq<u32>, hw: HwReplies): (res: (ReplyData, seq<u32>, seq<BusOp>))
    requires |regs| == 8
    requires r.action in {FwPeek32, FwPoke32} ==> r.addr < 8
    ensures |res.1| == 8
    ensures r.action == FwPeek32 ==> res.0 == RegReply(regs[r.addr]) && res.1 == regs
    ensures r.action == FwPoke32 ==> res.1[r.addr] == r.data
    ensures forall i :: 0 <= i < 8 && (r.action != FwPoke32 || i != r.addr) ==> res.1[i] == regs[i]
  {
    match r.action
    case FpgaPeek32 => (RegReply(hw.fpgaWord), regs, [FpgaRead32(r.addr)])
    case FpgaPeek16 => (RegReply(hw.fpgaHalf), regs, [FpgaRead16(r.addr)])
    case FpgaPoke32 => (Unset, regs, [FpgaWrite32(r.addr, r.data)])
    case FpgaPoke16 => (Unset, regs, [FpgaWrite16(r.addr, r.data % 0x1_0000)])
    case FwPeek32 => (RegReply(regs[r.addr]), regs, [])
    case FwPoke32 => (Unset, regs[r.addr := r.data], [])
    case OtherAction(_) => (Unset, regs, [])
  }

  /**
   * Reference semantics of handle_udp_ctrl_packet: the reply and how many
   * bytes of it are sent, the firmware register file afterwards, the
   * hardware calls made and the console messages printed.
   */
  function Respond(b: Build, req: CtrlRequest, payloadLen: u32, regs: seq<u32>, ip: IpAddr, hw: HwReplies)
    : (o: CtrlOutcome)
    requires |regs| == 8
    requires FwRegInRange(b, req, payloadLen)
    ensures o.reply.protoVer == b.fwCompatNum && o.reply.seqNum == req.seqNum
    ensures |o.regs| == 8
    ensures o.warnings == CtrlWarnings(b, req, payloadLen)
  {
    var op := FinalOpcode(b, req, payloadLen);
    var w := CtrlWarnings(b, req, payloadLen);
    var out := CtrlResponse(b.fwCompatNum, HuhWhat, req.seqNum, Unset);
    var full := b.ctrlDataSize;
    if b.umtrx && op == UmtrxCtrlIdRequest then
      CtrlOutcome(out.(id := UmtrxCtrlIdResponse, data := IpAddrReply(ip)), full, regs, [], w)
    else if !b.umtrx && op == WazzupBro then
      CtrlOutcome(out.(id := WazzupDude, data := IpAddrReply(ip)), full, regs, [], w)
    else if b.umtrx && op == UmtrxCtrlIdZpuRequest then
      var a := req.zpu.action;
      var (dac, bus) := match a
        case GetVctcxoDac => (Some(hw.vctcxoDac), [ReadVctcxoDac])
        case SetVctcxoDac => (None, [WriteVctcxoDac(req.zpu.data % 0x1_0000)])
        case OtherZpuAction(_) => (None, []);
      CtrlOutcome(out.(id := UmtrxCtrlIdZpuResponse, data := ZpuReply(a, dac)), full, regs, bus, w)
    else if b.spiI2c && op == TransactMeSomeSpiBro then
      var s := req.spi;
      var mode := if s.readback == 0 then SpiTxOnly else SpiTxRx;
      var call := SpiTransact(mode, s.dev, s.data, s.numBits, SpiFlags(b.spif, s.mosiEdge, s.misoEdge));
      CtrlOutcome(out.(id := OmgTransactedSpiDude, data := SpiReply(hw.spiResult)), full, regs, [call], w)
    else if b.spiI2c && op == DoAnI2cReadForMeBro then
      var n := req.i2c.bytes;
      CtrlOutcome(out.(id := HeresTheI2cDataDude, data := I2cReply(n, Some(hw.i2cData))), full, regs,
                  [I2cRead(req.i2c.addr, n)], w)
    else if b.spiI2c && op == WriteTheseI2cValuesBro then
      var n := req.i2c.bytes;
      CtrlOutcome(out.(id := CoolImDoneI2cWriteDude, data := I2cReply(n, None)), full, regs,
                  [I2cWrite(req.i2c.addr, req.i2c.data, n)], w)
    else if op == GetThisRegisterForMeBro then
      var (d, regs', bus) := RegisterAction(req.reg, regs, hw);
      CtrlOutcome(out.(id := OmgGotRegisterSoBadDude, data := d), full, regs', bus, w)
    else if op == HollerAtMeBro then
      CtrlOutcome(out.(id := HollerBackDude, data := EchoReply(payloadLen)), req.echoLen, regs, [], w)
    else
      CtrlOutcome(out, full, regs, [], w)
  }

  // ---------------------------------------------------------------------
  // Properties of the control reply
  // ---------------------------------------------------------------------

  /**
   * A full-length request with the wrong protocol version is answered with
   * the device address, whatever it asked for, and touches nothing.
   */
  lemma VersionMismatchAnswersAddress(b: Build, req: CtrlRequest, payloadLen: u32, regs: seq<u32>, ip: IpAddr, hw: HwReplies)
    requires |regs| == 8
    requires payloadLen >= 4 && payloadLen >= b.ctrlDataSize && req.protoVer != b.fwCompatNum
    ensures FwRegInRange(b, req, payloadLen)
    ensures var o := Respond(b, req, payloadLen, regs, ip, hw);
      && o.reply.id == AddressReply(b) && o.reply.data == IpAddrReply(ip)
      && o.sendLen == b.ctrlDataSize && o.regs == regs && o.bus == []
  {
  }

  /** A short request is answered as unrecognised, whatever its version and id, and touches nothing. */
  lemma ShortPacketAnswersHuhWhat(b: Build, req: CtrlRequest, payloadLen: u32, regs: seq<u32>, ip: IpAddr, hw: HwReplies)
    requires |regs| == 8
    requires payloadLen < b.ctrlDataSize
    ensures FwRegInRange(b, req, payloadLen)
    ensures var o := Respond(b, req, payloadLen, regs, ip, hw);
      && o.reply == CtrlResponse(b.fwCompatNum, HuhWhat, req.seqNum, Unset)
      && o.sendLen == b.ctrlDataSize && o.regs == regs && o.bus == []
  {
  }

  /** Exactly the request kinds without a case of their own are answered as unrecognised. */
  lemma UnhandledAnswersHuhWhat(b: Build, req: CtrlRequest, payloadLen: u32, regs: seq<u32>, ip: IpAddr, hw: HwReplies)
    requires |regs| == 8
    requires FwRegInRange(b, req, payloadLen)
    ensures var o := Respond(b, req, payloadLen, regs, ip, hw);
      o.reply.id == HuhWhat <==> !Handled(b, FinalOpcode(b, req, payloadLen))
    ensures var o := Respond(b, req, payloadLen, regs, ip, hw);
      !Handled(b, FinalOpcode(b, req, payloadLen)) ==> o.reply.data == Unset && o.regs == regs && o.bus == []
  {
  }

  /**
   * Only the echo reply is sent with a length of the request's choosing;
   * every other reply is sent as a whole control struct.
   */
  lemma EchoReplyLength(b: Build, req: CtrlRequest, payloadLen: u32, regs: seq<u32>, ip: IpAddr, hw: HwReplies)
    requires |regs| == 8
    requires FwRegInRange(b, req, payloadLen)
    ensures var o := Respond(b, req, payloadLen, regs, ip, hw);
      if FinalOpcode(b, req, payloadLen) == HollerAtMeBro
      then o.reply.id == HollerBackDude && o.reply.data == EchoReply(payloadLen) && o.sendLen == req.echoLen
      else o.sendLen == b.ctrlDataSize
  {
  }

  /** Every register action is acknowledged with OMG_GOT_REGISTER_SO_BAD_DUDE and touches only its own register. */
  lemma RegisterActionAcknowledged(b: Build, req: CtrlRequest, payloadLen: u32, regs: seq<u32>, ip: IpAddr, hw: HwReplies)
    requires |regs| == 8
    requires FwRegInRange(b, req, payloadLen)
    requires FinalOpcode(b, req, payloadLen) == GetThisRegisterForMeBro
    ensures var o := Respond(b, req, payloadLen, regs, ip, hw);
      && o.reply.id == OmgGotRegisterSoBadDude
      && (req.reg.action == FwPeek32 ==> o.reply.data == RegReply(regs[req.reg.addr]))
      && (forall i :: 0 <= i < 8 && (req.reg.action != FwPoke32 || i != req.reg.addr) ==> o.regs[i] == regs[i])
  {
  }

  /** A firmware-register poke followed by a peek of the same register reads back the poked value. */
  lemma FwPokeThenPeek(b: Build, poke: CtrlRequest, peek: CtrlRequest, len1: u32, len2: u32,
                       regs: seq<u32>, ip: IpAddr, hw1: HwReplies, hw2: HwReplies)
    requires |regs| == 8
    requires FinalOpcode(b, poke, len1) == GetThisRegisterForMeBro && poke.reg.action == FwPoke32
    requires FinalOpcode(b, peek, len2) == GetThisRegisterForMeBro && peek.reg.action == FwPeek32
    requires poke.reg.addr < 8 && peek.reg.addr == poke.reg.addr
    ensures var o1 := Respond(b, poke, len1, regs, ip, hw1);
      && (forall i :: 0 <= i < 8 && i != poke.reg.addr ==> o1.regs[i] == regs[i])
      && Respond(b, peek, len2, o1.regs, ip, hw2).reply.data == RegReply(poke.reg.data)
  {
  }

  /**
   * The I2C replies carry the request's byte count, and the SPI call is
   * transmit-only exactly when no readback was asked for.
   */
  lemma BusRepliesFollowRequest(b: Build, req: CtrlRequest, payloadLen: u32, regs: seq<u32>, ip: IpAddr, hw: HwReplies)
    requires |regs| == 8
    requires FwRegInRange(b, req, payloadLen)
    requires b.spiI2c
    ensures var o := Respond(b, req, payloadLen, regs, ip, hw);
      var op := FinalOpcode(b, req, payloadLen);
      && (op in {DoAnI2cReadForMeBro, WriteTheseI2cValuesBro} ==> o.reply.data.I2cReply? && o.reply.data.bytes == req.i2c.bytes)
      && (op == DoAnI2cReadForMeBro ==> o.bus == [I2cRead(req.i2c.addr, req.i2c.bytes)])
      && (op == WriteTheseI2cValuesBro ==> o.bus == [I2cWrite(req.i2c.addr, req.i2c.data, req.i2c.bytes)])
      && (op == TransactMeSomeSpiBro ==>
            && |o.bus| == 1 && o.bus[0].SpiTransact?
            && (o.bus[0].mode == SpiTxOnly <==> req.spi.readback == 0)
            && o.bus[0].flags == SpiFlags(b.spif, req.spi.mosiEdge, req.spi.misoEdge)
            && o.reply.data == SpiReply(hw.spiResult))
  {
  }

  // ---------------------------------------------------------------------
  // Data ports, halting and routing
  // ---------------------------------------------------------------------

  /** The data port of a DSP lane: lanes 0..3 are DSP0, DSP0_2, DSP1, DSP1_2. */
  function PortOfLane(b: Build, lane: nat): u16
    requires lane < 4
  {
    if lane == 0 then b.rxDsp0Port
    else if lane == 1 then b.rxDsp0_2Port
    else if lane == 2 then b.rxDsp1Port
    else b.rxDsp1_2Port
  }

  /** The lane (`which`) a data port selects, or None for any other port. */
  function LaneOf(b: Build, port: u16): (r: Option<nat>)
    ensures r.Some? ==> r.value < 4 && PortOfLane(b, r.value) == port
    ensures r.None? ==> forall lane :: 0 <= lane < 4 ==> PortOfLane(b, lane) != port
  {
    if port == b.rxDsp0Port then Some(0)
    else if port == b.rxDsp1Port then Some(2)
    else if port == b.rxDsp0_2Port then Some(1)
    else if port == b.rxDsp1_2Port then Some(3)
    else None
  }

  /** In a valid build the port-to-lane map is a bijection between the four data ports and lanes 0..3. */
  lemma LaneOfBijective(b: Build)
    requires b.Valid()
    ensures forall lane :: 0 <= lane < 4 ==> LaneOf(b, PortOfLane(b, lane)) == Some(lane)
    ensures forall p, q :: LaneOf(b, p).Some? && LaneOf(b, p) == LaneOf(b, q) ==> p == q
  {
  }

  /** The "no samples now" stream command: bits 31 and 28. */
  const HaltNowCmd: bv32 := 0x9000_0000

  /** A command latched into a receive control block by the write of its tick word. */
  datatype StreamCmd = StreamCmd(cmd: bv32, timeSecs: u32, timeTicks: u32)

  datatype RoutingMode = Master | Slave

  /** The routing mode a link-speed report selects: any link up makes the device the master. */
  function RoutingModeFor(speed: int): (m: RoutingMode)
    ensures m == Master <==> speed != 0
  {
    if speed != 0 then Master else Slave
  }

  /** An inbound Ethernet frame as handle_inp_packet overlays it. */
  datatype InpFrame = InpFrame(ethertype: u16, code: seq<char>, ip: IpAddr, words: seq<u32>)

  /** The frame is an IP-recovery frame: ethertype 0xbeee and the four characters "addr". */
  function IsIpRecovery(f: InpFrame): (b: bool)
    ensures b <==> && f.ethertype == 0xbeee && |f.code| >= 4
                   && f.code[0] == 'a' && f.code[1] == 'd' && f.code[2] == 'd' && f.code[3] == 'r'
  {
    f.ethertype == 0xbeee && |f.code| >= 4 && f.code[..4] == "addr"
  }
}
