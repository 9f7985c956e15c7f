/**
 * The device side of txrx_uhd.c: the firmware's persistent state (the
 * 8-entry firmware register file, the four receive control blocks, the
 * device address and routing mode) and the handlers that the polling loop
 * calls. Calls out of the firmware (sending a UDP packet, programming the
 * framer, SPI/I2C/FPGA bus access, the slow-path Ethernet handler, the
 * gratuitous ARP) are recorded, in order, in logs; what the hardware
 * answers is passed in.
 */
module TxrxUhd {
  import opened Common
  import opened FwProtocol
  import opened SpiEdges

  /** A receive control block: the command word, the two time words and the commands latched so far. */
  datatype RxCtrl = RxCtrl(cmd: bv32, timeSecs: u32, timeTicks: u32, latched: seq<StreamCmd>)

  /** A call of send_udp_pkt: source port, destination, the reply struct and the number of bytes sent. */
  datatype UdpSend = UdpSend(srcPort: u16, dst: SocketAddress, reply: CtrlResponse, len: nat)

  /** A call of setup_framer. */
  datatype FramerSetup = FramerSetup(hostMac: MacAddr, ownMac: MacAddr, src: SocketAddress, dst: SocketAddress, which: nat)

  /** The halt command as it lands in a control block: cmd first, then the seconds, then the ticks that latch it. */
  function HaltLane(c: RxCtrl): (r: RxCtrl)
    ensures r.cmd == HaltNowCmd && r.timeSecs == 0 && r.timeTicks == 0
    ensures r.latched == c.latched + [StreamCmd(HaltNowCmd, 0, 0)]
  {
    c.(cmd := HaltNowCmd, timeSecs := 0, timeTicks := 0, latched := c.latched + [StreamCmd(HaltNowCmd, 0, 0)])
  }

  class Firmware {
    const build: Build
    const macAddr: MacAddr
    /** fw_regs: virtual registers that keep values between requests. */
    var fwRegs: array<u32>
    /** sr_rx_ctrl0, sr_rx_ctrl0_2, sr_rx_ctrl1, sr_rx_ctrl1_2, indexed by lane. */
    var rxCtrl: array<RxCtrl>
    var ipAddr: IpAddr
    var routingMode: RoutingMode
    var sent: seq<UdpSend>
    var bus: seq<BusOp>
    var framers: seq<FramerSetup>
    var slowPath: seq<seq<u32>>
    var gratuitousArps: nat
    var console: seq<Warning>

    ghost predicate Valid()
      reads this
    {
      fwRegs.Length == 8 && rxCtrl.Length == 4 && build.Valid()
    }

    /** The state after start-up: a zeroed register file, idle control blocks, routing mode SLAVE. */
    constructor (b: Build, mac: MacAddr, ip: IpAddr)
      requires b.Valid()
      ensures Valid() && fresh(fwRegs) && fresh(rxCtrl)
      ensures build == b && macAddr == mac && ipAddr == ip && routingMode == Slave
      ensures fwRegs[..] == [0, 0, 0, 0, 0, 0, 0, 0]
      ensures forall l :: 0 <= l < 4 ==> rxCtrl[l] == RxCtrl(0, 0, 0, [])
      ensures sent == [] && bus == [] && framers == [] && slowPath == [] && gratuitousArps == 0 && console == []
    {
      build, macAddr, ipAddr := b, mac, ip;
      routingMode := Slave;
      fwRegs := new u32[8](_ => 0);
      rxCtrl := new RxCtrl[4](_ => RxCtrl(0, 0, 0, []));
      sent, bus, framers, slowPath, gratuitousArps, console := [], [], [], [], 0, [];
    }

    /**
     * handle_udp_data_packet. `payload == None` is the destination-unreachable
     * notice: a source port of one of the four lanes halts that lane at once;
     * any other source port ends the call. Then (also after a halt, with lane
     * 0) the framer is programmed for the lane that the destination port
     * selects; a packet to any other port ends the call. `hostMac` is what
     * the ARP cache holds for the source address.
     */
    method HandleUdpDataPacket(src: SocketAddress, dst: SocketAddress, payload: Option<seq<u8>>, hostMac: MacAddr)
      requires Valid()
      modifies this`framers, rxCtrl
      ensures Valid()
      ensures payload.None? && LaneOf(build, src.port).Some? ==>
        var l := LaneOf(build, src.port).value;
        && rxCtrl[l] == HaltLane(old(rxCtrl[l]))
        && (forall k :: 0 <= k < 4 && k != l ==> rxCtrl[k] == old(rxCtrl[k]))
        && framers == old(framers) + [FramerSetup(hostMac, macAddr, src, dst, 0)]
      ensures payload.None? && LaneOf(build, src.port).None? ==>
        rxCtrl[..] == old(rxCtrl[..]) && framers == old(framers)
      ensures payload.Some? ==>
        && rxCtrl[..] == old(rxCtrl[..])
        && framers == old(framers) + match LaneOf(build, dst.port)
             case Some(which) => [FramerSetup(hostMac, macAddr, src, dst, which)]
             case None => []
    {
      if payload.None? {
        var lane := LaneOf(build, src.port);
        if lane.None? {
          return;
        }
        var l := lane.value;
        rxCtrl[l] := rxCtrl[l].(cmd := HaltNowCmd);
        rxCtrl[l] := rxCtrl[l].(timeSecs := 0);
        rxCtrl[l] := rxCtrl[l].(timeTicks := 0, latched := rxCtrl[l].latched + [StreamCmd(HaltNowCmd, 0, 0)]);
      }

      var which := 0;
      if payload.Some? {
        var lane := LaneOf(build, dst.port);
        if lane.None? {
          return;
        }
        which := lane.value;
      }
      framers := framers + [FramerSetup(hostMac, macAddr, src, dst, which)];
    }

    /**
     * handle_udp_ctrl_packet: chooses the opcode, fills the reply field by
     * field, performs the action and sends the reply back to `src` from the
     * control port. The new state is the one `Respond` describes.
     */
    method HandleUdpCtrlPacket(src: SocketAddress, dst: SocketAddress, req: CtrlRequest, payloadLen: u32, hw: HwReplies)
      requires Valid()
      requires FwRegInRange(build, req, payloadLen)
      modifies this`sent, this`bus, this`console, fwRegs
      ensures Valid()
      ensures var o := Respond(build, req, payloadLen, old(fwRegs[..]), ipAddr, hw);
        && fwRegs[..] == o.regs
        && sent == old(sent) + [UdpSend(build.ctrlPort, src, o.reply, o.sendLen)]
        && bus == old(bus) + o.bus
        && console == old(console) + o.warnings
    {
      var id := req.id;
      if payloadLen >= 4 && req.protoVer != build.fwCompatNum {
        if req.protoVer != 0 {
          console := console + [VersionMismatch(build.fwCompatNum, req.protoVer)];
        }
        id := if build.umtrx then UmtrxCtrlIdRequest else WazzupBro;
      }
      if payloadLen < build.ctrlDataSize {
        console := console + [ShortPacket(build.ctrlDataSize, payloadLen)];
        id := HuhWhat;
      }
      assert id == FinalOpcode(build, req, payloadLen);

      var out := CtrlResponse(build.fwCompatNum, HuhWhat, req.seqNum, Unset);

      if build.umtrx && id == UmtrxCtrlIdRequest {
        out := out.(id := UmtrxCtrlIdResponse);
        out := out.(data := IpAddrReply(ipAddr));
      } else if !build.umtrx && id == WazzupBro {
        out := out.(id := WazzupDude);
        out := out.(data := IpAddrReply(ipAddr));
      } else if build.umtrx && id == UmtrxCtrlIdZpuRequest {
        out := out.(id := UmtrxCtrlIdZpuResponse);
        out := out.(data := ZpuReply(req.zpu.action, None));
        match req.zpu.action {
          case GetVctcxoDac =>
            bus := bus + [ReadVctcxoDac];
            out := out.(data := ZpuReply(req.zpu.action, Some(hw.vctcxoDac)));
          case SetVctcxoDac =>
            bus := bus + [WriteVctcxoDac(req.zpu.data % 0x1_0000)];
          case OtherZpuAction(_) =>
        }
      } else if build.spiI2c && id == TransactMeSomeSpiBro {
        var s := req.spi;
        var mode := if s.readback == 0 then SpiTxOnly else SpiTxRx;
        bus := bus + [SpiTransact(mode, s.dev, s.data, s.numBits, SpiFlags(build.spif, s.mosiEdge, s.misoEdge))];
        out := out.(data := SpiReply(hw.spiResult));
        out := out.(id := OmgTransactedSpiDude);
      } else if build.spiI2c && id == DoAnI2cReadForMeBro {
        var numBytes := req.i2c.bytes;
        bus := bus + [I2cRead(req.i2c.addr, numBytes)];
        out := out.(id := HeresTheI2cDataDude);
        out := out.(data := I2cReply(numBytes, Some(hw.i2cData)));
      } else if build.spiI2c && id == WriteTheseI2cValuesBro {
        var numBytes := req.i2c.bytes;
        bus := bus + [I2cWrite(req.i2c.addr, req.i2c.data, numBytes)];
        out := out.(id := CoolImDoneI2cWriteDude);
        out := out.(data := I2cReply(numBytes, None));
      } else if id == GetThisRegisterForMeBro {
        var d := RegisterActionStep(req.reg, hw);
        out := out.(data := d);
        out := out.(id := OmgGotRegisterSoBadDude);
      } else if id == HollerAtMeBro {
        out := out.(data := EchoReply(payloadLen));
        out := out.(id := HollerBackDude);
        sent := sent + [UdpSend(build.ctrlPort, src, out, req.echoLen)];
        return;
      } else {
        out := out.(id := HuhWhat);
      }
      sent := sent + [UdpSend(build.ctrlPort, src, out, build.ctrlDataSize)];
    }

    /** The register action of a GET_THIS_REGISTER request, on the real register file. */
    method RegisterActionStep(r: RegArgs, hw: HwReplies) returns (d: ReplyData)
      requires Valid()
      requires r.action in {FwPeek32, FwPoke32} ==> r.addr < 8
      modifies this`bus, fwRegs
      ensures Valid()
      ensures var res := RegisterAction(r, old(fwRegs[..]), hw);
        d == res.0 && fwRegs[..] == res.1 && bus == old(bus) + res.2
    {
      d := Unset;
      match r.action {
        case FpgaPeek32 =>
          bus := bus + [FpgaRead32(r.addr)];
          d := RegReply(hw.fpgaWord);
        case FpgaPeek16 =>
          bus := bus + [FpgaRead16(r.addr)];
          d := RegReply(hw.fpgaHalf);
        case FpgaPoke32 =>
          bus := bus + [FpgaWrite32(r.addr, r.data)];
        case FpgaPoke16 =>
          bus := bus + [FpgaWrite16(r.addr, r.data % 0x1_0000)];
        case FwPeek32 =>
          d := RegReply(fwRegs[r.addr]);
        case FwPoke32 =>
          fwRegs[r.addr] := r.data;
        case OtherAction(_) =>
      }
    }

    /**
     * handle_inp_packet: an IP-recovery frame sets the device address and
     * goes no further; every other frame goes to the slow-path handler.
     */
    method HandleInpPacket(frame: InpFrame)
      requires Valid()
      modifies this`ipAddr, this`slowPath
      ensures Valid()
      ensures IsIpRecovery(frame) ==> ipAddr == frame.ip && slowPath == old(slowPath)
      ensures !IsIpRecovery(frame) ==> ipAddr == old(ipAddr) && slowPath == old(slowPath) + [frame.words]
    {
      if frame.ethertype == 0xbeee && |frame.code| >= 4 && frame.code[..4] == "addr" {
        ipAddr := frame.ip;
        return;
      }
      slowPath := slowPath + [frame.words];
    }

    /**
     * link_changed_callback: a link that comes up makes the device the
     * routing master and announces its address; a link that goes down
     * makes it the slave.
     */
    method LinkChangedCallback(speed: int)
      requires Valid()
      modifies this`routingMode, this`gratuitousArps
      ensures Valid()
      ensures routingMode == RoutingModeFor(speed)
      ensures gratuitousArps == old(gratuitousArps) + (if speed != 0 then 1 else 0)
    {
      if speed != 0 {
        routingMode := Master;
        gratuitousArps := gratuitousArps + 1;
      } else {
        routingMode := Slave;
      }
    }
  }

  /**
   * The halt leaves every latched command of the lane in place and adds the
   * immediate, untimed halt at the end, whatever the lane was doing before.
   */
  lemma HaltIsImmediateAndLast(c: RxCtrl)
    ensures var r := HaltLane(c);
      && r.latched[..|c.latched|] == c.latched
      && r.latched[|r.latched| - 1] == StreamCmd(0x9000_0000, 0, 0)
  {
  }
}
