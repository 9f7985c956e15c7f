/**
 * The state the B100 io_impl.cpp code keeps and updates: the receive DSPs
 * and the transmit DSP as far as stream setup configures them, the receive
 * front-end mux, the weak-handle registries of receive and transmit
 * streamers, the streamers still alive, and the async message FIFO.
 *
 * A weak handle is a streamer id; the streamer is alive while its id is a
 * key of `streamers`. `ReleaseStreamer` is the application dropping its
 * last strong reference.
 */
module B100Io {
  import opened Common
  import opened B100Stream

  /** What stream setup and the subdevice spec leave in a receive DSP. */
  datatype RxDsp = RxDsp(nsampsPerPacket: nat, otwFormat: string, sc8Scalar: nat, clears: nat, muxConn: string, muxSwapped: bool)

  /** What transmit stream setup leaves in the transmit DSP. */
  datatype TxDsp = TxDsp(clears: nat, underflowPolicy: Option<string>)

  /** What an inbound async packet led to: an event queued (with its console marker) or the "unknown" message. */
  datatype AsyncOutcome = Queued(marker: Option<char>) | UnknownAsyncPacket

  datatype StreamError = UnsupportedWireFormat(format: string) | ChannelNotZero(dsp: nat)

  /** A receive DSP after one bind of a receive streamer (`clears` times cleared). */
  function BoundRxDsp(d: RxDsp, spp: nat, otwFormat: string, sc8Scalar: nat, clears: nat): RxDsp {
    d.(nsampsPerPacket := spp, otwFormat := otwFormat, sc8Scalar := sc8Scalar, clears := d.clears + clears)
  }

  /** The receive DSPs after channels `chans` were bound in order (each bind clears the DSP when `clear`). */
  function BindRxChannels(dsps: seq<RxDsp>, chans: seq<nat>, spp: nat, otwFormat: string, sc8Scalar: nat, clear: bool): (r: seq<RxDsp>)
    requires forall i :: 0 <= i < |chans| ==> chans[i] < |dsps|
    ensures |r| == |dsps|
    decreases |chans|
  {
    if chans == [] then dsps
    else
      var p := BindRxChannels(dsps, chans[..|chans| - 1], spp, otwFormat, sc8Scalar, clear);
      var dsp := chans[|chans| - 1];
      p[dsp := BoundRxDsp(p[dsp], spp, otwFormat, sc8Scalar, if clear then 1 else 0)]
  }

  /**
   * Binding a channel list leaves untouched every DSP not in it, and leaves
   * every DSP in it configured and cleared once per occurrence.
   */
  lemma {:induction false} BindRxChannelsPointwise(dsps: seq<RxDsp>, chans: seq<nat>, spp: nat, otwFormat: string, sc8Scalar: nat, clear: bool)
    requires forall i :: 0 <= i < |chans| ==> chans[i] < |dsps|
    ensures var r := BindRxChannels(dsps, chans, spp, otwFormat, sc8Scalar, clear);
      forall j :: 0 <= j < |dsps| ==>
        r[j] == if j in chans
                then BoundRxDsp(dsps[j], spp, otwFormat, sc8Scalar, if clear then multiset(chans)[j] else 0)
                else dsps[j]
    decreases |chans|
  {
    if chans != [] {
      var init := chans[..|chans| - 1];
      var dsp := chans[|chans| - 1];
      assert chans == init + [dsp];
      BindRxChannelsPointwise(dsps, init, spp, otwFormat, sc8Scalar, clear);
      assert multiset(chans) == multiset(init) + multiset{dsp};
    }
  }

  /** The registry after channels `chans` were pointed at streamer `id` in order. */
  function PointSlots(reg: seq<Handle>, chans: seq<nat>, id: nat): (r: seq<Handle>)
    requires forall i :: 0 <= i < |chans| ==> chans[i] < |reg|
    ensures |r| == |reg|
    decreases |chans|
  {
    if chans == [] then reg
    else PointSlots(reg, chans[..|chans| - 1], id)[chans[|chans| - 1] := Some(id)]
  }

  /** Exactly the slots named in `chans` hold the new handle; the others keep theirs. */
  lemma {:induction false} PointSlotsPointwise(reg: seq<Handle>, chans: seq<nat>, id: nat)
    requires forall i :: 0 <= i < |chans| ==> chans[i] < |reg|
    ensures var r := PointSlots(reg, chans, id);
      forall j :: 0 <= j < |reg| ==> r[j] == if j in chans then Some(id) else reg[j]
    decreases |chans|
  {
    if chans != [] {
      var init := chans[..|chans| - 1];
      assert chans == init + [chans[|chans| - 1]];
      PointSlotsPointwise(reg, init, id);
    }
  }

  /**
   * The channel loop of get_rx_stream: for each channel in order, set the
   * DSP's samples per packet, clear it (unless told not to), set its wire
   * format and scalar, and point its registry slot at streamer `id`.
   */
  method BindRxChannelLoop(dsps0: seq<RxDsp>, reg0: seq<Handle>, chans: seq<nat>, spp: nat,
                           otwFormat: string, sc8Scalar: nat, clear: bool, id: nat)
    returns (dsps: seq<RxDsp>, reg: seq<Handle>)
    requires |reg0| == |dsps0|
    requires forall i :: 0 <= i < |chans| ==> chans[i] < |dsps0|
    ensures dsps == BindRxChannels(dsps0, chans, spp, otwFormat, sc8Scalar, clear)
    ensures reg == PointSlots(reg0, chans, id)
  {
    dsps, reg := dsps0, reg0;
    for ci := 0 to |chans|
      invariant dsps == BindRxChannels(dsps0, chans[..ci], spp, otwFormat, sc8Scalar, clear)
      invariant reg == PointSlots(reg0, chans[..ci], id)
    {
      var dsp := chans[ci];
      assert chans[..ci + 1][..ci] == chans[..ci];
      dsps := dsps[dsp := dsps[dsp].(nsampsPerPacket := spp)];
      if clear {
        dsps := dsps[dsp := dsps[dsp].(clears := dsps[dsp].clears + 1)];
      }
      dsps := dsps[dsp := dsps[dsp].(otwFormat := otwFormat, sc8Scalar := sc8Scalar)];
      reg := reg[dsp := Some(id)];
    }
    assert chans[..|chans|] == chans;
  }

  class B100Impl {
    const vrt: VrtSizes
    const txAsyncSid: nat
    var rxDsps: seq<RxDsp>
    var txDsp: TxDsp
    var rxFeSwapped: bool
    var rxStreamers: seq<Handle>
    var txStreamers: seq<Handle>
    var streamers: map<nat, Streamer>
    var nextStreamer: nat
    var asyncMsgFifo: seq<AsyncMetadata>

    ghost predicate Valid()
      reads this
    {
      && vrt.Valid()
      && |rxStreamers| == |rxDsps|
      && |txStreamers| == 1
      && |asyncMsgFifo| <= AsyncFifoDepth
      && (forall id :: id in streamers ==> id < nextStreamer)
      && (forall i :: 0 <= i < |rxStreamers| && rxStreamers[i].Some? ==> rxStreamers[i].value < nextStreamer)
      && (forall i :: 0 <= i < |txStreamers| && txStreamers[i].Some? ==> txStreamers[i].value < nextStreamer)
    }

    /** io_init: one empty registry slot per receive DSP, one for the transmit DSP, an empty FIFO. */
    constructor (v: VrtSizes, sid: nat, dsps: seq<RxDsp>, tx: TxDsp)
      requires v.Valid()
      ensures Valid()
      ensures vrt == v && txAsyncSid == sid && rxDsps == dsps && txDsp == tx
      ensures rxStreamers == seq(|dsps|, _ => None) && txStreamers == [None]
      ensures streamers == map[] && asyncMsgFifo == []
    {
      vrt, txAsyncSid := v, sid;
      rxDsps, txDsp, rxFeSwapped := dsps, tx, false;
      rxStreamers := seq(|dsps|, _ => None);
      txStreamers := [None];
      streamers, nextStreamer := map[], 0;
      asyncMsgFifo := [];
    }

    /**
     * handle_async_message: `info` is what the VRT unpacker left (an unpack
     * error is only reported), `code` the context code of the packet.
     */
    method HandleAsyncMessage(info: IfPacketInfo, code: set<EventFlag>, clockRate: real) returns (outcome: AsyncOutcome)
      requires Valid()
      modifies this`asyncMsgFifo
      ensures Valid()
      ensures match AsyncEventOf(info, txAsyncSid, code, clockRate)
        case Some(md) =>
          asyncMsgFifo == PushWithPopOnFull(old(asyncMsgFifo), md, AsyncFifoDepth)
          && outcome == Queued(FastpathMarker(code))
        case None =>
          asyncMsgFifo == old(asyncMsgFifo) && outcome == UnknownAsyncPacket
    {
      if info.sid == txAsyncSid && info.packetType != Data {
        var md := AsyncMetadata(0, info.hasTsi && info.hasTsf, TimeSpec(info.tsi, info.tsf, clockRate), code);
        asyncMsgFifo := PushWithPopOnFull(asyncMsgFifo, md, AsyncFifoDepth);
        var marker := None;
        if Underflow in code || UnderflowInPacket in code {
          marker := Some('U');
        } else if SeqError in code || SeqErrorInBurst in code {
          marker := Some('S');
        } else if TimeError in code {
          marker := Some('L');
        }
        outcome := Queued(marker);
      } else {
        outcome := UnknownAsyncPacket;
      }
    }

    /** recv_async_msg: the oldest record, or nothing when the FIFO stayed empty for the whole wait. */
    method RecvAsyncMsg() returns (md: Option<AsyncMetadata>)
      requires Valid()
      modifies this`asyncMsgFifo
      ensures Valid()
      ensures old(asyncMsgFifo) == [] ==> md == None && asyncMsgFifo == []
      ensures old(asyncMsgFifo) != [] ==> md == Some(old(asyncMsgFifo)[0]) && asyncMsgFifo == old(asyncMsgFifo)[1..]
    {
      if asyncMsgFifo == [] {
        md := None;
      } else {
        md := Some(asyncMsgFifo[0]);
        asyncMsgFifo := asyncMsgFifo[1..];
      }
    }

    /** update_tick_rate: every live streamer in either registry takes the rate; dead handles are skipped. */
    method UpdateTickRate(rate: real)
      requires Valid()
      modifies this`streamers
      ensures Valid()
      ensures streamers == WithTickRate(old(streamers), Held(rxStreamers) + Held(txStreamers), rate)
    {
      for i := 0 to |rxStreamers|
        invariant streamers == WithTickRate(old(streamers), Held(rxStreamers[..i]), rate)
      {
        HeldSnoc(rxStreamers[..i], rxStreamers[i]);
        assert rxStreamers[..i + 1] == rxStreamers[..i] + [rxStreamers[i]];
        match rxStreamers[i] {
          case Some(id) =>
            WithTickRateStep(old(streamers), Held(rxStreamers[..i]), id, rate);
            if id in streamers {
              streamers := streamers[id := streamers[id].(tickRate := Some(rate))];
            }
          case None =>
        }
      }
      assert rxStreamers[..|rxStreamers|] == rxStreamers;
      ghost var afterRx := streamers;
      for i := 0 to |txStreamers|
        invariant streamers == WithTickRate(afterRx, Held(txStreamers[..i]), rate)
      {
        HeldSnoc(txStreamers[..i], txStreamers[i]);
        assert txStreamers[..i + 1] == txStreamers[..i] + [txStreamers[i]];
        match txStreamers[i] {
          case Some(id) =>
            WithTickRateStep(afterRx, Held(txStreamers[..i]), id, rate);
            if id in streamers {
              streamers := streamers[id := streamers[id].(tickRate := Some(rate))];
            }
          case None =>
        }
      }
      assert txStreamers[..|txStreamers|] == txStreamers;
      WithTickRateUnion(old(streamers), Held(rxStreamers), Held(txStreamers), rate);
    }

    /** update_rx_samp_rate: a live streamer in slot `dspno` takes the rate and the DSP's scaling adjustment. */
    method UpdateRxSampRate(dspno: nat, rate: real, scalingAdjustment: real)
      requires Valid()
      requires dspno < |rxStreamers|
      modifies this`streamers
      ensures Valid()
      ensures match rxStreamers[dspno]
        case Some(id) =>
          if id in old(streamers)
          then streamers == old(streamers)[id := old(streamers)[id].(sampRate := Some(rate), scaleFactor := Some(scalingAdjustment))]
          else streamers == old(streamers)
        case None => streamers == old(streamers)
    {
      match rxStreamers[dspno] {
        case None => return;
        case Some(id) =>
          if id !in streamers {
            return;
          }
          streamers := streamers[id := streamers[id].(sampRate := Some(rate))];
          streamers := streamers[id := streamers[id].(scaleFactor := Some(scalingAdjustment))];
      }
    }

    /** update_tx_samp_rate: a live streamer in slot `dspno` takes the rate. */
    method UpdateTxSampRate(dspno: nat, rate: real)
      requires Valid()
      requires dspno < |txStreamers|
      modifies this`streamers
      ensures Valid()
      ensures match txStreamers[dspno]
        case Some(id) =>
          if id in old(streamers)
          then streamers == old(streamers)[id := old(streamers)[id].(sampRate := Some(rate))]
          else streamers == old(streamers)
        case None => streamers == old(streamers)
    {
      match txStreamers[dspno] {
        case None => return;
        case Some(id) =>
          if id !in streamers {
            return;
          }
          streamers := streamers[id := streamers[id].(sampRate := Some(rate))];
      }
    }

    /**
     * update_rx_subdev_spec (the mux part): `conns` holds the connection of
     * each subdevice of the spec. Every DSP of the spec gets its connection
     * and the swap flag, which the first subdevice alone decides; the front
     * end gets the flag too.
     */
    method UpdateRxSubdevSpec(conns: seq<string>)
      requires Valid()
      requires |conns| <= |rxDsps|
      modifies this`rxDsps, this`rxFeSwapped
      ensures Valid()
      ensures |rxDsps| == |old(rxDsps)|
      ensures forall j :: 0 <= j < |conns| ==>
        rxDsps[j] == old(rxDsps)[j].(muxConn := conns[j], muxSwapped := FeSwapped(conns))
      ensures forall j :: |conns| <= j < |rxDsps| ==> rxDsps[j] == old(rxDsps)[j]
      ensures rxFeSwapped == FeSwapped(conns)
    {
      var feSwapped := false;
      for i := 0 to |conns|
        invariant feSwapped == (i > 0 && FeSwapped(conns))
        invariant |rxDsps| == |old(rxDsps)|
        invariant forall j :: 0 <= j < i ==> rxDsps[j] == old(rxDsps)[j].(muxConn := conns[j], muxSwapped := feSwapped)
        invariant forall j :: i <= j < |rxDsps| ==> rxDsps[j] == old(rxDsps)[j]
      {
        var conn := conns[i];
        if i == 0 && (conn == "QI" || conn == "Q") {
          feSwapped := true;
        }
        rxDsps := rxDsps[i := rxDsps[i].(muxConn := conn, muxSwapped := feSwapped)];
      }
      rxFeSwapped := feSwapped;
    }

    /**
     * get_rx_stream: fills in the defaults, sizes packets from the receive
     * header budget, creates the streamer, and for every requested channel
     * configures that DSP and points its registry slot at the new streamer.
     * `bytesPerItem` is convert::get_bytes_per_item; `sc8Scalar` is the
     * "scalar" argument as a number (0x400 when absent).
     */
    method GetRxStream(args: StreamArgs, bytesPerItem: string -> nat, sc8Scalar: nat) returns (id: nat)
      requires Valid()
      requires bytesPerItem(WithDefaults(args).otwFormat) > 0
      requires forall i :: 0 <= i < |WithDefaults(args).channels| ==> WithDefaults(args).channels[i] < |rxDsps|
      modifies this`rxDsps, this`rxStreamers, this`streamers, this`nextStreamer
      ensures Valid()
      ensures var a := WithDefaults(args);
        var spp := SamplesPerPacket(RxHeaderBytes(vrt), bytesPerItem(a.otwFormat));
        && id !in old(streamers)
        && streamers == old(streamers)[id := Streamer(Rx, spp, a.channels, RxConverter(a.otwFormat, a.cpuFormat), None, None, None)]
        && |rxDsps| == |old(rxDsps)|
        && (forall j :: 0 <= j < |rxDsps| ==>
              rxDsps[j] == if j in a.channels
                           then BoundRxDsp(old(rxDsps)[j], spp, a.otwFormat, sc8Scalar,
                                           if "noclear" in a.args then 0 else multiset(a.channels)[j])
                           else old(rxDsps)[j])
        && (forall j :: 0 <= j < |rxStreamers| ==>
              rxStreamers[j] == if j in a.channels then Some(id) else old(rxStreamers)[j])
    {
      var a := WithDefaults(args);
      var spp := SamplesPerPacket(RxHeaderBytes(vrt), bytesPerItem(a.otwFormat));
      id := nextStreamer;
      nextStreamer := nextStreamer + 1;
      streamers := streamers[id := Streamer(Rx, spp, a.channels, RxConverter(a.otwFormat, a.cpuFormat), None, None, None)];
      var clear := "noclear" !in a.args;
      var dsps, reg := BindRxChannelLoop(rxDsps, rxStreamers, a.channels, spp, a.otwFormat, sc8Scalar, clear, id);
      BindRxChannelsPointwise(rxDsps, a.channels, spp, a.otwFormat, sc8Scalar, clear);
      PointSlotsPointwise(rxStreamers, a.channels, id);
      rxDsps, rxStreamers := dsps, reg;
    }

    /**
     * get_tx_stream: fills in the defaults and refuses any wire format but
     * "sc16"; then creates the streamer and binds the channels in order,
     * each of which must be DSP 0. A channel that is not 0 ends the call
     * with an error after the earlier channels were bound; the new streamer
     * then dies and its registry slot holds a dead handle.
     */
    method GetTxStream(args: StreamArgs, bytesPerItem: string -> nat) returns (r: Result<nat, StreamError>)
      requires Valid()
      requires bytesPerItem("sc16") > 0
      modifies this`txDsp, this`txStreamers, this`streamers, this`nextStreamer
      ensures Valid()
      ensures var a := WithDefaults(args);
        a.otwFormat != "sc16" ==>
          && r == Failure(UnsupportedWireFormat(a.otwFormat))
          && txDsp == old(txDsp) && txStreamers == old(txStreamers) && streamers == old(streamers)
      ensures var a := WithDefaults(args);
        var k := FirstNonZero(a.channels);
        var id := old(nextStreamer);
        var spp := SamplesPerPacket(TxHeaderBytes(vrt), bytesPerItem("sc16"));
        a.otwFormat == "sc16" ==>
          && id !in old(streamers)
          && txDsp.clears == old(txDsp).clears + (if "noclear" in a.args then 0 else k)
          && txDsp.underflowPolicy
               == (if k > 0 && "underflow_policy" in a.args then Some(a.args["underflow_policy"]) else old(txDsp).underflowPolicy)
          && txStreamers == (if k > 0 then [Some(id)] else old(txStreamers))
          && (k == |a.channels| ==>
                && r == Success(id)
                && streamers == old(streamers)[id := Streamer(Tx, spp, a.channels, TxConverter(a.cpuFormat, a.otwFormat), None, None, None)])
          && (k < |a.channels| ==> r == Failure(ChannelNotZero(a.channels[k])) && streamers == old(streamers))
    {
      var a := WithDefaults(args);
      if a.otwFormat != "sc16" {
        return Failure(UnsupportedWireFormat(a.otwFormat));
      }
      var spp := SamplesPerPacket(TxHeaderBytes(vrt), bytesPerItem(a.otwFormat));
      var id := nextStreamer;
      nextStreamer := nextStreamer + 1;
      var s := Streamer(Tx, spp, a.channels, TxConverter(a.cpuFormat, a.otwFormat), None, None, None);
      var k := FirstNonZero(a.channels);
      var dspState, reg := txDsp, txStreamers;
      var err: Option<nat> := None;
      var ci := 0;
      while ci < |a.channels| && err == None
        invariant ci <= k
        invariant err == None ==> ci == k || ci < |a.channels|
        invariant err != None ==> ci == k && k < |a.channels| && err == Some(a.channels[k])
        invariant dspState.clears == old(txDsp).clears + (if "noclear" in a.args then 0 else ci)
        invariant dspState.underflowPolicy
               == (if ci > 0 && "underflow_policy" in a.args then Some(a.args["underflow_policy"]) else old(txDsp).underflowPolicy)
        invariant reg == (if ci > 0 then [Some(id)] else old(txStreamers))
        decreases |a.channels| - ci, if err == None then 1 else 0
      {
        var dsp := a.channels[ci];
        if dsp != 0 {
          err := Some(dsp);
        } else {
          if "noclear" !in a.args {
            dspState := dspState.(clears := dspState.clears + 1);
          }
          if "underflow_policy" in a.args {
            dspState := dspState.(underflowPolicy := Some(a.args["underflow_policy"]));
          }
          reg := reg[dsp := Some(id)];
          ci := ci + 1;
        }
      }
      txDsp, txStreamers := dspState, reg;
      if err.Some? {
        return Failure(ChannelNotZero(err.value));
      }
      streamers := streamers[id := s];
      r := Success(id);
    }

    /** The application drops its last reference: the streamer dies, its handles stay behind. */
    method ReleaseStreamer(id: nat)
      requires Valid()
      modifies this`streamers
      ensures Valid()
      ensures streamers == old(streamers) - {id}
    {
      streamers := streamers - {id};
    }
  }
}
