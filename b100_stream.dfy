/**
 * The pure decisions of the B100 host streaming code (io_impl.cpp): how an
 * inbound async packet becomes an event record and which one-letter
 * marker it prints, the drop-oldest push of the async FIFO, the defaults
 * of a stream request, the samples-per-packet arithmetic, the converter
 * ids and the front-end swap flag; and the weak-handle registry arithmetic
 * that rate updates use.
 *
 * Sizes that live in headers outside this model (the VRT header budget,
 * the trailer and class-id sizes, the async stream id, the bytes per item
 * of a wire format) are parameters.
 */
module B100Stream {
  import opened Common

  // ---------------------------------------------------------------------
  // Async events
  // ---------------------------------------------------------------------

  datatype PacketType = Data | IfExt | Context

  /** The header fields handle_async_message reads, as the VRT unpacker left them. */
  datatype IfPacketInfo = IfPacketInfo(sid: nat, packetType: PacketType, hasTsi: bool, hasTsf: bool, tsi: int, tsf: nat)

  /** The named bits of an async event code; `OtherEventBit` is any bit the handler does not test. */
  datatype EventFlag = Underflow | UnderflowInPacket | SeqError | SeqErrorInBurst | TimeError | OtherEventBit(bit: nat)

  /** A time stamp as handed to time_spec_t: whole seconds, ticks and the tick rate (never evaluated here). */
  datatype TimeSpec = TimeSpec(fullSecs: int, ticks: nat, tickRate: real)

  datatype AsyncMetadata = AsyncMetadata(channel: nat, hasTimeSpec: bool, timeSpec: TimeSpec, eventCode: set<EventFlag>)

  /**
   * The record an inbound async packet becomes, if any: only a non-data
   * packet on the async stream id is an event; it is always for channel 0
   * and has a time only when both time words were present.
   */
  function AsyncEventOf(info: IfPacketInfo, txAsyncSid: nat, code: set<EventFlag>, clockRate: real): (r: Option<AsyncMetadata>)
    ensures r.Some? <==> info.sid == txAsyncSid && info.packetType != Data
    ensures r.Some? ==> && r.value.channel == 0
                        && r.value.hasTimeSpec == (info.hasTsi && info.hasTsf)
                        && r.value.eventCode == code
                        && r.value.timeSpec == TimeSpec(info.tsi, info.tsf, clockRate)
  {
    if info.sid == txAsyncSid && info.packetType != Data then
      Some(AsyncMetadata(0, info.hasTsi && info.hasTsf, TimeSpec(info.tsi, info.tsf, clockRate), code))
    else None
  }

  /**
   * The fast-path marker of an event: underflow before sequence error
   * before time error, nothing for any other code.
   */
  function FastpathMarker(code: set<EventFlag>): (m: Option<char>)
    ensures m == Some('U') <==> Underflow in code || UnderflowInPacket in code
    ensures m == Some('S') <==> Underflow !in code && UnderflowInPacket !in code
                                && (SeqError in code || SeqErrorInBurst in code)
    ensures m == Some('L') <==> Underflow !in code && UnderflowInPacket !in code
                                && SeqError !in code && SeqErrorInBurst !in code && TimeError in code
    ensures m.None? <==> forall f :: f in code ==> f.OtherEventBit?
  {
    if Underflow in code || UnderflowInPacket in code then Some('U')
    else if SeqError in code || SeqErrorInBurst in code then Some('S')
    else if TimeError in code then Some('L')
    else None
  }

  // ---------------------------------------------------------------------
  // The async FIFO (oldest first)
  // ---------------------------------------------------------------------

  /** Depth of the async message FIFO. */
  const AsyncFifoDepth: nat := 100

  /**
   * bounded_buffer::push_with_pop_on_full: the new record always goes in;
   * on a full queue the oldest one makes room for it.
   */
  function PushWithPopOnFull<T>(q: seq<T>, x: T, capacity: nat): (r: seq<T>)
    requires 0 < capacity && |q| <= capacity
    ensures 0 < |r| <= capacity && r[|r| - 1] == x
    ensures |q| < capacity ==> r == q + [x]
    ensures |q| == capacity ==> |r| == capacity && r[..|r| - 1] == q[1..]
  {
    if |q| < capacity then q + [x] else q[1..] + [x]
  }

  /** Pushes a whole series of records, one after the other. */
  function PushAll<T>(q: seq<T>, xs: seq<T>, capacity: nat): (r: seq<T>)
    requires 0 < capacity && |q| <= capacity
    ensures |r| <= capacity
    decreases |xs|
  {
    if xs == [] then q
    else PushAll(PushWithPopOnFull(q, xs[0], capacity), xs[1..], capacity)
  }

  function Min(a: nat, b: nat): nat { if a <= b then a else b }

  /**
   * However many records are pushed, the FIFO holds exactly the newest
   * `capacity` of everything ever pushed (or all of them), oldest first.
   */
  lemma {:induction false} PushAllKeepsNewest<T>(q: seq<T>, xs: seq<T>, capacity: nat)
    requires 0 < capacity && |q| <= capacity
    ensures var all := q + xs;
      PushAll(q, xs, capacity) == all[|all| - Min(|all|, capacity)..]
    decreases |xs|
  {
    var all := q + xs;
    if xs == [] {
      assert all == q;
    } else {
      var q' := PushWithPopOnFull(q, xs[0], capacity);
      PushAllKeepsNewest(q', xs[1..], capacity);
      var all' := q' + xs[1..];
      if |q| < capacity {
        assert all' == all;
      } else {
        assert all' == all[1..];
      }
    }
  }

  // ---------------------------------------------------------------------
  // Stream requests
  // ---------------------------------------------------------------------

  /** uhd::stream_args_t: CPU format, wire format, device arguments, channel list. */
  datatype StreamArgs = StreamArgs(cpuFormat: string, otwFormat: string, args: map<string, string>, channels: seq<nat>)

  /** The defaults of a stream request: wire format "sc16" and channel list [0] when left empty. */
  function WithDefaults(a: StreamArgs): (r: StreamArgs)
    ensures r.otwFormat != [] && r.channels != []
    ensures a.otwFormat != [] ==> r.otwFormat == a.otwFormat
    ensures a.otwFormat == [] ==> r.otwFormat == "sc16"
    ensures a.channels != [] ==> r.channels == a.channels
    ensures a.channels == [] ==> r.channels == [0]
    ensures r.cpuFormat == a.cpuFormat && r.args == a.args
  {
    a.(otwFormat := if a.otwFormat == [] then "sc16" else a.otwFormat,
       channels := if a.channels == [] then [0] else a.channels)
  }

  /** Filling in the defaults twice is filling them in once. */
  lemma WithDefaultsIdempotent(a: StreamArgs)
    ensures WithDefaults(WithDefaults(a)) == WithDefaults(a)
  {
  }

  /** Largest packet the FPGA packet buffer takes, in bytes. */
  const FpgaPacketBytes: nat := 2048

  /** vrt::max_if_hdr_words32, sizeof(tlr) and sizeof(cid). */
  datatype VrtSizes = VrtSizes(maxIfHdrWords32: nat, tlrBytes: nat, cidBytes: nat) {
    /** The header budgets neither underflow nor exceed the FPGA packet. */
    predicate Valid() {
      cidBytes <= maxIfHdrWords32 * 4 && maxIfHdrWords32 * 4 + tlrBytes - cidBytes <= FpgaPacketBytes
    }
  }

  /** Receive header budget: the largest header, with a trailer, without a class id. */
  function RxHeaderBytes(v: VrtSizes): (n: nat)
    requires v.Valid()
    ensures n <= FpgaPacketBytes
  {
    v.maxIfHdrWords32 * 4 + v.tlrBytes - v.cidBytes
  }

  /** Transmit header budget: the largest header without a class id (and no trailer). */
  function TxHeaderBytes(v: VrtSizes): (n: nat)
    requires v.Valid()
    ensures n <= RxHeaderBytes(v)
  {
    v.maxIfHdrWords32 * 4 - v.cidBytes
  }

  /** Samples per packet: as many items as fit in the FPGA packet after the header. */
  function SamplesPerPacket(headerBytes: nat, bytesPerItem: nat): (spp: nat)
    requires headerBytes <= FpgaPacketBytes && 0 < bytesPerItem
    ensures headerBytes + spp * bytesPerItem <= FpgaPacketBytes
    ensures FpgaPacketBytes < headerBytes + (spp + 1) * bytesPerItem
  {
    (FpgaPacketBytes - headerBytes) / bytesPerItem
  }

  /** The transmit path never fits fewer samples in a packet than the receive path, since it has no trailer. */
  lemma TxSppAtLeastRxSpp(v: VrtSizes, bytesPerItem: nat)
    requires v.Valid() && 0 < bytesPerItem
    ensures SamplesPerPacket(TxHeaderBytes(v), bytesPerItem) >= SamplesPerPacket(RxHeaderBytes(v), bytesPerItem)
  {
    var rx := SamplesPerPacket(RxHeaderBytes(v), bytesPerItem);
    var tx := SamplesPerPacket(TxHeaderBytes(v), bytesPerItem);
    if tx < rx {
      assert (tx + 1) * bytesPerItem <= rx * bytesPerItem by {
        MulMonotone(tx + 1, rx, bytesPerItem);
      }
    }
  }

  lemma MulMonotone(a: nat, b: nat, c: nat)
    requires a <= b
    ensures a * c <= b * c
  {
  }

  /** uhd::convert::id_type. */
  datatype ConvId = ConvId(inputFormat: string, numInputs: nat, outputFormat: string, numOutputs: nat)

  /** The item suffix of the wire side of every converter. */
  const ItemSuffix: string := "_item32_le"

  /** Receive converter: wire items in, CPU samples out, one buffer each. */
  function RxConverter(otwFormat: string, cpuFormat: string): (id: ConvId)
    ensures id.inputFormat == otwFormat + ItemSuffix && id.outputFormat == cpuFormat
    ensures id.numInputs == 1 && id.numOutputs == 1
  {
    ConvId(otwFormat + ItemSuffix, 1, cpuFormat, 1)
  }

  /** Transmit converter: the mirror image of the receive converter. */
  function TxConverter(cpuFormat: string, otwFormat: string): (id: ConvId)
    ensures id.inputFormat == cpuFormat && id.outputFormat == otwFormat + ItemSuffix
    ensures id.numInputs == 1 && id.numOutputs == 1
  {
    ConvId(cpuFormat, 1, otwFormat + ItemSuffix, 1)
  }

  /** The wire format named by the wire side of a converter, if it carries the item suffix. */
  function WireFormatOf(item: string): (r: Option<string>)
    ensures r.Some? ==> item == r.value + ItemSuffix
  {
    if |item| >= |ItemSuffix| && item[|item| - |ItemSuffix|..] == ItemSuffix
    then Some(item[..|item| - |ItemSuffix|])
    else None
  }

  /** The wire format can be read back from either converter, and the two converters mirror each other. */
  lemma ConvertersNameWireFormat(otwFormat: string, cpuFormat: string)
    ensures WireFormatOf(RxConverter(otwFormat, cpuFormat).inputFormat) == Some(otwFormat)
    ensures WireFormatOf(TxConverter(cpuFormat, otwFormat).outputFormat) == Some(otwFormat)
    ensures var rx := RxConverter(otwFormat, cpuFormat); var tx := TxConverter(cpuFormat, otwFormat);
      rx.inputFormat == tx.outputFormat && rx.outputFormat == tx.inputFormat
  {
    var item := otwFormat + ItemSuffix;
    assert item[..|item| - |ItemSuffix|] == otwFormat;
    assert item[|item| - |ItemSuffix|..] == ItemSuffix;
  }

  // ---------------------------------------------------------------------
  // Transmit channel check
  // ---------------------------------------------------------------------

  /** Index of the first channel that is not DSP 0 (the length when there is none). */
  function FirstNonZero(channels: seq<nat>): (k: nat)
    ensures k <= |channels|
    ensures forall i :: 0 <= i < k ==> channels[i] == 0
    ensures k < |channels| ==> channels[k] != 0
  {
    if channels == [] then 0
    else if channels[0] != 0 then 0
    else 1 + FirstNonZero(channels[1..])
  }

  // ---------------------------------------------------------------------
  // Front-end swap
  // ---------------------------------------------------------------------

  /** The receive front end is swapped exactly when the first subdevice is connected "QI" or "Q". */
  function FeSwapped(conns: seq<string>): (b: bool)
    ensures b <==> && |conns| > 0 && 1 <= |conns[0]| <= 2 && conns[0][0] == 'Q'
                   && (|conns[0]| == 2 ==> conns[0][1] == 'I')
  {
    |conns| > 0 && (conns[0] == "QI" || conns[0] == "Q")
  }

  // ---------------------------------------------------------------------
  // Streamers and their weak-handle registries
  // ---------------------------------------------------------------------

  datatype Direction = Rx | Tx

  /**
   * A streamer as far as this code sets it up: direction, samples per
   * packet, the DSP bound to each channel, the converter, and the rates the
   * updates hand it.
   */
  datatype Streamer = Streamer(
    dir: Direction, spp: nat, dsps: seq<nat>, converter: ConvId,
    tickRate: Option<real>, sampRate: Option<real>, scaleFactor: Option<real>)

  /** A registry slot: an empty weak pointer, or one naming a streamer that may have died since. */
  type Handle = Option<nat>

  /** The streamers the registry names, dead or alive. */
  function Held(reg: seq<Handle>): (ids: set<nat>)
    ensures forall i :: 0 <= i < |reg| && reg[i].Some? ==> reg[i].value in ids
    ensures forall id :: id in ids ==> exists i :: 0 <= i < |reg| && reg[i] == Some(id)
  {
    set i | 0 <= i < |reg| && reg[i].Some? :: reg[i].value
  }

  /** Growing the registry by one slot adds at most that slot's streamer. */
  lemma HeldSnoc(reg: seq<Handle>, h: Handle)
    ensures Held(reg + [h]) == Held(reg) + (if h.Some? then {h.value} else {})
  {
    var r := reg + [h];
    forall id | id in Held(r) ensures id in Held(reg) + (if h.Some? then {h.value} else {}) {
      var i :| 0 <= i < |r| && r[i] == Some(id);
      if i < |reg| {
        assert reg[i] == Some(id);
      }
    }
    forall id | id in Held(reg) ensures id in Held(r) {
      var i :| 0 <= i < |reg| && reg[i] == Some(id);
      assert r[i] == Some(id);
    }
    if h.Some? {
      assert r[|reg|] == h;
    }
  }

  /**
   * The live streamers after a tick-rate broadcast over the handles `ids`:
   * every live streamer named there takes the rate, every other one is
   * unchanged, and no dead streamer comes back.
   */
  function WithTickRate(pool: map<nat, Streamer>, ids: set<nat>, rate: real): (r: map<nat, Streamer>)
    ensures r.Keys == pool.Keys
    ensures forall id :: id in pool && id in ids ==> r[id] == pool[id].(tickRate := Some(rate))
    ensures forall id :: id in pool && id !in ids ==> r[id] == pool[id]
  {
    map id | id in pool :: if id in ids then pool[id].(tickRate := Some(rate)) else pool[id]
  }

  /** Updating one more live handle, or skipping one more dead handle, extends the broadcast by that handle. */
  lemma WithTickRateStep(pool: map<nat, Streamer>, ids: set<nat>, id: nat, rate: real)
    ensures id in pool ==>
      WithTickRate(pool, ids + {id}, rate)
        == WithTickRate(pool, ids, rate)[id := WithTickRate(pool, ids, rate)[id].(tickRate := Some(rate))]
    ensures id !in pool ==> WithTickRate(pool, ids + {id}, rate) == WithTickRate(pool, ids, rate)
  {
  }

  /** Two broadcasts of the same rate are one broadcast over both registries. */
  lemma WithTickRateUnion(pool: map<nat, Streamer>, a: set<nat>, b: set<nat>, rate: real)
    ensures WithTickRate(WithTickRate(pool, a, rate), b, rate) == WithTickRate(pool, a + b, rate)
  {
  }
}
