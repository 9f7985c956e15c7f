# UHD-Fairwaves: the ZPU firmware's UDP handlers and the B100 host stream setup, modelled in Dafny

This project models two small pieces of UHD-Fairwaves.

**The device firmware's packet handlers** (`firmware/zpu/apps/txrx_uhd.c`):

- the control-port dispatcher `handle_udp_ctrl_packet`. It chooses the final opcode from the payload length, the protocol version and the request id. It answers with the firmware compatibility number and the request's sequence number. It performs the addressing, ZPU, SPI, I2C, register peek/poke and echo actions, then sends the reply as a whole control struct, or with the request's echo length for an echo;
- the 8-entry firmware register file `fw_regs`;
- the data router `handle_udp_data_packet`. On destination-unreachable it halts the receive lane of the source port and then programs the framer with lane 0; for a packet with a payload, it programs the framer for the lane that the destination port selects, and does nothing when the port selects none;
- the address-recovery test of `handle_inp_packet`;
- the routing-mode choice of `link_changed_callback`.

**The B100 host's streaming glue** (`old/host/lib/usrp/b100/io_impl.cpp`):

- the 100-deep drop-oldest async message FIFO;
- the classification of inbound async packets and their one-letter fast-path markers;
- the defaults, samples-per-packet arithmetic, converter ids and wire-format check of `get_rx_stream` and `get_tx_stream`;
- the per-DSP registries of weak streamer handles that these functions fill, and that the tick-rate and sample-rate updates walk, skipping streamers that have died;
- the front-end swap flag of `update_rx_subdev_spec`.

Layout:

- `common.dfy` (module `Common`): `Option` and `Result`.
- `spi_edges.dfy` (module `SpiEdges`): the flags argument of the SPI transaction as C parses it, the per-field reading beside it, and where the two part.
- `fw_protocol.dfy` (module `FwProtocol`): the firmware's wire vocabulary and its pure decisions. `Respond` is the reference meaning of one control request, and the lemmas state the protocol's promises about it.
- `txrx_uhd.dfy` (module `TxrxUhd`): class `Firmware`, with the register file and the four receive control blocks as arrays. It holds the handlers as methods, each proved against the functions of `FwProtocol`.
- `b100_stream.dfy` (module `B100Stream`): the pure parts of the host code, namely event classification, FIFO push, defaults, packet sizing, converter ids and registry arithmetic.
- `b100_io.dfy` (module `B100Io`): class `B100Impl`, holding the DSP settings, the registries, the live streamers and the FIFO, with the stream-setup and rate-update methods.

How the model represents the surrounding system:

- **Build constants as parameters.** Values defined in headers outside these two files are fields of a `Build` record or parameters, never guessed numbers. These are the UDP ports, `USRP2_FW_COMPAT_NUM`, `sizeof(usrp2_ctrl_data_t)`, the `SPIF_*` bits, `vrt::max_if_hdr_words32`, the trailer and class-id sizes, `B100_TX_ASYNC_SID` and `convert::get_bytes_per_item`.
- **Build variants.** `Build.umtrx` and `Build.spiI2c` select the UMTRX and NO_SPI_I2C variants.
- **Calls out of the code.** Each kind of call has its own log on the `Firmware` object, kept in call order: sent UDP packets, framer setups, bus calls (SPI/I2C/FPGA/DAC) and frames handed to the slow-path Ethernet handler. The gratuitous ARP is only counted. The order between calls of different kinds is not kept. What the hardware answers arrives as an `HwReplies` parameter.
- **Weak pointers.** A weak pointer is a streamer id in a registry slot. The streamer is alive while its id is a key of `B100Impl.streamers`. `B100Impl.ReleaseStreamer` stands for the application dropping its last strong reference.

Two behaviours of the code worth knowing:

- **Echo reply.** The echo case sends the firmware's own reply struct (`ctrl_data_out`) with the request's `echo_args.len` as the send length. It does not send back a copy of the request payload.
- **SPI flags.** The flags argument of the SPI transaction follows the C parse of `txrx_uhd.c:202-203`. The conditional operator binds loosest, so with a rising MOSI edge the latch flag is dropped entirely, and with a falling one the latch choice tests `SPIF_PUSH_RISE | (miso == RISE)`. `SpiEdges.SpiFlagsPerField` is the per-field reading that the layout suggests, push flag OR latch flag. Three lemmas state, for each MOSI edge, the parsed value and the exact condition under which it differs from the per-field reading; with a falling MOSI edge and `SPIF_PUSH_RISE` zero the two always agree.

## Model

| member | source | states |
|---|---|---|
| FwProtocol.FinalOpcode | firmware/zpu/apps/txrx_uhd.c:126-146 | a packet shorter than the control struct gets HUH_WHAT whatever its version; otherwise a version mismatch (at least one word, wrong number) gives the build's addressing probe; otherwise the request's own id |
| FwProtocol.CtrlWarnings | firmware/zpu/apps/txrx_uhd.c:129-146 | the version warning is printed iff the version check fires and proto_ver is not 0; the short-packet warning iff the payload is shorter than the control struct |
| FwProtocol.RegisterAction | firmware/zpu/apps/txrx_uhd.c:243-269 | FW_PEEK32 answers fw_regs[addr] and changes nothing; FW_POKE32 stores the data at addr; no action touches any other firmware register |
| FwProtocol.Respond | firmware/zpu/apps/txrx_uhd.c:148-285 | every reply carries USRP2_FW_COMPAT_NUM and the request's seq, the register file keeps its 8 entries, and the printed messages are exactly those of the opcode choice |
| SpiEdges.SpiFlags | firmware/zpu/apps/txrx_uhd.c:202-203 | the flags argument as C parses it, case by case: a rising MOSI edge gives SPIF_PUSH_FALL whatever the MISO edge; a falling MOSI edge gives SPIF_LATCH_RISE whenever SPIF_PUSH_RISE is non-zero, and otherwise the latch flag of the MISO edge |
| SpiEdges.SpiFlagsIgnoreMisoOnRisingMosi | firmware/zpu/apps/txrx_uhd.c:202-203 | with a rising MOSI edge the flags are SPIF_PUSH_FALL alone, whatever the MISO edge, and they differ from the per-field reading exactly when the MISO edge's latch flag has a bit outside SPIF_PUSH_FALL |
| SpiEdges.SpiFlagsOnFallingMosi | firmware/zpu/apps/txrx_uhd.c:202-203 | with a falling MOSI edge and SPIF_PUSH_RISE non-zero the flags are SPIF_LATCH_RISE whatever the MISO edge, and they equal the per-field reading exactly when SPIF_LATCH_RISE equals SPIF_PUSH_RISE OR the MISO edge's latch flag |
| SpiEdges.SpiFlagsOnFallingMosiPushRiseZero | firmware/zpu/apps/txrx_uhd.c:202-203 | with a falling MOSI edge and SPIF_PUSH_RISE zero the flags equal the per-field reading, for either MISO edge |
| FwProtocol.VersionMismatchAnswersAddress | firmware/zpu/apps/txrx_uhd.c:129-170 | a full-length request with the wrong version is answered with the address reply and the device IP, sent at full size, touching no register and no bus |
| FwProtocol.ShortPacketAnswersHuhWhat | firmware/zpu/apps/txrx_uhd.c:141-152 | a short request is answered with exactly (compat number, HUH_WHAT, seq, no data) at full size and has no effect |
| FwProtocol.UnhandledAnswersHuhWhat | firmware/zpu/apps/txrx_uhd.c:155-284 | the reply id is HUH_WHAT iff the final opcode has no case in the build, and then nothing is done and no data is filled in |
| FwProtocol.EchoReplyLength | firmware/zpu/apps/txrx_uhd.c:276-285 | an echo is answered with HOLLER_BACK_DUDE and echo len = payload_len, sent with the request's echo len; every other reply is sent with the size of the control struct |
| FwProtocol.RegisterActionAcknowledged | firmware/zpu/apps/txrx_uhd.c:243-271 | every register action answers OMG_GOT_REGISTER_SO_BAD_DUDE, a firmware peek returns the stored value, and only a firmware poke's own entry can change |
| FwProtocol.FwPokeThenPeek | firmware/zpu/apps/txrx_uhd.c:261-267 | a firmware poke of entry a followed by a peek of a returns the poked value; the other seven entries are unchanged |
| FwProtocol.BusRepliesFollowRequest | firmware/zpu/apps/txrx_uhd.c:195-237 | the I2C replies carry the request's byte count and make exactly one read or write call with it; the SPI call is TX-only iff readback is 0, uses the parsed flags and its result is the reply |
| FwProtocol.LaneOf | firmware/zpu/apps/txrx_uhd.c:93-111 | a port selects a lane only if that lane's port is that port, and selects none when no lane has it |
| FwProtocol.LaneOfBijective | firmware/zpu/apps/txrx_uhd.c:59-111 | with distinct ports, DSP0, DSP0_2, DSP1, DSP1_2 map to lanes 0, 1, 2, 3 and back, and no two ports share a lane |
| FwProtocol.IsIpRecovery | firmware/zpu/apps/txrx_uhd.c:300 | a frame is an address-recovery frame iff its ethertype is 0xbeee and its first four code characters are 'a', 'd', 'd', 'r' (the four-character strncmp) |
| FwProtocol.RoutingModeFor | firmware/zpu/apps/txrx_uhd.c:317-327 | MASTER iff the link speed is non-zero, SLAVE otherwise |
| TxrxUhd.HaltLane | firmware/zpu/apps/txrx_uhd.c:62-64 | the halted block holds cmd (1<<31)\|(1<<28), zero seconds and zero ticks, and has latched exactly that command after the earlier ones |
| TxrxUhd.HaltIsImmediateAndLast | firmware/zpu/apps/txrx_uhd.c:59-89 | a halt keeps every earlier latched command and ends with the untimed command 0x90000000 |
| TxrxUhd.Firmware.constructor | firmware/zpu/apps/txrx_uhd.c:52 | the firmware register file starts as eight zeros (static storage), every control block idle, routing mode SLAVE, all logs empty |
| TxrxUhd.Firmware.HandleUdpDataPacket | firmware/zpu/apps/txrx_uhd.c:54-115 | an unreachable notice from a lane's port halts exactly that lane and then programs the framer with which = 0; from any other port it does nothing; a packet to a lane's port programs the framer with that lane, to any other port nothing |
| TxrxUhd.Firmware.HandleUdpCtrlPacket | firmware/zpu/apps/txrx_uhd.c:120-286 | the register file, the reply sent to the source from the control port with its length, the bus calls and the console messages are exactly those `Respond` gives for the old register file |
| TxrxUhd.Firmware.RegisterActionStep | firmware/zpu/apps/txrx_uhd.c:243-269 | the reply data, the register file and the bus calls are exactly those of `RegisterAction` |
| TxrxUhd.Firmware.HandleInpPacket | firmware/zpu/apps/txrx_uhd.c:289-308 | an ethertype 0xbeee frame with code "addr" sets the device address and skips the slow path; every other frame goes to the slow path and leaves the address alone |
| TxrxUhd.Firmware.LinkChangedCallback | firmware/zpu/apps/txrx_uhd.c:315-328 | the routing mode becomes `RoutingModeFor(speed)`, and one gratuitous ARP is sent exactly when the link is up |
| B100Stream.AsyncEventOf | old/host/lib/usrp/b100/io_impl.cpp:87-95 | a record exists iff the stream id is the async id and the packet is not data; it is for channel 0, has a time iff both time words came, and carries the event code and the stamp |
| B100Stream.FastpathMarker | old/host/lib/usrp/b100/io_impl.cpp:97-107 | "U" iff an underflow bit is set; "S" iff no underflow bit and a sequence-error bit; "L" iff only the time-error bit of the three groups; no marker iff no named bit is set |
| B100Stream.PushWithPopOnFull | old/host/lib/usrp/b100/io_impl.cpp:96 | the push always succeeds and the new record is last; below capacity it is appended; at capacity the oldest record is dropped and the length stays at capacity |
| B100Stream.PushAllKeepsNewest | old/host/lib/usrp/b100/io_impl.cpp:42-48 | after any series of pushes the FIFO holds exactly the newest min(total, capacity) records ever pushed, oldest first |
| B100Stream.WithDefaults | old/host/lib/usrp/b100/io_impl.cpp:202-204 | an empty wire format becomes "sc16" and an empty channel list becomes [0]; given values and everything else are kept |
| B100Stream.WithDefaultsIdempotent | old/host/lib/usrp/b100/io_impl.cpp:202-204 | filling in the defaults twice is filling them in once |
| B100Stream.RxHeaderBytes | old/host/lib/usrp/b100/io_impl.cpp:208-212 | the body is the source's max_if_hdr_words32*4 + sizeof tlr - sizeof cid; its bound of 2048 bytes is the assumption `VrtSizes.Valid` makes about the header constants, not a proved fact |
| B100Stream.TxHeaderBytes | old/host/lib/usrp/b100/io_impl.cpp:267-270 | the body is the source's max_if_hdr_words32*4 - sizeof cid, with no trailer, so it is never more than the receive budget; that packets fit in 2048 bytes is proved in `SamplesPerPacket` |
| B100Stream.SamplesPerPacket | old/host/lib/usrp/b100/io_impl.cpp:213-214 | spp is the largest item count that fits in the 2048-byte packet after the header |
| B100Stream.TxSppAtLeastRxSpp | old/host/lib/usrp/b100/io_impl.cpp:267-272 | the transmit spp is never smaller than the receive spp for the same item size |
| B100Stream.RxConverter | old/host/lib/usrp/b100/io_impl.cpp:224-229 | the receive converter takes wire format + "_item32_le" in and gives the CPU format out, one buffer each way |
| B100Stream.TxConverter | old/host/lib/usrp/b100/io_impl.cpp:282-287 | the transmit converter takes the CPU format in and gives wire format + "_item32_le" out, one buffer each way |
| B100Stream.ConvertersNameWireFormat | old/host/lib/usrp/b100/io_impl.cpp:224-229 | the wire format can be read back from either converter, and the receive and transmit converters mirror each other |
| B100Stream.FirstNonZero | old/host/lib/usrp/b100/io_impl.cpp:290-292 | the index of the first channel that is not DSP 0, with every channel before it DSP 0 |
| B100Stream.FeSwapped | old/host/lib/usrp/b100/io_impl.cpp:166-169 | the front end is swapped iff the spec is non-empty and entry 0's connection is one or two characters long, starts with 'Q' and, if two long, ends with 'I' (that is, "Q" or "QI") |
| B100Stream.Held | old/host/lib/usrp/b100/io_impl.cpp:127-136 | exactly the streamer ids some registry slot names |
| B100Stream.WithTickRate | old/host/lib/usrp/b100/io_impl.cpp:125-139 | a tick-rate broadcast sets the rate on every live streamer named and on no other, and revives no dead streamer |
| B100Stream.WithTickRateStep | old/host/lib/usrp/b100/io_impl.cpp:127-132 | one more live handle updates one more streamer; one more dead handle is skipped without effect |
| B100Stream.WithTickRateUnion | old/host/lib/usrp/b100/io_impl.cpp:125-139 | broadcasting over the receive registry and then the transmit registry is one broadcast over both |
| B100Io.BindRxChannels | old/host/lib/usrp/b100/io_impl.cpp:232-244 | binding a channel list keeps the number of receive DSPs |
| B100Io.BindRxChannelsPointwise | old/host/lib/usrp/b100/io_impl.cpp:232-236 | every DSP in the channel list gets the spp, wire format and scalar and is cleared once per occurrence (unless "noclear"); every other DSP is unchanged |
| B100Io.BindRxChannelLoop | old/host/lib/usrp/b100/io_impl.cpp:232-244 | the per-channel loop, updating each DSP field by field and each slot in turn, ends with exactly the DSPs of `BindRxChannels` and the registry of `PointSlots` |
| B100Io.PointSlots | old/host/lib/usrp/b100/io_impl.cpp:243 | pointing the slots keeps the registry size |
| B100Io.PointSlotsPointwise | old/host/lib/usrp/b100/io_impl.cpp:232-244 | exactly the registry slots in the channel list name the new streamer; the others keep their handle |
| B100Io.B100Impl.constructor | old/host/lib/usrp/b100/io_impl.cpp:55-74 | one empty receive slot per receive DSP, one empty transmit slot, an empty FIFO, no streamers |
| B100Io.B100Impl.HandleAsyncMessage | old/host/lib/usrp/b100/io_impl.cpp:76-110 | an async event is pushed drop-oldest onto the FIFO and answered with its fast-path marker; any other packet leaves the FIFO alone and reports "unknown"; the FIFO never exceeds 100 |
| B100Io.B100Impl.RecvAsyncMsg | old/host/lib/usrp/b100/io_impl.cpp:189-194 | the oldest record is removed and returned; an empty FIFO yields nothing and stays empty |
| B100Io.B100Impl.UpdateTickRate | old/host/lib/usrp/b100/io_impl.cpp:125-139 | the live streamers become `WithTickRate` over the ids held in both registries |
| B100Io.B100Impl.UpdateRxSampRate | old/host/lib/usrp/b100/io_impl.cpp:141-149 | a live streamer in the slot takes the sample rate and the scale factor; an empty or dead slot changes nothing |
| B100Io.B100Impl.UpdateTxSampRate | old/host/lib/usrp/b100/io_impl.cpp:151-157 | a live streamer in the slot takes the sample rate; an empty or dead slot changes nothing |
| B100Io.B100Impl.UpdateRxSubdevSpec | old/host/lib/usrp/b100/io_impl.cpp:159-173 | each DSP of the spec gets its connection and the swap flag, which is set iff entry 0 is "QI" or "Q"; later DSPs are untouched; the front end gets the same flag |
| B100Io.B100Impl.GetRxStream | old/host/lib/usrp/b100/io_impl.cpp:199-250 | a fresh streamer with the receive spp, the defaulted channels and the receive converter becomes live; the channels' DSPs and registry slots are set as `BindRxChannelsPointwise` and `PointSlotsPointwise` state, and nothing else changes |
| B100Io.B100Impl.GetTxStream | old/host/lib/usrp/b100/io_impl.cpp:255-305 | a wire format other than "sc16" fails with nothing changed; otherwise the transmit DSP is cleared and given the underflow policy once per leading channel 0; then either all channels are 0 and a fresh streamer with the transmit spp and converter goes live in slot 0, or the first non-zero channel fails the call and the new streamer dies |

## Left out

- Raw FPGA memory access through pointer casts (`txrx_uhd.c:245-258`): it is recorded as a bus call, and the value read is supplied by the caller. There is no memory map, so an FPGA poke followed by a peek is not related.
- Foreign calls are recorded effects or supplied values, never modelled: `spi_transact`, `i2c_read`/`i2c_write`, `get_vctcxo_dac`/`set_vctcxo_dac`, `arp_cache_lookup_mac` (its answer is a parameter and a failed lookup is not distinguished), `setup_framer`, `send_udp_pkt`, `handle_eth_packet` and `send_gratuitous_arp`.
- The VRT header codec (`vrt::if_hdr_unpack_le`/`pack_le`) and `sph::get_context_code`: the unpacked header fields and the event code are inputs. An unpack error only logs, so it is not modelled.
- Logging: `printf`, the LED calls and `UHD_MSG` are left out. The exceptions are modelled: the two console messages of the control handler, the fast-path marker, and the "Unknown async packet" message (`io_impl.cpp:109`), which is the `UnknownAsyncPacket` outcome of `B100Io.B100Impl.HandleAsyncMessage`.
- The firmware's `main` polling loop, interrupt handler, UART and Ethernet bring-up. The start-up write of `fw_regs[U2_FW_REG_VER_MINOR]` (`txrx_uhd.c:343`) belongs to `main` and is not modelled, so the constructor starts from zeroed registers.
- Threading: `bounded_buffer` locking, `disable_interruption` and the timed wait of `recv_async_msg`. `B100Io.B100Impl.RecvAsyncMsg` returns nothing at once on an empty FIFO, in place of waiting for `timeout`.
- Floating point: tick rates, sample rates, `get_scaling_adjustment` and `time_spec_t` are opaque `real` values passed through. The `"scalar"` stream argument is passed in already converted to an unsigned number.
- The property tree, `update_rates`, `validate_subdev_spec` and the connection lookup: `update_rx_subdev_spec` receives the list of connections directly. The rates that `update_rates` re-applies after stream setup are not modelled.
- `update_tx_subdev_spec` (a single mux write outside the swap-flag logic) is not part of this model.
- The streamer's per-channel buffer and overflow callbacks, `set_vrt_unpacker`/`set_vrt_packer` and `resize`: the streamer records its channel list, spp and converter only.
- `io_init`'s `poke32` writes and the demuxer are not modelled; the constructor models the registry sizes and the empty FIFO.
- `lms_dboard_iface.hpp` is a forwarder with no logic of its own and is not part of this model.
- Only the request arm that each case reads is modelled. `payload_len` is an unsigned 32-bit byte count, because the C compares it with `sizeof` values as unsigned.
- B100Io.B100Impl.GetRxStream: requires every requested channel to be below the number of receive DSPs, because `_rx_dsps[dsp]` and `_rx_streamers[dsp]` are indexed unchecked (io_impl.cpp:234-243); it also requires a non-zero item size for the wire format, because spp divides by it (io_impl.cpp:214). Both excluded cases are undefined behaviour.
- B100Io.B100Impl.GetTxStream: requires a non-zero item size for "sc16", because spp divides by it (io_impl.cpp:272); a zero item size is undefined behaviour.
- B100Io.B100Impl.UpdateRxSampRate: requires `dspno` to be a receive registry slot, because `_rx_streamers[dspno]` is indexed unchecked (io_impl.cpp:143); an out-of-range index is undefined behaviour.
- B100Io.B100Impl.UpdateTxSampRate: requires `dspno` to be the transmit registry slot, because `_tx_streamers[dspno]` is indexed unchecked (io_impl.cpp:153); an out-of-range index is undefined behaviour.
- B100Io.B100Impl.UpdateRxSubdevSpec: requires the spec to name no more subdevices than there are receive DSPs, because `_rx_dsps[i]` is indexed unchecked (io_impl.cpp:170); a longer spec is undefined behaviour unless `validate_subdev_spec` rejects it, and that validation is not part of this model.
- TxrxUhd.Firmware.HandleUdpCtrlPacket: requires a firmware-register index below 8 for FW_PEEK32/FW_POKE32, because the C indexes `fw_regs[8]` unchecked and an out-of-range index is undefined behaviour.
