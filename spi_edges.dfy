/**
 * The flags argument that the control handler of txrx_uhd.c passes to
 * spi_transact, as C parses it, beside the per-field reading that the
 * layout of the expression suggests, and where the two part.
 */
module SpiEdges {
  /** Values of SPIF_PUSH_RISE, SPIF_PUSH_FALL, SPIF_LATCH_RISE, SPIF_LATCH_FALL. */
  datatype SpiFlagBits = SpiFlagBits(pushRise: bv32, pushFall: bv32, latchRise: bv32, latchFall: bv32)

  /** A clock-edge field; every value other than USRP2_CLK_EDGE_RISE reads as `Fall`. */
  datatype ClkEdge = Rise | Fall

  /**
   * The flags argument of spi_transact as C parses the expression at
   * txrx_uhd.c:202-203: the conditional binds loosest and `|` binds
   * tighter, so the second condition is `SPIF_PUSH_RISE | (miso == RISE)`.
   */
  function SpiFlags(f: SpiFlagBits, mosi: ClkEdge, miso: ClkEdge): (r: bv32)
    ensures mosi == Rise ==> r == f.pushFall
    ensures mosi == Fall && f.pushRise != 0 ==> r == f.latchRise
    ensures mosi == Fall && f.pushRise == 0 ==> r == (if miso == Rise then f.latchRise else f.latchFall)
  {
    if mosi == Rise then f.pushFall
    else if f.pushRise | (if miso == Rise then 1 else 0) != 0 then f.latchRise
    else f.latchFall
  }

  /** The per-field reading (push flag OR latch flag) that the layout of the source suggests. */
  function SpiFlagsPerField(f: SpiFlagBits, mosi: ClkEdge, miso: ClkEdge): bv32 {
    PushFlag(f, mosi) | LatchFlag(f, miso)
  }

  /** The push flag the per-field reading picks for a MOSI edge. */
  function PushFlag(f: SpiFlagBits, mosi: ClkEdge): bv32 {
    if mosi == Rise then f.pushFall else f.pushRise
  }

  /** The latch flag the per-field reading picks for a MISO edge. */
  function LatchFlag(f: SpiFlagBits, miso: ClkEdge): bv32 {
    if miso == Rise then f.latchRise else f.latchFall
  }

  /**
   * With a rising MOSI edge the parsed expression drops the latch flag
   * altogether, so it differs from the per-field reading exactly when the
   * latch flag has a bit outside SPIF_PUSH_FALL.
   */
  lemma SpiFlagsIgnoreMisoOnRisingMosi(f: SpiFlagBits, miso: ClkEdge)
    ensures SpiFlags(f, Rise, miso) == f.pushFall
    ensures SpiFlags(f, Rise, miso) != SpiFlagsPerField(f, Rise, miso)
            <==> LatchFlag(f, miso) & !f.pushFall != 0
  {
    PerFieldOnRisingMosi(f, miso);
    OrAddsBitsIff(f.pushFall, LatchFlag(f, miso));
  }

  /** On a rising MOSI edge the per-field reading is SPIF_PUSH_FALL OR the latch flag of the MISO edge. */
  lemma PerFieldOnRisingMosi(f: SpiFlagBits, miso: ClkEdge)
    ensures SpiFlagsPerField(f, Rise, miso) == f.pushFall | LatchFlag(f, miso)
  {
    OrSameWord(PushFlag(f, Rise), f.pushFall, LatchFlag(f, miso));
  }

  /** OR-ing in a word changes the other word exactly when it brings a bit not yet set. */
  lemma OrAddsBitsIff(a: bv32, c: bv32)
    ensures a | c != a <==> c & !a != 0
  {
  }

  /** With a falling MOSI edge and SPIF_PUSH_RISE zero, the parse agrees with the per-field reading. */
  lemma SpiFlagsOnFallingMosiPushRiseZero(f: SpiFlagBits, miso: ClkEdge)
    requires f.pushRise == 0
    ensures SpiFlags(f, Fall, miso) == SpiFlagsPerField(f, Fall, miso)
  {
    PerFieldOnFallingMosi(f, miso);
    ZeroOrIdentity(LatchFlag(f, miso));
  }

  /**
   * With a falling MOSI edge and SPIF_PUSH_RISE non-zero, the latch edge is
   * always SPIF_LATCH_RISE, and the parse agrees with the per-field reading
   * exactly when SPIF_LATCH_RISE equals SPIF_PUSH_RISE OR-ed with the latch
   * flag of the MISO edge.
   */
  lemma SpiFlagsOnFallingMosi(f: SpiFlagBits, miso: ClkEdge)
    requires f.pushRise != 0
    ensures SpiFlags(f, Fall, miso) == f.latchRise
    ensures SpiFlags(f, Fall, miso) == SpiFlagsPerField(f, Fall, miso) <==> f.latchRise == f.pushRise | LatchFlag(f, miso)
  {
    PerFieldOnFallingMosi(f, miso);
  }

  /** On a falling MOSI edge the per-field reading is SPIF_PUSH_RISE OR the latch flag of the MISO edge. */
  lemma PerFieldOnFallingMosi(f: SpiFlagBits, miso: ClkEdge)
    ensures SpiFlagsPerField(f, Fall, miso) == f.pushRise | LatchFlag(f, miso)
  {
    OrSameWord(PushFlag(f, Fall), f.pushRise, LatchFlag(f, miso));
  }

  /** OR-ing the same word into equal words gives equal words. */
  lemma OrSameWord(a: bv32, a': bv32, c: bv32)
    requires a == a'
    ensures a | c == a' | c
  {
  }

  /** OR-ing into a zero word gives the other word. */
  lemma ZeroOrIdentity(c: bv32)
    ensures 0 | c == c
  {
  }
}
