/** The numerically-controlled oscillator: a phase in turns (Q30, one turn
    is 2^30) selects an entry of a 1024-sample sine table; the cosine is the
    same table read a quarter turn (256 entries) further on.

    The table itself is external data whose contents are not modelled; the
    oscillator only relies on its length and on each entry being a Q2.30
    value in [-1.0, +1.0]. */
module Nco {
  import opened FixedPoint

  /** `SINE_N`: number of table entries. */
  const SINE_N: int := 1024

  /** Table entries per quarter turn. */
  const QUARTER_N: int := 256

  /** One table bin spans 2^20 units of Q30 phase (2^30 / 1024). */
  const BIN_Q30: int := 0x10_0000

  /** One full turn in Q30. */
  const TURN_Q30: int := 0x4000_0000

  /** A quarter turn in Q30. */
  const QUARTER_TURN_Q30: int := 0x1000_0000

  /** The shape of `sine_q230`: 1024 Q2.30 samples, each within [-1.0, +1.0]. */
  predicate IsSineTable(table: seq<int32>) {
    |table| == SINE_N &&
    forall i :: 0 <= i < |table| ==> -ONE_Q30 <= table[i] as int <= ONE_Q30
  }

  /** Taking bits 20..29 of a value is reducing it modulo one turn and then
      dividing by the bin width. */
  lemma TopBitsOfTurn(t: nat)
    ensures (t / BIN_Q30) % SINE_N == (t % TURN_Q30) / BIN_Q30
  {
    var a, b := t / TURN_Q30, t % TURN_Q30;
    assert t == a * TURN_Q30 + b;
    assert TURN_Q30 == SINE_N * BIN_Q30;
    assert t == (a * SINE_N) * BIN_Q30 + b;
    var c := b / BIN_Q30;
    assert b == c * BIN_Q30 + b % BIN_Q30;
    assert t == (a * SINE_N + c) * BIN_Q30 + b % BIN_Q30;
    assert t / BIN_Q30 == a * SINE_N + c;
    assert 0 <= c < SINE_N;
  }

  /** The sine index `(theta >> 20) & 1023`: the table bin that holds the
      turn fraction of theta (the bits of theta above bit 29 are ignored). */
  function SinIndex(theta: uint32): (idx: int)
    ensures 0 <= idx < SINE_N
    ensures idx * BIN_Q30 <= theta as int % TURN_Q30 < idx * BIN_Q30 + BIN_Q30
  {
    TopBitsOfTurn(theta as int);
    (theta as int / BIN_Q30) % SINE_N
  }

  /** theta advanced by a quarter turn, as a uint32 sum. */
  function QuarterTurnAhead(theta: uint32): uint32 {
    ((theta as int + QUARTER_TURN_Q30) % 0x1_0000_0000) as uint32
  }

  /** Advancing by a quarter turn modulo 2^32 advances the turn fraction by
      a quarter turn modulo one turn. */
  lemma QuarterTurnAheadFraction(theta: uint32)
    ensures QuarterTurnAhead(theta) as int % TURN_Q30 == (theta as int % TURN_Q30 + QUARTER_TURN_Q30) % TURN_Q30
  {
    var t := theta as int;
    var b := t % TURN_Q30;
    var a := t / TURN_Q30;
    var ahead := QuarterTurnAhead(theta) as int;
    var w := (t + QUARTER_TURN_Q30) / 0x1_0000_0000;
    assert ahead == t + QUARTER_TURN_Q30 - w * 0x1_0000_0000;
    assert t == a * TURN_Q30 + b;
    assert ahead == b + QUARTER_TURN_Q30 + (a - 4 * w) * TURN_Q30;
  }

  /** The bin a quarter turn ahead is 256 bins further on, modulo 1024. */
  lemma QuarterTurnAheadIndex(theta: uint32)
    ensures SinIndex(QuarterTurnAhead(theta)) == (SinIndex(theta) + QUARTER_N) % SINE_N
  {
    var b := theta as int % TURN_Q30;
    var ahead := QuarterTurnAhead(theta) as int;
    QuarterTurnAheadFraction(theta);
    TopBitsOfTurn(theta as int);
    TopBitsOfTurn(ahead);
    assert SinIndex(theta) == b / BIN_Q30;
    assert SinIndex(QuarterTurnAhead(theta)) == (ahead % TURN_Q30) / BIN_Q30;
    if b + QUARTER_TURN_Q30 < TURN_Q30 {
      assert ahead % TURN_Q30 == b + QUARTER_TURN_Q30;
      assert (b + QUARTER_TURN_Q30) / BIN_Q30 == b / BIN_Q30 + QUARTER_N;
    } else {
      assert ahead % TURN_Q30 == b + QUARTER_TURN_Q30 - TURN_Q30;
      assert (b + QUARTER_TURN_Q30 - TURN_Q30) / BIN_Q30 == b / BIN_Q30 + QUARTER_N - SINE_N;
    }
  }

  /** The cosine index `(idx + 256) & 1023`: the sine index of the phase a
      quarter turn ahead, so that cos(x) is read as sin(x + 90 degrees). */
  function CosIndex(theta: uint32): (idx: int)
    ensures 0 <= idx < SINE_N
    ensures idx == SinIndex(QuarterTurnAhead(theta))
  {
    QuarterTurnAheadIndex(theta);
    (SinIndex(theta) + QUARTER_N) % SINE_N
  }

  /** `sincos_from_theta_turn_q30`: the two out-pointers become two
      out-parameters.  The sine is the table entry of theta's bin, the cosine
      the entry of the bin a quarter turn ahead; both are within [-1.0, +1.0]. */
  method SinCosFromTheta(thetaQ30: uint32, table: seq<int32>) returns (s: int32, c: int32)
    requires IsSineTable(table)
    ensures s == table[SinIndex(thetaQ30)]
    ensures c == table[SinIndex(QuarterTurnAhead(thetaQ30))]
    ensures -ONE_Q30 <= s as int <= ONE_Q30 && -ONE_Q30 <= c as int <= ONE_Q30
  {
    var idx := (thetaQ30 as int / BIN_Q30) % SINE_N;
    assert idx == SinIndex(thetaQ30);
    s := table[idx];
    assert (idx + QUARTER_N) % SINE_N == CosIndex(thetaQ30);
    c := table[(idx + QUARTER_N) % SINE_N];
  }

  /** The four quarter-turn phases k * 2^28 (k = 0..3) read the sine at
      indices 0, 256, 512, 768, and the cosine one quarter further on. */
  lemma QuadrantIndices(k: int)
    requires 0 <= k < 4
    ensures SinIndex((k * QUARTER_TURN_Q30) as uint32) == k * QUARTER_N
    ensures CosIndex((k * QUARTER_TURN_Q30) as uint32) == (k + 1) % 4 * QUARTER_N
  {
  }
}
