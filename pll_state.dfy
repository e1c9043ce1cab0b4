/** The state record `pll_q30_state_t` as a class whose fields `pll_q30_init`,
    `pll_q30_step` and `pll_q30_step_hdl_io` update in place.  Each method
    does the source's field assignments in the source's order and is proved
    to leave the record equal to the corresponding function of PllSpec
    applied to the record it started from. */
module PllQ30 {
  import opened FixedPoint
  import opened Nco
  import PllSpec

  class PllState {
    var kpQ30: int32
    var kiQ30: int32
    var thetaQ30: uint32
    var integratorQ30: int32
    var sinQ30: int32
    var cosQ30: int32
    var outFQ25: int32
    var deltaFQ25: int32

    /** A fresh record.  Dafny must give every field a value, so it is zero
        filled; the C caller's record is an uninitialised local, and nothing
        depends on these values, since `Init` and `Step` accept any record.
        It is not yet initialised (its estimate is 0, not 50 Hz). */
    constructor ()
      ensures Fields() == PllSpec.State(0, 0, 0, 0, 0, 0, 0, 0)
    {
      kpQ30, kiQ30, thetaQ30, integratorQ30 := 0, 0, 0, 0;
      sinQ30, cosQ30, outFQ25, deltaFQ25 := 0, 0, 0, 0;
    }

    /** The record's current value. */
    function Fields(): PllSpec.State
      reads this
    {
      PllSpec.State(kpQ30, kiQ30, thetaQ30, integratorQ30, sinQ30, cosQ30, outFQ25, deltaFQ25)
    }

    /** The record invariant: theta in [0, 1) turn and
        out_f_q25 == 50 Hz + delta_f_q25. */
    ghost predicate Valid()
      reads this
    {
      PllSpec.Invariant(Fields())
    }

    /** `pll_q30_step`: one sample through oscillator, detector, PI
        controller and phase advance.  It applies to any record, initialised
        or not, and always leaves a valid one with the gains untouched. */
    method Step(xQ22: int32, table: seq<int32>)
      requires IsSineTable(table) && PllSpec.SampleInRange(xQ22)
      modifies this
      ensures Fields() == PllSpec.Step(old(Fields()), xQ22, table)
      ensures Valid()
      ensures kpQ30 == old(kpQ30) && kiQ30 == old(kiQ30)
    {
      ghost var s0 := Fields();

      // 1) NCO from the entry phase
      sinQ30, cosQ30 := SinCosFromTheta(thetaQ30, table);
      assert cosQ30 == table[CosIndex(s0.thetaQ30)];

      // 2) Q22 -> Q30
      var xQ30 := xQ22 * 0x100;

      // 3) placeholder phase detector; the product is above INT32_MIN, so the negation is defined
      MulQ30Contracts(xQ30, sinQ30);
      var qerrQ30 := -MulQ30(xQ30, sinQ30);
      assert qerrQ30 == PllSpec.PhaseError(s0, xQ22, table);

      // 4) PI in Q30 with a saturating integrator
      var pQ30 := MulQ30(kpQ30, qerrQ30);
      integratorQ30 := Sat32(integratorQ30 as int64 + MulQ30(kiQ30, qerrQ30) as int64);
      var uQ30 := Sat32(pQ30 as int64 + integratorQ30 as int64);
      assert integratorQ30 == PllSpec.NextIntegrator(s0, qerrQ30);
      assert uQ30 == PllSpec.ControlOutput(s0, qerrQ30);

      // 5) drop 5 fractional bits: Q30 -> Q25
      deltaFQ25 := Sat32(uQ30 as int64 / 32);
      assert deltaFQ25 == PllSpec.DeltaF(uQ30);

      // 6) 50 Hz + delta
      var fQ25 := PllSpec.NOMINAL_F_Q25 as int32 + deltaFQ25;
      outFQ25 := fQ25;

      // 7) phase increment f * 2^5 / Fs by 64-bit division, then wrap to one turn
      var num: int64 := fQ25 as int64 * 32;
      var phaseIncQ30 := CDiv(num as int, PllSpec.FS_HZ) as int32;
      assert phaseIncQ30 == PllSpec.PhaseIncrement(fQ25);
      var incU := phaseIncQ30 as int % 0x1_0000_0000;
      thetaQ30 := ((thetaQ30 as int + incU) % 0x1_0000_0000 % TURN_Q30) as uint32;
      assert thetaQ30 == PllSpec.AdvanceTheta(s0.thetaQ30, phaseIncQ30);
    }

    /** `pll_q30_step_hdl_io`: widens the sample by `<< 8` and hands it to the
        step, which widens it by `<< 8` again (16 bits in all); returns the
        new estimate. */
    method StepHdlIo(xQ22: int32, table: seq<int32>) returns (fQ25: int32)
      requires IsSineTable(table) && PllSpec.HdlIoSampleInRange(xQ22)
      modifies this
      ensures Fields() == PllSpec.Step(old(Fields()), xQ22 * 0x100, table)
      ensures fQ25 == outFQ25
      ensures Valid()
    {
      var xQ30 := xQ22 * 0x100;
      Step(xQ30, table);
      fQ25 := outFQ25;
    }
  }

  /** `pll_q30_init`: nothing happens on a null record; otherwise the record
      is cleared, the gains stored and the estimate set to 50 Hz, whatever it
      held before. */
  method Init(st: PllState?, kpQ30: int32, kiQ30: int32)
    modifies st
    ensures st != null ==> st.Fields() == PllSpec.Init(kpQ30, kiQ30) && st.Valid()
  {
    if st == null {
      return;
    }
    st.kpQ30, st.kiQ30, st.thetaQ30, st.integratorQ30 := 0, 0, 0, 0;
    st.sinQ30, st.cosQ30, st.outFQ25, st.deltaFQ25 := 0, 0, 0, 0;
    st.kpQ30 := kpQ30;
    st.kiQ30 := kiQ30;
    st.thetaQ30 := 0;
    st.integratorQ30 := 0;
    st.outFQ25 := PllSpec.NOMINAL_F_Q25 as int32;
    st.deltaFQ25 := 0;
  }

  /** Initialising twice with the same gains yields the same record both times. */
  method InitTwice(st: PllState, kpQ30: int32, kiQ30: int32) returns (first: PllSpec.State, second: PllSpec.State)
    modifies st
    ensures first == second && second == st.Fields()
  {
    Init(st, kpQ30, kiQ30);
    first := st.Fields();
    Init(st, kpQ30, kiQ30);
    second := st.Fields();
  }
}
