# Fixed-point PLL (Q2.30) in Dafny

This project models the integer-only phase-locked loop of `pll_q30.c` / `pll_q30.h`, a software twin of an FPGA PLL that tracks the frequency of a sampled grid signal. Each sample goes through the same stages:

- a numerically-controlled oscillator (NCO) that reads a 1024-entry sine table, cosine a quarter turn further on;
- a placeholder phase detector `qerr = -mul_q30(x, sin)`;
- a PI controller with a saturating integrator;
- a mapping to a Q25 frequency offset from 50 Hz;
- a phase increment `f * 2^5 / 40000` by 64-bit division;
- a phase accumulator wrapped to one turn.

Files:

- `fixed_point.dfy` (module `FixedPoint`): the C integer types as newtypes `int32`, `int64` and `uint32`, plus `sat32`, `mul_q30` and C's truncating division. Because the types are newtypes, Dafny checks that every signed operation written on them stays in range, as C requires.
- `nco.dfy` (module `Nco`): the table shape, the sine and cosine indices, and `sincos_from_theta_turn_q30` as a method with two out-parameters (the C out-pointers).
- `pll_spec.dfy` (module `PllSpec`): the record as a value (`State`), `pll_q30_init` and `pll_q30_step` as functions, the stage functions in source order, and the lemmas about them. These include lemmas over runs of any number of steps.
- `pll_state.dfy` (module `PllQ30`): the record as a class `PllState` whose methods update its fields in place, in the source's order. Each method is proved to leave the record equal to the `PllSpec` function applied to the record it started from.

Modelling conventions:

- The sine table is a parameter `table: seq<int32>`. `IsSineTable` requires 1024 entries, each in [-2^30, 2^30] (±1.0 in Q2.30). Its actual values are not modelled.
- `x & (2^k - 1)` on a non-negative value is written `x % 2^k`.
- The arithmetic right shift `x >> k` of an `int64` is written `x / 2^k`. Dafny's division is floor division for a positive divisor, which is what an arithmetic shift does.
- `x << k` is written `x * 2^k`. For a signed sample this is defined only when the result fits. So the step requires `-2^23 < x_q22 < 2^23`, which also keeps the widened sample above INT32_MIN so that the negation in the detector is defined. `pll_q30_step_hdl_io` shifts twice, so it requires `-2^15 < x_q22 < 2^15`.
- The C conversion `(uint32_t)inc` and the uint32 addition are written as explicit reductions modulo 2^32.
- `pll_q30_step_hdl_io` widens the sample by `<< 8` and then calls the step, which widens it again. The model keeps this double scaling as written: the detector sees the sample scaled by 2^16 (`HdlIoDoubleScaling`).
- The phase increment is a plain 64-bit division by 40000 (`pll_q30.c:89-90`). There is no reciprocal multiply.
- The stored sine and cosine are computed from the phase at the start of the step, before it advances (`pll_q30.c:65` against `pll_q30.c:93`). The model states exactly that (`StepNcoOfEntryTheta`, `RunNcoTracksTheta`).
- Determinism holds by construction: `PllSpec.Step` and `PllSpec.Run` are functions.

## Model

| member | source | states |
|---|---|---|
| `FixedPoint.Sat32` | pll_q30.c:13-18 | A value that fits in int32 is returned unchanged. A larger one becomes INT32_MAX and a smaller one INT32_MIN. It never wraps. |
| `FixedPoint.Sat32Nearest` | pll_q30.c:13-18 | The clamp is the int32 value nearest to its argument. |
| `FixedPoint.Sat32Monotone` | pll_q30.c:13-18 | The clamp preserves order. |
| `FixedPoint.ProductFitsInt64` | pll_q30.c:23 | The 64-bit product of two int32 values has magnitude at most 2^62, so it cannot overflow. |
| `FixedPoint.MulQ30` | pll_q30.c:20-26 | The result r satisfies r*2^30 <= a*b < (r+1)*2^30 (floor, toward negative infinity) whenever that floor fits in int32. Otherwise it is INT32_MAX or INT32_MIN on the product's side. |
| `FixedPoint.MulQ30Zero` | pll_q30.c:21-26 | A zero operand gives 0. |
| `FixedPoint.MulQ30Commutes` | pll_q30.c:21-26 | The multiply is commutative. |
| `FixedPoint.MulQ30ByOne` | pll_q30.c:21-26 | Multiplying by 1.0 (0x40000000) returns the other operand exactly. |
| `FixedPoint.MulQ30ByMinusOne` | pll_q30.c:21-26 | Multiplying by -1.0 negates the operand. INT32_MIN saturates to INT32_MAX instead of wrapping. |
| `FixedPoint.MulQ30Contracts` | pll_q30.c:21-26 | When one factor has magnitude at most 1.0, the result is no larger in magnitude than the other factor. |
| `FixedPoint.CDiv` | pll_q30.c:90 | C signed division truncates toward zero: \|q\|*d <= \|n\| < (\|q\|+1)*d, and q has the sign of n. |
| `FixedPoint.CDivNonNegative` | pll_q30.c:90 | For a non-negative dividend, truncating division equals floor division. |
| `Nco.SinIndex` | pll_q30.c:28-31 | `(theta >> 20) & 1023` is the table bin of theta's turn fraction: idx*2^20 <= theta mod 2^30 < (idx+1)*2^20. |
| `Nco.QuarterTurnAheadIndex` | pll_q30.c:31-33 | The bin of theta plus a quarter turn is 256 bins further on, modulo 1024. |
| `Nco.CosIndex` | pll_q30.c:33 | `(idx + 256) & 1023` equals the sine index of theta advanced by a quarter turn, so cos(x) is read as sin(x + 90°). |
| `Nco.SinCosFromTheta` | pll_q30.c:29-34 | The sine is the table entry of theta's bin. The cosine is the sine table's entry for the phase a quarter turn ahead. Both lie in [-1.0, 1.0]. |
| `Nco.QuadrantIndices` | pll_q30.c:29-34 | Phases k*2^28 for k = 0..3 read the sine at indices 0, 256, 512, 768 and the cosine at 256, 512, 768, 0. |
| `PllSpec.Init` | pll_q30.c:36-49 | After init the gains hold the arguments. Theta, integrator, sin, cos and delta_f are 0, out_f is 50 Hz in Q25 (0x64000000), and the record invariant holds. |
| `PllSpec.WidenQ22` | pll_q30.c:67-68 | `x_q22 << 8` is lossless: the widened value divided by 256 is the sample, with remainder 0. It stays above INT32_MIN. |
| `PllSpec.QErr` | pll_q30.c:70-72 | The product negated by the detector is above INT32_MIN, so the negation never overflows. The error is no larger in magnitude than the widened sample. |
| `PllSpec.DeltaF` | pll_q30.c:79-80 | The Q25 correction is floor(u/32), so the `sat32` never clamps, and it lies in [-2^26, 2^26). |
| `PllSpec.PhaseIncrement` | pll_q30.c:86-90 | For non-negative f the increment is floor(f*32 / 40000). It never exceeds that quotient in magnitude. |
| `PllSpec.PhaseIncrementRange` | pll_q30.c:89-90 | For estimates in [0x60000000, 0x67FFFFFF] the increment is f*32/40000 and lies in [1288490, 1395864]. |
| `PllSpec.PhaseIncrementNominal` | pll_q30.c:89-90 | At exactly 50 Hz the increment is 1342177. |
| `PllSpec.AdvanceTheta` | pll_q30.c:92-93 | The uint32 wrap and the `& 0x3FFFFFFF` mask give (theta + inc) mod 2^30, which is below 2^30. |
| `PllSpec.Accumulate` | pll_q30.c:92-93 | Line 93 applied to each increment of a sequence in turn, on its own: with no increments theta is unchanged, and after at least one it is below 2^30. |
| `PllSpec.AccumulateIsSum` | pll_q30.c:92-93 | Applying increments one step at a time, each wrapped to one turn, gives the starting phase plus the sum of the increments, modulo 2^30. Wrapping every step is the same as wrapping once. This is line 93 repeated in isolation; `RunThetaIsSum` ties it to the steps of a run. |
| `PllSpec.PhaseError` | pll_q30.c:67-72 | The detector's error for the entry phase is no larger in magnitude than the widened sample, and it is zero when the sample or the sine read is zero. |
| `PllSpec.NextIntegrator` | pll_q30.c:76 | The new integrator is the exact sum of integrator and mul_q30(ki, qerr) while it fits in int32, and INT32_MAX or INT32_MIN beyond. `StepPiSaturates` states the same of the step. |
| `PllSpec.ControlOutput` | pll_q30.c:75-77 | The controller output is the exact sum of mul_q30(kp, qerr) and the new integrator while it fits in int32, and INT32_MAX or INT32_MIN beyond. `StepPiSaturates` states the same of the step. |
| `PllSpec.Step` | pll_q30.c:58-94 | From any record, a step yields one with theta < 2^30 and out_f == 0x64000000 + delta_f, and it leaves kp and ki unchanged. |
| `PllSpec.StepNcoOfEntryTheta` | pll_q30.c:64-65 | The sine and cosine a step stores are the oscillator outputs for the phase at entry, before it advances. |
| `PllSpec.StepPiSaturates` | pll_q30.c:74-80 | The new integrator is the exact sum of integrator and mul_q30(ki, qerr) while it fits, and INT32_MAX or INT32_MIN beyond. The same holds for the controller output u = p + integrator'. delta_f is floor(u/32). |
| `PllSpec.StepFrequencyBounds` | pll_q30.c:79-84 | After a step delta_f lies in [-2^26, 2^26) and out_f in [0x60000000, 0x67FFFFFF], with no int32 overflow. |
| `PllSpec.StepThetaAdvance` | pll_q30.c:86-93 | The new theta is (old theta + increment of the new out_f) mod 2^30. That increment lies in [1288490, 1395864]. |
| `PllSpec.Run` | helloworld.c:145-150 | The driving loop as a run of steps, one per sample. An empty run leaves the record unchanged, and no run changes kp or ki. |
| `PllSpec.Increments` | pll_q30.c:86-90 | The phase increments the steps of a run apply, one per sample, each in [1288490, 1395864]. |
| `PllSpec.RunThetaIsAccumulate` | pll_q30.c:92-93 | The phase after a run is the accumulator of line 93 applied to the increments of the run's steps, in order. |
| `PllSpec.RunThetaIsSum` | pll_q30.c:92-93 | From a phase below 2^30, the phase after any run is the entry phase plus the sum of the run's increments, modulo 2^30. |
| `PllSpec.RunKeepsInvariant` | pll_q30.h:13-14 | Over any sequence of steps from a valid record, theta stays in [0, 2^30), out_f == 50 Hz + delta_f, and the gains are unchanged. |
| `PllSpec.RunNcoTracksTheta` | pll_q30.h:19-21 | After any non-empty run, sin and cos are the table outputs for the phase at the start of the last step. They are derived from theta, not independent. |
| `PllSpec.RunFromInit` | pll_q30.h:9-11 | After init and any run, the gains are those given to init, and the invariant holds. |
| `PllSpec.HdlIoDoubleScaling` | pll_q30.c:96-102 | A sample the wrapper accepts, widened once, is one the step accepts. Widened twice, it is the sample times 2^16. |
| `PllQ30.PllState.constructor` | pll_q30.h:8-28 | A new record has every field zero. This is only how Dafny allocates the record: the C caller's record is an uninitialised local (helloworld.c:127), and nothing relies on the zeros, since `Init` and `Step` accept any record. |
| `PllQ30.PllState.Step` | pll_q30.c:58-94 | The in-place step leaves the record equal to `PllSpec.Step` of the record it started from. It leaves the record valid and kp, ki unchanged. |
| `PllQ30.PllState.StepHdlIo` | pll_q30.c:96-114 | The wrapper performs exactly `Step(x << 8)` and returns the new out_f_q25. |
| `PllQ30.Init` | pll_q30.c:36-49 | On a null record nothing is modified. Otherwise the record equals `PllSpec.Init(kp, ki)` whatever it held before, and is valid. |
| `PllQ30.InitTwice` | pll_q30.c:36-49 | Two inits with the same gains give the same record. |

## Left out

- `helloworld.c` (board bring-up, the scratch-buffer waveform, the GPIO probe, the cycle counter, formatted printing): test scaffolding, not part of the loop. Its loop that drives `pll_q30_step` with a synthetic phase accumulator appears here only as the generic `PllSpec.Run` over a sequence of samples.
- The contents of the sine table (`sine_q230_1024.h`): it is not part of this model, and its values come from floating point. The model relies only on its length and the bounds of its entries.
- Convergence of the estimate to 50 Hz after 20000 steps with the default gains: a numerical property of the concrete table and input, not a contract.
- A reciprocal-multiply form of the phase increment and its agreement with direct division: the code has no such form, since it divides directly.
- Cycle counts and timing.
- Concurrency: the loop is single-threaded, and the model is sequential.
- Bit-level operations are written as arithmetic, which is equivalent on the values involved: the masks as `%` on non-negative values, arithmetic right shifts as floor division, and left shifts as multiplication. Left-shifting a negative sample, which C leaves undefined, is taken to mean multiplication by 2^8. The `<< 5` of the (positive) frequency at `pll_q30.c:89` is likewise multiplication by 32.
- Samples outside (-2^23, 2^23) for the step, and outside (-2^15, 2^15) for the wrapper: their `<< 8` overflows int32, or reaches INT32_MIN, in which case the detector's negation may overflow (it does when the sine entry read is exactly +1.0). C gives these no defined meaning, so the model excludes them by precondition.
