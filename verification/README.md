# TSL2561 light-sensor driver, modelled in Dafny

This project models the core of `Adafruit_TSL2561/read_tsl2561.py`. That file is a Python 2 driver for the TSL2561 light-to-digital converter on an I2C bus. The model has two parts:

- **The lux converter** (`TSL2561.calculate_lux`). It is a pure, integer-only fixed-point function.
  1. A channel scale is chosen from the integration-time code. It is shifted left by 4 when the gain code is not `GAIN_0X`.
  2. Both raw ADC counts are scaled by that factor and shifted right by 10.
  3. A rounded IR-to-full-spectrum ratio is computed. A zero channel 0 gives ratio 0, with no division.
  4. A (b, m) pair is picked from one of two eight-row coefficient tables (T/FN/CL or CS).
  5. The weighted difference is clamped at zero, and the 2^14 fraction is rounded off.
- **The device controller** (`__init__`, `enable`/`disable`, `set_timing`, `set_gain`, `get_id`, `get_luminosity`). Its state is an immutable record: address, integration code, gain code and whether the part is powered. Each operation returns the new state, the bus events it issued in order (`Write(reg, value)`, `ReadU8(reg)`, `ReadU16(reg)`, plus `Sleep(ms)` for the wait before the channel reads) and a result. The result is either a value or the exception that escaped.

Files:

- `bits.dfy` (module `Bits`) defines Python's `<<`, `>>`, `|` and `&` on non-negative integers. It also holds the lemmas the driver's masks and shifts need.
- `registers.dfy` (module `Registers`) holds the register map, the command bits and the integration/gain codes. It also holds the command bytes the driver puts on the bus.
- `lux.dfy` (module `Lux`) holds the coefficient tables and `calculate_lux`, step by step.
- `lux_properties.dfy` (module `LuxProperties`) holds the properties across steps: the bucket partition, inclusive bounds, zero cases, the worked value and the output range.
- `controller.dfy` (module `Controller`) holds the device state machine and the power-state reading of a bus trace.
- `session.dfy` (module `Session`) covers a caller's sequence of public calls, stopped by the first exception.

Each result is checked against a second, independent description:

- The driver's two if/elif chains are proved equal to a lookup in a data table. The table lookup is defined as "the first row whose bound is at least the ratio, else the last row".
- The `powered` field every operation keeps is proved equal to the power state read back from its bus trace.
- The ID split is proved to rebuild the byte.
- The ratio is characterised as the nearest integer to channel1·2^9/channel0.

The part's configuration arguments are Python ints that the driver never checks. They are modelled as unbounded `nat`. The ID byte and the channel words that come back from the bus are `U8` and `U16`. `PACKAGE_CS`, a class constant, is a parameter of the lux function.

## Model

| member | source | states |
|---|---|---|
| Bits.Or | Adafruit_TSL2561/read_tsl2561.py:302-303 | bitwise or of two non-negative ints is at least each operand and at most their sum |
| Bits.OrDisjoint | Adafruit_TSL2561/read_tsl2561.py:302-303 | or of a value below 2^n with a multiple of 2^n is their sum (disjoint bit fields) |
| Bits.ShrBounds | Adafruit_TSL2561/read_tsl2561.py:203-204 | `x >> n` is the floor of x / 2^n: the result times 2^n brackets x |
| Bits.NibbleSplit | Adafruit_TSL2561/read_tsl2561.py:340 | `(id & 0xf0) >> 4` and `id & 0x0f` are both below 16 and 16 times the first plus the second is the byte |
| Registers.CommandBytes | Adafruit_TSL2561/read_tsl2561.py:43-123 | the or-ed command bytes are 0x80 (control), 0x81 (timing), 0x8A (ID), 0xAC (channel 0 word) and 0xAE (channel 1 word) |
| Registers.TimingByteRecoverable | Adafruit_TSL2561/read_tsl2561.py:125-134 | for an integration code below 16 and either gain code, the or of the two is their sum and gives both back (low nibble, bit 4) |
| Lux.Table | Adafruit_TSL2561/read_tsl2561.py:57-109 | each package's table has 8 rows with nondecreasing bounds, the first seven strictly increasing, the eighth bound equal to the seventh and the eighth pair zero |
| Lux.BucketIndex | Adafruit_TSL2561/read_tsl2561.py:220-269 | the chosen row is the first whose bound is at least the ratio, or the last row when every earlier bound is below it |
| Lux.Select | Adafruit_TSL2561/read_tsl2561.py:218-269 | the if/elif chain of either package picks exactly the table row of the ratio's bucket |
| Lux.ChannelScale | Adafruit_TSL2561/read_tsl2561.py:185-199 | the scale is at least 2^10; with gain 0 it is 0x7517, 0x0FE7 or 2^10; with any other gain it is 16 times one of those |
| Lux.ScaleChannel | Adafruit_TSL2561/read_tsl2561.py:201-204 | the scaled channel is the floor of raw·scale / 2^10 and, for every scale the driver uses, at least the raw count |
| Lux.Ratio | Adafruit_TSL2561/read_tsl2561.py:206-214 | ratio is 0 when channel 0 is 0; otherwise it is channel1·2^9/channel0 rounded to nearest, halves up: (2r−1)·c0 ≤ 1024·c1 < (2r+1)·c0 |
| Lux.Weighted | Adafruit_TSL2561/read_tsl2561.py:271-275 | the clamped term is channel0·b − channel1·m when that is positive and 0 otherwise |
| Lux.RoundLux | Adafruit_TSL2561/read_tsl2561.py:277-283 | adding 2^13 and shifting right by 14 gives the nearest integer to temp / 2^14, halves up |
| Lux.CalculateLux | Adafruit_TSL2561/read_tsl2561.py:177-287 | lux is the nearest integer to max(0, c0·b − c1·m) / 2^14, with c0 and c1 the scaled channels and (b, m) the table row of their ratio's bucket; a raw channel 0 of 0 (darkness) gives lux 0 whatever channel 1 reads |
| LuxProperties.ExactlyOneBucket | Adafruit_TSL2561/read_tsl2561.py:220-269 | with nondecreasing bounds a ratio lies in bucket i (previous bound < ratio ≤ own bound) exactly when i is the chosen row |
| LuxProperties.EveryRatioHasABucket | Adafruit_TSL2561/read_tsl2561.py:220-269 | every non-negative ratio falls in some bucket of either table |
| LuxProperties.NoRatioFallsThrough | Adafruit_TSL2561/read_tsl2561.py:215-269 | no ratio fails every guard of either chain, so b and m are never left at their initial 0; this holds because K8 equals K7 in both tables |
| LuxProperties.BoundSelectsItsOwnRow | Adafruit_TSL2561/read_tsl2561.py:220-269 | a ratio equal to bound K1..K7 selects that row (bounds are inclusive) |
| LuxProperties.AboveTopBoundSelectsZero | Adafruit_TSL2561/read_tsl2561.py:242-244 | a ratio above 0x29a selects the pair (0, 0) in either table |
| LuxProperties.GainMultipliesScale | Adafruit_TSL2561/read_tsl2561.py:196-199 | any gain code other than GAIN_0X makes the scale 16 times the gain-0 scale |
| LuxProperties.ScaleTable | Adafruit_TSL2561/read_tsl2561.py:185-199 | 13.7 ms gives 0x7517, 101 ms gives 0x0FE7 and every other code 1024, times 16 with gain |
| LuxProperties.InfraredDominatedReadsZero | Adafruit_TSL2561/read_tsl2561.py:264-283 | for every input, a rounded ratio above 0x29a gives lux 0 |
| LuxProperties.WorkedExample | Adafruit_TSL2561/read_tsl2561.py:187-283 | T/FN/CL, 402 ms, 16x, ch0 = 1000, ch1 = 100: scale 16384, scaled 16000/1600, ratio 51, pair (0x1f2, 0x1be), lux 443 |
| LuxProperties.LuxBoundedForU16 | Adafruit_TSL2561/read_tsl2561.py:201-287 | for 16-bit counts the lux is at most 1202728, so it fits an unsigned 32-bit value |
| Controller.PowerOn | Adafruit_TSL2561/read_tsl2561.py:155-162 | `enable()` is the single write of 0x03 to command byte 0x80 (the control register) |
| Controller.PowerOff | Adafruit_TSL2561/read_tsl2561.py:166-173 | `disable()` is the single write of 0x00 to command byte 0x80 (the control register) |
| Controller.WaitMs | Adafruit_TSL2561/read_tsl2561.py:353-363 | the wait is 14 ms for the 13.7 ms code, 102 ms for 101 ms and 402 ms otherwise, never shorter than the nominal integration time and at most 1 ms longer |
| Controller.IdParts | Adafruit_TSL2561/read_tsl2561.py:340 | part number and revision are each below 16 and part·16 + revision is the ID byte |
| Controller.SetTiming | Adafruit_TSL2561/read_tsl2561.py:291-305 | only the integration code changes (None keeps it); the trace is power-on, one timing write of the integration code or-ed with the gain code, power-off; the part ends off, matching its trace |
| Controller.SetGain | Adafruit_TSL2561/read_tsl2561.py:309-327 | any non-None gain is stored unchecked and written bracketed; None raises TypeError after power-on, with no power-off, leaving the part powered |
| Controller.SetGainChecked | Adafruit_TSL2561/read_tsl2561.py:309-327 | corrected setter: an undefined gain raises ValueError before any bus traffic, None rewrites the stored gain, and defined gains stay defined |
| Controller.SetGainAsWrittenDiffers | Adafruit_TSL2561/read_tsl2561.py:317-322 | with None the driver raises TypeError and leaves the part on where the checked setter succeeds; with gain 5 it stores 5 where the checked setter refuses |
| Controller.SetGainAgreesOnValidGains | Adafruit_TSL2561/read_tsl2561.py:309-327 | on GAIN_0X and GAIN_16X both setters give the same state, trace and result |
| Controller.GetId | Adafruit_TSL2561/read_tsl2561.py:331-340 | the trace is exactly power-on, byte read of 0x8A, power-off on success, and power-on, byte read of 0x8A when the read raises, leaving the part on; the two returned nibbles rebuild the byte |
| Controller.GetLuminosity | Adafruit_TSL2561/read_tsl2561.py:344-370 | the trace is exactly power-on, sleep for the configured code, word read of channel 1 (0xAE), word read of channel 0 (0xAC), power-off; a raising channel-1 read stops the trace before the channel-0 read and a raising channel-0 read stops it before power-off, leaving the part on; returns (channel 0, channel 1) |
| Controller.Init | Adafruit_TSL2561/read_tsl2561.py:138-151 | the constructor leaves integration 13.7 ms, gain 16x, part off, after two bracketed timing writes of 0x10 to 0x81 |
| Controller.OpenBracketPowerFacts | Adafruit_TSL2561/read_tsl2561.py:155-173 | after power-on with no further control write the part is on, and every access in between happens while on |
| Controller.BracketedPowerFacts | Adafruit_TSL2561/read_tsl2561.py:155-173 | a trace bracketed by power-on and power-off leaves the part off, and every access in it happens while on |
| Controller.PowerAfterAppend | Adafruit_TSL2561/read_tsl2561.py:155-173 | the power state after two traces in a row is the second run from where the first left off |
| Controller.Sequence | Adafruit_TSL2561/read_tsl2561.py:155-173 | powered access and power tracking carry over to the concatenation of two traces |
| Session.Perform | Adafruit_TSL2561/read_tsl2561.py:291-370 | a public call that returns normally is bracketed and leaves the part off; one that raises leaves it on; the address never changes |
| Session.Run | Adafruit_TSL2561/read_tsl2561.py:291-370 | over a sequence of calls every access happens while powered, the state matches the trace, and the part is on after an exception and off after normal completion |
| Session.PoweredExactlyAfterAnException | Adafruit_TSL2561/read_tsl2561.py:138-370 | after construction and any sequence of calls, the part is powered if and only if a call raised |

## Behaviour worth knowing

The model follows the code as written, including these points:

- `set_gain` checks nothing for a non-None gain: any value is stored and written. For None it calls `enable()` and then raises TypeError from the `%d` format, so ValueError is never raised and `disable()` is never called. `Controller.SetGain` models this as written. The corrected behaviour is `Controller.SetGainChecked` (see Findings).
- A raising read leaves the part powered: `get_id` and `get_luminosity` have no `finally`, so `disable()` is skipped. `Session.PoweredExactlyAfterAnException` proves that the part is left on exactly when an exception escaped.
- K8 equals K7 (0x29a) in both tables. The eighth row is reached by the guard `ratio > K8`, which always holds once `ratio <= K7` has failed, so b and m are never left at their initial 0 (`LuxProperties.NoRatioFallsThrough`).
- Every integration code other than 0 and 1 gets the 2^10 scale and the 402 ms wait. Every gain code other than 0 gets the ×16 shift.

## Findings

| source | as written | input that shows it | evidently intended | confidence | as-written member | corrected member |
|---|---|---|---|---|---|---|
| Adafruit_TSL2561/read_tsl2561.py:317-322 | `elif gain not in VALID_GAINS` is reached only when gain is None. A non-None gain is stored unchecked. None raises TypeError from formatting `%d` with None, after `enable()` and without `disable()` | `set_gain()` raises TypeError and leaves the part powered; `set_gain(5)` stores gain code 5 | None keeps the stored gain and writes it (as the docstring says); a gain outside VALID_GAINS raises ValueError before any bus traffic | medium, not executed | Controller.SetGainAsWrittenDiffers (about Controller.SetGain) | Controller.SetGainChecked |

The constructor and `Session` keep the as-written `Controller.SetGain`, because they describe what the driver does. `Controller.SetGainAgreesOnValidGains` proves that the two setters coincide on the constructor's argument (GAIN_16X) and on every other defined gain code.

## Left out

- The `Adafruit_I2C` bus client is not part of this model. Reads are opaque inputs that either return a value or raise. Bus writes are assumed to succeed, so a write that raises is not modelled, including one during construction.
- `time.sleep` and `datetime.now()` are left out. Only the chosen wait, in whole milliseconds, appears in the trace as `Sleep(ms)`. `start_time` is never used.
- The `print` in `get_id`, the `main()` polling loop and all console output are left out. They do not affect state or results.
- The unused constants are left out: the three bus addresses `ADDR_LOW`/`ADDR_FLOAT`/`ADDR_HIGH` (the address is a parameter), `VISIBLE`/`INFRARED`/`FULLSPECTRUM`, `READBIT`, `CLEAR_BIT`, `BLOCK_BIT`, the threshold, interrupt and CRC registers, and the `initialized` field. No behaviour depends on them.
- Arguments that are not non-negative integers are left out. Python would accept any object as an integration code, gain or channel count, but the model takes `nat`. Negative ints and other types are not modelled.
- Concurrency is left out. The driver has no locking, retries or cleanup, and none is added.
