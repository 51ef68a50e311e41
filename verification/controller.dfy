/**
 The TSL2561 device controller: the configuration the driver object keeps
 (bus address, integration-time code, gain code) plus whether the part is
 powered, and the bus traffic each public operation produces.

 The bus client is outside the model. Each operation returns the events it
 puts on the bus, in order; what a read returns, or whether the read raises,
 is an input to the operation.
 */
module Controller {
  import opened Bits
  import opened Registers

  type U8 = x: nat | x < 0x100
  type U16 = x: nat | x < 0x1_0000

  /** A Python keyword argument that may be left at its default None. */
  datatype Option<T> = None | Some(value: T)

  /** What the bus client gives back for a read: a value, or an exception. */
  datatype Reply<T> = Value(v: T) | Raised

  /**
   Exceptions that leave an operation. BusError is whatever the bus client
   raises; TypeError is what `set_gain(None)` raises; ValueError is raised
   only by the corrected gain setter.
   */
  datatype Error = BusError | TypeError | ValueError

  datatype Result<T> = Ok(value: T) | Err(error: Error)

  /** Bus traffic, plus the blocking wait before the channel reads. */
  datatype Event =
    | Write(reg: nat, value: nat)
    | ReadU8(reg: nat)
    | ReadU16(reg: nat)
    | Sleep(ms: nat)

  /** The driver object's state. */
  datatype Device = Device(addr: nat, integration: nat, gain: nat, powered: bool)

  /** The state after an operation, the events it produced, and what it returned or raised. */
  datatype Outcome<T> = Outcome(dev: Device, events: seq<Event>, result: Result<T>)

  /** `enable()`: write the power-on value 0x03 to the control register through command byte 0x80. */
  function PowerOn(): (e: Event)
    ensures e == Write(0x80, 0x03)
  {
    CommandBytes();
    Write(ControlCommand(), CONTROL_POWERON)
  }

  /** `disable()`: write the power-off value 0x00 to the control register through command byte 0x80. */
  function PowerOff(): (e: Event)
    ensures e == Write(0x80, 0x00)
  {
    CommandBytes();
    Write(ControlCommand(), CONTROL_POWEROFF)
  }

  /** The write of the timing register with a device's current fields. */
  function TimingWrite(d: Device): Event { Write(TimingCommand(), Or(d.integration, d.gain)) }

  predicate IsControlWrite(e: Event)
  {
    e.Write? && e.reg == ControlCommand()
  }

  /** Power state of the part after an event: only control writes change it. */
  function PowerAfterEvent(e: Event, powered: bool): bool
  {
    if IsControlWrite(e) then e.value == CONTROL_POWERON else powered
  }

  /** Power state of the part after a sequence of events, from a starting state. */
  function PowerAfter(events: seq<Event>, powered: bool): bool
    decreases |events|
  {
    if |events| == 0 then powered else PowerAfter(events[1..], PowerAfterEvent(events[0], powered))
  }

  /** Every event that is not a control write happens while the part is powered. */
  ghost predicate AccessWhilePowered(events: seq<Event>, powered: bool)
  {
    forall i :: 0 <= i < |events| && !IsControlWrite(events[i]) ==> PowerAfter(events[..i], powered)
  }

  /** Starts with `enable()` and never writes the control register again. */
  ghost predicate OpenBracket(events: seq<Event>)
  {
    && |events| >= 1
    && events[0] == PowerOn()
    && forall i :: 0 < i < |events| ==> !IsControlWrite(events[i])
  }

  /** An open bracket closed by `disable()`: the shape of every operation that returns normally. */
  ghost predicate Bracketed(events: seq<Event>)
  {
    && |events| >= 2
    && OpenBracket(events[..|events| - 1])
    && events[|events| - 1] == PowerOff()
  }

  /** Milliseconds `get_luminosity` sleeps for the configured integration code. */
  function WaitMs(integration: nat): (ms: nat)
    ensures integration == INTEG_TIME_13MS ==> 137 < 10 * ms <= 137 + 10
    ensures integration == INTEG_TIME_101MS ==> 101 < ms <= 101 + 1
    ensures integration != INTEG_TIME_13MS && integration != INTEG_TIME_101MS ==> ms == 402
  {
    if integration == INTEG_TIME_13MS then 14
    else if integration == INTEG_TIME_101MS then 102
    else 402
  }

  /** The ID byte split into (part number, revision): high nibble and low nibble. */
  function IdParts(id: U8): (parts: (nat, nat))
    ensures parts.0 < 16 && parts.1 < 16
    ensures parts.0 * 16 + parts.1 == id
  {
    NibbleSplit(id);
    (Shr(And(id, 0xf0), 4), And(id, 0x0f))
  }

  /**
   `set_timing(integration)`: power on, store the argument unless it is None,
   write `integration | gain` to the timing register, power off.
   */
  function SetTiming(d: Device, integration: Option<nat>): (o: Outcome<()>)
    ensures o.result == Ok(())
    ensures o.dev.addr == d.addr && o.dev.gain == d.gain
    ensures o.dev.integration == (if integration.Some? then integration.value else d.integration)
    ensures Bracketed(o.events) && o.events[1..|o.events| - 1] == [TimingWrite(o.dev)]
    ensures !o.dev.powered && o.dev.powered == PowerAfter(o.events, d.powered)
    ensures AccessWhilePowered(o.events, d.powered)
  {
    var on := d.(powered := true);
    var stored := if integration.Some? then on.(integration := integration.value) else on;
    var events := [PowerOn(), TimingWrite(stored), PowerOff()];
    BracketedPowerFacts(events, d.powered);
    assert events[1..2] == [TimingWrite(stored.(powered := false))];
    Outcome(stored.(powered := false), events, Ok(()))
  }

  /**
   `set_gain(gain)` as written: power on; a non-None argument is stored with
   no check against the valid gains; None reaches the `raise`, whose message
   formatting `%d` of None raises TypeError, after power-on and without
   power-off.
   */
  function SetGain(d: Device, gain: Option<nat>): (o: Outcome<()>)
    ensures o.result.Ok? <==> gain.Some?
    ensures o.dev.addr == d.addr && o.dev.integration == d.integration
    ensures gain.Some? ==> o.dev.gain == gain.value
    ensures gain.Some? ==> Bracketed(o.events) && o.events[1..|o.events| - 1] == [TimingWrite(o.dev)] && !o.dev.powered
    ensures gain.None? ==> o.result == Err(TypeError) && o.events == [PowerOn()] && o.dev.gain == d.gain && o.dev.powered
    ensures o.dev.powered == PowerAfter(o.events, d.powered)
    ensures AccessWhilePowered(o.events, d.powered)
  {
    var on := d.(powered := true);
    if gain.Some? then
      var stored := on.(gain := gain.value);
      var events := [PowerOn(), TimingWrite(stored), PowerOff()];
      BracketedPowerFacts(events, d.powered);
      assert events[1..2] == [TimingWrite(stored.(powered := false))];
      Outcome(stored.(powered := false), events, Ok(()))
    else
      OpenBracketPowerFacts([PowerOn()], d.powered);
      Outcome(on, [PowerOn()], Err(TypeError))
  }

  /**
   The gain setter the docstring and the `raise` describe: None keeps the
   stored gain, and a value outside the two defined gain codes raises
   ValueError before any bus traffic. Otherwise it behaves as `set_gain`.
   */
  function SetGainChecked(d: Device, gain: Option<nat>): (o: Outcome<()>)
    ensures o.result.Err? <==> gain.Some? && !ValidGain(gain.value)
    ensures o.result.Err? ==> o.result.error == ValueError && o.events == [] && o.dev == d
    ensures o.dev.addr == d.addr && o.dev.integration == d.integration
    ensures o.result.Ok? ==> o.dev.gain == (if gain.Some? then gain.value else d.gain)
    ensures o.result.Ok? ==> Bracketed(o.events) && o.events[1..|o.events| - 1] == [TimingWrite(o.dev)] && !o.dev.powered
    ensures ValidGain(d.gain) ==> ValidGain(o.dev.gain)
    ensures o.dev.powered == PowerAfter(o.events, d.powered)
    ensures AccessWhilePowered(o.events, d.powered)
  {
    if gain.Some? && !ValidGain(gain.value) then
      Outcome(d, [], Err(ValueError))
    else
      var stored := d.(powered := true, gain := if gain.Some? then gain.value else d.gain);
      var events := [PowerOn(), TimingWrite(stored), PowerOff()];
      BracketedPowerFacts(events, d.powered);
      assert events[1..2] == [TimingWrite(stored.(powered := false))];
      Outcome(stored.(powered := false), events, Ok(()))
  }

  /**
   Where `set_gain` as written departs from the checked setter: with None it
   raises TypeError and leaves the part powered instead of rewriting the
   stored gain, and it stores the undefined gain code 5 without complaint.
   */
  lemma SetGainAsWrittenDiffers(d: Device)
    ensures SetGain(d, None).result == Err(TypeError) && SetGain(d, None).dev.powered
    ensures SetGainChecked(d, None).result == Ok(()) && !SetGainChecked(d, None).dev.powered
    ensures SetGain(d, Some(5)).result == Ok(()) && SetGain(d, Some(5)).dev.gain == 5
    ensures SetGainChecked(d, Some(5)).result == Err(ValueError)
  {
  }

  /** On either defined gain code the two setters coincide, so the constructor's call is unaffected. */
  lemma SetGainAgreesOnValidGains(d: Device, gain: nat)
    requires ValidGain(gain)
    ensures SetGainChecked(d, Some(gain)) == SetGain(d, Some(gain))
  {
  }

  /**
   `get_id()`: power on, read the ID register, power off, and return its two
   nibbles. A read that raises propagates before `disable()`.
   */
  function GetId(d: Device, idReply: Reply<U8>): (o: Outcome<(nat, nat)>)
    ensures o.result.Ok? <==> idReply.Value?
    ensures o.dev.addr == d.addr && o.dev.integration == d.integration && o.dev.gain == d.gain
    ensures o.result.Ok? ==> o.events == [PowerOn(), ReadU8(IdCommand()), PowerOff()]
    ensures o.result.Err? ==> o.events == [PowerOn(), ReadU8(IdCommand())]
    ensures o.result.Ok? ==> o.result.value.0 < 16 && o.result.value.1 < 16
    ensures o.result.Ok? ==> o.result.value.0 * 16 + o.result.value.1 == idReply.v
    ensures o.result.Ok? ==> Bracketed(o.events) && !o.dev.powered
    ensures o.result.Err? ==> o.result.error == BusError && OpenBracket(o.events) && o.dev.powered
    ensures o.dev.powered == PowerAfter(o.events, d.powered)
    ensures AccessWhilePowered(o.events, d.powered)
  {
    CommandBytes();
    var on := d.(powered := true);
    var events := [PowerOn(), ReadU8(IdCommand())];
    match idReply
    case Raised =>
      OpenBracketPowerFacts(events, d.powered);
      Outcome(on, events, Err(BusError))
    case Value(id) =>
      BracketedPowerFacts(events + [PowerOff()], d.powered);
      Outcome(on.(powered := false), events + [PowerOff()], Ok(IdParts(id)))
  }

  /**
   `get_luminosity()`: power on, sleep for the configured integration time,
   read channel 1 and then channel 0 as words, power off, and return
   (channel 0, channel 1). A read that raises propagates before `disable()`.
   */
  function GetLuminosity(d: Device, chan1Reply: Reply<U16>, chan0Reply: Reply<U16>): (o: Outcome<(U16, U16)>)
    ensures o.result.Ok? <==> chan1Reply.Value? && chan0Reply.Value?
    ensures o.result.Ok? ==> o.result.value == (chan0Reply.v, chan1Reply.v)
    ensures o.dev.addr == d.addr && o.dev.integration == d.integration && o.dev.gain == d.gain
    ensures chan1Reply.Raised? ==>
      o.events == [PowerOn(), Sleep(WaitMs(d.integration)), ReadU16(Chan1Command())]
    ensures chan1Reply.Value? && chan0Reply.Raised? ==>
      o.events == [PowerOn(), Sleep(WaitMs(d.integration)), ReadU16(Chan1Command()), ReadU16(Chan0Command())]
    ensures o.result.Ok? ==>
      o.events == [PowerOn(), Sleep(WaitMs(d.integration)), ReadU16(Chan1Command()), ReadU16(Chan0Command()), PowerOff()]
    ensures o.result.Ok? ==> Bracketed(o.events) && !o.dev.powered
    ensures o.result.Err? ==> o.result.error == BusError && OpenBracket(o.events) && o.dev.powered
    ensures o.dev.powered == PowerAfter(o.events, d.powered)
    ensures AccessWhilePowered(o.events, d.powered)
  {
    CommandBytes();
    var on := d.(powered := true);
    var waited := [PowerOn(), Sleep(WaitMs(d.integration)), ReadU16(Chan1Command())];
    match chan1Reply
    case Raised =>
      OpenBracketPowerFacts(waited, d.powered);
      Outcome(on, waited, Err(BusError))
    case Value(chan1) =>
      var read := waited + [ReadU16(Chan0Command())];
      match chan0Reply
      case Raised =>
        OpenBracketPowerFacts(read, d.powered);
        Outcome(on, read, Err(BusError))
      case Value(chan0) =>
        BracketedPowerFacts(read + [PowerOff()], d.powered);
        Outcome(on.(powered := false), read + [PowerOff()], Ok((chan0, chan1)))
  }

  /**
   The constructor: bind the address, set integration to 13.7 ms and gain to
   16x, then `set_timing(integration)` and `set_gain(gain)`, which write the
   timing register twice, each write bracketed by power-on and power-off.
   `wasPowered` is the part's power state before construction.
   */
  function Init(addr: nat, wasPowered: bool): (o: Outcome<()>)
    ensures o.result == Ok(())
    ensures o.dev == Device(addr, INTEG_TIME_13MS, GAIN_16X, false)
    ensures o.events == [PowerOn(), Write(0x81, 0x10), PowerOff(), PowerOn(), Write(0x81, 0x10), PowerOff()]
    ensures o.dev.powered == PowerAfter(o.events, wasPowered)
    ensures AccessWhilePowered(o.events, wasPowered)
  {
    CommandBytes();
    Pow2Values();
    OrDisjoint(INTEG_TIME_13MS, 1, 4);
    var d := Device(addr, INTEG_TIME_13MS, GAIN_16X, wasPowered);
    var timed := SetTiming(d, Some(d.integration));
    var gained := SetGain(timed.dev, Some(d.gain));
    Sequence(timed.events, gained.events, wasPowered);
    Outcome(gained.dev, timed.events + gained.events, gained.result)
  }

  // ---------------------------------------------------------------------
  // Facts about traces

  /** Power state after a concatenation: run the second part from where the first left off. */
  lemma {:induction false} PowerAfterAppend(a: seq<Event>, b: seq<Event>, powered: bool)
    ensures PowerAfter(a + b, powered) == PowerAfter(b, PowerAfter(a, powered))
    decreases |a|
  {
    if |a| == 0 {
      assert a + b == b;
    } else {
      assert (a + b)[0] == a[0];
      assert (a + b)[1..] == a[1..] + b;
      PowerAfterAppend(a[1..], b, PowerAfterEvent(a[0], powered));
    }
  }

  /** Events that are not control writes leave the power state alone. */
  lemma {:induction false} NoControlWriteKeepsPower(events: seq<Event>, powered: bool)
    requires forall i :: 0 <= i < |events| ==> !IsControlWrite(events[i])
    ensures PowerAfter(events, powered) == powered
    decreases |events|
  {
    if |events| > 0 {
      NoControlWriteKeepsPower(events[1..], powered);
    }
  }

  /** An open bracket leaves the part powered, and every access in it happens while powered. */
  lemma OpenBracketPowerFacts(events: seq<Event>, powered: bool)
    requires OpenBracket(events)
    ensures PowerAfter(events, powered)
    ensures AccessWhilePowered(events, powered)
  {
    forall i | 0 < i <= |events|
      ensures PowerAfter(events[..i], powered)
    {
      var p := events[..i];
      assert p == [events[0]] + p[1..];
      PowerAfterAppend([events[0]], p[1..], powered);
      NoControlWriteKeepsPower(p[1..], true);
    }
    assert events[..|events|] == events;
  }

  /** A closed bracket leaves the part off, and every access in it happens while powered. */
  lemma BracketedPowerFacts(events: seq<Event>, powered: bool)
    requires Bracketed(events)
    ensures !PowerAfter(events, powered)
    ensures AccessWhilePowered(events, powered)
  {
    var n := |events| - 1;
    var open := events[..n];
    OpenBracketPowerFacts(open, powered);
    assert events == open + [events[n]];
    PowerAfterAppend(open, [events[n]], powered);
    forall i | 0 <= i < |events| && !IsControlWrite(events[i])
      ensures PowerAfter(events[..i], powered)
    {
      assert events[..i] == open[..i];
    }
  }

  /** Power tracking and powered access carry over to a concatenation. */
  lemma Sequence(a: seq<Event>, b: seq<Event>, powered: bool)
    requires AccessWhilePowered(a, powered)
    requires AccessWhilePowered(b, PowerAfter(a, powered))
    ensures PowerAfter(a + b, powered) == PowerAfter(b, PowerAfter(a, powered))
    ensures AccessWhilePowered(a + b, powered)
  {
    PowerAfterAppend(a, b, powered);
    forall i | 0 <= i < |a + b| && !IsControlWrite((a + b)[i])
      ensures PowerAfter((a + b)[..i], powered)
    {
      if i < |a| {
        assert (a + b)[..i] == a[..i];
      } else {
        assert (a + b)[..i] == a + b[..i - |a|];
        assert b[i - |a|] == (a + b)[i];
        PowerAfterAppend(a, b[..i - |a|], powered);
      }
    }
  }
}
