/**
 A caller's sequence of public calls on one driver object. An exception
 ends the sequence, as nothing in the driver catches it. This is where the
 power bracketing of the individual operations adds up: the part is left
 powered exactly when some call raised.
 */
module Session {
  import opened Registers
  import opened Controller

  /** One public call, with the bus replies its reads will get. */
  datatype Call =
    | SetTimingCall(integration: Option<nat>)
    | SetGainCall(gain: Option<nat>)
    | GetIdCall(idReply: Reply<U8>)
    | GetLuminosityCall(chan1Reply: Reply<U16>, chan0Reply: Reply<U16>)

  /** One call, its return value dropped. */
  function Perform(d: Device, call: Call): (o: Outcome<()>)
    ensures o.dev.addr == d.addr
    ensures o.dev.powered == PowerAfter(o.events, d.powered)
    ensures AccessWhilePowered(o.events, d.powered)
    ensures o.result.Ok? ==> Bracketed(o.events) && !o.dev.powered
    ensures o.result.Err? ==> OpenBracket(o.events) && o.dev.powered
  {
    match call
    case SetTimingCall(integration) => SetTiming(d, integration)
    case SetGainCall(gain) => SetGain(d, gain)
    case GetIdCall(idReply) =>
      var o := GetId(d, idReply);
      Outcome(o.dev, o.events, if o.result.Ok? then Ok(()) else Err(o.result.error))
    case GetLuminosityCall(chan1Reply, chan0Reply) =>
      var o := GetLuminosity(d, chan1Reply, chan0Reply);
      Outcome(o.dev, o.events, if o.result.Ok? then Ok(()) else Err(o.result.error))
  }

  /** The calls in order, stopping at the first one that raises. */
  function Run(d: Device, calls: seq<Call>): (o: Outcome<()>)
    ensures o.dev.addr == d.addr
    ensures o.dev.powered == PowerAfter(o.events, d.powered)
    ensures AccessWhilePowered(o.events, d.powered)
    ensures |calls| > 0 ==> |o.events| > 0 && o.events[0] == PowerOn()
    ensures o.result.Ok? && |calls| > 0 ==> !o.dev.powered
    ensures o.result.Err? ==> o.dev.powered
    decreases |calls|
  {
    if |calls| == 0 then Outcome(d, [], Ok(()))
    else
      var first := Perform(d, calls[0]);
      if first.result.Err? then first
      else
        var rest := Run(first.dev, calls[1..]);
        Sequence(first.events, rest.events, d.powered);
        assert (first.events + rest.events)[0] == first.events[0];
        Outcome(rest.dev, first.events + rest.events, rest.result)
  }

  /**
   Construct the driver, then make any sequence of calls: the part ends up
   powered if and only if a call raised, and every register access in the
   whole trace happens while it is powered.
   */
  lemma PoweredExactlyAfterAnException(addr: nat, wasPowered: bool, calls: seq<Call>)
    ensures
      var init := Init(addr, wasPowered);
      var run := Run(init.dev, calls);
      && (run.dev.powered <==> run.result.Err?)
      && PowerAfter(init.events + run.events, wasPowered) == run.dev.powered
      && AccessWhilePowered(init.events + run.events, wasPowered)
  {
    var init := Init(addr, wasPowered);
    var run := Run(init.dev, calls);
    Sequence(init.events, run.events, wasPowered);
  }
}
