/**
 The TSL2561's register map, command bits and configuration codes, as the
 driver's class constants name them.
 */
module Registers {
  import opened Bits

  /** Bits of the command byte that selects a register. */
  const COMMAND_BIT: nat := 0x80
  const WORD_BIT: nat := 0x20

  /** Values written to the control register. */
  const CONTROL_POWERON: nat := 0x03
  const CONTROL_POWEROFF: nat := 0x00

  const REG_CONTROL: nat := 0x00
  const REG_TIMING: nat := 0x01
  const REG_ID: nat := 0x0A
  const REG_CHAN0_LOW: nat := 0x0C
  const REG_CHAN1_LOW: nat := 0x0E

  /** Integration-time codes (the low two bits of the timing register). */
  const INTEG_TIME_13MS: nat := 0x00
  const INTEG_TIME_101MS: nat := 0x01
  const INTEG_TIME_402MS: nat := 0x02

  /** Gain codes (bit 4 of the timing register). */
  const GAIN_0X: nat := 0x00
  const GAIN_16X: nat := 0x10

  predicate ValidGain(gain: nat)
  {
    gain == GAIN_0X || gain == GAIN_16X
  }

  /** The command bytes the driver puts on the bus, each an or of flag bits and a register. */
  function ControlCommand(): nat { Or(COMMAND_BIT, REG_CONTROL) }
  function TimingCommand(): nat { Or(COMMAND_BIT, REG_TIMING) }
  function IdCommand(): nat { Or(COMMAND_BIT, REG_ID) }
  function Chan0Command(): nat { Or(Or(COMMAND_BIT, WORD_BIT), REG_CHAN0_LOW) }
  function Chan1Command(): nat { Or(Or(COMMAND_BIT, WORD_BIT), REG_CHAN1_LOW) }

  /**
   The flag bits and register numbers never overlap, so every command byte is
   the sum of its parts, and the five commands are pairwise distinct.
   */
  lemma CommandBytes()
    ensures ControlCommand() == 0x80 && TimingCommand() == 0x81 && IdCommand() == 0x8A
    ensures Chan0Command() == 0xAC && Chan1Command() == 0xAE
  {
    assert TimingCommand() == 0x81 by { OrOfNibbles(REG_TIMING, 8); }
    assert IdCommand() == 0x8A by { OrOfNibbles(REG_ID, 8); }
    assert Or(COMMAND_BIT, WORD_BIT) == 0xA0 by {
      assert Pow2(6) == 64;
      OrDisjoint(WORD_BIT, 2, 6);
      OrCommutes(WORD_BIT, COMMAND_BIT);
    }
    assert Chan0Command() == 0xAC by { OrOfNibbles(REG_CHAN0_LOW, 10); }
    assert Chan1Command() == 0xAE by { OrOfNibbles(REG_CHAN1_LOW, 10); }
  }

  /** A high nibble or-ed with a low nibble is their sum. */
  lemma OrOfNibbles(low: nat, high: nat)
    requires low < 16
    ensures Or(high * 16, low) == high * 16 + low
  {
    Pow2Values();
    OrDisjoint(low, high, 4);
    OrCommutes(low, high * 16);
  }

  /**
   The timing register byte `integration | gain`: integration codes live in
   the low bits and gain codes in bit 4, so for any integration code below 16
   and a defined gain code the byte is their sum and gives both back.
   */
  lemma TimingByteRecoverable(integration: nat, gain: nat)
    requires integration < 16 && ValidGain(gain)
    ensures Or(integration, gain) == integration + gain
    ensures Or(integration, gain) % 16 == integration
    ensures Or(integration, gain) / 16 * 16 == gain
  {
    Pow2Values();
    OrDisjoint(integration, gain / 16, 4);
  }
}
