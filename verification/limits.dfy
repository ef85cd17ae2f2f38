/**
 * What the wrapper's guards buy: every command it writes carries a setting inside
 * the range the wrapper itself asserts. These are the ranges of the instrument
 * manual except for the frequency, where the wrapper asserts at most 10200 Hz
 * although the manual allows up to 102000 Hz. `WithinLimits` reads a command back and
 * judges the setting it carries; the lemmas show that each setter's guard is
 * enough for its command to pass, and for integer codes that it is exactly what
 * is needed.
 */
module Limits {
  import opened Results
  import opened Decimal
  import opened PyText
  import opened Commands

  /** A fixed-point text with `places` decimals whose value, in units of the last place, lies in `lo ..= hi`. */
  predicate FixedWithin(s: string, places: nat, lo: int, hi: int)
  {
    match FixedValue(s)
    case Some(fp) => fp.places == places && lo <= fp.units <= hi
    case None => false
  }

  /** An auxiliary-output command: channel 1 to 4 before the comma, -10.500 ..= 10.500 V after it. */
  predicate AuxvWithin(cmd: string)
  {
    var fields := Split(cmd, ',');
    |fields| == 2 && |fields[0]| >= 4 &&
    (match ParseInt(fields[0][4..])
     case Some(c) => 1 <= c <= 4
     case None => false) &&
    FixedWithin(fields[1], 3, -10500, 10500)
  }

  /**
   * A written command whose setting is within the range the wrapper asserts: an integer
   * code the parameter admits, a phase of -360.00 ..= 729.99 degrees, a frequency
   * of 0.001 ..= 10200.000 Hz, an amplitude of 0.004 ..= 5.000 V, or an auxiliary
   * output on channel 1 to 4 at no more than 10.5 V either way. Commands that
   * carry no such setting are within limits.
   */
  predicate WithinLimits(cmd: string)
  {
    |cmd| >= 4 ==>
      match ParamOf(cmd[..4])
      case Some(p) =>
        (match ParseInt(cmd[4..])
         case Some(v) => Accepts(p, v)
         case None => false)
      case None =>
        (cmd[..4] == "PHAS" ==> FixedWithin(cmd[4..], 2, -36000, 72999)) &&
        (cmd[..4] == "FREQ" ==> FixedWithin(cmd[4..], 3, 1, 10200000)) &&
        (cmd[..4] == "SLVL" ==> FixedWithin(cmd[4..], 3, 4, 5000)) &&
        (cmd[..4] == "AUXV" ==> AuxvWithin(cmd))
  }

  /** An integer setter's command is within limits exactly when its guard admits the code. */
  lemma IntCommandWithinLimits(p: IntParam, v: int)
    ensures WithinLimits(IntCommand(p, v)) <==> Accepts(p, v)
  {
    ParamOfMnemonic(p);
  }

  /** A phase the guard admits goes out within limits. */
  lemma PhaseCommandWithinLimits(x: real)
    requires PhaseAccepts(x)
    ensures WithinLimits(PhaseCommand(x))
  {
    PhaseCommandInRange(x);
    assert ParamOf("PHAS") == None;
  }

  /** A frequency the guard admits goes out within limits. */
  lemma FreqCommandWithinLimits(f: real)
    requires FreqAccepts(f)
    ensures WithinLimits(FreqCommand(f))
  {
    FreqCommandInRange(f);
    assert ParamOf("FREQ") == None;
  }

  /** An amplitude the guard admits goes out within limits, raised to 0.004 V when below it. */
  lemma SlvlCommandWithinLimits(v: real)
    requires SlvlAccepts(v)
    ensures WithinLimits(SlvlCommand(v))
  {
    SlvlCommandInRange(v);
    assert ParamOf("SLVL") == None;
  }

  /** An auxiliary output both assertions admit splits into a channel and a voltage within range. */
  lemma AuxvFieldsWithin(channel: int, voltage: real)
    requires AuxvCheck(channel, voltage) == Pass
    ensures AuxvWithin(AuxvCommand(channel, voltage))
  {
    var fields := Split(AuxvCommand(channel, voltage), ',');
    AuxvCommandFields(channel, voltage);
    assert |fields| == 2 && |fields[0]| >= 4;
    assert ParseInt(fields[0][4..]) == Some(channel);
    AuxvCommandInRange(channel, voltage);
    assert FixedWithin(fields[1], 3, -10500, 10500);
  }

  /** An auxiliary output both assertions admit goes out within limits. */
  lemma AuxvCommandWithinLimits(channel: int, voltage: real)
    requires AuxvCheck(channel, voltage) == Pass
    ensures WithinLimits(AuxvCommand(channel, voltage))
  {
    var cmd := AuxvCommand(channel, voltage);
    AuxvFieldsWithin(channel, voltage);
    NoParam("AUXV");
    AuxvWithinLimits(cmd);
  }

  /** A command whose first four characters name no range-limited setting is within limits. */
  lemma NoSettingWithinLimits(cmd: string, head: string)
    requires |cmd| >= 4 && cmd[..4] == head && ParamOf(head) == None
    requires head != "PHAS" && head != "FREQ" && head != "SLVL" && head != "AUXV"
    ensures WithinLimits(cmd)
  {
  }

  /** Mnemonics that name no integer-coded parameter. */
  lemma NoParam(head: string)
    requires head in {"AOFF", "AUXV"}
    ensures ParamOf(head) == None
  {
  }

  /** A command starting with `AUXV` is within limits when its channel and voltage are. */
  lemma AuxvWithinLimits(cmd: string)
    requires |cmd| >= 4 && cmd[..4] == "AUXV" && ParamOf("AUXV") == None
    requires AuxvWithin(cmd)
    ensures WithinLimits(cmd)
  {
  }

  /** The argument-free actions carry no setting and are within limits. */
  lemma ActionsWithinLimits()
    ensures WithinLimits(AganCommand) && WithinLimits(ArsvCommand)
    ensures WithinLimits(AphsCommand) && WithinLimits(RstCommand)
  {
    assert AganCommand[..4] == AganCommand && ParamOf(AganCommand) == None;
    assert ArsvCommand[..4] == ArsvCommand && ParamOf(ArsvCommand) == None;
    assert AphsCommand[..4] == AphsCommand && ParamOf(AphsCommand) == None;
    assert RstCommand[..4] == RstCommand && ParamOf(RstCommand) == None;
  }

  /** `AOFF` is sent unchecked, but it carries no range-limited setting. */
  lemma AoffWithinLimits(v: int)
    ensures WithinLimits(AoffCommand(v))
  {
    AoffPrefixWithinLimits(AoffCommand(v));
  }

  /** Whatever follows `AOFF `, the command carries no range-limited setting. */
  lemma AoffPrefixWithinLimits(cmd: string)
    requires |cmd| >= 5 && cmd[..5] == "AOFF "
    ensures WithinLimits(cmd)
  {
    assert cmd[..4] == cmd[..5][..4];
    NoParam("AOFF");
    NoSettingWithinLimits(cmd, "AOFF");
  }

  /** A code outside the range, such as harmonic 0, would not be within limits. */
  lemma HarmZeroOutsideLimits()
    ensures !WithinLimits(IntCommand(Harm, 0))
  {
    IntCommandWithinLimits(Harm, 0);
  }
}
