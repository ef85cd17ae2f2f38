/**
 * The validate-then-encode layer of the SR830 lock-in amplifier wrapper: for each
 * setter, the guard it asserts before anything is sent, the message of the
 * assertion that fails otherwise, and the command text it sends; and the fixed
 * query and action commands.
 */
module Commands {
  import opened Results
  import opened Decimal
  import opened PyText

  // ---------------------------------------------------------------------------
  // Integer-coded parameters

  /** The parameters whose setters take an integer code. */
  datatype IntParam = Fmod | Rslp | Harm | Isrc | Ignd | Icpl | Ilin | Sens | Rmod | Oflt | Ofsl | Sync

  /** The command mnemonic of a parameter. */
  function Mnemonic(p: IntParam): (m: string)
    ensures |m| == 4
  {
    match p
    case Fmod => "FMOD"
    case Rslp => "RSLP"
    case Harm => "HARM"
    case Isrc => "ISRC"
    case Ignd => "IGND"
    case Icpl => "ICPL"
    case Ilin => "ILIN"
    case Sens => "SENS"
    case Rmod => "RMOD"
    case Oflt => "OFLT"
    case Ofsl => "OFSL"
    case Sync => "SYNC"
  }

  /** The parameter a mnemonic names, if any. */
  function ParamOf(m: string): (p: Option<IntParam>)
    ensures p.Some? ==> Mnemonic(p.value) == m
  {
    match m
    case "FMOD" => Some(Fmod)
    case "RSLP" => Some(Rslp)
    case "HARM" => Some(Harm)
    case "ISRC" => Some(Isrc)
    case "IGND" => Some(Ignd)
    case "ICPL" => Some(Icpl)
    case "ILIN" => Some(Ilin)
    case "SENS" => Some(Sens)
    case "RMOD" => Some(Rmod)
    case "OFLT" => Some(Oflt)
    case "OFSL" => Some(Ofsl)
    case "SYNC" => Some(Sync)
    case _ => None
  }

  /** The smallest code the instrument manual documents for a parameter. */
  function Lo(p: IntParam): int
  {
    match p
    case Harm => 1
    case _ => 0
  }

  /** The largest code the instrument manual documents for a parameter. */
  function Hi(p: IntParam): int
  {
    match p
    case Fmod | Ignd | Icpl | Sync => 1
    case Rslp | Rmod => 2
    case Isrc | Ilin | Ofsl => 3
    case Oflt => 19
    case Sens => 26
    case Harm => 19999
  }

  /** The guard a setter asserts, in the form the wrapper writes it; it admits exactly the inclusive range its message names. */
  function Accepts(p: IntParam, v: int): (ok: bool)
    ensures ok <==> Lo(p) <= v <= Hi(p)
  {
    match p
    case Fmod | Ignd | Icpl | Sync => v == 0 || v == 1
    case Rslp | Rmod => v >= 0 && v <= 2
    case Isrc | Ilin | Ofsl => v >= 0 && v <= 3
    case Oflt => v >= 0 && v <= 19
    case Sens => v >= 0 && v <= 26
    case Harm => v >= 1 && v <= 19999
  }

  /** The message of the assertion a setter raises for a code outside its range. */
  function Message(p: IntParam): string
  {
    match p
    case Fmod => FmodMessage
    case Rslp => RslpMessage
    case Harm => HarmMessage
    case Isrc => IsrcMessage
    case Ignd => IgndMessage
    case Icpl => IcplMessage
    case Ilin => IlinMessage
    case Sens => SensMessage
    case Rmod => RmodMessage
    case Oflt => OfltMessage
    case Ofsl => OfslMessage
    case Sync => SyncMessage
  }

  const FmodMessage := "FMOD should be 0 (external) or 1 (internal)!"
  const RslpMessage := "Reference trigger should be 0 (zero crossing), 1 (rising edge) or 2 (falling edge)!"
  const HarmMessage := "Detection harmonic should be between 1 and 19999!"
  const IsrcMessage := "Input Configuration should be 0 (A), 1 (A-B), 2 (1 M\U{03A9}) or 3 (100 M\U{03A9})!"
  const IgndMessage := "Shield grounding should be 0 (float) or 1 (ground)!"
  const IcplMessage := "Input coupling should be 0 (AC) or 1 (DC)!"
  const IlinMessage := "Input line notch filter should be 0 (no filter), 1 (Line filter), 2 (2x line filter) or 3 (both filters)!"
  const SensMessage := "Sensitivity should be integer between 0 and 26! Check user manual."
  const RmodMessage := " Reserve Mode should be 0 (High Reserve), 1 (Normal) or 2 (Low Noise)!"
  const OfltMessage := "Time Constant should be integer between 0 and 19! Check user manual."
  const OfslMessage := "Low pass filter slope should be 0 (6dB), 1 (12dB), 2 (18dB) or 3 (24dB)!"
  const SyncMessage := "Synchronous filter should be 0 (Off) or 1 (filtering below 200Hz)!"

  /** Each integer setter fails with a message of its own, so the message tells which parameter was refused. */
  lemma MessageIdentifies(p: IntParam, q: IntParam)
    ensures Message(p) == Message(q) <==> p == q
  {
    if p != q {
      MessageLengths();
      if (p == Sens && q == Sync) || (p == Sync && q == Sens) {
        SensSyncMessages();
      } else {
        assert |Message(p)| != |Message(q)|;
      }
    }
  }

  /** The two messages of equal length differ in their last character. */
  lemma SensSyncMessages()
    ensures SensMessage != SyncMessage
  {
    assert SensMessage[65] == '.' && SyncMessage[65] == '!';
  }

  /** Apart from `SENS` and `SYNC`, the messages already differ in length. */
  lemma MessageLengths()
    ensures |FmodMessage| == 44
    ensures |RslpMessage| == 83
    ensures |HarmMessage| == 49
    ensures |IsrcMessage| == 69
    ensures |IgndMessage| == 51
    ensures |IcplMessage| == 42
    ensures |IlinMessage| == 105
    ensures |SensMessage| == 66
    ensures |RmodMessage| == 70
    ensures |OfltMessage| == 68
    ensures |OfslMessage| == 72
    ensures |SyncMessage| == 66
  {
  }

  /**
   * The command a setter sends for code `v`: the mnemonic, then at once the decimal
   * digits of `v`, with no space; the instrument reads `v` back from what follows
   * the mnemonic.
   */
  function IntCommand(p: IntParam, v: int): (cmd: string)
    ensures |cmd| >= 5 && cmd[..4] == Mnemonic(p)
    ensures ParseInt(cmd[4..]) == Some(v)
    ensures v >= 0 ==> AllDigits(cmd[4..])
  {
    IntDecimalRoundTrip(v);
    assert (Mnemonic(p) + IntDecimal(v))[4..] == IntDecimal(v);
    Mnemonic(p) + IntDecimal(v)
  }

  /** The query a getter sends: the mnemonic and a question mark. */
  function IntQuery(p: IntParam): (q: string)
    ensures |q| == 5 && q[..4] == Mnemonic(p) && q[4] == '?'
  {
    Mnemonic(p) + "?"
  }

  /** Reads a setter command back into the parameter and the code it carries. */
  function DecodeIntCommand(cmd: string): Option<(IntParam, int)>
  {
    if |cmd| < 4 then None
    else match (ParamOf(cmd[..4]), ParseInt(cmd[4..]))
      case (Some(p), Some(v)) => Some((p, v))
      case _ => None
  }

  lemma ParamOfMnemonic(p: IntParam)
    ensures ParamOf(Mnemonic(p)) == Some(p)
  {
  }

  /** Every setter command reads back as the parameter and code that produced it. */
  lemma DecodeIntCommandInverse(p: IntParam, v: int)
    ensures DecodeIntCommand(IntCommand(p, v)) == Some((p, v))
  {
    ParamOfMnemonic(p);
  }

  /** No two setter commands coincide: the command fixes both the parameter and the code. */
  lemma IntCommandInjective(p: IntParam, v: int, q: IntParam, w: int)
    ensures IntCommand(p, v) == IntCommand(q, w) <==> p == q && v == w
  {
    DecodeIntCommandInverse(p, v);
    DecodeIntCommandInverse(q, w);
  }

  // ---------------------------------------------------------------------------
  // Real-valued parameters

  const PhaseMessage := "Phase shift should be between -360\U{00B0} and +729.99\U{00B0}!"
  const FreqMessage := "Frequency should be between 0.001 Hz and 10200 Hz!"
  const SlvlMessage := "Amplitude of sine-output should be between 0 (=0.004) V and 5 V"
  const AuxChannelMessage := "Output Channel should be 1, 2, 3 or 4!"
  const AuxVoltageMessage := "Output Voltage should be between -10.5V and 10.5V"

  /** The smallest sine output amplitude; smaller requested amplitudes are raised to it. */
  const MinSineLevel: real := 0.004

  /** The phase-shift guard: -360 <= x <= 729.99 degrees. */
  function PhaseAccepts(x: real): bool
  {
    x >= -360.0 && x <= 729.99
  }

  /** `'PHAS{:.2f}'.format(x)`: the phase, rounded to 0.01 degree and not wrapped into ±180. */
  function PhaseCommand(x: real): (cmd: string)
    ensures |cmd| >= 5 && cmd[..4] == "PHAS"
    ensures FixedValue(cmd[4..]) == Some(Rounded(x, 2))
  {
    FixedRoundTrip(x, 2);
    assert ("PHAS" + Fixed(x, 2))[4..] == Fixed(x, 2);
    "PHAS" + Fixed(x, 2)
  }

  /** The frequency guard: 0.001 <= f <= 10200 Hz. */
  function FreqAccepts(f: real): bool
  {
    f >= 0.001 && f <= 10200.0
  }

  /** `'FREQ{:.3f}'.format(f)`. */
  function FreqCommand(f: real): (cmd: string)
    ensures |cmd| >= 5 && cmd[..4] == "FREQ"
    ensures FixedValue(cmd[4..]) == Some(Rounded(f, 3))
  {
    FixedRoundTrip(f, 3);
    assert ("FREQ" + Fixed(f, 3))[4..] == Fixed(f, 3);
    "FREQ" + Fixed(f, 3)
  }

  /** The sine-amplitude guard: 0 <= v <= 5 V. */
  function SlvlAccepts(v: real): bool
  {
    v >= 0.0 && v <= 5.0
  }

  /**
   * The amplitude actually sent for a requested `v`: `v` itself from 0.004 V up,
   * 0.004 V below that; it is the larger of the two.
   */
  function SineLevel(v: real): (level: real)
    ensures level >= MinSineLevel && level >= v
    ensures level == MinSineLevel || level == v
  {
    if v < MinSineLevel then MinSineLevel else v
  }

  /** `'SLVL{:.3f}'.format(level)` for the level `SineLevel` picks. */
  function SlvlCommand(v: real): (cmd: string)
    ensures |cmd| >= 5 && cmd[..4] == "SLVL"
    ensures FixedValue(cmd[4..]) == Some(Rounded(SineLevel(v), 3))
  {
    FixedRoundTrip(SineLevel(v), 3);
    assert ("SLVL" + Fixed(SineLevel(v), 3))[4..] == Fixed(SineLevel(v), 3);
    "SLVL" + Fixed(SineLevel(v), 3)
  }

  function Abs(x: real): real
  {
    if x < 0.0 then -x else x
  }

  /**
   * The two assertions of the auxiliary-output setter, in order: the channel
   * first, then the voltage.
   */
  function AuxvCheck(channel: int, voltage: real): (r: Outcome)
    ensures r == Pass <==> 1 <= channel <= 4 && -10.5 <= voltage <= 10.5
    ensures !(1 <= channel <= 4) ==> r == Fail(AuxChannelMessage)
  {
    if !(channel >= 1 && channel <= 4) then Fail(AuxChannelMessage)
    else if !(Abs(voltage) <= 10.5) then Fail(AuxVoltageMessage)
    else Pass
  }

  /** `'AUXV{:d},{:.3f}'.format(channel, voltage)`. */
  function AuxvCommand(channel: int, voltage: real): (cmd: string)
    ensures |cmd| >= 4 && cmd[..4] == "AUXV"
  {
    assert ("AUXV" + IntDecimal(channel) + "," + Fixed(voltage, 3))[..4] == "AUXV";
    "AUXV" + IntDecimal(channel) + "," + Fixed(voltage, 3)
  }

  /** An auxiliary-output command splits on its one comma into the channel part and the voltage part. */
  lemma AuxvCommandFields(channel: int, voltage: real)
    ensures var fields := Split(AuxvCommand(channel, voltage), ',');
      |fields| == 2 && |fields[0]| >= 4 && fields[0][..4] == "AUXV" &&
      ParseInt(fields[0][4..]) == Some(channel) &&
      FixedValue(fields[1]) == Some(Rounded(voltage, 3))
  {
    var head := "AUXV" + IntDecimal(channel);
    var tail := Fixed(voltage, 3);
    assert ',' !in head by {
      forall k | 0 <= k < |head| ensures head[k] != ',' {
        if k >= 4 { assert head[k] == IntDecimal(channel)[k - 4]; }
      }
    }
    assert ',' !in tail by {
      FixedChars(voltage, 3);
    }
    assert AuxvCommand(channel, voltage) == Join([head, tail], ",");
    SplitJoin([head, tail], ',');
    assert head[4..] == IntDecimal(channel);
    IntDecimalRoundTrip(channel);
    FixedRoundTrip(voltage, 3);
  }

  // ---------------------------------------------------------------------------
  // What the rounded values the setters send stay within

  /** The scales of two and three decimals, evaluated once for the lemmas below. */
  lemma {:induction false} Pow10Values()
    ensures Pow10(2) == 100 && Pow10(3) == 1000
  {
    assert Pow10(1) == 10;
  }

  /** An accepted phase goes out as -360.00 ..= 729.99 degrees, unwrapped. */
  lemma PhaseCommandInRange(x: real)
    requires PhaseAccepts(x)
    ensures -36000 <= Rounded(x, 2).units <= 72999
  {
    assert Pow10(2) == 100;
  }

  /** An accepted frequency goes out as 0.001 ..= 10200.000 Hz. */
  lemma FreqCommandInRange(f: real)
    requires FreqAccepts(f)
    ensures 1 <= Rounded(f, 3).units <= 10200000
  {
    assert Pow10(3) == 1000;
  }

  /** An accepted amplitude goes out as 0.004 ..= 5.000 V, never below the minimum. */
  lemma SlvlCommandInRange(v: real)
    requires SlvlAccepts(v)
    ensures 4 <= Rounded(SineLevel(v), 3).units <= 5000
  {
    assert Pow10(3) == 1000;
  }

  /** An accepted auxiliary voltage goes out as -10.500 ..= 10.500 V. */
  lemma AuxvCommandInRange(channel: int, voltage: real)
    requires AuxvCheck(channel, voltage) == Pass
    ensures -10500 <= Rounded(voltage, 3).units <= 10500
  {
    assert Pow10(3) == 1000;
  }

  // ---------------------------------------------------------------------------
  // Fixed queries and actions

  /** `'AOFF {:d}'.format(v)`: the one action with an argument, sent with a space and never checked. */
  function AoffCommand(v: int): (cmd: string)
    ensures |cmd| >= 6 && cmd[..5] == "AOFF "
    ensures ParseInt(cmd[5..]) == Some(v)
  {
    IntDecimalRoundTrip(v);
    assert ("AOFF " + IntDecimal(v))[5..] == IntDecimal(v);
    "AOFF " + IntDecimal(v)
  }

  const AganCommand := "AGAN"
  const ArsvCommand := "ARSV"
  const AphsCommand := "APHS"
  const RstCommand := "*RST"
  const IdnQuery := "*IDN?"

  /** The query for channel `i` of a four-channel reading such as `OAUX?` or `OUTP?`. */
  function ChannelQuery(prefix: string, i: int): (q: string)
    requires 1 <= i <= 4
    ensures q == prefix + [DigitChar(i)]
  {
    assert IntDecimal(i) == [DigitChar(i)];
    prefix + IntDecimal(i)
  }

  // ---------------------------------------------------------------------------
  // Worked commands

  /** A sensitivity code goes out as its digits right after the mnemonic. */
  lemma SensExample(p: IntParam, v: int)
    requires p == Sens && v == 12
    ensures Accepts(p, v) && IntCommand(p, v) == "SENS12"
  {
    TwelveText(v);
    IntCommandSpelling(p, v);
  }

  lemma TwelveText(v: int)
    requires v == 12
    ensures IntDecimal(v) == "12"
  {
    assert NatDigits(v) == NatDigits(1) + [DigitChar(2)] == "12";
  }

  /** A setter command is its mnemonic with the code's decimal text right after it. */
  lemma IntCommandSpelling(p: IntParam, v: int)
    ensures IntCommand(p, v) == Mnemonic(p) + IntDecimal(v)
  {
  }

  /** 541 degrees is sent as written, not wrapped to -179. */
  lemma PhaseExample()
    ensures PhaseAccepts(541.0) && PhaseCommand(541.0) == "PHAS541.00"
  {
    Pow10Values();
    RoundWhole(54100);
    assert Rounded(541.0, 2).units == 54100;
    PhaseDigits();
  }

  lemma PhaseDigits()
    ensures PointDigits(54100, 2) == "541.00"
  {
    assert NatDigits(54100) == "54100";
  }

  /** An amplitude below the minimum is raised to 0.004 V instead of being refused. */
  lemma SlvlExample()
    ensures SlvlAccepts(0.001) && SlvlCommand(0.001) == "SLVL0.004"
  {
    Pow10Values();
    assert SineLevel(0.001) == 0.004;
    RoundWhole(4);
    assert Rounded(0.004, 3).units == 4;
    SlvlDigits();
  }

  lemma SlvlDigits()
    ensures PointDigits(4, 3) == "0.004"
  {
    assert NatDigits(4) == "4";
    assert Zeros(3) == "000";
    assert PadLeft("4", 4) == "0004";
  }

  /** 11 V on channel 2 is refused by the voltage assertion. */
  lemma AuxvExample()
    ensures AuxvCheck(2, 11.0) == Fail(AuxVoltageMessage)
  {
  }
}
