/**
 * The SR830 lock-in amplifier wrapper as a class over its connection. The
 * connection is the record of what went over the bus: every command written
 * and every query asked, with the reply it got. Replies come from the
 * instrument, which is a function of everything exchanged before and of the
 * query; a setter whose assertion fails sends nothing.
 */
module Instrument {
  import opened Results
  import opened Decimal
  import opened PyText
  import opened Commands
  import opened Snap
  import opened Limits

  /** One exchange over the bus: a command written, or a query and the reply read back. */
  datatype Exchange = Write(command: string) | Query(command: string, reply: string)

  /** Every command written so far carries a setting within the range the wrapper asserts for it. */
  predicate AllWithinLimits(log: seq<Exchange>)
  {
    forall i :: 0 <= i < |log| ==> log[i].Write? ==> WithinLimits(log[i].command)
  }

  /**
   * The exchanges of asking channels 1 to `n` of a four-channel reading in turn,
   * after `before`: each query gets the reply the instrument gives it after
   * everything exchanged earlier.
   */
  function ChannelLog(instrument: (seq<Exchange>, string) -> string, before: seq<Exchange>, prefix: string, n: nat): (l: seq<Exchange>)
    requires n <= 4
    ensures |l| == n
  {
    if n == 0 then []
    else
      var earlier := ChannelLog(instrument, before, prefix, n - 1);
      var q := ChannelQuery(prefix, n);
      earlier + [Query(q, instrument(before + earlier, q))]
  }

  /**
   * Exchange `i` of the reading is the query for channel `i + 1`, answered after
   * `before` and the exchanges for the channels below it: channels go out one at a
   * time, in increasing order.
   */
  lemma {:induction false} ChannelLogAt(instrument: (seq<Exchange>, string) -> string, before: seq<Exchange>, prefix: string, n: nat, i: nat)
    requires i < n <= 4
    ensures var l := ChannelLog(instrument, before, prefix, n);
      l[i] == Query(prefix + [DigitChar(i + 1)], instrument(before + l[..i], prefix + [DigitChar(i + 1)]))
  {
    var l := ChannelLog(instrument, before, prefix, n);
    var earlier := ChannelLog(instrument, before, prefix, n - 1);
    assert l[..n - 1] == earlier;
    if i < n - 1 {
      ChannelLogAt(instrument, before, prefix, n - 1, i);
      assert l[i] == earlier[i];
      assert l[..i] == earlier[..i];
    }
  }

  class SR830m {
    /** The VISA resource name the connection was opened on. */
    const resource: string
    /** The instrument's reply to a query, given everything exchanged before it. */
    const instrument: (seq<Exchange>, string) -> string
    /** Everything exchanged over the connection, oldest first. */
    var log: seq<Exchange>

    /** The wrapper's guards have kept every written setting within range. */
    predicate Valid()
      reads this
    {
      AllWithinLimits(log)
    }

    /** Opens the connection on `resource` (`GPIB0::7::INSTR` unless told otherwise); nothing is exchanged yet. */
    constructor (resource: string, instrument: (seq<Exchange>, string) -> string)
      ensures Valid()
      ensures this.resource == resource && this.instrument == instrument
      ensures log == []
    {
      this.resource := resource;
      this.instrument := instrument;
      log := [];
    }

    /** `self.inst.write(cmd)`. */
    method Send(cmd: string)
      requires Valid() && WithinLimits(cmd)
      modifies this
      ensures Valid()
      ensures log == old(log) + [Write(cmd)]
    {
      log := log + [Write(cmd)];
    }

    /** `self.inst.query(q)`: the query goes out and the instrument's reply comes back. */
    method Ask(q: string) returns (reply: string)
      requires Valid()
      modifies this
      ensures Valid()
      ensures reply == instrument(old(log), q)
      ensures log == old(log) + [Query(q, reply)]
    {
      reply := instrument(log, q);
      log := log + [Query(q, reply)];
    }

    // -------------------------------------------------------------------------
    // Setters

    /**
     * The setter of an integer-coded parameter: when the code is outside the
     * parameter's range the assertion fails with the parameter's message and
     * nothing is sent; otherwise exactly the command `<mnemonic><digits>` is sent.
     */
    method SetInt(p: IntParam, value: int) returns (r: Outcome)
      requires Valid()
      modifies this
      ensures Valid()
      ensures r == Pass <==> Lo(p) <= value <= Hi(p)
      ensures r != Pass ==> r == Fail(Message(p)) && log == old(log)
      ensures r == Pass ==> log == old(log) + [Write(IntCommand(p, value))]
    {
      if !Accepts(p, value) {
        return Fail(Message(p));
      }
      IntCommandWithinLimits(p, value);
      Send(IntCommand(p, value));
      r := Pass;
    }

    /** The `phaseShift` setter: -360 to 729.99 degrees, sent to two decimals and not wrapped. */
    method SetPhaseShift(value: real) returns (r: Outcome)
      requires Valid()
      modifies this
      ensures Valid()
      ensures r == Pass <==> -360.0 <= value <= 729.99
      ensures r != Pass ==> r == Fail(PhaseMessage) && log == old(log)
      ensures r == Pass ==> log == old(log) + [Write(PhaseCommand(value))]
    {
      if !PhaseAccepts(value) {
        return Fail(PhaseMessage);
      }
      PhaseCommandWithinLimits(value);
      Send(PhaseCommand(value));
      r := Pass;
    }

    /** The `freq` setter: 0.001 to 10200 Hz, sent to three decimals. */
    method SetFreq(value: real) returns (r: Outcome)
      requires Valid()
      modifies this
      ensures Valid()
      ensures r == Pass <==> 0.001 <= value <= 10200.0
      ensures r != Pass ==> r == Fail(FreqMessage) && log == old(log)
      ensures r == Pass ==> log == old(log) + [Write(FreqCommand(value))]
    {
      if !FreqAccepts(value) {
        return Fail(FreqMessage);
      }
      FreqCommandWithinLimits(value);
      Send(FreqCommand(value));
      r := Pass;
    }

    /** The `slvl` setter: 0 to 5 V, with anything below 0.004 V raised to 0.004 V before it is sent. */
    method SetSlvl(value: real) returns (r: Outcome)
      requires Valid()
      modifies this
      ensures Valid()
      ensures r == Pass <==> 0.0 <= value <= 5.0
      ensures r != Pass ==> r == Fail(SlvlMessage) && log == old(log)
      ensures r == Pass ==> log == old(log) + [Write(SlvlCommand(value))]
    {
      if !SlvlAccepts(value) {
        return Fail(SlvlMessage);
      }
      SlvlCommandWithinLimits(value);
      Send(SlvlCommand(value));
      r := Pass;
    }

    /**
     * The `auxv` setter, given the pair `(channel, voltage)`: the channel is
     * checked first, then the voltage, and only then is `AUXV<channel>,<voltage>`
     * sent.
     */
    method SetAuxv(channel: int, voltage: real) returns (r: Outcome)
      requires Valid()
      modifies this
      ensures Valid()
      ensures r == Pass <==> 1 <= channel <= 4 && -10.5 <= voltage <= 10.5
      ensures !(1 <= channel <= 4) ==> r == Fail(AuxChannelMessage)
      ensures 1 <= channel <= 4 && r != Pass ==> r == Fail(AuxVoltageMessage)
      ensures r != Pass ==> log == old(log)
      ensures r == Pass ==> log == old(log) + [Write(AuxvCommand(channel, voltage))]
    {
      r := AuxvCheck(channel, voltage);
      if r == Pass {
        AuxvCommandWithinLimits(channel, voltage);
        Send(AuxvCommand(channel, voltage));
      }
    }

    // -------------------------------------------------------------------------
    // Getters

    /**
     * The getter of an integer-coded parameter other than the sensitivity: one
     * `<mnemonic>?` query, its reply read as a Python `int` (`None` where `int()`
     * raises).
     */
    method GetInt(p: IntParam) returns (r: Option<int>)
      requires p != IntParam.Sens
      requires Valid()
      modifies this
      ensures Valid()
      ensures log == old(log) + [Query(IntQuery(p), instrument(old(log), IntQuery(p)))]
      ensures r == ParseInt(instrument(old(log), IntQuery(p)))
      ensures forall v :: instrument(old(log), IntQuery(p)) == IntDecimal(v) ==> r == Some(v)
    {
      var reply := Ask(IntQuery(p));
      r := ParseInt(reply);
      forall v | reply == IntDecimal(v) ensures r == Some(v) {
        IntDecimalRoundTrip(v);
      }
    }

    /** The `sens` getter returns the reply text as it came, without reading it as a number. */
    method Sens() returns (reply: string)
      requires Valid()
      modifies this
      ensures Valid()
      ensures reply == instrument(old(log), "SENS?")
      ensures log == old(log) + [Query("SENS?", reply)]
    {
      reply := Ask("SENS?");
    }

    /** `str(self.inst.query('*IDN?'))`. */
    method Idn() returns (reply: string)
      requires Valid()
      modifies this
      ensures Valid()
      ensures reply == instrument(old(log), IdnQuery)
      ensures log == old(log) + [Query(IdnQuery, reply)]
    {
      reply := Ask(IdnQuery);
    }

    /**
     * Four queries `<prefix>1` to `<prefix>4`, in channel order, and the replies
     * keyed by channel.
     */
    method FourChannels(prefix: string) returns (m: map<int, string>)
      requires Valid()
      modifies this
      ensures Valid()
      ensures log == old(log) + ChannelLog(instrument, old(log), prefix, 4)
      ensures m.Keys == {1, 2, 3, 4}
      ensures log[|old(log)|..] == [Query(ChannelQuery(prefix, 1), m[1]), Query(ChannelQuery(prefix, 2), m[2]),
                                    Query(ChannelQuery(prefix, 3), m[3]), Query(ChannelQuery(prefix, 4), m[4])]
    {
      ghost var before := log;
      ghost var cl1 := ChannelLog(instrument, before, prefix, 1);
      ghost var cl2 := ChannelLog(instrument, before, prefix, 2);
      ghost var cl3 := ChannelLog(instrument, before, prefix, 3);
      assert before + [] == before;
      var r1 := Ask(ChannelQuery(prefix, 1));
      assert log == before + cl1;
      var r2 := Ask(ChannelQuery(prefix, 2));
      assert log == before + cl2;
      var r3 := Ask(ChannelQuery(prefix, 3));
      assert log == before + cl3;
      var r4 := Ask(ChannelQuery(prefix, 4));
      m := map[1 := r1, 2 := r2, 3 := r3, 4 := r4];
    }

    /** The `oaux` getter: the four auxiliary inputs, `OAUX?1` to `OAUX?4` in order, keyed 1 to 4. */
    method Oaux() returns (m: map<int, string>)
      requires Valid()
      modifies this
      ensures Valid()
      ensures log == old(log) + ChannelLog(instrument, old(log), "OAUX?", 4)
      ensures m.Keys == {1, 2, 3, 4}
      ensures forall i :: 1 <= i <= 4 ==> log[|old(log)| + i - 1] == Query("OAUX?" + [DigitChar(i)], m[i])
    {
      m := FourChannels("OAUX?");
    }

    /** The `auxv` getter: the four auxiliary outputs, `AUXV?1` to `AUXV?4` in order, keyed 1 to 4. */
    method Auxv() returns (m: map<int, string>)
      requires Valid()
      modifies this
      ensures Valid()
      ensures log == old(log) + ChannelLog(instrument, old(log), "AUXV?", 4)
      ensures m.Keys == {1, 2, 3, 4}
      ensures forall i :: 1 <= i <= 4 ==> log[|old(log)| + i - 1] == Query("AUXV?" + [DigitChar(i)], m[i])
    {
      m := FourChannels("AUXV?");
    }

    // -------------------------------------------------------------------------
    // Snapshot

    /**
     * `snap(xs)`: when the list fails either assertion nothing is sent; otherwise
     * the one query `SNAP?` + the elements joined by `", "` + `","` goes out, and
     * the reply comes back split at its commas, one field per entry, in order.
     */
    method Snap(xs: seq<int>) returns (r: Result<seq<string>>)
      requires Valid()
      modifies this
      ensures Valid()
      ensures r.Ok? <==> 2 <= |xs| <= 6 && forall i :: 0 <= i < |xs| ==> 1 <= xs[i] <= 11
      ensures r.Failed? ==> Fail(r.message) == SnapCheck(xs) && log == old(log)
      ensures r.Ok? ==>
        log == old(log) + [Query(SnapQuery(xs), instrument(old(log), SnapQuery(xs)))] &&
        r.value == SnapFields(instrument(old(log), SnapQuery(xs))) &&
        Join(r.value, ",") == instrument(old(log), SnapQuery(xs))
    {
      var check := SnapCheck(xs);
      if check.Fail? {
        return Failed(check.message);
      }
      var reply := Ask(SnapQuery(xs));
      SnapFieldsComplete(reply);
      r := Ok(SnapFields(reply));
    }

    // -------------------------------------------------------------------------
    // Actions

    /** `agan`: auto gain. */
    method Agan()
      requires Valid()
      modifies this
      ensures Valid()
      ensures log == old(log) + [Write(AganCommand)]
    {
      ActionsWithinLimits();
      Send(AganCommand);
    }

    /** `arsv`: auto reserve. */
    method Arsv()
      requires Valid()
      modifies this
      ensures Valid()
      ensures log == old(log) + [Write(ArsvCommand)]
    {
      ActionsWithinLimits();
      Send(ArsvCommand);
    }

    /** `aphs`: auto phase. */
    method Aphs()
      requires Valid()
      modifies this
      ensures Valid()
      ensures log == old(log) + [Write(AphsCommand)]
    {
      ActionsWithinLimits();
      Send(AphsCommand);
    }

    /** `aoff(value)`: auto offset, sent for any integer without a check. */
    method Aoff(value: int)
      requires Valid()
      modifies this
      ensures Valid()
      ensures log == old(log) + [Write(AoffCommand(value))]
    {
      AoffWithinLimits(value);
      Send(AoffCommand(value));
    }

    /** `rst`: reset the instrument to its defaults. */
    method Rst()
      requires Valid()
      modifies this
      ensures Valid()
      ensures log == old(log) + [Write(RstCommand)]
    {
      ActionsWithinLimits();
      Send(RstCommand);
    }
  }
}
