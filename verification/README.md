# SR830 lock-in amplifier wrapper, modelled in Dafny

This project models `SR830m`, a Python wrapper for the Stanford Research Systems SR830
lock-in amplifier. The wrapper talks to the instrument over a VISA (GPIB) connection. Each
setter first asserts that its argument is in a fixed range, then writes one
command: a four-letter mnemonic followed by the value. Each getter writes a query and
returns the reply.

The connection is modelled as the class `Instrument.SR830m`:
- `log` records every exchange in order. An exchange is `Write(command)` or
  `Query(command, reply)`.
- Replies come from `instrument`, a function of everything exchanged before the query and
  of the query text itself. The replies are therefore unconstrained, but each one is
  determined by the history.
- A Python `assert` that fails is modelled as `Fail(message)`, carrying the assertion's
  own message. The `log` is left untouched when that happens.

The class invariant `Valid()` states that every command written so far carries a setting
inside the range the wrapper asserts for it. These ranges are the manual's, except that
the wrapper asserts a frequency of at most 10200 Hz, below the manual's 102000 Hz. The
setters are proved to preserve the invariant.

Modules:
- `Results`: the `Option`, `Outcome` and `Result` wrappers.
- `PyText`: Python's `str.split` on one character and `str.strip`, as the wrapper calls them, with `IndexOf` (the first occurrence of a character) as a helper for `Split`, and `Join` (Python's `str.join`) as a helper for `str(list)` and for stating round trips.
- `Decimal`: `'{:d}'` and `'{:.Nf}'` formatting, `int()` of a reply, and the parsers
  that read the formatted text back.
- `Commands`: the guards, assertion messages and command texts of every setter, and the
  fixed queries and actions.
- `PyList`: `str()` of a list of ints.
- `Snap`: the list check, query text and reply split of `snap`.
- `Limits`: the range predicate on written commands.
- `Instrument`: the class.

## Model

| member | source | states |
|---|---|---|
| PyText.Split | stanford_research_systems/sr830m.py:280 | `answer.split(',')` yields at least one piece, and no piece contains the separator |
| PyText.StripLeft | stanford_research_systems/sr830m.py:278 | `lstrip` removes a prefix made only of stripped characters, and what remains does not start with one |
| PyText.StripRight | stanford_research_systems/sr830m.py:278 | `rstrip` removes a suffix made only of stripped characters, and what remains does not end with one |
| PyText.JoinSplit | stanford_research_systems/sr830m.py:280 | joining the pieces of a split with the separator gives back the original text |
| PyText.SplitJoin | stanford_research_systems/sr830m.py:280 | splitting a join of separator-free pieces gives back exactly those pieces |
| PyText.StripEnds | stanford_research_systems/sr830m.py:278 | what `strip(chars)` leaves neither starts nor ends with one of `chars`, and it is empty exactly when every character was one of them |
| PyText.StripEnclosed | stanford_research_systems/sr830m.py:278 | `strip('[]')` of a bracketed text whose inside neither starts nor ends with a bracket is the inside |
| Decimal.NatDigits | stanford_research_systems/sr830m.py:74 | `'{:d}'` of a non-negative int is a non-empty run of digits, with no leading zero unless the number is 0 |
| Decimal.NatDigitsValue | stanford_research_systems/sr830m.py:74 | the digits written for `n` denote `n` |
| Decimal.IntDecimal | stanford_research_systems/sr830m.py:74 | `'{:d}'` of an int starts with `-` exactly when it is negative, and every other character is a digit |
| Decimal.ParseIntPadded | stanford_research_systems/sr830m.py:69 | `int()` of a reply reads the digits whatever whitespace surrounds them, such as a trailing line end |
| Decimal.IntDecimalRoundTrip | stanford_research_systems/sr830m.py:69 | `int()` of `'{:d}'.format(i)` is `i`, also with a space in front |
| Decimal.RoundHalfEven | stanford_research_systems/sr830m.py:65 | the rounding `'{:.Nf}'` applies is within one half of the exact value, and ties go to the even neighbour |
| Decimal.Rounded | stanford_research_systems/sr830m.py:65 | `x` rounded to N places is within half a unit of the last place of `x` |
| Decimal.Fixed | stanford_research_systems/sr830m.py:65 | `'{:.Nf}'` text is non-empty and starts with a minus sign exactly for a negative value |
| Decimal.FixedChars | stanford_research_systems/sr830m.py:65 | `'{:.Nf}'` text is non-empty and consists of digits and a point, with a minus sign only in front |
| Decimal.IntDecimalValue | stanford_research_systems/sr830m.py:74 | reading back the digits `'{:d}'` wrote, with their sign, gives the integer |
| Decimal.PointDigitsValue | stanford_research_systems/sr830m.py:65 | the digits of a magnitude, with a point before the last N of them, read back as that magnitude at N places |
| Decimal.FixedRoundTrip | stanford_research_systems/sr830m.py:65 | reading back the text `'{:.Nf}'.format(x)` gives `x` rounded to N places |
| Commands.ParamOf | stanford_research_systems/sr830m.py:71-209 | a mnemonic names at most one integer parameter, the one whose mnemonic it is |
| Commands.Accepts | stanford_research_systems/sr830m.py:71-209 | each integer setter's guard admits exactly its inclusive range: fmod/ignd/icpl/sync 0..1, rslp/rmod 0..2, isrc/ilin/ofsl 0..3, oflt 0..19, sens 0..26, harm 1..19999 |
| Commands.MessageIdentifies | stanford_research_systems/sr830m.py:71-209 | each integer setter fails with a message of its own: two parameters share a message only when they are the same parameter |
| Commands.IntCommand | stanford_research_systems/sr830m.py:71-209 | a setter command is the four-letter mnemonic followed at once by the code, which reads back as the code and is plain digits for a non-negative code |
| Commands.IntQuery | stanford_research_systems/sr830m.py:67-69 | a getter query is the mnemonic followed by `?` |
| Commands.DecodeIntCommandInverse | stanford_research_systems/sr830m.py:71-209 | every integer setter command reads back as the parameter and the code that produced it |
| Commands.IntCommandInjective | stanford_research_systems/sr830m.py:71-209 | two integer setter commands are equal exactly when both the parameter and the code are equal |
| Commands.PhaseAccepts | stanford_research_systems/sr830m.py:64 | the phase guard, -360 <= x <= 729.99 as asserted; SetPhaseShift passes exactly on it and PhaseCommandInRange bounds what it admits |
| Commands.PhaseCommand | stanford_research_systems/sr830m.py:62-65 | the phase command is `PHAS`, then the phase rounded to two places |
| Commands.FreqAccepts | stanford_research_systems/sr830m.py:95 | the frequency guard, 0.001 <= f <= 10200 as asserted; SetFreq passes exactly on it and FreqCommandInRange bounds what it admits |
| Commands.FreqCommand | stanford_research_systems/sr830m.py:93-96 | the frequency command is `FREQ`, then the frequency rounded to three places |
| Commands.SlvlAccepts | stanford_research_systems/sr830m.py:123 | the amplitude guard, 0 <= v <= 5 as asserted; SetSlvl passes exactly on it and SlvlCommandInRange bounds what it admits |
| Commands.SineLevel | stanford_research_systems/sr830m.py:123-126 | the amplitude sent is the requested one from 0.004 V up and exactly 0.004 V below that, so it is never below 0.004 V or below the request |
| Commands.SlvlCommand | stanford_research_systems/sr830m.py:121-126 | the amplitude command is `SLVL`, then the clamped amplitude rounded to three places |
| Commands.AuxvCheck | stanford_research_systems/sr830m.py:230-235 | the auxiliary-output setter passes exactly for channel 1..4 and \|voltage\| <= 10.5; a bad channel is reported first, with its own message |
| Commands.AuxvCommand | stanford_research_systems/sr830m.py:236 | the auxiliary-output command starts with `AUXV`; AuxvCommandFields gives the channel and voltage after it |
| Commands.AuxvCommandFields | stanford_research_systems/sr830m.py:236 | `AUXV<ch>,<v>` splits on its one comma into `AUXV` plus the channel, and the voltage rounded to three places |
| Commands.PhaseCommandInRange | stanford_research_systems/sr830m.py:64-65 | an accepted phase is sent as -360.00 to 729.99, with no ±180° wrap |
| Commands.FreqCommandInRange | stanford_research_systems/sr830m.py:95-96 | an accepted frequency is sent as 0.001 to 10200.000 Hz |
| Commands.SlvlCommandInRange | stanford_research_systems/sr830m.py:123-126 | an accepted amplitude is sent as 0.004 to 5.000 V |
| Commands.AuxvCommandInRange | stanford_research_systems/sr830m.py:235-236 | an accepted auxiliary voltage is sent as -10.500 to 10.500 V |
| Commands.AoffCommand | stanford_research_systems/sr830m.py:254-255 | `aoff` sends `AOFF`, a space and the integer, for any integer |
| Commands.ChannelQuery | stanford_research_systems/sr830m.py:216-228 | a channel query is the prefix followed by the single digit of the channel |
| Commands.SensExample | stanford_research_systems/sr830m.py:170-173 | sensitivity 12 is accepted and sent as `SENS12` |
| Commands.PhaseExample | stanford_research_systems/sr830m.py:62-65 | phase 541 is accepted and sent as `PHAS541.00`, not wrapped to -179 |
| Commands.SlvlExample | stanford_research_systems/sr830m.py:121-126 | amplitude 0.001 V is accepted and sent as `SLVL0.004` |
| Commands.AuxvExample | stanford_research_systems/sr830m.py:235 | 11 V on channel 2 fails the voltage assertion |
| PyList.Renders | stanford_research_systems/sr830m.py:278 | `str()` of a list renders one text per element |
| PyList.RendersReadBack | stanford_research_systems/sr830m.py:278 | each element `str()` writes for a list reads back through `int()` as that element |
| PyList.ListStr | stanford_research_systems/sr830m.py:278 | `str(list)` opens with `[` and closes with `]` |
| PyList.CommaSpace | stanford_research_systems/sr830m.py:278 | joining with `", "` equals joining with `","` after a space is put in front of every element but the first |
| PyList.JoinedRendersEnds | stanford_research_systems/sr830m.py:278 | the rendered elements, joined, neither start nor end with a bracket |
| Snap.Min | stanford_research_systems/sr830m.py:277 | `min` is an element of the list and bounds every element from below |
| Snap.Max | stanford_research_systems/sr830m.py:277 | `max` is an element of the list and bounds every element from above |
| Snap.SnapCheck | stanford_research_systems/sr830m.py:276-277 | `snap` passes its two assertions exactly for lists of 2 to 6 elements that all lie in 1..11; a bad length fails with the length message, and a list of good length with an element outside 1..11 fails with the range message |
| Snap.SnapQuery | stanford_research_systems/sr830m.py:278 | the query starts with `SNAP?` and ends with a comma |
| Snap.SnapFields | stanford_research_systems/sr830m.py:280 | the reply is cut into comma-free fields |
| Snap.SnapFieldsComplete | stanford_research_systems/sr830m.py:280 | the fields, rejoined with commas, are the whole reply, in order |
| Snap.StrippedList | stanford_research_systems/sr830m.py:278 | `str(xs).strip('[]')` is the elements joined by `", "` |
| Snap.QuerySpelling | stanford_research_systems/sr830m.py:278 | the query is `SNAP?`, then the elements joined by `", "`, then a comma |
| Snap.QueryFieldAt | stanford_research_systems/sr830m.py:278 | after `SNAP?`, field `i` is `'{:d}'` of selector `i`, with a space in front of every field but the first |
| Snap.SnapQueryFields | stanford_research_systems/sr830m.py:278 | the query is `SNAP?` followed by one comma-terminated field per selector, each reading back as that selector, in order |
| Snap.SnapCheckExample | stanford_research_systems/sr830m.py:276-277 | `snap([1, 2, 3])` passes both assertions; `snap([1])` fails the length assertion and `snap([0, 5])` the range assertion |
| Snap.ListExample | stanford_research_systems/sr830m.py:278 | `str([1, 2, 3])` without its brackets is `1, 2, 3` |
| Snap.SnapQueryExample | stanford_research_systems/sr830m.py:278 | `snap([1, 2, 3])` sends `SNAP?1, 2, 3,` |
| Limits.IntCommandWithinLimits | stanford_research_systems/sr830m.py:71-209 | an integer setter command is within the asserted range exactly when the guard admits its code |
| Limits.PhaseCommandWithinLimits | stanford_research_systems/sr830m.py:64-65 | the phase guard is enough for the command to be within range |
| Limits.FreqCommandWithinLimits | stanford_research_systems/sr830m.py:95-96 | the frequency guard is enough for the command to be within range |
| Limits.SlvlCommandWithinLimits | stanford_research_systems/sr830m.py:123-126 | the amplitude guard, together with the clamp, is enough for the command to be within range |
| Limits.AuxvFieldsWithin | stanford_research_systems/sr830m.py:234-236 | an admitted auxiliary command carries channel 1..4 and a voltage within ±10.500 |
| Limits.AuxvCommandWithinLimits | stanford_research_systems/sr830m.py:234-236 | the two auxiliary-output assertions are enough for the command to be within range |
| Limits.ActionsWithinLimits | stanford_research_systems/sr830m.py:245-252 | `AGAN`, `ARSV`, `APHS` and `*RST` carry no range-limited setting |
| Limits.AoffPrefixWithinLimits | stanford_research_systems/sr830m.py:254-255 | whatever follows `AOFF `, the command carries no range-limited setting |
| Limits.AoffWithinLimits | stanford_research_systems/sr830m.py:254-255 | the unchecked `AOFF` command carries no range-limited setting |
| Limits.HarmZeroOutsideLimits | stanford_research_systems/sr830m.py:114 | harmonic 0, which the guard refuses, would be out of range |
| Instrument.ChannelLog | stanford_research_systems/sr830m.py:216-228 | reading the first `n` channels adds exactly `n` exchanges |
| Instrument.ChannelLogAt | stanford_research_systems/sr830m.py:216-228 | exchange `i` of a four-channel reading is the query for channel `i + 1`, answered after everything before it: the channels go out one at a time, in increasing order |
| Instrument.SR830m.constructor | stanford_research_systems/sr830m.py:12-16 | a new connection has exchanged nothing and satisfies the invariant |
| Instrument.SR830m.Send | stanford_research_systems/sr830m.py:74 | a write appends exactly that command to the log |
| Instrument.SR830m.Ask | stanford_research_systems/sr830m.py:69 | a query appends the query and the instrument's reply, and returns that reply |
| Instrument.SR830m.SetInt | stanford_research_systems/sr830m.py:71-209 | every integer setter passes exactly on its range and then appends only `<mnemonic><code>`; otherwise it fails with its own message and leaves the log unchanged |
| Instrument.SR830m.SetPhaseShift | stanford_research_systems/sr830m.py:62-65 | passes exactly on -360..729.99 and appends the phase command; otherwise fails with the phase message and sends nothing |
| Instrument.SR830m.SetFreq | stanford_research_systems/sr830m.py:93-96 | passes exactly on 0.001..10200 and appends the frequency command; otherwise fails and sends nothing |
| Instrument.SR830m.SetSlvl | stanford_research_systems/sr830m.py:121-126 | passes exactly on 0..5 and appends the clamped amplitude command; otherwise fails and sends nothing |
| Instrument.SR830m.SetAuxv | stanford_research_systems/sr830m.py:230-236 | passes exactly for channel 1..4 and \|voltage\| <= 10.5, reporting the channel before the voltage, and then appends `AUXV<ch>,<v>`; otherwise sends nothing |
| Instrument.SR830m.GetInt | stanford_research_systems/sr830m.py:67-69 | an integer getter sends one `<mnemonic>?` query and returns `int()` of the reply, which is the code whenever the reply is the code's digits |
| Instrument.SR830m.Sens | stanford_research_systems/sr830m.py:166-168 | the `sens` getter sends `SENS?` and returns the reply text itself |
| Instrument.SR830m.Idn | stanford_research_systems/sr830m.py:289-291 | `idn` sends `*IDN?` and returns the reply |
| Instrument.SR830m.FourChannels | stanford_research_systems/sr830m.py:216-228 | the log grows by exactly the four-channel reading `ChannelLog`: the prefix with channel 1 to 4, in order; the result maps exactly the keys 1 to 4, each to its channel's reply |
| Instrument.SR830m.Oaux | stanford_research_systems/sr830m.py:216-221 | `OAUX?1` to `OAUX?4` go out in order, and the result is keyed exactly 1 to 4 |
| Instrument.SR830m.Auxv | stanford_research_systems/sr830m.py:223-228 | `AUXV?1` to `AUXV?4` go out in order, and the result is keyed exactly 1 to 4 |
| Instrument.SR830m.Snap | stanford_research_systems/sr830m.py:275-280 | succeeds exactly on lists of 2..6 elements in 1..11, sending the one query and returning the reply's fields in order; otherwise fails with the first failing assertion's message and sends nothing |
| Instrument.SR830m.Agan | stanford_research_systems/sr830m.py:245-246 | appends `AGAN` |
| Instrument.SR830m.Arsv | stanford_research_systems/sr830m.py:248-249 | appends `ARSV` |
| Instrument.SR830m.Aphs | stanford_research_systems/sr830m.py:251-252 | appends `APHS` |
| Instrument.SR830m.Aoff | stanford_research_systems/sr830m.py:254-255 | appends `AOFF <value>` for any integer, unchecked |
| Instrument.SR830m.Rst | stanford_research_systems/sr830m.py:293-297 | appends `*RST` |

Where the wrapper's comments and its code disagree, the model follows the code:
- The frequency bound is 10200 Hz, as asserted at `sr830m.py:95`. The comment at line 86
  quotes the manual's 102000.
- The `sens` getter returns the reply text without `int()` (line 168).
- `aoff` sends any integer without a check (lines 254-255).
- The `snap` query puts a space after every comma, because `str(list)` does. The call
  `snap([1, 2, 3])` therefore sends `SNAP?1, 2, 3,`, not `SNAP?1,2,3,`.

## Left out

- The VISA transport (`visa.ResourceManager`, `open_resource`, the termination characters) is foreign I/O. It is replaced by the exchange log and the reply function `instrument`.
- Instrument.SR830m.constructor: the resource name is recorded but never opened. The wrapper's default resource name is not modelled.
- Float parsing of replies (`float(...)`) is not modelled. The getters `phaseShift`, `freq`, `slvl` and `outpX`/`outpY`/`outpR`/`outpT` are therefore not modelled either; each is one query whose reply goes through `float()`.
- Instrument.SR830m.Snap: returns the reply's fields as text rather than as `float()` of each field, since float parsing is not modelled. A field `float()` rejects would raise in the wrapper.
- Instrument.SR830m.GetInt: `int()` is modelled on ASCII whitespace, an optional sign and ASCII digits only. Python also accepts underscores between digits and Unicode digits and spaces.
- The real-valued setters take exact reals. IEEE doubles, NaN, infinities and `-0.0` are not modelled. `'{:.Nf}'` is modelled as the exact value rounded half to even.
- Python values that are not ints or reals (for example `bool`, or a list with floats passed to `snap`) are outside the model's types.
- Running Python with `-O`, which removes the assertions, is not modelled.
- Instrument-side behaviour the wrapper does not enforce is not modelled: the ±180° phase wrap and the harmonic × frequency ≤ 102 kHz limit.
- The `_integrationTimes` and `_sensitivities` tables and the three `_v...` limits are set in `__init__` but never read, so they are left out. The commented-out initialisation sequence, the unused local `q` in the `ilin` setter and the `__main__` demo are left out too.
- Instrument.SR830m.SetAuxv: takes the channel and the voltage as two parameters rather than as one tuple. A tuple with fewer than two elements would raise `IndexError` in the wrapper.
