# Waste-bin fill monitor

A model of the sensor-to-state pipeline of a small waste-bin monitor. A
subscriber receives distance readings, in millimetres, from a message
broker. It turns each reading into a fill percentage and stores both values
in one process-wide record. An HTTP status endpoint returns that record, and
an HTTP alert endpoint compares the fill with an 80 % threshold. When the
threshold is reached, the alert endpoint speaks a fixed message and then
logs it.

Modules:

- `Wrappers` (`wrappers.dfy`): `Option`. It stands for the outcome of parsing a payload as a number.
- `FillLevel` (`fill_level.dfy`):
  - the constants `BinHeightMm = 600` and `ThresholdPercentage = 80`;
  - the conversion `Fill`, which clamps at 0 from below and has no upper clamp;
  - the conversion's properties.
- `BinState` (`bin_state.dfy`):
  - the record as a value, `State`, and its initial value `{0, 0}`;
  - `Step`, the effect of one message, and `Run`, the effect of a stream of messages;
  - lemmas saying that the record depends only on the last valid reading.
- `Alerts` (`alerts.dfy`):
  - the reply of the alert endpoint, `Evaluate`;
  - its effects, `EffectsOf`: speak, then log;
  - `Repeated`, the effects of several checks in a row, with the lemmas saying there is no suppression.
- `Monitor` (`monitor.dfy`): the class `Bin`.
  - Its fields `distanceMm` and `fillPercentage` are the record, updated in place.
  - A ghost field `effects` records every announcement and log line, in order.
  - The methods `OnMessage`, `GetStatus` and `CheckAlert` model the callback and the two handlers.
  - Each method's contract ties the new state to the functions above.

Floating-point numbers are modelled as `real`. A payload is modelled as the
result of parsing it, `Option<real>`: `None` is the case where `float()`
raises `ValueError`. Speech and logging are modelled as events appended to
the ghost `effects` trace.

`BinState.Run` applies `Step` to each message of a stream in arrival order.
`Alerts.Repeated` concatenates `EffectsOf(Evaluate(fill))` over `n` alert
requests that all see the same fill. Neither function has a contract of its
own: the lemmas about them state their properties.

The record's invariant is weaker than "0 to 100". The code has no upper
clamp, so a negative distance gives a fill above 100. The model follows the
code: the invariant kept is `fillPercentage >= 0` (`BinState.Valid`), and
`FillLevel.NoUpperClamp` states the asymmetry. The fill is derived from the
distance only once a valid message has arrived. The initial `{0, 0}` is not
the reading for distance 0, which is `{0, 100}` (`BinState.InitialNotDerived`).
An alert is raised on every qualifying call, not once per reading.

## Model

| member | source | states |
|---|---|---|
| `FillLevel.Fill` | Code/main.py:49-51 | the fill is the larger of 0 and `100 - d/600*100`: never negative, never below the formula, and equal to one of the two |
| `FillLevel.FillZeroExactlyFromBinHeight` | Code/main.py:49-51 | the fill is 0 exactly when the distance is at least the bin height (the lower clamp engages) |
| `FillLevel.FillAtMostHundred` | Code/main.py:49-51 | for every non-negative distance the fill is at most 100 |
| `FillLevel.NoUpperClamp` | Code/main.py:49-51 | the fill exceeds 100 exactly when the distance is negative |
| `FillLevel.FillBoundaryValues` | Code/main.py:49-51 | distance 0 gives 100, 600 gives 0, 1200 gives 0 (raw formula -100), -100 gives 100 + 100/6 |
| `FillLevel.FillAntitone` | Code/main.py:49-51 | a nearer surface never gives a lower fill |
| `FillLevel.FillInvertibleWithinBin` | Code/main.py:49-51 | for distances from 0 to the bin height, the distance is recovered from the fill |
| `FillLevel.ThresholdAsDistance` | Code/main.py:11-12 | the fill reaches 80 exactly when the distance is at most 120 mm |
| `BinState.Reading` | Code/main.py:48-51 | a valid reading stores its distance and a non-negative fill derived from it |
| `BinState.Step` | Code/main.py:45-54 | an unparseable payload leaves the record unchanged; a parsed distance overwrites both fields, with the fill derived from it; the fill stays non-negative |
| `BinState.LastReading` | Code/main.py:47-47 | the result is a payload of the stream that parses and after which no payload parses, and there is none exactly when no payload parses |
| `BinState.RunIsLastReading` | Code/main.py:40-54 | after a stream of messages the record is the last valid reading with its fill, or the starting record if none parsed |
| `BinState.DerivedAfterValidReading` | Code/main.py:47-51 | once any payload has parsed, the fill is the one derived from the stored distance, whatever invalid payloads follow |
| `BinState.InvalidStreamChangesNothing` | Code/main.py:53-54 | a stream of unparseable payloads leaves the record exactly as it was |
| `BinState.RunKeepsValid` | Code/main.py:40-54 | from any state with a non-negative fill, the fill stays non-negative through any stream of messages |
| `BinState.InitialNotDerived` | Code/main.py:15-18 | the initial record `{0, 0}` is valid but is not the reading for distance 0, which is `{0, 100}` |
| `Alerts.Evaluate` | Code/main.py:86-98 | the reply alerts exactly when the fill is at least 80; the alert message goes with an alert and the below-threshold message with no alert |
| `Alerts.EffectsOf` | Code/main.py:89-94 | on an alert the returned message is spoken first and logged second; with no alert nothing happens |
| `Alerts.RepeatedChecksAlertEveryTime` | Code/main.py:86-96 | `n` checks at or above the threshold produce `n` speak-then-log pairs of the alert message: no suppression |
| `Alerts.RepeatedChecksBelowThresholdSilent` | Code/main.py:86-98 | any number of checks below the threshold produce no effect |
| `Alerts.ThresholdIsInclusive` | Code/main.py:86-87 | a fill of exactly 80 raises the alert; 79.9 does not |
| `Alerts.AlertForDistance` | Code/main.py:49-51 | after a valid reading, the alert is raised exactly when the distance is at most 120 mm |
| `Monitor.Bin.constructor` | Code/main.py:15-18 | the process starts with distance and fill 0 and no effects |
| `Monitor.Bin.OnMessage` | Code/main.py:40-54 | the record becomes the `Step` of the old record and the payload: overwritten on a parse, untouched otherwise; the invariant is kept |
| `Monitor.Bin.GetStatus` | Code/main.py:78-78 | returns exactly the current distance and fill, changing nothing |
| `Monitor.Bin.CheckAlert` | Code/main.py:86-98 | returns `Evaluate` of the current fill, appends exactly `EffectsOf` that reply to the trace, writes only the trace, and keeps the invariant |
| `Monitor.CheckAlertTwice` | Code/main.py:86-96 | two checks in a row on a full bin both alert and append speak, log, speak, log; the record is unchanged |
| `Monitor.StatusBeforeAnyReading` | Code/main.py:15-18 | a fresh process reports `{0, 0}`, and a malformed payload leaves that report unchanged |

## Left out

- Broker connection, subscription and the `on_connect` result-code handling are not modelled. They are network plumbing around the MQTT library.
- HTTP routing, decorators and JSON serialisation are not modelled. These belong to the web framework.
- The speech engine and the logging configuration are not modelled. An announcement and a log line are each one abstract event in the trace; the log's timestamp is not recorded.
- Concurrency between the subscriber thread and the request handlers is not modelled, and neither is atomicity of a snapshot. The code has no lock. `GetStatus` returns a copy, while the code returns the shared dictionary itself.
- The model uses `real`, so IEEE-754 rounding, infinities and NaN are not modelled. Python's `float()` text grammar is not modelled either: a payload is given as its parse result.
- The diagnostic `print` calls at lines 52 and 54 are not modelled. Line 52 is output only. Line 54 decodes the payload again, which can raise (next item).
- `Monitor.Bin.OnMessage`: `None` also covers a payload that is not valid UTF-8. In the code, `decode()` at line 47 raises `UnicodeDecodeError`, a subclass of `ValueError`, so line 53 catches it. The handler's `print` at line 54 then decodes again and raises the same error out of `on_message`. The record is still left unchanged. The model treats this case as a silent discard and does not model the callback raising.
- `Monitor.Bin.OnMessage` writes the distance and then the fill, as the code does. The model says nothing about a reader that runs between the two writes.
