# galcon_bt in Dafny

A verified model of the core of `galcon_bt`, the Home Assistant integration for the
Galcon 9001BT Bluetooth irrigation valve. It covers five parts of the integration:

- The device driver (`galcon_device.py`). This is the status decoder, the control payloads, the
  verified-command protocol (wake, pre-read, idempotent short-circuit, write and read-back rounds)
  and the retry executor with its backoff.
- The coordinator (`coordinator.py`). This is its polling and failure accounting, the
  cached-status fallback, the synthetic statuses, the irrigation record, the operation phases and
  their listeners.
- The sensors (`sensor.py`). These are the phase sensor and its icon table, the time-remaining
  countdown and its clock formatting, and the battery cache.
- The valve entity (`valve.py`). This is the duration split, the valve state, availability and
  the extra attributes.
- The configuration flow (`config_flow.py`). This is address normalisation and validation, the
  BLE scan filter, the device picker and the Bluetooth-discovery path.

The radio is an oracle. A connection attempt is answered by the next entry of a `links` script.
A GATT write or read is answered by the next entry of a `gatt` script. Answers are consumed in
order across attempts, and past the end of either script every step fails with a retried
(transient) error, as a timeout would. Every driver operation returns the trace of what it did:
connection attempts, disconnects, wake writes, status reads, control writes, in-operation sleeps
and backoffs. Connection attempts, disconnects, GATT steps and control writes are counted on
that trace, and the backoff delays are collected in order. The wake-and-read prelude and each
verify round are stated as their exact trace, sleeps included. Time is whole seconds, passed in as
`now`. Delays are whole milliseconds.

Modules, one per file:

- `Options` (`options.dfy`): Python's `X | None`.
- `Consts` (`consts.dfy`): the constants of `const.py`, with their exact values.
- `Text` (`text.dfy`): the Python string builtins the core uses: decimal formatting, `bytes.hex`,
  `str.upper`, `str.strip` and `in` on strings.
- `Status` (`status.dfy`): `GalconStatus`, `_parse_status` and the open payload.
- `Device` (`device.dfy`): `_execute`, `_verified_command` and `GalconDevice`.
- `Coordinator` (`coordinator.dfy`): `GalconCoordinator`. Each method is specified by a function
  on the whole coordinator state, and the coordinator's promises are lemmas about those functions.
- `Sensor` (`sensor.dfy`): the three sensors.
- `Valve` (`valve.py` → `valve.dfy`): `GalconValve`.
- `ConfigFlow` (`config_flow.dfy`): `GalconBTConfigFlow`.

## Model

| member | source | states |
|---|---|---|
| Status.BitAndLowBits | custom_components/galcon_bt/galcon_device.py:311 | Python's `&` with a mask of k one-bits keeps the k low bits: the floor remainder modulo 2^k, negative operands included |
| Status.LowByte | custom_components/galcon_bt/galcon_device.py:240-242 | `x & 0xFF` is `x` modulo 256, a byte |
| Status.LowBit | custom_components/galcon_bt/galcon_device.py:311-312 | `bool(b & 0x01)` holds exactly when `b` is odd |
| Status.ParseStatus | custom_components/galcon_bt/galcon_device.py:287-326 | decoding is total and keeps the input as `raw`; fewer than five bytes give a closed, zeroed status with no battery; otherwise the valve is bit 0 of byte 0, the manual flag bit 0 of byte 1, the h/m/s are bytes 2-4 unchanged, and the battery is byte 5 when there are six or more bytes |
| Status.DecodeWireStatus | custom_components/galcon_bt/galcon_device.py:311-325 | decoding a buffer laid out as the controller sends it gives back every field laid out in it, and the time remaining is h*3600 + m*60 + s |
| Status.ParsedTimeRemaining | custom_components/galcon_bt/galcon_device.py:45-52 | a decoded status's `time_remaining_seconds` lies between 0 and 255*3600 + 255*60 + 255, and is 0 exactly when all three counters are 0 |
| Status.OpenPayload | custom_components/galcon_bt/galcon_device.py:237-242 | the open payload is 7 bytes; an all-zero duration gives exactly CMD_OPEN_VALVE, and any other duration gives `00 03 00 h&FF m&FF s&FF 00` |
| Status.PayloadsDistinct | custom_components/galcon_bt/galcon_device.py:237-242 | no open payload equals CMD_CLOSE_VALVE, and an open payload equals CMD_OPEN_VALVE exactly when the duration is all zero |
| Text.Decimal | custom_components/galcon_bt/sensor.py:178-179 | `f"{n:d}"` is a non-empty run of digits, one digit below 10 and two below 100 |
| Text.DecimalRoundTrip | custom_components/galcon_bt/sensor.py:178-179 | reading `f"{n:d}"` back as a decimal gives `n` |
| Text.Pad2 | custom_components/galcon_bt/sensor.py:178-179 | `f"{n:02d}"` is a run of digits, exactly two for `n` below 100 |
| Text.Pad2RoundTrip | custom_components/galcon_bt/sensor.py:178-179 | reading `f"{n:02d}"` back gives `n` |
| Text.Hex | custom_components/galcon_bt/valve.py:91 | `bytes.hex()` is two lower-case hex characters per byte |
| Text.HexRoundTrip | custom_components/galcon_bt/valve.py:91 | decoding the hex string of any byte string gives back that byte string |
| Text.Upper | custom_components/galcon_bt/config_flow.py:118 | `str.upper()` keeps the length and maps each character on its own |
| Text.UpperIdempotent | custom_components/galcon_bt/config_flow.py:50 | upper-casing twice is upper-casing once |
| Text.Strip | custom_components/galcon_bt/config_flow.py:118 | `str.strip()` is a slice of the input with only whitespace before and after it, and it neither starts nor ends with whitespace |
| Text.StripPadded | custom_components/galcon_bt/config_flow.py:118 | whitespace around a string that neither starts nor ends with whitespace is exactly what `strip()` removes |
| Text.StripTrimmed | custom_components/galcon_bt/config_flow.py:118 | a string that neither starts nor ends with whitespace is its own strip |
| Text.ContainsIff | custom_components/galcon_bt/config_flow.py:50 | `p in s` holds exactly when `p` occurs in `s` at some index |
| Device.WakeAndRead | custom_components/galcon_bt/galcon_device.py:118-127 | `wake_up` then `_read_status_raw`: two GATT steps and no control write. A failing wake stops before the read. When both succeed, the result is the decoded bytes actually read. The answer and the next reply are PreludeAnswer's. |
| Device.VerifyRound | custom_components/galcon_bt/galcon_device.py:184-219 | one round makes exactly one control write, of the command's payload. A failed write, with either fault, aborts and its trace is that write alone. After a successful write the trace is the write, the 1.5 s post-command sleep, then the read-back's trace. A confirmed status has the expected valve state and was read from the radio. The answer and the next reply are RoundAnswer's. |
| Device.ReWakeAndReadBack | custom_components/galcon_bt/galcon_device.py:187-219 | the re-wake and the read-back make no control write. A transient failure of either is swallowed, so the step never raises a retried error. The trace always starts with the wake write of WAKE_PAYLOAD. A successful wake is followed by a 0.5 s sleep, then the read. A transiently failed wake goes straight to the read. A fatal wake ends the trace. The trace ends with the 1.0 s sleep exactly when the round goes on. The answer and the next reply are ReadBackAnswer's: a fatal fault aborts, a read showing the expected state confirms, anything else goes on. |
| Device.RoundConfirmIff | custom_components/galcon_bt/galcon_device.py:184-219 | a round confirms exactly when the control write succeeds, the re-wake does not fail fatally and the read-back succeeds showing the expected state; it then confirms with that status. It aborts with a retried fault exactly when the control write fails with one. A round that goes on uses three replies. |
| Device.FirstConfirmingRound | custom_components/galcon_bt/galcon_device.py:176-212 | when rounds 0 to j-1 go on and round j confirms, within the budget, that confirmation is the loop's answer, after exactly j+1 control writes |
| Device.UnconfirmedIff | custom_components/galcon_bt/galcon_device.py:176-227 | the loop answers `False` (Unconfirmed) exactly when every one of its rounds goes on, and then after exactly that many control writes |
| Device.VerifyRounds | custom_components/galcon_bt/galcon_device.py:176-227 | the verify loop makes between 1 and COMMAND_VERIFY_ATTEMPTS control writes, all of the payload. A confirmed status has the expected state and was read from the radio. Its answer, next reply and write count are those of the Rounds function. |
| Device.CommandConfirmsAtRound | custom_components/galcon_bt/galcon_device.py:157-212 | after a pre-read in the other state, the command is confirmed by the first read-back showing the expected state, with that status, after as many control writes as rounds taken |
| Device.OpenConfirmedInOneRound | custom_components/galcon_bt/galcon_device.py:157-212 | a closed pre-read, a successful write of the open command and an open read-back confirm the open with the status read back, after one write |
| Device.VerifiedCommand | custom_components/galcon_bt/galcon_device.py:139-227 | at most COMMAND_VERIFY_ATTEMPTS control writes, all of the payload. A pre-read that already shows the expected state is returned with zero writes. Writes happen exactly when the pre-read succeeds and shows the other state. A confirmed status matches the expectation. `False` (Unconfirmed) comes only after exactly COMMAND_VERIFY_ATTEMPTS writes. The answer, next reply and write count are CommandAnswer's. |
| Device.RunOp | custom_components/galcon_bt/galcon_device.py:133-135 | the callback `_execute` runs. A read makes no writes. A command makes at most COMMAND_VERIFY_ATTEMPTS writes of its payload and short-circuits when the pre-read already matches. The answer, next reply and write count are OpAnswer's. |
| Device.LiveSession | custom_components/galcon_bt/galcon_device.py:94-99 | on a live client the callback runs and the `finally` disconnects exactly once. The callback's answer is the session's answer, as OpAnswer gives it, including a fatal fault from a GATT step. |
| Device.Connection | custom_components/galcon_bt/galcon_device.py:81-99 | one attempt. A failed connect raises its fault, with no client, no GATT step and no disconnect. A client that is not connected raises a retried error after being disconnected, and nothing else happens. Every client obtained is disconnected. The answer, next reply and write count are ConnAnswer's. |
| Device.AttemptsFrom | custom_components/galcon_bt/galcon_device.py:80-111 | the attempts from a given one on number at least one and never run past MAX_RETRIES |
| Device.AttemptsShape | custom_components/galcon_bt/galcon_device.py:80-111 | every attempt but the last ended in a retried failure, and the last one did too only when it was attempt MAX_RETRIES |
| Device.ExecuteOutcome | custom_components/galcon_bt/galcon_device.py:80-116 | `_execute` returns a value exactly when the last attempt's callback returned it. It raises an error that is not retried (Unexpected) exactly when the last attempt failed with one. It raises ConnectionError exactly when all MAX_RETRIES attempts failed with retried errors. |
| Device.AttemptsFollowLinks | custom_components/galcon_bt/galcon_device.py:81-100 | an attempt whose connect fails answers with that fault, and one whose client is not connected answers with a retried error |
| Device.LiveReadReturnsStatus | custom_components/galcon_bt/galcon_device.py:129-137 | a live first client with a successful wake and read returns the status read, on the first attempt |
| Device.LiveMatchDecides | custom_components/galcon_bt/galcon_device.py:167-174 | a live first client and a pre-read already showing the expected state confirm the command on the first attempt with no control write |
| Device.LiveCommandConfirms | custom_components/galcon_bt/galcon_device.py:176-212 | a live first client, a pre-read in the other state and rounds that go on until round j confirms: `_execute` returns that confirmation on the first attempt |
| Device.FatalLinkPropagates | custom_components/galcon_bt/galcon_device.py:80-100 | connects that fail with retried errors and then one that fails with an error that is not retried: that error propagates at once, as Unexpected, after exactly that many attempts |
| Device.LaterAttemptDecides | custom_components/galcon_bt/galcon_device.py:80-116 | after connects that failed with retried errors, the first attempt that does not fail with one ends the loop. Its callback's value is returned, and its fatal fault, from the link or from a GATT step, propagates as Unexpected. |
| Device.Decided | custom_components/galcon_bt/galcon_device.py:80-116 | an attempt reached after retried failures ends the attempts when it does not fail with a retried error or is the last one; its answer decides the outcome |
| Device.Advance | custom_components/galcon_bt/galcon_device.py:100-111 | an attempt either decides the outcome or, after a retried failure below MAX_RETRIES, hands the next attempt the reply position it stopped at |
| Device.Extend | custom_components/galcon_bt/galcon_device.py:80-111 | an attempt added to retried ones keeps the per-attempt bounds, and the backoff after it is `2.0 * attempt` seconds |
| Device.RetryStep | custom_components/galcon_bt/galcon_device.py:80-111 | one loop iteration. A retried failure below MAX_RETRIES is followed by its backoff, and the next attempt starts where it stopped. Anything else completes the trace, and its answer decides the outcome of the attempts so far. A failed connect raises its fault with no client or GATT step. |
| Device.Execute | custom_components/galcon_bt/galcon_device.py:72-116 | between 1 and MAX_RETRIES attempts, with backoffs 2 s, 4 s, … between them, a disconnect for every client, and at most one verified command's writes per attempt. The result is Result of Attempts and the number of connects is the number of attempts: a live attempt's value is returned, a fatal fault at any attempt or GATT step propagates as Unexpected, and ConnectionError names the address and comes only after MAX_RETRIES retried failures. When every link fails there is no client and no GATT step. A first connect failing fatally leaves only that connect. An already-matching valve on the first attempt is confirmed with zero writes. |
| Device.GalconDevice.constructor | custom_components/galcon_bt/galcon_device.py:58-66 | a new device has its address and no BLE hint |
| Device.GalconDevice.SetBleDevice | custom_components/galcon_bt/galcon_device.py:68-70 | the hint is replaced |
| Device.GalconDevice.GetStatus | custom_components/galcon_bt/galcon_device.py:129-137 | a status read never writes a command. A returned status was read from the radio. All links failing gives ConnectionError. The outcome is `_execute`'s Result over the attempts, so a live first client with a good wake and read returns the status read. |
| Device.GalconDevice.OpenValve | custom_components/galcon_bt/galcon_device.py:229-263 | at most MAX_RETRIES * COMMAND_VERIFY_ATTEMPTS writes, all of OpenPayload(h, m, s). A confirmed status shows the valve open. A valve already open is confirmed with zero writes. The outcome is `_execute`'s Result over the attempts; with a live first client and a closed pre-read, the first confirming round's status is returned. |
| Device.GalconDevice.CloseValve | custom_components/galcon_bt/galcon_device.py:265-285 | at most MAX_RETRIES * COMMAND_VERIFY_ATTEMPTS writes, all of CMD_CLOSE_VALVE. A confirmed status shows the valve closed. A valve already closed is confirmed with zero writes. The outcome is `_execute`'s Result over the attempts; with a live first client and an open pre-read, the first confirming round's status is returned. |
| Coordinator.LabelRoundTrip | custom_components/galcon_bt/coordinator.py:19-29 | each phase's display string names that phase again |
| Coordinator.LabelsDistinct | custom_components/galcon_bt/coordinator.py:19-29 | two phases have the same display string exactly when they are the same phase |
| Coordinator.Announce | custom_components/galcon_bt/coordinator.py:71-72 | a phase change calls every registered listener once, in registration order |
| Coordinator.BaseInterval | custom_components/galcon_bt/coordinator.py:44 | `scan_interval or DEFAULT_SCAN_INTERVAL`: a missing or zero interval gives 300 s, any other is kept |
| Coordinator.SetPollingEffects | custom_components/galcon_bt/coordinator.py:79-89 | enabling resets the failure count, makes the device reachable and restores the base interval; disabling keeps the count, sets a 24-hour interval and announces Idle |
| Coordinator.DisabledPoll | custom_components/galcon_bt/coordinator.py:93-105 | with polling off no device call is made; the cache is answered unchanged, or a closed empty status is created, cached and answered; a second such poll changes nothing |
| Coordinator.PollAccounting | custom_components/galcon_bt/coordinator.py:107-138 | a poll announces Scanning then Idle; success resets the failure count, stamps the poll time and caches the status; any failure adds one failure, keeps the cache and answers with it, or fails when there is none |
| Coordinator.FailuresAccumulate | custom_components/galcon_bt/coordinator.py:124-125 | n failed polls in a row add exactly n failures and nothing else in the poll bookkeeping moves; the device stays reachable while the count is below MAX_CONSECUTIVE_FAILURES |
| Coordinator.UnreachableAfterFiveFailures | custom_components/galcon_bt/coordinator.py:74-77 | from a fresh count the fifth failed poll in a row is the first that makes the device unreachable, and one success makes it reachable again |
| Coordinator.RecordEndIdempotent | custom_components/galcon_bt/coordinator.py:145-156 | finalising copies the session in flight into the last-irrigation record and clears it; a second finalisation changes nothing |
| Coordinator.OpenEffects | custom_components/galcon_bt/coordinator.py:158-187 | phases Connecting, Opening, then Confirmed or Error; an answered open caches and publishes the real status or an assumed-open one carrying the previous raw bytes and battery, and starts a session of h*60 + m (+1 for seconds) minutes now; a failed open changes nothing but the phase |
| Coordinator.CloseEffects | custom_components/galcon_bt/coordinator.py:189-212 | an answered close finalises the record and caches and publishes the real status or an assumed-closed one carrying raw bytes and battery; a failed close changes nothing but the phase |
| Coordinator.IrrigationEndedEffects | custom_components/galcon_bt/coordinator.py:214-235 | countdown expiry finalises the record, caches and publishes a closed status with no time left that keeps raw bytes and battery, and disables polling with phase Idle |
| Coordinator.OpenThenExpire | custom_components/galcon_bt/coordinator.py:140-156 | an open followed by countdown expiry records the open's start time and recorded length as the last irrigation |
| Coordinator.GalconCoordinator.constructor | custom_components/galcon_bt/coordinator.py:35-62 | no failures, no cache, polling off, 20-minute duration, phase Idle, no listeners, the base interval |
| Coordinator.GalconCoordinator.RegisterStateListener | custom_components/galcon_bt/coordinator.py:64-66 | the listener is appended and nothing else changes |
| Coordinator.GalconCoordinator.SetOperationState | custom_components/galcon_bt/coordinator.py:68-72 | the loop sets the phase and makes exactly the calls of Announce |
| Coordinator.GalconCoordinator.IsReachable | custom_components/galcon_bt/coordinator.py:74-77 | `reachable` is failures < MAX_CONSECUTIVE_FAILURES |
| Coordinator.GalconCoordinator.SetPolling | custom_components/galcon_bt/coordinator.py:79-89 | the new state is AfterSetPolling of the old one (see SetPollingEffects) |
| Coordinator.GalconCoordinator.AsyncUpdateData | custom_components/galcon_bt/coordinator.py:91-138 | the device is called exactly when polling is on, a polled status was read from the radio, and the answer and new state are PollAnswer and AfterPoll (see PollAccounting, DisabledPoll) |
| Coordinator.GalconCoordinator.RecordIrrigationStart | custom_components/galcon_bt/coordinator.py:140-143 | the session in flight starts now with the given length |
| Coordinator.GalconCoordinator.RecordIrrigationEnd | custom_components/galcon_bt/coordinator.py:145-156 | the new state is AfterRecordEnd of the old one (see RecordEndIdempotent) |
| Coordinator.GalconCoordinator.AsyncOpenValve | custom_components/galcon_bt/coordinator.py:158-187 | a confirmed status shows the valve open and was read from the radio; the new state is AfterOpen (see OpenEffects) |
| Coordinator.GalconCoordinator.AsyncCloseValve | custom_components/galcon_bt/coordinator.py:189-212 | a confirmed status shows the valve closed; the new state is AfterClose (see CloseEffects) |
| Coordinator.GalconCoordinator.AsyncIrrigationEnded | custom_components/galcon_bt/coordinator.py:214-235 | the new state is AfterIrrigationEnded (see IrrigationEndedEffects) |
| Sensor.IconsComplete | custom_components/galcon_bt/sensor.py:26-35 | every phase has an icon in STATE_ICONS, so the fallback is never shown, and distinct phases get distinct icons |
| Sensor.OperationSensor.constructor | custom_components/galcon_bt/sensor.py:64-71 | the sensor is bound to its coordinator |
| Sensor.OperationSensor.NativeValue | custom_components/galcon_bt/sensor.py:85-88 | the sensor's value names the coordinator's current phase |
| Sensor.OperationSensor.CurrentIcon | custom_components/galcon_bt/sensor.py:90-95 | the icon is the table's icon for the current phase, never the fallback |
| Sensor.OperationSensor.AsyncAddedToHass | custom_components/galcon_bt/sensor.py:113-122 | the sensor is registered as one more listener |
| Sensor.ClockParts | custom_components/galcon_bt/sensor.py:175-176 | the two divmods split t into h*3600 + m*60 + s with m and s below 60 |
| Sensor.FormatZero | custom_components/galcon_bt/sensor.py:173-174 | nothing left shows "00:00" |
| Sensor.FormatWithHours | custom_components/galcon_bt/sensor.py:177-178 | an hour or more shows "h:MM:SS" with two-digit minutes and seconds, which reads back as t |
| Sensor.FormatWithoutHours | custom_components/galcon_bt/sensor.py:179 | under an hour shows "m:SS" with two-digit seconds, which reads back as t |
| Sensor.FormatTimeRoundTrip | custom_components/galcon_bt/sensor.py:170-179 | reading the clock back gives the seconds formatted (0 when not positive); the hours field is there exactly when t ≥ 3600; the last field is two digits, and so is the middle one when there are hours |
| Sensor.FormatTimeZeroOnlyAtZero | custom_components/galcon_bt/sensor.py:173-179 | the clock shows "00:00" exactly when no time is left |
| Sensor.RemainingSeconds | custom_components/galcon_bt/sensor.py:163-168 | 0 without an end time; with one, 0 exactly once the end time is reached, and otherwise the seconds that remain until it |
| Sensor.CountdownMonotone | custom_components/galcon_bt/sensor.py:163-168 | the countdown never goes up as time passes, starts at the device's time and reaches 0 at the end time |
| Sensor.TimeRemainingSensor.constructor | custom_components/galcon_bt/sensor.py:157-159 | no end time and no timer |
| Sensor.TimeRemainingSensor.NativeValue | custom_components/galcon_bt/sensor.py:183-186 | the value shows "00:00" exactly when no time is left, reads back as the seconds left, and is "00:00" without an end time |
| Sensor.TimeRemainingSensor.CurrentIcon | custom_components/galcon_bt/sensor.py:188-193 | the sand-timer icon is shown exactly when the value is not "00:00" |
| Sensor.TimeRemainingSensor.EnsureTimer | custom_components/galcon_bt/sensor.py:226-231 | a timer runs afterwards, and a second one is never started while one runs |
| Sensor.TimeRemainingSensor.CancelTimer | custom_components/galcon_bt/sensor.py:233-237 | no timer runs afterwards; the running one, if any, is cancelled exactly once |
| Sensor.TimeRemainingSensor.HandleCoordinatorUpdate | custom_components/galcon_bt/sensor.py:200-214 | an open valve with time left restarts the countdown at the device's time and keeps one timer; a closed valve clears it to "00:00"; anything else changes nothing |
| Sensor.TimeRemainingSensor.Tick | custom_components/galcon_bt/sensor.py:216-224 | with nothing left the countdown stops and the coordinator is told the irrigation ended; otherwise nothing changes |
| Sensor.BatteryIsLatest | custom_components/galcon_bt/sensor.py:278-284 | after any run of updates the cache holds the latest reported level, or its old value when none reported one; a cached level is never cleared |
| Sensor.BatteryAvailableAfterUpdates | custom_components/galcon_bt/sensor.py:278-294 | a battery sensor starting with nothing cached becomes available exactly once some update has reported a level, and then shows the latest one |
| Sensor.BatterySensor.constructor | custom_components/galcon_bt/sensor.py:276 | nothing cached |
| Sensor.BatterySensor.HandleCoordinatorUpdate | custom_components/galcon_bt/sensor.py:278-284 | a reported level replaces the cache and a missing one leaves it |
| Sensor.BatterySensor.Available | custom_components/galcon_bt/sensor.py:291-294 | available exactly when a level has been seen |
| Valve.SplitDurationExact | custom_components/galcon_bt/valve.py:101-103 | the divmod split covers exactly `duration` minutes, with m < 60, s = 0 and h = duration // 60, and the coordinator records it as `duration` minutes again |
| Valve.OpenRecordsConfiguredDuration | custom_components/galcon_bt/valve.py:101-115 | opening through the valve records a session of exactly the configured duration starting now |
| Valve.IsClosed | custom_components/galcon_bt/valve.py:67-73 | unknown exactly when there is no data, otherwise the opposite of the valve bit |
| Valve.AvailabilityFollowsPolling | custom_components/galcon_bt/valve.py:94-97 | availability is `set_polling`'s flag: enabling or disabling sets it, polls, opens and closes leave it unchanged, and countdown expiry turns it off |
| Valve.ClosedAfterIrrigationEnded | custom_components/galcon_bt/valve.py:67-97 | after countdown expiry the valve shows closed and is unavailable |
| Valve.ConfirmedCommandsShow | custom_components/galcon_bt/valve.py:67-73 | after an answered open the valve shows open and after an answered close it shows closed, confirmed or not |
| Valve.StatusAttributesOf | custom_components/galcon_bt/valve.py:85-91 | the status attributes carry the manual flag and counters, a total equal to `time_remaining_seconds`, and a raw hex string of two characters per byte that decodes back to `raw` |
| Valve.Attributes | custom_components/galcon_bt/valve.py:76-92 | address and failure count always; the status attributes exactly when there is data |
| Valve.RawStatusIsLowerHex | custom_components/galcon_bt/valve.py:91 | the raw status attribute is lower-case hex |
| Valve.Escaped | custom_components/galcon_bt/valve.py:112-125 | a connection error is swallowed; only an error of another kind escapes |
| Valve.GalconValve.constructor | custom_components/galcon_bt/valve.py:46-57 | the valve is bound to its coordinator and address |
| Valve.GalconValve.AsyncOpenValve | custom_components/galcon_bt/valve.py:99-117 | the coordinator opens for the configured duration split by SplitDuration; only a non-connection error escapes |
| Valve.GalconValve.AsyncCloseValve | custom_components/galcon_bt/valve.py:119-125 | the coordinator closes; only a non-connection error escapes |
| ConfigFlow.NormalizeIdempotent | custom_components/galcon_bt/config_flow.py:118 | normalising an address twice is normalising it once |
| ConfigFlow.NormalizedShape | custom_components/galcon_bt/config_flow.py:118 | a normalised address has no surrounding whitespace and no lower-case letter |
| ConfigFlow.NormalizedPatternIsShape | custom_components/galcon_bt/config_flow.py:121 | on a normalised address the pattern's `$`, which also matches before a final newline, accepts exactly the 17-character shape |
| ConfigFlow.GroupsPositional | custom_components/galcon_bt/config_flow.py:121 | n two-hex-digit groups joined by ':' are exactly the 3n-1 characters with ':' at every third position and hex digits elsewhere |
| ConfigFlow.AcceptedIffSixGroups | custom_components/galcon_bt/config_flow.py:118-122 | a manual address is accepted exactly when, normalised, it is six two-hex-digit groups separated by ':' |
| ConfigFlow.AcceptedIsCanonical | custom_components/galcon_bt/config_flow.py:118-122 | an accepted address has upper-case hex digits and is already normalised |
| ConfigFlow.ManualStep | custom_components/galcon_bt/config_flow.py:111-148 | no input shows the form; an address failing the pattern shows it again with `invalid_address` on the address field; a configured one aborts; otherwise the entry stores the normalised address, the given name or DEFAULT_NAME as title and name, and the given duration or 20 |
| ConfigFlow.ManualEntriesCanonical | custom_components/galcon_bt/config_flow.py:124-134 | every manual entry stores a six-group address that normalises to itself |
| ConfigFlow.ManualAcceptsPaddedAddress | custom_components/galcon_bt/config_flow.py:117-134 | an address of the MAC shape in any case, padded with whitespace, and not yet configured creates an entry storing its upper-case form, with the name and duration given or their defaults |
| ConfigFlow.ManualAcceptsLowerCaseExample | custom_components/galcon_bt/config_flow.py:117-134 | " aa:bb:cc:dd:ee:ff " is accepted as "AA:BB:CC:DD:EE:FF" with the default name and duration |
| ConfigFlow.IsGalconIff | custom_components/galcon_bt/config_flow.py:49-50 | the filter is a search for "GL9001A" anywhere in the upper-cased name, a missing name read as "", and upper-casing the name does not change it |
| ConfigFlow.GalconNameNonEmpty | custom_components/galcon_bt/config_flow.py:49-50 | a name the filter keeps is never empty |
| ConfigFlow.FilteredKeys | custom_components/galcon_bt/config_flow.py:48-52 | the kept addresses are exactly the upper-cased addresses of matching devices |
| ConfigFlow.FilteredLastWins | custom_components/galcon_bt/config_flow.py:48-52 | each kept address maps to the name of the last matching device with that address |
| ConfigFlow.FilteredCanonical | custom_components/galcon_bt/config_flow.py:48-52 | every kept address is upper-case and every kept name non-empty |
| ConfigFlow.DefaultName | custom_components/galcon_bt/config_flow.py:66-67 | the discovered name when it is non-empty, otherwise DEFAULT_NAME; never empty |
| ConfigFlow.PickedDeviceKeepsName | custom_components/galcon_bt/config_flow.py:66-67 | a device picked from a scan defaults to the name it advertised |
| ConfigFlow.OptionLabels | custom_components/galcon_bt/config_flow.py:90-92 | one "name (addr)" label per discovered device, under its address |
| ConfigFlow.OptionLabelsDistinct | custom_components/galcon_bt/config_flow.py:90-92 | labels of equally long addresses are equal exactly when both name and address are |
| ConfigFlow.PickerStep | custom_components/galcon_bt/config_flow.py:64-80 | a picked address that is configured aborts; otherwise the entry stores it unchanged with the given name or the default name, and the given duration or 20 |
| ConfigFlow.ConfirmStep | custom_components/galcon_bt/config_flow.py:169-177 | the confirmed entry stores the unique id as its address, with the given name or DEFAULT_NAME and the given duration or 20 |
| ConfigFlow.DiscoveredTitle | custom_components/galcon_bt/config_flow.py:159 | the advertised name when non-empty, otherwise DEFAULT_NAME |
| ConfigFlow.GalconConfigFlow.constructor | custom_components/galcon_bt/config_flow.py:33-35 | nothing discovered yet |
| ConfigFlow.GalconConfigFlow.ScanForGalconDevices | custom_components/galcon_bt/config_flow.py:37-56 | the loop builds exactly Filtered of the scan, or nothing when the scan raises; keys are upper-case and names non-empty |
| ConfigFlow.GalconConfigFlow.AsyncStepUser | custom_components/galcon_bt/config_flow.py:58-109 | with input, the unique id is the picked address and the result is PickerStep; without, the scan result is stored and either the manual form is shown (nothing found) or the picker with its labels and count |
| ConfigFlow.GalconConfigFlow.AsyncStepManual | custom_components/galcon_bt/config_flow.py:111-148 | the result is ManualStep, and the unique id is set only for an address that passes the pattern |
| ConfigFlow.GalconConfigFlow.AsyncStepBluetooth | custom_components/galcon_bt/config_flow.py:150-163 | the upper-cased address becomes the unique id; a configured one aborts; otherwise the title placeholders are set and the confirmation form is shown |
| ConfigFlow.GalconConfigFlow.AsyncStepBluetoothConfirm | custom_components/galcon_bt/config_flow.py:165-192 | without input the confirmation form names the unique id; with input the result is ConfirmStep |

## Left out

- Real BLE I/O is left out: bleak, `establish_connection` and `BleakScanner.discover` are foreign
  calls. The radio is the `links`/`gatt` oracle, and the scan is a list of adverts.
  `establish_connection`'s own internal retries (`max_attempts=2`) count as one attempt.
- The exceptions raised by a connection or GATT step are reduced to two kinds. `Transient` stands
  for BleakError, TimeoutError and OSError, which are retried or swallowed. `Fatal` stands for
  anything else, which propagates. The text of the ConnectionError message is reduced to the
  address it names.
- Disconnecting is assumed never to raise.
- The `asyncio.Lock` single-flight discipline and async scheduling are left out: calls are
  sequential.
- Sleeps are whole milliseconds rather than floating-point seconds. Connection timeouts are not
  modelled.
- Time is left out as a clock. `datetime` values are whole seconds passed in as `now`,
  `int(total_seconds())` truncation is not modelled, and `last_seen` is kept as that number
  rather than an ISO string.
- Home Assistant plumbing is left out: entity registration, `async_write_ha_state`, unique-id and
  device-info strings, and the DataUpdateCoordinator scheduler. The framework storing a poll's
  result into `data` is not modelled. `data` changes only where the integration calls
  `async_set_updated_data`.
- Coordinator.GalconCoordinator.AsyncUpdateData: `fetched` and the `gatt` script stand for the
  device call. The trace of that call is not returned.
- The `_on_state_change` callback is left out: a listener is a number, and each call is recorded
  as a notification.
- `switch.py`, `number.py` and `__init__.py` are thin adapters and service wiring. They are not
  part of this model, so `duration_minutes` changes only through the coordinator's initial value.
- The voluptuous schemas and their ranges are not modelled: durations are any integer.
- Logging is left out. The phase sensor's extra attributes and `available` are plain field reads
  and are not modelled.
- Text.Upper: upper-cases ASCII letters only, where Python's `str.upper` also maps other
  alphabets and can change the length ('ß' becomes "SS", the ligature 'ﬀ' becomes "FF"). So an
  address such as "aa:bb:cc:dd:ee:ﬀ", which Python upper-cases to a valid address at
  config_flow.py:118-121, is rejected by ConfigFlow.ManualStep.
- Device.VerifyRounds, Device.VerifiedCommand and Device.Execute: the sleeps inside an operation
  are stated round by round (Device.WakeAndRead, Device.VerifyRound, Device.ReWakeAndReadBack),
  but the trace of a whole operation, with its sleeps, is not stated as a function of the replies.
- Device.Execute: when every link fails, it states the counts (no client, no GATT step) and not
  the exact trace.
- Device.Execute: the control writes are bounded per attempt and exact for one attempt
  (Device.Connection), but their total over all attempts is not stated as a function of the
  replies.
- ConfigFlow.GalconConfigFlow.AsyncStepBluetoothConfirm requires the unique id to be set. The flow
  reaches this step only after `async_step_bluetooth` has set it.
- `async_will_remove_from_hass` is left out: it only calls `_cancel_timer`, which is modelled
  as Sensor.TimeRemainingSensor.CancelTimer.
