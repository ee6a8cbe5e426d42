# Robot arm firmware core, modelled in Dafny

This project models the sequential core of a pick-and-place robot arm's firmware:

- the stepper-motor speed-ramp controller (`Sources/Motors.c`);
- the fixed-point square root and the 16-bit minimum and maximum (`Sources/Math.c`);
- the bounded block-position stack (`Sources/BlockStack.c`);
- the serial packet receiver and sender (`Sources/Serial.c`);
- the event bit set (`Sources/Event.c`).

Each C module becomes one Dafny module. A static array or struct that the C code updates in place becomes a class:

- `BlockStack.Stack` holds the block array and its one-based index.
- `Serial.Port` holds the receiver state and both packets.
- `Event.Events` holds the event byte array. A ghost set of pending events describes its meaning.
- `Motors.Axis` is one `MOT_FSMData` record.
- `Motors.Controller` holds the three axes and the globals `running` and `OCR1A`.

Each method is proved against a function on values:

- `Serial.Port.Process` against `Serial.Step`;
- `Motors.Controller.MoveSteps` against `Motors.Planned`;
- `Motors.Controller.Process` against `Motors.Stepped`;
- `Math.Sqrt` against `Math.RoundSqrt`.

The lemmas state the properties of those functions, such as the round trip of a serial frame and the exact step count of a motor move.

`ctypes.dfy` (module `CTypes`) holds the C integer types and C's truncating `/` and `%`. It also holds the narrowing that happens when an `int` result is stored in a 16-bit field.

The compile-time constants of the motor module are fixed integers:

| constant | value |
|---|---|
| A_T_x100 | 1447487 |
| T1_FREQ_148 | 3114 |
| A_SQ | 628317999 (the double product truncated) |
| A_x20000 | 628 |

The motor state machine has the IDLE state that the code uses but the header's enumeration lacks. The serial packets have the layout of the static initialiser in `Sources/Serial.c`: command, 32 data bytes, data index, length and checksum. The header's struct differs from it, and the model follows the code.

## Model

| member | source | states |
|---|---|---|
| CTypes.CDiv | Sources/Motors.c:194 | C division by a possibly negative divisor: the magnitude is the floor of the magnitudes' quotient, and the sign is the product of the signs |
| CTypes.CRem | Sources/Motors.c:195 | C remainder: `a == q*b + r`, `|r| < |b|`, and the sign follows the dividend |
| CTypes.WrapU16 | Sources/Motors.c:202 | storing into a `uint16_t` keeps the value modulo 2^16, and values in range unchanged |
| CTypes.WrapI16 | Sources/Motors.c:170 | storing into an `int16_t` keeps the value modulo 2^16 (two's complement), and values in range unchanged |
| Math.Min | Sources/Math.c:59-66 | the result is one of the arguments and no greater than either |
| Math.Max | Sources/Math.c:75-82 | the result is one of the arguments and no less than either (a maximum, whatever its doc comment says) |
| Math.FloorSqrt | Sources/Math.c:28-43 | the reference floor root: `s*s <= x < (s+1)*(s+1)` |
| Math.FloorSqrtUnique | Sources/Math.c:28-43 | only one `s` satisfies `s*s <= x < (s+1)*(s+1)` |
| Math.RoundSqrtIsNearest | Sources/Math.c:44-49 | the rounded root (floor root plus one when the remainder exceeds it) is the integer nearest the real root |
| Math.NearestRootUnique | Sources/Math.c:44-49 | only one integer is nearest the real root |
| Math.RoundSqrt | Sources/Math.c:44-49 | reference definition of the rounded root; its properties are stated by RoundSqrtIsNearest, RoundSqrtOfSquare and RoundSqrtBound, and Sqrt is proved to return it |
| Math.RoundSqrtOfSquare | Sources/Math.c:44-49 | a perfect square `k*k` gives back `k` |
| Math.RoundSqrtBound | Sources/Math.c:44-45 | on 32-bit inputs the result is at most 65536, so `xr + 1` cannot overflow |
| Math.ScanStart | Sources/Math.c:28-29 | with `xr = 0` and `q2 = 0x40000000`, the scan invariant holds before the first round |
| Math.ScanRound | Sources/Math.c:31-41 | one round with result bit `b`: the test `xr + q2 <= x` fits in 32 bits, and it holds exactly when bit `b` belongs to the root |
| Math.ScanNext | Sources/Math.c:30-43 | either outcome of a round's test re-establishes the scan invariant for the next bit, with no 32-bit overflow |
| Math.ScanDone | Sources/Math.c:43 | when `q2` reaches 0, all sixteen rounds are done, `xr` is the floor root of the input and `x` is the input minus `xr*xr` |
| Math.Sqrt | Sources/Math.c:23-50 | the loop runs exactly sixteen rounds, and the result is the nearest integer to the square root of the input |
| BlockStack.Stack.constructor | Sources/BlockStack.c:16-17 | the static store starts empty |
| BlockStack.Stack.Clear | Sources/BlockStack.c:19-21 | BLOCK_Init and BLOCK_Clear (lines 57-59) empty the store (size 0) without touching the array |
| BlockStack.Stack.IsEmpty | Sources/BlockStack.c:23-25 | true exactly when the store holds no block (the corrected test) |
| BlockStack.Stack.IsFull | Sources/BlockStack.c:27-29 | true exactly when the store holds ten blocks |
| BlockStack.Stack.GetSize | Sources/BlockStack.c:53-55 | the index is the number of stored blocks |
| BlockStack.Stack.Push | Sources/BlockStack.c:31-37 | when not full: the size rises by one, the block is on top, `GetSingle(GetSize())` is it, and no other slot changes; when full, nothing changes |
| BlockStack.Stack.Pop | Sources/BlockStack.c:39-47 | when not empty (with the corrected emptiness test): returns the top block, removes only it and never writes the array; when empty: returns the uninitialised local and changes nothing |
| BlockStack.PushThenPopAll | Sources/BlockStack.c:31-47 | pushing up to ten blocks and popping as many yields them in reverse order and leaves the store empty |
| BlockStack.IsFullAsWritten | Sources/BlockStack.c:27-29 | reference definition of the full test as written (`index > 9`); PushSlotAsWritten and PopOnEmptyWraps state its consequences |
| BlockStack.IsEmtpyAsWritten | Sources/BlockStack.c:23-25 | the emptiness test as written never holds, because an unsigned index is never below zero |
| BlockStack.PushSlotAsWritten | Sources/BlockStack.c:27-34 | the push as written writes a slot exactly when `index < 10`, and that slot is `index + 1` |
| BlockStack.PopAsWritten | Sources/BlockStack.c:39-47 | the pop as written reads slot `index` and leaves `index - 1` modulo 256, so 255 from an empty store |
| BlockStack.PushOverrunsDeclaredArray | Sources/BlockStack.c:16-34 | the tenth push, at index 9, writes slot 10 of a ten-slot array |
| BlockStack.PopOnEmptyWraps | Sources/BlockStack.c:23-47 | `BLOCK_IsEmtpy` never holds; a pop at index 0 reads slot 0 and wraps the index to 255, after which the store counts as full and a pop reads slot 255 |
| Serial.Data16 | Sources/Serial.c:91-96 | the two bytes appended for a 16-bit value (high, then low) give the value back |
| Serial.Frame | Sources/Serial.c:111-128 | a frame is five bytes longer than its data, opens with '[' and closes with ']' |
| Serial.TestChecksum | Sources/Serial.c:73-76 | the checksum test accepts every packet |
| Serial.BuildChecksum | Sources/Serial.c:102-105 | the built checksum is always 0 |
| Serial.Step | Sources/Serial.c:139-196 | reference definition of one pass of the receive state machine; StartWaitsForOpen, FeedHeader, FeedData, DataKeepsGoing, StopNeedsClose, BusyIgnoresInput and FrameRoundTrip state its properties, and Port.Process is proved to follow it |
| Serial.FeedAppend | Sources/Serial.c:134-197 | feeding two byte sequences one after the other is feeding their concatenation |
| Serial.StartWaitsForOpen | Sources/Serial.c:140-149 | in START only '[' advances, to LENGTH, zeroing both data indices; any other byte changes nothing |
| Serial.FeedHeader | Sources/Serial.c:140-164 | '[', a length byte and a command byte lead to DATA when the length exceeds 5 and to CHECKSUM otherwise |
| Serial.FeedData | Sources/Serial.c:166-172 | DATA stores each byte at the next index and leaves for CHECKSUM after exactly `length - 5` data bytes; nothing else changes |
| Serial.DataKeepsGoing | Sources/Serial.c:166-172 | while fewer than `length - 5` bytes are stored, the receiver stays in DATA |
| Serial.OverlongFrameOverruns | Sources/Serial.c:166-172 | a length byte above 37 keeps DATA going after 32 bytes, so the next byte's index is past the 32-byte buffer |
| Serial.StopNeedsClose | Sources/Serial.c:179-187 | in STOP, ']' raises the received-packet event and moves to BUSY; any other byte drops the packet and returns to START |
| Serial.BusyIgnoresInput | Sources/Serial.c:189-191 | in BUSY every byte sequence leaves the receiver unchanged |
| Serial.FrameRoundTrip | Sources/Serial.c:134-187 | a frame with up to 32 data bytes, fed from START, leaves the receiver BUSY holding its length, command, data and checksum |
| Serial.ShortFrameRoundTrip | Sources/Serial.c:140-187 | a frame whose length byte is at most 5 carries no data and leaves the receiver BUSY holding its length, command and checksum |
| Serial.Port.constructor | Sources/Serial.c:18-24 | the static data starts in START; every received field, the 32 data bytes of both buffers, the answer's command, length, checksum and data index are zero, and nothing has been sent |
| Serial.Port.SetHandled | Sources/Serial.c:40-42 | the receiver returns to START; the answer, its header fields and the sent bytes are untouched |
| Serial.Port.Process | Sources/Serial.c:134-197 | one received byte updates the receiver state, the input packet and the answer's data index (reset to 0 by '[') as `Step` says, and signals the event as `Step` does; the answer's bytes, its header fields and the sent bytes are untouched |
| Serial.Port.AddData8 | Sources/Serial.c:82-85 | the answer data gains the byte at its end, and the data index rises by one |
| Serial.Port.AddData16 | Sources/Serial.c:91-96 | the answer data gains `Data16(d)`, the high byte then the low byte, and the data index rises by two |
| Serial.Port.SendPacket | Sources/Serial.c:111-128 | the bytes sent are exactly the frame of the answer data with the given command and the built checksum (so `FrameRoundTrip` decodes them); the answer is then empty |
| Event.MaskOf | Sources/Event.c:30 | an event's mask has a bit set |
| Event.DistinctEventsDistinctBits | Sources/Event.c:16-36 | two distinct events use another byte or disjoint masks |
| Event.SetKeepsOthers | Sources/Event.c:28-32 | or-ing an event's mask sets its bit and keeps every other event's bit in that byte |
| Event.ClearKeepsOthers | Sources/Event.c:34-38 | and-ing with the inverted mask clears the event's bit and keeps every other event's bit in that byte |
| Event.Events.constructor | Sources/Event.c:16 | the static array starts with no event pending |
| Event.Events.Init | Sources/Event.c:18-26 | after the clearing loop no event is pending |
| Event.Events.Set | Sources/Event.c:28-32 | the pending set becomes the old one plus the event (so setting twice is setting once); every other event keeps its status |
| Event.Events.Clear | Sources/Event.c:34-38 | the pending set becomes the old one minus the event (so clearing twice is clearing once); every other event keeps its status |
| Event.Events.IsSet | Sources/Event.c:40-46 | true exactly when the event is pending |
| Event.Events.HandleEvent | Sources/Event.c:48-66 | with events pending, it dispatches and clears the lowest-numbered one and leaves the rest pending; with none pending, nothing is dispatched and nothing changes |
| Motors.Calculated | Sources/Motors.c:26-43 | accel, decel and speed are stored verbatim; `max_s_lim` is at least 1; only `min_delay` and `max_s_lim` change besides them |
| Motors.MinDelayIsTopSpeedDelay | Sources/Motors.c:33 | from a speed of 45 on, `min_delay` is A_T_x100 / speed without wrapping |
| Motors.SlowTopSpeedWrapsMinDelay | Sources/Motors.c:33 | at a top speed of 44, A_T_x100 / speed exceeds the int16 range and `min_delay` becomes negative |
| Motors.AccelLimit | Sources/Motors.c:72-76 | `accel_lim` lies in `1 .. n-1`; it is the floor of `n * decel / (accel + decel)` (`al*(accel+decel) <= n*decel < (al+1)*(accel+decel)`), or 1 when that floor is 0 |
| Motors.DecelValue | Sources/Motors.c:78-89 | `decel_val` lies in `-(n-1) .. -1` |
| Motors.DecelPlanned | Sources/Motors.c:70-92 | `decel_val <= -1`, `1 <= decel_start <= n - 1` and `decel_start - decel_val == n`; no other field changes |
| Motors.FirstDelay | Sources/Motors.c:97 | reference definition of the first delay `3114 * sqrt(A_SQ / accel) / 100` stored in 16 bits; FirstDelayFits, FirstDelayWraps and ComputeFirstDelay state its properties |
| Motors.FirstDelayFits | Sources/Motors.c:97 | from an acceleration of 142 on, the first delay `3114 * sqrt(A_SQ / accel) / 100` fits in 16 bits |
| Motors.FirstDelayWraps | Sources/Motors.c:97 | below an acceleration of 142, the stored first delay is less than the computed one |
| Motors.ComputeFirstDelay | Sources/Motors.c:97 | the first delay computed with the bit-scanning root equals the reference `FirstDelay` |
| Motors.Started | Sources/Motors.c:97-113 | the counters restart at 0 and the axis runs; it starts in RUN at `min_delay` exactly when the first delay is at most `min_delay`, and in ACCEL at the first delay otherwise |
| Motors.Ramped | Sources/Motors.c:69-118 | a move of n >= 2 steps gets both its deceleration point and its start; direction, limits and parameters are kept |
| Motors.PlannedAsWritten | Sources/Motors.c:48-119 | the direction follows the sign; 0 steps only sets CW; 1 step gives DECEL, `accel_count = -1`, delay 1000 and running whatever the parameters; 2 or more steps give the ramped move |
| Motors.Planned | Sources/Motors.c:48-119 | equal to the as-written record, except that a move of 2 or more steps that starts in RUN has `last_accel_delay == min_delay` |
| Motors.NextDelay | Sources/Motors.c:161 | reference definition of the delay recurrence `c - (2c + rest) / (4i + 1)` with truncating division, used in ACCEL and again in DECEL (lines 194-195); AccelRecurrence, DecelRecurrence and LastRecurrence state its properties |
| Motors.NextRest | Sources/Motors.c:162 | reference definition of the carried remainder `(2c + rest) % (4i + 1)` in C; AccelRecurrence, DecelRecurrence and LastRecurrence bound it |
| Motors.AccelRecurrence | Sources/Motors.c:159-162 | in acceleration, the recurrence never raises the delay or takes it below zero or below three fifths of itself (less one), and keeps the remainder below `4i + 1` |
| Motors.DecelRecurrence | Sources/Motors.c:192-195 | in deceleration, the recurrence never lowers the delay |
| Motors.LastRecurrence | Sources/Motors.c:193-195 | the last deceleration step divides by 1 and gives `-(delay + rest)`, with remainder 0 |
| Motors.Stepped | Sources/Motors.c:133-205 | returns the delay held on entry; IDLE and STOP store the uninitialised delay; STOP clears the running flag, the step count and the remainder; the other phases count one step |
| Motors.AccelStep | Sources/Motors.c:157-175 | an ACCEL step counts one step and keeps the running flag |
| Motors.RunStep | Sources/Motors.c:177-188 | a RUN step counts one step and keeps the running flag |
| Motors.DecelStep | Sources/Motors.c:190-200 | a DECEL step counts one step and keeps the running flag |
| Motors.CountingAtStart | Sources/Motors.c:69-113 | a move of 2 or more steps, as written, starts the counting invariant with no step done |
| Motors.CountingStep | Sources/Motors.c:157-200 | an ACCEL, RUN or DECEL interrupt keeps the counting invariant and counts exactly one step |
| Motors.CountingSteps | Sources/Motors.c:143-200 | k interrupts keep the counting invariant and count exactly k steps |
| Motors.CountedMove | Sources/Motors.c:148-200 | from any start meeting the counting invariant with no step done, n interrupts run in ACCEL, RUN or DECEL, then STOP with `step_count == n`, and the next interrupt halts |
| Motors.MoveTakesExactlyItsSteps | Sources/Motors.c:48-205 | a move of n >= 2 steps, as written and as corrected, spends exactly n interrupts in ACCEL, RUN or DECEL with the axis running, is then in STOP with `step_count == n`, and the next interrupt clears the counters and the running flag |
| Motors.MovingAtStart | Sources/Motors.c:92-113 | a corrected move of 2 or more steps starts within the delay bounds, with no step done |
| Motors.AccelStepKeepsMoving | Sources/Motors.c:157-175 | an ACCEL step keeps the counting invariant and the delay bounds, counts one step and never lengthens the delay |
| Motors.MovingStep | Sources/Motors.c:157-200 | an ACCEL, RUN or DECEL interrupt of a corrected move keeps the delay bounds and counts one step |
| Motors.MovingSteps | Sources/Motors.c:143-200 | k interrupts keep the delay bounds and count exactly k steps |
| Motors.MovingThroughout | Sources/Motors.c:48-200 | every state a corrected move reaches, up to its STOP, is within the delay bounds |
| Motors.AccelNeverSlows | Sources/Motors.c:161 | during a move, an ACCEL step never lengthens the delay |
| Motors.DecelNeverSpeedsUp | Sources/Motors.c:194 | during a move, a DECEL step before the last never shortens the delay, unless the longer delay overflows 16 bits |
| Motors.LastDecelStepWraps | Sources/Motors.c:194-202 | the last DECEL step reaches STOP and stores `-(delay + rest)` wrapped to 16 bits: `2^16 - (delay + rest)` when that sum is in 1..2^16, and 0 when it is 0, as in the direct-RUN move |
| Motors.DecelStartsNearTopSpeed | Sources/Motors.c:182-186 | leaving RUN in a planned move, the delay is at least three fifths of `min_delay` (less one) |
| Motors.AccelToRunKeepsDelayBound | Sources/Motors.c:169-174 | switching from ACCEL to RUN records a last acceleration delay of at least three fifths of `min_delay` (less one) |
| Motors.DirectRunDecelAsWritten | Sources/Motors.c:100-103 | as written, a fresh axis with speed 100, accel 60000 and a 2-step move starts in RUN outside the delay bounds (though within the counting invariant), and the interrupt leaving RUN stores delay 0, far below `min_delay` 14474 |
| Motors.SingleStepMove | Sources/Motors.c:59-64 | a 1-step move returns delay 1000 and reaches STOP after one interrupt (lines 190-199), storing the wrapped `-(1000 + rest)`; the next interrupt halts it (lines 148-155) |
| Motors.Axis.constructor | Sources/Motors.c:10-12 | a static record starts zero-filled |
| Motors.Axis.CalcValues | Sources/Motors.c:26-43 | the record becomes `Calculated` of the old one |
| Motors.Axis.PlanDeceleration | Sources/Motors.c:70-92 | the record becomes `DecelPlanned` of the old one |
| Motors.Axis.StartMove | Sources/Motors.c:94-115 | the record becomes `Started` of the old one, with `last_accel_delay = min_delay` when it starts in RUN |
| Motors.Axis.Accelerate | Sources/Motors.c:157-175 | the record and the new delay are `AccelStep` of the old record |
| Motors.Axis.Cruise | Sources/Motors.c:177-188 | the record and the new delay are `RunStep` of the old record |
| Motors.Axis.Decelerate | Sources/Motors.c:190-200 | the record and the new delay are `DecelStep` of the old record |
| Motors.Controller.constructor | Sources/Motors.c:7-12 | three fresh, pairwise distinct, zeroed axes; `running` false and OCR1A 0 |
| Motors.Controller.Init | Sources/Motors.c:15-19 | every axis goes IDLE and nothing else changes |
| Motors.Controller.MoveSteps | Sources/Motors.c:48-119 | the axis becomes `Planned` of its old record; a move of one or more steps sets `running` and OCR1A to 10; a move of 0 steps leaves both alone |
| Motors.Controller.Process | Sources/Motors.c:133-205 | the axis and the returned delay are `Stepped` of the old record; OCR1A holds the returned delay; STOP clears the global `running` |

## Left out

- Interrupt masking (`EnterCritical`/`ExitCritical`) is left out. Each model is sequential.
- The UART is left out. `SER_SendChar`'s busy wait on a full transmitter becomes an append to `Serial.Port.sent`. `ReceiveChar` becomes the byte parameter of `Serial.Port.Process`.
- `SER_Init` is not modelled. Its body is empty.
- The packet accessors (`GetLength`, `GetCommand`, `GetData`) return fields and carry no contract. `BlockStack.Stack.GetSingle` also returns a field without a contract.
- Serial.Step: the code writes a data byte past the 32-byte buffer when the length byte exceeds 37. The 33rd data byte lands on the packet's own `data_index` field, which follows `data` in the record, so the code's parsing of every later byte differs from the model's. The model drops such a byte and keeps counting; `Serial.OverlongFrameOverruns` shows when this happens.
- Serial.Port.AddData8: requires room in the 32-byte answer buffer. The code does not check, and a 33rd byte is written past the array, into memory this model does not have.
- Serial.Port.AddData16: requires room for two bytes in the answer buffer, for the same reason as AddData8.
- Serial.Port.SendPacket: since the answer never holds more than 32 bytes here, the model does not cover a packet that would send bytes from past the array.
- Serial.Port.Process: the `default` branch of the C switch cannot be reached. The state is an enumeration here.
- Serial.Port.Process: the `EVNT_SetEvent(EVNT_SERIAL_CMD)` call becomes the returned flag `signal`. That event is not among the declared events, so the event module takes its event count as a parameter.
- Event.Events.HandleEvent: the callback is not called. The handled event is returned instead, or `None` when nothing was pending.
- Motors.Calculated: requires `speed <= 46340`. The code squares `speed` in 32 signed bits, and a larger speed overflows.
- Motors.Calculated: below a top speed of 45, `min_delay` wraps in 16 signed bits exactly as the code does (negative at 44, see SlowTopSpeedWrapsMinDelay). The model keeps the wrapped value and proves no corrected top-speed limit for such slow speeds.
- Motors.Controller.MoveSteps: requires the conditions of `Motors.CanMove`:
  - `steps != -32768`, whose negation does not fit in 16 bits;
  - for two or more steps, a nonzero `accel`, and a nonzero `decel` or a `max_s_lim` of at least 1, so that no divisor is zero.
- Motors.Controller.MoveSteps: applies the correction described under "## Findings": a move that starts in RUN sets `last_accel_delay` to `min_delay`. This differs from Sources/Motors.c:100-103. The code as written is `Motors.PlannedAsWritten`, whose step count `Motors.MoveTakesExactlyItsSteps` also covers.
- Motors.Controller.Process: does not require `running`. The interrupt glue that calls it only while `running` holds (`Sources/Events.c`) is not part of this model. The model covers every state instead.
- Motors.FirstDelay: for an acceleration of 141 or less, the first delay wraps in 16 bits. This is kept as in the code; `Motors.FirstDelayWraps` states it.
- Motors.Stepped: the uninitialised `new_step_delay` stored in IDLE and STOP is the arbitrary parameter `junk`.
- Motors.Axis: the record's fields are one value of type `Motors.Ramp`, replaced field by field. Aliasing between the three axes is not modelled beyond their being distinct objects.
- The motor constants are evaluated from double expressions at compile time. The model takes their integer values as given.
- Motors.DecelNeverSpeedsUp: when the longer delay no longer fits in 16 bits, the stored delay wraps. The lemma states only the disjunction.

## Findings

| source | as written | input that shows it | evidently intended | confidence | as-written member | corrected member |
|---|---|---|---|---|---|---|
| Sources/BlockStack.c:16-34 | `block_storage` has 10 slots but the 1-based index writes slots 1..10 | ten pushes onto an empty store: the tenth writes `block_storage[10]` | room for ten blocks at slots 1..10 (eleven slots, slot 0 unused) | high (not executed) | BlockStack.PushOverrunsDeclaredArray | BlockStack.Stack.Push |
| Sources/BlockStack.c:23-25 | `block_index < 0` on an unsigned index is never true | a pop on an empty store: it reads slot 0 and wraps the index to 255 | empty when `block_index == 0` | high (not executed) | BlockStack.PopOnEmptyWraps | BlockStack.Stack.IsEmpty |
| Sources/Motors.c:100-103 | a move that starts directly in RUN keeps `last_accel_delay` from before, and RUN starts deceleration from it (lines 182-186) | a fresh axis, `MOT_CalcValues(60000, 60000, 100)`, `MOT_MoveSteps(2)`: the first interrupt leaves RUN and stores delay 0, which the second returns | decelerate from the top-speed delay `min_delay` | medium (not executed) | Motors.DirectRunDecelAsWritten | Motors.Planned |
