# Control link: models and proofs

The control link carries motion commands from several sources through a gateway to a vehicle on a
CAN bus. This project models its five stateful parts and proves what they keep over whole runs.

* **The CAN codec and link.** `Crc8`, `CanCodec`, `CodecLaws`, `FrameLayout`, `CrcDetection` and
  `RollingCounter` are the bit-exact frame format; the CRC is the SAE J1850 CRC-8 of section 7.2.1.1 of the
  AUTOSAR Specification of CRC Routines. `SocketCanAdapter` is the adapter object and `SocketCanTransport` the I/O loop, with its
  retry frame and its immediate flag. `CanLink` runs both threads as interleaved steps: one lock region,
  one exchange of the flag or one outcome of a write per step. `CanLinkHistory`, `CanLinkSafety`,
  `CanLinkTheorems`, `CanLinkDemands`, `CanLinkRetry`, `CanLinkEvents` and `CanLinkLease` prove what holds in every
  interleaving, and `CanFeedback` and `FeedbackLaws` what holds of the receive side over any history of frames,
  errors and timeouts.
* **The gateway.** `CommandValidator`, `CanonicalInputGuard`, `SourceRuntime`, `SourceArbiter` and
  `GatewayStateMachine` are its parts, `DecisionEngine` the transition function over events and
  `EngineObject` the object that carries it out. `ArbiterLaws`, `StateMachineLaws` and `EngineLaws` say what one
  tick or event decides; `EngineInvariant`, `EngineHistory`, `EngineOutput`, `EngineStatuses`, `EngineEpochs`,
  `EngineTicks` and `EngineRecovery` are about all event histories.
* **Endpoint debouncers.** `Debouncer` is one abstract debouncer with its meaning over histories;
  `CanonicalEndpointTracker` and `CriticalEndpointMonitor` both refine it, the latter through the canonical
  order of `Sorting`. `ControllerEndpointMonitor` has a history specification of its own, with its laws in
  `MonitorLaws`; `GraphLaws` says what all three make of one graph query.
* **Configuration identity and reconfiguration.** `CanonicalText`, `ContractText`, `ContractParser`,
  `DecisionText`, `DecisionWriter` and `DecisionBehaviour` are the canonical printer, its inverse and what its
  texts say; `Reconfiguration` and `DiffLaws` classify candidates, and `ReconfigurationBackend`,
  `ReconfigurationTransaction` and `ReconfigurationLaws` drive a fallible gateway forward and back.
* **The vehicle simulator**, `VehicleSimulator` and `SimulatorLaws`, the CAN peer.

Objects of the program are classes here, each proved against a function of its state; the theorems are
lemmas about those functions, stated in the fields, bytes, steps and times that the program itself uses.
An exception is a value: `None`, `false`, `Err` or `Threw`. Guarantees of the configuration parsers (unique
ids, positive windows and scales, a modulo of 2 to 16, an odd polynomial where it is needed, a source policy
that covers the enabled sources) are preconditions.

Five facts came out differently from what one might expect of the code:

* `socketcan_adapter.cpp:625-629` treats a healthy watchdog without a command as impossible; it is not.
  `CanLinkLease.LeaseOutlivesCommand` is a reachable run, and `CanLinkLease.FaultThrowsInRuns` says which
  histories get there.
* A range end that is not a multiple of the scale can lose a legal command between encoder and decoder
  (`CodecLaws.RangeEndLost`, with the exact condition in `CodecLaws.ControlRangesDecide`).
* The control decoder accepts a counter that is not below the modulo (`CodecLaws.LargeCounterAccepted`), so
  with a modulo below 16 not every accepted frame is one that the encoder makes
  (`CodecLaws.ModuloDecides`). Parsed signal maps fix the modulo at 16 (`can_signal_parser.cpp:424`).
* The signal map parser accepts ranges without zero (`can_signal_parser.cpp:485-487`); the simulator then
  throws at its first state frame (`VehicleSimulator.FirstFrameThrowsExactly`).
* The contract parser accepts an output rate above one per nanosecond, and a late threshold beyond 63 bits
  of nanoseconds; such a contract makes every tick, or every tick but the first, throw
  (`EngineInvariant.OnlyRefusalsThrow`).

`dafny verify dfyconfig.toml` checks the whole project.

## Model

| member | source | states |
|---|---|---|
| Crc8.UpdateCrc | ros2_ws/src/control_link_adapters/src/can_codec.cpp:36-49 | The bitwise CRC loop computes the byte step of the specification register, for every polynomial. |
| Crc8.AbsorbAllLinear | ros2_ws/src/control_link_adapters/src/can_codec.cpp:36-49 | The register is linear over GF(2): the sum of two runs is the run over the summed bytes and start values. |
| Crc8.ShiftTimesKernel | ros2_ws/src/control_link_adapters/src/can_codec.cpp:36-49 | With an odd polynomial the shift step is injective: a register shifts to zero only from zero. |
| Crc8.BurstSurvives | ros2_ws/src/control_link_adapters/src/can_codec.cpp:36-49 | A burst over the end of one byte and the start of the next never cancels in the register. |
| CanCodec.CalculateCrc | ros2_ws/src/control_link_adapters/src/can_codec.cpp:204-218 | The CRC of a frame is that of the identifier bytes, low byte first, and the seven protected bytes, with initial value and final xor. |
| CanCodec.EncodeSignedLe | ros2_ws/src/control_link_adapters/src/can_codec.cpp:26-34 | Writes the two's complement of the value into two bytes, low byte first, and no other byte. |
| CanCodec.EncodeControl | ros2_ws/src/control_link_adapters/src/can_codec.cpp:247-287 | The encoder, errors included, agrees with the frame whose bytes `FrameLayout.ControlLayout` gives. |
| CanCodec.EncodeState | ros2_ws/src/control_link_adapters/src/can_codec.cpp:289-329 | The same for vehicle state frames and `FrameLayout.StateLayout`. |
| CodecLaws.SignedRoundTrip | ros2_ws/src/control_link_adapters/src/can_codec.cpp:15-34 | Every 16-bit value written as two bytes reads back as itself, sign included. |
| CodecLaws.SignedUnique | ros2_ws/src/control_link_adapters/src/can_codec.cpp:15-34 | Every pair of bytes is the encoding of the value it reads as, so decoding loses nothing. |
| CodecLaws.NearestMultiple | ros2_ws/src/control_link_adapters/src/can_codec.cpp:233-245 | Quantisation moves a value by at most half a scale step. |
| CodecLaws.QuantizeTotal | ros2_ws/src/control_link_adapters/src/can_codec.cpp:233-245 | With ranges that fit 16 bits, quantising a finite value fails exactly outside the range. |
| CodecLaws.EncodeDecodedControl | ros2_ws/src/control_link_adapters/src/can_codec.cpp:247-287 | Encoding the signals of an accepted control frame gives back that very frame, exactly when its counter is below the modulo. |
| CodecLaws.EncodeDecodedState | ros2_ws/src/control_link_adapters/src/can_codec.cpp:289-329 | Encoding the signals of an accepted state frame gives back that very frame. |
| CodecLaws.AcceptedFramesDiffer | ros2_ws/src/control_link_adapters/src/can_codec.cpp:331-395 | With modulo 16 no two accepted frames carry the same signals. |
| CodecLaws.DecodeEncodedControl | ros2_ws/src/control_link_adapters/src/can_codec.cpp:331-363 | An encoded control frame is accepted exactly when the nearest multiples of the scales are in range; mode and counter then come back exactly and each value within half a step. |
| CodecLaws.DecodeEncodedState | ros2_ws/src/control_link_adapters/src/can_codec.cpp:365-395 | The same for state frames: mode, fault code and both counters exactly, each value within half a step. |
| CodecLaws.ControlRangesDecide | ros2_ws/src/control_link_adapters/src/can_codec.cpp:247-287 | Every encodable command decodes again if and only if rounding the range ends to the scale keeps them in range. |
| CodecLaws.StateRangesDecide | ros2_ws/src/control_link_adapters/src/can_codec.cpp:289-329 | The same condition decides whether every encodable vehicle state decodes again. |
| CodecLaws.MultiplesLoseNothing | ros2_ws/src/control_link_adapters/src/can_codec.cpp:233-245 | Range ends that are multiples of their scale lose no frame of either kind. |
| CodecLaws.LargeCounterAccepted | ros2_ws/src/control_link_adapters/src/can_codec.cpp:331-363 | A concrete HOLD whose counter is the modulo is accepted by the decoder and refused by the encoder. |
| CodecLaws.ModuloDecides | ros2_ws/src/control_link_adapters/src/can_codec.cpp:247-287 | With zero in the ranges, every accepted control frame is one that the encoder makes if and only if the modulo is 16. |
| CodecLaws.RangeEndLost | ros2_ws/src/control_link_adapters/src/can_codec.cpp:233-245 | A concrete configuration in which a legal command at a range end is encoded and then refused by the decoder. |
| CrcDetection.SyndromeDecides | ros2_ws/src/control_link_adapters/src/can_codec.cpp:204-218 | Whether a corrupted frame still passes depends on the error pattern alone: initial value, identifier and final xor cancel. |
| CrcDetection.BurstDetected | ros2_ws/src/control_link_adapters/src/can_codec.cpp:36-49 | No error within eight consecutive bits of payload and CRC goes unseen, for every odd polynomial. |
| CrcDetection.TwoBitsDetected | ros2_ws/src/control_link_adapters/src/can_codec.cpp:36-49 | With polynomial 0x1D no error in one or two bits goes unseen, wherever they are. |
| CrcDetection.CorruptedControlRejected | ros2_ws/src/control_link_adapters/src/can_codec.cpp:331-363 | A control frame that would be accepted is refused after any one-bit, two-bit or eight-bit-burst error. |
| CrcDetection.CorruptedStateRejected | ros2_ws/src/control_link_adapters/src/can_codec.cpp:365-395 | The same for state frames, with the CRC as the reason. |
| CrcDetection.NineBitBurstUnseen | ros2_ws/src/control_link_adapters/src/can_codec.cpp:36-49 | The bound is tight: one nine-bit burst is not seen. |
| RollingCounter.RollingCounterChecker.ObserveCounter | ros2_ws/src/control_link_adapters/src/can_codec.cpp:405-427 | The checker's verdict and its new baseline, for counters in and out of range. |
| RollingCounter.LosslessStream | ros2_ws/src/control_link_adapters/src/can_codec.cpp:405-427 | A receiver that gets every counter 0, 1, 2, ... modulo N sees one first value and then only expected ones. |
| RollingCounter.LossySuccessor | ros2_ws/src/control_link_adapters/src/can_codec.cpp:405-427 | While fewer than N frames are lost, expected means that none was, and duplicate that exactly N - 1 were. |
| FrameLayout.ControlLayout | ros2_ws/src/control_link_adapters/src/can_codec.cpp:247-287 | Byte by byte: speed and yaw rate low byte first in bytes 0 to 3, to within half a step; 0 for HOLD and 1 for ACTIVE in byte 4; the counter, the flag 0x01 and the CRC in bytes 5 to 7; a HOLD is four zero bytes. |
| FrameLayout.StateLayout | ros2_ws/src/control_link_adapters/src/can_codec.cpp:289-329 | The same for a state frame: 0 to 3 for the mode in byte 4, the fault code in byte 5, the state counter in the low and the echoed counter in the high nibble of byte 6. |
| FrameLayout.ControlRead | ros2_ws/src/control_link_adapters/src/can_codec.cpp:331-363 | Exactly which frames are taken for a control frame, and what is then read from which byte. |
| FrameLayout.StateRead | ros2_ws/src/control_link_adapters/src/can_codec.cpp:365-395 | The same for state frames. |
| FrameLayout.ControlRefused | ros2_ws/src/control_link_adapters/src/can_codec.cpp:331-363 | Each reject reason of the control decoder is that of the first check that fails. |
| FrameLayout.StateRefused | ros2_ws/src/control_link_adapters/src/can_codec.cpp:365-395 | The same for the state decoder. |
| FrameLayout.ControlEncodes | ros2_ws/src/control_link_adapters/src/can_codec.cpp:247-287 | With ranges that fit 16 bits, exactly which commands encode, and the reason of every refusal. |
| FrameLayout.StateEncodes | ros2_ws/src/control_link_adapters/src/can_codec.cpp:289-329 | The same for vehicle states. |
| FrameLayout.HalvesRoundAway | ros2_ws/src/control_link_adapters/src/can_codec.cpp:233-245 | Halves of a scale step are rounded away from zero. |
| FrameLayout.ControlGolden | ros2_ws/src/control_link_adapters/src/can_codec.cpp:204-363 | One complete ACTIVE frame, CRC included, as the encoder writes and the decoder reads it. |
| FrameLayout.StateGolden | ros2_ws/src/control_link_adapters/src/can_codec.cpp:204-395 | One complete state frame, CRC included, as the encoder writes and the decoder reads it. |
| SocketCanAdapter.Adapter.PollCanonicalEndpoint | ros2_ws/src/control_link_adapters/src/socketcan_adapter.cpp:342-383 | A new gateway generation or the loss of the endpoint drops command and lease and asks for a HOLD; nothing of the receive side changes. |
| SocketCanAdapter.Adapter.RejectCommand | ros2_ws/src/control_link_adapters/src/socketcan_adapter.cpp:385-428 | A refused command drops the held one and is remembered by its reason; the lease is left to run. |
| SocketCanAdapter.Adapter.AcceptCommand | ros2_ws/src/control_link_adapters/src/socketcan_adapter.cpp:385-428 | An accepted command renews the lease and clears the reject reason; a clock that went back is the only failure. |
| SocketCanAdapter.Adapter.RequestImmediateHold | ros2_ws/src/control_link_adapters/src/socketcan_adapter.cpp:567-574 | Marks the next frame as a HOLD. |
| SocketCanAdapter.Adapter.MakePeriodicControlFrame | ros2_ws/src/control_link_adapters/src/socketcan_adapter.cpp:491-516 | The whole decision of the next frame, and that the forced HOLD is used up even when building throws. |
| SocketCanAdapter.Adapter.ConfirmControlFrameTransmitted | ros2_ws/src/control_link_adapters/src/socketcan_adapter.cpp:547-565 | The counter advances modulo N exactly when the written frame carried it. |
| SocketCanAdapter.Adapter.HandleCanFrame | ros2_ws/src/control_link_adapters/src/socketcan_adapter.cpp:430-474 | What a received frame does to baseline, kept state, recovery count, health and statistics, as the laws of `FeedbackLaws` read it off histories. |
| SocketCanAdapter.Adapter.HandleCanError | ros2_ws/src/control_link_adapters/src/socketcan_adapter.cpp:476-489 | A fatal error drops health, recovery count and baseline for good; others change nothing. |
| SocketCanAdapter.Adapter.MarkCanTimeout | ros2_ws/src/control_link_adapters/src/socketcan_adapter.cpp:576-599 | When the silence is a timeout, and what it resets; a clock that went back throws before anything changes. |
| SocketCanAdapter.Adapter.ComposeVehicleState | ros2_ws/src/control_link_adapters/src/socketcan_adapter.cpp:633-701 | The published state, fault code and measured values in every case, exceptions included. |
| LocalWatchdog.Watchdog.ObserveValidCommand | ros2_ws/src/control_link_adapters/src/local_watchdog.cpp:28-35 | The lease moves forward only; a receive time that goes back is refused and leaves it alone. |
| CanLinkSafety.InvKept | ros2_ws/src/control_link_adapters/src/socketcan_adapter.cpp:518-565 | Every step of either thread keeps the invariant of the link: counters in step, decision told by the history, pending frames built after the last taken flag. |
| CanLinkSafety.ReachableInv | ros2_ws/src/control_link_adapters/src/socketcan_transport.cpp:351-507 | So it holds in every state that any interleaving reaches. |
| CanLinkSafety.DecisionIsHistory | ros2_ws/src/control_link_adapters/src/socketcan_adapter.cpp:491-516 | The frame the adapter decides on is the one the history of accepted commands, clears and forced HOLDs calls for. |
| CanLinkTheorems.LosslessReceiver | ros2_ws/src/control_link_adapters/src/socketcan_transport.cpp:351-507 | Written counters are 0, 1, 2, ... modulo N whatever is retried or overridden; a lossless receiver sees one first value and then expected ones for ever. |
| CanLinkTheorems.LossyReceiver | ros2_ws/src/control_link_adapters/src/can_codec.cpp:405-427 | With fewer than N frames passing unseen on this link, expected means that none was skipped. |
| CanLinkTheorems.ConfirmationNeverThrows | ros2_ws/src/control_link_adapters/src/socketcan_adapter.cpp:547-565 | The exception on a counter that does not match is unreachable in every interleaving. |
| CanLinkTheorems.BuiltFrameDecided | ros2_ws/src/control_link_adapters/src/socketcan_adapter.cpp:491-516 | A built frame is ACTIVE exactly when no HOLD is owed and an accepted NORMAL command is in force with a live lease; it then carries that command's velocities, and is a zero HOLD otherwise. |
| CanLinkTheorems.NothingOlderThanTheFlag | ros2_ws/src/control_link_adapters/src/socketcan_transport.cpp:427-501 | Once the loop has taken the flag, no frame built before is written, neither a retry nor the one about to be sent. |
| CanLinkTheorems.OnlyHoldsAfterAClear | ros2_ws/src/control_link_adapters/src/socketcan_transport.cpp:427-501 | After a rejection, generation change or endpoint loss and the taking of the flag, only zero HOLDs are written until another command is accepted. |
| CanLinkTheorems.FirstFrameAfterDemandIsHold | ros2_ws/src/control_link_adapters/src/socketcan_adapter.cpp:567-574 | The first frame built after a forced HOLD is one, even if a command was accepted in between. |
| CanLinkDemands.HoldDemandedBeforeNextCommand | ros2_ws/src/control_link_adapters/src/socketcan_adapter.cpp:342-428 | Between the loss of a command and the next accepted one, a HOLD is forced and then the flag raised, whatever the I/O thread does. |
| CanLinkDemands.HoldBuiltBeforeActive | ros2_ws/src/control_link_adapters/src/socketcan_adapter.cpp:491-516 | After the loss of a command no ACTIVE frame is built before a HOLD was. |
| CanLinkTheorems.BuildFailsExactlyOutOfRange | ros2_ws/src/control_link_adapters/src/socketcan_adapter.cpp:518-537 | A frame cannot be built exactly when the velocities in force lie outside the CAN ranges; the clock is never the reason. |
| CanLinkTheorems.BuildNeverFails | ros2_ws/src/control_link_adapters/src/socketcan_adapter.cpp:518-537 | With ranges that cover the contract's limits the transmit handler never throws. |
| CanLinkTheorems.EveryWrittenFrameDecodes | ros2_ws/src/control_link_adapters/src/can_codec.cpp:331-363 | With range ends on the scale, the receiver's decoder accepts every frame on the bus, with its mode and its position as counter. |
| CanLinkRetry.BlockedFrameIsNext | ros2_ws/src/control_link_adapters/src/socketcan_transport.cpp:427-501 | Over any run: once the write of a frame would block, the next frame to join the bus is that very frame, unless the immediate flag is taken before; until then it is the one kept for the retry. |
| CanLinkEvents.PollTells | ros2_ws/src/control_link_adapters/src/socketcan_adapter.cpp:342-383 | Exactly which polls change the generation or lose the endpoint, and what each does to command, lease, reject reason and confirmed publisher. |
| CanLinkEvents.CommandTells | ros2_ws/src/control_link_adapters/src/socketcan_adapter.cpp:385-428 | A command that the guard passes is in force and renews the lease; one that it refuses is dropped with the one in force and its reason is kept. |
| CanLinkEvents.DemandTells | ros2_ws/src/control_link_adapters/src/socketcan_adapter.cpp:567-574 | Then the HOLD is forced and the flag raised, in this order and before the ROS thread does anything else. |
| SocketCanTransport.Transport.RunPass | ros2_ws/src/control_link_adapters/src/socketcan_transport.cpp:427-501 | One pass of the loop equals the steps of the interleaved model: a due pass resends the frame kept for a retry, a raised flag overrides it with a new one, and what the kernel answers decides what is kept and what joins the bus. |
| SocketCanTransport.Transport.RequestImmediateTransmit | ros2_ws/src/control_link_adapters/src/socketcan_transport.cpp:299-303 | Raises the flag, as the step of the ROS thread in the interleaved model. |
| SocketCanTransport.Transport.Run | ros2_ws/src/control_link_adapters/src/socketcan_transport.cpp:351-507 | The loop runs such passes until the first fatal error, which the adapter then knows of. |
| SocketCanTransport.Transport.TransmitFrame | ros2_ws/src/control_link_adapters/src/socketcan_transport.cpp:587-649 | Sent, retry or fatal for every outcome of the write, of the frame check and of the success handler. |
| SocketCanTransport.PassReaches | ros2_ws/src/control_link_adapters/src/socketcan_transport.cpp:427-501 | A pass that the other thread does not interrupt is a run of enabled steps. |
| SocketCanTransport.PassDecided | ros2_ws/src/control_link_adapters/src/socketcan_transport.cpp:427-501 | A due pass offers the frame kept for a retry to the kernel; a taken flag, or a due pass with nothing kept, a newly built one; and what the kernel answers decides what is kept and what joins the bus. |
| SocketCanTransport.RetryIsConfirmable | ros2_ws/src/control_link_adapters/src/socketcan_transport.cpp:427-501 | A frame kept for a retry is always one that the success handler will confirm. |
| CanFeedback.HealthyExactlyWhen | ros2_ws/src/control_link_adapters/src/socketcan_adapter.cpp:430-474 | The link is healthy exactly when some run of at least recovery_valid_frames accepted frames ended with no timeout or fatal error seen since. |
| CanFeedback.RecoveryIsOne | ros2_ws/src/control_link_adapters/src/socketcan_adapter.cpp:430-474 | What is counted are accepted frames with consecutive counters and no rejection, timeout or fatal error between them. |
| CanFeedback.RecoveryIsLongest | ros2_ws/src/control_link_adapters/src/socketcan_adapter.cpp:430-474 | And it is the longest such run, so recovery is neither early nor late. |
| CanFeedback.FatalForGood | ros2_ws/src/control_link_adapters/src/socketcan_adapter.cpp:633-701 | After a fatal I/O error every composed state is a safe stop with the CAN I/O fault. |
| CanFeedback.OperationalOnlyWhenRecovered | ros2_ws/src/control_link_adapters/src/socketcan_adapter.cpp:633-701 | Anything but a safe stop needs a recovered link with no fatal error behind it, and a live command when no fault is shown. |
| CanFeedback.FaultThrowsExactly | ros2_ws/src/control_link_adapters/src/socketcan_adapter.cpp:601-631 | The exact condition under which composing the fault code throws. |
| FeedbackLaws.KeepsLastAccepted | ros2_ws/src/control_link_adapters/src/socketcan_adapter.cpp:430-474 | After any history the state that is kept has the signals and the receive time of the last accepted frame. |
| FeedbackLaws.KeepsIfAccepted | ros2_ws/src/control_link_adapters/src/socketcan_adapter.cpp:430-474 | And there is one exactly when a frame was accepted. |
| FeedbackLaws.AcceptedExactly | ros2_ws/src/control_link_adapters/src/socketcan_adapter.cpp:430-474 | A frame is accepted exactly when it decodes, its counter is in range, and it follows the counter of the last accepted frame unless a fatal error, a timeout or another counter made the adapter forget that. |
| FeedbackLaws.DroppedExactly | ros2_ws/src/control_link_adapters/src/socketcan_adapter.cpp:476-599 | The link is taken down exactly by a fatal error and by a check at which nothing was accepted for the timeout, counted from the last accepted frame or from the start; a recovery is also interrupted by every refused frame. |
| FeedbackLaws.PublishedIs | ros2_ws/src/control_link_adapters/src/socketcan_adapter.cpp:633-701 | What is published after any history with an accepted frame: state, fault and measured values, as the last accepted frame, the errors, the recovery and the canonical fault decide. |
| FeedbackLaws.PublishedBefore | ros2_ws/src/control_link_adapters/src/socketcan_adapter.cpp:633-701 | And before the first accepted frame: a safe stop with zeros. |
| FeedbackLaws.CanonicalFaultIs | ros2_ws/src/control_link_adapters/src/socketcan_adapter.cpp:601-631 | Exactly when the command is in force, timed out, refused or of an ambiguous source. |
| FeedbackLaws.FramesCounted | ros2_ws/src/control_link_adapters/src/socketcan_adapter.cpp:430-474 | Every received frame is counted once, as accepted or as rejected. |
| CanLinkLease.FaultThrowsInRuns | ros2_ws/src/control_link_adapters/src/socketcan_adapter.cpp:601-631 | In any interleaving it throws exactly when the endpoint is confirmed and the lease still runs of an accepted command that was dropped since for the endpoint, with no new generation. |
| CanLinkLease.LeaseOutlivesCommand | ros2_ws/src/control_link_adapters/src/socketcan_adapter.cpp:625-629 | A reachable run that does so: a command is accepted, one poll finds the endpoint unstable and the next one confirms the same publisher again; composing then throws until the lease ends. |
| CanonicalEndpointTracker.Tracker.Observe | ros2_ws/src/control_link_adapters/src/canonical_endpoint_tracker.cpp:125-175 | An observation in time order is appended to the history, a late one is refused, and the answer is the current snapshot. |
| CanonicalEndpointTracker.SameIsEqual | ros2_ws/src/control_link_adapters/src/canonical_endpoint_tracker.cpp:93-123 | Comparing assessments field by field is equality. |
| CanonicalEndpointTracker.TrackerReports | ros2_ws/src/control_link_adapters/src/canonical_endpoint_tracker.cpp:177-196 | The answer is the newest assessment while that is stable and unstable otherwise, so Confirmed(k) means the last poll saw exactly k and k is stable. |
| GraphLaws.AssessedExactly | ros2_ws/src/control_link_adapters/src/canonical_endpoint_tracker.cpp:57-91 | A publisher is confirmed exactly when it is the only one and of the expected type, with its name and GID; several are ambiguous. |
| GraphLaws.FqnIs | ros2_ws/src/control_link_adapters/src/canonical_endpoint_tracker.cpp:20-34 | The full name of an endpoint's node: the namespace with one slash at its end, and the name. |
| Debouncer.StableValueDecided | ros2_ws/src/control_link_adapters/src/canonical_endpoint_tracker.cpp:125-175 | After any time-ordered history the stable value is that of the latest block of equal observations spanning the window, or none if there is no such block. |
| Debouncer.SettledExactly | ros2_ws/src/control_link_adapters/src/canonical_endpoint_tracker.cpp:177-196 | Nothing is pending exactly when the newest observation is the stable value. |
| GraphLaws.ChangeTells | ros2_ws/src/control_link_gateway/src/critical_endpoint_monitor.cpp:180-257 | What each reported change says about the stable value before and after it. |
| CriticalEndpointMonitor.AssessIdentity | ros2_ws/src/control_link_gateway/src/critical_endpoint_monitor.cpp:105-134 | Matching endpoints, both counts and both verdicts of the role check. |
| CriticalEndpointMonitor.AssessQos | ros2_ws/src/control_link_gateway/src/critical_endpoint_monitor.cpp:136-178 | The three QoS verdicts hold for all matching endpoints, and for none when nobody matches. |
| CriticalEndpointMonitor.SortedComparisonIsMultiset | ros2_ws/src/control_link_gateway/src/critical_endpoint_monitor.cpp:16-40 | Comparing sorted GIDs is equality of multisets, whatever order the graph lists them in. |
| CriticalEndpointMonitor.SameStateIsSameKey | ros2_ws/src/control_link_gateway/src/critical_endpoint_monitor.cpp:42-57 | Sameness of assessments is equality of keys, hence an equivalence. |
| CriticalEndpointMonitor.StabilityTracker.Update | ros2_ws/src/control_link_gateway/src/critical_endpoint_monitor.cpp:180-256 | The tracker is the same debouncer over keys; its event is the debouncer's and the newest details of a stable assessment are kept. |
| CriticalEndpointMonitor.StableVerdict | ros2_ws/src/control_link_gateway/src/critical_endpoint_monitor.cpp:180-256 | The stable assessment is that of the latest block of equivalent ones that spans the window. |
| GraphLaws.MatchingAre | ros2_ws/src/control_link_gateway/src/critical_endpoint_monitor.cpp:76-134 | The matching endpoints are exactly those with the expected kind, type and node, each as often as it is listed. |
| GraphLaws.SameExactly | ros2_ws/src/control_link_gateway/src/critical_endpoint_monitor.cpp:42-57 | Two assessments are the same exactly when every verdict, the number of endpoints and the multiset of their GIDs are; the same assessments are equally healthy. |
| Sorting.SortCanonical | ros2_ws/src/control_link_gateway/src/critical_endpoint_monitor.cpp:16-40 | Sorting by a key that tells elements apart gives equal lists exactly for equal multisets. |
| ControllerEndpointMonitor.Monitor.Observe | ros2_ws/src/control_link_adapters/src/controller_endpoint_monitor.cpp:74-176 | An observation in time order moves the monitor as the specification over the history says; a late one throws and changes nothing. |
| ControllerEndpointMonitor.HealthyIsEarned | ros2_ws/src/control_link_adapters/src/controller_endpoint_monitor.cpp:74-176 | Healthy(g) means g was seen alone over the window at a time since when it stayed stable, and was last seen alone within the state timeout. |
| ControllerEndpointMonitor.TimedOutMeansLost | ros2_ws/src/control_link_adapters/src/controller_endpoint_monitor.cpp:74-176 | TimedOut needs an earlier confirmation and a poll in which nobody plays the role. |
| ControllerEndpointMonitor.StableSeenIsHealthy | ros2_ws/src/control_link_adapters/src/controller_endpoint_monitor.cpp:74-176 | With g stable, Healthy(g) is reported exactly when g is seen alone or nobody is and the timeout has not passed. |
| GraphLaws.PolledExactly | ros2_ws/src/control_link_adapters/src/controller_endpoint_monitor.cpp:53-110 | A poll sees an endpoint alone exactly when one subscription has the expected node, type and a compatible QoS, several when more than one has, and otherwise tells whether somebody plays the role. |
| MonitorLaws.ReportedExactly | ros2_ws/src/control_link_adapters/src/controller_endpoint_monitor.cpp:74-176 | What is reported after any history, in every case: the newest poll decides, with the stable endpoint, the window, the timeout and whether an endpoint was ever confirmed. |
| MonitorLaws.StableExactly | ros2_ws/src/control_link_adapters/src/controller_endpoint_monitor.cpp:88-176 | The stable endpoint ends exactly with a poll that finds its role played but not matched, with nobody for longer than the timeout, or with another endpoint seen alone over the window. |
| MonitorLaws.ConfirmedExactly | ros2_ws/src/control_link_adapters/src/controller_endpoint_monitor.cpp:128-176 | Some endpoint was confirmed exactly when one was seen alone over the window. |
| Messages.StampRoundTrip | ros2_ws/src/control_link_gateway/src/decision_engine.cpp:122-130 | Seconds and nanoseconds of a normalised stamp survive the conversion to one number and back. |
| Messages.ExceedsIsComparison | ros2_ws/src/control_link_gateway/src/command_validator.cpp:58-68 | The overflow guard never changes the verdict on a representable duration. |
| CommandValidator.AcceptsExactly | ros2_ws/src/control_link_gateway/src/command_validator.cpp:124-200 | A sample is accepted exactly when every rule on identity, metadata, motion, time and sequence holds, and the snapshot repeats it. |
| CommandValidator.RefusalsAreTrue | ros2_ws/src/control_link_gateway/src/command_validator.cpp:70-200 | Each reject reason states a rule that the sample really breaks. |
| CanonicalInputGuard.AcceptsExactly | ros2_ws/src/control_link_adapters/src/canonical_input_guard.cpp:270-328 | The guard accepts exactly the well-formed commands from the confirmed gateway that, when they move the vehicle, are in time. |
| CanonicalInputGuard.WellFormedRefusals | ros2_ws/src/control_link_adapters/src/canonical_input_guard.cpp:270-328 | A well-formed command is refused for endpoint or time reasons only, and a HOLD never for time. |
| CanonicalInputGuard.RefusalsAreTrue | ros2_ws/src/control_link_adapters/src/canonical_input_guard.cpp:29-328 | Each reject reason is true of the command or of its endpoint. |
| SourceRuntime.ConfirmKeeps | ros2_ws/src/control_link_gateway/src/source_binding.cpp:30-57 | Confirming a generation keeps the slot consistent; a new one clears sequence baseline and snapshot, the same one nothing. |
| SourceRuntime.CommitKeeps | ros2_ws/src/control_link_gateway/src/source_runtime.cpp:8-55 | A validated snapshot can be committed exactly when generation and sequence allow it; it is then the latest one and the new baseline. |
| SourceRuntime.CollectLatestValidSnapshots | ros2_ws/src/control_link_gateway/src/source_runtime.cpp:57-118 | Throws exactly when some slot is inconsistent and otherwise returns the snapshots that slots hold, in key order. |
| SourceRuntime.CollectedAre | ros2_ws/src/control_link_gateway/src/source_runtime.cpp:57-118 | What is collected is what some slot holds, no more and no less. |
| SourceArbiter.Arbiter.CollectQualifiedCandidates | ros2_ws/src/control_link_gateway/src/source_arbiter.cpp:136-185 | The qualified candidates, sorted; throws exactly on an implausible snapshot. |
| SourceArbiter.Arbiter.EvaluateTick | ros2_ws/src/control_link_gateway/src/source_arbiter.cpp:252-345 | The decision and the new arbiter state, which `ArbiterLaws.DecisionExactly` gives case by case; an exception leaves the state alone. |
| SourceArbiter.KeyOrders | ros2_ws/src/control_link_gateway/src/source_arbiter.cpp:114-134 | The comparison of candidates is a lexicographic order. |
| SourceArbiter.SelectionQualified | ros2_ws/src/control_link_gateway/src/source_arbiter.cpp:252-345 | What is followed is a fresh, leased snapshot of this tick, and something is followed exactly when there is one. |
| SourceArbiter.HoldBeforeSwitch | ros2_ws/src/control_link_gateway/src/source_arbiter.cpp:252-345 | A source that still qualifies is left only for one that was better for the hold; otherwise the best one is followed. |
| SourceArbiter.SwitchEarned | ros2_ws/src/control_link_gateway/src/source_arbiter.cpp:252-345 | Over any ticks, the source switched to was the best candidate at every tick of at least the hold. |
| SourceArbiter.BetterIsPrecedes | ros2_ws/src/control_link_gateway/src/source_arbiter.cpp:114-134 | The comparison of candidates prefers the higher priority, then the newer stamp, then the smaller id, whatever the time. |
| ArbiterLaws.CandidateExactly | ros2_ws/src/control_link_gateway/src/source_arbiter.cpp:44-80 | A candidate is a snapshot of a configured source with its priority, fresh by ROS time and leased by the steady clock, in nanoseconds. |
| ArbiterLaws.DecisionExactly | ros2_ws/src/control_link_gateway/src/source_arbiter.cpp:252-345 | With no active source or one that no longer qualifies, the candidate of highest priority, newest stamp and smallest id is followed at once; an active source that is it is kept; another is kept until that candidate has challenged it for the hold. |
| ArbiterLaws.NothingFollowed | ros2_ws/src/control_link_gateway/src/source_arbiter.cpp:267-276 | With nothing eligible nothing is followed and the past is forgotten. |
| ArbiterLaws.ThrowsOnly | ros2_ws/src/control_link_gateway/src/source_arbiter.cpp:65-105 | A tick throws on a snapshot that does not fit policy or clock, and otherwise only with the clock behind the start of a challenge. |
| GatewayStateMachine.StateMachine.EvaluateTick | ros2_ws/src/control_link_gateway/src/state_machine.cpp:327-349 | State, recovery count and decision after a tick. |
| GatewayStateMachine.ActiveIsHealthy | ros2_ws/src/control_link_gateway/src/state_machine.cpp:149-349 | ACTIVE implies a selection and every health condition, and ERROR is final. |
| GatewayStateMachine.ActivationNeedsEvidence | ros2_ws/src/control_link_gateway/src/state_machine.cpp:229-325 | Becoming active needs the required count of evidence for the selected candidate in the current epoch. |
| GatewayStateMachine.CountIsTail | ros2_ws/src/control_link_gateway/src/state_machine.cpp:229-325 | What is counted is the tail of accepted evidence after the last rejected one, up to the width of the counter. |
| StateMachineLaws.StateExactly | ros2_ws/src/control_link_gateway/src/state_machine.cpp:17-189 | Exactly when a tick ends in each of the six states, in terms of the health conditions, the selection, the arbitration event and the evidence. |
| StateMachineLaws.HealthyExactly | ros2_ws/src/control_link_gateway/src/state_machine.cpp:17-84 | The recovery health is exactly that no health condition keeps the gateway from being active. |
| StateMachineLaws.ReasonExactly | ros2_ws/src/control_link_gateway/src/state_machine.cpp:17-349 | The reason, the recovery count and the transition count of every decision: of several failing conditions the first in a fixed order. |
| StateMachineLaws.RouteReason | ros2_ws/src/control_link_gateway/src/state_machine.cpp:191-325 | What is counted in a recovery is there in the next tick, with its candidate and epoch. |
| EngineObject.Engine.ApplyLifecycleEvent | ros2_ws/src/control_link_gateway/src/decision_engine.cpp:285-337 | Configure, activate, deactivate, cleanup, shutdown and error: the new state or the exception. |
| EngineObject.Engine.ApplyHealthEvent | ros2_ws/src/control_link_gateway/src/decision_engine.cpp:339-397 | Binding of all slots, health, revision and epoch, or an exception that leaves everything as it was. |
| EngineObject.Engine.ApplySourceSample | ros2_ws/src/control_link_gateway/src/decision_engine.cpp:399-463 | Verdict, commit and recorded evidence of a sample, or an exception. |
| EngineObject.Engine.DescribeOutputTick | ros2_ws/src/control_link_gateway/src/decision_engine.cpp:250-268 | The interval of the next tick and when describing it throws. |
| EngineObject.Engine.ApplyOutputTick | ros2_ws/src/control_link_gateway/src/decision_engine.cpp:465-577 | The late count, the decision, the canonical command and the source statuses of a tick. |
| EngineObject.Engine.UpdateHealthEpoch | ros2_ws/src/control_link_gateway/src/decision_engine.cpp:593-609 | The epoch moves on, and pending evidence is dropped, exactly on a change of recovery health. |
| EngineObject.Engine.ResetActiveDecisionState | ros2_ws/src/control_link_gateway/src/decision_engine.cpp:579-591 | A fresh arbiter and state machine, no pending evidence and no late ticks. |
| EngineObject.Engine.ApplyEvent | ros2_ws/src/control_link_gateway/src/decision_engine.cpp:184-220 | The sequence check, the dispatch and the commit of the sequence for every event. |
| EngineInvariant.AllOrNothing | ros2_ws/src/control_link_gateway/src/decision_engine.cpp:184-220 | In every state of the invariant an event that is refused by an exception changes nothing, and the invariant is kept. |
| EngineInvariant.OnlyRefusalsThrow | ros2_ws/src/control_link_gateway/src/decision_engine.cpp:184-220 | An event throws exactly when it breaks a rule of its sender, or is a tick whose period or late threshold the contract makes unrepresentable; the internal logic errors are unreachable. |
| EngineInvariant.BindAllKeeps | ros2_ws/src/control_link_gateway/src/decision_engine.cpp:339-397 | Binding never throws in a reachable state and leaves each slot with a generation that matches its usable endpoint. |
| EngineInvariant.SampleCommits | ros2_ws/src/control_link_gateway/src/decision_engine.cpp:399-463 | A sample from the bound generation that passes the validator can always be committed. |
| EngineInvariant.SampleThrowsExactly | ros2_ws/src/control_link_gateway/src/decision_engine.cpp:399-463 | A sample throws only when the engine is not active, time goes back or the source is unknown: the generation mismatch is unreachable. |
| EngineInvariant.DecideKeeps | ros2_ws/src/control_link_gateway/src/decision_engine.cpp:505-577 | No exception is left in the second half of a tick, and the invariant holds after it. |
| EngineHistory.EveryHistoryRuns | ros2_ws/src/control_link_gateway/src/decision_engine.cpp:184-220 | Every list of events is the history of a run, so what is said of runs is said of all inputs. |
| EngineHistory.StatesKeepInv | ros2_ws/src/control_link_gateway/src/decision_engine.cpp:399-463 | In every reachable state a slot with a snapshot has a usable endpoint whose generation is that of the slot and of the snapshot. |
| EngineHistory.SequenceCountsSuccesses | ros2_ws/src/control_link_gateway/src/decision_engine.cpp:184-220 | n accepted events leave the sequence at n. |
| EngineHistory.SteadyOffsetMonotone | ros2_ws/src/control_link_gateway/src/decision_engine.cpp:611-623 | The steady offset never goes back over a run. |
| EngineHistory.RefusedChangesNothing | ros2_ws/src/control_link_gateway/src/decision_engine.cpp:184-220 | A refused event of a run leaves the whole state as it was, and broke a rule of its sender or is an unrepresentable tick. |
| EngineHistory.AcceptedSequencesIncrease | ros2_ws/src/control_link_gateway/src/command_validator.cpp:189-199 | While a source stays bound to one generation, across endpoint loss and return, accepted sequences strictly increase. |
| EngineHistory.SnapshotsCameFrom | ros2_ws/src/control_link_gateway/src/decision_engine.cpp:399-463 | A held snapshot came from an accepted sample of its source, and the slot holds it in every state since. |
| EngineOutput.CanonicalRepeatsSample | ros2_ws/src/control_link_gateway/src/decision_engine.cpp:132-158 | The canonical command of an active gateway is the accepted sample, field by field, stamp included. |
| EngineOutput.CanonicalIsHoldOrAccepted | ros2_ws/src/control_link_gateway/src/decision_engine.cpp:465-577 | Every canonical command of a run is a zero HOLD or the unchanged command of a sample accepted earlier from the bound generation, and is well-formed for the adapter. |
| EngineOutput.AdapterTakesCanonical | ros2_ws/src/control_link_adapters/src/canonical_input_guard.cpp:270-328 | The adapter refuses a canonical HOLD only for the endpoint and a NORMAL one only for endpoint or time. |
| EngineStatuses.TickReports | ros2_ws/src/control_link_gateway/src/decision_engine.cpp:545-574 | Every tick reports on each configured source in order: a valid command exactly when its slot holds one, a lease exactly when that is live; and a published command comes from a source reported as leased. |
| EngineStatuses.StatusesAreTold | ros2_ws/src/control_link_gateway/src/source_arbiter.cpp:205-231 | Age, lease and validity of each status are those of the snapshot in the slot of that source. |
| EngineEpochs.EpochCountsChanges | ros2_ws/src/control_link_gateway/src/decision_engine.cpp:593-609 | Over any mix of events the epoch is the number of changes of recovery health, up to its maximum. |
| EngineEpochs.HandedEvidenceIsCurrent | ros2_ws/src/control_link_gateway/src/decision_engine.cpp:505-527 | Evidence handed to the state machine carries the epoch passed with it and was recorded after the latest change of recovery health. |
| EngineTicks.LateCountIsTrailingRun | ros2_ws/src/control_link_gateway/src/decision_engine.cpp:465-503 | The late count is the length of the run of late intervals that ends the active period. |
| EngineTicks.LateRunStops | ros2_ws/src/control_link_gateway/src/decision_engine.cpp:465-577 | While that run is long enough every tick publishes a zero HOLD. |
| EngineRecovery.GoodSamplesAre | ros2_ws/src/control_link_gateway/src/decision_engine.cpp:399-463 | What counts towards recovery are accepted samples of one publisher with no rejection and no change of health after the first. |
| EngineRecovery.CountIsEarned | ros2_ws/src/control_link_gateway/src/state_machine.cpp:229-325 | The state machine never counts more than those samples. |
| EngineRecovery.ActivationIsEarned | ros2_ws/src/control_link_gateway/src/decision_engine.cpp:505-577 | A gateway that becomes active has such samples in at least the required number, from the publisher, id and generation, whose snapshot it publishes. |
| EngineLaws.TransitionTaken | ros2_ws/src/control_link_gateway/src/decision_engine.cpp:285-337 | What each lifecycle transition does: activation starts with a fresh arbiter and state machine, the end of an active period drops evidence and last tick, and none touches the sources. |
| EngineLaws.FlagsExactly | ros2_ws/src/control_link_gateway/src/decision_engine.cpp:285-337 | Over any history the engine is active exactly when its last activation was not ended, and configured exactly when its last configuration was not. |
| EngineLaws.HealthTaken | ros2_ws/src/control_link_gateway/src/decision_engine.cpp:339-397 | A health event replaces the health snapshot and its revision. |
| EngineLaws.HealthBinds | ros2_ws/src/control_link_gateway/src/decision_engine.cpp:377-392 | A source whose publisher stays keeps its slot, a new publisher starts with an empty one, and without a usable endpoint the snapshot goes but publisher and sequence stay. |
| EngineLaws.SampleTaken | ros2_ws/src/control_link_gateway/src/decision_engine.cpp:399-463 | A sample is accepted exactly when it comes from the bound publisher and is admissible by rules, policy and clock; it then becomes the slot's snapshot, and otherwise only counts; either leaves its evidence. |
| EngineLaws.TickCounted | ros2_ws/src/control_link_gateway/src/decision_engine.cpp:486-513 | A tick counts late intervals in a row, and its verdict is the only change of the health snapshot. |
| EngineLaws.LateRunDecides | ros2_ws/src/control_link_gateway/src/decision_engine.cpp:486-512 | Over any history the output is healthy after a tick exactly when the run of late intervals that ends the active period is shorter than the threshold. |
| EngineLaws.TickDecides | ros2_ws/src/control_link_gateway/src/decision_engine.cpp:514-527 | The arbiter is given the snapshots in the slots, and the state machine that health, the arbiter's choice and the pending evidence. |
| EngineLaws.TickAnswers | ros2_ws/src/control_link_gateway/src/decision_engine.cpp:132-157 | The report repeats the decision; a HOLD names the selected source, its sequence and its stamp, or nobody, and an active command repeats the selected one. |
| EngineLaws.PendingIsGathered | ros2_ws/src/control_link_gateway/src/decision_engine.cpp:399-527 | The pending evidence is that of every judged sample since the last tick, change of health or end of an active period, in order. |
| CanonicalText.CanonicalWriter.String | ros2_ws/src/control_link_contract/src/config_identity.cpp:28-78 | Appends one line with name, length and text, and nothing else. |
| CanonicalText.CanonicalWriter.UnsignedInteger | ros2_ws/src/control_link_contract/src/config_identity.cpp:28-78 | Appends one line with the number in decimal. |
| CanonicalText.CanonicalWriter.Boolean | ros2_ws/src/control_link_contract/src/config_identity.cpp:28-78 | Appends one line with true or false. |
| CanonicalText.CanonicalWriter.FloatingPoint | ros2_ws/src/control_link_contract/src/config_identity.cpp:28-78 | Appends the 64-bit pattern in hexadecimal, negative zero as zero. |
| CanonicalText.ReadStrBack | ros2_ws/src/control_link_contract/src/config_identity.cpp:28-78 | A printed text line reads back as its value whatever the value contains and whatever follows. |
| CanonicalText.BitsRoundTrip | ros2_ws/src/control_link_contract/src/config_identity.cpp:28-78 | The sixteen hexadecimal digits of a double read back as its bits, up to the sign of zero. |
| CanonicalText.SameShapeCancels | ros2_ws/src/control_link_contract/src/config_identity.cpp:28-78 | Texts that begin with lines of the same fields agree on those lines and on the rest. |
| CanonicalText.ReadFieldsBack | ros2_ws/src/control_link_contract/src/config_identity.cpp:190-200 | Records with optional fields behind presence flags read back. |
| CanonicalText.ReadRecordsBack | ros2_ws/src/control_link_contract/src/config_identity.cpp:466-570 | Counted lists of records read back. |
| CanonicalText.PrintedNumbers | ros2_ws/src/control_link_contract/src/config_identity.cpp:28-78 | Numbers are written most significant digit first, in hexadecimal with leading zeros. |
| CanonicalText.PrintedLines | ros2_ws/src/control_link_contract/src/config_identity.cpp:28-78 | One line of each kind, character by character. |
| ContractText.SerializeQos | ros2_ws/src/control_link_contract/src/config_identity.cpp:202-224 | The lines of a QoS profile; a keep_all depth is not among them. |
| ContractText.SerializeEndpoints | ros2_ws/src/control_link_contract/src/config_identity.cpp:466-570 | The endpoints, sorted by id, behind their count. |
| ContractText.CanonicalSerializeGatewayContract | ros2_ws/src/control_link_contract/src/config_identity.cpp:466-570 | The text of a contract. |
| ContractParser.ParseBack | ros2_ws/src/control_link_contract/src/config_identity.cpp:466-570 | An inverse parser gives back every printed contract, normalised. |
| ContractParser.TextIsBehaviour | ros2_ws/src/control_link_contract/src/config_identity.cpp:466-570 | Two contracts print the same text exactly when they are equal after normalisation. |
| ContractParser.EndpointOrderIsIrrelevant | ros2_ws/src/control_link_contract/src/config_identity.cpp:466-570 | With unique ids, of contracts that agree otherwise the texts agree exactly when the endpoints do as a multiset. |
| DecisionWriter.CanonicalSerializeEffectiveSourcePolicy | ros2_ws/src/control_link_contract/src/config_identity.cpp:609-617 | The text of the effective source policy: the entries of the enabled sources only. |
| DecisionWriter.CanonicalSerializeProfileBehavior | ros2_ws/src/control_link_contract/src/config_identity.cpp:619-625 | The text of a profile's behaviour, robot or ADAS. |
| DecisionWriter.CanonicalSerializeCanSignalMapBehavior | ros2_ws/src/control_link_contract/src/config_identity.cpp:627-634 | The text of a CAN map. |
| DecisionWriter.CanonicalSerializeDecisionConfig | ros2_ws/src/control_link_contract/src/config_identity.cpp:572-607 | The text of the whole decision configuration, and that a missing or superfluous CAN map throws. |
| DecisionText.SourcePolicyTextAgrees | ros2_ws/src/control_link_contract/src/config_identity.cpp:301-331 | Two effective source policies print alike exactly when their lines are the same. |
| DecisionText.ProfileTextAgrees | ros2_ws/src/control_link_contract/src/config_identity.cpp:333-464 | The same for profile behaviours; the kind of profile is told by the text. |
| DecisionText.CanTextAgrees | ros2_ws/src/control_link_contract/src/config_identity.cpp:262-299 | The same for CAN maps. |
| DecisionText.WholeIsTexts | ros2_ws/src/control_link_contract/src/config_identity.cpp:572-634 | The decision text is equal exactly when the gateway, source-policy, profile and CAN texts are all equal. |
| DecisionBehaviour.PolicyTextIsBehaviour | ros2_ws/src/control_link_contract/src/config_identity.cpp:301-331 | Two effective source policies print alike exactly when schema version and the enabled sources' entries, by id, are equal. |
| DecisionBehaviour.ProfileTextIsBehaviour | ros2_ws/src/control_link_contract/src/config_identity.cpp:333-464 | Two profiles print alike exactly when they are equal up to the order of the enabled sources and the sign of zero. |
| DecisionBehaviour.CanTextIsBehaviour | ros2_ws/src/control_link_contract/src/config_identity.cpp:262-299 | Two CAN maps print alike exactly when they are equal up to the sign of zero. |
| DecisionBehaviour.DecisionTextIsBehaviour | ros2_ws/src/control_link_contract/src/config_identity.cpp:572-607 | The decision text is decodable: equal exactly when contracts, effective policies, profiles and CAN maps are, after normalisation. |
| Reconfiguration.DiffContractBundles | ros2_ws/src/control_link_contract/src/reconfiguration.cpp:112-228 | The diff of two bundles, or the error for an incomplete one. |
| Reconfiguration.ComponentsListed | ros2_ws/src/control_link_contract/src/reconfiguration.cpp:51-61 | A name is among the changed components exactly when that component changed. |
| DiffLaws.ListedExactly | ros2_ws/src/control_link_contract/src/reconfiguration.cpp:112-164 | A component is listed exactly when its part of the two configurations differs, once and in a fixed order; the metadata differ exactly when contract id or version do. |
| DiffLaws.NamedExactly | ros2_ws/src/control_link_contract/src/reconfiguration.cpp:136-164 | By the six names of the report. |
| DiffLaws.ReasonExactly | ros2_ws/src/control_link_contract/src/reconfiguration.cpp:166-227 | The classification and its reason, in terms of the identities, the texts and the hashes: the first that applies. |
| DiffLaws.RefusedExactly | ros2_ws/src/control_link_contract/src/reconfiguration.cpp:230-260 | Why a plan is not made: a missing or incomplete bundle, no expected hash, or a stale one. |
| Reconfiguration.BuildReconfigurationPlan | ros2_ws/src/control_link_contract/src/reconfiguration.cpp:230-260 | The refusal of the request, the refusal of the comparison or the plan, as the laws below describe them. |
| Reconfiguration.RequestTakenExactly | ros2_ws/src/control_link_contract/src/reconfiguration.cpp:230-254 | A request is taken exactly when both bundles are there and the first is the expected one. |
| Reconfiguration.PlanMadeExactly | ros2_ws/src/control_link_contract/src/reconfiguration.cpp:230-260 | A plan is made exactly for a request that is taken, of two complete bundles. |
| Reconfiguration.PlanIsOfBundles | ros2_ws/src/control_link_contract/src/reconfiguration.cpp:256-260 | A plan is of the two bundles it was asked for, with their diff. |
| Reconfiguration.NoUnclassifiedChange | ros2_ws/src/control_link_contract/src/reconfiguration.cpp:197-208 | With a collision-free digest the branch for an unclassified change is unreachable, and the decision hash differs exactly when some component does. |
| Reconfiguration.CompatibleExactly | ros2_ws/src/control_link_contract/src/reconfiguration.cpp:112-228 | What compatible, restart and identity-only amount to, in terms of texts and versions. |
| Reconfiguration.HopsCompose | ros2_ws/src/control_link_contract/src/reconfiguration.cpp:112-228 | Compatible hops compose, and so do hops without a restart. |
| Reconfiguration.ChainsCompose | ros2_ws/src/control_link_contract/src/reconfiguration.cpp:112-228 | The same over any chain, along which versions never decrease. |
| Reconfiguration.LoadedChain | ros2_ws/src/control_link_contract/src/reconfiguration.cpp:112-228 | Bundles loaded with one collision-free digest form such a chain. |
| Reconfiguration.Reflexive | ros2_ws/src/control_link_contract/src/reconfiguration.cpp:112-228 | A bundle is compatible with itself, without change. |
| Reconfiguration.TwoWayMeansSameContract | ros2_ws/src/control_link_contract/src/reconfiguration.cpp:112-228 | Bundles compatible in both directions have identical contract text and version. |
| ReconfigurationBackend.Backend.CleanupPartialCandidate | ros2_ws/src/control_link_bringup/tools/reconfigure_gateway.cpp:884-909 | Takes an active or inactive gateway down to unconfigured and refuses any state that is not primary. |
| ReconfigurationBackend.Backend.DeactivateCurrentGateway | ros2_ws/src/control_link_bringup/tools/reconfigure_gateway.cpp:822-831 | Needs an active gateway, or fails in whatever state the failure leaves. |
| ReconfigurationBackend.Backend.Configure | ros2_ws/src/control_link_bringup/tools/reconfigure_gateway.cpp:846-853 | Needs an unconfigured gateway, whose report is then the new configuration's. |
| ReconfigurationBackend.Backend.Restore | ros2_ws/src/control_link_bringup/tools/reconfigure_gateway.cpp:911-916 | Sets the previous parameters with the trace path of the rollback. |
| ReconfigurationTransaction.Transaction.Run | ros2_ws/src/control_link_bringup/src/reconfiguration_transaction.cpp:17-53 | Each step is recorded with its success, whether or not it throws. |
| ReconfigurationTransaction.Transaction.ExecuteReconfiguration | ros2_ws/src/control_link_bringup/src/reconfiguration_transaction.cpp:121-318 | Result, log and backend calls of the transaction, for every answer of the backend, as the laws of `ReconfigurationLaws` write them out. |
| ReconfigurationTransaction.LogIsPrefix | ros2_ws/src/control_link_bringup/src/reconfiguration_transaction.cpp:121-318 | The log is the precheck, a prefix of the forward path and, after a failure, a prefix of the rollback path. |
| ReconfigurationTransaction.StatusTellsCalls | ros2_ws/src/control_link_bringup/src/reconfiguration_transaction.cpp:121-318 | Committed, no-op and rejected each determine exactly the backend calls that were made. |
| ReconfigurationTransaction.CommittedRunsCandidate | ros2_ws/src/control_link_bringup/src/reconfiguration_transaction.cpp:121-318 | A forward path without failure ends active on the candidate's parameters with the requested hash. |
| ReconfigurationTransaction.RolledBackRunsPrevious | ros2_ws/src/control_link_bringup/src/reconfiguration_transaction.cpp:121-318 | A rollback without failure ends active on the previous parameters with the old hash. |
| ReconfigurationTransaction.RollbackExactly | ros2_ws/src/control_link_bringup/src/reconfiguration_transaction.cpp:121-318 | Without failing calls the rollback succeeds from exactly the primary states and otherwise stops at the cleanup. |
| ReconfigurationTransaction.SingleFaultRecovery | ros2_ws/src/control_link_bringup/src/reconfiguration_transaction.cpp:121-318 | After one failing forward step the run ends rolled back, active on the previous parameters, exactly when the failure leaves a primary state. |
| ReconfigurationTransaction.StatusIsTrue | ros2_ws/src/control_link_bringup/src/reconfiguration_transaction.cpp:121-318 | In every run, whatever failed, the status is true of the gateway, and the final hash is the one it reports, or empty where it could not be read. |
| ReconfigurationTransaction.PlansNameBundles | ros2_ws/src/control_link_bringup/src/reconfiguration_transaction.cpp:121-134 | A built plan names the identities of its own two bundles. |
| ReconfigurationTransaction.PlanIsCarriedOut | ros2_ws/src/control_link_bringup/tools/reconfigure_gateway.cpp:1057-1085 | A plan that is carried out leaves the gateway on the hash and the parameters of one of its bundles; an incompatible one, or one that needs a profile restart, is rejected without a call. |
| ReconfigurationTransaction.PlanRecovers | ros2_ws/src/control_link_bringup/src/reconfiguration_transaction.cpp:121-318 | Such a plan recovers from a single fault that leaves a primary state: the gateway is active again on the previous parameters and the hash of the plan's first bundle. |
| ReconfigurationLaws.CommittedInFull | ros2_ws/src/control_link_bringup/src/reconfiguration_transaction.cpp:143-239 | A run that reports Committed went through the eight steps, named in order, and made ten calls, the hash reads in their places and the commit last, none of which failed. |
| ReconfigurationLaws.CommitsExactly | ros2_ws/src/control_link_bringup/src/reconfiguration_transaction.cpp:136-239 | A run commits exactly when the request is one to carry out, the gateway is active on the expected hash, the requested hash is verified and none of the ten calls fails; and exactly when it is a no-op or rejected. |
| ReconfigurationLaws.RolledBackInFull | ros2_ws/src/control_link_bringup/src/reconfiguration_transaction.cpp:186-318 | A run that was rolled back went through the forward steps up to the failing one and the five rollback steps, named in order, with seven calls at its end; one that failed to went up to the failing one of these and read the hash. |
| ReconfigurationLaws.RollsBackExactly | ros2_ws/src/control_link_bringup/src/reconfiguration_transaction.cpp:252-296 | After a failing forward step the run is rolled back exactly when a primary state was left, the old hash is verified and none of the seven calls fails. |
| VehicleSimulator.Simulator.HandleControlFrame | ros2_ws/src/control_link_bringup/tools/vcan_vehicle_simulator.cpp:166-206 | What a control frame does to targets, mode, lease and counters, an exception included. |
| VehicleSimulator.Simulator.UpdateModelTo | ros2_ws/src/control_link_bringup/tools/vcan_vehicle_simulator.cpp:272-306 | The governed targets and the first-order step of the model. |
| VehicleSimulator.Simulator.MakePeriodicStateFrame | ros2_ws/src/control_link_bringup/tools/vcan_vehicle_simulator.cpp:218-251 | The frame, the dropped frame or the exception, with the updated state. |
| VehicleSimulator.Simulator.ConfirmStateFrameTransmitted | ros2_ws/src/control_link_bringup/tools/vcan_vehicle_simulator.cpp:253-270 | The state counter advances exactly when the written frame carried it, and never when it is frozen. |
| VehicleSimulator.Between | ros2_ws/src/control_link_bringup/tools/vcan_vehicle_simulator.cpp:272-306 | A first-order step ends between the old value and the target. |
| VehicleSimulator.InRangeEncodes | ros2_ws/src/control_link_bringup/tools/vcan_vehicle_simulator.cpp:218-251 | A state in range always encodes. |
| VehicleSimulator.RestEncodesExactly | ros2_ws/src/control_link_bringup/tools/vcan_vehicle_simulator.cpp:218-251 | A resting vehicle encodes exactly when both ranges contain zero. |
| VehicleSimulator.FirstFrameThrowsExactly | ros2_ws/src/control_link_bringup/tools/vcan_vehicle_simulator.cpp:218-251 | So the first state frame throws exactly when frames are not dropped and zero is not in both ranges. |
| VehicleSimulator.SimulatorNeverThrows | ros2_ws/src/control_link_bringup/tools/vcan_vehicle_simulator.cpp:166-306 | With zero in both ranges, no received frame, injected fault, error or period makes the simulator throw. |
| VehicleSimulator.RunsStayInRange | ros2_ws/src/control_link_bringup/tools/vcan_vehicle_simulator.cpp:166-306 | With zero in both ranges, over any run measured and target values stay in them and both counters below the modulo. |
| SimulatorLaws.ControlFollowed | ros2_ws/src/control_link_bringup/tools/vcan_vehicle_simulator.cpp:166-206 | A control frame that decodes and follows the one before sets the course and renews the lease, ACTIVE with its velocities and HOLD with a standstill; every other one only counts as rejected. |
| SimulatorLaws.ModelMoves | ros2_ws/src/control_link_bringup/tools/vcan_vehicle_simulator.cpp:272-306 | With a fatal error or without a live lease the vehicle makes for a standstill in a safe stop; and the way that is left shrinks by the decay. |
| SimulatorLaws.FrameShows | ros2_ws/src/control_link_bringup/tools/vcan_vehicle_simulator.cpp:218-251 | A state frame shows mode, measured values, fault code and both counters byte by byte, and one with an injected checksum error is refused for its checksum. |
| SimulatorLaws.SilenceStops | ros2_ws/src/control_link_bringup/tools/vcan_vehicle_simulator.cpp:166-306 | Over any run: without an accepted control frame for longer than the timeout the vehicle is in a safe stop, whatever else arrives. |
| SimulatorLaws.CounterCounts | ros2_ws/src/control_link_bringup/tools/vcan_vehicle_simulator.cpp:253-270 | The state counter is the number of frames sent while it was not frozen, modulo N. |

## Left out

- IEEE arithmetic: signal values are real numbers or not finite, so rounding and NaN payloads are not modelled; doubles in the configuration are their 64-bit patterns.
- exp in the simulator: the decay factor is an input between 0 and 1.
- SHA-256: a parameter that is assumed to be injective where a lemma says so; file content is not read.
- Characters stand for bytes; std::map is a list of entries in key order, and the engine's slots and endpoints are maps of values, so references into them (aliasing) are not modelled.
- Counters that only grow (statistics, accepted and rejected counts, the transition sequence) have no upper bound here; the exhaustion of the event sequence, the health epoch, the late count and the recovery count is modelled.
- The I/O loop's poll, eventfd, EINTR and stop handling: the deadline is an input (`due`), a failing poll or read is one step to the fatal error, a stop one step to the end; frames received by the loop are the history of `CanFeedback`, not steps of `CanLink`.
- SocketCanTransport.Transport.RunPass: the object runs a pass without interruption; interleaving with the ROS thread inside a pass is what `CanLink` adds, on values.
- The ROS executor is single-threaded, as the adapter's main program makes it: one ROS thread and one I/O thread.
- SocketCanAdapter.Adapter.ComposeVehicleState: the stamp of the published message, and that nothing is published while the ROS time is not positive, are not modelled; fault codes are names, not numbers.
- Not claimed: that an ACTIVE frame is within its lease when it is written, because a retained retry frame may outlive it.
- Not claimed: that the last-known-good file is unchanged after a failed commit, because a directory sync may fail after the rename; the file is not part of the model.
- ReconfigurationBackend.Backend.Configure: remote calls fail as one operation, in any state, and not primitive by primitive; retries inside an operation and its timeouts are not modelled.
- Verification of a configuration returns only once the reported hash is the expected one; the FastDDS hash and the graph conditions it also waits for are not modelled.
- ReconfigurationTransaction.Transaction.ExecuteReconfiguration: durations, exception texts, the JSON of the result and the changed components it lists are not modelled; the calls of each try block are driven as a loop over the path.
- Comparing the QoS of two endpoints is an input: each endpoint comes with the three verdicts.
- YAML parsing, error texts, launch files, ROS nodes, publishers and diagnostics, the verification and measurement tools, the decision trace and its replay, and the vehicle state validator: input, output and orchestration.
- Constructor checks that refuse an invalid configuration are preconditions of the model's constructors.
- Invalid enumeration values (a mode outside its enumeration) cannot be expressed, so the encoder's refusal of them is not modelled.
