# AudioNetwork receive state machine manager and transmit symbol queue

This project models two parts of AudioNetwork, a library that sends data through sound.

**The per-channel receive state machine manager** of the OFDM physical layer (module `RxStateMachineManager`).
- One manager per channel keeps the channel's calibration scalars, power histories, phase history, symbol buffer and packet buffer.
- `receive` is called once per tick with the demodulated carrier detail.
- A state-machine driver then runs one handler for the current state:
  - IDLE_INIT calibrates the noise level and sets the first power threshold.
  - SIGNAL_INIT calibrates the signal level and sets the refined threshold.
  - SYMBOL and GUARD buffer samples and move the strongest sample of every symbol into the packet.
  - SYNC records phase.
  - IDLE turns the packet into PSK symbol indices, hands it to the packet handler, and corrects the carrier frequency drift measured over the phase history.
- The model has two layers:
  - Pure step functions over a `ChannelContext` record say what each handler does to the channel. The lemmas are stated over them.
  - The class `RxStateMachineManager` keeps the same state in fields that its methods update in place. Every handler method is proved to produce exactly its step function's result.
- The source keeps every scalar and list in its own field. The model groups them by role into three record-valued fields, `config`, `power` and `history`, which the methods reassign component by component.

**The transmit symbol queue** of the physical layer (module `PhysicalLayer`).
- The symbol range follows from the sample rate.
- `txSymbol` and `txSync` queue symbols, with GAP placeholders around them.
- The timer's transmit step takes one symbol off the queue per symbol block.
- A received symbol is decoded back into a correlation code value.

`Wrappers` holds `Option`, which stands for JavaScript's `null`. `Stats` specifies the averaging, minimum and maximum helpers the manager calls; their own source is not part of this model.

Conventions:
- Power and phase are `real`.
- `Math.round(x)` is `Floor(x + 0.5)`.
- JavaScript's `%` keeps the sign of the dividend (`JsRemainder`).
- A `null` that the source compares or subtracts reads as 0:
  - an unset noise average (`NoiseFloor`);
  - unset collection times (initially 0.0);
  - an unset preamble flag (false);
  - an unset PSK size (0).

## Model

| member | source | states |
|---|---|---|
| Stats.MaxInArray | src/physial-layer/rx-state-machine-manager/rx-state-machine-manager.factory.js:208-211 | the maximum of the signal history is one of its samples and no sample exceeds it |
| Stats.MinInArray | src/physial-layer/rx-state-machine-manager/rx-state-machine-manager.factory.js:184-187 | the minimum of the guard history is one of its samples and no sample is below it |
| Stats.ComputeAverage | src/physial-layer/rx-state-machine-manager/rx-state-machine-manager.factory.js:105 | the mean times the number of samples is the sum of the samples |
| Stats.SumAbove | src/physial-layer/rx-state-machine-manager/rx-state-machine-manager.factory.js:138 | samples all above a floor sum to more than count times the floor |
| Stats.MeanAbove | src/physial-layer/rx-state-machine-manager/rx-state-machine-manager.factory.js:138 | the mean of samples all above a floor is above the floor |
| Stats.SumConstant | src/physial-layer/rx-state-machine-manager/rx-state-machine-manager.factory.js:105 | equal samples sum to count times their value |
| Stats.MeanOfConstant | src/physial-layer/rx-state-machine-manager/rx-state-machine-manager.factory.js:105 | the mean of equal samples is their value |
| RxStateMachineManager.Round | src/physial-layer/rx-state-machine-manager/rx-state-machine-manager.factory.js:256-257 | Math.round gives the integer r with r <= x + 0.5 < r + 1 |
| RxStateMachineManager.JsRemainder | src/physial-layer/rx-state-machine-manager/rx-state-machine-manager.factory.js:306 | `%` gives the dividend's sign and the magnitude abs(a) mod abs(n), so -5 % 3 is -2; for non-negative operands it is the mathematical remainder |
| RxStateMachineManager.IsPilotSignalPresent | src/physial-layer/rx-state-machine-manager/rx-state-machine-manager.factory.js:326-328 | the pilot is present iff its power is strictly above the threshold; a power equal to the threshold is absent |
| RxStateMachineManager.IsPacketSyncPreamble | src/physial-layer/rx-state-machine-manager/rx-state-machine-manager.factory.js:315-317 | the packet is the preamble iff the preamble is enabled and the packet holds exactly one entry |
| RxStateMachineManager.IsInputReallyConnected | src/physial-layer/rx-state-machine-manager/rx-state-machine-manager.factory.js:319-324 | the input counts as disconnected iff the pilot reads -99 and the noise and signal averages are not both set |
| RxStateMachineManager.SignalThreshold | src/physial-layer/rx-state-machine-manager/rx-state-machine-manager.factory.js:140-146 | the refined threshold is 0.7 S + 0.3 N, strictly between N and S when N < S |
| RxStateMachineManager.SignalThresholdBetween | src/physial-layer/rx-state-machine-manager/rx-state-machine-manager.factory.js:129-146 | a history strictly above the noise averages above the noise, and the refined threshold lies strictly between noise and signal average |
| RxStateMachineManager.PskIndex | src/physial-layer/rx-state-machine-manager/rx-state-machine-manager.factory.js:304-307 | the symbol index is round(phase * pskSize) % pskSize with JavaScript's remainder: its magnitude is abs(round(phase * pskSize)) mod abs(pskSize) and its sign that of the rounded value (negative phases give negative indices); for a non-negative phase it lies in [0, pskSize) |
| RxStateMachineManager.PskRow | src/physial-layer/rx-state-machine-manager/rx-state-machine-manager.factory.js:303-309 | one index per subcarrier, each the PSK index of that subcarrier's phase and smaller than the PSK size in magnitude |
| RxStateMachineManager.PreparedPacket | src/physial-layer/rx-state-machine-manager/rx-state-machine-manager.factory.js:292-313 | the packet has one row fewer when the preamble is enabled (the first entry is dropped); each row has one PSK index per subcarrier of the matching entry |
| RxStateMachineManager.DriftIndices | src/physial-layer/rx-state-machine-manager/rx-state-machine-manager.factory.js:256-259 | both drift positions (43% and 57%, the second clamped to the last entry) are inside the history, and the first is not after the second |
| RxStateMachineManager.DriftIndicesDistinct | src/physial-layer/rx-state-machine-manager/rx-state-machine-manager.factory.js:256-263 | the two drift positions differ exactly when the history length is not 1, 2, 4 or 6 |
| RxStateMachineManager.Drift | src/physial-layer/rx-state-machine-manager/rx-state-machine-manager.factory.js:266 | the drift times the time difference equals minus the phase difference; no phase change means no drift |
| RxStateMachineManager.CorrectedFrequency | src/physial-layer/rx-state-machine-manager/rx-state-machine-manager.factory.js:263-275 | with distinct drift positions and abs(drift) > 0.005 the frequency becomes frequency + drift, with drift = -(phase difference)/(time difference); in every other case it is kept |
| RxStateMachineManager.ShortHistoryNoCorrection | src/physial-layer/rx-state-machine-manager/rx-state-machine-manager.factory.js:256-263 | histories of length 1, 2, 4 or 6 never correct the frequency |
| RxStateMachineManager.LinearPhaseDrift | src/physial-layer/rx-state-machine-manager/rx-state-machine-manager.factory.js:263-275 | any linear phase ramp p0 - d * time (with abs(d) > 0.005) makes the correction add exactly d |
| RxStateMachineManager.StrongestIndexExists | src/physial-layer/rx-state-machine-manager/rx-state-machine-manager.factory.js:220-221 | a non-empty symbol buffer has an entry of maximal pilot power |
| RxStateMachineManager.PhaseCorrected | src/physial-layer/rx-state-machine-manager/rx-state-machine-manager.factory.js:284-289 | each subcarrier's entry of the phase table gains that subcarrier's phase; entries beyond the carrier detail are unchanged; the table keeps its length |
| RxStateMachineManager.ResetStep | src/physial-layer/rx-state-machine-manager/rx-state-machine-manager.factory.js:39-65 | reset clears all six calibration scalars (both sample sizes included), the four histories and both buffers, and sets the threshold to 0; settings and tables are kept; a restart is requested unless called from the constructor |
| RxStateMachineManager.ResetIdempotent | src/physial-layer/rx-state-machine-manager/rx-state-machine-manager.factory.js:39-65 | resetting twice equals resetting once |
| RxStateMachineManager.IdleInitStep | src/physial-layer/rx-state-machine-manager/rx-state-machine-manager.factory.js:95-111 | once the noise average exists the step returns FIRST_SYNC_WAIT and changes nothing; before the collection time it only appends the pilot power; afterwards it sets the noise average to the history's mean, empties the history and sets the threshold to mean + 10 |
| RxStateMachineManager.NoiseCalibrationOfConstantStream | src/physial-layer/rx-state-machine-manager/rx-state-machine-manager.factory.js:104-108 | a constant noise level N calibrates to average N and threshold N + 10 |
| RxStateMachineManager.SignalInitStep | src/physial-layer/rx-state-machine-manager/rx-state-machine-manager.factory.js:117-152 | IDLE is returned exactly when calibrated and the pilot is absent; FATAL_ERROR exactly when that does not apply and the pilot is at or below the noise; both exits change nothing. Otherwise, before the collection time the pilot power is appended to the signal history; after it, the first time, the signal average becomes the history's mean, the history is emptied and the threshold becomes SignalThreshold(mean, noise); later ticks keep both; the phase point is always appended, and samples in the signal history stay above the noise |
| RxStateMachineManager.SignalInitThresholdBetween | src/physial-layer/rx-state-machine-manager/rx-state-machine-manager.factory.js:129-146 | when SIGNAL_INIT computes the signal average, the new threshold lies strictly between the noise and that average |
| RxStateMachineManager.SignalCalibrationOfConstantStream | src/physial-layer/rx-state-machine-manager/rx-state-machine-manager.factory.js:136-146 | a constant signal level S calibrates to average S and threshold S - 0.3 (S - N) |
| RxStateMachineManager.IdleStep | src/physial-layer/rx-state-machine-manager/rx-state-machine-manager.factory.js:158-180 | a non-empty packet is emptied, and delivered once as the prepared packet only when a handler exists; the frequency is corrected from a non-empty phase history; phase and guard histories end empty; nothing else changes |
| RxStateMachineManager.SymbolStep | src/physial-layer/rx-state-machine-manager/rx-state-machine-manager.factory.js:182-197 | a non-empty guard history is consumed into its minimum and size; the tick is buffered and its pilot power appended to the signal history; nothing else changes |
| RxStateMachineManager.SyncStep | src/physial-layer/rx-state-machine-manager/rx-state-machine-manager.factory.js:199-202 | only the phase history changes: the time and phase of subcarrier 0 are appended |
| RxStateMachineManager.GuardStep | src/physial-layer/rx-state-machine-manager/rx-state-machine-manager.factory.js:204-232 | a non-empty signal history is consumed into its maximum and size; one guard power is appended; with buffered samples the chosen strongest sample's carrier detail is appended to the packet, the buffer is emptied, and the phase table is corrected exactly when the preamble packet now has length 1 |
| RxStateMachineManager.HandlersPreserveWellFormed | src/physial-layer/rx-state-machine-manager/rx-state-machine-manager.factory.js:95-236 | every handler keeps buffered samples, packet rows and the phase table at one entry per subcarrier |
| RxStateMachineManager.PacketOnlyClearedInIdle | src/physial-layer/rx-state-machine-manager/rx-state-machine-manager.factory.js:158-232 | every handler except IDLE keeps the packet as a prefix of its new packet |
| RxStateMachineManager.CalibrationSetAtMostOnce | src/physial-layer/rx-state-machine-manager/rx-state-machine-manager.factory.js:95-152 | no handler overwrites a set noise or signal average or, once both are set, the threshold; no handler changes settings or requests a restart |
| RxStateMachineManager.SymbolStepsBuffer | src/physial-layer/rx-state-machine-manager/rx-state-machine-manager.factory.js:182-197 | a run of SYMBOL ticks buffers exactly those ticks and leaves packet, settings and phase table alone |
| RxStateMachineManager.SymbolGuardCycle | src/physial-layer/rx-state-machine-manager/rx-state-machine-manager.factory.js:182-232 | SYMBOL ticks followed by GUARD append exactly one strongest sample to the packet and empty the buffer |
| RxStateMachineManager.RxStateMachineManager.constructor | src/physial-layer/rx-state-machine-manager/rx-state-machine-manager.factory.js:15-37 | a new manager has nothing configured, everything reset and no restart requested |
| RxStateMachineManager.RxStateMachineManager.Reset | src/physial-layer/rx-state-machine-manager/rx-state-machine-manager.factory.js:39-65 | the new state is ResetStep of the old one |
| RxStateMachineManager.RxStateMachineManager.SetSymbolStateMaxDurationTime | src/physial-layer/rx-state-machine-manager/rx-state-machine-manager.factory.js:67-69 | only this setting changes |
| RxStateMachineManager.RxStateMachineManager.SetGuardStateMaxDurationTime | src/physial-layer/rx-state-machine-manager/rx-state-machine-manager.factory.js:71-73 | only this setting changes |
| RxStateMachineManager.RxStateMachineManager.SetSyncStateMaxDurationTime | src/physial-layer/rx-state-machine-manager/rx-state-machine-manager.factory.js:75-77 | only this setting changes |
| RxStateMachineManager.RxStateMachineManager.SetSampleCollectionTimeNoise | src/physial-layer/rx-state-machine-manager/rx-state-machine-manager.factory.js:79-81 | only this setting changes |
| RxStateMachineManager.RxStateMachineManager.SetSampleCollectionTimeSignal | src/physial-layer/rx-state-machine-manager/rx-state-machine-manager.factory.js:83-85 | only this setting changes |
| RxStateMachineManager.RxStateMachineManager.SetSyncPreamble | src/physial-layer/rx-state-machine-manager/rx-state-machine-manager.factory.js:87-89 | only this setting changes |
| RxStateMachineManager.RxStateMachineManager.SetPskSize | src/physial-layer/rx-state-machine-manager/rx-state-machine-manager.factory.js:91-93 | only this setting changes |
| RxStateMachineManager.RxStateMachineManager.HandlerIdleInit | src/physial-layer/rx-state-machine-manager/rx-state-machine-manager.factory.js:95-111 | the new state and result are IdleInitStep of the old state |
| RxStateMachineManager.RxStateMachineManager.HandlerFirstSyncWait | src/physial-layer/rx-state-machine-manager/rx-state-machine-manager.factory.js:113-115 | stays in the state and changes nothing |
| RxStateMachineManager.RxStateMachineManager.HandlerSignalInit | src/physial-layer/rx-state-machine-manager/rx-state-machine-manager.factory.js:117-152 | the new state and result are SignalInitStep of the old state |
| RxStateMachineManager.RxStateMachineManager.HandlerFatalError | src/physial-layer/rx-state-machine-manager/rx-state-machine-manager.factory.js:154-156 | stays in the state and changes nothing |
| RxStateMachineManager.RxStateMachineManager.HandlerIdle | src/physial-layer/rx-state-machine-manager/rx-state-machine-manager.factory.js:158-180 | the new state and result are IdleStep of the old state |
| RxStateMachineManager.RxStateMachineManager.HandlerSymbol | src/physial-layer/rx-state-machine-manager/rx-state-machine-manager.factory.js:182-197 | the new state and result are SymbolStep of the old state |
| RxStateMachineManager.RxStateMachineManager.HandlerSync | src/physial-layer/rx-state-machine-manager/rx-state-machine-manager.factory.js:199-202 | the new state and result are SyncStep of the old state |
| RxStateMachineManager.RxStateMachineManager.HandlerGuard | src/physial-layer/rx-state-machine-manager/rx-state-machine-manager.factory.js:204-232 | the new state and result are GuardStep of the old state for some strongest sample index |
| RxStateMachineManager.RxStateMachineManager.HandlerError | src/physial-layer/rx-state-machine-manager/rx-state-machine-manager.factory.js:234-236 | stays in the state and changes nothing |
| RxStateMachineManager.RxStateMachineManager.CollectPhaseHistory | src/physial-layer/rx-state-machine-manager/rx-state-machine-manager.factory.js:238-243 | appends the time and phase of subcarrier 0 and changes nothing else |
| RxStateMachineManager.RxStateMachineManager.HandlePhaseHistory | src/physial-layer/rx-state-machine-manager/rx-state-machine-manager.factory.js:245-278 | the receive frequency becomes CorrectedFrequency of the old frequency |
| RxStateMachineManager.RxStateMachineManager.HandlePacketSyncPreamble | src/physial-layer/rx-state-machine-manager/rx-state-machine-manager.factory.js:280-290 | each subcarrier's phase is added to its entry of the phase table, and no other entry changes |
| RxStateMachineManager.RxStateMachineManager.PreparePacket | src/physial-layer/rx-state-machine-manager/rx-state-machine-manager.factory.js:292-313 | the nested loops produce PreparedPacket |
| RxStateMachineManager.RxStateMachineManager.Dispatch | src/physial-layer/rx-state-machine-manager/rx-state-machine-manager.factory.js:95-236 | running the handler of any state yields that state's step |
| RxStateMachineManager.RxStateMachineManager.Receive | src/physial-layer/rx-state-machine-manager/rx-state-machine-manager.factory.js:319-346 | NO_INPUT happens exactly when the pilot reads -99 and the two averages are not both set, and then only the current data changes; otherwise pilot presence is power > threshold and the dispatched handler's step is applied |
| PhysicalLayer.GetSymbolMax | example/00-000-common/physical-layer.js:525-540 | max - min + 1 equals the symbol range for every sample rate |
| PhysicalLayer.GetSymbolMin | example/00-000-common/physical-layer.js:525-534 | the configured minimum for 44100, the one for 48000, and the default minimum for any other rate |
| PhysicalLayer.DefaultSymbolRanges | example/00-000-common/physical-layer.js:9-15 | the default settings give 114..371 at 44100, 82..339 at 48000 and 1..258 otherwise |
| PhysicalLayer.SyncSymbols | example/00-000-common/physical-layer.js:198-205 | one symbol per code value: max - 1 for -1 and max for any other value |
| PhysicalLayer.HandleSyncCode | example/00-000-common/physical-layer.js:509-523 | decodes to -1 exactly for max - 1, to +1 exactly for max, and to null for anything else |
| PhysicalLayer.DecodeSyncSymbols | example/00-000-common/physical-layer.js:509-523 | decodes a sequence of symbols one by one |
| PhysicalLayer.SyncRoundTrip | example/00-000-common/physical-layer.js:198-204 | decoding the symbols sent for a +1/-1 code gives back the code |
| PhysicalLayer.SyncOtherValuesDecodeAsPlusOne | example/00-000-common/physical-layer.js:200-202 | any code value other than -1 comes back as +1 |
| PhysicalLayer.SyncSymbolsInRange | example/00-000-common/physical-layer.js:198-205 | with a range of at least two symbols, every synchronisation symbol lies within it |
| PhysicalLayer.HalfPlusOne | example/00-000-common/physical-layer.js:207 | ceil(n/2) + 1: twice the count minus one is n or n + 1 |
| PhysicalLayer.GapImportantPadding | example/00-000-common/physical-layer.js:207-210 | the padding holds ceil(n/2) + 1 GAP_IMPORTANT entries |
| PhysicalLayer.LastNonGap | example/00-000-common/physical-layer.js:376-381 | finds the last non-GAP entry, after which everything is GAP, or reports that all entries are GAP |
| PhysicalLayer.WithoutTrailingGaps | example/00-000-common/physical-layer.js:373-382 | the result is a prefix of the queue, every removed entry is a GAP, it ends in a non-GAP if the queue has one, and a queue of GAPs only is unchanged |
| PhysicalLayer.WithoutTrailingGapsIdempotent | example/00-000-common/physical-layer.js:373-382 | removing trailing GAPs twice equals once |
| PhysicalLayer.WithoutTrailingGapsKeepsOtherSymbols | example/00-000-common/physical-layer.js:373-382 | every non-GAP entry, GAP_IMPORTANT included, stays in place |
| PhysicalLayer.EndingInSymbolKeepsQueue | example/00-000-common/physical-layer.js:376-381 | a queue ending in a non-GAP symbol loses nothing |
| PhysicalLayer.SingleTrailingGapRemoved | example/00-000-common/physical-layer.js:228-230 | the single GAP placed after a symbol is exactly what is removed |
| PhysicalLayer.TxInProgress | example/00-000-common/physical-layer.js:327-329 | no transmission is in progress iff the queue is empty and no symbol is on air |
| PhysicalLayer.GapLogic | example/00-000-common/physical-layer.js:350-371 | from silence the queue becomes two GAPs; during a transmission only the trailing GAPs are removed |
| PhysicalLayer.FirstSymbolFromSilence | example/00-000-common/physical-layer.js:215-233 | a first symbol from silence is queued as GAP, GAP, symbol, GAP |
| PhysicalLayer.ConsecutiveSymbols | example/00-000-common/physical-layer.js:228-230 | a second symbol removes the GAP placed after the first one |
| PhysicalLayer.SymbolAfterSyncKeepsPadding | example/00-000-common/physical-layer.js:207-210 | a symbol queued after txSync keeps all GAP_IMPORTANT padding |
| PhysicalLayer.PhysicalLayerTx.constructor | example/00-000-common/physical-layer.js:124-157 | a new transmitter is idle with an empty queue and the symbol range of its sample rate |
| PhysicalLayer.PhysicalLayerTx.GetTx | example/00-000-common/physical-layer.js:323-331 | reports the current symbol and the queue; a transmission is in progress iff the queue is non-empty or a symbol is on air |
| PhysicalLayer.PhysicalLayerTx.RemoveAllGapSymbolFromTheEndOfTxSymbolQueue | example/00-000-common/physical-layer.js:373-382 | the backward scan leaves WithoutTrailingGaps of the old queue |
| PhysicalLayer.PhysicalLayerTx.HandleGapLogic | example/00-000-common/physical-layer.js:350-371 | the queue becomes GapLogic of the old queue |
| PhysicalLayer.PhysicalLayerTx.TxSymbol | example/00-000-common/physical-layer.js:215-233 | a symbol is accepted iff it is within the symbol range of the current sample rate; if accepted the queue is the gap-handled queue plus symbol and GAP; if rejected (the source throws) the gap logic has still run |
| PhysicalLayer.PhysicalLayerTx.TxSync | example/00-000-common/physical-layer.js:193-213 | the queue becomes the gap-handled queue, then the code's synchronisation symbols for the current rate's maximum, then ceil(n/2) + 1 GAP_IMPORTANT |
| PhysicalLayer.PhysicalLayerTx.SetTxSampleRate | example/00-000-common/physical-layer.js:235-242 | the new rate's symbol range is installed and the queue is emptied |
| PhysicalLayer.PhysicalLayerTx.Tx | example/00-000-common/physical-layer.js:466-491 | acts only at sample offset 0: the queue head goes on air (the queue shrinks by one), or the transmitter falls idle; tx just started iff previously idle with a non-empty queue; tx just ended iff previously on air and now idle |

## Left out

- The state-machine driver is not part of this model. It owns the transition logic and the maximum-duration timers. `Receive` takes the state the driver dispatches and the state duration time instead of the wall-clock `time`, and reports the pilot presence it would hand to the driver.
- The HTML diagnostics string that `receive` returns is not modelled. Logging and UI refreshes are not modelled either.
- The global physical-layer object is replaced by fields of the manager: the receive frequency of subcarrier 0 (`rxFrequency`) and the phase-correction table (`phaseCorrection`). The packet receive handler becomes a flag (`hasPacketHandler`) plus a log of delivered packets (`delivered`). The restart request becomes a pending flag (`resetScheduled`).
- The source keeps each scalar and list in its own field. The model groups them into records (`config`, `power`, `history`), and handlers replace a record with an updated copy. The order of individual field writes within one handler is therefore not modelled.
- The averaging, minimum, maximum and strongest-index helpers are specified by what they return; their source is not part of this model.
- RxStateMachineManager.RxStateMachineManager.HandlerGuard: picks some strongest entry; the source helper's tie-break is not modelled.
- Floating point is modelled as real arithmetic. Binary rounding of 0.43 * n and 0.57 * n is ignored.
- RxStateMachineManager.HandlerDefined: cases where the source computes NaN are excluded by preconditions. These are the mean of an empty history (the first tick already past the collection time), a packet with rows beyond the preamble delivered with no PSK size set, and two drift points recorded at the same state duration time (the times are per-state durations, so this can happen: the source then computes NaN when the two phases are equal, and sets the receive frequency to plus or minus Infinity when they differ). A packet holding only the preamble is delivered as an empty packet whatever the PSK size.
- The receive path of the physical layer is not modelled: FFT, threshold, sampling point and sync detector. Audio input and output, the oscillator, the listeners and the microphone toggling are not modelled either. `Tx` returns the started/ended flags that drive the microphone.
- PhysicalLayer.PhysicalLayerTx.TxSymbol: the symbol is an integer, so `parseInt` of strings or fractions is not modelled.
- PhysicalLayer.PhysicalLayerTx.Tx: the sample offset is a parameter. The timer listener that derives it from the sample number is not modelled.
- PhysicalLayer.HandleSyncCode: handing the decoded value to the sync detector is not modelled.
- The FSK synchronisation demo page is UI wiring and is not part of this model.
